/**
 * Sequence numbers of a session: a wrapping 32-bit counter that skips 0 and every number still in
 * use.
 */
module Seqnum {
  import opened Common

  /** The `k`-th candidate after `last`. */
  function Candidate(last: nat, k: nat): nat {
    (last + k) % WORD
  }

  predicate Free(used: set<nat>, v: nat) {
    v != 0 && v < WORD && v !in used
  }

  ghost predicate HasFree(used: set<nat>) {
    exists v :: Free(used, v)
  }

  /** The candidates from the `k`-th on, in the order the counter visits them. */
  ghost function Probe(used: set<nat>, last: nat, k: nat): (r: nat)
    requires 1 <= k <= WORD + 1
    decreases WORD + 1 - k
  {
    if k > WORD then Beyond(used)
    else if Free(used, Candidate(last, k)) then Candidate(last, k)
    else Probe(used, last, k + 1)
  }

  /**
   * The number handed out after `last`. When all 2^32 - 1 numbers are taken the counter would spin
   * for ever; the value is then outside the 32-bit range (see `NextInRangeIffFree`), so statements
   * that hold of every value hold of every allocation that happens.
   */
  ghost function Next(used: set<nat>, last: nat): (r: nat) {
    Probe(used, last, 1)
  }

  ghost function Beyond(used: set<nat>): (r: nat)
    ensures r >= WORD && r !in used
  {
    BeyondExists(used, WORD);
    var r :| r >= WORD && r !in used;
    r
  }

  lemma {:induction false} BeyondExists(used: set<nat>, low: nat)
    ensures exists r :: r >= low && r !in used
    decreases used
  {
    if low in used {
      BeyondExists(used - {low}, low + 1);
      var r :| r >= low + 1 && r !in used - {low};
      assert r >= low && r !in used;
    } else {
      assert low >= low && low !in used;
    }
  }

  lemma {:induction false} ProbeFresh(used: set<nat>, last: nat, k: nat)
    requires 1 <= k <= WORD + 1
    ensures Probe(used, last, k) != 0 && Probe(used, last, k) !in used
    decreases WORD + 1 - k
  {
    if k <= WORD && !Free(used, Candidate(last, k)) {
      ProbeFresh(used, last, k + 1);
    }
  }

  /** Whatever `Next` returns, it collides with nothing in use. */
  lemma NextFresh(used: set<nat>, last: nat)
    ensures Next(used, last) != 0 && Next(used, last) !in used
  {
    ProbeFresh(used, last, 1);
  }

  lemma {:induction false} ProbeFirst(used: set<nat>, last: nat, k: nat, n: nat)
    requires 1 <= k <= n <= WORD
    requires Free(used, Candidate(last, n))
    requires forall j :: k <= j < n ==> !Free(used, Candidate(last, j))
    ensures Probe(used, last, k) == Candidate(last, n)
    decreases n - k
  {
    if k < n {
      ProbeFirst(used, last, k + 1, n);
    }
  }

  /** `Next` is the first free candidate cyclically after `last`. */
  lemma NextIsFirstFree(used: set<nat>, last: nat, n: nat)
    requires 1 <= n <= WORD
    requires Free(used, Candidate(last, n))
    requires forall j :: 1 <= j < n ==> !Free(used, Candidate(last, j))
    ensures Next(used, last) == Candidate(last, n)
  {
    ProbeFirst(used, last, 1, n);
  }

  /** Every number is a candidate within one turn of the counter. */
  lemma CandidateReaches(last: nat, v: nat) returns (k: nat)
    requires v < WORD
    ensures 1 <= k <= WORD && Candidate(last, k) == v
  {
    k := if v > last % WORD then v - last % WORD else v + WORD - last % WORD;
    assert last + k == (last - last % WORD) + (last % WORD + k);
    assert last - last % WORD == (last / WORD) * WORD;
    var q := if v > last % WORD then last / WORD else last / WORD + 1;
    assert last + k == q * WORD + v;
    assert (q * WORD + v) % WORD == v;
  }

  lemma {:induction false} ProbeInRange(used: set<nat>, last: nat, k: nat, n: nat)
    requires 1 <= k <= n <= WORD
    requires Free(used, Candidate(last, n))
    ensures Free(used, Probe(used, last, k))
    decreases n - k
  {
    if !Free(used, Candidate(last, k)) {
      ProbeInRange(used, last, k + 1, n);
    }
  }

  /** The counter stops exactly when some number is free. */
  lemma NextInRangeIffFree(used: set<nat>, last: nat)
    ensures Next(used, last) < WORD <==> HasFree(used)
    ensures HasFree(used) ==> Free(used, Next(used, last))
  {
    NextFresh(used, last);
    assert Next(used, last) < WORD ==> Free(used, Next(used, last));
    if HasFree(used) {
      var v :| Free(used, v);
      var k := CandidateReaches(last, v);
      ProbeInRange(used, last, 1, k);
    }
  }

  function Upto(n: nat): (s: set<nat>)
    ensures forall v :: v in s <==> 1 <= v <= n
  {
    if n == 0 then {} else Upto(n - 1) + {n}
  }

  lemma {:induction false} UptoSize(n: nat)
    ensures |Upto(n)| == n
  {
    if n > 0 {
      UptoSize(n - 1);
    }
  }

  lemma SubsetSize(a: set<nat>, b: set<nat>)
    requires a <= b
    ensures |a| <= |b|
  {
    assert b == a + (b - a);
  }

  /** Pigeonhole: fewer than 2^32 - 1 numbers in use leave one free. */
  lemma RoomLeavesFree(used: set<nat>)
    requires |used| < WORD - 1
    ensures HasFree(used)
  {
    UptoSize(WORD - 1);
    if Upto(WORD - 1) <= used {
      SubsetSize(Upto(WORD - 1), used);
    } else {
      var v :| v in Upto(WORD - 1) && v !in used;
      assert Free(used, v);
    }
  }

  /** Before the counter wraps, it simply counts. */
  lemma NextCounts(used: set<nat>, last: nat)
    requires last + 1 < WORD
    requires forall u :: u in used ==> u <= last
    ensures Next(used, last) == last + 1
  {
    assert Candidate(last, 1) == last + 1;
    assert Free(used, Candidate(last, 1));
  }
}
