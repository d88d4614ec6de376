/**
 * The writer task: it takes queued frames in order, joins what is waiting into batches, and writes
 * them. What has been written is always the first so many commands, whole and in issue order.
 */
module Writer {
  import opened Common
  import opened Wire
  import opened Session
  import opened SessionProofs
  import opened SessionRuns

  const BATCH: nat := 256 * 1024

  function Flatten(cs: seq<Command>): seq<byte> {
    if cs == [] then [] else Encode(cs[0]) + Flatten(cs[1..])
  }

  lemma {:induction false} FlattenAppend(a: seq<Command>, b: seq<Command>)
    ensures Flatten(a + b) == Flatten(a) + Flatten(b)
  {
    hide Encode;
    if a == [] {
      assert a + b == b;
    } else {
      FlattenAppend(a[1..], b);
      assert (a + b)[0] == a[0] && (a + b)[1..] == a[1..] + b;
      var x, y, z := Encode(a[0]), Flatten(a[1..]), Flatten(b);
      assert x + (y + z) == x + y + z;
    }
  }

  class Writer {
    /** Frames taken off the queue, and the bytes written so far. */
    var taken: nat
    var written: seq<byte>

    /** Everything taken off the queue has been written, frame by frame. */
    ghost predicate Valid(queue: seq<Command>)
      reads this
    {
      taken <= |queue| && written == Flatten(queue[..taken])
    }

    constructor (ghost queue: seq<Command>)
      ensures Valid(queue) && taken == 0
    {
      taken, written := 0, [];
    }

    /**
     * One turn of the loop: waits for a frame, takes what else is there while the batch is below
     * its limit, and writes it. `ok` is whether the write succeeds; if not, the loop ends, and how
     * much of the batch got out is not known.
     */
    method WriteBatch(queue: seq<Command>, ok: bool)
      requires Valid(queue) && taken < |queue|
      modifies this
      ensures ok ==> Valid(queue) && taken > old(taken)
      ensures !ok ==> written == old(written) && taken > old(taken)
      ensures taken <= |queue|
      ensures |Flatten(queue[old(taken)..taken - 1])| < 256 * 1024
      ensures taken == |queue| || |Flatten(queue[old(taken)..taken])| >= 256 * 1024
    {
      hide Encode;
      ghost var first := taken;
      var batch := Encode(queue[taken]);
      assert queue[first..first + 1] == [queue[first]] && [queue[first]][1..] == [];
      assert batch + [] == batch;
      taken := taken + 1;
      assert queue[first..taken - 1] == [];
      while |batch| < BATCH && taken < |queue|
        invariant first < taken <= |queue| && written == old(written)
        invariant batch == Flatten(queue[first..taken])
        invariant |Flatten(queue[first..taken - 1])| < BATCH
      {
        var c := queue[taken];
        assert queue[first..taken + 1] == queue[first..taken] + [c] && [c][1..] == [];
        FlattenAppend(queue[first..taken], [c]);
        assert Flatten([c]) == Encode(c) by { assert Encode(c) + [] == Encode(c); }
        batch := batch + Encode(c);
        taken := taken + 1;
      }
      if ok {
        FlattenAppend(queue[..first], queue[first..taken]);
        assert queue[..first] + queue[first..taken] == queue[..taken];
        written := written + batch;
      }
    }
  }

  // ---------------------------------------------------------------- what the server makes of it

  function DecodeAll(b: seq<byte>): Option<seq<Command>>
    decreases |b|
  {
    if b == [] then Some([])
    else
      match Decode(b)
      case None => None
      case Some(p) =>
        if |p.rest| >= |b| then None
        else
          match DecodeAll(p.rest)
          case None => None
          case Some(cs) => Some([p.value] + cs)
  }

  ghost predicate Decodable(c: Command) {
    Consistent(c) && (c.Submit? ==> |c.submit.isoPackets| <= MAX_ISO_PACKETS)
  }

  lemma {:induction false} StreamDecodes(cs: seq<Command>)
    requires forall c :: c in cs ==> Decodable(c)
    ensures DecodeAll(Flatten(cs)) == Some(cs)
  {
    hide Encode, Decode;
    if cs != [] {
      var rest := Flatten(cs[1..]);
      assert Decodable(cs[0]);
      CommandRoundTrip(cs[0], rest);
      StreamDecodes(cs[1..]);
      var b := Flatten(cs);
      assert b == Encode(cs[0]) + rest;
      assert DecodeAll(rest) == Some(cs[1..]);
      assert [cs[0]] + cs[1..] == cs;
    }
  }

  /** Every command queued while fewer than 2^32 numbers are handed out is consistent. */
  ghost predicate AllConsistent(s: State) {
    forall i :: 0 <= i < |s.frames| ==> Consistent(s.frames[i])
  }

  lemma StepKeepsConsistent(s: State, e: Event)
    requires AllConsistent(s) && Counting(s) && Counting(Step(s, e)) && Step(s, e).issued < WORD
    ensures AllConsistent(Step(s, e))
  {
    hide Seqnum.Next;
    var t := Step(s, e);
    if |t.frames| > |s.frames| {
      assert NumberOf(t.frames[|s.frames|]) == |t.frames|;
    }
  }

  lemma {:induction false} RunKeepsConsistent(s: State, es: seq<Event>)
    requires Sound(s) && AllConsistent(s) && Counting(s) && Possible(s, es)
    requires Run(s, es).issued < WORD
    ensures AllConsistent(Run(s, es))
    decreases |es|
  {
    hide AllConsistent, Counting, Step, Enabled, Sound;
    if es != [] {
      var t := Step(s, es[0]);
      RunIssues(t, es[1..]);
      StepKeepsSound(s, es[0]);
      StepKeepsCounting(s, es[0]);
      StepKeepsConsistent(s, es[0]);
      RunKeepsConsistent(t, es[1..]);
    }
  }

  lemma {:induction false} RunQueuesMore(s: State, es: seq<Event>)
    requires Sound(s) && Possible(s, es)
    ensures s.frames <= Run(s, es).frames
    decreases |es|
  {
    hide Step, Enabled;
    if es != [] {
      assert Accounted(s);
      StepKeepsSound(s, es[0]);
      hide Sound;
      StepKeepsAnswers(s, es[0]);
      RunQueuesMore(Step(s, es[0]), es[1..]);
    }
  }

  /**
   * The session goes on between two batches: whatever it queues meanwhile, what has been written is
   * still the first frames of its queue, so that the next batch carries on from there.
   */
  lemma QueueGrowsBetweenBatches(w: Writer, s: State, es: seq<Event>)
    requires Sound(s) && Possible(s, es) && w.Valid(s.frames)
    ensures w.Valid(Run(s, es).frames)
  {
    hide Sound, Possible;
    RunQueuesMore(s, es);
    assert Run(s, es).frames[..w.taken] == s.frames[..w.taken];
  }

  /**
   * End to end: in any session run with fewer than 2^32 numbers handed out and at most 1024 packets
   * per request, the bytes the writer has written after taking `n` frames decode to exactly the
   * first `n` commands in the order they were issued.
   */
  lemma ServerSeesCommandsInOrder(devid: u32, es: seq<Event>, n: nat)
    requires Possible(Init(devid), es) && Run(Init(devid), es).issued < WORD
    requires n <= |Run(Init(devid), es).frames|
    requires forall c :: c in Run(Init(devid), es).frames && c.Submit? ==>
               |c.submit.isoPackets| <= MAX_ISO_PACKETS
    ensures var queue := Run(Init(devid), es).frames;
            DecodeAll(Flatten(queue[..n])) == Some(queue[..n])
  {
    RunKeepsConsistent(Init(devid), es);
    var queue := Run(Init(devid), es).frames;
    forall c | c in queue[..n]
      ensures Decodable(c)
    {
      assert c in queue;
    }
    StreamDecodes(queue[..n]);
  }

  /** The same of the writer's own record: whenever its writes have succeeded. */
  lemma WrittenBytesDecode(w: Writer, devid: u32, es: seq<Event>)
    requires Possible(Init(devid), es) && Run(Init(devid), es).issued < WORD
    requires w.Valid(Run(Init(devid), es).frames)
    requires forall c :: c in Run(Init(devid), es).frames && c.Submit? ==>
               |c.submit.isoPackets| <= MAX_ISO_PACKETS
    ensures DecodeAll(w.written) == Some(Run(Init(devid), es).frames[..w.taken])
  {
    ServerSeesCommandsInOrder(devid, es, w.taken);
  }
}
