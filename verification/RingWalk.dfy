/**
 * Finding the message some positions after a ring's head in memory. Messages sit in arrays joined
 * by link messages; the walk is bounded in case a malformed ring links back on itself.
 */
module RingWalk {
  import opened Common

  /** What a memory cell holds: nothing valid, a link to an address (0 is null), or a message. */
  datatype Cell = Blank | LinkTo(address: nat) | Item

  type Memory = nat -> Cell

  // ---------------------------------------------------------------- walking cell by cell

  /** How a walk ends, or where it stands after looking at a given number of cells. */
  datatype Walk = Found(at: nat) | DeadEnd | Standing(at: nat, remaining: nat)

  /** Looks at `steps` cells from `at` on, for the message after `remaining` others. */
  function WalkFor(mem: Memory, at: nat, remaining: nat, steps: nat): Walk
    decreases steps
  {
    if steps == 0 then Standing(at, remaining)
    else
      match mem(at)
      case Blank => DeadEnd
      case LinkTo(0) => DeadEnd
      case LinkTo(next) => WalkFor(mem, next, remaining, steps - 1)
      case Item => if remaining == 0 then Found(at) else WalkFor(mem, at + 1, remaining - 1, steps - 1)
  }

  datatype Landing = OnCell(at: nat) | OnNull | TooManyLinks

  /** Where the links from `at` on lead, following at most `links` of them. */
  function Skip(mem: Memory, at: nat, links: nat): Landing
    decreases links
  {
    if !mem(at).LinkTo? then OnCell(at)
    else if links == 0 then TooManyLinks
    else if mem(at).address == 0 then OnNull
    else Skip(mem, mem(at).address, links - 1)
  }

  /**
   * The `k`-th message from `at` on, defined message by message: behind each message the next one
   * is found by following links until there is none. `None` if a blank cell or null comes first.
   */
  ghost function Nth(mem: Memory, at: nat, k: nat): Option<nat>
    requires FewLinks(mem, at, k)
    decreases k
  {
    match Skip(mem, at, 3)
    case OnNull => None
    case OnCell(first) =>
      if !mem(first).Item? then None
      else if k == 0 then Some(first)
      else Nth(mem, first + 1, k - 1)
  }

  /** At most three links precede each of the messages 0 to `k`, as far as there are any. */
  ghost predicate FewLinks(mem: Memory, at: nat, k: nat)
    decreases k
  {
    match Skip(mem, at, 3)
    case TooManyLinks => false
    case OnNull => true
    case OnCell(first) => k > 0 && mem(first).Item? ==> FewLinks(mem, first + 1, k - 1)
  }

  lemma {:induction false} SkipIsWalk(mem: Memory, at: nat, remaining: nat, links: nat, steps: nat)
    returns (used: nat)
    requires !Skip(mem, at, links).TooManyLinks? && steps > links
    ensures used <= links
    ensures var landing := Skip(mem, at, links);
            WalkFor(mem, at, remaining, steps)
            == if landing.OnNull? then DeadEnd
               else WalkFor(mem, landing.at, remaining, steps - used)
    ensures Skip(mem, at, links).OnCell? ==> !mem(Skip(mem, at, links).at).LinkTo?
    decreases links
  {
    if !mem(at).LinkTo? || mem(at).address == 0 {
      used := 0;
    } else {
      used := SkipIsWalk(mem, mem(at).address, remaining, links - 1, steps - 1);
      used := used + 1;
    }
  }

  /** More steps do not change how a walk ends. */
  lemma {:induction false} EndedWalkStays(mem: Memory, at: nat, remaining: nat, steps: nat,
                                          more: nat)
    requires !WalkFor(mem, at, remaining, steps).Standing? && steps <= more
    ensures WalkFor(mem, at, remaining, more) == WalkFor(mem, at, remaining, steps)
    decreases steps
  {
    if steps > 0 {
      match mem(at) {
        case LinkTo(next) =>
          if next != 0 { EndedWalkStays(mem, next, remaining, steps - 1, more - 1); }
        case Item =>
          if remaining > 0 { EndedWalkStays(mem, at + 1, remaining - 1, steps - 1, more - 1); }
        case Blank =>
      }
    }
  }

  /**
   * Four looks per message are enough when at most three links precede each: the bounded walk
   * finds exactly the message that the message-by-message definition names.
   */
  lemma {:induction false} BoundSuffices(mem: Memory, at: nat, k: nat)
    requires FewLinks(mem, at, k)
    ensures WalkFor(mem, at, k, (k + 1) * 4)
            == match Nth(mem, at, k) { case Some(p) => Found(p) case None => DeadEnd }
    decreases k
  {
    var landing := Skip(mem, at, 3);
    var steps := (k + 1) * 4;
    var used := SkipIsWalk(mem, at, k, 3, steps);
    if landing.OnCell? && mem(landing.at).Item? && k > 0 {
      BoundSuffices(mem, landing.at + 1, k - 1);
      EndedWalkStays(mem, landing.at + 1, k - 1, k * 4, steps - used - 1);
    }
  }

  /**
   * Conversely, a walk still standing after four looks per message has met more than three links
   * before one of them; nothing else cuts it short.
   */
  lemma CutShortOnlyByLinks(mem: Memory, at: nat, k: nat)
    requires WalkFor(mem, at, k, (k + 1) * 4).Standing?
    ensures !FewLinks(mem, at, k)
  {
    if FewLinks(mem, at, k) {
      BoundSuffices(mem, at, k);
    }
  }

  // ---------------------------------------------------------------- the program's walk

  /** The message `ahead` positions after the head. */
  method MessageAt(mem: Memory, head: nat, ahead: nat) returns (r: Option<nat>)
    ensures var walk := WalkFor(mem, head, ahead, (ahead + 1) * 4);
            r == if walk.Found? then Some(walk.at) else None
    ensures r.Some? ==> mem(r.value) == Item
    ensures FewLinks(mem, head, ahead) ==> r == Nth(mem, head, ahead)
  {
    if FewLinks(mem, head, ahead) {
      BoundSuffices(mem, head, ahead);
    }
    var at, remaining := head, ahead;
    var bound := (ahead + 1) * 4;
    for i := 0 to bound
      invariant WalkFor(mem, head, ahead, bound) == WalkFor(mem, at, remaining, bound - i)
    {
      match mem(at) {
        case Blank => return None;
        case LinkTo(next) =>
          if next == 0 {
            return None;
          }
          at := next;
        case Item =>
          if remaining == 0 {
            return Some(at);
          }
          remaining := remaining - 1;
          at := at + 1;
      }
    }
    return None;
  }
}
