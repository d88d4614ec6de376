/**
 * The frame clock: a free-running tick counter mapped onto 1 ms USB frames and back by integer
 * division. The host shuts the controller down if two reports carry the same frame.
 */
module FrameClock {
  import opened Common

  const MILLION: nat := 1_000_000
  /** One past the largest `u64`; the conversions below cut to 64 bits. */
  const LONG: nat := 0x1_0000_0000_0000_0000

  /** Ticks since the epoch to frames, for `numer / denom` nanoseconds a tick. */
  function FrameOf(ticks: nat, numer: nat, denom: nat): nat
    requires denom > 0
  {
    ticks * numer / Size(denom) % LONG
  }

  /** Frames to the tick, since the epoch, at which they begin. */
  function TicksOf(frame: nat, numer: nat, denom: nat): nat
    requires numer > 0
  {
    Begin(frame, numer, denom) % LONG
  }

  /** `TicksOf` before the cut to 64 bits. */
  function Begin(frame: nat, numer: nat, denom: nat): nat
    requires numer > 0
  {
    frame * Size(denom) / numer
  }

  /** A frame in units of `1 / numer` of a tick. */
  function Size(denom: nat): nat {
    denom * MILLION
  }

  /** A tick lasts at most a frame, and not no time at all. */
  predicate Timebase(numer: nat, denom: nat) {
    1 <= numer <= Size(denom)
  }

  // ---------------------------------------------------------------- integer division

  lemma Quotient(a: nat, b: nat)
    requires b > 0
    ensures a / b * b <= a < a / b * b + b
  {
    assert a == b * (a / b) + a % b;
  }

  lemma Times(x: nat, y: nat, z: nat)
    requires x <= y
    ensures x * z <= y * z
  {
  }

  lemma CancelTimes(x: nat, y: nat, z: nat)
    requires x * z < y * z
    ensures x < y
  {
    if y <= x { Times(y, x, z); }
  }

  /** The quotient is what fits. */
  lemma QuotientIs(a: nat, b: nat, q: nat)
    requires b > 0 && q * b <= a < q * b + b
    ensures a / b == q
  {
    Quotient(a, b);
    var p := a / b;
    assert q * b + b == (q + 1) * b && p * b + b == (p + 1) * b;
    CancelTimes(p, q + 1, b);
    CancelTimes(q, p + 1, b);
  }

  lemma QuotientAtMost(a: nat, b: nat, q: nat)
    requires b > 0 && a <= q * b
    ensures a / b <= q
  {
    Quotient(a, b);
    assert (q + 1) * b == q * b + b;
    CancelTimes(a / b, q + 1, b);
  }

  // ---------------------------------------------------------------- there and back

  lemma NoMoreFramesThanTicks(ticks: nat, numer: nat, d: nat)
    requires 1 <= numer <= d
    ensures ticks * numer / d <= ticks
  {
    Times(numer, d, ticks);
    assert ticks * numer == numer * ticks && ticks * d == d * ticks;
    QuotientAtMost(ticks * numer, d, ticks);
  }

  lemma SmallStays(n: nat)
    requires n < LONG
    ensures n % LONG == n
  {
  }

  /** The frame whose span a tick falls into. */
  lemma FrameOfIs(ticks: nat, numer: nat, denom: nat, q: nat)
    requires denom > 0 && q < LONG
    requires q * Size(denom) <= ticks * numer < q * Size(denom) + Size(denom)
    ensures FrameOf(ticks, numer, denom) == q
  {
    hide Size;
    assert Size(denom) > 0 by { SizePositive(denom); }
    QuotientIs(ticks * numer, Size(denom), q);
    SmallStays(q);
  }

  lemma SizePositive(denom: nat)
    ensures denom > 0 <==> Size(denom) > 0
  {
  }

  /** The conversions of a 64-bit tick count lose nothing when cut to 64 bits. */
  lemma FramesFit(ticks: nat, numer: nat, denom: nat)
    requires Timebase(numer, denom) && ticks < LONG
    ensures denom > 0 && FrameOf(ticks, numer, denom) == ticks * numer / Size(denom) <= ticks
  {
    SizePositive(denom);
    hide Size, FrameOf;
    var n := ticks * numer / Size(denom);
    NoMoreFramesThanTicks(ticks, numer, Size(denom));
    Quotient(ticks * numer, Size(denom));
    FrameOfIs(ticks, numer, denom, n);
  }

  /** Frames are milliseconds: 1,000,000 ns, at `numer / denom` ns a tick. */
  lemma FramesAreMilliseconds(ticks: nat, frame: nat, numer: nat, denom: nat)
    requires Timebase(numer, denom) && ticks < LONG
    ensures var f, ms := FrameOf(ticks, numer, denom), denom * 1_000_000;
            f * ms <= ticks * numer < f * ms + ms
    ensures var t, ms := Begin(frame, numer, denom), denom * 1_000_000;
            t * numer <= frame * ms < t * numer + numer
  {
    FramesFit(ticks, numer, denom);
    SizePositive(denom);
    assert Size(denom) == denom * 1_000_000;
    hide Size, FrameOf;
    Quotient(ticks * numer, Size(denom));
    Quotient(frame * Size(denom), numer);
  }

  lemma FrameBegan(ticks: nat, numer: nat, denom: nat)
    requires Timebase(numer, denom) && ticks < LONG
    ensures Begin(FrameOf(ticks, numer, denom), numer, denom) <= ticks
  {
    FramesFit(ticks, numer, denom);
    hide Size, FrameOf;
    var f := FrameOf(ticks, numer, denom);
    SizePositive(denom);
    Quotient(ticks * numer, Size(denom));
    QuotientAtMost(f * Size(denom), numer, ticks);
  }

  /** A frame reported at some tick began at or before it, and the cast to 64 bits is lossless. */
  lemma FrameBeginsBeforeNow(ticks: nat, numer: nat, denom: nat)
    requires Timebase(numer, denom) && ticks < LONG
    ensures var f := FrameOf(ticks, numer, denom);
            && TicksOf(f, numer, denom) <= ticks
            && TicksOf(f, numer, denom) == Begin(f, numer, denom)
  {
    hide FrameOf, Begin, Size;
    SizePositive(denom);
    FrameBegan(ticks, numer, denom);
    SmallStays(Begin(FrameOf(ticks, numer, denom), numer, denom));
  }

  /**
   * Going to the start of a frame and back loses at most one frame, and loses none exactly when
   * the frame starts on a tick.
   */
  lemma BackAndForth(frame: nat, numer: nat, denom: nat)
    requires Timebase(numer, denom) && Begin(frame, numer, denom) < LONG
    ensures var back := FrameOf(TicksOf(frame, numer, denom), numer, denom);
            && (back == frame || back == frame - 1)
            && (back == frame <==> frame * Size(denom) % numer == 0)
  {
    hide Size, FrameOf;
    var d, t := Size(denom), Begin(frame, numer, denom);
    SizePositive(denom);
    SmallStays(t);
    Quotient(frame * d, numer);
    Remainder(frame * d, numer);
    FrameBound(frame, d, numer, t);
    if frame * d % numer == 0 {
      FrameOfIs(t, numer, denom, frame);
    } else {
      OneLess(frame, d);
      FrameOfIs(t, numer, denom, frame - 1);
    }
  }

  lemma Remainder(a: nat, b: nat)
    requires b > 0
    ensures a % b == a - a / b * b
  {
    assert a == b * (a / b) + a % b;
  }

  /** Frames are no more than ticks. */
  lemma FrameBound(frame: nat, d: nat, numer: nat, t: nat)
    requires 1 <= numer <= d && frame * d < t * numer + numer && t < LONG
    ensures frame < LONG
  {
    Times(numer, d, t + 1);
    assert (t + 1) * numer == t * numer + numer;
    assert numer * (t + 1) == (t + 1) * numer && d * (t + 1) == (t + 1) * d;
    CancelTimes(frame, t + 1, d);
  }

  lemma OneLess(frame: nat, d: nat)
    ensures frame == 0 ==> frame * d == 0
    ensures frame > 0 ==> frame * d == (frame - 1) * d + d
  {
  }

  lemma MultipleDivides(k: nat, d: nat, n: nat)
    requires n > 0 && d % n == 0
    ensures k * d % n == 0
  {
    var q := d / n;
    Remainder(d, n);
    assert k * d == k * (q * n);
    assert k * (q * n) == k * q * n;
    QuotientIs(k * q * n, n, k * q);
    Remainder(k * q * n, n);
  }

  /** If frames are whole numbers of ticks, nothing is lost at all. */
  lemma WholeTicksLoseNothing(frame: nat, numer: nat, denom: nat)
    requires Timebase(numer, denom) && Begin(frame, numer, denom) < LONG
    requires Size(denom) % numer == 0
    ensures FrameOf(TicksOf(frame, numer, denom), numer, denom) == frame
  {
    SizePositive(denom);
    hide Size, FrameOf, TicksOf, Begin;
    BackAndForth(frame, numer, denom);
    MultipleDivides(frame, Size(denom), numer);
  }

  /** Later frames begin later, for every frame, exactly when a tick is no longer than a frame. */
  lemma LaterFramesBeginLater(numer: nat, denom: nat)
    requires 1 <= numer && denom > 0
    ensures (forall f: nat, g: nat :: f < g ==> Begin(f, numer, denom) < Begin(g, numer, denom))
            <==> Timebase(numer, denom)
  {
    if Timebase(numer, denom) {
      forall f: nat, g: nat | f < g
        ensures Begin(f, numer, denom) < Begin(g, numer, denom)
      {
        BeginGrows(f, g, numer, denom);
      }
    } else {
      assert 0 * Size(denom) == 0 && 1 * Size(denom) == Size(denom);
      assert 0 * numer == 0;
      QuotientIs(0, numer, 0);
      QuotientIs(Size(denom), numer, 0);
      assert Begin(0, numer, denom) == Begin(1, numer, denom);
    }
  }

  lemma BeginGrows(f: nat, g: nat, numer: nat, denom: nat)
    requires Timebase(numer, denom) && f < g
    ensures Begin(f, numer, denom) < Begin(g, numer, denom)
  {
    var d := Size(denom);
    var p, q := f * d / numer, g * d / numer;
    Quotient(f * d, numer);
    Quotient(g * d, numer);
    Times(f + 1, g, d);
    assert (f + 1) * d == f * d + d;
    assert p * numer + numer <= f * d + d;
    assert (p + 1) * numer == p * numer + numer && (q + 1) * numer == q * numer + numer;
    CancelTimes(p + 1, q + 1, numer);
  }

  // ---------------------------------------------------------------- the clock

  class FrameClock {
    const epoch: nat
    const numer: nat
    const denom: nat
    var last: Option<nat>

    ghost predicate Valid()
      reads this
    {
      && Timebase(numer, denom)
      // What was reported came from a reading of the clock.
      && (last.Some? ==> Begin(last.value, numer, denom) < LONG)
    }

    constructor (epoch: nat, numer: nat, denom: nat)
      requires Timebase(numer, denom)
      ensures Valid() && last == None && this.epoch == epoch
      ensures this.numer == numer && this.denom == denom
    {
      this.epoch, this.numer, this.denom, this.last := epoch, numer, denom, None;
    }

    function FrameAt(ticks: nat): nat
      requires Timebase(numer, denom) && ticks >= epoch
    {
      FrameOf(ticks - epoch, numer, denom)
    }

    function StartOf(frame: nat): nat
      requires Timebase(numer, denom)
    {
      epoch + TicksOf(frame, numer, denom)
    }

    /**
     * Reads the clock until it shows a frame later than the last one reported. `readings` are what
     * the clock shows, one after the other.
     */
    method Next(readings: seq<nat>) returns (frame: nat, time: nat, ghost k: nat)
      requires Valid()
      requires forall i :: 0 <= i < |readings| ==> epoch <= readings[i] < LONG
      requires exists i :: 0 <= i < |readings|
                           && (last.Some? ==> FrameAt(readings[i]) > last.value)
      modifies this`last
      ensures Valid() && last == Some(frame)
      ensures k < |readings| && frame == FrameAt(readings[k])
      ensures forall i :: 0 <= i < k ==> old(last).Some? && FrameAt(readings[i]) <= old(last).value
      ensures time == StartOf(frame) && epoch <= time <= readings[k]
      ensures old(last).Some? ==> frame > old(last).value && time > StartOf(old(last).value)
    {
      hide FrameOf, Begin, Size;
      var i := 0;
      frame := FrameAt(readings[0]);
      while last.Some? && frame <= last.value
        invariant 0 <= i < |readings| && frame == FrameAt(readings[i])
        invariant forall j :: 0 <= j < i ==> last.Some? && FrameAt(readings[j]) <= last.value
        decreases |readings| - i
      {
        i := i + 1;
        frame := FrameAt(readings[i]);
      }
      k := i;
      ghost var before := last;
      FrameBegan(readings[i] - epoch, numer, denom);
      FrameBeginsBeforeNow(readings[i] - epoch, numer, denom);
      last := Some(frame);
      time := StartOf(frame);
      if before.Some? {
        BeginGrows(before.value, frame, numer, denom);
      }
    }
  }
}
