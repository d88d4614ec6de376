/**
 * Hiding USB Attached SCSI from a configuration descriptor.
 *
 * A configuration (section 9.6.3 of the USB 2.0 specification) is a header followed by a chain of
 * descriptors, each starting with its own length. The chain falls into segments: an interface
 * descriptor (section 9.6.5) together with the descriptors that belong to it, an interface
 * association with what follows it up to the next interface, and whatever precedes both.
 */
module HideUas {
  import opened Common

  type Descriptor = seq<byte>
  type Segment = seq<Descriptor>

  const CONFIGURATION: byte := 2
  const INTERFACE: byte := 4
  const ASSOCIATION: byte := 0x0b

  datatype Filtered = Filtered(bytes: seq<byte>, original: nat, total: nat)

  // ---------------------------------------------------------------- descriptor chains

  predicate WellFormed(d: Descriptor) {
    |d| >= 2 && d[0] == |d|
  }

  predicate AllWellFormed(ds: seq<Descriptor>) {
    forall d :: d in ds ==> WellFormed(d)
  }

  /** The chain `b` consists of, unless a length is less than 2 or runs past the end. */
  function Split(b: seq<byte>): (r: Option<seq<Descriptor>>)
    ensures r.Some? ==> AllWellFormed(r.value)
    decreases |b|
  {
    if b == [] then Some([])
    else if b[0] < 2 || b[0] > |b| then None
    else
      match Split(b[b[0]..])
      case None => None
      case Some(ds) => Some([b[..b[0]]] + ds)
  }

  function Concat(ds: seq<Descriptor>): seq<byte> {
    if ds == [] then [] else ds[0] + Concat(ds[1..])
  }

  lemma {:induction false} SplitInvertsConcat(ds: seq<Descriptor>)
    requires AllWellFormed(ds)
    ensures Split(Concat(ds)) == Some(ds)
  {
    if ds != [] {
      var b := Concat(ds);
      SplitInvertsConcat(ds[1..]);
      assert ds[0] in ds;
      assert b == ds[0] + Concat(ds[1..]) && b[0] == |ds[0]|;
      assert b[..b[0]] == ds[0] && b[b[0]..] == Concat(ds[1..]);
      assert [ds[0]] + ds[1..] == ds;
    }
  }

  lemma {:induction false} ConcatInvertsSplit(b: seq<byte>)
    requires Split(b).Some?
    ensures Concat(Split(b).value) == b
    decreases |b|
  {
    if b != [] {
      ConcatInvertsSplit(b[b[0]..]);
      var ds := Split(b).value;
      assert ds[1..] == Split(b[b[0]..]).value;
      assert b == b[..b[0]] + b[b[0]..];
    }
  }

  lemma {:induction false} ConcatAppend(a: seq<Descriptor>, b: seq<Descriptor>)
    ensures Concat(a + b) == Concat(a) + Concat(b)
  {
    if a == [] {
      assert a + b == b;
    } else {
      ConcatAppend(a[1..], b);
      assert (a + b)[0] == a[0] && (a + b)[1..] == a[1..] + b;
      var x, y, z := a[0], Concat(a[1..]), Concat(b);
      assert x + (y + z) == x + y + z;
    }
  }

  // ---------------------------------------------------------------- segments

  predicate Opens(d: Descriptor) {
    |d| >= 2 && (d[1] == INTERFACE || d[1] == ASSOCIATION)
  }

  /** The segments of a chain; the first holds what precedes any interface or association. */
  function Segments(ds: seq<Descriptor>): (segs: seq<Segment>)
    ensures |segs| >= 1
  {
    if ds == [] then [[]]
    else
      var rest := Segments(ds[1..]);
      var first := [[ds[0]] + rest[0]] + rest[1..];
      if Opens(ds[0]) then [[]] + first else first
  }

  function Join(segs: seq<Segment>): seq<Descriptor> {
    if segs == [] then [] else segs[0] + Join(segs[1..])
  }

  ghost predicate NoneOpens(ds: seq<Descriptor>) {
    forall d :: d in ds ==> !Opens(d)
  }

  /** A segment after the first: it opens with an interface or association and has no other. */
  ghost predicate IsSegment(seg: Segment) {
    seg != [] && Opens(seg[0]) && NoneOpens(seg[1..])
  }

  ghost predicate Segmented(segs: seq<Segment>) {
    segs != [] && NoneOpens(segs[0]) && forall k :: 1 <= k < |segs| ==> IsSegment(segs[k])
  }

  lemma {:induction false} SegmentsSegmented(ds: seq<Descriptor>)
    ensures Segmented(Segments(ds)) && Join(Segments(ds)) == ds
  {
    hide Opens;
    if ds != [] {
      var rest := Segments(ds[1..]);
      SegmentsSegmented(ds[1..]);
      var first := [[ds[0]] + rest[0]] + rest[1..];
      assert ([ds[0]] + rest[0])[1..] == rest[0];
      assert Join(first) == [ds[0]] + rest[0] + Join(rest[1..]) by { assert first[1..] == rest[1..]; }
      assert Join(rest) == rest[0] + Join(rest[1..]);
      assert ([[]] + first)[1..] == first;
      assert [ds[0]] + ds[1..] == ds;
      assert Join([[]] + first) == Join(first);
    } else {
      assert Segments(ds)[1..] == [];
    }
  }

  lemma {:induction false} SegmentsOpening(ds: seq<Descriptor>, tail: seq<Descriptor>)
    requires NoneOpens(ds)
    ensures Segments(ds + tail) == [ds + Segments(tail)[0]] + Segments(tail)[1..]
  {
    if ds == [] {
      assert ds + tail == tail && ds + Segments(tail)[0] == Segments(tail)[0];
    } else {
      SegmentsOpening(ds[1..], tail);
      assert (ds + tail)[0] == ds[0] && (ds + tail)[1..] == ds[1..] + tail;
      assert [ds[0]] + (ds[1..] + Segments(tail)[0]) == ds + Segments(tail)[0];
    }
  }

  lemma {:induction false} SegmentsInvertJoin(segs: seq<Segment>)
    requires Segmented(segs)
    ensures Segments(Join(segs)) == segs
    decreases |segs|
  {
    if |segs| == 1 {
      assert segs[1..] == [] && segs[0] + [] == segs[0];
      SegmentsOpening(segs[0], []);
    } else {
      var head := segs[1][0];
      var rest := [segs[1][1..]] + segs[2..];
      SegmentsInvertJoin(rest);
      assert segs[1] == [head] + segs[1][1..];
      assert Join(segs[1..]) == [head] + Join(rest) by {
        assert segs[1..][1..] == segs[2..] && rest[1..] == segs[2..];
      }
      var tail := Join(segs[1..]);
      assert tail[0] == head && tail[1..] == Join(rest);
      assert Segments(tail) == [[]] + segs[1..];
      SegmentsOpening(segs[0], tail);
      assert segs[0] + [] == segs[0];
    }
  }

  // ---------------------------------------------------------------- which segments are hidden

  predicate IsGroup(seg: Segment) {
    seg != [] && |seg[0]| >= 2 && seg[0][1] == INTERFACE
  }

  /** The group is long enough to hold a whole interface descriptor. */
  predicate Full(seg: Segment) {
    IsGroup(seg) && |Concat(seg)| >= 9
  }

  function Number(seg: Segment): byte
    requires Full(seg)
  {
    Concat(seg)[2]
  }

  predicate Uas(seg: Segment) {
    Full(seg) && Concat(seg)[5..8] == [0x08, 0x06, 0x62]
  }

  predicate Fallback(segs: seq<Segment>, number: byte) {
    exists k :: 0 <= k < |segs| && Full(segs[k]) && Number(segs[k]) == number && !Uas(segs[k])
  }

  predicate Hidden(segs: seq<Segment>, seg: Segment) {
    Uas(seg) && Fallback(segs, Number(seg))
  }

  predicate AnyHidden(segs: seq<Segment>) {
    exists k :: 0 <= k < |segs| && Hidden(segs, segs[k])
  }

  /** The segments of `segs` that are not hidden, judged against all of `all`. */
  function Kept(all: seq<Segment>, segs: seq<Segment>): (r: seq<Segment>)
    ensures forall seg :: seg in r <==> seg in segs && !Hidden(all, seg)
  {
    if segs == [] then []
    else if Hidden(all, segs[0]) then Kept(all, segs[1..])
    else [segs[0]] + Kept(all, segs[1..])
  }

  // ---------------------------------------------------------------- the filter

  function LittleEndian(lo: byte, hi: byte): nat {
    lo as int + 0x100 * hi as int
  }

  /** `header` with `wTotalLength` set to `n`, cut to 16 bits. */
  function WithTotal(header: seq<byte>, n: nat): (r: seq<byte>)
    requires |header| >= 4
    ensures |r| == |header| && r[0] == header[0] && r[1] == header[1]
  {
    header[2 := n % 0x100][3 := n / 0x100 % 0x100]
  }

  /** A configuration header with everything it announces of itself present. */
  predicate HasHeader(config: seq<byte>) {
    |config| >= 9 && 9 <= config[0] <= |config| && config[1] == CONFIGURATION
  }

  function Hide(config: seq<byte>): (r: Option<Filtered>) {
    if !HasHeader(config) then None
    else
      var header, body := config[..config[0]], Split(config[config[0]..]);
      if body.None? then None
      else
        var segs := Segments(body.value);
        if !AnyHidden(segs) then None
        else
          var rest := Concat(Join(Kept(segs, segs)));
          var total := |header| + |rest|;
          Some(Filtered(WithTotal(header, total) + rest, LittleEndian(config[2], config[3]),
                        LittleEndian(total % 0x100, total / 0x100 % 0x100)))
  }

  // ---------------------------------------------------------------- what filtering guarantees

  lemma {:induction false} KeptSegmented(all: seq<Segment>, segs: seq<Segment>)
    requires forall k :: 0 <= k < |segs| ==> IsSegment(segs[k])
    ensures forall k :: 0 <= k < |Kept(all, segs)| ==> IsSegment(Kept(all, segs)[k])
  {
    if segs != [] {
      KeptSegmented(all, segs[1..]);
    }
  }

  lemma FilteringKeepsSegmented(segs: seq<Segment>)
    requires Segmented(segs)
    ensures Segmented(Kept(segs, segs)) && Kept(segs, segs)[0] == segs[0]
  {
    assert !IsGroup(segs[0]) by { if segs[0] != [] { assert segs[0][0] in segs[0]; } }
    KeptSegmented(segs, segs[1..]);
    assert Kept(segs, segs) == [segs[0]] + Kept(segs, segs[1..]);
  }

  lemma {:induction false} JoinWellFormed(segs: seq<Segment>)
    requires forall k :: 0 <= k < |segs| ==> AllWellFormed(segs[k])
    ensures AllWellFormed(Join(segs))
  {
    if segs != [] {
      JoinWellFormed(segs[1..]);
    }
  }

  lemma {:induction false} PartsWellFormed(segs: seq<Segment>, k: nat)
    requires AllWellFormed(Join(segs)) && k < |segs|
    ensures AllWellFormed(segs[k])
  {
    var rest := Join(segs[1..]);
    assert Join(segs) == segs[0] + rest;
    if k == 0 {
      forall d | d in segs[0] ensures WellFormed(d) { assert d in Join(segs); }
    } else {
      forall d | d in rest ensures WellFormed(d) { assert d in Join(segs); }
      PartsWellFormed(segs[1..], k - 1);
    }
  }

  lemma KeptWellFormed(segs: seq<Segment>)
    requires AllWellFormed(Join(segs))
    ensures AllWellFormed(Join(Kept(segs, segs)))
  {
    var kept := Kept(segs, segs);
    forall k | 0 <= k < |kept|
      ensures AllWellFormed(kept[k])
    {
      assert kept[k] in segs;
      var j :| 0 <= j < |segs| && segs[j] == kept[k];
      PartsWellFormed(segs, j);
    }
    JoinWellFormed(kept);
  }

  /** The body of a configuration whose chain is well formed, in segments. */
  function SegmentsOf(config: seq<byte>): seq<Segment>
    requires HasHeader(config) && Split(config[config[0]..]).Some?
  {
    Segments(Split(config[config[0]..]).value)
  }

  /**
   * The output is a header of the same size, otherwise unchanged beyond its total length, followed
   * by a well-formed chain: the input's segments in order without the hidden ones.
   */
  lemma OutputIsInputMinusHidden(config: seq<byte>)
    requires Hide(config).Some?
    ensures var out := Hide(config).value.bytes;
            && HasHeader(out) && out[0] == config[0]
            && out[4..out[0]] == config[4..config[0]]
            && Split(out[out[0]..]).Some?
            && SegmentsOf(out) == Kept(SegmentsOf(config), SegmentsOf(config))
  {
    var h := config[0];
    var segs := SegmentsOf(config);
    var kept := Kept(segs, segs);
    var out := Hide(config).value.bytes;
    var rest := Concat(Join(kept));
    assert out == WithTotal(config[..h], h + |rest|) + rest;
    assert out[h..] == rest;
    SegmentsSegmented(Split(config[h..]).value);
    FilteringKeepsSegmented(segs);
    KeptWellFormed(segs);
    SplitInvertsConcat(Join(kept));
    SegmentsInvertJoin(kept);
  }

  lemma SixteenBits(n: nat)
    ensures n % 0x100 + 0x100 * (n / 0x100 % 0x100) == n % 0x1_0000
  {
    var q := n / 0x100;
    JoinBytes(n, q / 0x100, q % 0x100, n % 0x100);
  }

  lemma JoinBytes(n: nat, p: nat, m: nat, r: nat)
    requires n == 0x100 * (0x100 * p + m) + r && m < 0x100 && r < 0x100
    ensures n % 0x1_0000 == 0x100 * m + r
  {
    assert n == 0x1_0000 * p + (0x100 * m + r);
  }

  lemma TotalBytes(header: seq<byte>, n: nat)
    requires |header| >= 4
    ensures var r := WithTotal(header, n); LittleEndian(r[2], r[3]) == n % 0x1_0000
  {
    SixteenBits(n);
  }

  /** The new total length is what the header says, and it is the size of the output. */
  lemma OutputStatesItsLength(config: seq<byte>)
    requires Hide(config).Some?
    ensures var f := Hide(config).value;
            && LittleEndian(f.bytes[2], f.bytes[3]) == f.total == |f.bytes| % 0x1_0000
            && (|config| <= 0xffff ==> f.total == |f.bytes|)
            && f.original == LittleEndian(config[2], config[3])
  {
    hide AnyHidden, Kept, Segments, Split, Concat, Join, LittleEndian;
    var f := Hide(config).value;
    TotalBytes(config[..config[0]], |f.bytes|);
    OutputShrinks(config);
  }

  lemma {:induction false} KeptNoLonger(all: seq<Segment>, segs: seq<Segment>)
    ensures |Concat(Join(Kept(all, segs)))| <= |Concat(Join(segs))|
    ensures (exists k :: 0 <= k < |segs| && Hidden(all, segs[k])) ==>
              |Concat(Join(Kept(all, segs)))| < |Concat(Join(segs))|
  {
    if segs != [] {
      KeptNoLonger(all, segs[1..]);
      ConcatAppend(segs[0], Join(segs[1..]));
      if !Hidden(all, segs[0]) {
        var rest := Kept(all, segs[1..]);
        assert Kept(all, segs)[1..] == rest;
        ConcatAppend(segs[0], Join(rest));
      }
    }
  }

  lemma OutputShrinks(config: seq<byte>)
    ensures Hide(config).Some? ==> |Hide(config).value.bytes| < |config|
  {
    if Hide(config).Some? {
      var segs := SegmentsOf(config);
      var body := config[config[0]..];
      KeptNoLonger(segs, segs);
      SegmentsSegmented(Split(body).value);
      ConcatInvertsSplit(body);
    }
  }

  lemma FallbackSurvives(segs: seq<Segment>, number: byte)
    ensures Fallback(segs, number) <==> Fallback(Kept(segs, segs), number)
  {
    var kept := Kept(segs, segs);
    if Fallback(segs, number) {
      var k :| 0 <= k < |segs| && Full(segs[k]) && Number(segs[k]) == number && !Uas(segs[k]);
      assert segs[k] in kept;
      var j :| 0 <= j < |kept| && kept[j] == segs[k];
    }
    if Fallback(kept, number) {
      var k :| 0 <= k < |kept| && Full(kept[k]) && Number(kept[k]) == number && !Uas(kept[k]);
      assert kept[k] in segs;
      var j :| 0 <= j < |segs| && segs[j] == kept[k];
    }
  }

  /** No interface disappears: each full group's number keeps a full group. */
  lemma InterfacesKeepASetting(segs: seq<Segment>, k: nat)
    requires k < |segs| && Full(segs[k])
    ensures exists j :: 0 <= j < |Kept(segs, segs)| && Full(Kept(segs, segs)[j])
                        && Number(Kept(segs, segs)[j]) == Number(segs[k])
  {
    var kept := Kept(segs, segs);
    if Hidden(segs, segs[k]) {
      FallbackSurvives(segs, Number(segs[k]));
    } else {
      assert segs[k] in kept;
    }
  }

  /** Filtering is complete: a second pass over the output finds nothing left to hide. */
  lemma {:induction false} HidingTwiceHidesNothing(config: seq<byte>)
    requires Hide(config).Some?
    ensures Hide(Hide(config).value.bytes) == None
  {
    var segs := SegmentsOf(config);
    var kept := Kept(segs, segs);
    OutputIsInputMinusHidden(config);
    forall k | 0 <= k < |kept|
      ensures !Hidden(kept, kept[k])
    {
      if Uas(kept[k]) {
        assert kept[k] in kept;
        FallbackSurvives(segs, Number(kept[k]));
      }
    }
  }
}
