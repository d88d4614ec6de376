/**
 * The program's way of hiding UAS: it walks the descriptor bytes once, notes the byte range of each
 * interface with what belongs to it, picks the ranges to hide and copies the rest together.
 */
module UasFilter {
  import opened Common
  import opened HideUas

  datatype Range = Range(start: nat, end: nat)

  // ---------------------------------------------------------------- walking the chain

  /** Where segment `k` begins, counted from the first descriptor. */
  ghost function Offset(segs: seq<Segment>, k: nat): nat
    requires k <= |segs|
  {
    |Concat(Join(segs[..k]))|
  }

  lemma {:induction false} JoinAppend(a: seq<Segment>, b: seq<Segment>)
    ensures Join(a + b) == Join(a) + Join(b)
  {
    if a == [] {
      assert a + b == b;
    } else {
      JoinAppend(a[1..], b);
      assert (a + b)[0] == a[0] && (a + b)[1..] == a[1..] + b;
      var x, y, z := a[0], Join(a[1..]), Join(b);
      assert x + (y + z) == x + y + z;
    }
  }

  lemma JoinOne(seg: Segment)
    ensures Join([seg]) == seg
  {
    assert [seg][1..] == [] && seg + [] == seg;
  }

  lemma ConcatOne(d: Descriptor)
    ensures Concat([d]) == d
  {
    assert [d][1..] == [] && d + [] == d;
  }

  /** Segment `k` occupies the bytes between its offset and the next one's. */
  lemma SegmentBytes(segs: seq<Segment>, k: nat)
    requires k < |segs|
    ensures Offset(segs, k + 1) == Offset(segs, k) + |Concat(segs[k])|
    ensures Offset(segs, k + 1) <= |Concat(Join(segs))|
    ensures Concat(Join(segs))[Offset(segs, k)..Offset(segs, k + 1)] == Concat(segs[k])
    ensures Concat(Join(segs))[Offset(segs, k + 1)..] == Concat(Join(segs[k + 1..]))
  {
    var a, s, b := segs[..k], segs[k], segs[k + 1..];
    assert segs[..k + 1] == a + [s] && segs == (a + [s]) + b;
    JoinAppend(a, [s]);
    JoinOne(s);
    JoinAppend(a + [s], b);
    ConcatAppend(Join(a), s);
    ConcatAppend(Join(a) + s, Join(b));
    var x, y, z := Concat(Join(a)), Concat(s), Concat(Join(b));
    assert Concat(Join(segs)) == x + y + z;
    assert (x + y + z)[|x|..|x + y|] == y && (x + y + z)[|x + y|..] == z;
  }

  /** Adding a descriptor at the end opens a segment or extends the last one. */
  lemma {:induction false} SegmentsSnoc(ds: seq<Descriptor>, d: Descriptor)
    ensures var segs := Segments(ds);
            var n := |segs| - 1;
            Segments(ds + [d]) == if Opens(d) then segs + [[d]] else segs[..n] + [segs[n] + [d]]
  {
    if ds == [] {
      assert ds + [d] == [d] && [d][1..] == [];
      var e: Segment := [];
      assert Segments([]) == [e] && [d] + e == [d] && e + [d] == [d];
      assert [[d] + e] + [e][1..] == [[d]];
    } else {
      SegmentsSnoc(ds[1..], d);
      assert (ds + [d])[0] == ds[0] && (ds + [d])[1..] == ds[1..] + [d];
      var rest := Segments(ds[1..]);
      var rest' := Segments(ds[1..] + [d]);
      var first := [[ds[0]] + rest[0]] + rest[1..];
      var first' := [[ds[0]] + rest'[0]] + rest'[1..];
      FirstGrows(ds[0], rest, rest', d);
      hide Opens;
      if Opens(ds[0]) {
        var e: Segment := [];
        assert Segments(ds) == [e] + first && Segments(ds + [d]) == [e] + first';
        if !Opens(d) {
          assert ([e] + first)[..|first|] == [e] + first[..|first| - 1];
        }
      }
    }
  }

  lemma FirstGrows(d0: Descriptor, rest: seq<Segment>, rest': seq<Segment>, d: Descriptor)
    requires |rest| >= 1
    requires var n := |rest| - 1;
             rest' == if Opens(d) then rest + [[d]] else rest[..n] + [rest[n] + [d]]
    ensures var first := [[d0] + rest[0]] + rest[1..];
            var n := |first| - 1;
            [[d0] + rest'[0]] + rest'[1..]
            == if Opens(d) then first + [[d]] else first[..n] + [first[n] + [d]]
  {
    var first := [[d0] + rest[0]] + rest[1..];
    var n := |first| - 1;
    if !Opens(d) {
      if n == 0 {
        assert [d0] + (rest[0] + [d]) == [d0] + rest[0] + [d];
      } else {
        assert rest'[1..] == rest[1..n] + [rest[n] + [d]];
        assert first[..n] == [[d0] + rest[0]] + rest[1..n];
      }
    }
  }

  /** The noted ranges are those of the segments read so far: `groups[k]` of segment `k + 1`. */
  ghost predicate Noted(groups: seq<Range>, segs: seq<Segment>, h: nat) {
    && |segs| == |groups| + 1
    && forall k :: 0 <= k < |groups| ==>
         && groups[k].start == h + Offset(segs, k + 1)
         && groups[k].end
            == groups[k].start + if IsGroup(segs[k + 1]) then |Concat(segs[k + 1])| else 0
  }

  /** What the loop does with one descriptor. */
  function NoteAt(groups: seq<Range>, i: nat, len: nat, kind: byte): seq<Range> {
    if kind == INTERFACE then groups + [Range(i, i + len)]
    else if kind == ASSOCIATION then groups + [Range(i, i)]
    else if groups != [] && groups[|groups| - 1].start != groups[|groups| - 1].end then
      groups[|groups| - 1 := Range(groups[|groups| - 1].start, i + len)]
    else groups
  }

  ghost function Note(groups: seq<Range>, i: nat, d: Descriptor): seq<Range>
    requires |d| >= 2
  {
    NoteAt(groups, i, |d|, d[1])
  }

  lemma NoteOpening(groups: seq<Range>, segs: seq<Segment>, h: nat, d: Descriptor)
    requires Noted(groups, segs, h) && |d| >= 2 && Opens(d)
    ensures Noted(Note(groups, h + |Concat(Join(segs))|, d), segs + [[d]], h)
  {
    var segs' := segs + [[d]];
    assert segs'[..|segs|] == segs;
    ConcatOne(d);
    forall j | 1 <= j <= |groups|
      ensures Offset(segs', j) == Offset(segs, j)
    {
      assert segs'[..j] == segs[..j];
    }
  }

  lemma GroupNotEmpty(seg: Segment)
    requires IsGroup(seg)
    ensures |Concat(seg)| >= 2
  {
    ConcatAppend([seg[0]], seg[1..]);
    assert [seg[0]] + seg[1..] == seg;
    ConcatOne(seg[0]);
  }

  lemma NoteExtending(groups: seq<Range>, segs: seq<Segment>, h: nat, d: Descriptor)
    requires Noted(groups, segs, h) && Segmented(segs) && |d| >= 2 && !Opens(d)
    ensures var n := |segs| - 1;
            Noted(Note(groups, h + |Concat(Join(segs))|, d), segs[..n] + [segs[n] + [d]], h)
  {
    var n := |segs| - 1;
    var segs' := segs[..n] + [segs[n] + [d]];
    var i := h + |Concat(Join(segs))|;
    forall j | 1 <= j <= |groups|
      ensures Offset(segs', j) == Offset(segs, j)
    {
      assert segs'[..j] == segs[..j];
    }
    if n > 0 {
      assert IsSegment(segs[n]);
      SegmentBytes(segs, n);
      assert segs[..n + 1] == segs;
      ConcatAppend(segs[n], [d]);
      ConcatOne(d);
      assert IsGroup(segs'[n]) == IsGroup(segs[n]);
      if IsGroup(segs[n]) {
        GroupNotEmpty(segs[n]);
      }
    }
  }

  lemma NoteKeepsNoted(groups: seq<Range>, ds: seq<Descriptor>, h: nat, d: Descriptor)
    requires Noted(groups, Segments(ds), h) && |d| >= 2
    ensures Noted(Note(groups, h + |Concat(ds)|, d), Segments(ds + [d]), h)
  {
    hide Noted, Note, Segments, Segmented;
    SegmentsSegmented(ds);
    SegmentsSnoc(ds, d);
    if Opens(d) {
      NoteOpening(groups, Segments(ds), h, d);
    } else {
      NoteExtending(groups, Segments(ds), h, d);
    }
  }

  // ---------------------------------------------------------------- picking and copying

  predicate RangeIsUas(config: seq<byte>, g: Range)
    requires g.start <= g.end <= |config|
  {
    g.end - g.start >= 9 && config[g.start + 5..g.start + 8] == [0x08, 0x06, 0x62]
  }

  predicate RangeFallback(config: seq<byte>, groups: seq<Range>, number: byte)
    requires forall k :: 0 <= k < |groups| ==> groups[k].start <= groups[k].end <= |config|
  {
    exists k :: 0 <= k < |groups| && groups[k].end - groups[k].start >= 9
                && config[groups[k].start + 2] == number && !RangeIsUas(config, groups[k])
  }

  predicate RangeHidden(config: seq<byte>, groups: seq<Range>, g: Range)
    requires g.start <= g.end <= |config|
    requires forall k :: 0 <= k < |groups| ==> groups[k].start <= groups[k].end <= |config|
  {
    RangeIsUas(config, g) && RangeFallback(config, groups, config[g.start + 2])
  }

  /** The ranges are inside the bytes and hold their groups. */
  lemma RangesHold(config: seq<byte>, h: nat, groups: seq<Range>, segs: seq<Segment>, k: nat)
    requires h <= |config| && config[h..] == Concat(Join(segs)) && Noted(groups, segs, h)
    requires k < |groups|
    ensures groups[k].start <= groups[k].end <= |config|
    ensures IsGroup(segs[k + 1]) ==> config[groups[k].start..groups[k].end] == Concat(segs[k + 1])
    ensures !IsGroup(segs[k + 1]) ==> groups[k].start == groups[k].end
  {
    SegmentBytes(segs, k + 1);
    var a, b := Offset(segs, k + 1), Offset(segs, k + 2);
    assert config[h..][a..b] == config[h + a..h + b];
  }

  lemma SameUas(config: seq<byte>, h: nat, groups: seq<Range>, segs: seq<Segment>, k: nat)
    requires h <= |config| && config[h..] == Concat(Join(segs)) && Noted(groups, segs, h)
    requires k < |groups|
    ensures groups[k].start <= groups[k].end <= |config|
    ensures RangeIsUas(config, groups[k]) <==> Uas(segs[k + 1])
    ensures groups[k].end - groups[k].start >= 9 <==> Full(segs[k + 1])
    ensures Full(segs[k + 1]) ==> config[groups[k].start + 2] == Number(segs[k + 1])
  {
    RangesHold(config, h, groups, segs, k);
    var g := groups[k];
    if Full(segs[k + 1]) {
      var b := config[g.start..g.end];
      assert b[5..8] == config[g.start + 5..g.start + 8] && b[2] == config[g.start + 2];
    }
  }

  lemma PreambleIsNoGroup(segs: seq<Segment>)
    requires Segmented(segs)
    ensures !IsGroup(segs[0]) && !Full(segs[0])
  {
    assert segs[0] != [] ==> segs[0][0] in segs[0];
  }

  lemma SameFallback(config: seq<byte>, h: nat, groups: seq<Range>, segs: seq<Segment>,
                     number: byte)
    requires h <= |config| && config[h..] == Concat(Join(segs)) && Noted(groups, segs, h)
    requires Segmented(segs)
    requires forall k :: 0 <= k < |groups| ==> groups[k].start <= groups[k].end <= |config|
    ensures RangeFallback(config, groups, number) <==> Fallback(segs, number)
  {
    hide Concat, Join, Offset, RangeIsUas, Uas, Full, Number, Segmented;
    if RangeFallback(config, groups, number) {
      var k :| 0 <= k < |groups| && groups[k].end - groups[k].start >= 9
               && config[groups[k].start + 2] == number && !RangeIsUas(config, groups[k]);
      SameUas(config, h, groups, segs, k);
      assert Full(segs[k + 1]) && Number(segs[k + 1]) == number && !Uas(segs[k + 1]);
    }
    if Fallback(segs, number) {
      var k :| 0 <= k < |segs| && Full(segs[k]) && Number(segs[k]) == number && !Uas(segs[k]);
      PreambleIsNoGroup(segs);
      SameUas(config, h, groups, segs, k - 1);
      assert groups[k - 1].end - groups[k - 1].start >= 9;
    }
  }

  lemma SameHidden(config: seq<byte>, h: nat, groups: seq<Range>, segs: seq<Segment>, k: nat)
    requires h <= |config| && config[h..] == Concat(Join(segs)) && Noted(groups, segs, h)
    requires Segmented(segs) && k < |groups|
    requires forall k :: 0 <= k < |groups| ==> groups[k].start <= groups[k].end <= |config|
    ensures RangeHidden(config, groups, groups[k]) <==> Hidden(segs, segs[k + 1])
  {
    hide Concat, Join, Offset, Segmented, RangeFallback, Fallback, Number;
    SameUas(config, h, groups, segs, k);
    if Full(segs[k + 1]) {
      SameFallback(config, h, groups, segs, Number(segs[k + 1]));
    }
  }

  /** The byte ranges of the hidden ones among `segs`, which begin at `at`. */
  ghost function HiddenRanges(all: seq<Segment>, segs: seq<Segment>, at: nat): seq<Range> {
    if segs == [] then []
    else
      var end := at + |Concat(segs[0])|;
      (if Hidden(all, segs[0]) then [Range(at, end)] else []) + HiddenRanges(all, segs[1..], end)
  }

  ghost predicate InOrder(hidden: seq<Range>, at: nat, end: nat) {
    && at <= end
    && (hidden != [] ==>
          && at <= hidden[0].start <= hidden[0].end <= end
          && InOrder(hidden[1..], hidden[0].end, end))
  }

  /** The bytes from `at` on without the hidden ranges. */
  ghost function Without(config: seq<byte>, at: nat, hidden: seq<Range>): seq<byte>
    requires InOrder(hidden, at, |config|)
    decreases hidden
  {
    if hidden == [] then config[at..]
    else config[at..hidden[0].start] + Without(config, hidden[0].end, hidden[1..])
  }

  lemma SplitFirst(config: seq<byte>, segs: seq<Segment>, pos: nat)
    requires pos <= |config| && segs != [] && config[pos..] == Concat(Join(segs))
    ensures var end := pos + |Concat(segs[0])|;
            && end <= |config| && config[pos..end] == Concat(segs[0])
            && config[end..] == Concat(Join(segs[1..]))
  {
    hide Concat;
    ConcatAppend(segs[0], Join(segs[1..]));
    hide Join;
    CutAfter(config, pos, Concat(segs[0]), Concat(Join(segs[1..])));
  }

  lemma NothingLeft()
    ensures Join([]) == [] && Concat([]) == []
  {
  }

  lemma CutAfter(b: seq<byte>, pos: nat, x: seq<byte>, y: seq<byte>)
    requires pos <= |b| && b[pos..] == x + y
    ensures var end := pos + |x|; end <= |b| && b[pos..end] == x && b[end..] == y
  {
    var end := pos + |x|;
    assert |b[pos..]| == |x| + |y|;
    assert b[pos..end] == b[pos..][..|x|] && b[end..] == b[pos..][|x|..];
    assert (x + y)[..|x|] == x && (x + y)[|x|..] == y;
  }

  lemma KeptGrows(config: seq<byte>, s: Segment, kept: seq<Segment>, at: nat, pos: nat, end: nat)
    requires at <= pos <= end <= |config| && config[pos..end] == Concat(s)
    ensures config[at..end] + Concat(Join(kept)) == config[at..pos] + Concat(Join([s] + kept))
  {
    hide Concat;
    assert ([s] + kept)[1..] == kept;
    assert Join([s] + kept) == s + Join(kept);
    hide Join;
    ConcatAppend(s, Join(kept));
    Regroup(config, at, pos, end, Concat(Join(kept)));
  }

  lemma Regroup(b: seq<byte>, at: nat, pos: nat, end: nat, z: seq<byte>)
    requires at <= pos <= end <= |b|
    ensures b[at..end] + z == b[at..pos] + (b[pos..end] + z)
  {
  }

  lemma WithoutFirst(config: seq<byte>, at: nat, g: Range, hs: seq<Range>)
    requires at <= g.start <= g.end <= |config| && InOrder(hs, g.end, |config|)
    ensures InOrder([g] + hs, at, |config|)
    ensures Without(config, at, [g] + hs) == config[at..g.start] + Without(config, g.end, hs)
  {
    assert ([g] + hs)[1..] == hs;
  }

  /** Copying around the hidden ranges leaves exactly the segments kept. */
  lemma {:induction false} WithoutIsKept(config: seq<byte>, all: seq<Segment>, segs: seq<Segment>,
                                         at: nat, pos: nat)
    requires at <= pos <= |config| && config[pos..] == Concat(Join(segs))
    ensures InOrder(HiddenRanges(all, segs, pos), at, |config|)
    ensures Without(config, at, HiddenRanges(all, segs, pos))
            == config[at..pos] + Concat(Join(Kept(all, segs)))
    decreases segs
  {
    hide Hidden, Concat, Join;
    if segs == [] {
      NothingLeft();
      assert config[at..] == config[at..pos] + config[pos..];
    } else {
      var s, rest := segs[0], segs[1..];
      var end := pos + |Concat(s)|;
      SplitFirst(config, segs, pos);
      var hs := HiddenRanges(all, rest, end);
      if Hidden(all, s) {
        WithoutIsKept(config, all, rest, end, end);
        WithoutFirst(config, at, Range(pos, end), hs);
        var z := Concat(Join(Kept(all, rest)));
        assert config[end..end] + z == z;
      } else {
        WithoutIsKept(config, all, rest, at, end);
        assert [] + hs == hs;
        KeptGrows(config, s, Kept(all, rest), at, pos, end);
      }
    }
  }

  // ---------------------------------------------------------------- the program

  class Configuration {
    var bytes: seq<byte>

    constructor (bytes: seq<byte>)
      ensures this.bytes == bytes
    {
      this.bytes := bytes;
    }

    /** Removes UAS where there is something to fall back to; leaves malformed bytes alone. */
    method HideUas() returns (r: Option<(nat, nat)>)
      modifies this
      ensures Hide(old(bytes)).None? ==> r == None && bytes == old(bytes)
      ensures Hide(old(bytes)).Some? ==>
                var f := Hide(old(bytes)).value; r == Some((f.original, f.total)) && bytes == f.bytes
    {
      hide Hide, Split, Segments, Noted, Concat, Join, Kept, AnyHidden, HiddenRanges, Without;
      if |bytes| < 9 || bytes[0] < 9 || bytes[1] != CONFIGURATION || bytes[0] > |bytes| {
        HideIsNone(bytes);
        return None;
      }
      var noted := Groups(bytes);
      if noted.None? {
        HideIsNone(bytes);
        return None;
      }
      var h: nat := bytes[0];
      ghost var segs := SegmentsOf(bytes);
      BodyLaidOut(bytes);
      hide Segmented;
      var hidden := Pick(bytes, noted.value, h, segs);
      NothingPicked(segs, h);
      if hidden == [] {
        HideIsNone(bytes);
        return None;
      }
      WithoutIsKept(bytes, segs, segs, 0, h);
      var out := Copy(bytes, hidden);
      assert bytes[0..h] == bytes[..h];
      HideIsSome(bytes, out);
      var total := |out|;
      var original := LittleEndian(bytes[2], bytes[3]);
      bytes := out[2 := total % 0x100][3 := total / 0x100 % 0x100];
      return Some((original, total % 0x1_0000));
    }
  }

  lemma BodyLaidOut(config: seq<byte>)
    requires HasHeader(config) && Split(config[config[0]..]).Some?
    ensures Segmented(SegmentsOf(config))
    ensures config[config[0]..] == Concat(Join(SegmentsOf(config)))
  {
    SegmentsSegmented(Split(config[config[0]..]).value);
    ConcatInvertsSplit(config[config[0]..]);
  }

  lemma ConcatSnoc(ds: seq<Descriptor>, d: Descriptor)
    ensures Concat(ds + [d]) == Concat(ds) + d
  {
    ConcatAppend(ds, [d]);
    ConcatOne(d);
  }

  lemma SplitStep(bytes: seq<byte>, i: nat)
    requires i < |bytes|
    ensures bytes[i] < 2 || i + bytes[i] > |bytes| ==>
              forall done :: Prefixed(done, Split(bytes[i..])) == None
    ensures bytes[i] >= 2 && i + bytes[i] <= |bytes| ==>
              Split(bytes[i..])
              == Prefixed([bytes[i..i + bytes[i]]], Split(bytes[i + bytes[i]..]))
  {
    var b := bytes[i..];
    assert b[0] == bytes[i];
    if bytes[i] >= 2 && i + bytes[i] <= |bytes| {
      assert b[..b[0]] == bytes[i..i + bytes[i]] && b[b[0]..] == bytes[i + bytes[i]..];
    }
  }

  lemma SplitEnd(b: seq<byte>, done: seq<Descriptor>)
    requires b == []
    ensures Prefixed(done, Split(b)) == Some(done)
  {
    assert done + [] == done;
  }

  lemma HideIsNone(config: seq<byte>)
    requires || !HasHeader(config) || Split(config[config[0]..]).None?
             || !AnyHidden(SegmentsOf(config))
    ensures Hide(config).None?
  {
  }

  lemma HideIsSome(config: seq<byte>, out: seq<byte>)
    requires HasHeader(config) && Split(config[config[0]..]).Some?
    requires AnyHidden(SegmentsOf(config))
    requires out == config[..config[0]] + Concat(Join(Kept(SegmentsOf(config), SegmentsOf(config))))
    ensures Hide(config)
            == Some(Filtered(out[2 := |out| % 0x100][3 := |out| / 0x100 % 0x100],
                             LittleEndian(config[2], config[3]), |out| % 0x1_0000))
  {
    hide Split, Segments, Concat, Join, Kept, AnyHidden;
    var segs := SegmentsOf(config);
    var rest := Concat(Join(Kept(segs, segs)));
    var header := config[..config[0]];
    var n := |header| + |rest|;
    SixteenBits(n);
    assert WithTotal(header, n) + rest == out[2 := n % 0x100][3 := n / 0x100 % 0x100];
  }

  ghost function Prefixed(done: seq<Descriptor>, rest: Option<seq<Descriptor>>)
    : Option<seq<Descriptor>>
  {
    if rest.None? then None else Some(done + rest.value)
  }

  lemma PrefixedNone(rest: Option<seq<Descriptor>>)
    ensures Prefixed([], rest) == rest
  {
    if rest.Some? {
      assert [] + rest.value == rest.value;
    }
  }

  lemma PrefixedOne(done: seq<Descriptor>, d: Descriptor, rest: Option<seq<Descriptor>>)
    ensures Prefixed(done, Prefixed([d], rest)) == Prefixed(done + [d], rest)
  {
    if rest.Some? {
      assert done + ([d] + rest.value) == done + [d] + rest.value;
    }
  }

  /** The descriptors `done` have been walked over, and `groups` notes their segments. */
  ghost predicate Walked(bytes: seq<byte>, h: nat, i: nat, groups: seq<Range>,
                         done: seq<Descriptor>)
  {
    && h <= i <= |bytes| && i == h + |Concat(done)|
    && Noted(groups, Segments(done), h)
    && Split(bytes[h..]) == Prefixed(done, Split(bytes[i..]))
  }

  lemma WalkStart(bytes: seq<byte>, h: nat)
    requires h <= |bytes|
    ensures Walked(bytes, h, h, [], [])
  {
    PrefixedNone(Split(bytes[h..]));
  }

  lemma WalkStep(bytes: seq<byte>, h: nat, i: nat, groups: seq<Range>, done: seq<Descriptor>)
    requires Walked(bytes, h, i, groups, done) && i < |bytes|
    requires bytes[i] >= 2 && i + bytes[i] <= |bytes|
    ensures Walked(bytes, h, i + bytes[i], NoteAt(groups, i, bytes[i], bytes[i + 1]),
                   done + [bytes[i..i + bytes[i]]])
  {
    hide Noted, Segments, Split, Concat, Prefixed, NoteAt;
    var d := bytes[i..i + bytes[i]];
    SplitStep(bytes, i);
    PrefixedOne(done, d, Split(bytes[i + bytes[i]..]));
    NoteKeepsNoted(groups, done, h, d);
    ConcatSnoc(done, d);
  }

  lemma WalkFails(bytes: seq<byte>, h: nat, i: nat, groups: seq<Range>, done: seq<Descriptor>)
    requires Walked(bytes, h, i, groups, done) && i < |bytes|
    requires bytes[i] < 2 || i + bytes[i] > |bytes|
    ensures Split(bytes[h..]).None?
  {
    hide Noted, Segments, Split, Concat, Prefixed;
    SplitStep(bytes, i);
  }

  lemma WalkEnds(bytes: seq<byte>, h: nat, groups: seq<Range>, done: seq<Descriptor>)
    requires Walked(bytes, h, |bytes|, groups, done)
    ensures Split(bytes[h..]) == Some(done) && Noted(groups, Segments(done), h)
  {
    SplitEnd(bytes[|bytes|..], done);
  }

  /** The byte range of each interface with what belongs to it, or `None` if malformed. */
  method Groups(bytes: seq<byte>) returns (r: Option<seq<Range>>)
    requires HasHeader(bytes)
    ensures var ds := Split(bytes[bytes[0]..]);
            && r.Some? == ds.Some?
            && (r.Some? ==> Noted(r.value, Segments(ds.value), bytes[0]))
  {
    hide Noted, Segments, Split, Walked, NoteAt;
    var h: nat := bytes[0];
    var i := h;
    var groups: seq<Range> := [];
    ghost var done: seq<Descriptor> := [];
    WalkStart(bytes, h);
    while i < |bytes|
      invariant h <= i <= |bytes| && Walked(bytes, h, i, groups, done)
    {
      var len: nat := bytes[i];
      if len < 2 || i + len > |bytes| {
        WalkFails(bytes, h, i, groups, done);
        return None;
      }
      WalkStep(bytes, h, i, groups, done);
      groups := NoteAt(groups, i, len, bytes[i + 1]);
      done := done + [bytes[i..i + len]];
      i := i + len;
    }
    WalkEnds(bytes, h, groups, done);
    return Some(groups);
  }

  /** The ranges to hide, in order. */
  method Pick(config: seq<byte>, groups: seq<Range>, h: nat, ghost segs: seq<Segment>)
    returns (hidden: seq<Range>)
    requires h <= |config| && config[h..] == Concat(Join(segs)) && Noted(groups, segs, h)
    requires Segmented(segs)
    ensures hidden == HiddenRanges(segs, segs, h)
  {
    hide Hidden, RangeHidden, Concat, Join, HiddenRanges, Noted, Segmented;
    RangesInside(config, h, groups, segs);
    hidden := [];
    ghost var at := h + Offset(segs, 1);
    PickNone(segs, h);
    for k := 0 to |groups|
      invariant at == h + Offset(segs, k + 1)
      invariant HiddenRanges(segs, segs, h) == hidden + HiddenRanges(segs, segs[k + 1..], at)
    {
      SameHidden(config, h, groups, segs, k);
      PickOne(segs, k + 1, h, hidden, at, config, groups);
      if RangeHidden(config, groups, groups[k]) {
        hidden := hidden + [groups[k]];
      }
      at := at + |Concat(segs[k + 1])|;
    }
    PickAll(segs, hidden, at, |groups|);
  }

  lemma RangesInside(config: seq<byte>, h: nat, groups: seq<Range>, segs: seq<Segment>)
    requires h <= |config| && config[h..] == Concat(Join(segs)) && Noted(groups, segs, h)
    ensures |segs| == |groups| + 1
    ensures forall k :: 0 <= k < |groups| ==> groups[k].start <= groups[k].end <= |config|
  {
    forall k | 0 <= k < |groups|
      ensures groups[k].start <= groups[k].end <= |config|
    {
      RangesHold(config, h, groups, segs, k);
    }
  }

  lemma PickNone(segs: seq<Segment>, h: nat)
    requires Segmented(segs)
    ensures HiddenRanges(segs, segs, h) == [] + HiddenRanges(segs, segs[1..], h + Offset(segs, 1))
  {
    hide Concat, Hidden;
    PreambleIsNoGroup(segs);
    hide Segmented, IsGroup, Full;
    HiddenIsGroup(segs, segs[0]);
    assert segs[..1] == [segs[0]];
    JoinOne(segs[0]);
  }

  lemma PickOne(segs: seq<Segment>, k: nat, h: nat, hidden: seq<Range>, at: nat, config: seq<byte>,
                groups: seq<Range>)
    requires 1 <= k < |segs| && at == h + Offset(segs, k)
    requires h <= |config| && config[h..] == Concat(Join(segs)) && Noted(groups, segs, h)
    ensures at + |Concat(segs[k])| == h + Offset(segs, k + 1)
    ensures hidden + HiddenRanges(segs, segs[k..], at)
            == (if Hidden(segs, segs[k]) then hidden + [groups[k - 1]] else hidden)
               + HiddenRanges(segs, segs[k + 1..], at + |Concat(segs[k])|)
  {
    hide Hidden, Concat, Join;
    SegmentBytes(segs, k);
    RangesHold(config, h, groups, segs, k - 1);
    HiddenIsGroup(segs, segs[k]);
    assert segs[k..][0] == segs[k] && segs[k..][1..] == segs[k + 1..];
    var rest := HiddenRanges(segs, segs[k + 1..], at + |Concat(segs[k])|);
    if Hidden(segs, segs[k]) {
      assert groups[k - 1] == Range(at, at + |Concat(segs[k])|);
      assert hidden + ([groups[k - 1]] + rest) == hidden + [groups[k - 1]] + rest;
    } else {
      assert [] + rest == rest;
    }
  }

  lemma PickAll(segs: seq<Segment>, hidden: seq<Range>, at: nat, n: nat)
    requires |segs| == n + 1
    ensures hidden + HiddenRanges(segs, segs[n + 1..], at) == hidden
  {
    assert segs[n + 1..] == [];
  }

  lemma HiddenIsGroup(segs: seq<Segment>, seg: Segment)
    ensures Hidden(segs, seg) ==> IsGroup(seg)
  {
  }

  lemma {:induction false} NothingPickedFrom(all: seq<Segment>, segs: seq<Segment>, at: nat)
    ensures HiddenRanges(all, segs, at) == [] <==>
            forall k :: 0 <= k < |segs| ==> !Hidden(all, segs[k])
    decreases segs
  {
    if segs != [] {
      NothingPickedFrom(all, segs[1..], at + |Concat(segs[0])|);
      assert forall k :: 0 < k < |segs| ==> segs[k] == segs[1..][k - 1];
    }
  }

  lemma NothingPicked(segs: seq<Segment>, at: nat)
    ensures HiddenRanges(segs, segs, at) == [] <==> !AnyHidden(segs)
  {
    hide Hidden;
    NothingPickedFrom(segs, segs, at);
  }

  /** Copies everything but the hidden ranges. */
  method Copy(config: seq<byte>, hidden: seq<Range>) returns (out: seq<byte>)
    requires InOrder(hidden, 0, |config|)
    ensures out == Without(config, 0, hidden)
  {
    out := [];
    var at: nat := 0;
    assert hidden[0..] == hidden;
    for k := 0 to |hidden|
      invariant InOrder(hidden[k..], at, |config|)
      invariant Without(config, 0, hidden) == out + Without(config, at, hidden[k..])
    {
      assert hidden[k..][0] == hidden[k] && hidden[k..][1..] == hidden[k + 1..];
      out := out + config[at..hidden[k].start];
      at := hidden[k].end;
    }
    assert hidden[|hidden|..] == [];
    out := out + config[at..];
  }
}
