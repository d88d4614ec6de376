/** Hiding UAS from the configuration of a disk, worked out. */
module UasExample {
  import opened Common
  import opened HideUas
  import opened UasFilter

  const HEADER: seq<byte> := [9, 2, 44, 0, 2, 1, 0, 0x80, 50]
  const BULK_ONLY: Descriptor := [9, 4, 0, 0, 2, 0x08, 0x06, 0x50, 0]
  const ATTACHED_SCSI: Descriptor := [9, 4, 0, 1, 4, 0x08, 0x06, 0x62, 0]
  const GROUPING: Descriptor := [8, 0x0b, 1, 1, 3, 0, 0, 0]
  const KEYBOARD: Descriptor := [9, 4, 1, 0, 1, 3, 0, 0, 0]
  const DISK: seq<Segment> := [[], [BULK_ONLY], [ATTACHED_SCSI], [GROUPING], [KEYBOARD]]

  lemma DiskInSegments()
    ensures Join(DISK) == [BULK_ONLY, ATTACHED_SCSI, GROUPING, KEYBOARD]
    ensures Segmented(DISK) && AllWellFormed(Join(DISK))
  {
    JoinFive([], [BULK_ONLY], [ATTACHED_SCSI], [GROUPING], [KEYBOARD]);
    forall k | 1 <= k < |DISK|
      ensures IsSegment(DISK[k])
    {
      assert DISK[k][1..] == [];
    }
  }

  lemma JoinFour(a: Segment, b: Segment, c: Segment, d: Segment)
    ensures Join([a, b, c, d]) == a + b + c + d
  {
    assert [a, b, c, d][1..] == [b, c, d] && [b, c, d][1..] == [c, d];
    assert [c, d][1..] == [d] && [d][1..] == [];
    assert Join([d]) == d && Join([c, d]) == c + d && Join([b, c, d]) == b + (c + d);
  }

  lemma JoinFive(a: Segment, b: Segment, c: Segment, d: Segment, e: Segment)
    ensures Join([a, b, c, d, e]) == a + b + c + d + e
  {
    assert [a, b, c, d, e][1..] == [b, c, d, e];
    JoinFour(b, c, d, e);
    assert a + (b + c + d + e) == a + b + c + d + e;
  }

  lemma ConcatFour(a: Descriptor, b: Descriptor, c: Descriptor, d: Descriptor)
    ensures Concat([a, b, c, d]) == a + b + c + d && Concat([a, c, d]) == a + c + d
  {
    assert [a, b, c, d][1..] == [b, c, d] && [b, c, d][1..] == [c, d] && [c, d][1..] == [d];
    assert [a, c, d][1..] == [c, d] && [d][1..] == [];
    assert Concat([d]) == d && Concat([c, d]) == c + d;
  }

  lemma OnlyScsiHidden()
    ensures forall k :: 0 <= k < |DISK| ==> (Hidden(DISK, DISK[k]) <==> k == 2)
  {
    ConcatOne(BULK_ONLY);
    ConcatOne(ATTACHED_SCSI);
    ConcatOne(GROUPING);
    ConcatOne(KEYBOARD);
    hide Concat;
    assert BULK_ONLY[5..8] == [0x08, 0x06, 0x50] && ATTACHED_SCSI[5..8] == [0x08, 0x06, 0x62];
    assert KEYBOARD[5..8] == [3, 0, 0];
    assert Full(DISK[1]) && !Uas(DISK[1]) && Number(DISK[1]) == 0;
    assert Uas(DISK[2]) && Number(DISK[2]) == 0;
    assert Fallback(DISK, 0);
  }

  lemma KeptFirst(all: seq<Segment>, s: Segment, rest: seq<Segment>)
    ensures Kept(all, [s] + rest)
            == if Hidden(all, s) then Kept(all, rest) else [s] + Kept(all, rest)
  {
    hide Hidden;
    assert ([s] + rest)[1..] == rest;
  }

  lemma KeptButThird(all: seq<Segment>, a: Segment, b: Segment, c: Segment, d: Segment, e: Segment)
    requires !Hidden(all, a) && !Hidden(all, b) && Hidden(all, c) && !Hidden(all, d)
    requires !Hidden(all, e)
    ensures Kept(all, [a, b, c, d, e]) == [a, b, d, e]
  {
    hide Hidden, Kept;
    KeptBoth(all, d, e);
    assert [c] + [d, e] == [c, d, e];
    KeptFirst(all, c, [d, e]);
    assert [b] + [c, d, e] == [b, c, d, e] && [b] + [d, e] == [b, d, e];
    KeptFirst(all, b, [c, d, e]);
    assert [a] + [b, c, d, e] == [a, b, c, d, e] && [a] + [b, d, e] == [a, b, d, e];
    KeptFirst(all, a, [b, c, d, e]);
  }

  lemma KeptBoth(all: seq<Segment>, d: Segment, e: Segment)
    requires !Hidden(all, d) && !Hidden(all, e)
    ensures Kept(all, [d, e]) == [d, e]
  {
    assert Kept(all, []) == [];
    hide Hidden, Kept;
    assert [e] + [] == [e] && [d] + [e] == [d, e];
    KeptFirst(all, e, []);
    KeptFirst(all, d, [e]);
  }

  lemma KeptOfDisk()
    ensures Join(Kept(DISK, DISK)) == [BULK_ONLY, GROUPING, KEYBOARD]
    ensures AnyHidden(DISK)
  {
    OnlyScsiHidden();
    hide Hidden, Kept, Join;
    assert Hidden(DISK, DISK[0]) == false && Hidden(DISK, DISK[1]) == false;
    assert Hidden(DISK, DISK[3]) == false && Hidden(DISK, DISK[4]) == false;
    assert Hidden(DISK, DISK[2]);
    KeptButThird(DISK, [], [BULK_ONLY], [ATTACHED_SCSI], [GROUPING], [KEYBOARD]);
    JoinFour([], [BULK_ONLY], [GROUPING], [KEYBOARD]);
  }

  /** What is left of a header followed by the descriptors of these segments. */
  lemma HideOf(header: seq<byte>, segs: seq<Segment>, out: seq<byte>)
    requires HasHeader(header) && |header| == header[0] as int
    requires Segmented(segs) && AllWellFormed(Join(segs)) && AnyHidden(segs)
    requires out == header + Concat(Join(Kept(segs, segs)))
    ensures Hide(header + Concat(Join(segs)))
            == Some(Filtered(out[2 := |out| % 0x100][3 := |out| / 0x100 % 0x100],
                             LittleEndian(header[2], header[3]), |out| % 0x1_0000))
  {
    SplitInvertsConcat(Join(segs));
    SegmentsInvertJoin(segs);
    hide Split, Segments, Kept, Join, Concat, AnyHidden, Hide, LittleEndian;
    var config := header + Concat(Join(segs));
    assert config[..config[0]] == header && config[config[0]..] == Concat(Join(segs));
    assert config[2] == header[2] && config[3] == header[3] && HasHeader(config);
    HideIsSome(config, out);
  }

  /**
   * A disk with a Bulk-Only setting 0 and a UAS setting 1 of interface 0, an interface association
   * and a keyboard interface: exactly the UAS setting goes, and 44 bytes become 35.
   */
  lemma DiskLosesItsScsiSetting()
    ensures var disk := HEADER + BULK_ONLY + ATTACHED_SCSI + GROUPING + KEYBOARD;
            Hide(disk)
            == Some(Filtered([9, 2, 35, 0, 2, 1, 0, 0x80, 50] + BULK_ONLY + GROUPING + KEYBOARD,
                             44, 35))
  {
    DiskInSegments();
    KeptOfDisk();
    ConcatFour(BULK_ONLY, ATTACHED_SCSI, GROUPING, KEYBOARD);
    var rest := BULK_ONLY + GROUPING + KEYBOARD;
    var out := HEADER + rest;
    HideOf(HEADER, DISK, out);
    hide Hide, Kept, Join, Concat, Segmented, AnyHidden;
    Grouped(HEADER, BULK_ONLY, ATTACHED_SCSI, GROUPING, KEYBOARD);
    Grouped([9, 2, 35, 0, 2, 1, 0, 0x80, 50], [], BULK_ONLY, GROUPING, KEYBOARD);
    Renumbered(HEADER, rest);
    assert [9, 2, 35, 0, 2, 1, 0, 0x80, 50] + [] == [9, 2, 35, 0, 2, 1, 0, 0x80, 50];
    assert [] + BULK_ONLY == BULK_ONLY;
  }

  lemma Renumbered(header: seq<byte>, rest: seq<byte>)
    requires header == HEADER && |rest| == 26
    ensures var out := header + rest;
            out[2 := |out| % 0x100][3 := |out| / 0x100 % 0x100]
            == [9, 2, 35, 0, 2, 1, 0, 0x80, 50] + rest
    ensures |header + rest| % 0x1_0000 == 35 && LittleEndian(header[2], header[3]) == 44
  {
  }

  lemma Grouped(h: seq<byte>, a: seq<byte>, b: seq<byte>, c: seq<byte>, d: seq<byte>)
    ensures h + a + b + c + d == h + (a + b + c + d)
  {
  }

  // ---------------------------------------------------------------- what is hidden, spelt out

  /** An interface descriptor, of type 4, with what belongs to it at least 9 bytes long. */
  predicate Interface(seg: Segment) {
    seg != [] && |seg[0]| >= 2 && seg[0][1] == 4 && |Concat(seg)| >= 9
  }

  /** Class 8, subclass 6, protocol 0x62: mass storage, SCSI, UAS. */
  predicate SpeaksUas(seg: Segment)
    requires Interface(seg)
  {
    var b := Concat(seg);
    b[5] == 8 && b[6] == 6 && b[7] == 0x62
  }

  /**
   * A segment is hidden exactly if it is a UAS interface and another interface of the same number,
   * byte 2 of its descriptor, is not.
   */
  lemma HiddenExactly(segs: seq<Segment>, seg: Segment)
    ensures Hidden(segs, seg)
            <==> Interface(seg) && SpeaksUas(seg)
                 && exists k :: 0 <= k < |segs| && Interface(segs[k]) && !SpeaksUas(segs[k])
                                && Concat(segs[k])[2] == Concat(seg)[2]
  {
    hide Concat;
    UasBytes(seg);
    forall k | 0 <= k < |segs|
      ensures Full(segs[k]) <==> Interface(segs[k])
      ensures Full(segs[k]) ==> (Uas(segs[k]) <==> SpeaksUas(segs[k]))
    {
      UasBytes(segs[k]);
    }
    hide Full, Uas, Interface, SpeaksUas;
    if Interface(seg) && SpeaksUas(seg) {
      if k :| 0 <= k < |segs| && Interface(segs[k]) && !SpeaksUas(segs[k])
              && Concat(segs[k])[2] == Concat(seg)[2]
      {
        assert Full(segs[k]) && !Uas(segs[k]);
      }
    }
  }

  lemma UasBytes(seg: Segment)
    ensures Full(seg) <==> Interface(seg)
    ensures Full(seg) ==> (Uas(seg) <==> SpeaksUas(seg))
    ensures Uas(seg) ==> Full(seg)
    ensures Full(seg) ==> Number(seg) == Concat(seg)[2]
  {
    hide Concat;
    if Full(seg) {
      var b := Concat(seg);
      assert b[5..8] == [b[5], b[6], b[7]];
    }
  }

  /** Nothing is hidden from what does not start with a whole configuration header. */
  lemma NoHeaderHidesNothing(config: seq<byte>)
    requires |config| < 9 || config[0] < 9 || config[0] > |config| || config[1] != 2
    ensures Hide(config) == None
  {
  }

  /** Nor from a chain with a length less than 2 or past the end. */
  lemma BrokenChainHidesNothing(config: seq<byte>, ds: seq<Descriptor>, rest: seq<byte>)
    requires |config| >= 9 && 9 <= config[0] <= |config|
    requires AllWellFormed(ds) && config[config[0]..] == Concat(ds) + rest
    requires rest != [] && (rest[0] < 2 || rest[0] > |rest|)
    ensures Hide(config) == None
  {
    SplitFails(ds, rest);
  }

  lemma SplitNone(d: Descriptor, tail: seq<byte>)
    requires WellFormed(d) && Split(tail).None?
    ensures Split(d + tail).None?
  {
    var b := d + tail;
    assert b[0] == |d| && b[b[0]..] == tail;
  }

  lemma {:induction false} SplitFails(ds: seq<Descriptor>, rest: seq<byte>)
    requires AllWellFormed(ds) && rest != [] && (rest[0] < 2 || rest[0] > |rest|)
    ensures Split(Concat(ds) + rest).None?
  {
    if ds == [] {
      assert Concat(ds) + rest == rest;
    } else {
      assert ds[0] in ds;
      assert Concat(ds) == ds[0] + Concat(ds[1..]);
      SplitFails(ds[1..], rest);
      hide Concat, Split;
      SplitNone(ds[0], Concat(ds[1..]) + rest);
      Regrouped(ds[0], Concat(ds[1..]), rest);
    }
  }

  lemma Regrouped(x: seq<byte>, y: seq<byte>, z: seq<byte>)
    ensures x + y + z == x + (y + z)
  {
  }
}
