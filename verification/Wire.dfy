/**
 * The USB/IP messages exchanged once a device is imported: the layouts of the USBIP_CMD_SUBMIT,
 * USBIP_CMD_UNLINK, USBIP_RET_SUBMIT and USBIP_RET_UNLINK tables of the Linux kernel's
 * `Documentation/usb/usbip_protocol.rst`. All multi-byte fields are big endian.
 *
 * The functions here say what the bytes are; the classes `Buffer` and `Cursor` of `WireIO` write
 * and read them piece by piece, as the client does.
 */
module Wire {
  import opened Common

  const CMD_SUBMIT: u32 := 1
  const CMD_UNLINK: u32 := 2
  const RET_SUBMIT: u32 := 3
  const RET_UNLINK: u32 := 4
  const HEADER_SIZE: nat := 48
  const ISO_SIZE: nat := 16
  const MAX_ISO_PACKETS: nat := 1024
  /** What a server may put in `number_of_packets` of a transfer that is not isochronous. */
  const NO_PACKETS: nat := 0xffff_ffff

  type Setup = s: seq<byte> | |s| == 8 witness [0, 0, 0, 0, 0, 0, 0, 0]

  const NO_SETUP: Setup := [0, 0, 0, 0, 0, 0, 0, 0]

  datatype IsoPacket = IsoPacket(offset: u32, length: u32, actualLength: u32, status: i32)

  datatype CmdSubmit = CmdSubmit(
    seqnum: nat, devid: u32, direction: u32, ep: u32, transferFlags: u32, length: u32,
    startFrame: u32, interval: u32, setup: Setup, data: seq<byte>, isoPackets: seq<IsoPacket>)

  datatype CmdUnlink = CmdUnlink(seqnum: nat, devid: u32, target: nat)

  datatype Command = Submit(submit: CmdSubmit) | Unlink(unlink: CmdUnlink)

  datatype RetSubmit = RetSubmit(
    seqnum: nat, status: i32, actualLength: u32, startFrame: u32, errorCount: u32,
    data: seq<byte>, isoPackets: seq<IsoPacket>)

  datatype Reply =
    | ReplySubmit(seqnum: nat, status: i32, actualLength: u32, startFrame: u32, packets: nat,
                  errorCount: u32)
    | ReplyUnlink(seqnum: nat, status: i32)

  datatype ProtocolError = UnexpectedEof | UnexpectedCommand(code: u32) | Malformed

  datatype Parsed<+T> = Parsed(value: T, rest: seq<byte>)

  // ---------------------------------------------------------------- 32-bit words

  function BigEndian(n: nat): (b: seq<byte>)
    ensures |b| == 4
  {
    [n / 0x100_0000 % 0x100, n / 0x1_0000 % 0x100, n / 0x100 % 0x100, n % 0x100]
  }

  function WordAt(b: seq<byte>, i: nat): (n: u32)
    requires i + 4 <= |b|
  {
    b[i] as int * 0x100_0000 + b[i + 1] as int * 0x1_0000 + b[i + 2] as int * 0x100 + b[i + 3]
  }

  /** Two's complement. */
  function FromSigned(n: i32): u32 {
    if n < 0 then n + WORD else n
  }

  function ToSigned(n: u32): i32 {
    if n < 0x8000_0000 then n else n - WORD
  }

  function Words(ws: seq<nat>): (b: seq<byte>)
    ensures |b| == 4 * |ws|
  {
    if ws == [] then [] else BigEndian(ws[0]) + Words(ws[1..])
  }

  /** The twelve words of a message header. */
  function HeaderWords(b: seq<byte>): (ws: seq<u32>)
    requires |b| >= HEADER_SIZE
    ensures |ws| == 12
  {
    seq(12, i requires 0 <= i < 12 => WordAt(b, 4 * i))
  }

  lemma TwoBytes(n: nat)
    ensures n % 0x1_0000 == (n / 0x100 % 0x100) * 0x100 + n % 0x100
  {
    var q, r := n / 0x100, n % 0x100;
    var p, m := q / 0x100, q % 0x100;
    assert n == 0x100 * q + r && q == 0x100 * p + m;
    assert n == 0x1_0000 * p + (0x100 * m + r);
  }

  lemma TwoHalves(n: nat)
    ensures n % WORD == (n / 0x1_0000 % 0x1_0000) * 0x1_0000 + n % 0x1_0000
  {
    var q := n / 0x1_0000;
    SplitWord(n, q / 0x1_0000, q % 0x1_0000, n % 0x1_0000);
  }

  lemma SplitWord(n: nat, p: nat, m: nat, r: nat)
    requires n == 0x1_0000 * (0x1_0000 * p + m) + r && m < 0x1_0000 && r < 0x1_0000
    ensures n % WORD == 0x1_0000 * m + r
  {
    assert n == WORD * p + (0x1_0000 * m + r);
  }

  lemma TopByte(n: nat)
    ensures n / 0x1_0000 / 0x100 == n / 0x100_0000
  {
  }

  lemma WordAtBigEndian(n: nat, rest: seq<byte>)
    ensures WordAt(BigEndian(n) + rest, 0) == n % WORD
  {
    TwoBytes(n);
    TwoBytes(n / 0x1_0000);
    TwoHalves(n);
    TopByte(n);
    var b := BigEndian(n) + rest;
    assert b[0] == n / 0x100_0000 % 0x100 && b[1] == n / 0x1_0000 % 0x100;
    assert b[2] == n / 0x100 % 0x100 && b[3] == n % 0x100;
  }

  lemma {:induction false} WordsAt(ws: seq<nat>, i: nat, rest: seq<byte>)
    requires i < |ws|
    ensures WordAt(Words(ws) + rest, 4 * i) == ws[i] % WORD
  {
    var tail := Words(ws[1..]) + rest;
    assert Words(ws) + rest == BigEndian(ws[0]) + tail;
    if i == 0 {
      WordAtBigEndian(ws[0], tail);
    } else {
      WordsAt(ws[1..], i - 1, rest);
      assert WordAt(BigEndian(ws[0]) + tail, 4 * i) == WordAt(tail, 4 * (i - 1));
    }
  }

  lemma HeaderWordsOf(ws: seq<nat>, b: seq<byte>, rest: seq<byte>)
    requires |b| >= HEADER_SIZE && b == Words(ws) + rest && |ws| <= 12
    ensures forall i :: 0 <= i < |ws| ==> HeaderWords(b)[i] == ws[i] % WORD
  {
    forall i | 0 <= i < |ws|
      ensures HeaderWords(b)[i] == ws[i] % WORD
    {
      WordsAt(ws, i, rest);
      assert HeaderWords(b)[i] == WordAt(b, 4 * i);
    }
  }

  // ---------------------------------------------------------------- isochronous packets

  function EncodePacket(p: IsoPacket): (b: seq<byte>)
    ensures |b| == ISO_SIZE
  {
    Words([p.offset, p.length, p.actualLength, FromSigned(p.status)])
  }

  function DecodePacket(b: seq<byte>): IsoPacket
    requires |b| >= ISO_SIZE
  {
    IsoPacket(WordAt(b, 0), WordAt(b, 4), WordAt(b, 8), ToSigned(WordAt(b, 12)))
  }

  function EncodePackets(ps: seq<IsoPacket>): (b: seq<byte>)
    ensures |b| == ISO_SIZE * |ps|
  {
    if ps == [] then [] else EncodePacket(ps[0]) + EncodePackets(ps[1..])
  }

  function DecodePackets(b: seq<byte>, n: nat): (ps: seq<IsoPacket>)
    requires |b| >= ISO_SIZE * n
    ensures |ps| == n
  {
    if n == 0 then [] else [DecodePacket(b)] + DecodePackets(b[ISO_SIZE..], n - 1)
  }

  lemma PacketRoundTrip(p: IsoPacket, rest: seq<byte>)
    ensures DecodePacket(EncodePacket(p) + rest) == p
  {
    hide WordAt, Words, BigEndian;
    var ws := [p.offset, p.length, p.actualLength, FromSigned(p.status)];
    WordsAt(ws, 0, rest);
    WordsAt(ws, 1, rest);
    WordsAt(ws, 2, rest);
    WordsAt(ws, 3, rest);
  }

  lemma {:induction false} PacketsRoundTrip(ps: seq<IsoPacket>, rest: seq<byte>)
    ensures DecodePackets(EncodePackets(ps) + rest, |ps|) == ps
  {
    if ps != [] {
      var tail := EncodePackets(ps[1..]) + rest;
      assert EncodePackets(ps) + rest == EncodePacket(ps[0]) + tail;
      PacketRoundTrip(ps[0], tail);
      assert (EncodePacket(ps[0]) + tail)[ISO_SIZE..] == tail;
      PacketsRoundTrip(ps[1..], rest);
    }
  }

  // ---------------------------------------------------------------- commands, client to server

  function SubmitWords(c: CmdSubmit): (ws: seq<nat>) {
    [CMD_SUBMIT, c.seqnum, c.devid, c.direction, c.ep, c.transferFlags, c.length, c.startFrame,
     |c.isoPackets|, c.interval]
  }

  function UnlinkWords(c: CmdUnlink): (ws: seq<nat>) {
    [CMD_UNLINK, c.seqnum, c.devid, 0, 0, c.target, 0, 0, 0, 0, 0, 0]
  }

  function Encode(c: Command): (b: seq<byte>)
    ensures |b| >= HEADER_SIZE
  {
    match c
    case Submit(s) => Words(SubmitWords(s)) + s.setup + s.data + EncodePackets(s.isoPackets)
    case Unlink(u) => Words(UnlinkWords(u))
  }

  /**
   * A server's decoder: the header says how much follows. Only OUT transfers (direction 0) carry
   * data, and more than 1024 packets are refused.
   */
  function Decode(b: seq<byte>): Option<Parsed<Command>> {
    if |b| < HEADER_SIZE then None else DecodeBody(HeaderWords(b), b[40..48], b[HEADER_SIZE..])
  }

  function DecodeBody(w: seq<u32>, setup: Setup, b: seq<byte>): Option<Parsed<Command>>
    requires |w| == 12
  {
    if w[0] == CMD_UNLINK then Some(Parsed(Unlink(CmdUnlink(w[1], w[2], w[5])), b))
    else if w[0] != CMD_SUBMIT then None
    else
      var size := if w[3] == 0 then w[6] else 0;
      var packets := if w[8] == NO_PACKETS then 0 else w[8];
      if packets > MAX_ISO_PACKETS || |b| < size + packets * ISO_SIZE then None
      else
        var iso := b[size..];
        Some(Parsed(Submit(CmdSubmit(w[1], w[2], w[3], w[4], w[5], w[6], w[7], w[9], setup,
                                     b[..size], DecodePackets(iso, packets))),
                    iso[packets * ISO_SIZE..]))
  }

  /** What `Session::submit` guarantees of the data it queues. */
  predicate Consistent(c: Command) {
    match c
    case Submit(s) =>
      s.seqnum < WORD && s.direction <= 1 && |s.data| == if s.direction == 0 then s.length else 0
    case Unlink(u) => u.seqnum < WORD && u.target < WORD
  }

  ghost predicate Announces(w: seq<u32>, c: CmdSubmit) {
    && |w| == 12
    && w[0] == CMD_SUBMIT && w[1] == c.seqnum && w[2] == c.devid && w[3] == c.direction
    && w[4] == c.ep && w[5] == c.transferFlags && w[6] == c.length && w[7] == c.startFrame
    && w[8] == |c.isoPackets| && w[9] == c.interval
  }

  lemma SubmitAnnounced(w: seq<u32>, c: CmdSubmit)
    requires Consistent(Submit(c)) && |c.isoPackets| <= MAX_ISO_PACKETS
    requires |w| == 12 && forall i :: 0 <= i < 10 ==> w[i] == SubmitWords(c)[i] % WORD
    ensures Announces(w, c)
  {
  }

  lemma DecodeSubmitBody(c: CmdSubmit, w: seq<u32>, iso: seq<byte>, rest: seq<byte>)
    requires Consistent(Submit(c)) && |c.isoPackets| <= MAX_ISO_PACKETS && Announces(w, c)
    requires |iso| >= |c.isoPackets| * ISO_SIZE
    requires DecodePackets(iso, |c.isoPackets|) == c.isoPackets
    requires iso[|c.isoPackets| * ISO_SIZE..] == rest
    ensures DecodeBody(w, c.setup, c.data + iso) == Some(Parsed(Submit(c), rest))
  {
    var b := c.data + iso;
    assert b[..|c.data|] == c.data && b[|c.data|..] == iso;
  }

  lemma SubmitSlices(c: CmdSubmit, rest: seq<byte>)
    ensures var b := Encode(Submit(c)) + rest;
            && (forall i :: 0 <= i < 10 ==> HeaderWords(b)[i] == SubmitWords(c)[i] % WORD)
            && b[40..48] == c.setup
            && b[HEADER_SIZE..] == c.data + (EncodePackets(c.isoPackets) + rest)
  {
    var head := Words(SubmitWords(c));
    var b := Encode(Submit(c)) + rest;
    assert b == head + (c.setup + c.data + EncodePackets(c.isoPackets) + rest);
    HeaderWordsOf(SubmitWords(c), b, c.setup + c.data + EncodePackets(c.isoPackets) + rest);
    assert b == (head + c.setup) + (c.data + (EncodePackets(c.isoPackets) + rest));
  }

  lemma SubmitRoundTrip(c: CmdSubmit, rest: seq<byte>)
    requires Consistent(Submit(c)) && |c.isoPackets| <= MAX_ISO_PACKETS
    ensures Decode(Encode(Submit(c)) + rest) == Some(Parsed(Submit(c), rest))
  {
    SubmitSlices(c, rest);
    PacketsRoundTrip(c.isoPackets, rest);
    var b := Encode(Submit(c)) + rest;
    var iso := EncodePackets(c.isoPackets) + rest;
    assert iso[|c.isoPackets| * ISO_SIZE..] == rest;
    SubmitAnnounced(HeaderWords(b), c);
    DecodeSubmitBody(c, HeaderWords(b), iso, rest);
  }

  lemma UnlinkRoundTrip(u: CmdUnlink, rest: seq<byte>)
    requires Consistent(Unlink(u))
    ensures Decode(Encode(Unlink(u)) + rest) == Some(Parsed(Unlink(u), rest))
  {
    hide WordAt, BigEndian, Words, HeaderWords;
    var ws := UnlinkWords(u);
    var b := Words(ws) + rest;
    HeaderWordsOf(ws, b, rest);
    var w := HeaderWords(b);
    assert w[0] == CMD_UNLINK && w[1] == u.seqnum && w[2] == u.devid && w[5] == u.target;
    assert b[HEADER_SIZE..] == rest;
  }

  lemma DecodeBounds(b: seq<byte>)
    ensures var d := Decode(b);
            d.Some? && d.value.value.Submit?
            ==> |d.value.value.submit.isoPackets| <= MAX_ISO_PACKETS
  {
  }

  /**
   * Commands are self-delimiting and decodable, whatever follows them, exactly when they carry at
   * most 1024 packets.
   */
  lemma CommandRoundTrip(c: Command, rest: seq<byte>)
    requires Consistent(c)
    ensures Decode(Encode(c) + rest) == Some(Parsed(c, rest))
            <==> (c.Submit? ==> |c.submit.isoPackets| <= MAX_ISO_PACKETS)
  {
    match c {
      case Unlink(u) => UnlinkRoundTrip(u, rest);
      case Submit(s) =>
        if |s.isoPackets| <= MAX_ISO_PACKETS {
          SubmitRoundTrip(s, rest);
        } else {
          DecodeBounds(Encode(c) + rest);
        }
    }
  }

  // ---------------------------------------------------------------- replies, server to client

  /** A RET_SUBMIT as a server may write it: `marker` is its choice of the no-packets marker. */
  datatype ReplyFrame =
    | SubmitFrame(ret: RetSubmit, marker: bool)
    | UnlinkFrame(seqnum: u32, status: i32)

  /** The reply has the shape that a transfer of this direction and length calls for. */
  predicate Fits(ret: RetSubmit, direction: Direction, length: nat) {
    && ret.actualLength <= length
    && |ret.data| == (if direction == In then ret.actualLength else 0)
    && |ret.isoPackets| <= MAX_ISO_PACKETS
  }

  function RetWords(f: ReplyFrame): (ws: seq<nat>)
    ensures |ws| == 12
  {
    match f
    case SubmitFrame(r, marker) =>
      [RET_SUBMIT, r.seqnum, 0, 0, 0, FromSigned(r.status), r.actualLength, r.startFrame,
       if r.isoPackets == [] && marker then NO_PACKETS else |r.isoPackets|, r.errorCount, 0, 0]
    case UnlinkFrame(seqnum, status) =>
      [RET_UNLINK, seqnum, 0, 0, 0, FromSigned(status), 0, 0, 0, 0, 0, 0]
  }

  function Payload(f: ReplyFrame): seq<byte> {
    match f
    case SubmitFrame(r, _) => r.data + EncodePackets(r.isoPackets)
    case UnlinkFrame(_, _) => []
  }

  function EncodeReply(f: ReplyFrame): seq<byte> {
    Words(RetWords(f)) + Payload(f)
  }

  /** The header a frame announces itself with. */
  function HeaderOf(f: ReplyFrame): Reply {
    match f
    case SubmitFrame(r, _) =>
      ReplySubmit(r.seqnum, r.status, r.actualLength, r.startFrame, |r.isoPackets|, r.errorCount)
    case UnlinkFrame(seqnum, status) => ReplyUnlink(seqnum, status)
  }

  function ReadHeader(b: seq<byte>): Result<Parsed<Reply>, ProtocolError> {
    if |b| < HEADER_SIZE then Err(UnexpectedEof)
    else
      match ParseHeader(HeaderWords(b))
      case Ok(h) => Ok(Parsed(h, b[HEADER_SIZE..]))
      case Err(e) => Err(e)
  }

  function ParseHeader(w: seq<u32>): Result<Reply, ProtocolError>
    requires |w| == 12
  {
    if w[0] == RET_SUBMIT then
      var packets := if w[8] == NO_PACKETS then 0 else w[8];
      if packets > MAX_ISO_PACKETS then Err(Malformed)
      else Ok(ReplySubmit(w[1], ToSigned(w[5]), w[6], w[7], packets, w[9]))
    else if w[0] == RET_UNLINK then Ok(ReplyUnlink(w[1], ToSigned(w[5])))
    else Err(UnexpectedCommand(w[0]))
  }

  function ReadPayload(h: Reply, dataExpected: bool, maxLength: nat, b: seq<byte>)
    : Result<Parsed<RetSubmit>, ProtocolError>
  {
    if h.ReplyUnlink? then Err(Malformed)
    else if h.actualLength > maxLength then Err(Malformed)
    else
      var size := if dataExpected then h.actualLength else 0;
      if |b| < size + h.packets * ISO_SIZE then Err(UnexpectedEof)
      else
        var iso := b[size..];
        Ok(Parsed(RetSubmit(h.seqnum, h.status, h.actualLength, h.startFrame, h.errorCount,
                            b[..size], DecodePackets(iso, h.packets)),
                  iso[h.packets * ISO_SIZE..]))
  }

  lemma HeaderParses(f: ReplyFrame, w: seq<u32>)
    requires f.SubmitFrame? ==> f.ret.seqnum < WORD && |f.ret.isoPackets| <= MAX_ISO_PACKETS
    requires |w| == 12 && forall i :: 0 <= i < 12 ==> w[i] == RetWords(f)[i] % WORD
    ensures ParseHeader(w) == Ok(HeaderOf(f))
  {
  }

  /** Header reading inverts a server's encoding, the no-packets marker included. */
  lemma HeaderRoundTrip(f: ReplyFrame, rest: seq<byte>)
    requires f.SubmitFrame? ==> f.ret.seqnum < WORD && |f.ret.isoPackets| <= MAX_ISO_PACKETS
    ensures ReadHeader(EncodeReply(f) + rest) == Ok(Parsed(HeaderOf(f), Payload(f) + rest))
  {
    var ws := RetWords(f);
    var b := EncodeReply(f) + rest;
    assert b == Words(ws) + (Payload(f) + rest);
    HeaderWordsOf(ws, b, Payload(f) + rest);
    HeaderParses(f, HeaderWords(b));
    assert b[HEADER_SIZE..] == Payload(f) + rest;
  }

  lemma PayloadDecodes(ret: RetSubmit, direction: Direction, length: nat, iso: seq<byte>,
                       rest: seq<byte>)
    requires Fits(ret, direction, length)
    requires |iso| >= |ret.isoPackets| * ISO_SIZE
    requires DecodePackets(iso, |ret.isoPackets|) == ret.isoPackets
    requires iso[|ret.isoPackets| * ISO_SIZE..] == rest
    ensures ReadPayload(HeaderOf(SubmitFrame(ret, false)), direction == In, length, ret.data + iso)
            == Ok(Parsed(ret, rest))
  {
    assert (ret.data + iso)[|ret.data|..] == iso;
    assert (ret.data + iso)[..|ret.data|] == ret.data;
  }

  /** Payload reading inverts a server's encoding and stops where the frame ends. */
  lemma PayloadRoundTrip(f: ReplyFrame, direction: Direction, length: nat, rest: seq<byte>)
    requires f.SubmitFrame? && Fits(f.ret, direction, length)
    ensures ReadPayload(HeaderOf(f), direction == In, length, Payload(f) + rest)
            == Ok(Parsed(f.ret, rest))
  {
    var iso := EncodePackets(f.ret.isoPackets) + rest;
    assert Payload(f) + rest == f.ret.data + iso;
    PacketsRoundTrip(f.ret.isoPackets, rest);
    assert iso[|f.ret.isoPackets| * ISO_SIZE..] == rest;
    PayloadDecodes(f.ret, direction, length, iso, rest);
  }

  /** Whatever bytes arrive, an accepted payload has the shape the request called for. */
  lemma PayloadFits(h: Reply, direction: Direction, length: nat, b: seq<byte>)
    requires h.ReplySubmit? ==> h.packets <= MAX_ISO_PACKETS
    ensures var r := ReadPayload(h, direction == In, length, b);
            r.Ok? ==> r.value.value.seqnum == h.seqnum && Fits(r.value.value, direction, length)
  {
  }
}
