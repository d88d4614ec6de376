/**
 * The bytes of the messages, offset by offset, as in the tables of the Linux kernel's
 * `Documentation/usb/usbip_protocol.rst`.
 */
module Layouts {
  import opened Common
  import opened Wire

  /** The 32-bit number at offset `i`, most significant byte first. */
  function Big(b: seq<byte>, i: nat): nat
    requires i + 4 <= |b|
  {
    ((b[i] as nat * 256 + b[i + 1] as nat) * 256 + b[i + 2] as nat) * 256 + b[i + 3] as nat
  }

  /** A signed number as an unsigned one of 32 bits. */
  predicate TwosComplement(n: int, bits: nat) {
    bits == (if n >= 0 then n else 0x1_0000_0000 + n)
  }

  lemma BigIsWord(b: seq<byte>, i: nat)
    requires i + 4 <= |b|
    ensures Big(b, i) == WordAt(b, i)
  {
  }

  lemma HeaderBigs(b: seq<byte>)
    requires |b| >= 48
    ensures forall k :: 0 <= k < 12 ==> HeaderWords(b)[k] == Big(b, 4 * k)
  {
    hide WordAt, Big;
    forall k | 0 <= k < 12
      ensures HeaderWords(b)[k] == Big(b, 4 * k)
    {
      BigIsWord(b, 4 * k);
    }
  }

  /** An isochronous packet descriptor at offset `i`. */
  predicate PacketThere(b: seq<byte>, i: nat, p: IsoPacket) {
    && i + 16 <= |b|
    && Big(b, i) == p.offset && Big(b, i + 4) == p.length && Big(b, i + 8) == p.actualLength
    && TwosComplement(p.status, Big(b, i + 12))
  }

  lemma PacketEncodedThere(p: IsoPacket, rest: seq<byte>)
    ensures PacketThere(EncodePacket(p) + rest, 0, p)
  {
    hide WordAt, Words, BigEndian, Big;
    var ws := [p.offset, p.length, p.actualLength, FromSigned(p.status)];
    var b := EncodePacket(p) + rest;
    WordsAt(ws, 0, rest);
    WordsAt(ws, 1, rest);
    WordsAt(ws, 2, rest);
    WordsAt(ws, 3, rest);
    BigIsWord(b, 0);
    BigIsWord(b, 4);
    BigIsWord(b, 8);
    BigIsWord(b, 12);
  }

  lemma ThereBehind(a: seq<byte>, b: seq<byte>, i: nat, p: IsoPacket)
    requires PacketThere(b, i, p)
    ensures PacketThere(a + b, |a| + i, p)
  {
    assert forall k :: 0 <= k < |b| ==> (a + b)[|a| + k] == b[k];
  }

  lemma {:induction false} PacketsEncodedThere(ps: seq<IsoPacket>, j: nat)
    requires j < |ps|
    ensures PacketThere(EncodePackets(ps), 16 * j, ps[j])
  {
    hide PacketThere, EncodePacket;
    var rest := EncodePackets(ps[1..]);
    if j == 0 {
      PacketEncodedThere(ps[0], rest);
    } else {
      PacketsEncodedThere(ps[1..], j - 1);
      ThereBehind(EncodePacket(ps[0]), rest, 16 * (j - 1), ps[j]);
    }
  }

  /**
   * USBIP_CMD_SUBMIT: command 1; sequence number, device, direction and endpoint at 4, 8, 12 and 16;
   * flags at 20, buffer length at 24, start frame at 28, number of packets at 32, interval at 36,
   * setup at 40; then the data and 16 bytes per packet.
   */
  lemma SubmitLayout(c: CmdSubmit)
    requires Consistent(Submit(c)) && |c.isoPackets| <= 1024
    ensures var b := Encode(Submit(c));
            && |b| == 48 + |c.data| + 16 * |c.isoPackets|
            && Big(b, 0) == 1 && Big(b, 4) == c.seqnum && Big(b, 8) == c.devid
            && Big(b, 12) == c.direction && Big(b, 16) == c.ep && Big(b, 20) == c.transferFlags
            && Big(b, 24) == c.length && Big(b, 28) == c.startFrame
            && Big(b, 32) == |c.isoPackets| && Big(b, 36) == c.interval
            && b[40..48] == c.setup && b[48..48 + |c.data|] == c.data
            && forall j :: 0 <= j < |c.isoPackets| ==>
                 PacketThere(b, 48 + |c.data| + 16 * j, c.isoPackets[j])
  {
    hide WordAt, Big, Words, BigEndian, PacketThere, HeaderWords, EncodePacket;
    var b, iso := Encode(Submit(c)), EncodePackets(c.isoPackets);
    SubmitSlices(c, []);
    assert b + [] == b && iso + [] == iso;
    HeaderBigs(b);
    SubmitAnnounced(HeaderWords(b), c);
    BigsAt(b);
    assert b[48..] == c.data + iso;
    assert b == (b[..48] + c.data) + iso;
    forall j | 0 <= j < |c.isoPackets|
      ensures PacketThere(b, 48 + |c.data| + 16 * j, c.isoPackets[j])
    {
      PacketsEncodedThere(c.isoPackets, j);
      ThereBehind(b[..48] + c.data, iso, 16 * j, c.isoPackets[j]);
    }
  }

  /** The numbers of a header by their offsets. */
  lemma BigsAt(b: seq<byte>)
    requires |b| >= 48
    ensures var w := HeaderWords(b);
            && Big(b, 0) == w[0] && Big(b, 4) == w[1] && Big(b, 8) == w[2] && Big(b, 12) == w[3]
            && Big(b, 16) == w[4] && Big(b, 20) == w[5] && Big(b, 24) == w[6]
            && Big(b, 28) == w[7] && Big(b, 32) == w[8] && Big(b, 36) == w[9]
  {
    hide WordAt, Big, HeaderWords;
    HeaderBigs(b);
    var w := HeaderWords(b);
    assert w[0] == Big(b, 4 * 0) && w[1] == Big(b, 4 * 1) && w[2] == Big(b, 4 * 2);
    assert w[3] == Big(b, 4 * 3) && w[4] == Big(b, 4 * 4) && w[5] == Big(b, 4 * 5);
    assert w[6] == Big(b, 4 * 6) && w[7] == Big(b, 4 * 7) && w[8] == Big(b, 4 * 8);
    assert w[9] == Big(b, 4 * 9);
  }

  /**
   * USBIP_CMD_UNLINK: command 2; sequence number and device at 4 and 8; direction and endpoint,
   * both 0, at 12 and 16; the number to unlink at 20; 24 bytes of padding.
   */
  lemma UnlinkLayout(u: CmdUnlink)
    requires Consistent(Unlink(u))
    ensures var b := Encode(Unlink(u));
            && |b| == 48 && Big(b, 0) == 2 && Big(b, 4) == u.seqnum && Big(b, 8) == u.devid
            && Big(b, 12) == 0 && Big(b, 16) == 0 && Big(b, 20) == u.target
            && Big(b, 24) == 0 && Big(b, 28) == 0 && Big(b, 32) == 0 && Big(b, 36) == 0
  {
    hide WordAt, Big, BigEndian, HeaderWords, Words;
    var ws, b := UnlinkWords(u), Encode(Unlink(u));
    assert b + [] == b;
    HeaderWordsOf(ws, b, []);
    BigsAt(b);
  }

  /**
   * A reply header is read if and only if 48 bytes are there, it is a RET_SUBMIT (command 3) with at
   * most 1024 packets or the marker for none, or a RET_UNLINK (command 4). Status, actual length,
   * start frame, number of packets and error count are at 20, 24, 28, 32 and 36.
   */
  lemma ReplyLayout(b: seq<byte>)
    ensures var r := ReadHeader(b);
            if |b| < 48 then r == Err(UnexpectedEof)
            else if Big(b, 0) == 3 then
              var packets := if Big(b, 32) == 0xffff_ffff then 0 else Big(b, 32);
              if packets > 1024 then r == Err(Malformed)
              else
                && r.Ok? && r.value.rest == b[48..] && r.value.value.ReplySubmit?
                && r.value.value.seqnum == Big(b, 4)
                && TwosComplement(r.value.value.status, Big(b, 20))
                && r.value.value.actualLength == Big(b, 24)
                && r.value.value.startFrame == Big(b, 28) && r.value.value.packets == packets
                && r.value.value.errorCount == Big(b, 36)
            else if Big(b, 0) == 4 then
              && r.Ok? && r.value.rest == b[48..] && r.value.value.ReplyUnlink?
              && r.value.value.seqnum == Big(b, 4)
              && TwosComplement(r.value.value.status, Big(b, 20))
            else r == Err(UnexpectedCommand(Big(b, 0)))
  {
    hide WordAt, Big, HeaderWords;
    if |b| >= 48 { BigsAt(b); }
  }

  lemma DecodedThere(b: seq<byte>)
    requires |b| >= 16
    ensures PacketThere(b, 0, DecodePacket(b))
  {
    hide WordAt, Big;
    BigIsWord(b, 0);
    BigIsWord(b, 4);
    BigIsWord(b, 8);
    BigIsWord(b, 12);
  }

  lemma {:induction false} AllDecodedThere(b: seq<byte>, n: nat, j: nat)
    requires |b| >= 16 * n && j < n
    ensures PacketThere(b, 16 * j, DecodePackets(b, n)[j])
  {
    hide PacketThere, DecodePacket;
    if j == 0 {
      DecodedThere(b);
    } else {
      AllDecodedThere(b[16..], n - 1, j - 1);
      ThereBehind(b[..16], b[16..], 16 * (j - 1), DecodePackets(b, n)[j]);
      assert b[..16] + b[16..] == b;
    }
  }

  /**
   * A payload is read if and only if the server does not claim more than was asked for and enough
   * bytes are there: for a read the data, then 16 bytes per packet.
   */
  lemma PayloadLayout(h: Reply, dataExpected: bool, maxLength: nat, b: seq<byte>)
    requires h.ReplySubmit?
    ensures var r := ReadPayload(h, dataExpected, maxLength, b);
            var size := if dataExpected then h.actualLength else 0;
            if h.actualLength > maxLength then r == Err(Malformed)
            else if |b| < size + 16 * h.packets then r == Err(UnexpectedEof)
            else
              && r.Ok? && r.value.rest == b[size + 16 * h.packets..]
              && r.value.value.seqnum == h.seqnum && r.value.value.status == h.status
              && r.value.value.actualLength == h.actualLength
              && r.value.value.startFrame == h.startFrame
              && r.value.value.errorCount == h.errorCount
              && r.value.value.data == b[..size] && |r.value.value.isoPackets| == h.packets
              && forall j :: 0 <= j < h.packets ==>
                   PacketThere(b, size + 16 * j, r.value.value.isoPackets[j])
  {
    hide PacketThere, DecodePackets;
    var size := if dataExpected then h.actualLength else 0;
    if h.actualLength <= maxLength && |b| >= size + 16 * h.packets {
      assert b[size..][16 * h.packets..] == b[size + 16 * h.packets..];
      forall j | 0 <= j < h.packets
        ensures PacketThere(b, size + 16 * j, DecodePackets(b[size..], h.packets)[j])
      {
        DecodedBehind(b, size, h.packets, j);
      }
    }
  }

  lemma DecodedBehind(b: seq<byte>, size: nat, n: nat, j: nat)
    requires size + 16 * n <= |b| && j < n
    ensures PacketThere(b, size + 16 * j, DecodePackets(b[size..], n)[j])
  {
    hide PacketThere, DecodePackets;
    AllDecodedThere(b[size..], n, j);
    ThereBehind(b[..size], b[size..], 16 * j, DecodePackets(b[size..], n)[j]);
    assert b[..size] + b[size..] == b;
  }
}
