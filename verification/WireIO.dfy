/** Writing and reading messages piece by piece, as the client does. */
module WireIO {
  import opened Common
  import opened Wire

  /** A growing frame. */
  class Buffer {
    var bytes: seq<byte>

    constructor ()
      ensures bytes == []
    {
      bytes := [];
    }

    method PutWord(n: nat)
      modifies this
      ensures bytes == old(bytes) + BigEndian(n)
    {
      bytes := bytes + BigEndian(n);
    }

    method PutSlice(b: seq<byte>)
      modifies this
      ensures bytes == old(bytes) + b
    {
      bytes := bytes + b;
    }

    method PutWords(ws: seq<nat>)
      modifies this
      ensures bytes == old(bytes) + Words(ws)
    {
      for i := 0 to |ws|
        invariant bytes + Words(ws[i..]) == old(bytes) + Words(ws)
      {
        assert ws[i..][0] == ws[i] && ws[i..][1..] == ws[i + 1..];
        ghost var before := bytes;
        PutWord(ws[i]);
        assert before + (BigEndian(ws[i]) + Words(ws[i + 1..])) == bytes + Words(ws[i + 1..]);
      }
      assert bytes + [] == bytes;
    }

    method PutPackets(ps: seq<IsoPacket>)
      modifies this
      ensures bytes == old(bytes) + EncodePackets(ps)
    {
      hide Words;
      for i := 0 to |ps|
        invariant bytes + EncodePackets(ps[i..]) == old(bytes) + EncodePackets(ps)
      {
        assert ps[i..][0] == ps[i] && ps[i..][1..] == ps[i + 1..];
        ghost var before := bytes;
        var p := ps[i];
        PutWords([p.offset, p.length, p.actualLength, FromSigned(p.status)]);
        assert bytes == before + EncodePacket(p);
        assert before + (EncodePacket(p) + EncodePackets(ps[i + 1..]))
               == bytes + EncodePackets(ps[i + 1..]);
      }
      assert bytes + [] == bytes;
    }

    method PutSubmit(c: CmdSubmit)
      modifies this
      ensures bytes == old(bytes) + Encode(Submit(c))
    {
      hide Words, EncodePackets;
      PutWords(SubmitWords(c));
      PutSlice(c.setup);
      PutSlice(c.data);
      PutPackets(c.isoPackets);
      assert bytes == old(bytes) + (Words(SubmitWords(c)) + c.setup + c.data
                                    + EncodePackets(c.isoPackets));
    }

    method PutUnlink(c: CmdUnlink)
      modifies this
      ensures bytes == old(bytes) + Encode(Unlink(c))
    {
      PutWords(UnlinkWords(c));
    }
  }

  /** The bytes that have arrived, read from the front. */
  class Cursor {
    var rest: seq<byte>

    constructor (bytes: seq<byte>)
      ensures rest == bytes
    {
      rest := bytes;
    }

    method ReadExact(n: nat) returns (r: Option<seq<byte>>)
      modifies this
      ensures r.Some? == (|old(rest)| >= n)
      ensures r.Some? ==> r.value == old(rest)[..n] && rest == old(rest)[n..]
      ensures r.None? ==> rest == old(rest)
    {
      if |rest| < n {
        return None;
      }
      r := Some(rest[..n]);
      rest := rest[n..];
    }

    method ReadReplyHeader() returns (r: Result<Reply, ProtocolError>)
      modifies this
      ensures var spec := ReadHeader(old(rest));
              && (r.Ok? == spec.Ok?)
              && (r.Ok? ==> r.value == spec.value.value && rest == spec.value.rest)
              && (r.Err? ==> r.error == spec.error)
    {
      hide WordAt;
      var bytes := rest;
      var header := ReadExact(HEADER_SIZE);
      if header.None? {
        return Err(UnexpectedEof);
      }
      SameWords(bytes, header.value);
      r := ParseHeader(HeaderWords(header.value));
    }

    static lemma SameWords(b: seq<byte>, header: seq<byte>)
      requires |b| >= HEADER_SIZE && header == b[..HEADER_SIZE]
      ensures HeaderWords(header) == HeaderWords(b)
    {
      forall i | 0 <= i < 12
        ensures WordAt(header, 4 * i) == WordAt(b, 4 * i)
      {
      }
    }

    /** `dataExpected` and `maxLength` come from the client's own record of the request. */
    method ReadSubmitPayload(h: Reply, dataExpected: bool, maxLength: nat)
      returns (r: Result<RetSubmit, ProtocolError>)
      modifies this
      ensures var spec := ReadPayload(h, dataExpected, maxLength, old(rest));
              && (r.Ok? == spec.Ok?)
              && (r.Ok? ==> r.value == spec.value.value && rest == spec.value.rest)
              && (r.Err? ==> r.error == spec.error)
    {
      if h.ReplyUnlink? || h.actualLength > maxLength {
        return Err(Malformed);
      }
      ghost var bytes := rest;
      var data: seq<byte> := [];
      if dataExpected && h.actualLength > 0 {
        var read := ReadExact(h.actualLength);
        if read.None? {
          return Err(UnexpectedEof);
        }
        data := read.value;
      }
      ghost var size := |data|;
      assert data == bytes[..size] && rest == bytes[size..];
      assert size == if dataExpected then h.actualLength else 0;
      var raw := ReadExact(h.packets * ISO_SIZE);
      if raw.None? {
        return Err(UnexpectedEof);
      }
      var packets := UnpackPackets(raw.value, h.packets);
      DecodePrefix(bytes[size..], raw.value, h.packets);
      return Ok(RetSubmit(h.seqnum, h.status, h.actualLength, h.startFrame, h.errorCount, data,
                          packets));
    }

    static method UnpackPackets(raw: seq<byte>, n: nat) returns (packets: seq<IsoPacket>)
      requires |raw| == n * ISO_SIZE
      ensures packets == DecodePackets(raw, n)
    {
      hide DecodePacket;
      packets := [];
      for i := 0 to n
        invariant packets + DecodePackets(raw[i * ISO_SIZE..], n - i) == DecodePackets(raw, n)
      {
        var b := raw[i * ISO_SIZE..];
        assert b[ISO_SIZE..] == raw[(i + 1) * ISO_SIZE..];
        packets := packets + [DecodePacket(b)];
      }
    }

    static lemma {:induction false} DecodePrefix(b: seq<byte>, raw: seq<byte>, n: nat)
      requires |raw| >= n * ISO_SIZE && |b| >= |raw| && b[..|raw|] == raw
      ensures DecodePackets(b, n) == DecodePackets(raw, n)
    {
      if n > 0 {
        assert raw[..ISO_SIZE] == b[..ISO_SIZE];
        assert b[ISO_SIZE..][..|raw| - ISO_SIZE] == raw[ISO_SIZE..];
        DecodePrefix(b[ISO_SIZE..], raw[ISO_SIZE..], n - 1);
        SamePacket(b, raw);
      }
    }

    static lemma SamePacket(a: seq<byte>, b: seq<byte>)
      requires |a| >= ISO_SIZE && |b| >= ISO_SIZE && a[..ISO_SIZE] == b[..ISO_SIZE]
      ensures DecodePacket(a) == DecodePacket(b)
    {
      forall i | 0 <= i < ISO_SIZE ensures a[i] == b[i] { assert a[..ISO_SIZE][i] == b[..ISO_SIZE][i]; }
    }
  }
}
