/**
 * What a completion tells the host, field by field and value by value, in terms of the answer its
 * URB got from the server.
 */
module Verdicts {
  import opened Common
  import opened Wire
  import opened Session
  import opened Engine
  import opened World
  import opened NoStaleWrites
  import opened Reports

  /** The Linux errno values, and the status each is reported as; all others are failures. */
  predicate StatusSays(errno: i32, told: Status) {
    && (told == Success <==> errno in {0, -18, -121})
    && (told == Stall <==> errno == -32)
    && (told == Overrun <==> errno == -75)
    && (told == ProtocolFault <==> errno in {-71, -84})
    && (told == Timeout <==> errno in {-62, -110})
    && (told == Offline <==> errno in {-19, -108})
    && (told == Status.Stopped <==> errno in {-2, -104})
    && (told == TransactionFault <==> errno in {-63, -70})
  }

  predicate ErrorSays(e: TransferError, told: Status) {
    && (told == Offline <==> e.Disconnected?)
    && (told == Status.Stopped <==> e.Unlinked?)
    && (told == Failure <==> e.Invalid?)
  }

  /** The request is GET_DESCRIPTOR(CONFIGURATION), and the URB carries its data stage. */
  predicate AsksConfiguration(o: Origin) {
    o.stage.ControlData? && o.request.setup[0] == 0x80 && o.request.setup[1] == 0x06
    && o.request.setup[3] == 0x02
  }

  /** Isochronous results are reported per packet; there is one packet. */
  predicate ByPacket(o: Origin, ret: RetSubmit) {
    o.stage.IsoData? && ret.isoPackets != []
  }

  /** How many bytes the server says it moved, up to what was asked for. */
  function Moved(o: Origin, ret: RetSubmit): nat {
    var actual := if ByPacket(o, ret) then ret.isoPackets[0].actualLength else ret.actualLength;
    if actual > o.request.length then o.request.length else actual
  }

  /** The bytes a read brought; a write brings none. */
  function Brought(o: Origin, ret: RetSubmit): seq<byte> {
    if o.request.direction == Out then []
    else if Moved(o, ret) <= |ret.data| then ret.data[..Moved(o, ret)]
    else ret.data
  }

  /** Bytes 2 and 3, the total length of a configuration, may differ. */
  predicate SameButTotal(a: seq<byte>, b: seq<byte>) {
    |a| == |b| && (a == b || (|a| >= 4 && a[..2] == b[..2] && a[4..] == b[4..]))
  }

  /**
   * Status and length are the server's, and so are the bytes, except that UAS is hidden from
   * configurations; a request that got no reply is told why, and moved nothing.
   */
  predicate Truthful(o: Origin, answer: TransferResult, act: Act)
    requires act.Done?
  {
    match answer
    case Err(e) => ErrorSays(e, act.status) && act.data == [] && act.length == 0
    case Ok(ret) =>
      && StatusSays(if ByPacket(o, ret) then ret.isoPackets[0].status else ret.status, act.status)
      && if !AsksConfiguration(o) then act.data == Brought(o, ret) && act.length == Moved(o, ret)
         else
           && (act.length == if |act.data| < Moved(o, ret) then |act.data| else Moved(o, ret))
           && match HideUas.Hide(Brought(o, ret))
              case Some(f) => act.data == f.bytes
              case None => SameButTotal(act.data, Brought(o, ret))
  }

  lemma OutcomeSays(o: Origin, answer: TransferResult)
    ensures var out := OutcomeOf(o.stage, o.request.direction, o.request.length, answer);
            match answer
            case Err(e) => ErrorSays(e, out.status) && out.data == [] && out.length == 0
            case Ok(ret) =>
              && StatusSays(if ByPacket(o, ret) then ret.isoPackets[0].status else ret.status,
                            out.status)
              && out.data == Brought(o, ret) && out.length == Moved(o, ret)
  {
  }

  lemma RewritingSays(data: seq<byte>, hidden: Option<(nat, nat)>)
    ensures var r := Rewritten(data, hidden).0;
            match HideUas.Hide(data)
            case Some(f) => r == f.bytes
            case None => SameButTotal(r, data)
  {
    hide HideUas.Hide;
  }

  lemma NothingToHide(hidden: Option<(nat, nat)>)
    ensures Rewritten([], hidden).0 == []
  {
  }

  lemma ExplainedIsTruthful(key: Key, x: Scope, a: nat)
    requires a < |x.ep.ring.acts| && Explained(key, x, a) && ReportsUrb(x.ep.ring.acts[a])
    ensures var act := x.ep.ring.acts[a];
            var t := act.source.value;
            && t < |x.origins| && Urb(t) in x.session.replies
            && Truthful(x.origins[t], x.session.replies[Urb(t)], act)
  {
    hide OutcomeOf, Rewritten, HideUas.Hide, StatusSays, Memory;
    var act := x.ep.ring.acts[a];
    var t := act.source.value;
    var o, answer := x.origins[t], x.session.replies[Urb(t)];
    OutcomeSays(o, answer);
    if ReadsConfig(o) {
      var data := AnswerData(x, t);
      var hidden: Option<(nat, nat)> :|
        Memory(key, x, hidden, a, t) && act.data == Rewritten(data, hidden).0;
      RewritingSays(data, hidden);
      NothingToHide(hidden);
    }
  }

  /** In every run, each completion by a URB tells the host what the server answered. */
  lemma CompletionsAreTruthful(speed: Speed, devid: u32, es: seq<Action>, key: Key, a: nat)
    requires AllAllowed(Start(speed, devid), es)
    requires var w := Performed(Start(speed, devid), es);
             && key in w.endpoints && a < |w.endpoints[key].ring.acts|
             && ReportsUrb(w.endpoints[key].ring.acts[a])
    ensures var w := Performed(Start(speed, devid), es);
            var act := w.endpoints[key].ring.acts[a];
            var t := act.source.value;
            && t < |w.origins| && Urb(t) in w.session.replies
            && Truthful(w.origins[t], w.session.replies[Urb(t)], act)
  {
    hide Truthful, Performed, AllAllowed, Explained;
    CompletionsStayInBounds(speed, devid, es, key);
    ExplainedIsTruthful(key, ScopeAt(Performed(Start(speed, devid), es), key), a);
  }
}
