/** Delta-compressed publications deliver the same data as uncompressed ones. */
module DeltaChain {
  import opened Prelude
  import opened Lines
  import opened Protocol
  import opened Subscriptions
  import opened ActorState
  import opened SubHistory
  import Codes
  import DeltaFormat
  import DeltaTheorems

  /** `p` carries `payload`, in full or as a delta from `prev`; with no `prev` known only in full. */
  predicate Carries(p: Publication, prev: Option<Bytes>, payload: Bytes, protocol: ProtocolType) {
    var raw := RawData(p, protocol);
    if p.delta then prev.Some? && DeltaFormat.Apply(prev.value, raw) == Ok(payload) else raw == payload
  }

  function PayloadBefore(prev: Option<Bytes>, payloads: seq<Bytes>, k: nat): Option<Bytes>
    requires k <= |payloads|
  {
    if k == 0 then prev else Some(payloads[k - 1])
  }

  /** Publication by publication, `ps` carries `payloads`, each possibly as a delta from its predecessor. */
  predicate Chain(prev: Option<Bytes>, ps: seq<Publication>, payloads: seq<Bytes>, protocol: ProtocolType) {
    && |ps| == |payloads|
    && forall k :: 0 <= k < |ps| ==> Carries(ps[k], PayloadBefore(prev, payloads, k), payloads[k], protocol)
  }

  /** The publications a history brings, recovered and live alike. */
  function Brought(hs: seq<Happening>): seq<Publication>
    decreases |hs|
  {
    if hs == [] then [] else Brought(hs[..|hs| - 1]) + PublicationsOf(hs[|hs| - 1])
  }

  function PublicationsOf(h: Happening): seq<Publication> {
    match h
    case Live(p) => [p]
    case Confirmed(r) => r.publications
  }

  /** Deltas stay negotiated: every accepted result says so, and one precedes the first live publication. */
  predicate Negotiated(on: bool, hs: seq<Happening>) {
    && (forall k :: 0 <= k < |hs| && hs[k].Confirmed? ==> hs[k].result.delta)
    && (on || hs == [] || hs[0].Confirmed?)
  }

  /** `prev` is either unknown or the delta base of `sub`. */
  predicate Base(prev: Option<Bytes>, sub: SubState) { prev.Some? ==> prev.value == sub.prevData }

  /** What plain delivery of `payloads` would have handed to the receiver. */
  function Plain(ps: seq<Publication>, payloads: seq<Bytes>): (ds: seq<Delivery>)
    requires |ps| == |payloads|
    ensures |ds| == |ps|
  {
    seq(|ps|, k requires 0 <= k < |ps| => Delivery(ps[k].offset, payloads[k]))
  }

  /** The subscription has delivered `payloads` on top of what `sub` had, and its delta base is the last payload. */
  ghost predicate Delivered(sub: SubState, t: SubState, prev: Option<Bytes>, ps: seq<Publication>, payloads: seq<Bytes>)
    requires |ps| == |payloads|
  {
    && Deliveries(t.log) == Deliveries(sub.log) + Plain(ps, payloads)
    && Base(PayloadBefore(prev, payloads, |payloads|), t)
    && t.deltaNegotiated == sub.deltaNegotiated
  }

  lemma ReceiveCarried(sub: SubState, p: Publication, prev: Option<Bytes>, payload: Bytes, protocol: ProtocolType)
    requires sub.deltaNegotiated && Base(prev, sub) && Carries(p, prev, payload, protocol)
    ensures var t := Receive(sub, p, protocol);
      && Deliveries(t.log) == Deliveries(sub.log) + [Delivery(p.offset, payload)]
      && t.prevData == payload && t.deltaNegotiated
  {}

  lemma {:induction false} ReceiveChain(
      sub: SubState, ps: seq<Publication>, prev: Option<Bytes>, payloads: seq<Bytes>, protocol: ProtocolType)
    requires sub.deltaNegotiated && Base(prev, sub) && Chain(prev, ps, payloads, protocol)
    ensures Delivered(sub, ReceiveAll(sub, ps, protocol), prev, ps, payloads)
    decreases |ps|
  {
    hide Receive, Carries, Plain, Deliveries;
    PlainNothing();
    if ps == [] {
      assert Deliveries(sub.log) + Plain(ps, payloads) == Deliveries(sub.log);
    } else {
      var n := |ps| - 1;
      forall k | 0 <= k < n
        ensures Carries(ps[..n][k], PayloadBefore(prev, payloads[..n], k), payloads[..n][k], protocol)
      {
        assert PayloadBefore(prev, payloads[..n], k) == PayloadBefore(prev, payloads, k);
      }
      ReceiveChain(sub, ps[..n], prev, payloads[..n], protocol);
      assert PayloadBefore(prev, payloads[..n], n) == PayloadBefore(prev, payloads, n);
      ReceiveCarried(ReceiveAll(sub, ps[..n], protocol), ps[n], PayloadBefore(prev, payloads, n), payloads[n],
          protocol);
      PlainLast(ps, payloads, n);
    }
  }

  lemma PlainNothing()
    ensures Plain([], []) == []
  {}

  lemma PlainLast(ps: seq<Publication>, payloads: seq<Bytes>, n: nat)
    requires |ps| == |payloads| == n + 1
    ensures Plain(ps, payloads) == Plain(ps[..n], payloads[..n]) + [Delivery(ps[n].offset, payloads[n])]
  {}

  lemma ChainSplit(
      prev: Option<Bytes>, ps: seq<Publication>, more: seq<Publication>, payloads: seq<Bytes>, protocol: ProtocolType)
    requires Chain(prev, ps + more, payloads, protocol)
    ensures |ps| <= |payloads|
    ensures Chain(prev, ps, payloads[..|ps|], protocol)
    ensures Chain(PayloadBefore(prev, payloads[..|ps|], |ps|), more, payloads[|ps|..], protocol)
    ensures PayloadBefore(prev, payloads, |payloads|)
         == PayloadBefore(PayloadBefore(prev, payloads[..|ps|], |ps|), payloads[|ps|..], |more|)
  {
    hide Carries;
    var n := |ps|;
    var all := ps + more;
    forall k | 0 <= k < n
      ensures Carries(ps[k], PayloadBefore(prev, payloads[..n], k), payloads[..n][k], protocol)
    {
      assert all[k] == ps[k];
      assert Carries(all[k], PayloadBefore(prev, payloads, k), payloads[k], protocol);
    }
    forall k | 0 <= k < |more|
      ensures Carries(more[k], PayloadBefore(PayloadBefore(prev, payloads[..n], n), payloads[n..], k), payloads[n..][k],
          protocol)
    {
      assert all[n + k] == more[k];
      assert Carries(all[n + k], PayloadBefore(prev, payloads, n + k), payloads[n + k], protocol);
    }
  }

  /**
   Over any history during which deltas stay negotiated, delivery is plain delivery of the
   payloads, whether they came in full or as deltas, recovered or live.
   */
  lemma {:induction false} HistoryDelivers(
      sub: SubState, hs: seq<Happening>, prev: Option<Bytes>, payloads: seq<Bytes>, protocol: ProtocolType)
    requires Negotiated(sub.deltaNegotiated, hs) && Base(prev, sub)
    requires Chain(prev, Brought(hs), payloads, protocol)
    ensures var t := History(sub, hs, protocol);
      && Deliveries(t.log) == Deliveries(sub.log) + Plain(Brought(hs), payloads)
      && Base(PayloadBefore(prev, payloads, |payloads|), t)
      && t.deltaNegotiated == (sub.deltaNegotiated || hs != [])
    decreases |hs|
  {
    hide Carries, Undergo, Chain, Base, PublicationsOf;
    if hs == [] {
      assert Chain(prev, [], payloads, protocol) && payloads == [] by { ChainLength(prev, [], payloads, protocol); }
      assert Deliveries(sub.log) + Plain([], payloads) == Deliveries(sub.log);
    } else {
      var n := |hs| - 1;
      var ps, more := Brought(hs[..n]), PublicationsOf(hs[n]);
      ChainSplit(prev, ps, more, payloads, protocol);
      var early, late := payloads[..|ps|], payloads[|ps|..];
      HistoryDelivers(sub, hs[..n], prev, early, protocol);
      ChainLength(PayloadBefore(prev, early, |early|), more, late, protocol);
      UndergoDelivers(History(sub, hs[..n], protocol), hs[n], PayloadBefore(prev, early, |early|), late, protocol);
      PlainSplit(ps, more, payloads);
      hide Plain, Deliveries, Brought;
      assert Deliveries(sub.log) + Plain(ps, early) + Plain(more, late)
          == Deliveries(sub.log) + (Plain(ps, early) + Plain(more, late));
    }
  }

  lemma PlainSplit(ps: seq<Publication>, more: seq<Publication>, payloads: seq<Bytes>)
    requires |payloads| == |ps| + |more|
    ensures Plain(ps + more, payloads) == Plain(ps, payloads[..|ps|]) + Plain(more, payloads[|ps|..])
  {}

  lemma UndergoDelivers(sub: SubState, h: Happening, prev: Option<Bytes>, payloads: seq<Bytes>, protocol: ProtocolType)
    requires h.Live? ==> sub.deltaNegotiated
    requires h.Confirmed? ==> h.result.delta
    requires Base(prev, sub) && Chain(prev, PublicationsOf(h), payloads, protocol)
    ensures var t := Undergo(sub, h, protocol);
      && Deliveries(t.log) == Deliveries(sub.log) + Plain(PublicationsOf(h), payloads)
      && Base(PayloadBefore(prev, payloads, |payloads|), t) && t.deltaNegotiated
  {
    hide Carries;
    match h {
      case Live(p) => ReceiveCarried(sub, p, prev, payloads[0], protocol);
      case Confirmed(r) =>
        ConfirmLog(sub, r);
        ReceiveChain(Confirm(sub, r), r.publications, prev, payloads, protocol);
    }
  }

  /** The same over whole runs of the actor: however the frames are cut and whatever else goes on. */
  lemma RunDelivers(s: State, inputs: seq<Input>, c: Channel, payloads: seq<Bytes>)
    requires c in s.subs && Spares(inputs, c)
    requires var hs := RunBrings(s, inputs, c);
      Negotiated(s.subs[c].deltaNegotiated, hs) && Chain(None, Brought(hs), payloads, s.config.protocol)
    ensures var t := Run(s, inputs);
      && c in t.subs
      && Deliveries(t.subs[c].log) == Deliveries(s.subs[c].log) + Plain(Brought(RunBrings(s, inputs, c)), payloads)
      && (payloads != [] ==> t.subs[c].prevData == payloads[|payloads| - 1])
  {
    hide History, Run, RunBrings, Chain, Spares;
    var hs := RunBrings(s, inputs, c);
    assert |Brought(hs)| == |payloads| by { ChainLength(None, Brought(hs), payloads, s.config.protocol); }
    RunLived(s, inputs, c);
    HistoryDelivers(s.subs[c], hs, None, payloads, s.config.protocol);
  }

  lemma ChainLength(prev: Option<Bytes>, ps: seq<Publication>, payloads: seq<Bytes>, protocol: ProtocolType)
    requires Chain(prev, ps, payloads, protocol)
    ensures |ps| == |payloads|
  {}

  // ---------- at the edges ----------

  /** A delta that does not apply is delivered as it came and leaves the delta base alone. */
  lemma FailingDelta(sub: SubState, p: Publication, protocol: ProtocolType)
    requires sub.deltaNegotiated && p.delta && DeltaFormat.Apply(sub.prevData, RawData(p, protocol)).Err?
    ensures var t := Receive(sub, p, protocol);
      t.prevData == sub.prevData && Deliveries(t.log) == Deliveries(sub.log) + [Delivery(p.offset,
          RawData(p, protocol))]
  {}

  /**
   One publication is taken for `payload` exactly when it carries it, or when a delta fails on bytes
   that are already the base.
   */
  lemma DeliveredExactly(sub: SubState, p: Publication, payload: Bytes, protocol: ProtocolType)
    requires sub.deltaNegotiated
    ensures var t := Receive(sub, p, protocol);
      (Deliveries(t.log) == Deliveries(sub.log) + [Delivery(p.offset, payload)] && t.prevData == payload)
      <==>
      (Carries(p, Some(sub.prevData), payload, protocol)
        || (p.delta && DeltaFormat.Apply(sub.prevData, RawData(p, protocol)).Err?
            && RawData(p, protocol) == payload == sub.prevData))
  {
    hide DeltaFormat.Apply, Deliveries;
    var sub1 := if p.offset > 0 then sub.(offset := p.offset) else sub;
    var data := ApplyDelta(sub1, p, protocol).1;
    DeliveriesEmit(sub.log, PublicationEvent(p.offset, data));
    var ds := Deliveries(sub.log);
    assert (ds + [Delivery(p.offset, data)])[|ds|] == Delivery(p.offset, data);
    assert (ds + [Delivery(p.offset, payload)])[|ds|] == Delivery(p.offset, payload);
  }

  /**
   The delta flag is that of the last accepted result; one that answers "already subscribed" without a
   result clears it.
   */
  lemma AlreadySubscribedForgetsDelta(sub: SubState, r: Reply, protocol: ProtocolType)
    requires AcceptedResult(r).Some?
    ensures Succeed(sub, AcceptedResult(r).value, protocol).deltaNegotiated == AcceptedResult(r).value.delta
    ensures r.error.Some? && r.subscribe.None? ==> !Succeed(sub, AcceptedResult(r).value, protocol).deltaNegotiated
  {
    ReceiveAllKeeps(Confirm(sub, AcceptedResult(r).value), AcceptedResult(r).value.publications, protocol);
  }

  // ---------- deltas forgotten ----------

  /** "Already subscribed", without a result. */
  function Already(id: nat): Reply {
    Reply(id, Some(ServerError(Codes.ALREADY_SUBSCRIBED, false)), None, None, None, None, None)
  }

  /** No accepted result negotiates deltas. */
  predicate Uncompressed(hs: seq<Happening>) {
    forall k :: 0 <= k < |hs| && hs[k].Confirmed? ==> !hs[k].result.delta
  }

  function AsSent(ps: seq<Publication>): (datas: seq<Bytes>)
    ensures |datas| == |ps|
  {
    seq(|ps|, k requires 0 <= k < |ps| => ps[k].data)
  }

  lemma {:induction false} ReceiveAsSent(sub: SubState, ps: seq<Publication>, protocol: ProtocolType)
    requires !sub.deltaNegotiated
    ensures var t := ReceiveAll(sub, ps, protocol);
      !t.deltaNegotiated && Deliveries(t.log) == Deliveries(sub.log) + Plain(ps, AsSent(ps))
    decreases |ps|
  {
    hide Receive, Deliveries;
    if ps == [] {
      assert Deliveries(sub.log) + Plain(ps, AsSent(ps)) == Deliveries(sub.log);
    } else {
      var n := |ps| - 1;
      ReceiveAsSent(sub, ps[..n], protocol);
      OneAsSent(ReceiveAll(sub, ps[..n], protocol), ps[n], protocol);
      assert AsSent(ps)[..n] == AsSent(ps[..n]);
      PlainLast(ps, AsSent(ps), n);
    }
  }

  lemma OneAsSent(sub: SubState, p: Publication, protocol: ProtocolType)
    requires !sub.deltaNegotiated
    ensures var t := Receive(sub, p, protocol);
      !t.deltaNegotiated && Deliveries(t.log) == Deliveries(sub.log) + [Delivery(p.offset, p.data)]
  {}

  /** With deltas off every publication is delivered as it was sent. */
  lemma {:induction false} HistoryAsSent(sub: SubState, hs: seq<Happening>, protocol: ProtocolType)
    requires !sub.deltaNegotiated && Uncompressed(hs)
    ensures var t := History(sub, hs, protocol);
      !t.deltaNegotiated && Deliveries(t.log) == Deliveries(sub.log) + Plain(Brought(hs), AsSent(Brought(hs)))
    decreases |hs|
  {
    hide Undergo, Deliveries, Plain, AsSent;
    PlainNothing();
    if hs == [] {
      assert AsSent([]) == [] && Deliveries(sub.log) + [] == Deliveries(sub.log);
    } else {
      var n := |hs| - 1;
      var ps, more := Brought(hs[..n]), PublicationsOf(hs[n]);
      HistoryAsSent(sub, hs[..n], protocol);
      UndergoAsSent(History(sub, hs[..n], protocol), hs[n], protocol);
      AsSentSplit(ps, more);
      PlainSplit(ps, more, AsSent(ps + more));
      assert Deliveries(sub.log) + Plain(ps, AsSent(ps)) + Plain(more, AsSent(more))
          == Deliveries(sub.log) + (Plain(ps, AsSent(ps)) + Plain(more, AsSent(more)));
    }
  }

  lemma AsSentSplit(ps: seq<Publication>, more: seq<Publication>)
    ensures AsSent(ps + more)[..|ps|] == AsSent(ps) && AsSent(ps + more)[|ps|..] == AsSent(more)
  {}

  lemma UndergoAsSent(sub: SubState, h: Happening, protocol: ProtocolType)
    requires !sub.deltaNegotiated && (h.Confirmed? ==> !h.result.delta)
    ensures var t := Undergo(sub, h, protocol);
      !t.deltaNegotiated && Deliveries(t.log) == Deliveries(sub.log) + Plain(PublicationsOf(h),
          AsSent(PublicationsOf(h)))
  {
    hide Receive, Deliveries;
    match h {
      case Live(p) => OneAsSent(sub, p, protocol);
      case Confirmed(r) =>
        ConfirmLog(sub, r);
        ReceiveAsSent(Confirm(sub, r), r.publications, protocol);
    }
  }

  lemma PlainAlike(ps: seq<Publication>, a: seq<Bytes>, b: seq<Bytes>)
    requires |ps| == |a| == |b|
    ensures Plain(ps, a) == Plain(ps, b) <==> a == b
  {
    if Plain(ps, a) == Plain(ps, b) {
      forall k | 0 <= k < |ps|
        ensures a[k] == b[k]
      {
        assert Plain(ps, a)[k] == Plain(ps, b)[k];
      }
    }
  }

  lemma SamePrefix<T>(a: seq<T>, b: seq<T>, c: seq<T>)
    ensures a + b == a + c <==> b == c
  {
    if a + b == a + c { assert b == (a + b)[|a|..] == (a + c)[|a|..] == c; }
  }

  /**
   After an "already subscribed" without a result, and until a result negotiates deltas again,
   what is delivered are the payloads if and only if every publication is sent uncompressed, byte
   for byte; a server that goes on sending deltas has them delivered raw.
   */
  lemma AlreadySubscribedExactly(
      sub: SubState, r: Reply, hs: seq<Happening>, payloads: seq<Bytes>, protocol: ProtocolType)
    requires AcceptedResult(r) == Some(EMPTY_RESULT) && Uncompressed(hs) && |payloads| == |Brought(hs)|
    ensures var t := History(sub, [Confirmed(AcceptedResult(r).value)] + hs, protocol);
      Deliveries(t.log) == Deliveries(sub.log) + Plain(Brought(hs), payloads)
      <==> forall k :: 0 <= k < |payloads| ==> Brought(hs)[k].data == payloads[k]
  {
    hide Undergo, Deliveries, Plain, History;
    var sub1 := Undergo(sub, Confirmed(EMPTY_RESULT), protocol);
    var ps := Brought(hs);
    HistoryConcat(sub, [Confirmed(EMPTY_RESULT)], hs, protocol);
    HistoryOne(sub, Confirmed(EMPTY_RESULT), protocol);
    EmptyForgets(sub, protocol);
    HistoryAsSent(sub1, hs, protocol);
    SamePrefix(Deliveries(sub.log), Plain(ps, AsSent(ps)), Plain(ps, payloads));
    PlainAlike(ps, AsSent(ps), payloads);
    assert AsSent(ps) == payloads <==> forall k :: 0 <= k < |payloads| ==> ps[k].data == payloads[k];
  }

  lemma HistoryOne(sub: SubState, h: Happening, protocol: ProtocolType)
    ensures History(sub, [h], protocol) == Undergo(sub, h, protocol)
  {
    assert [h][..0] == [];
    assert History(sub, [h][..0], protocol) == sub;
  }

  lemma EmptyForgets(sub: SubState, protocol: ProtocolType)
    ensures var t := Undergo(sub, Confirmed(EMPTY_RESULT), protocol);
      !t.deltaNegotiated && Deliveries(t.log) == Deliveries(sub.log)
  {
    ConfirmLog(sub, EMPTY_RESULT);
    AlreadySubscribedForgetsDelta(sub, Already(1), protocol);
    assert ReceiveAll(Confirm(sub, EMPTY_RESULT), [], protocol) == Confirm(sub, EMPTY_RESULT);
  }

  /** The same over whole runs: from the "already subscribed" on, while no accepted result negotiates deltas. */
  lemma RunForgets(s: State, inputs: seq<Input>, c: Channel, hs: seq<Happening>, payloads: seq<Bytes>)
    requires c in s.subs && Spares(inputs, c)
    requires RunBrings(s, inputs, c) == [Confirmed(EMPTY_RESULT)] + hs && Uncompressed(hs)
        && |payloads| == |Brought(hs)|
    ensures var t := Run(s, inputs);
      && c in t.subs
      && (Deliveries(t.subs[c].log) == Deliveries(s.subs[c].log) + Plain(Brought(hs), payloads)
          <==> forall k :: 0 <= k < |payloads| ==> Brought(hs)[k].data == payloads[k])
  {
    hide History, Run, RunBrings, Spares, Plain, Brought, Deliveries;
    RunLived(s, inputs, c);
    AlreadySubscribedExactly(s.subs[c], Already(1), hs, payloads, s.config.protocol);
  }

  /**
   A frame that delivers a wrong payload: an "already subscribed" without a result, and a delta
   that is valid for what the subscription last received. The delta is handed over as it came.
   */
  lemma DeltaDeliveredRaw(s: State, ch: Channel, reply: Reply, p: Publication, payload: Bytes, fates: seq<Fate>)
    requires ch in s.subs && s.subs[ch].deltaNegotiated && |fates| == 2
    requires reply.id in s.calls.pending && reply.id != 0 && s.calls.pending[reply.id].AwaitSubscribe?
        && s.calls.pending[reply.id].channel == ch
    requires AcceptedResult(reply) == Some(EMPTY_RESULT)
    requires Carries(p, Some(s.subs[ch].prevData), payload, s.config.protocol) && p.data != payload
    ensures var t := DispatchAll(s, [Arrival(reply, fates[0]),
        Arrival(Reply(0, None, Some(Push(ch, PublicationPush(p))), None, None, None, None), fates[1])]);
      && ch in t.subs && Deliveries(t.subs[ch].log) == Deliveries(s.subs[ch].log) + [Delivery(p.offset, p.data)]
      && Deliveries(t.subs[ch].log) != Deliveries(s.subs[ch].log) + [Delivery(p.offset, payload)]
  {
    hide DispatchReply, Deliveries, Undergo, Carries;
    var push := Reply(0, None, Some(Push(ch, PublicationPush(p))), None, None, None, None);
    var frame := [Arrival(reply, fates[0]), Arrival(push, fates[1])];
    assert frame[..1] == [frame[0]] && frame[..1][..0] == [];
    assert DispatchAll(s, frame[..1][..0]) == s;
    var s1 := DispatchAll(s, frame[..1]);
    assert s1 == DispatchReply(s, frame[0]);
    ReplyLived(s, frame[0], ch);
    HistoryUpToOne(s, ch);
    EmptyForgets(s.subs[ch], s.config.protocol);
    ReplyLived(s1, frame[1], ch);
    HistoryUpToOne(s1, ch);
    LiveAsSent(s1.subs[ch], p, s.config.protocol);
    var ds := Deliveries(s.subs[ch].log);
    assert (ds + [Delivery(p.offset, p.data)])[|ds|] != (ds + [Delivery(p.offset, payload)])[|ds|];
  }

  lemma LiveAsSent(sub: SubState, p: Publication, protocol: ProtocolType)
    requires !sub.deltaNegotiated
    ensures Deliveries(Undergo(sub, Live(p), protocol).log) == Deliveries(sub.log) + [Delivery(p.offset, p.data)]
  {
    OneAsSent(sub, p, protocol);
  }

  // ---------- a server that prints its deltas ----------

  /** A delta printed for any edit script from one payload to the next carries the next. */
  lemma PrintedDeltaCarries(prev: Bytes, script: seq<DeltaFormat.Edit>, offset: nat, jsonText: Option<Bytes>)
    requires DeltaTheorems.AllEncodable(script) && DeltaFormat.AllInSource(prev, script)
    requires |DeltaFormat.Target(prev, script)| < TWO_32
    ensures var printed := DeltaFormat.Show(DeltaTheorems.Print(prev, script));
      && Carries(Publication(offset, printed, jsonText, true), Some(prev), DeltaFormat.Target(prev, script), Protobuf)
      && Carries(Publication(offset, [], Some(printed), true), Some(prev), DeltaFormat.Target(prev, script), Json)
  {
    DeltaTheorems.RoundTrip(prev, script);
  }

  /** For every base there is such a delta: one that carries the empty payload, which is not empty itself. */
  lemma SomeDeltaIsLost(prev: Bytes, offset: nat)
    ensures var p := Publication(offset, DeltaFormat.Show(DeltaTheorems.Print(prev, [])), None, true);
      Carries(p, Some(prev), [], Protobuf) && p.data != []
  {
    PrintedDeltaCarries(prev, [], offset, None);
  }
}
