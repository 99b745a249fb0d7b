/**
 What happens to one subscription over a run: of everything the actor does, only a publication
 and an accepted subscribe result touch its position, its delta base and what it delivers.
 */
module SubHistory {
  import opened Prelude
  import Codes
  import opened Lines
  import opened Protocol
  import opened Subscriptions
  import opened ActorState
  import DeltaFormat

  datatype Delivery = Delivery(offset: nat, data: Bytes)

  /** The publications handed to the receiver of the subscription. */
  function Deliveries(log: seq<SubEvent>): seq<Delivery>
    decreases |log|
  {
    if log == [] then []
    else
      var earlier := Deliveries(log[..|log| - 1]);
      var e := log[|log| - 1];
      if e.PublicationEvent? then earlier + [Delivery(e.offset, e.data)] else earlier
  }

  /** Equal up to lifecycle, configuration and events other than publications. */
  predicate Alike(a: SubState, b: SubState) {
    && a.offset == b.offset && a.epoch == b.epoch && a.recover == b.recover
    && a.deltaNegotiated == b.deltaNegotiated && a.prevData == b.prevData
    && Deliveries(a.log) == Deliveries(b.log)
  }

  datatype Happening = Live(publication: Publication) | Confirmed(result: SubscribeResult)

  function Undergo(sub: SubState, h: Happening, protocol: ProtocolType): SubState {
    match h
    case Live(p) => Receive(sub, p, protocol)
    case Confirmed(r) => Succeed(sub, r, protocol)
  }

  function History(sub: SubState, hs: seq<Happening>, protocol: ProtocolType): SubState
    decreases |hs|
  {
    if hs == [] then sub else Undergo(History(sub, hs[..|hs| - 1], protocol), hs[|hs| - 1], protocol)
  }

  // ---------- histories respect likeness ----------

  lemma DeliveriesEmit(log: seq<SubEvent>, e: SubEvent)
    ensures Deliveries(log + [e]) == Deliveries(log) + (if e.PublicationEvent? then [Delivery(e.offset,
        e.data)] else [])
  {}

  lemma EmitAlike(sub: SubState, e: SubEvent)
    requires !e.PublicationEvent?
    ensures Alike(Emit(sub, e), sub)
  {}

  lemma ReceiveAlike(a: SubState, b: SubState, p: Publication, protocol: ProtocolType)
    requires Alike(a, b)
    ensures Alike(Receive(a, p, protocol), Receive(b, p, protocol))
  {
    hide DeltaFormat.Apply, Deliveries;
    var a1 := if p.offset > 0 then a.(offset := p.offset) else a;
    var b1 := if p.offset > 0 then b.(offset := p.offset) else b;
    DeliveriesEmit(a.log, PublicationEvent(p.offset, ApplyDelta(a1, p, protocol).1));
    DeliveriesEmit(b.log, PublicationEvent(p.offset, ApplyDelta(b1, p, protocol).1));
  }

  lemma {:induction false} ReceiveAllAlike(a: SubState, b: SubState, ps: seq<Publication>, protocol: ProtocolType)
    requires Alike(a, b)
    ensures Alike(ReceiveAll(a, ps, protocol), ReceiveAll(b, ps, protocol))
    decreases |ps|
  {
    hide Receive, Alike;
    if ps != [] {
      var n := |ps| - 1;
      ReceiveAllAlike(a, b, ps[..n], protocol);
      ReceiveAlike(ReceiveAll(a, ps[..n], protocol), ReceiveAll(b, ps[..n], protocol), ps[n], protocol);
    }
  }

  lemma UndergoAlike(a: SubState, b: SubState, h: Happening, protocol: ProtocolType)
    requires Alike(a, b)
    ensures Alike(Undergo(a, h, protocol), Undergo(b, h, protocol))
  {
    hide Receive, ReceiveAll, Deliveries;
    match h {
      case Live(p) => ReceiveAlike(a, b, p, protocol);
      case Confirmed(r) =>
        ConfirmLog(a, r);
        ConfirmLog(b, r);
        ReceiveAllAlike(Confirm(a, r), Confirm(b, r), r.publications, protocol);
    }
  }

  lemma ConfirmLog(sub: SubState, r: SubscribeResult)
    ensures Deliveries(Confirm(sub, r).log) == Deliveries(sub.log)
  {}

  lemma {:induction false} HistoryAlike(a: SubState, b: SubState, hs: seq<Happening>, protocol: ProtocolType)
    requires Alike(a, b)
    ensures Alike(History(a, hs, protocol), History(b, hs, protocol))
    decreases |hs|
  {
    hide Undergo, Alike;
    if hs != [] {
      var n := |hs| - 1;
      HistoryAlike(a, b, hs[..n], protocol);
      UndergoAlike(History(a, hs[..n], protocol), History(b, hs[..n], protocol), hs[n], protocol);
    }
  }

  lemma {:induction false} HistoryConcat(
      sub: SubState, hs: seq<Happening>, more: seq<Happening>, protocol: ProtocolType)
    ensures History(sub, hs + more, protocol) == History(History(sub, hs, protocol), more, protocol)
    decreases |more|
  {
    hide Undergo;
    if more == [] {
      assert hs + more == hs;
    } else {
      var n := |more| - 1;
      HistoryConcat(sub, hs, more[..n], protocol);
      assert (hs + more)[..|hs| + n] == hs + more[..n];
    }
  }

  // ---------- what a step brings to a subscription ----------

  /** The subscribe result that a reply to a subscribe request amounts to. */
  function AcceptedResult(r: Reply): Option<SubscribeResult> {
    if r.error.None? then r.subscribe
    else if r.error.value.code == Codes.ALREADY_SUBSCRIBED then
      Some(if r.subscribe.Some? then r.subscribe.value else EMPTY_RESULT)
    else None
  }

  function Confirmations(o: Option<SubscribeResult>): seq<Happening> {
    if o.Some? then [Confirmed(o.value)] else []
  }

  function ReplyBrings(s: State, r: Reply, ch: Channel): seq<Happening> {
    if r.id == 0 then
      if r.push.Some? && r.push.value.channel == ch && r.push.value.body.PublicationPush?
      then [Live(r.push.value.body.publication)] else []
    else if r.id in s.calls.pending && s.calls.pending[r.id].AwaitSubscribe? && s.calls.pending[r.id].channel == ch
    then Confirmations(AcceptedResult(r)) else []
  }

  function FrameBrings(s: State, arrivals: seq<Arrival>, ch: Channel): seq<Happening>
    decreases |arrivals|
  {
    if arrivals == [] then []
    else
      var n := |arrivals| - 1;
      FrameBrings(s, arrivals[..n], ch) + ReplyBrings(DispatchAll(s, arrivals[..n]), arrivals[n].reply, ch)
  }

  function ConnectBrings(r: Reply, ch: Channel): seq<Happening> {
    match HandshakeResult(r)
    case Ok(result) => if ch in result.subs then [Confirmed(result.subs[ch])] else []
    case Err(_) => []
  }

  function HandshakeBrings(s: State, id: nat, arrivals: seq<Arrival>, ch: Channel): seq<Happening> {
    var n := Before(arrivals, id);
    FrameBrings(s, arrivals[..n], ch) + if n < |arrivals| then ConnectBrings(arrivals[n].reply, ch) else []
  }

  ghost function Brings(s: State, i: Input, ch: Channel): seq<Happening> {
    if !Enabled(s, i) then []
    else match i
      case Data(arrivals) => FrameBrings(s, arrivals, ch)
      case Shake(arrivals, _) => HandshakeBrings(s, s.link.handshake.value, arrivals, ch)
      case _ => []
  }

  ghost function RunBrings(s: State, inputs: seq<Input>, ch: Channel): seq<Happening>
    decreases |inputs|
  {
    if inputs == [] then []
    else
      var n := |inputs| - 1;
      RunBrings(s, inputs[..n], ch) + Brings(Run(s, inputs[..n]), inputs[n], ch)
  }

  /** The subscription of `ch` is still there and has lived through `hs` and nothing else. */
  ghost predicate Lived(s: State, t: State, ch: Channel, hs: seq<Happening>) {
    && t.config.protocol == s.config.protocol
    && (ch in s.subs ==> ch in t.subs && Alike(t.subs[ch], History(s.subs[ch], hs, s.config.protocol)))
  }

  lemma LivedThen(s: State, t: State, u: State, ch: Channel, hs: seq<Happening>, more: seq<Happening>)
    requires Lived(s, t, ch, hs) && Lived(t, u, ch, more)
    ensures Lived(s, u, ch, hs + more)
  {
    hide History, Alike;
    if ch in s.subs {
      HistoryConcat(s.subs[ch], hs, more, s.config.protocol);
      HistoryAlike(t.subs[ch], History(s.subs[ch], hs, s.config.protocol), more, s.config.protocol);
      AlikeTrans(u.subs[ch], History(t.subs[ch], more, s.config.protocol),
                 History(History(s.subs[ch], hs, s.config.protocol), more, s.config.protocol));
    }
  }

  lemma AlikeTrans(a: SubState, b: SubState, c: SubState)
    requires Alike(a, b) && Alike(b, c)
    ensures Alike(a, c)
  {}

  // ---------- handlers that bring nothing ----------

  ghost predicate Unmoved(s: State, t: State, ch: Channel) { Lived(s, t, ch, []) }

  lemma LeaveAlike(sub: SubState, code: nat)
    ensures Alike(Leave(sub, code), sub) && Alike(BackToSubscribing(sub, code), sub)
  {}

  lemma CloseUnmoved(s: State, code: nat, reconnect: bool, ch: Channel)
    ensures Unmoved(s, OnTransportClose(s, code, reconnect), ch)
    ensures Unmoved(s, MoveToDisconnected(s, code), ch)
    ensures Unmoved(s, MoveToClosed(s), ch)
  {
    hide Tell, Note, WaitersIn, CallersIn, Deliveries;
    if ch in s.subs {
      EmitAlike(s.subs[ch].(state := Unsubscribed, waiters := []), UnsubscribedEvent(Codes.CLIENT_CLOSED));
      LeaveAlike(s.subs[ch].(attempts := 0), Codes.TRANSPORT_CLOSED);
    }
  }

  /** Only the outgoing side, the ids and the answers change in a `Transact`. */
  lemma TransactSubs(s: State, body: Body, req: PendingRequest, fate: Fate)
    ensures var t := Transact(s, body, req, fate);
      t.subs == s.subs && t.config == s.config && t.link == s.link && t.servers == s.servers
          && t.clientLog == s.clientLog
  {}

  lemma SendSubscribeSubs(s: State, ch: Channel, sub: SubState, sender: Option<Handle>, fate: Fate)
    ensures var t := SendSubscribe(s, ch, sub, sender, fate);
      t.subs == s.subs[ch := sub] && t.config == s.config && t.link == s.link
  {}

  /** One subscription is replaced by an alike one. */
  lemma ReplacedUnmoved(s: State, t: State, ch: Channel, sub: SubState, c: Channel)
    requires ch in s.subs && t.config.protocol == s.config.protocol
    requires t.subs == s.subs[ch := sub] && Alike(sub, s.subs[ch])
    ensures Unmoved(s, t, c)
  {}

  lemma SubscribeUnmoved(s: State, ch: Channel, o: Oracle, c: Channel)
    ensures Unmoved(s, DoSubscribe(s, ch, o), c)
    ensures DoSubscribe(s, ch, o).link == s.link
  {
    hide SendSubscribe, Tell, Unmoved, Deliveries;
    var t := DoSubscribe(s, ch, o);
    if ch in s.subs && !s.subs[ch].state.Unsubscribed? {
      var sub := s.subs[ch];
      SendSubscribeSubs(s, ch, RefreshData(sub, o.data), None, o.fate);
      RefreshDataAlike(sub, "", o.data);
      EmitAlike(sub.(attempts := sub.attempts + 1), ErrorEvent);
      LeaveAlike(sub, Codes.UNSUBSCRIBED_UNAUTHORIZED);
      if o.token.Token? {
        SendSubscribeSubs(s, ch, RefreshData(sub.(token := o.token.token), o.data), None, o.fate);
        RefreshDataAlike(sub, o.token.token, o.data);
      }
      ReplacedUnmoved(s, t, ch, t.subs[ch], c);
    } else {
      assert Unmoved(s, s, c) by { SelfUnmoved(s, c); }
    }
  }

  lemma SelfUnmoved(s: State, c: Channel)
    ensures Unmoved(s, s, c)
  {}

  lemma RefreshDataAlike(sub: SubState, token: string, data: Option<Bytes>)
    ensures Alike(RefreshData(sub, data), sub)
    ensures Alike(RefreshData(sub.(token := token), data), sub)
  {}

  lemma UnmovedThen(s: State, t: State, u: State, c: Channel)
    requires Unmoved(s, t, c) && Unmoved(t, u, c)
    ensures Unmoved(s, u, c)
  {}

  lemma {:induction false} ResubscribeUnmoved(s: State, plan: seq<Attempt>, c: Channel)
    ensures Unmoved(s, ResubscribeAll(s, plan), c)
    decreases |plan|
  {
    hide DoSubscribe, Unmoved;
    if plan == [] {
      SelfUnmoved(s, c);
    } else {
      var last := plan[|plan| - 1];
      var t := ResubscribeAll(s, plan[..|plan| - 1]);
      ResubscribeUnmoved(s, plan[..|plan| - 1], c);
      SubscribeUnmoved(t, last.channel, last.oracle, c);
      UnmovedThen(s, t, ResubscribeAll(s, plan), c);
    }
  }

  lemma {:induction false} ResubscribeLink(s: State, plan: seq<Attempt>)
    ensures ResubscribeAll(s, plan).link == s.link
    decreases |plan|
  {
    hide DoSubscribe;
    if plan != [] {
      var n := |plan| - 1;
      ResubscribeLink(s, plan[..n]);
      SubscribeUnmoved(ResubscribeAll(s, plan[..n]), plan[n].channel, plan[n].oracle, plan[n].channel);
    }
  }

  // ---------- commands and timers ----------

  lemma CommandUnmoved(s: State, cmd: ActorCommand, fate: Fate, c: Channel)
    requires cmd.RemoveSubscription? ==> cmd.channel != c
    ensures Unmoved(s, HandleCommand(s, cmd, fate), c)
  {
    hide Transact, HandleSubscribe, SendCommand, MoveToDisconnected, MoveToClosed, HandleUnsubscribe, FlushBatch, Tell,
         Deliveries, Alike;
    AlikeSelf();
    match cmd {
      case Disconnect(h) => CloseUnmoved(s, Codes.DISCONNECT_CALLED, true, c);
      case Close(h) => CloseUnmoved(s, 0, true, c);
      case Subscribe(ch, h) => SubscribeCommandUnmoved(s, ch, h, fate, c);
      case Unsubscribe(ch, h) => UnsubscribeUnmoved(s, ch, h, fate, c);
      case SendRequest(payload, h) => TransactSubs(s, RequestBody(payload), AwaitReply(h), fate);
      case _ =>
    }
  }

  lemma AlikeSelf()
    ensures forall sub :: Alike(sub, sub)
  {}

  lemma SubscribeCommandUnmoved(s: State, ch: Channel, h: Handle, fate: Fate, c: Channel)
    ensures Unmoved(s, HandleSubscribe(s, ch, h, fate), c)
  {
    hide SendSubscribe, Tell, Deliveries;
    if ch in s.subs {
      var sub1 := BackToSubscribing(s.subs[ch].(attempts := 0), Codes.SUBSCRIBE_CALLED);
      LeaveAlike(s.subs[ch].(attempts := 0), Codes.SUBSCRIBE_CALLED);
      SendSubscribeSubs(s, ch, sub1, Some(h), fate);
    }
  }

  lemma UnsubscribeUnmoved(s: State, ch: Channel, h: Handle, fate: Fate, c: Channel)
    ensures Unmoved(s, HandleUnsubscribe(s, ch, h, fate), c)
  {
    hide OnTransportClose, SendCommand, Tell, Deliveries;
    if ch in s.subs {
      LeaveAlike(s.subs[ch], Codes.UNSUBSCRIBE_CALLED);
      var s1 := s.(subs := s.subs[ch := Leave(s.subs[ch], Codes.UNSUBSCRIBE_CALLED)]);
      var s2 := Respond(SendUnsubscribe(s1, ch, fate), h, Done);
      CloseUnmoved(s2, Codes.UNSUBSCRIBE_ERROR, true, c);
      assert Unmoved(s, s2, c);
      UnmovedThen(s, s2, OnTransportClose(s2, Codes.UNSUBSCRIBE_ERROR, true), c);
    }
  }

  lemma TimerUnmoved(s: State, t: Timer, o: Oracle, c: Channel)
    ensures Unmoved(s, HandleTimer(s, t, o), c)
  {
    hide Transact, MoveToDisconnected, HandleRequestTimeout, DoSubscribe, SendCommand, Tell, Deliveries;
    match t {
      case Resubscribe(ch) => SubscribeUnmoved(s, ch, o, c);
      case RequestTimeout(id) => TimeoutUnmoved(s, id, c);
      case RefreshToken =>
        CloseUnmoved(s, Codes.DISCONNECT_UNAUTHORIZED, true, c);
        var s1 := if s.config.hasGetToken && o.token.Token? then s.(config := s.config.(token := o.token.token)) else s;
        TransactSubs(s1, RefreshBody(s1.config.token), AwaitRefresh, o.fate);
      case RefreshSubToken(ch) =>
        if ch in s.subs {
          LeaveAlike(s.subs[ch], Codes.UNSUBSCRIBED_UNAUTHORIZED);
          EmitAlike(s.subs[ch], ErrorEvent);
          if o.token.Token? {
            TransactSubs(s.(subs := s.subs[ch := s.subs[ch].(token := o.token.token)]),
                SubRefreshBody(ch, o.token.token), AwaitSubRefresh(ch), o.fate);
          }
        }
    }
  }

  lemma TimeoutUnmoved(s: State, id: nat, c: Channel)
    ensures Unmoved(s, HandleRequestTimeout(s, id), c)
  {
    hide OnTransportClose, Tell, Deliveries;
    if id in s.calls.pending {
      var req := s.calls.pending[id];
      var s1 := TakeOut(s, id);
      var s2 := s1.(desk := Tell(s1.desk, OptionSet(CallerOf(req)), Failed(Timeout)));
      if req.AwaitSubscribe? && req.channel in s.subs {
        var s3 := DrainWaiters(s2, req.channel, Timeout);
        CloseUnmoved(s3, Codes.SUBSCRIBE_TIMEOUT, true, c);
        assert Unmoved(s, s3, c);
        UnmovedThen(s, s3, OnTransportClose(s3, Codes.SUBSCRIBE_TIMEOUT, true), c);
      }
    }
  }

  // ---------- connecting ----------

  lemma FailureUnmoved(s: State, err: ClientError, c: Channel)
    ensures Unmoved(s, OnHandshakeFailure(s, err), c)
  {
    hide MoveToDisconnected, Deliveries;
    var s1 := EmitError(s.(link := Detach(s.link).(handshake := None)));
    if err.Server? {
      CloseUnmoved(s1, err.error.code, true, c);
    }
  }

  lemma BeginUnmoved(s: State, o: Opening, c: Channel)
    ensures Unmoved(s, BeginAttempt(s, o), c)
  {
    hide RefreshTokenIfNeeded, SendConnect, Unmoved;
    var s0 := s.(link := s.link.(attempts := s.link.attempts + 1));
    var s1 := RefreshTokenIfNeeded(s0, o.token).0;
    var s2 := RefreshConnectData(Attach(s1), o.data);
    RefreshTokenUnmoved(s0, o.token, c);
    SendConnectUnmoved(s2, o.fate, c);
    assert Unmoved(s, s1, c) && Unmoved(s1, s2, c) && Unmoved(s1, EmitError(s1), c) by {
      SameSubs(s, s0, c);
      UnmovedThen(s, s0, s1, c);
      SameSubs(s1, s2, c);
      SameSubs(s1, EmitError(s1), c);
    }
    UnmovedThen(s1, s2, SendConnect(s2, o.fate), c);
    UnmovedThen(s, s1, BeginAttempt(s, o), c);
  }

  lemma SameSubs(s: State, t: State, c: Channel)
    requires t.subs == s.subs && t.config.protocol == s.config.protocol
    ensures Unmoved(s, t, c)
  {}

  lemma RefreshTokenUnmoved(s: State, o: TokenOutcome, c: Channel)
    ensures Unmoved(s, RefreshTokenIfNeeded(s, o).0, c)
  {
    hide MoveToDisconnected, Deliveries;
    CloseUnmoved(s, Codes.DISCONNECT_UNAUTHORIZED, true, c);
  }

  lemma SendConnectUnmoved(s: State, fate: Fate, c: Channel)
    ensures Unmoved(s, SendConnect(s, fate), c)
  {
    hide OnHandshakeFailure, SendCommand, Deliveries, ConnectSubs;
    var body := ConnectBodyOf(s);
    var (out, err) := SendCommand(s.out, s.link, Command(NextId(s.calls), body), fate);
    var s1 := s.(calls := Issue(s.calls, body, None), out := out);
    if err.Some? {
      FailureUnmoved(s1, err.value, c);
    }
  }

  // ---------- frames ----------

  lemma ReplyLived(s: State, a: Arrival, c: Channel)
    ensures Lived(s, DispatchReply(s, a), c, ReplyBrings(s, a.reply, c))
  {
    hide HandlePush, ResolvePending, SendCommand, Deliveries, History;
    var r := a.reply;
    if r.id == 0 {
      if r.push.Some? { PushLived(s, r.push.value, c); }
    } else if r.id in s.calls.pending {
      ResolveLived(TakeOut(s, r.id), s.calls.pending[r.id], r, c);
    }
    HistoryUpToOne(s, c);
  }

  lemma HistoryUpToOne(s: State, c: Channel)
    ensures c in s.subs ==> History(s.subs[c], [], s.config.protocol) == s.subs[c]
    ensures forall h :: c in s.subs ==>
              History(s.subs[c], [h], s.config.protocol) == Undergo(s.subs[c], h, s.config.protocol)
  {}

  lemma PushLived(s: State, push: Push, c: Channel)
    ensures Lived(s, HandlePush(s, push), c,
                  if push.channel == c && push.body.PublicationPush? then [Live(push.body.publication)] else [])
  {
    hide OnTransportClose, MoveToDisconnected, Receive, Deliveries, Note, History;
    if push.channel in s.subs {
      var sub := s.subs[push.channel];
      EmitAlike(sub, JoinEvent);
      EmitAlike(sub, LeaveEvent);
      if push.body.UnsubscribePush? { LeaveAlike(sub, push.body.code); }
    }
    if push.body.DisconnectPush? { CloseUnmoved(s, push.body.code, true, c); }
    HistoryUpToOne(s, c);
  }

  lemma ResolveLived(s: State, req: PendingRequest, r: Reply, c: Channel)
    ensures Lived(s, ResolvePending(s, req, r), c,
                  if req.AwaitSubscribe? && req.channel == c then Confirmations(AcceptedResult(r)) else [])
  {
    hide Succeed, Deliveries, Tell;
    HistoryUpToOne(s, c);
    if req.AwaitSubscribe? && req.channel in s.subs {
      var sub := s.subs[req.channel];
      EmitAlike(sub.(attempts := sub.attempts + 1), ErrorEvent);
      EmitAlike(sub.(token := "", attempts := sub.attempts + 1), ErrorEvent);
      if r.error.Some? { LeaveAlike(sub, r.error.value.code); }
    }
  }

  lemma {:induction false} FrameLived(s: State, arrivals: seq<Arrival>, c: Channel)
    ensures Lived(s, DispatchAll(s, arrivals), c, FrameBrings(s, arrivals, c))
    decreases |arrivals|
  {
    hide DispatchReply, Lived, ReplyBrings;
    if arrivals == [] {
      assert Lived(s, s, c, []) by { SelfUnmoved(s, c); }
    } else {
      var n := |arrivals| - 1;
      FrameLived(s, arrivals[..n], c);
      var t := DispatchAll(s, arrivals[..n]);
      ReplyLived(t, arrivals[n], c);
      LivedThen(s, t, DispatchReply(t, arrivals[n]), c, FrameBrings(s, arrivals[..n], c),
          ReplyBrings(t, arrivals[n].reply, c));
    }
  }

  lemma EstablishLived(s: State, r: ConnectResult, c: Channel)
    ensures Lived(s, Establish(s, r), c, if c in r.subs then [Confirmed(r.subs[c])] else [])
  {}

  lemma HandshakeLived(s: State, arrivals: seq<Arrival>, plan: seq<Attempt>, c: Channel)
    requires s.link.handshake.Some?
    ensures Lived(s, HandshakeFrame(s, s.link.handshake.value, arrivals, plan), c,
                  HandshakeBrings(s, s.link.handshake.value, arrivals, c))
  {
    hide DispatchAll, FrameBrings, OnHandshakeFailure, OnHandshakeSuccess, Lived;
    var id := s.link.handshake.value;
    var n := Before(arrivals, id);
    var s1 := DispatchAll(s, arrivals[..n]);
    FrameLived(s, arrivals[..n], c);
    var t := HandshakeFrame(s, id, arrivals, plan);
    if n < |arrivals| {
      var more := ConnectBrings(arrivals[n].reply, c);
      match HandshakeResult(arrivals[n].reply) {
        case Err(e) =>
          FailureUnmoved(s1, e, c);
          assert Lived(s1, t, c, more) by { assert Unmoved(s1, t, c); }
        case Ok(r) => SuccessLived(s1, r, plan, c);
      }
      LivedThen(s, s1, t, c, FrameBrings(s, arrivals[..n], c), more);
    } else {
      assert HandshakeBrings(s, id, arrivals, c) == FrameBrings(s, arrivals[..n], c);
    }
  }

  lemma SuccessLived(s: State, r: ConnectResult, plan: seq<Attempt>, c: Channel)
    ensures Lived(s, OnHandshakeSuccess(s, r, plan), c, if c in r.subs then [Confirmed(r.subs[c])] else [])
  {
    hide Establish, ResubscribeAll, Lived;
    var hs := if c in r.subs then [Confirmed(r.subs[c])] else [];
    var s1 := Establish(s, r);
    var s2 := ResubscribeAll(s1, plan);
    EstablishLived(s, r, c);
    ResubscribeUnmoved(s1, plan, c);
    SameSubs(s2, AnswerConnectWaiters(s2), c);
    UnmovedThen(s1, s2, AnswerConnectWaiters(s2), c);
    assert Unmoved(s1, AnswerConnectWaiters(s2), c);
    LivedThen(s, s1, AnswerConnectWaiters(s2), c, hs, []);
    assert hs + [] == hs;
  }

  // ---------- runs ----------

  /** A subscription that is not removed has lived through exactly what the frames brought it. */
  lemma StepLived(s: State, i: Input, c: Channel)
    requires !(i.Ask? && i.command.RemoveSubscription? && i.command.channel == c)
    ensures Lived(s, Step(s, i), c, Brings(s, i, c))
  {
    hide HandleCommand, HandleTimer, BeginAttempt, HandshakeFrame, OnHandshakeFailure, DispatchAll, OnTransportClose,
         Lived, FrameBrings, HandshakeBrings;
    var t := Step(s, i);
    if !Enabled(s, i) {
      SelfUnmoved(s, c);
    } else {
      match i {
        case Ask(cmd, fate) =>
          var s1 := Admit(s, ReplyHandle(cmd));
          SameSubs(s, s1, c);
          CommandUnmoved(s1, cmd, fate, c);
          UnmovedThen(s, s1, t, c);
        case Fire(timer, o) =>
          SameSubs(s, Disarm(s, timer), c);
          TimerUnmoved(Disarm(s, timer), timer, o, c);
          UnmovedThen(s, Disarm(s, timer), t, c);
        case Open(o) => BeginUnmoved(s, o, c);
        case Shake(arrivals, plan) => HandshakeLived(s, arrivals, plan, c);
        case ShakeFails(e) => FailureUnmoved(s, e, c);
        case Data(arrivals) => FrameLived(s, arrivals, c);
        case BadData => CloseUnmoved(s, Codes.BAD_PROTOCOL, false, c);
        case TransportClosed(code, reconnect) => CloseUnmoved(s, code, reconnect, c);
        case PingTimeout => CloseUnmoved(s, Codes.NO_PING, true, c);
      }
    }
  }

  /** No input of the run removes the subscription of `c`. */
  ghost predicate Spares(inputs: seq<Input>, c: Channel) {
    forall k :: 0 <= k < |inputs| ==>
      !(inputs[k].Ask? && inputs[k].command.RemoveSubscription? && inputs[k].command.channel == c)
  }

  lemma {:induction false} RunLived(s: State, inputs: seq<Input>, c: Channel)
    requires Spares(inputs, c)
    ensures Lived(s, Run(s, inputs), c, RunBrings(s, inputs, c))
    decreases |inputs|
  {
    hide Step, Brings, Lived;
    if inputs == [] {
      assert Lived(s, s, c, []) by { SelfUnmoved(s, c); }
    } else {
      var n := |inputs| - 1;
      RunLived(s, inputs[..n], c);
      StepLived(Run(s, inputs[..n]), inputs[n], c);
      LivedThen(s, Run(s, inputs[..n]), Run(s, inputs), c, RunBrings(s, inputs[..n], c),
          Brings(Run(s, inputs[..n]), inputs[n], c));
    }
  }
}
