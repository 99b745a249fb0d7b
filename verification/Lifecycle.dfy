/** Which way the connection goes: every cause of a reconnect or a disconnect, and what it leads to. */
module Lifecycle {
  import opened Prelude
  import opened Protocol
  import opened Subscriptions
  import opened ActorState
  import opened Outcomes

  /** A new client is disconnected and idle: nothing asked for, sent or said. */
  lemma StartsIdle(config: ClientConfig)
    ensures var s := Init(config);
      && s.config == config && s.link.phase == Disconnected && s.link.shared == 0 && s.link.clientId == ""
      && !s.link.sink && !s.link.stream && s.link.handshake == None && s.link.conn == 0 && s.link.attempts == 0
      && !s.link.connectRequested && s.link.pingInterval == 25 && !s.link.sendPong
      && s.link.token == TokenState(false, 0, false)
      && s.calls == Calls([], map[], multiset{}, {}) && s.out == Out(BatchState(false, []), [])
      && s.subs == map[] && s.servers == Servers(map[], map[]) && s.desk == Desk({}, [], map[], {}) && s.clientLog == []
  {}

  // ---------- the transport ----------

  /** A closed transport is opened again if and only if that is offered and connecting was requested. */
  lemma TransportCloses(s: State, code: nat, reconnect: bool)
    requires Enabled(s, TransportClosed(code, reconnect))
    ensures var t := Step(s, TransportClosed(code, reconnect));
      && (t.link.phase.Connecting? <==> reconnect && s.link.connectRequested)
      && (t.link.phase.Disconnected? <==> !(reconnect && s.link.connectRequested))
      && if reconnect && s.link.connectRequested then Reconnects(s, t, code) else Disconnects(s, t, code)
  {
    hide OnTransportClose, CutOff;
    CloseLeads(s, code, reconnect);
  }

  /** A missing ping counts as a close with code 2 that offers to reconnect. */
  lemma PingTimesOut(s: State)
    requires Enabled(s, PingTimeout)
    ensures var t := Step(s, PingTimeout);
      if s.link.connectRequested then Reconnects(s, t, 2) else Disconnects(s, t, 2)
  {
    hide OnTransportClose, Reconnects, Disconnects;
    CloseLeads(s, 2, true);
  }

  /** A frame that does not decode ends the connection for good. */
  lemma BadFrameDisconnects(s: State)
    requires Enabled(s, BadData)
    ensures Disconnects(s, Step(s, BadData), 2)
  {
    hide OnTransportClose, Reconnects, Disconnects;
    CloseLeads(s, 2, false);
  }

  /** The codes after which the client connects again. */
  predicate MayReturn(code: nat) { code < 3500 || 4000 <= code < 4500 || code >= 5000 }

  /** A disconnect push is final or not by its code alone; then it is a close like any other. */
  lemma DisconnectPushed(s: State, a: Arrival)
    requires a.reply.id == 0 && a.reply.push.Some? && a.reply.push.value.body.DisconnectPush?
    ensures var t := DispatchReply(s, a);
      var code := a.reply.push.value.body.code;
      if MayReturn(code) && s.link.connectRequested then Reconnects(s, t, code) else Disconnects(s, t, code)
  {
    hide OnTransportClose, MoveToDisconnected, Reconnects, Disconnects;
    var code := a.reply.push.value.body.code;
    CloseLeads(s, code, true);
    MoveDisconnects(s, code);
  }

  /** The state in which a timed-out subscribe request of a known channel is a close with code 3. */
  function SubscribeFailed(s: State, id: nat, ch: Channel): State
    requires ch in s.subs && id in s.calls.pending && s.calls.pending[id].AwaitSubscribe?
  {
    var sender := s.calls.pending[id].sender;
    var told := (set w | w in s.subs[ch].waiters) + (if sender.Some? then {sender.value} else {});
    s.(calls := s.calls.(pending := s.calls.pending - {id},
                         timers := s.calls.timers - multiset{RequestTimeout(id)}),
       subs := s.subs[ch := s.subs[ch].(waiters := [])],
       desk := s.desk.(answers := s.desk.answers + map h | h in told :: Failed(Timeout)))
  }

  lemma SubscribeTimesOut(s: State, id: nat, o: Oracle)
    requires Enabled(s, Fire(RequestTimeout(id), o))
    requires id in s.calls.pending && s.calls.pending[id].AwaitSubscribe? && s.calls.pending[id].channel in s.subs
    ensures var t := Step(s, Fire(RequestTimeout(id), o));
      var m := SubscribeFailed(s, id, s.calls.pending[id].channel);
      if s.link.connectRequested then Reconnects(m, t, 3) else Disconnects(m, t, 3)
  {
    hide OnTransportClose, Reconnects, Disconnects, SubscribeFailed, DrainWaiters, Tell;
    var req := s.calls.pending[id];
    var m := SubscribeFailed(s, id, req.channel);
    var late := s.(calls := m.calls, desk := Tell(s.desk, OptionSet(req.sender), Failed(Timeout)));
    SubscribeFails(s, id, req.channel);
    assert Step(s, Fire(RequestTimeout(id), o)) == OnTransportClose(DrainWaiters(late, req.channel, Timeout), 3, true);
    CloseLeads(m, 3, true);
  }

  lemma SubscribeFails(s: State, id: nat, ch: Channel)
    requires ch in s.subs && id in s.calls.pending && s.calls.pending[id].AwaitSubscribe?
    ensures var m := SubscribeFailed(s, id, ch);
      && m.link == s.link
      && m.calls == s.calls.(pending := s.calls.pending - {id},
                             timers := s.calls.timers - multiset{RequestTimeout(id)})
      && var d := Tell(s.desk, OptionSet(s.calls.pending[id].sender), Failed(Timeout));
         m == DrainWaiters(s.(calls := m.calls, desk := d), ch, Timeout)
  {
    assert s.desk.answers + (map h | h in OptionSet(s.calls.pending[id].sender) :: Failed(Timeout))
           + (map h | h in SetOf(s.subs[ch].waiters) :: Failed(Timeout)) == SubscribeFailed(s, id, ch).desk.answers;
  }

  // ---------- what handles ask for ----------

  /** `connect` starts connecting, joins an attempt under way, or is answered at once. */
  lemma ConnectCalled(s: State, h: Handle, fate: Fate)
    requires Enabled(s, Ask(Connect(h), fate))
    ensures var t := Step(s, Ask(Connect(h), fate));
      match s.link.phase
      case Disconnected =>
        t == Entered(s, h).(
          link := s.link.(phase := Connecting, shared := 1, connectRequested := true),
          desk := t.desk, clientLog := s.clientLog + [ConnectingEvent(0)])
        && t.desk == Entered(s, h).desk.(connectWaiters := s.desk.connectWaiters + [h])
      case Connecting => t == Entered(s, h).(desk := t.desk)
        && t.desk == Entered(s, h).desk.(connectWaiters := s.desk.connectWaiters + [h])
      case Connected => t == Replied(s, h, Done)
      case Closed => t == Replied(s, h, Failed(ClientClosed))
  {
    hide Respond;
    RespondReplies(s, h, Done);
    RespondReplies(s, h, Failed(ClientClosed));
  }

  /** `disconnect` disconnects with code 0, and its caller hears that it is done. */
  lemma DisconnectCalled(s: State, h: Handle, fate: Fate)
    requires Enabled(s, Ask(Disconnect(h), fate))
    ensures exists u :: Disconnects(Entered(s, h), u, 0)
                        && Step(s, Ask(Disconnect(h), fate)) == Replied(u, h, Done)
  {
    hide MoveToDisconnected, Disconnects, Respond;
    var u := MoveToDisconnected(Entered(s, h), 0);
    MoveDisconnects(Entered(s, h), 0);
    RespondReplies(u, h, Done);
    assert u.desk.callers == Entered(s, h).desk.callers by { DisconnectsKeepsCallers(Entered(s, h), u, 0); }
    assert Admit(u, Some(h)) == u;
  }

  lemma DisconnectsKeepsCallers(s: State, t: State, code: nat)
    requires Disconnects(s, t, code)
    ensures t.desk.callers == s.desk.callers
  {}

  lemma ClosesKeepsCallers(s: State, t: State)
    requires Closes(s, t)
    ensures t.desk.callers == s.desk.callers
  {}

  lemma CloseCalled(s: State, h: Handle, fate: Fate)
    requires Enabled(s, Ask(Close(h), fate))
    ensures exists u :: Closes(Entered(s, h), u) && Step(s, Ask(Close(h), fate)) == Replied(u, h, Done)
  {
    hide MoveToClosed, Closes, Respond;
    var u := MoveToClosed(Entered(s, h));
    MoveCloses(Entered(s, h));
    RespondReplies(u, h, Done);
    assert u.desk.callers == Entered(s, h).desk.callers by { ClosesKeepsCallers(Entered(s, h), u); }
    assert Admit(u, Some(h)) == u;
  }

  // ---------- the handshake ----------

  /** The attempt is over: no transport, no handshake, one error event. */
  function AttemptOver(s: State): State {
    s.(link := s.link.(sink := false, stream := false, handshake := None),
       clientLog := s.clientLog + [ClientErrorEvent])
  }

  /** A close, a timeout or a bad frame during the handshake ends the attempt and nothing else. */
  lemma HandshakeBreaks(s: State, e: ClientError)
    requires Enabled(s, ShakeFails(e))
    ensures Step(s, ShakeFails(e)) == AttemptOver(s)
  {
    hide MoveToDisconnected;
  }

  /**
   A server error that answers the handshake: code 109 asks for a fresh token, other temporary ones - flagged so,
   or with a code below 100 - only end the attempt, and any other disconnects with its code.
   */
  lemma HandshakeRefused(s: State, before: seq<Arrival>, a: Arrival, after: seq<Arrival>, plan: seq<Attempt>)
    requires Enabled(s, Shake(before + [a] + after, plan))
    requires a.reply.id == s.link.handshake.value && a.reply.error.Some?
    requires forall i :: 0 <= i < |before| ==> before[i].reply.id != a.reply.id
    ensures var t := Step(s, Shake(before + [a] + after, plan));
      var u := AttemptOver(DispatchAll(s, before));
      var e := a.reply.error.value;
      if e.code == 109 then t == u.(link := u.link.(token := u.link.token.(refreshRequired := true)))
      else if e.temporary || e.code < 100 then t == u
      else Disconnects(u, t, e.code)
  {
    hide MoveToDisconnected, Disconnects, DispatchAll;
    Awaited(s, before, a, after, plan);
    MoveDisconnects(AttemptOver(DispatchAll(s, before)), a.reply.error.value.code);
  }

  /** A frame with the awaited reply dispatches what comes before it and ends the handshake on it. */
  lemma Awaited(s: State, before: seq<Arrival>, a: Arrival, after: seq<Arrival>, plan: seq<Attempt>)
    requires Enabled(s, Shake(before + [a] + after, plan))
    requires a.reply.id == s.link.handshake.value
    requires forall i :: 0 <= i < |before| ==> before[i].reply.id != a.reply.id
    ensures Step(s, Shake(before + [a] + after, plan)) == FinishHandshake(DispatchAll(s, before), a.reply, plan)
  {
    hide FinishHandshake, DispatchAll;
    var arrivals := before + [a] + after;
    var n := Before(arrivals, a.reply.id);
    assert arrivals[|before|] == a;
    assert forall i :: 0 <= i < |before| ==> arrivals[i] == before[i];
    assert n == |before|;
    assert arrivals[..n] == before;
  }

  /** A frame without the awaited reply is dispatched, and the handshake goes on. */
  lemma HandshakeWaits(s: State, arrivals: seq<Arrival>, plan: seq<Attempt>)
    requires Enabled(s, Shake(arrivals, plan))
    requires forall i :: 0 <= i < |arrivals| ==> arrivals[i].reply.id != s.link.handshake.value
    ensures Step(s, Shake(arrivals, plan)) == DispatchAll(s, arrivals)
  {
    hide DispatchAll, FinishHandshake;
    assert arrivals[..|arrivals|] == arrivals;
  }

  /** An answer without an error or a result ends the attempt like a bad frame. */
  lemma HandshakeEmpty(s: State, before: seq<Arrival>, a: Arrival, after: seq<Arrival>, plan: seq<Attempt>)
    requires Enabled(s, Shake(before + [a] + after, plan))
    requires a.reply.id == s.link.handshake.value && a.reply.error.None? && a.reply.connect.None?
    requires forall i :: 0 <= i < |before| ==> before[i].reply.id != a.reply.id
    ensures Step(s, Shake(before + [a] + after, plan)) == AttemptOver(DispatchAll(s, before))
  {
    hide DispatchAll;
    Awaited(s, before, a, after, plan);
  }

  /**
   A result connects: the link takes its terms from it, one event says so, whoever waited for the connection
   hears that it is done, and the token's refresh is armed if and only if it expires after a positive time.
   */
  lemma HandshakeSucceeds(s: State, before: seq<Arrival>, a: Arrival, after: seq<Arrival>, plan: seq<Attempt>)
    requires Enabled(s, Shake(before + [a] + after, plan))
    requires a.reply.id == s.link.handshake.value && a.reply.error.None? && a.reply.connect.Some?
    requires forall i :: 0 <= i < |before| ==> before[i].reply.id != a.reply.id
    ensures var t := Step(s, Shake(before + [a] + after, plan));
      var u := DispatchAll(s, before);
      var r := a.reply.connect.value;
      && t.link == u.link.(
           phase := Connected, shared := 2, handshake := None, clientId := r.client, attempts := 0, sendPong := r.pong,
           pingInterval := if r.ping > 0 then r.ping else u.link.pingInterval,
           token := TokenState(r.expires, r.ttl, u.link.token.refreshRequired))
      && t.clientLog == u.clientLog + [ConnectedEvent]
      && t.calls.timers[RefreshToken] == u.calls.timers[RefreshToken] + (if r.expires && r.ttl > 0 then 1 else 0)
      && t.desk.connectWaiters == []
      && forall h :: h in u.desk.connectWaiters ==> h in t.desk.answers && t.desk.answers[h] == Done
  {
    hide DispatchAll, ProcessServerSubs, ResubscribeAll;
    var u := DispatchAll(s, before);
    var r := a.reply.connect.value;
    Awaited(s, before, a, after, plan);
    ProcessLeaves(MoveToConnected(EndHandshake(u), r), r);
    PlanLeaves(Establish(u, r), plan);
  }

  lemma ProcessLeaves(s: State, r: ConnectResult)
    ensures var t := ProcessServerSubs(s, r);
      && t.link == s.link && t.clientLog == s.clientLog && t.desk.connectWaiters == s.desk.connectWaiters
      && t.calls.timers[RefreshToken] == s.calls.timers[RefreshToken]
  {
    hide ResolvedSubs, RefreshedServers, WaitersIn, Note;
  }

  lemma SubscribeLeaves(s: State, ch: Channel, o: Oracle)
    ensures var t := DoSubscribe(s, ch, o);
      && t.link == s.link && t.clientLog == s.clientLog && t.desk.connectWaiters == s.desk.connectWaiters
      && t.calls.timers[RefreshToken] == s.calls.timers[RefreshToken]
  {
    hide BuildRequest, Leave, SendCommand, RefreshData;
  }

  lemma {:induction false} PlanLeaves(s: State, plan: seq<Attempt>)
    ensures var t := ResubscribeAll(s, plan);
      && t.link == s.link && t.clientLog == s.clientLog && t.desk.connectWaiters == s.desk.connectWaiters
      && t.calls.timers[RefreshToken] == s.calls.timers[RefreshToken]
    decreases |plan|
  {
    hide DoSubscribe;
    if plan != [] {
      var n := |plan| - 1;
      PlanLeaves(s, plan[..n]);
      SubscribeLeaves(ResubscribeAll(s, plan[..n]), plan[n].channel, plan[n].oracle);
    }
  }

  // ---------- one attempt ----------

  /** The attempt is counted. */
  function Counted(s: State): State { s.(link := s.link.(attempts := s.link.attempts + 1)) }

  /** Before an attempt a token is asked for if one is due or missing. */
  predicate AsksForToken(s: State) {
    s.config.hasGetToken && (s.link.token.refreshRequired || s.config.token == "")
  }

  /** A callback that fails, or a transport that does not open, costs the attempt and one error event. */
  lemma AttemptFails(s: State, o: Opening)
    requires Enabled(s, Open(o))
    ensures var t := Step(s, Open(o));
      && (AsksForToken(s) && o.token.Broken? ==>
            t == Counted(s).(clientLog := s.clientLog + [ClientErrorEvent]))
      && (!AsksForToken(s) && !o.opens ==>
            t == Counted(s).(link := t.link, clientLog := s.clientLog + [ClientErrorEvent])
            && t.link == Counted(s).link.(token := s.link.token.(refreshRequired := false)))
  {
    hide SendConnect, MoveToDisconnected;
  }

  /** A fresh token replaces the old one and settles the need for it, whether the transport then opens or not. */
  lemma AttemptRenews(s: State, o: Opening)
    requires Enabled(s, Open(o)) && AsksForToken(s) && o.token.Token? && o.token.token != ""
    ensures var t := Step(s, Open(o));
      && t.config.token == o.token.token && !t.link.token.refreshRequired
      && (!o.opens ==>
            t == Counted(s).(link := t.link, config := s.config.(token := o.token.token),
                             clientLog := s.clientLog + [ClientErrorEvent])
            && t.link == Counted(s).link.(token := s.link.token.(refreshRequired := false)))
  {
    hide MoveToDisconnected, SendConnect;
    SendConnectKeeps(RefreshConnectData(Attach(RefreshRequired(
      Counted(s).(config := s.config.(token := o.token.token)), false)), o.data), o.fate);
  }

  /** Sending the connect command changes neither the configuration nor the token's state, even when it fails. */
  lemma SendConnectKeeps(s: State, fate: Fate)
    ensures SendConnect(s, fate).config == s.config && SendConnect(s, fate).link.token == s.link.token
  {
    hide MoveToDisconnected, ConnectSubs;
  }

  // ---------- the connect command ----------

  /** Asked for along with the connection: subscribing, with nothing to ask a callback first. */
  predicate Rides(s: State, ch: Channel) {
    && ch in s.subs && s.subs[ch].state.Subscribing?
    && !(s.subs[ch].token == "" && s.subs[ch].config.hasGetToken) && !s.subs[ch].config.hasGetData
  }

  /** A request to replay a server-side channel: where the registry stands, and nothing else. */
  predicate AsksToReplay(q: SubscribeRequest, ss: ServerSub) {
    && q.recover && q.offset == ss.offset && q.epoch == ss.epoch
    && q.channel == "" && q.token == "" && q.data == []
    && !q.positioned && !q.recoverable && !q.joinLeave && !q.delta
  }

  /** The requests in a connect command: the riding subscriptions, and the recoverable server-side ones. */
  ghost predicate Bundles(s: State, subs: map<Channel, SubscribeRequest>) {
    && (forall ch :: ch in subs <==>
          Rides(s, ch) || (ch in s.servers.subs && s.servers.subs[ch].recoverable))
    && forall ch :: ch in subs ==>
         if Rides(s, ch) then AsksFor(subs[ch], ch, s.subs[ch]) else AsksToReplay(subs[ch], s.servers.subs[ch])
  }

  /** The transport is open, and the data callback has given its data or cost an event. */
  function Reached(s: State, o: Opening): State {
    s.(config := s.config.(data := if s.config.hasGetData && o.data.Some? then o.data.value else s.config.data),
       link := s.link.(conn := s.link.conn + 1, sink := true, stream := true),
       clientLog := if s.config.hasGetData && o.data.None? then s.clientLog + [ClientErrorEvent] else s.clientLog)
  }

  /** The attempt is counted, and no token is due any more. */
  function Renewed(s: State, o: Opening): State {
    s.(config := s.config.(token := if AsksForToken(s) && o.token.Token? then o.token.token else s.config.token),
       link := s.link.(attempts := s.link.attempts + 1, token := s.link.token.(refreshRequired := false)))
  }

  /** The connect command takes a number, and its handshake is awaited unless something keeps it from leaving. */
  ghost predicate SendsConnect(m: State, t: State, subs: map<Channel, SubscribeRequest>, fate: Fate) {
    var body := ConnectBody(m.config.token, m.config.data, subs);
    var issued := m.(calls := m.calls.(issued := m.calls.issued + [Issued(body, None)]));
    if Obstacle(m, fate).None? then
      && t == issued.(link := m.link.(handshake := Some(FreshId(m.calls))), out := t.out)
      && Leaves(m, t.out, Command(FreshId(m.calls), body))
    else t == AttemptOver(issued)
  }

  lemma ConnectBundles(s: State)
    ensures Bundles(s, ConnectSubs(s))
  {}

  lemma SendConnectSends(m: State, fate: Fate)
    ensures SendsConnect(m, SendConnect(m, fate), ConnectSubs(m), fate)
  {
    hide ConnectSubs, MoveToDisconnected;
  }

  /**
   An attempt whose transport opens sends the connect command with the client's token and data - the ones
   its callbacks have just given, if it has any - and the requests of the subscriptions that go with it.
   */
  lemma AttemptConnects(s: State, o: Opening)
    requires Enabled(s, Open(o)) && o.opens
    requires AsksForToken(s) ==> o.token.Token? && o.token.token != ""
    ensures exists subs :: Bundles(s, subs) && SendsConnect(Reached(Renewed(s, o), o), Step(s, Open(o)), subs, o.fate)
  {
    hide SendConnect, SendsConnect, Bundles, MoveToDisconnected, RefreshConnectData, Reached;
    ReachedSends(Renewed(s, o), o);
    var subs :| Bundles(Renewed(s, o), subs)
        && SendsConnect(Reached(Renewed(s, o), o), SendConnect(Reached(Renewed(s, o), o), o.fate), subs, o.fate);
    SameBundles(s, Renewed(s, o), subs);
  }

  /** From an open transport the connect command is sent with what is asked for along with it. */
  lemma ReachedSends(s: State, o: Opening)
    ensures RefreshConnectData(Attach(s), o.data) == Reached(s, o)
    ensures exists subs :: Bundles(s, subs)
                           && SendsConnect(Reached(s, o), SendConnect(Reached(s, o), o.fate), subs, o.fate)
  {
    hide SendConnect, SendsConnect, Bundles, ConnectSubs;
    var m := Reached(s, o);
    SendConnectSends(m, o.fate);
    ConnectBundles(m);
    SameBundles(s, m, ConnectSubs(m));
  }

  lemma SameBundles(s: State, m: State, subs: map<Channel, SubscribeRequest>)
    requires m.subs == s.subs && m.servers == s.servers && Bundles(m, subs)
    ensures Bundles(s, subs)
  {}

  /** The attempt goes on from `s` to `t`. */
  ghost predicate GoesOn(s: State, o: Opening, t: State) {
    if o.opens then exists subs :: Bundles(s, subs) && SendsConnect(Reached(s, o), t, subs, o.fate)
    else t == s.(clientLog := s.clientLog + [ClientErrorEvent])
  }

  /** A refused token disconnects with code 1, and the attempt goes on from there. */
  lemma AttemptUnauthorized(s: State, o: Opening)
    requires Enabled(s, Open(o)) && AsksForToken(s) && (o.token.Denied? || o.token == Token(""))
    ensures exists u :: Disconnects(Counted(s), u, 1) && GoesOn(u, o, Step(s, Open(o)))
  {
    hide MoveToDisconnected, Disconnects, SendConnect, RefreshConnectData, Reached, SendsConnect, Bundles;
    MoveDisconnects(Counted(s), 1);
    ReachedSends(MoveToDisconnected(Counted(s), 1), o);
  }
}
