/** Observer agreement: the emitted events tell the actor's state at all times. */
module Observers {
  import opened Prelude
  import Codes
  import opened Lines
  import opened Protocol
  import opened Subscriptions
  import opened ActorState

  /** A subscription's state as its event stream tells it. */
  function SubStateOf(log: seq<SubEvent>): SubscriptionState
    decreases |log|
  {
    if log == [] then Unsubscribed
    else match log[|log| - 1]
      case SubscribingEvent(_) => Subscribing
      case SubscribedEvent(_, _, _, _) => Subscribed
      case UnsubscribedEvent(_) => Unsubscribed
      case _ => SubStateOf(log[..|log| - 1])
  }

  /** The client's state as its event stream tells it. */
  function ClientStateOf(log: seq<ClientEvent>): ClientState
    decreases |log|
  {
    if log == [] then Disconnected
    else match log[|log| - 1]
      case ConnectingEvent(_) => Connecting
      case ConnectedEvent => Connected
      case DisconnectedEvent(_) => Disconnected
      case _ => ClientStateOf(log[..|log| - 1])
  }

  /** Whether a server-side subscription is registered, as its event stream tells it. */
  function RegisteredIn(log: seq<ServerEvent>): bool
    decreases |log|
  {
    if log == [] then false
    else match log[|log| - 1]
      case ServerSubscribed(_) => true
      case ServerUnsubscribed(_) => false
      case _ => RegisteredIn(log[..|log| - 1])
  }

  ghost predicate SubAgrees(sub: SubState) { SubStateOf(sub.log) == sub.state }

  ghost predicate SubsAgree(subs: map<Channel, SubState>) { forall ch :: ch in subs ==> SubAgrees(subs[ch]) }

  ghost predicate ClientAgrees(l: Link, log: seq<ClientEvent>) {
    l.shared == AsU8(l.phase) && (!l.phase.Closed? ==> ClientStateOf(log) == l.phase)
  }

  ghost predicate ServersAgree(sv: Servers) {
    forall ch :: ch in sv.subs <==> RegisteredIn(Trace(sv.log, ch))
  }

  ghost predicate Observed(s: State) {
    SubsAgree(s.subs) && ClientAgrees(s.link, s.clientLog) && ServersAgree(s.servers)
  }

  /** The synchronous `state()` query decodes the shared byte to the actor's state. */
  lemma SharedStateDecodes(c: ClientState)
    ensures FromU8(AsU8(c)) == c
  {}

  // ---------- appending events ----------

  lemma SubAppend(log: seq<SubEvent>, e: SubEvent)
    ensures SubStateOf(log + [e]) ==
            match e
            case SubscribingEvent(_) => Subscribing
            case SubscribedEvent(_, _, _, _) => Subscribed
            case UnsubscribedEvent(_) => Unsubscribed
            case _ => SubStateOf(log)
  {}

  lemma ClientAppend(log: seq<ClientEvent>, e: ClientEvent)
    ensures ClientStateOf(log + [e]) ==
            match e
            case ConnectingEvent(_) => Connecting
            case ConnectedEvent => Connected
            case DisconnectedEvent(_) => Disconnected
            case _ => ClientStateOf(log)
  {}

  lemma ServerAppend(log: seq<ServerEvent>, e: ServerEvent)
    ensures RegisteredIn(log + [e]) ==
            match e
            case ServerSubscribed(_) => true
            case ServerUnsubscribed(_) => false
            case _ => RegisteredIn(log)
  {}

  lemma NoteAgrees(sv: Servers, chs: set<Channel>, e: ServerEvent)
    requires ServersAgree(sv)
    ensures e.ServerUnsubscribed? ==> ServersAgree(Servers(sv.subs - chs, Note(sv.log, chs, e)))
    ensures !e.ServerUnsubscribed? && !e.ServerSubscribed? ==> ServersAgree(Servers(sv.subs, Note(sv.log, chs, e)))
    ensures e.ServerSubscribed? ==>
              forall more: map<Channel, ServerSub> :: more.Keys == chs ==>
                  ServersAgree(Servers(sv.subs + more, Note(sv.log, chs, e)))
  {
    forall ch
      ensures Trace(Note(sv.log, chs, e), ch) == if ch in chs then Trace(sv.log, ch) + [e] else Trace(sv.log, ch)
      ensures RegisteredIn(Trace(sv.log, ch) + [e]) ==
              match e
              case ServerSubscribed(_) => true
              case ServerUnsubscribed(_) => false
              case _ => RegisteredIn(Trace(sv.log, ch))
    {
      ServerAppend(Trace(sv.log, ch), e);
    }
  }

  lemma {:induction false} ReceiveAllAgrees(sub: SubState, ps: seq<Publication>, protocol: ProtocolType)
    requires SubAgrees(sub)
    ensures SubAgrees(ReceiveAll(sub, ps, protocol))
    decreases |ps|
  {
    hide DeltaFormat.Apply;
    if ps != [] {
      var before := ReceiveAll(sub, ps[..|ps| - 1], protocol);
      ReceiveAllAgrees(sub, ps[..|ps| - 1], protocol);
      ReceiveAgrees(before, ps[|ps| - 1], protocol);
    }
  }

  lemma ReceiveAgrees(sub: SubState, p: Publication, protocol: ProtocolType)
    requires SubAgrees(sub)
    ensures SubAgrees(Receive(sub, p, protocol))
  {}

  lemma SucceedAgrees(sub: SubState, r: SubscribeResult, protocol: ProtocolType)
    requires SubAgrees(sub)
    ensures SubAgrees(Succeed(sub, r, protocol))
  {
    var c := Confirm(sub, r);
    SubAppend(sub.log, c.log[|c.log| - 1]);
    assert c.log == sub.log + [c.log[|c.log| - 1]];
    ReceiveAllAgrees(c, r.publications, protocol);
  }

  lemma EmittedAgrees(sub: SubState)
    requires SubAgrees(sub)
    ensures SubAgrees(CloseSub(sub)) && SubAgrees(Suspend(sub))
    ensures forall code :: SubAgrees(BackToSubscribing(sub, code)) && SubAgrees(Leave(sub, code))
    ensures SubAgrees(Emit(sub, ErrorEvent)) && SubAgrees(Emit(sub, JoinEvent)) && SubAgrees(Emit(sub, LeaveEvent))
  {}

  // ---------- handlers ----------

  lemma DisconnectedObserved(s: State, code: nat)
    requires Observed(s)
    ensures Observed(MoveToDisconnected(s, code))
  {
    hide SubAgrees, Note, RegisteredIn;
    forall ch | ch in s.subs { EmittedAgrees(s.subs[ch]); }
    NoteAgrees(s.servers, s.servers.subs.Keys, ServerUnsubscribed(code));
    assert s.servers.subs - s.servers.subs.Keys == map[];
    ClientAppend(s.clientLog, DisconnectedEvent(code));
  }

  lemma TransportCloseObserved(s: State, code: nat, reconnect: bool)
    requires Observed(s)
    ensures Observed(OnTransportClose(s, code, reconnect))
  {
    hide SubAgrees, Note, RegisteredIn, MoveToDisconnected;
    DisconnectedObserved(s, code);
    forall ch | ch in s.subs { EmittedAgrees(s.subs[ch]); }
    NoteAgrees(s.servers, s.servers.subs.Keys, ServerSubscribing(Codes.TRANSPORT_CLOSED));
    ClientAppend(s.clientLog, ConnectingEvent(code));
  }

  lemma ClosedObserved(s: State)
    requires Observed(s)
    ensures Observed(MoveToClosed(s))
  {}

  lemma ExpelObserved(s: State, ch: Channel, code: nat, err: ClientError)
    requires Observed(s)
    ensures Observed(Expel(s, ch, code, err))
  {}

  lemma RetryObserved(s: State, ch: Channel, token: string)
    requires Observed(s) && ch in s.subs
    ensures Observed(RetryLater(s, ch, token))
  {}

  /** Sending touches neither logs nor states. */
  lemma TransactObserved(s: State, body: Body, req: PendingRequest, fate: Fate)
    requires Observed(s)
    ensures Observed(Transact(s, body, req, fate))
  {}

  lemma SendSubscribeObserved(s: State, ch: Channel, sub: SubState, sender: Option<Handle>, fate: Fate)
    requires Observed(s) && SubAgrees(sub)
    ensures Observed(SendSubscribe(s, ch, sub, sender, fate))
  {}

  lemma DoSubscribeObserved(s: State, ch: Channel, o: Oracle)
    requires Observed(s)
    ensures Observed(DoSubscribe(s, ch, o))
  {
    hide SendSubscribe, Expel, RetryLater;
    if ch in s.subs && !s.subs[ch].state.Unsubscribed? {
      var sub := s.subs[ch];
      EmittedAgrees(sub);
      ExpelObserved(s, ch, Codes.UNSUBSCRIBED_UNAUTHORIZED, Unauthorized);
      RetryObserved(s, ch, sub.token);
      SendSubscribeObserved(s, ch, RefreshData(sub, o.data), None, o.fate);
      if o.token.Token? {
        EmittedAgrees(sub.(token := o.token.token));
        SendSubscribeObserved(s, ch, RefreshData(sub.(token := o.token.token), o.data), None, o.fate);
      }
    }
  }

  lemma SuccessObserved(s: State, ch: Channel, r: SubscribeResult)
    requires Observed(s)
    ensures Observed(HandleSubscribeSuccess(s, ch, r))
  {
    hide Succeed;
    if ch in s.subs { SucceedAgrees(s.subs[ch], r, s.config.protocol); }
  }

  lemma ResolveObserved(s: State, req: PendingRequest, r: Reply)
    requires Observed(s)
    ensures Observed(ResolvePending(s, req, r))
  {
    hide HandleSubscribeSuccess, Expel, RetryLater;
    if req.AwaitSubscribe? {
      SuccessObserved(s, req.channel, if r.subscribe.Some? then r.subscribe.value else EMPTY_RESULT);
      if req.channel in s.subs && r.error.Some? {
        ExpelObserved(s, req.channel, r.error.value.code, Server(r.error.value));
        RetryObserved(s, req.channel, "");
        RetryObserved(s, req.channel, s.subs[req.channel].token);
      }
    }
  }

  lemma ServerChange(s: State, chs: set<Channel>, e: ServerEvent)
    requires Observed(s)
    ensures e.ServerUnsubscribed? ==> ServersAgree(Servers(s.servers.subs - chs, Note(s.servers.log, chs, e)))
    ensures !e.ServerUnsubscribed? && !e.ServerSubscribed? ==>
        ServersAgree(Servers(s.servers.subs, Note(s.servers.log, chs, e)))
  {}

  lemma PublicationObserved(s: State, ch: Channel, p: Publication)
    requires Observed(s)
    ensures Observed(HandlePublication(s, ch, p))
  {
    hide Receive, Note, SubAgrees, RegisteredIn;
    if ch in s.subs {
      ReceiveAgrees(s.subs[ch], p, s.config.protocol);
    } else if ch in s.servers.subs {
      ServerChange(s, {ch}, ServerPublication(p.offset));
    }
  }

  lemma JoinLeaveObserved(s: State, ch: Channel, e: SubEvent, se: ServerEvent)
    requires Observed(s) && (e == JoinEvent || e == LeaveEvent) && (se.ServerJoin? || se.ServerLeave?)
    ensures Observed(HandleJoinLeave(s, ch, e, se))
  {}

  lemma ServerUnsubscribeObserved(s: State, ch: Channel, code: nat)
    requires Observed(s)
    ensures Observed(HandleServerUnsubscribe(s, ch, code))
  {}

  lemma ServerSubscribeObserved(s: State, ch: Channel, ss: ServerSub)
    requires Observed(s)
    ensures Observed(HandleServerSubscribe(s, ch, ss))
  {}

  lemma PushObserved(s: State, push: Push)
    requires Observed(s)
    ensures Observed(HandlePush(s, push))
  {
    hide OnTransportClose, MoveToDisconnected, HandlePublication, HandleJoinLeave, HandleServerUnsubscribe,
         HandleServerSubscribe;
    match push.body {
      case PublicationPush(p) => PublicationObserved(s, push.channel, p);
      case JoinPush => JoinLeaveObserved(s, push.channel, JoinEvent, ServerJoin);
      case LeavePush => JoinLeaveObserved(s, push.channel, LeaveEvent, ServerLeave);
      case UnsubscribePush(code) => ServerUnsubscribeObserved(s, push.channel, code);
      case SubscribePush(recoverable, offset, epoch) =>
        ServerSubscribeObserved(s, push.channel, ServerSub(recoverable, offset, epoch));
      case DisconnectPush(code) =>
        TransportCloseObserved(s, code, true);
        DisconnectedObserved(s, code);
      case MessagePush => ClientAppend(s.clientLog, MessageEvent);
      case EmptyPush =>
    }
  }

  lemma DispatchObserved(s: State, a: Arrival)
    requires Observed(s)
    ensures Observed(DispatchReply(s, a))
  {
    hide HandlePush, ResolvePending, SendCommand;
    if a.reply.id == 0 {
      if a.reply.push.Some? {
        PushObserved(s, a.reply.push.value);
      }
    } else if a.reply.id in s.calls.pending {
      ResolveObserved(TakeOut(s, a.reply.id), s.calls.pending[a.reply.id], a.reply);
    }
  }

  lemma {:induction false} DispatchAllObserved(s: State, arrivals: seq<Arrival>)
    requires Observed(s)
    ensures Observed(DispatchAll(s, arrivals))
    decreases |arrivals|
  {
    hide DispatchReply, Observed;
    if arrivals != [] {
      DispatchAllObserved(s, arrivals[..|arrivals| - 1]);
      DispatchObserved(DispatchAll(s, arrivals[..|arrivals| - 1]), arrivals[|arrivals| - 1]);
    }
  }

  // ---------- the connect cycle ----------

  lemma EmitErrorObserved(s: State)
    requires Observed(s)
    ensures Observed(EmitError(s))
  {}

  lemma FailureObserved(s: State, err: ClientError)
    requires Observed(s)
    ensures Observed(OnHandshakeFailure(s, err))
  {
    hide MoveToDisconnected, EmitError;
    var s1 := s.(link := Detach(s.link).(handshake := None));
    EmitErrorObserved(s1);
    if err.Server? {
      DisconnectedObserved(EmitError(s1), err.error.code);
    }
  }

  lemma RefreshTokenObserved(s: State, o: TokenOutcome)
    requires Observed(s)
    ensures Observed(RefreshTokenIfNeeded(s, o).0)
  {
    hide MoveToDisconnected, EmitError;
    EmitErrorObserved(s);
    DisconnectedObserved(s, Codes.DISCONNECT_UNAUTHORIZED);
  }

  lemma BeginObserved(s: State, o: Opening)
    requires Observed(s)
    ensures Observed(BeginAttempt(s, o))
  {
    hide RefreshTokenIfNeeded, EmitError, SendConnect;
    var s0 := s.(link := s.link.(attempts := s.link.attempts + 1));
    RefreshTokenObserved(s0, o.token);
    var s1 := RefreshTokenIfNeeded(s0, o.token).0;
    EmitErrorObserved(s1);
    EmitErrorObserved(Attach(s1));
    SendConnectObserved(RefreshConnectData(Attach(s1), o.data), o.fate);
  }

  lemma SendConnectObserved(s: State, fate: Fate)
    requires Observed(s)
    ensures Observed(SendConnect(s, fate))
  {}

  lemma {:induction false} PublicationTail(log: seq<ServerEvent>, ps: seq<Publication>)
    ensures RegisteredIn(log + PublicationEvents(ps)) == RegisteredIn(log)
    decreases |ps|
  {
    if ps == [] {
      assert log + PublicationEvents(ps) == log;
    } else {
      var prefix := ps[..|ps| - 1];
      PublicationTail(log, prefix);
      ServerAppend(log + PublicationEvents(prefix), ServerPublication(ps[|ps| - 1].offset));
      assert PublicationEvents(ps) == PublicationEvents(prefix) + [ServerPublication(ps[|ps| - 1].offset)];
      assert log + PublicationEvents(ps) == log + PublicationEvents(prefix) + [ServerPublication(ps[|ps| - 1].offset)];
    }
  }

  lemma RefreshedAgree(sv: Servers, r: ConnectResult, server: set<Channel>)
    requires ServersAgree(sv) && server <= r.subs.Keys
    ensures ServersAgree(RefreshedServers(sv, r, server))
  {
    forall ch | ch in server
      ensures RegisteredIn(Trace(RefreshedServers(sv, r, server).log, ch))
    {
      var before := Trace(sv.log, ch) + [ServerSubscribed(ch in sv.subs)];
      ServerAppend(Trace(sv.log, ch), ServerSubscribed(ch in sv.subs));
      PublicationTail(before, r.subs[ch].publications);
    }
  }

  lemma RouteObserved(s: State, r: ConnectResult)
    requires Observed(s)
    ensures Observed(ProcessServerSubs(s, r))
  {
    hide Note, SubAgrees, RegisteredIn, RefreshedServers, Succeed;
    forall ch | ch in s.subs && ch in r.subs {
      SucceedAgrees(s.subs[ch], r.subs[ch], s.config.protocol);
    }
    var sv := RefreshedServers(s.servers, r, r.subs.Keys - s.subs.Keys);
    RefreshedAgree(s.servers, r, r.subs.Keys - s.subs.Keys);
    NoteAgrees(sv, s.servers.subs.Keys - r.subs.Keys, ServerUnsubscribed(Codes.SERVER_SUB_REMOVED));
  }

  lemma EstablishObserved(s: State, r: ConnectResult)
    requires Observed(s)
    ensures Observed(Establish(s, r))
  {
    hide ProcessServerSubs;
    ClientAppend(s.clientLog, ConnectedEvent);
    RouteObserved(MoveToConnected(EndHandshake(s), r), r);
  }

  lemma {:induction false} ResubscribeObserved(s: State, plan: seq<Attempt>)
    requires Observed(s)
    ensures Observed(ResubscribeAll(s, plan))
    decreases |plan|
  {
    hide DoSubscribe, Observed;
    if plan != [] {
      var last := plan[|plan| - 1];
      ResubscribeObserved(s, plan[..|plan| - 1]);
      DoSubscribeObserved(ResubscribeAll(s, plan[..|plan| - 1]), last.channel, last.oracle);
    }
  }

  lemma HandshakeFrameObserved(s: State, id: nat, arrivals: seq<Arrival>, plan: seq<Attempt>)
    requires Observed(s)
    ensures Observed(HandshakeFrame(s, id, arrivals, plan))
  {
    hide DispatchAll, Establish, ResubscribeAll, OnHandshakeFailure;
    var n := Before(arrivals, id);
    var s1 := DispatchAll(s, arrivals[..n]);
    DispatchAllObserved(s, arrivals[..n]);
    if n < |arrivals| {
      match HandshakeResult(arrivals[n].reply) {
        case Err(e) => FailureObserved(s1, e);
        case Ok(r) =>
          EstablishObserved(s1, r);
          ResubscribeObserved(Establish(s1, r), plan);
      }
    }
  }

  // ---------- commands and timers ----------

  lemma SubscribeObserved(s: State, ch: Channel, h: Handle, fate: Fate)
    requires Observed(s)
    ensures Observed(HandleSubscribe(s, ch, h, fate))
  {
    hide SendSubscribe;
    if ch in s.subs {
      var sub := s.subs[ch].(attempts := 0);
      EmittedAgrees(sub);
      SendSubscribeObserved(s, ch, BackToSubscribing(sub, Codes.SUBSCRIBE_CALLED), Some(h), fate);
    }
  }

  lemma UnsubscribeObserved(s: State, ch: Channel, h: Handle, fate: Fate)
    requires Observed(s)
    ensures Observed(HandleUnsubscribe(s, ch, h, fate))
  {
    hide OnTransportClose, SendCommand;
    if ch in s.subs {
      EmittedAgrees(s.subs[ch]);
      var s1 := s.(subs := s.subs[ch := Leave(s.subs[ch], Codes.UNSUBSCRIBE_CALLED)]);
      TransportCloseObserved(Respond(SendUnsubscribe(s1, ch, fate), h, Done), Codes.UNSUBSCRIBE_ERROR, true);
    }
  }

  lemma CommandObserved(s: State, c: ActorCommand, fate: Fate)
    requires Observed(s)
    ensures Observed(HandleCommand(s, c, fate))
  {
    hide Transact, MoveToDisconnected, MoveToClosed, HandleSubscribe, HandleUnsubscribe, SendCommand;
    match c {
      case Connect(h) => ClientAppend(s.clientLog, ConnectingEvent(Codes.CONNECT_CALLED));
      case Disconnect(h) => DisconnectedObserved(s, Codes.DISCONNECT_CALLED);
      case Close(h) => ClosedObserved(s);
      case Subscribe(ch, h) => SubscribeObserved(s, ch, h, fate);
      case Unsubscribe(ch, h) => UnsubscribeObserved(s, ch, h, fate);
      case SendRequest(payload, h) => TransactObserved(s, RequestBody(payload), AwaitReply(h), fate);
      case _ =>
    }
  }

  lemma TimerObserved(s: State, t: Timer, o: Oracle)
    requires Observed(s)
    ensures Observed(HandleTimer(s, t, o))
  {
    hide Transact, MoveToDisconnected, OnTransportClose, DoSubscribe, EmitError, SendCommand;
    match t {
      case Resubscribe(ch) => DoSubscribeObserved(s, ch, o);
      case RequestTimeout(id) => TimeoutObserved(s, id);
      case RefreshToken =>
        EmitErrorObserved(s);
        DisconnectedObserved(s, Codes.DISCONNECT_UNAUTHORIZED);
        var s1 := if s.config.hasGetToken && o.token.Token? then s.(config := s.config.(token := o.token.token)) else s;
        TransactObserved(s1, RefreshBody(s1.config.token), AwaitRefresh, o.fate);
      case RefreshSubToken(ch) => RefreshSubObserved(s, ch, o.token, o.fate);
    }
  }

  lemma TimeoutObserved(s: State, id: nat)
    requires Observed(s)
    ensures Observed(HandleRequestTimeout(s, id))
  {
    hide OnTransportClose;
    if id in s.calls.pending {
      var req := s.calls.pending[id];
      var s1 := TakeOut(s, id);
      var s2 := s1.(desk := Tell(s1.desk, OptionSet(CallerOf(req)), Failed(Timeout)));
      if req.AwaitSubscribe? && req.channel in s.subs {
        TransportCloseObserved(DrainWaiters(s2, req.channel, Timeout), Codes.SUBSCRIBE_TIMEOUT, true);
      }
    }
  }

  lemma RefreshSubObserved(s: State, ch: Channel, o: TokenOutcome, fate: Fate)
    requires Observed(s)
    ensures Observed(DoRefreshSubToken(s, ch, o, fate))
  {
    hide Transact, Expel;
    if ch in s.subs {
      EmittedAgrees(s.subs[ch]);
      ExpelObserved(s, ch, Codes.UNSUBSCRIBED_UNAUTHORIZED, Unauthorized);
      if o.Token? {
        TransactObserved(s.(subs := s.subs[ch := s.subs[ch].(token := o.token)]), SubRefreshBody(ch, o.token),
            AwaitSubRefresh(ch), fate);
      }
    }
  }

  // ---------- runs ----------

  lemma StepObserved(s: State, i: Input)
    requires Observed(s)
    ensures Observed(Step(s, i))
  {
    hide HandleCommand, HandleTimer, BeginAttempt, HandshakeFrame, OnHandshakeFailure, DispatchAll, OnTransportClose;
    if Enabled(s, i) {
      match i {
        case Ask(c, fate) => CommandObserved(Admit(s, ReplyHandle(c)), c, fate);
        case Fire(t, o) => TimerObserved(Disarm(s, t), t, o);
        case Open(o) => BeginObserved(s, o);
        case Shake(arrivals, plan) => HandshakeFrameObserved(s, s.link.handshake.value, arrivals, plan);
        case ShakeFails(e) => FailureObserved(s, e);
        case Data(arrivals) => DispatchAllObserved(s, arrivals);
        case BadData => TransportCloseObserved(s, Codes.BAD_PROTOCOL, false);
        case TransportClosed(code, reconnect) => TransportCloseObserved(s, code, reconnect);
        case PingTimeout => TransportCloseObserved(s, Codes.NO_PING, true);
      }
    }
  }

  /** After every run the three event streams and the shared byte tell the actor's state. */
  lemma {:induction false} RunObserved(config: ClientConfig, inputs: seq<Input>)
    ensures Observed(Run(Init(config), inputs))
    decreases |inputs|
  {
    hide Step;
    if inputs != [] {
      RunObserved(config, inputs[..|inputs| - 1]);
      StepObserved(Run(Init(config), inputs[..|inputs| - 1]), inputs[|inputs| - 1]);
    }
  }
}
