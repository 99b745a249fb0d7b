/** What holds at every point where the actor takes its next command, timer or frame. */
module JointInvariant {
  import opened Prelude
  import Codes
  import opened Protocol
  import opened Subscriptions
  import opened ActorState

  ghost predicate LinkInv(l: Link) {
    && l.sink == l.stream
    && (l.sink ==> l.phase.Connected? || l.handshake.Some?)
    && (l.phase.Connecting? ==> l.connectRequested)
    && (l.phase.Disconnected? ==> !l.connectRequested)
    && (l.phase.Connected? ==> l.attempts == 0 && l.handshake.None?)
    && (l.handshake.Some? ==> l.phase.Connecting? || l.phase.Disconnected?)
  }

  ghost predicate NoneSubscribed(subs: map<Channel, SubState>) {
    forall ch :: ch in subs ==> !subs[ch].state.Subscribed?
  }

  /** Whoever waits for a subscription waits for it to become subscribed. */
  ghost predicate NobodyWaitsSubscribed(subs: map<Channel, SubState>) {
    forall ch :: ch in subs && subs[ch].state.Subscribed? ==> subs[ch].waiters == []
  }

  /** The clauses that also hold while a successful handshake is being completed. */
  ghost predicate Core(s: State) {
    && LinkInv(s.link)
    && (!s.link.phase.Connected? ==> s.calls.pending == map[] && NoneSubscribed(s.subs))
    && (s.out.batch.queue != [] ==> s.out.batch.active)
    && NobodyWaitsSubscribed(s.subs)
  }

  ghost predicate Joint(s: State) {
    Core(s) && (s.desk.connectWaiters != [] ==> s.link.phase.Connecting?)
  }

  lemma DisconnectedJoint(s: State, code: nat)
    requires Core(s)
    ensures Joint(MoveToDisconnected(s, code))
  {}

  lemma ClosedJoint(s: State)
    requires Core(s) && s.link.handshake.None?
    ensures Joint(MoveToClosed(s))
  {}

  lemma TransportCloseJoint(s: State, code: nat, reconnect: bool)
    requires Joint(s)
    ensures Joint(OnTransportClose(s, code, reconnect))
  {}

  lemma TransactKeeps(s: State, body: Body, req: PendingRequest, fate: Fate)
    requires Core(s) && s.link.phase.Connected?
    ensures Core(Transact(s, body, req, fate)) && Transact(s, body, req, fate).link == s.link
    ensures Transact(s, body, req, fate).desk.connectWaiters == s.desk.connectWaiters
  {}

  lemma DoSubscribeKeeps(s: State, ch: Channel, o: Oracle)
    requires Core(s) && s.link.phase.Connected?
    ensures Core(DoSubscribe(s, ch, o)) && DoSubscribe(s, ch, o).link == s.link
    ensures DoSubscribe(s, ch, o).desk.connectWaiters == s.desk.connectWaiters
  {
    hide Transact, BuildRequest;
    if ch in s.subs {
      var sub := s.subs[ch];
      var sub1 := RefreshData(if NeedsToken(sub) && o.token.Token? then sub.(token := o.token.token) else sub, o.data);
      TransactKeeps(s.(subs := s.subs[ch := sub1]), SubscribeBody(BuildRequest(ch, sub1)), AwaitSubscribe(ch, None),
          o.fate);
    }
  }

  lemma DisconnectPushKeeps(s: State, code: nat)
    requires Joint(s)
    ensures Joint(HandleDisconnectPush(s, code))
  {
    hide OnTransportClose, MoveToDisconnected;
    TransportCloseJoint(s, code, true);
    DisconnectedJoint(s, code);
  }

  lemma PublicationKeeps(s: State, ch: Channel, p: Publication)
    requires Joint(s)
    ensures Joint(HandlePublication(s, ch, p))
  {}

  lemma ServerUnsubscribeKeeps(s: State, ch: Channel, code: nat)
    requires Joint(s)
    ensures Joint(HandleServerUnsubscribe(s, ch, code))
  {}

  lemma JoinLeaveKeeps(s: State, ch: Channel, e: SubEvent, se: ServerEvent)
    requires Joint(s)
    ensures Joint(HandleJoinLeave(s, ch, e, se))
  {}

  lemma PushKeeps(s: State, push: Push)
    requires Joint(s)
    ensures Joint(HandlePush(s, push))
  {
    hide HandlePublication, HandleJoinLeave, HandleServerUnsubscribe, HandleDisconnectPush;
    match push.body {
      case PublicationPush(p) => PublicationKeeps(s, push.channel, p);
      case JoinPush => JoinLeaveKeeps(s, push.channel, JoinEvent, ServerJoin);
      case LeavePush => JoinLeaveKeeps(s, push.channel, LeaveEvent, ServerLeave);
      case UnsubscribePush(code) => ServerUnsubscribeKeeps(s, push.channel, code);
      case DisconnectPush(code) => DisconnectPushKeeps(s, code);
      case _ =>
    }
  }

  lemma ResolveKeeps(s: State, req: PendingRequest, r: Reply)
    requires Joint(s) && s.link.phase.Connected?
    ensures Joint(ResolvePending(s, req, r))
  {}

  lemma DispatchKeeps(s: State, a: Arrival)
    requires Joint(s)
    ensures Joint(DispatchReply(s, a))
  {
    hide HandlePush, ResolvePending;
    if a.reply.id == 0 {
      if a.reply.push.Some? {
        PushKeeps(s, a.reply.push.value);
      }
    } else if a.reply.id in s.calls.pending {
      ResolveKeeps(TakeOut(s, a.reply.id), s.calls.pending[a.reply.id], a.reply);
    }
  }

  lemma {:induction false} DispatchAllKeeps(s: State, arrivals: seq<Arrival>)
    requires Joint(s)
    ensures Joint(DispatchAll(s, arrivals))
    decreases |arrivals|
  {
    hide DispatchReply;
    if arrivals != [] {
      DispatchAllKeeps(s, arrivals[..|arrivals| - 1]);
      DispatchKeeps(DispatchAll(s, arrivals[..|arrivals| - 1]), arrivals[|arrivals| - 1]);
    }
  }

  // ---------- the connect cycle ----------

  lemma FailureKeeps(s: State, err: ClientError)
    requires Joint(s) && !s.link.phase.Connected?
    ensures Joint(OnHandshakeFailure(s, err))
  {
    hide MoveToDisconnected;
    var s1 := EmitError(s.(link := Detach(s.link).(handshake := None)));
    if err.Server? { DisconnectedJoint(s1, err.error.code); }
  }

  lemma RefreshTokenKeeps(s: State, o: TokenOutcome)
    requires Joint(s) && s.link.handshake.None? && s.link.phase.Connecting?
    ensures Joint(RefreshTokenIfNeeded(s, o).0) && RefreshTokenIfNeeded(s, o).0.link.handshake.None?
    ensures !RefreshTokenIfNeeded(s, o).0.link.phase.Connected? && !RefreshTokenIfNeeded(s, o).0.link.phase.Closed?
  {}

  /** The state in which the connect command goes out: attached, but not yet waiting. */
  ghost predicate Dialling(s: State) {
    && s.link.sink && s.link.stream && s.link.handshake.None?
    && Joint(s.(link := Detach(s.link))) && (s.link.phase.Connecting? || s.link.phase.Disconnected?)
  }

  lemma SendConnectKeeps(s: State, fate: Fate)
    requires Dialling(s)
    ensures Joint(SendConnect(s, fate))
  {}

  lemma BeginKeeps(s: State, o: Opening)
    requires Joint(s) && s.link.handshake.None? && s.link.phase.Connecting?
    ensures Joint(BeginAttempt(s, o))
  {
    hide RefreshTokenIfNeeded, SendConnect;
    var s0 := s.(link := s.link.(attempts := s.link.attempts + 1));
    RefreshTokenKeeps(s0, o.token);
    var s1 := RefreshTokenIfNeeded(s0, o.token).0;
    SendConnectKeeps(RefreshConnectData(Attach(s1), o.data), o.fate);
  }

  lemma EstablishKeeps(s: State, r: ConnectResult)
    requires Joint(s) && s.link.handshake.Some?
    ensures Core(Establish(s, r)) && Establish(s, r).link.phase.Connected?
  {}

  lemma {:induction false} ResubscribeKeeps(s: State, plan: seq<Attempt>)
    requires Core(s) && s.link.phase.Connected?
    ensures Core(ResubscribeAll(s, plan)) && ResubscribeAll(s, plan).link == s.link
    decreases |plan|
  {
    hide DoSubscribe;
    if plan != [] {
      var last := plan[|plan| - 1];
      ResubscribeKeeps(s, plan[..|plan| - 1]);
      DoSubscribeKeeps(ResubscribeAll(s, plan[..|plan| - 1]), last.channel, last.oracle);
    }
  }

  lemma FinishKeeps(s: State, r: Reply, plan: seq<Attempt>)
    requires Joint(s) && s.link.handshake.Some?
    ensures Joint(FinishHandshake(s, r, plan))
  {
    hide Establish, ResubscribeAll, OnHandshakeFailure;
    match HandshakeResult(r) {
      case Err(e) => FailureKeeps(s, e);
      case Ok(result) =>
        EstablishKeeps(s, result);
        ResubscribeKeeps(Establish(s, result), plan);
    }
  }

  /** Replies dispatched during the handshake leave it waiting for the same id. */
  lemma {:induction false} DispatchWaits(s: State, arrivals: seq<Arrival>)
    requires Joint(s) && s.link.handshake.Some?
    ensures DispatchAll(s, arrivals).link.handshake == s.link.handshake
    decreases |arrivals|
  {
    hide DispatchReply;
    if arrivals != [] {
      var s1 := DispatchAll(s, arrivals[..|arrivals| - 1]);
      DispatchWaits(s, arrivals[..|arrivals| - 1]);
      DispatchAllKeeps(s, arrivals[..|arrivals| - 1]);
      DispatchKeepsHandshake(s1, arrivals[|arrivals| - 1]);
    }
  }

  lemma DispatchKeepsHandshake(s: State, a: Arrival)
    ensures DispatchReply(s, a).link.handshake == s.link.handshake
  {
    hide Tell, Note, CloseAll, SuspendAll, Succeed, Receive, SendCommand, CallersIn, WaitersIn;
  }

  lemma HandshakeFrameKeeps(s: State, arrivals: seq<Arrival>, plan: seq<Attempt>)
    requires Joint(s) && s.link.handshake.Some?
    ensures Joint(HandshakeFrame(s, s.link.handshake.value, arrivals, plan))
  {
    hide DispatchAll, FinishHandshake;
    var n := Before(arrivals, s.link.handshake.value);
    DispatchAllKeeps(s, arrivals[..n]);
    DispatchWaits(s, arrivals[..n]);
    if n < |arrivals| {
      FinishKeeps(DispatchAll(s, arrivals[..n]), arrivals[n].reply, plan);
    }
  }

  // ---------- commands and timers ----------

  lemma SubscribeKeeps(s: State, ch: Channel, h: Handle, fate: Fate)
    requires Joint(s)
    ensures Joint(HandleSubscribe(s, ch, h, fate))
  {
    if ch in s.subs && s.link.phase.Connected? {
      hide Transact;
      var sub := BackToSubscribing(s.subs[ch].(attempts := 0), Codes.SUBSCRIBE_CALLED);
      TransactKeeps(s.(subs := s.subs[ch := sub]), SubscribeBody(BuildRequest(ch, sub)), AwaitSubscribe(ch, Some(h)),
          fate);
    }
  }

  lemma UnsubscribeKeeps(s: State, ch: Channel, h: Handle, fate: Fate)
    requires Joint(s)
    ensures Joint(HandleUnsubscribe(s, ch, h, fate))
  {
    hide OnTransportClose;
    if ch in s.subs {
      var s1 := s.(subs := s.subs[ch := Leave(s.subs[ch], Codes.UNSUBSCRIBE_CALLED)]);
      TransportCloseJoint(Respond(SendUnsubscribe(s1, ch, fate), h, Done), Codes.UNSUBSCRIBE_ERROR, true);
    }
  }

  lemma RemoveKeeps(s: State, ch: Channel, h: Handle, fate: Fate)
    requires Joint(s)
    ensures Joint(HandleRemoveSubscription(s, ch, h, fate))
  {}

  lemma CommandKeeps(s: State, c: ActorCommand, fate: Fate)
    requires Joint(s) && TakesCommands(s)
    ensures Joint(HandleCommand(s, c, fate))
  {
    hide Core, Transact, MoveToDisconnected, MoveToClosed, HandleSubscribe, HandleUnsubscribe,
         HandleRemoveSubscription, FlushBatch, HandleConnect, HandleNewSubscription, Post, Respond;
    match c {
      case Disconnect(h) =>
        DisconnectedJoint(s, Codes.DISCONNECT_CALLED);
        RespondKeeps(MoveToDisconnected(s, Codes.DISCONNECT_CALLED), h, Done);
      case Close(h) =>
        ClosedJoint(s);
        RespondKeeps(MoveToClosed(s), h, Done);
      case RemoveSubscription(ch, h) => RemoveKeeps(s, ch, h, fate);
      case Subscribe(ch, h) => SubscribeKeeps(s, ch, h, fate);
      case Unsubscribe(ch, h) => UnsubscribeKeeps(s, ch, h, fate);
      case SendRequest(payload, h) =>
        if s.link.phase.Connected? {
          TransactKeeps(s, RequestBody(payload), AwaitReply(h), fate);
        } else {
          RespondKeeps(s, h, Failed(ClientDisconnected));
        }
      case StopBatching => FlushKeeps(s, fate);
      case _ => QuietCommandKeeps(s, c, fate);
    }
  }

  lemma RespondKeeps(s: State, h: Handle, a: Answer)
    requires Joint(s)
    ensures Joint(Respond(s, h, a))
  {}

  lemma QuietCommandKeeps(s: State, c: ActorCommand, fate: Fate)
    requires Joint(s) && TakesCommands(s)
    requires c.Connect? || c.NewSubscription? || c.GetSubscription? || c.ListSubscriptions?
          || c.Send? || c.SetToken? || c.SetData? || c.StartBatching?
    ensures Joint(HandleCommand(s, c, fate))
  {}

  lemma FlushKeeps(s: State, fate: Fate)
    requires Joint(s)
    ensures Joint(s.(out := FlushBatch(s.out, s.link, fate)))
  {}

  lemma RequestTimeoutKeeps(s: State, id: nat)
    requires Joint(s)
    ensures Joint(HandleRequestTimeout(s, id))
  {
    hide OnTransportClose;
    if id in s.calls.pending {
      var req := s.calls.pending[id];
      var s1 := TakeOut(s, id);
      var s2 := s1.(desk := Tell(s1.desk, OptionSet(CallerOf(req)), Failed(Timeout)));
      if req.AwaitSubscribe? && req.channel in s.subs {
        TransportCloseJoint(DrainWaiters(s2, req.channel, Timeout), Codes.SUBSCRIBE_TIMEOUT, true);
      }
    }
  }

  lemma RefreshKeeps(s: State, o: TokenOutcome, fate: Fate)
    requires Joint(s)
    ensures Joint(DoRefreshToken(s, o, fate))
  {
    hide Transact, MoveToDisconnected;
    DisconnectedJoint(s, Codes.DISCONNECT_UNAUTHORIZED);
    var s1 := if s.config.hasGetToken && o.Token? then s.(config := s.config.(token := o.token)) else s;
    if s.link.phase.Connected? {
      TransactKeeps(s1, RefreshBody(s1.config.token), AwaitRefresh, fate);
    }
  }

  lemma RefreshSubKeeps(s: State, ch: Channel, o: TokenOutcome, fate: Fate)
    requires Joint(s)
    ensures Joint(DoRefreshSubToken(s, ch, o, fate))
  {}

  lemma TimerKeeps(s: State, t: Timer, o: Oracle)
    requires Joint(s)
    ensures Joint(HandleTimer(s, t, o))
  {
    hide DoSubscribe, HandleRequestTimeout, DoRefreshToken, DoRefreshSubToken;
    match t {
      case Resubscribe(ch) =>
        if s.link.phase.Connected? {
          DoSubscribeKeeps(s, ch, o);
        }
      case RequestTimeout(id) => RequestTimeoutKeeps(s, id);
      case RefreshToken => RefreshKeeps(s, o.token, o.fate);
      case RefreshSubToken(ch) => RefreshSubKeeps(s, ch, o.token, o.fate);
    }
  }

  // ---------- runs ----------

  lemma StepKeeps(s: State, i: Input)
    requires Joint(s)
    ensures Joint(Step(s, i))
  {
    hide HandleCommand, HandleTimer, BeginAttempt, HandshakeFrame, OnHandshakeFailure, DispatchAll, OnTransportClose;
    if Enabled(s, i) {
      match i {
        case Ask(c, fate) => CommandKeeps(Admit(s, ReplyHandle(c)), c, fate);
        case Fire(t, o) => TimerKeeps(Disarm(s, t), t, o);
        case Open(o) => BeginKeeps(s, o);
        case Shake(arrivals, plan) => HandshakeFrameKeeps(s, arrivals, plan);
        case ShakeFails(e) => FailureKeeps(s, e);
        case Data(arrivals) => DispatchAllKeeps(s, arrivals);
        case BadData => TransportCloseJoint(s, Codes.BAD_PROTOCOL, false);
        case TransportClosed(code, reconnect) => TransportCloseJoint(s, code, reconnect);
        case PingTimeout => TransportCloseJoint(s, Codes.NO_PING, true);
      }
    }
  }

  /** The joint invariant holds after every run. */
  lemma {:induction false} RunJoint(config: ClientConfig, inputs: seq<Input>)
    ensures Joint(Run(Init(config), inputs))
    decreases |inputs|
  {
    hide Step;
    if inputs != [] {
      RunJoint(config, inputs[..|inputs| - 1]);
      StepKeeps(Run(Init(config), inputs[..|inputs| - 1]), inputs[|inputs| - 1]);
    }
  }
}
