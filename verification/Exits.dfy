/** Nobody is left waiting when the client leaves the connected state for good. */
module Exits {
  import Codes
  import opened Protocol
  import opened Subscriptions
  import opened ActorState
  import opened JointInvariant
  import SubHistory

  /** Everybody who waits for the connection, a reply or an active subscription. */
  function Awaiting(s: State): set<Handle> {
    CallersIn(s.calls.pending) + SetOf(s.desk.connectWaiters) + WaitersIn(s.subs, Active(s.subs))
  }

  predicate HasLeft(s: State) { s.link.phase.Disconnected? || s.link.phase.Closed? }

  /**
   From `s` to `t` all who waited were answered; nothing is pending, and a subscription that still has
   waiters is one that was unsubscribed, with those waiters, before.
   */
  ghost predicate NobodyLeft(s: State, t: State) {
    && Awaiting(s) <= t.desk.answers.Keys
    && t.calls.pending == map[] && t.desk.connectWaiters == []
    && forall ch :: ch in t.subs ==>
         && t.subs[ch].state.Unsubscribed?
         && (t.subs[ch].waiters == []
             || (ch in s.subs && s.subs[ch].state.Unsubscribed? && t.subs[ch].waiters == s.subs[ch].waiters))
  }

  lemma DisconnectLeaves(s: State, code: nat)
    requires s.link.phase.Connected?
    ensures NobodyLeft(s, MoveToDisconnected(s, code))
  {
    hide Note;
  }

  lemma CloseLeaves(s: State)
    ensures NobodyLeft(s, MoveToClosed(s))
  {}

  lemma TransportLeaves(s: State, code: nat, reconnect: bool)
    requires s.link.phase.Connected?
    ensures HasLeft(OnTransportClose(s, code, reconnect)) ==> NobodyLeft(s, OnTransportClose(s, code, reconnect))
  {
    hide MoveToDisconnected, NobodyLeft, Note, Tell, SuspendAll;
    DisconnectLeaves(s, code);
  }

  /** A state before the exit with fewer waiters, the others answered. */
  lemma LeavesFrom(s: State, m: State, t: State)
    requires NobodyLeft(m, t)
    requires Awaiting(s) <= Awaiting(m) + m.desk.answers.Keys && m.desk.answers.Keys <= t.desk.answers.Keys
    requires forall ch :: ch in m.subs && m.subs[ch].state.Unsubscribed? && m.subs[ch].waiters != [] ==>
               ch in s.subs && s.subs[ch].state.Unsubscribed? && s.subs[ch].waiters == m.subs[ch].waiters
    ensures NobodyLeft(s, t)
  {}

  lemma AnswersStay(s: State, code: nat, reconnect: bool)
    ensures s.desk.answers.Keys <= MoveToDisconnected(s, code).desk.answers.Keys
    ensures s.desk.answers.Keys <= OnTransportClose(s, code, reconnect).desk.answers.Keys
  {
    hide Note, CloseAll, SuspendAll, WaitersIn, CallersIn;
  }

  lemma UnsubscribeLeaves(s: State, ch: Channel, h: Handle, fate: Fate)
    requires Joint(s) && s.link.phase.Connected?
    ensures var t := HandleUnsubscribe(s, ch, h, fate); HasLeft(t) ==> NobodyLeft(s, t)
  {
    hide OnTransportClose, SendCommand, NobodyLeft, CallersIn, Awaiting;
    if ch in s.subs && s.subs[ch].state.Subscribed? {
      var s1 := s.(subs := s.subs[ch := Leave(s.subs[ch], Codes.UNSUBSCRIBE_CALLED)]);
      var m := Respond(SendUnsubscribe(s1, ch, fate), h, Done);
      TransportLeaves(m, Codes.UNSUBSCRIBE_ERROR, true);
      AnswersStay(m, Codes.UNSUBSCRIBE_ERROR, true);
      assert Awaiting(s) <= Awaiting(m) by { AwaitingSame(s, m, ch); }
      var t := OnTransportClose(m, Codes.UNSUBSCRIBE_ERROR, true);
      if HasLeft(t) { LeavesFrom(s, m, t); }
    }
  }

  /** A subscription without waiters may go without anybody being forgotten. */
  lemma AwaitingSame(s: State, m: State, ch: Channel)
    requires m.calls.pending == s.calls.pending && m.desk.connectWaiters == s.desk.connectWaiters
    requires ch in s.subs && s.subs[ch].waiters == [] && m.subs.Keys == s.subs.Keys
    requires forall c :: c in s.subs && c != ch ==> m.subs[c] == s.subs[c]
    ensures Awaiting(s) <= Awaiting(m)
  {
    hide CallersIn, SetOf;
    forall h | h in WaitersIn(s.subs, Active(s.subs))
      ensures h in WaitersIn(m.subs, Active(m.subs))
    {
      var c :| c in Active(s.subs) && h in s.subs[c].waiters;
      assert c in Active(m.subs) && h in m.subs[c].waiters;
    }
  }

  lemma TimeoutLeaves(s: State, id: nat)
    requires s.link.phase.Connected?
    ensures var t := HandleRequestTimeout(s, id); HasLeft(t) ==> NobodyLeft(s, t)
  {
    hide OnTransportClose, NobodyLeft, Awaiting;
    if id in s.calls.pending {
      var req := s.calls.pending[id];
      var s1 := TakeOut(s, id);
      var s2 := s1.(desk := Tell(s1.desk, OptionSet(CallerOf(req)), Failed(Timeout)));
      if req.AwaitSubscribe? && req.channel in s.subs {
        var m := DrainWaiters(s2, req.channel, Timeout);
        TransportLeaves(m, Codes.SUBSCRIBE_TIMEOUT, true);
        AnswersStay(m, Codes.SUBSCRIBE_TIMEOUT, true);
        var t := OnTransportClose(m, Codes.SUBSCRIBE_TIMEOUT, true);
        TakenOutAwaiting(s, id, m);
        if HasLeft(t) { LeavesFrom(s, m, t); }
      }
    }
  }

  /** Those a timeout takes off the lists have been answered. */
  lemma TakenOutAwaiting(s: State, id: nat, m: State)
    requires id in s.calls.pending && s.calls.pending[id].AwaitSubscribe? && s.calls.pending[id].channel in s.subs
    requires var req := s.calls.pending[id];
      var s1 := TakeOut(s, id);
      m == DrainWaiters(s1.(desk := Tell(s1.desk, OptionSet(CallerOf(req)), Failed(Timeout))), req.channel, Timeout)
    ensures Awaiting(s) <= Awaiting(m) + m.desk.answers.Keys
  {
    var req := s.calls.pending[id];
    forall h | h in Awaiting(s)
      ensures h in Awaiting(m) + m.desk.answers.Keys
    {
      if h in CallersIn(s.calls.pending) {
        var k :| k in s.calls.pending && CallerOf(s.calls.pending[k]).Some? && CallerOf(s.calls.pending[k]).value == h;
        if k != id { assert k in m.calls.pending && m.calls.pending[k] == s.calls.pending[k]; }
      } else if h in WaitersIn(s.subs, Active(s.subs)) {
        var c :| c in Active(s.subs) && h in s.subs[c].waiters;
        if c != req.channel { assert c in Active(m.subs) && h in m.subs[c].waiters; }
      }
    }
  }

  lemma CommandLeaves(s: State, c: ActorCommand, fate: Fate)
    requires Joint(s) && s.link.phase.Connected?
    ensures var t := HandleCommand(s, c, fate); HasLeft(t) ==> NobodyLeft(s, t)
  {
    hide MoveToDisconnected, MoveToClosed, HandleUnsubscribe, HandleSubscribe, Transact, FlushBatch, SendCommand, Tell;
    match c {
      case Disconnect(h) =>
        var m := MoveToDisconnected(s, Codes.DISCONNECT_CALLED);
        DisconnectLeaves(s, Codes.DISCONNECT_CALLED);
        RespondLeaves(s, m, h, Done);
      case Close(h) =>
        CloseLeaves(s);
        RespondLeaves(s, MoveToClosed(s), h, Done);
      case Unsubscribe(ch, h) => UnsubscribeLeaves(s, ch, h, fate);
      case Subscribe(ch, h) => SubscribeStays(s, ch, h, fate);
      case SendRequest(payload, h) => TransactStays(s, RequestBody(payload), AwaitReply(h), fate);
      case _ =>
    }
  }

  lemma RespondLeaves(s: State, t: State, h: Handle, a: Answer)
    requires NobodyLeft(s, t)
    ensures NobodyLeft(s, Respond(t, h, a))
  {}

  lemma TransactStays(s: State, body: Body, req: PendingRequest, fate: Fate)
    ensures Transact(s, body, req, fate).link == s.link
  {}

  lemma SubscribeStays(s: State, ch: Channel, h: Handle, fate: Fate)
    ensures HandleSubscribe(s, ch, h, fate).link == s.link
  {}

  lemma TimerLeaves(s: State, t: Timer, o: Oracle)
    requires s.link.phase.Connected?
    ensures var u := HandleTimer(s, t, o); HasLeft(u) ==> NobodyLeft(s, u)
  {
    hide MoveToDisconnected, HandleRequestTimeout, DoSubscribe, Transact, SendFails, Tell, NobodyLeft;
    match t {
      case Resubscribe(ch) => SubHistory.SubscribeUnmoved(s, ch, o, ch);
      case RequestTimeout(id) => TimeoutLeaves(s, id);
      case RefreshToken =>
        DisconnectLeaves(s, Codes.DISCONNECT_UNAUTHORIZED);
        var s1 := if s.config.hasGetToken && o.token.Token? then s.(config := s.config.(token := o.token.token)) else s;
        TransactStays(s1, RefreshBody(s1.config.token), AwaitRefresh, o.fate);
      case RefreshSubToken(ch) =>
        if ch in s.subs && o.token.Token? {
          TransactStays(s.(subs := s.subs[ch := s.subs[ch].(token := o.token.token)]),
              SubRefreshBody(ch, o.token.token), AwaitSubRefresh(ch), o.fate);
        }
    }
  }

  lemma ReplyLeaves(s: State, a: Arrival)
    requires s.link.phase.Connected?
    ensures var t := DispatchReply(s, a); HasLeft(t) ==> NobodyLeft(s, t)
  {
    hide OnTransportClose, MoveToDisconnected, ResolvePending, SendCommand, Receive, Note, NobodyLeft;
    if a.reply.id == 0 && a.reply.push.Some? && a.reply.push.value.body.DisconnectPush? {
      TransportLeaves(s, a.reply.push.value.body.code, true);
      DisconnectLeaves(s, a.reply.push.value.body.code);
    } else if a.reply.id != 0 && a.reply.id in s.calls.pending {
      ResolveStays(TakeOut(s, a.reply.id), s.calls.pending[a.reply.id], a.reply);
    }
  }

  lemma ResolveStays(s: State, req: PendingRequest, r: Reply)
    ensures ResolvePending(s, req, r).link.phase == s.link.phase
  {
    hide Succeed, Tell, Leave;
  }

  /**
   Every step but a frame that takes a reached state from connected to disconnected or closed leaves
   nobody waiting.
   */
  lemma ExitsLeaveNobody(config: ClientConfig, inputs: seq<Input>, i: Input)
    requires !i.Data? && Run(Init(config), inputs).link.phase.Connected?
    requires HasLeft(Step(Run(Init(config), inputs), i))
    ensures NobodyLeft(Run(Init(config), inputs), Step(Run(Init(config), inputs), i))
  {
    hide Run, HandleCommand, HandleTimer, OnTransportClose, NobodyLeft, BeginAttempt, OnHandshakeFailure;
    RunJoint(config, inputs);
    var s := Run(Init(config), inputs);
    match i {
      case Ask(c, fate) =>
        CommandLeaves(Admit(s, ReplyHandle(c)), c, fate);
        NotedLeaves(s, Admit(s, ReplyHandle(c)), Step(s, i));
      case Fire(t, o) =>
        TimerLeaves(Disarm(s, t), t, o);
        NotedLeaves(s, Disarm(s, t), Step(s, i));
      case BadData => TransportLeaves(s, Codes.BAD_PROTOCOL, false);
      case TransportClosed(code, reconnect) => TransportLeaves(s, code, reconnect);
      case PingTimeout => TransportLeaves(s, Codes.NO_PING, true);
      case _ =>
    }
  }

  lemma NotedLeaves(s: State, m: State, t: State)
    requires NobodyLeft(m, t) && m.subs == s.subs && m.calls.pending == s.calls.pending
    requires m.desk.connectWaiters == s.desk.connectWaiters
    ensures NobodyLeft(s, t)
  {}

  /** Within a frame it is the reply that takes the client out which leaves nobody waiting. */
  lemma ReplyExitsLeaveNobody(config: ClientConfig, inputs: seq<Input>, arrivals: seq<Arrival>, n: nat)
    requires n < |arrivals| && Enabled(Run(Init(config), inputs), Data(arrivals))
    requires DispatchAll(Run(Init(config), inputs), arrivals[..n]).link.phase.Connected?
    requires HasLeft(DispatchAll(Run(Init(config), inputs), arrivals[..n + 1]))
    ensures NobodyLeft(DispatchAll(Run(Init(config), inputs), arrivals[..n]),
        DispatchAll(Run(Init(config), inputs), arrivals[..n + 1]))
  {
    hide Run, NobodyLeft, DispatchReply;
    assert arrivals[..n + 1][..n] == arrivals[..n];
    ReplyLeaves(DispatchAll(Run(Init(config), inputs), arrivals[..n]), arrivals[n]);
  }
}
