/** Command ids: who they stand for, for as long as the u32 counter has not wrapped. */
module RequestIdentity {
  import opened Prelude
  import Codes
  import opened Protocol
  import opened Subscriptions
  import opened ActorState

  /** The first `n` ids are non-zero and distinct exactly as long as `n < 2^32`. */
  lemma IdsExact(n: nat)
    ensures (forall i, j :: 0 <= i < j < n ==> IdAt(i) != IdAt(j)) && (forall i :: 0 <= i < n ==> IdAt(i) != 0)
       <==> n < TWO_32
  {
    if n >= TWO_32 {
      assert IdAt(TWO_32 - 1) == 0;
    }
  }

  /** The command `id` was taken for `body`. */
  ghost predicate TakenFor(issued: seq<Issued>, id: nat, body: Body) {
    1 <= id <= |issued| && issued[id - 1].body == body
  }

  /** `req` is the request that was registered when `id` was taken. */
  ghost predicate Fits(issued: seq<Issued>, id: nat, req: PendingRequest) {
    && 1 <= id <= |issued|
    && issued[id - 1].caller == CallerOf(req)
    && match req
       case AwaitSubscribe(ch, _) => issued[id - 1].body.SubscribeBody? && issued[id - 1].body.request.channel == ch
       case AwaitReply(_) => issued[id - 1].body.RequestBody?
       case AwaitRefresh => issued[id - 1].body.RefreshBody?
       case AwaitSubRefresh(ch) => issued[id - 1].body.SubRefreshBody? && issued[id - 1].body.channel == ch
  }

  ghost predicate CallsOk(c: Calls) {
    && (forall id :: id in c.pending ==> Fits(c.issued, id, c.pending[id]))
    && (forall id: nat :: RequestTimeout(id) in c.timers ==>
          1 <= id <= |c.issued| && (c.issued[id - 1].body.SubscribeBody? || c.issued[id - 1].body.RequestBody?))
  }

  ghost predicate CommandOk(issued: seq<Issued>, cmd: Command) {
    cmd.id != 0 ==> TakenFor(issued, cmd.id, cmd.body)
  }

  ghost predicate OutOk(issued: seq<Issued>, o: Out) {
    && (forall i :: 0 <= i < |o.batch.queue| ==> CommandOk(issued, o.batch.queue[i].command))
    && (forall i :: 0 <= i < |o.wire| ==> CommandOk(issued, o.wire[i].outgoing.command))
  }

  ghost predicate HandshakeOk(issued: seq<Issued>, l: Link) {
    l.handshake.Some? ==>
      1 <= l.handshake.value <= |issued| && issued[l.handshake.value - 1].body.ConnectBody?
  }

  /** Until 2^32 commands have been issued, every id in sight leads back to its one command. */
  ghost predicate Identified(s: State) {
    |s.calls.issued| < TWO_32 ==>
      CallsOk(s.calls) && OutOk(s.calls.issued, s.out) && HandshakeOk(s.calls.issued, s.link)
  }

  /** `t` is `s` with further commands issued, and identification is kept. */
  ghost predicate Keeps(s: State, t: State) {
    s.calls.issued <= t.calls.issued && (Identified(s) ==> Identified(t))
  }

  lemma IssueGrows(c: Calls, body: Body, caller: Option<Handle>)
    requires |c.issued| < TWO_32 - 1
    ensures var c1 := Issue(c, body, caller);
      TakenFor(c1.issued, NextId(c), body) && c1.issued[NextId(c) - 1].caller == caller
  {}

  lemma OutGrows(issued: seq<Issued>, more: seq<Issued>, o: Out)
    requires OutOk(issued, o) && issued <= more
    ensures OutOk(more, o)
  {}

  lemma SendOk(issued: seq<Issued>, o: Out, l: Link, cmd: Command, fate: Fate)
    requires OutOk(issued, o) && CommandOk(issued, cmd)
    ensures OutOk(issued, SendCommand(o, l, cmd, fate).0)
  {}

  lemma EnterOk(c: Calls, body: Body, req: PendingRequest)
    requires |c.issued| < TWO_32 - 1 && CallsOk(c)
    requires Fits([Issued(body, CallerOf(req))], 1, req)
    ensures CallsOk(Enter(c, body, req)) && CallsOk(Abandon(c, body, req))
  {
    IssueGrows(c, body, CallerOf(req));
  }

  lemma TransactKeeps(s: State, body: Body, req: PendingRequest, fate: Fate)
    requires Fits([Issued(body, CallerOf(req))], 1, req)
    ensures Keeps(s, Transact(s, body, req, fate))
  {
    hide SendCommand, CallsOk, OutOk;
    var c1 := Issue(s.calls, body, CallerOf(req));
    if Identified(s) && |c1.issued| < TWO_32 {
      EnterOk(s.calls, body, req);
      IssueGrows(s.calls, body, CallerOf(req));
      OutGrows(s.calls.issued, c1.issued, s.out);
      SendOk(c1.issued, s.out, s.link, Command(NextId(s.calls), body), fate);
    }
  }

  lemma PostIssuedKeeps(s: State, ch: Channel, fate: Fate)
    ensures Keeps(s, SendUnsubscribe(s, ch, fate))
  {
    hide SendCommand, OutOk;
    var body := UnsubscribeBody(ch);
    var c1 := Issue(s.calls, body, None);
    if Identified(s) && |c1.issued| < TWO_32 {
      IssueGrows(s.calls, body, None);
      OutGrows(s.calls.issued, c1.issued, s.out);
      SendOk(c1.issued, s.out, s.link, Command(NextId(s.calls), body), fate);
    }
  }

  /** Nothing is sent, registered or timed. */
  lemma QuietKeeps(s: State, t: State)
    requires t.calls.issued == s.calls.issued && t.out == s.out && t.link.handshake == s.link.handshake
    requires forall id :: id in t.calls.pending ==> id in s.calls.pending && t.calls.pending[id] == s.calls.pending[id]
    requires forall id: nat :: RequestTimeout(id) in t.calls.timers ==> RequestTimeout(id) in s.calls.timers
    ensures Keeps(s, t)
  {}

  lemma DisconnectedKeeps(s: State, code: nat)
    ensures Keeps(s, MoveToDisconnected(s, code))
  {}

  lemma TransportCloseKeeps(s: State, code: nat, reconnect: bool)
    ensures Keeps(s, OnTransportClose(s, code, reconnect))
  {}

  lemma DoSubscribeKeeps(s: State, ch: Channel, o: Oracle)
    ensures Keeps(s, DoSubscribe(s, ch, o))
  {
    hide Transact;
    if ch in s.subs {
      var sub := s.subs[ch];
      var sub1 := RefreshData(if NeedsToken(sub) && o.token.Token? then sub.(token := o.token.token) else sub, o.data);
      TransactKeeps(s.(subs := s.subs[ch := sub1]), SubscribeBody(BuildRequest(ch, sub1)), AwaitSubscribe(ch, None),
          o.fate);
    }
  }

  lemma PushKeeps(s: State, push: Push)
    ensures Keeps(s, HandlePush(s, push))
  {
    hide OnTransportClose, MoveToDisconnected;
    match push.body {
      case DisconnectPush(code) =>
        TransportCloseKeeps(s, code, true);
        DisconnectedKeeps(s, code);
      case _ =>
    }
  }

  lemma ResolveKeeps(s: State, req: PendingRequest, r: Reply)
    ensures Keeps(s, ResolvePending(s, req, r))
  {
    hide Keeps, Tell, ResolveSubscribe;
    if req.AwaitSubscribe? { ResolveSubscribeQuiet(s, req.channel, r); }
    QuietKeeps(s, ResolvePending(s, req, r));
  }

  /** Resolving a subscribe takes no id, writes nothing and arms no request timeout. */
  lemma ResolveSubscribeQuiet(s: State, ch: Channel, r: Reply)
    ensures var t := ResolveSubscribe(s, ch, r).0;
      && t.calls.issued == s.calls.issued && t.calls.pending == s.calls.pending && t.link == s.link && t.out == s.out
      && (forall timer :: timer in t.calls.timers && timer.RequestTimeout? ==> timer in s.calls.timers)
  {
    hide Tell, Succeed, Leave, Emit, SetOf;
  }

  lemma DispatchKeeps(s: State, a: Arrival)
    ensures Keeps(s, DispatchReply(s, a))
  {
    hide HandlePush, ResolvePending;
    if a.reply.id == 0 {
      if a.reply.push.Some? {
        PushKeeps(s, a.reply.push.value);
      }
    } else if a.reply.id in s.calls.pending {
      ResolveKeeps(TakeOut(s, a.reply.id), s.calls.pending[a.reply.id], a.reply);
    }
  }

  lemma {:induction false} DispatchAllKeeps(s: State, arrivals: seq<Arrival>)
    ensures Keeps(s, DispatchAll(s, arrivals))
    decreases |arrivals|
  {
    hide DispatchReply;
    if arrivals != [] {
      DispatchAllKeeps(s, arrivals[..|arrivals| - 1]);
      DispatchKeeps(DispatchAll(s, arrivals[..|arrivals| - 1]), arrivals[|arrivals| - 1]);
    }
  }

  lemma FailureKeeps(s: State, err: ClientError)
    ensures Keeps(s, OnHandshakeFailure(s, err))
  {}

  lemma SendConnectKeeps(s: State, fate: Fate)
    ensures Keeps(s, SendConnect(s, fate))
  {
    hide SendCommand, OutOk, OnHandshakeFailure;
    var body := ConnectBodyOf(s);
    var c1 := Issue(s.calls, body, None);
    var (out, err) := SendCommand(s.out, s.link, Command(NextId(s.calls), body), fate);
    if Identified(s) && |c1.issued| < TWO_32 {
      IssueGrows(s.calls, body, None);
      OutGrows(s.calls.issued, c1.issued, s.out);
      SendOk(c1.issued, s.out, s.link, Command(NextId(s.calls), body), fate);
    }
    if err.Some? {
      FailureKeeps(s.(calls := c1, out := out), err.value);
    }
  }

  lemma RefreshTokenKeeps(s: State, o: TokenOutcome)
    ensures Keeps(s, RefreshTokenIfNeeded(s, o).0)
  {
    hide MoveToDisconnected, CallsOk, OutOk;
    DisconnectedKeeps(s, Codes.DISCONNECT_UNAUTHORIZED);
  }

  lemma BeginKeeps(s: State, o: Opening)
    ensures Keeps(s, BeginAttempt(s, o))
  {
    hide RefreshTokenIfNeeded, SendConnect, CallsOk, OutOk;
    var s0 := s.(link := s.link.(attempts := s.link.attempts + 1));
    RefreshTokenKeeps(s0, o.token);
    SendConnectKeeps(RefreshConnectData(Attach(RefreshTokenIfNeeded(s0, o.token).0), o.data), o.fate);
  }

  lemma EstablishKeeps(s: State, r: ConnectResult)
    ensures Keeps(s, Establish(s, r))
  {}

  lemma {:induction false} ResubscribeKeeps(s: State, plan: seq<Attempt>)
    ensures Keeps(s, ResubscribeAll(s, plan))
    decreases |plan|
  {
    hide DoSubscribe;
    if plan != [] {
      var last := plan[|plan| - 1];
      ResubscribeKeeps(s, plan[..|plan| - 1]);
      DoSubscribeKeeps(ResubscribeAll(s, plan[..|plan| - 1]), last.channel, last.oracle);
    }
  }

  lemma FinishKeeps(s: State, r: Reply, plan: seq<Attempt>)
    ensures Keeps(s, FinishHandshake(s, r, plan))
  {
    hide Establish, ResubscribeAll, OnHandshakeFailure;
    match HandshakeResult(r) {
      case Err(e) => FailureKeeps(s, e);
      case Ok(result) =>
        EstablishKeeps(s, result);
        ResubscribeKeeps(Establish(s, result), plan);
    }
  }

  lemma HandshakeFrameKeeps(s: State, id: nat, arrivals: seq<Arrival>, plan: seq<Attempt>)
    ensures Keeps(s, HandshakeFrame(s, id, arrivals, plan))
  {
    hide DispatchAll, FinishHandshake;
    var n := Before(arrivals, id);
    DispatchAllKeeps(s, arrivals[..n]);
    if n < |arrivals| {
      FinishKeeps(DispatchAll(s, arrivals[..n]), arrivals[n].reply, plan);
    }
  }

  lemma UnsubscribeKeeps(s: State, ch: Channel, h: Handle, fate: Fate)
    ensures Keeps(s, HandleUnsubscribe(s, ch, h, fate))
  {
    hide OnTransportClose, SendUnsubscribe;
    if ch in s.subs {
      var s1 := s.(subs := s.subs[ch := Leave(s.subs[ch], Codes.UNSUBSCRIBE_CALLED)]);
      PostIssuedKeeps(s1, ch, fate);
      TransportCloseKeeps(Respond(SendUnsubscribe(s1, ch, fate), h, Done), Codes.UNSUBSCRIBE_ERROR, true);
    }
  }

  lemma RemoveKeeps(s: State, ch: Channel, h: Handle, fate: Fate)
    ensures Keeps(s, HandleRemoveSubscription(s, ch, h, fate))
  {
    hide SendUnsubscribe;
    if ch in s.subs {
      PostIssuedKeeps(Forget(s, ch), ch, fate);
    }
  }

  lemma CommandKeeps(s: State, c: ActorCommand, fate: Fate)
    ensures Keeps(s, HandleCommand(s, c, fate))
  {
    hide Transact, MoveToDisconnected, MoveToClosed, HandleUnsubscribe, HandleRemoveSubscription, SendCommand,
         FlushBatch, Tell, CallsOk, OutOk;
    match c {
      case Disconnect(_) => DisconnectedKeeps(s, Codes.DISCONNECT_CALLED);
      case RemoveSubscription(ch, h) => RemoveKeeps(s, ch, h, fate);
      case Subscribe(ch, h) =>
        if ch in s.subs {
          var sub := BackToSubscribing(s.subs[ch].(attempts := 0), Codes.SUBSCRIBE_CALLED);
          TransactKeeps(s.(subs := s.subs[ch := sub]), SubscribeBody(BuildRequest(ch, sub)),
              AwaitSubscribe(ch, Some(h)), fate);
        }
      case Unsubscribe(ch, h) => UnsubscribeKeeps(s, ch, h, fate);
      case SendRequest(payload, h) => TransactKeeps(s, RequestBody(payload), AwaitReply(h), fate);
      case Close(_) => ClosedKeeps(s);
      case Send(data) => SendKeeps(s, data, fate);
      case StartBatching => BatchKeeps(s, fate);
      case StopBatching => BatchKeeps(s, fate);
      case _ =>
    }
  }

  lemma ClosedKeeps(s: State)
    ensures Keeps(s, MoveToClosed(s))
  {}

  lemma SendKeeps(s: State, data: Bytes, fate: Fate)
    ensures Keeps(s, Post(s, Command(0, SendBody(data)), fate))
  {}

  lemma BatchKeeps(s: State, fate: Fate)
    ensures Keeps(s, s.(out := s.out.(batch := s.out.batch.(active := true))))
    ensures Keeps(s, s.(out := FlushBatch(s.out, s.link, fate)))
  {}

  lemma TimerKeeps(s: State, t: Timer, o: Oracle)
    ensures Keeps(s, HandleTimer(s, t, o))
  {
    hide DoSubscribe, Transact, OnTransportClose, MoveToDisconnected;
    match t {
      case Resubscribe(ch) => DoSubscribeKeeps(s, ch, o);
      case RequestTimeout(id) => RequestTimeoutKeeps(s, id);
      case RefreshToken =>
        DisconnectedKeeps(s, Codes.DISCONNECT_UNAUTHORIZED);
        var s1 := if s.config.hasGetToken && o.token.Token? then s.(config := s.config.(token := o.token.token)) else s;
        TransactKeeps(s1, RefreshBody(s1.config.token), AwaitRefresh, o.fate);
      case RefreshSubToken(ch) =>
        if ch in s.subs && o.token.Token? {
          var s1 := s.(subs := s.subs[ch := s.subs[ch].(token := o.token.token)]);
          TransactKeeps(s1, SubRefreshBody(ch, o.token.token), AwaitSubRefresh(ch), o.fate);
        }
    }
  }

  lemma RequestTimeoutKeeps(s: State, id: nat)
    ensures Keeps(s, HandleRequestTimeout(s, id))
  {
    hide OnTransportClose;
    if id in s.calls.pending {
      var req := s.calls.pending[id];
      var s1 := TakeOut(s, id);
      var s2 := s1.(desk := Tell(s1.desk, OptionSet(CallerOf(req)), Failed(Timeout)));
      if req.AwaitSubscribe? && req.channel in s.subs {
        TransportCloseKeeps(DrainWaiters(s2, req.channel, Timeout), Codes.SUBSCRIBE_TIMEOUT, true);
      }
    }
  }

  lemma StepKeeps(s: State, i: Input)
    ensures Keeps(s, Step(s, i))
  {
    hide HandleCommand, HandleTimer, BeginAttempt, HandshakeFrame, OnHandshakeFailure, DispatchAll, OnTransportClose;
    if Enabled(s, i) {
      match i {
        case Ask(c, fate) => CommandKeeps(Admit(s, ReplyHandle(c)), c, fate);
        case Fire(t, o) => TimerKeeps(Disarm(s, t), t, o);
        case Open(o) => BeginKeeps(s, o);
        case Shake(arrivals, plan) => HandshakeFrameKeeps(s, s.link.handshake.value, arrivals, plan);
        case ShakeFails(e) => FailureKeeps(s, e);
        case Data(arrivals) => DispatchAllKeeps(s, arrivals);
        case BadData => TransportCloseKeeps(s, Codes.BAD_PROTOCOL, false);
        case TransportClosed(code, reconnect) => TransportCloseKeeps(s, code, reconnect);
        case PingTimeout => TransportCloseKeeps(s, Codes.NO_PING, true);
      }
    }
  }

  /** Identification holds after every run. */
  lemma {:induction false} RunIdentified(config: ClientConfig, inputs: seq<Input>)
    ensures Identified(Run(Init(config), inputs))
    decreases |inputs|
  {
    hide Step;
    if inputs != [] {
      RunIdentified(config, inputs[..|inputs| - 1]);
      StepKeeps(Run(Init(config), inputs[..|inputs| - 1]), inputs[|inputs| - 1]);
    }
  }

  /** Issued ids are never reassigned later in a run. */
  lemma {:induction false} RunGrows(s: State, inputs: seq<Input>)
    ensures s.calls.issued <= Run(s, inputs).calls.issued
    decreases |inputs|
  {
    hide Step;
    if inputs != [] {
      RunGrows(s, inputs[..|inputs| - 1]);
      StepKeeps(Run(s, inputs[..|inputs| - 1]), inputs[|inputs| - 1]);
    }
  }

  // ---------- what identification is for ----------

  /** A reply settles the request its id was taken for, and leaves every other request waiting. */
  lemma ReplyResolvesOwnRequest(config: ClientConfig, inputs: seq<Input>, a: Arrival, h: Handle)
    requires |Run(Init(config), inputs).calls.issued| < TWO_32
    requires a.reply.id in Run(Init(config), inputs).calls.pending && a.reply.id != 0
    requires CallerOf(Run(Init(config), inputs).calls.pending[a.reply.id]) == Some(h)
    ensures var s := Run(Init(config), inputs);
            var t := DispatchReply(s, a);
            && 1 <= a.reply.id <= |s.calls.issued| && s.calls.issued[a.reply.id - 1].caller == Some(h)
            && h in t.desk.answers
            && t.calls.pending == s.calls.pending - {a.reply.id}
  {
    hide HandleSubscribeSuccess, HandleSubscribeError;
    RunIdentified(config, inputs);
    var s := TakeOut(Run(Init(config), inputs), a.reply.id);
    var req := Run(Init(config), inputs).calls.pending[a.reply.id];
    if req.AwaitSubscribe? {
      SubscribePending(s, req.channel, a.reply);
    }
  }

  lemma SubscribePending(s: State, ch: Channel, r: Reply)
    ensures ResolveSubscribe(s, ch, r).0.calls.pending == s.calls.pending
  {}

  /** A late timeout fails the very request it was armed for, or changes nothing at all. */
  lemma TimeoutHitsOwnRequest(config: ClientConfig, inputs: seq<Input>, id: nat, o: Oracle)
    requires |Run(Init(config), inputs).calls.issued| < TWO_32
    requires Enabled(Run(Init(config), inputs), Fire(RequestTimeout(id), o))
    ensures var s := Run(Init(config), inputs);
            var t := Step(s, Fire(RequestTimeout(id), o));
            && 1 <= id <= |s.calls.issued|
            && (if id in s.calls.pending
                then Fits(s.calls.issued, id, s.calls.pending[id]) && id !in t.calls.pending
                     && (forall h :: s.calls.issued[id - 1].caller == Some(h) ==> h in t.desk.answers)
                else t == Disarm(s, RequestTimeout(id)))
  {
    RunIdentified(config, inputs);
  }
}
