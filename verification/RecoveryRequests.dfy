/**
 The client's half of recovery, for one watched subscription: every request that could restore
 it asks for nothing after its present position, or names no position, and a reply to such a
 request still finds the request waiting.
 */
module RecoveryRequests {
  import opened Prelude
  import Codes
  import opened Protocol
  import opened Subscriptions
  import opened ActorState
  import JointInvariant

  /**
   The watched channel and the epoch of its log; `cursor` counts the written commands the server
   has served, and the replies to those in `open` are still on their way. When `strict`, no request
   may go without a position; when `connects`, a connect command may be on its way to the server.
   */
  datatype Watch = Watch(channel: Channel, epoch: string, cursor: nat, open: set<nat>, strict: bool, connects: bool)

  /** The subscription wants recovery, and what it can recover from is a position in the watched log. */
  predicate Placed(sub: SubState, w: Watch) {
    sub.recover && (w.strict ==> CanRecover(sub)) && (CanRecover(sub) ==> sub.epoch == w.epoch)
  }

  /** The subscription is there, and its channel is not also a server-side one. */
  ghost predicate Anchored(s: State, w: Watch) {
    && w.channel in s.subs && w.channel !in s.servers.subs
    && Placed(s.subs[w.channel], w)
  }

  predicate RequestOk(r: SubscribeRequest, w: Watch, x: nat) {
    if r.recover then r.epoch == w.epoch && r.offset <= x else !w.strict
  }

  /** Whatever `body` recovers on the watched channel, it recovers from `x` or before. */
  predicate BodyOk(body: Body, w: Watch, x: nat) {
    match body
    case SubscribeBody(r) => r.channel == w.channel ==> RequestOk(r, w, x)
    case ConnectBody(_, _, subs) => w.channel in subs ==> RequestOk(subs[w.channel], w, x)
    case _ => true
  }

  predicate Waiting(pending: map<nat, PendingRequest>, w: Watch, id: nat) {
    id in pending && pending[id].AwaitSubscribe? && pending[id].channel == w.channel
  }

  predicate IsAsk(cmd: Command, w: Watch) {
    cmd.body.SubscribeBody? && cmd.body.request.channel == w.channel
  }

  /** A command recovers nothing after `x`, and if it subscribes to the watched channel its request is waiting. */
  predicate Tracked(pending: map<nat, PendingRequest>, w: Watch, x: nat, cmd: Command) {
    && BodyOk(cmd.body, w, x)
    && (IsAsk(cmd, w) ==> Waiting(pending, w, cmd.id))
    && (cmd.body.ConnectBody? ==> w.connects && cmd.id != 0)
  }

  ghost predicate QueueTracked(pending: map<nat, PendingRequest>, w: Watch, x: nat, queue: seq<Outgoing>) {
    forall i :: 0 <= i < |queue| ==> Tracked(pending, w, x, queue[i].command)
  }

  ghost predicate WireTracked(pending: map<nat, PendingRequest>, w: Watch, x: nat, wire: seq<Sent>) {
    && w.cursor <= |wire|
    && (forall i :: w.cursor <= i < |wire| ==> Tracked(pending, w, x, wire[i].outgoing.command))
    && (forall id :: id in w.open ==> Waiting(pending, w, id))
  }

  ghost predicate Tracks(c: Calls, o: Out, stream: bool, w: Watch, x: nat) {
    && (forall id :: id in c.pending ==> 1 <= id <= |c.issued|)
    && QueueTracked(c.pending, w, x, o.batch.queue)
    && (stream ==> WireTracked(c.pending, w, x, o.wire))
  }

  ghost predicate Ready(s: State, w: Watch) {
    && Anchored(s, w)
    && (|s.calls.issued| < TWO_32 ==> Tracks(s.calls, s.out, s.link.stream, w, s.subs[w.channel].offset))
  }

  /** The connection stays or is lost, and nothing written is unwritten. */
  ghost predicate Onward(s: State, t: State) {
    && s.calls.issued <= t.calls.issued && s.out.wire <= t.out.wire
    && t.link.conn == s.link.conn && t.link.handshake == s.link.handshake && (t.link.stream ==> s.link.stream)
  }

  // ---------- small changes ----------

  predicate SamePosition(a: SubState, b: SubState) {
    b.offset == a.offset && b.epoch == a.epoch && b.recover == a.recover
  }

  /** The watched subscription keeps its position. */
  ghost predicate Steady(s: State, t: State, w: Watch) {
    && (w.channel in s.subs ==> w.channel in t.subs && SamePosition(s.subs[w.channel], t.subs[w.channel]))
    && (w.channel !in s.servers.subs ==> w.channel !in t.servers.subs)
  }

  lemma SameReady(s: State, t: State, w: Watch)
    requires Ready(s, w) && Steady(s, t, w)
    requires t.calls.issued == s.calls.issued && t.calls.pending == s.calls.pending && t.out == s.out
    requires t.link.stream ==> s.link.stream
    ensures Ready(t, w)
  {}

  /** Nothing is queued and nobody reads. */
  lemma ClosedReady(s: State, t: State, w: Watch)
    requires Ready(s, w) && Steady(s, t, w)
    requires t.calls.issued == s.calls.issued && t.calls.pending == map[] && t.out.batch.queue == [] && !t.link.stream
    ensures Ready(t, w)
  {}

  lemma CloseReady(s: State, code: nat, reconnect: bool, w: Watch)
    requires Ready(s, w)
    ensures Ready(OnTransportClose(s, code, reconnect), w) && Onward(s, OnTransportClose(s, code, reconnect))
    ensures Ready(MoveToDisconnected(s, code), w) && Onward(s, MoveToDisconnected(s, code))
    ensures Ready(MoveToClosed(s), w) && Onward(s, MoveToClosed(s))
  {
    hide Ready, Note, Tell;
    CloseSteady(s, code, reconnect, w);
    ClosedReady(s, OnTransportClose(s, code, reconnect), w);
    ClosedReady(s, MoveToDisconnected(s, code), w);
    ClosedReady(s, MoveToClosed(s), w);
  }

  lemma CloseSteady(s: State, code: nat, reconnect: bool, w: Watch)
    ensures Steady(s, OnTransportClose(s, code, reconnect), w)
    ensures Steady(s, MoveToDisconnected(s, code), w) && Steady(s, MoveToClosed(s), w)
  {
    hide Note, Tell;
  }

  // ---------- sending ----------

  lemma SendTracks(c: Calls, o: Out, l: Link, w: Watch, x: nat, cmd: Command, fate: Fate)
    requires Tracks(c, o, l.stream, w, x) && Tracked(c.pending, w, x, cmd)
    ensures Tracks(c, SendCommand(o, l, cmd, fate).0, l.stream, w, x) && o.wire <= SendCommand(o, l, cmd, fate).0.wire
  {}

  lemma SendGrows(o: Out, l: Link, cmd: Command, fate: Fate)
    ensures o.wire <= SendCommand(o, l, cmd, fate).0.wire
  {}

  /** Taking an id keeps every tracked request, as the id is fresh. */
  lemma EnterTracks(c: Calls, o: Out, stream: bool, w: Watch, x: nat, body: Body, req: PendingRequest)
    requires |c.issued| < TWO_32 - 1 && Tracks(c, o, stream, w, x)
    ensures Tracks(Enter(c, body, req), o, stream, w, x)
    ensures Tracks(Abandon(c, body, req), o, stream, w, x)
  {
    var id := NextId(c);
    assert id == |c.issued| + 1 && id !in c.pending;
    assert Abandon(c, body, req).pending == c.pending;
  }

  lemma TransactReady(s: State, body: Body, req: PendingRequest, fate: Fate, w: Watch)
    requires Ready(s, w) && BodyOk(body, w, s.subs[w.channel].offset) && !body.ConnectBody?
    requires body.SubscribeBody? ==> req.AwaitSubscribe? && req.channel == body.request.channel
    ensures Ready(Transact(s, body, req, fate), w)
    ensures Onward(s, Transact(s, body, req, fate))
  {
    hide SendCommand, Tracks;
    var t := Transact(s, body, req, fate);
    SendGrows(s.out, s.link, Command(NextId(s.calls), body), fate);
    if |t.calls.issued| < TWO_32 {
      var cmd := Command(NextId(s.calls), body);
      EnterTracks(s.calls, s.out, s.link.stream, w, s.subs[w.channel].offset, body, req);
      SendTracks(Enter(s.calls, body, req), s.out, s.link, w, s.subs[w.channel].offset, cmd, fate);
      FailedSend(s.out, s.link, cmd, fate);
    }
  }

  lemma FailedSend(o: Out, l: Link, cmd: Command, fate: Fate)
    ensures SendCommand(o, l, cmd, fate).1.Some? ==> SendCommand(o, l, cmd, fate).0 == o
  {}

  lemma PostReady(s: State, body: Body, fate: Fate, w: Watch)
    requires Ready(s, w) && !body.SubscribeBody? && !body.ConnectBody?
    ensures Ready(Post(s, Command(0, body), fate), w)
    ensures Onward(s, Post(s, Command(0, body), fate))
  {
    hide SendCommand, Tracks;
    SendGrows(s.out, s.link, Command(0, body), fate);
    if |s.calls.issued| < TWO_32 {
      SendTracks(s.calls, s.out, s.link, w, s.subs[w.channel].offset, Command(0, body), fate);
    }
  }

  lemma UnsubscribeSentReady(s: State, ch: Channel, fate: Fate, w: Watch)
    requires Ready(s, w)
    ensures Ready(SendUnsubscribe(s, ch, fate), w)
    ensures Onward(s, SendUnsubscribe(s, ch, fate))
  {
    hide SendCommand, QueueTracked, WireTracked;
    SendGrows(s.out, s.link, Command(NextId(s.calls), UnsubscribeBody(ch)), fate);
    if |s.calls.issued| < TWO_32 - 1 {
      SendTracks(Issue(s.calls, UnsubscribeBody(ch), None), s.out, s.link, w, s.subs[w.channel].offset,
          Command(NextId(s.calls), UnsubscribeBody(ch)), fate);
    }
  }

  lemma FlushReady(s: State, fate: Fate, w: Watch)
    requires Ready(s, w)
    ensures Ready(s.(out := FlushBatch(s.out, s.link, fate)), w)
    ensures Onward(s, s.(out := FlushBatch(s.out, s.link, fate)))
  {
        var o := FlushBatch(s.out, s.link, fate);
    if |s.calls.issued| < TWO_32 && s.link.stream && s.link.sink && fate.Accepted? {
      forall i | w.cursor <= i < |o.wire|
        ensures Tracked(s.calls.pending, w, s.subs[w.channel].offset, o.wire[i].outgoing.command)
      {
        if i >= |s.out.wire| {
          assert o.wire[i] == Sent(s.link.conn, |s.out.wire|, s.out.batch.queue[i - |s.out.wire|]);
        }
      }
    }
  }

  // ---------- subscribing ----------

  lemma SendSubscribeReady(s: State, ch: Channel, sub: SubState, sender: Option<Handle>, fate: Fate, w: Watch)
    requires Ready(s, w)
    requires ch == w.channel ==> SamePosition(s.subs[ch], sub)
    ensures Ready(SendSubscribe(s, ch, sub, sender, fate), w)
    ensures Onward(s, SendSubscribe(s, ch, sub, sender, fate))
  {
    hide Transact, Tracks;
    TransactReady(s.(subs := s.subs[ch := sub]), SubscribeBody(BuildRequest(ch, sub)), AwaitSubscribe(ch, sender), fate,
        w);
  }

  lemma SubscribeReady(s: State, ch: Channel, o: Oracle, w: Watch)
    requires Ready(s, w)
    ensures Ready(DoSubscribe(s, ch, o), w)
    ensures Onward(s, DoSubscribe(s, ch, o))
  {
    hide SendSubscribe, Ready, Tell;
    if ch in s.subs {
      var sub := s.subs[ch];
      SendSubscribeReady(s, ch, RefreshData(sub, o.data), None, o.fate, w);
      if o.token.Token? {
        SendSubscribeReady(s, ch, RefreshData(sub.(token := o.token.token), o.data), None, o.fate, w);
      }
      if NeedsToken(sub) && (!o.token.Token? || o.token.token == "") {
        SameReady(s, DoSubscribe(s, ch, o), w);
      }
    }
  }

  lemma {:induction false} ResubscribeReady(s: State, plan: seq<Attempt>, w: Watch)
    requires Ready(s, w)
    ensures Ready(ResubscribeAll(s, plan), w)
    ensures Onward(s, ResubscribeAll(s, plan))
    decreases |plan|
  {
    hide DoSubscribe, Ready;
    if plan != [] {
      var last := plan[|plan| - 1];
      ResubscribeReady(s, plan[..|plan| - 1], w);
      SubscribeReady(ResubscribeAll(s, plan[..|plan| - 1]), last.channel, last.oracle, w);
    }
  }

  // ---------- commands and timers ----------

  lemma CommandReady(s: State, cmd: ActorCommand, fate: Fate, w: Watch)
    requires Ready(s, w) && (cmd.RemoveSubscription? ==> cmd.channel != w.channel)
    ensures Ready(HandleCommand(s, cmd, fate), w)
    ensures Onward(s, HandleCommand(s, cmd, fate))
  {
    hide Transact, SendCommand, MoveToDisconnected, MoveToClosed, HandleSubscribe, HandleUnsubscribe,
         HandleRemoveSubscription, HandleNewSubscription, HandleConnect, FlushBatch, Post, Tell, Ready;
    ReadyAnchored(s, w);
    match cmd {
      case Disconnect(h) =>
        CloseReady(s, Codes.DISCONNECT_CALLED, true, w);
        SameReady(MoveToDisconnected(s, Codes.DISCONNECT_CALLED), HandleCommand(s, cmd, fate), w);
      case Close(h) =>
        CloseReady(s, 0, true, w);
        SameReady(MoveToClosed(s), HandleCommand(s, cmd, fate), w);
      case RemoveSubscription(ch, h) => RemoveReady(s, ch, h, fate, w);
      case Subscribe(ch, h) => SubscribeCommandReady(s, ch, h, fate, w);
      case Unsubscribe(ch, h) => UnsubscribeReady(s, ch, h, fate, w);
      case SendRequest(payload, h) =>
        TransactReady(s, RequestBody(payload), AwaitReply(h), fate, w);
        SameReady(s, Respond(s, h, Failed(ClientDisconnected)), w);
      case Send(data) => PostReady(s, SendBody(data), fate, w);
      case StopBatching => FlushReady(s, fate, w);
      case _ => QuietCommandReady(s, cmd, fate, w);
    }
  }

  /** The commands that send nothing and close nothing. */
  lemma QuietCommandReady(s: State, cmd: ActorCommand, fate: Fate, w: Watch)
    requires Ready(s, w)
    requires cmd.Connect? || cmd.NewSubscription? || cmd.GetSubscription? || cmd.ListSubscriptions?
          || cmd.SetToken? || cmd.SetData? || cmd.StartBatching?
    ensures Ready(HandleCommand(s, cmd, fate), w)
    ensures Onward(s, HandleCommand(s, cmd, fate))
  {
    hide Tell, WireTracked, Tracked;
  }

  lemma RemoveReady(s: State, ch: Channel, h: Handle, fate: Fate, w: Watch)
    requires Ready(s, w) && ch != w.channel
    ensures Ready(HandleRemoveSubscription(s, ch, h, fate), w) && Onward(s, HandleRemoveSubscription(s, ch, h, fate))
  {
    hide SendUnsubscribe, Tell, Tracks;
    if ch in s.subs { UnsubscribeSentReady(Forget(s, ch), ch, fate, w); }
  }

  lemma SubscribeCommandReady(s: State, ch: Channel, h: Handle, fate: Fate, w: Watch)
    requires Ready(s, w)
    ensures Ready(HandleSubscribe(s, ch, h, fate), w) && Onward(s, HandleSubscribe(s, ch, h, fate))
  {
    hide SendSubscribe, Tell, Tracks;
    if ch in s.subs {
      SendSubscribeReady(s, ch, BackToSubscribing(s.subs[ch].(attempts := 0), Codes.SUBSCRIBE_CALLED), Some(h), fate,
          w);
    }
  }

  lemma UnsubscribeReady(s: State, ch: Channel, h: Handle, fate: Fate, w: Watch)
    requires Ready(s, w)
    ensures Ready(HandleUnsubscribe(s, ch, h, fate), w)
    ensures Onward(s, HandleUnsubscribe(s, ch, h, fate))
  {
    hide OnTransportClose, SendUnsubscribe, SendCommand, Tell, Tracks;
    if ch in s.subs {
      var s1 := s.(subs := s.subs[ch := Leave(s.subs[ch], Codes.UNSUBSCRIBE_CALLED)]);
      UnsubscribeSentReady(s1, ch, fate, w);
      CloseReady(Respond(SendUnsubscribe(s1, ch, fate), h, Done), Codes.UNSUBSCRIBE_ERROR, true, w);
    }
  }

  lemma TimerReady(s: State, t: Timer, o: Oracle, w: Watch)
    requires Ready(s, w)
    ensures Ready(HandleTimer(s, t, o), w)
    ensures Onward(s, HandleTimer(s, t, o))
  {
    hide Transact, DoRefreshToken, DoRefreshSubToken, HandleRequestTimeout, DoSubscribe, SendCommand, Tell, Tracks;
    match t {
      case Resubscribe(ch) => SubscribeReady(s, ch, o, w);
      case RequestTimeout(id) => TimeoutReady(s, id, w);
      case RefreshToken => RefreshReady(s, o.token, o.fate, w);
      case RefreshSubToken(ch) => SubRefreshReady(s, ch, o.token, o.fate, w);
    }
  }

  lemma ReadyAnchored(s: State, w: Watch)
    requires Ready(s, w)
    ensures Anchored(s, w)
  {}

  lemma RefreshReady(s: State, o: TokenOutcome, fate: Fate, w: Watch)
    requires Ready(s, w)
    ensures Ready(DoRefreshToken(s, o, fate), w)
    ensures Onward(s, DoRefreshToken(s, o, fate))
  {
    hide Transact, MoveToDisconnected, SendFails, Ready;
    if !s.link.phase.Connected? {
    } else if s.config.hasGetToken && o.Broken? {
      SameReady(s, EmitError(s).(calls := Arm(s.calls, RefreshToken)), w);
    } else if s.config.hasGetToken && (o.Denied? || o.token == "") {
      CloseReady(s, Codes.DISCONNECT_UNAUTHORIZED, true, w);
    } else {
      var s1 := if s.config.hasGetToken then s.(config := s.config.(token := o.token)) else s;
      SameReady(s, s1, w);
      ReadyAnchored(s1, w);
      TransactReady(s1, RefreshBody(s1.config.token), AwaitRefresh, fate, w);
      var s2 := Transact(s1, RefreshBody(s1.config.token), AwaitRefresh, fate);
      SameReady(s2, s2.(calls := Arm(s2.calls, RefreshToken)), w);
    }
  }

  lemma SubRefreshReady(s: State, ch: Channel, o: TokenOutcome, fate: Fate, w: Watch)
    requires Ready(s, w)
    ensures Ready(DoRefreshSubToken(s, ch, o, fate), w)
    ensures Onward(s, DoRefreshSubToken(s, ch, o, fate))
  {
    hide Transact, UnsubscribeUnauthorized, ScheduleSubTokenRefresh, Ready;
    if ch in s.subs {
      if o.Token? {
        var s1 := s.(subs := s.subs[ch := s.subs[ch].(token := o.token)]);
        SameReady(s, s1, w);
        TransactReady(s1, SubRefreshBody(ch, o.token), AwaitSubRefresh(ch), fate, w);
      }
      QuietlySame(s, ch, w);
    }
  }

  lemma QuietlySame(s: State, ch: Channel, w: Watch)
    requires Ready(s, w) && ch in s.subs
    ensures Ready(UnsubscribeUnauthorized(s, ch), w) && Onward(s, UnsubscribeUnauthorized(s, ch))
    ensures var t := s.(subs := s.subs[ch := Emit(s.subs[ch], ErrorEvent)],
        calls := ScheduleSubTokenRefresh(s.calls, ch, 10));
      Ready(t, w) && Onward(s, t)
  {
    hide Ready, Tell;
    SameReady(s, UnsubscribeUnauthorized(s, ch), w);
    SameReady(s, s.(subs := s.subs[ch := Emit(s.subs[ch], ErrorEvent)],
        calls := ScheduleSubTokenRefresh(s.calls, ch, 10)), w);
  }

  /** A timeout that takes out a tracked request also takes down the connection. */
  lemma TimeoutReady(s: State, id: nat, w: Watch)
    requires Ready(s, w)
    ensures Ready(HandleRequestTimeout(s, id), w)
    ensures Onward(s, HandleRequestTimeout(s, id))
  {
    hide OnTransportClose, Tell;
    if id in s.calls.pending {
      var t := HandleRequestTimeout(s, id);
      var req := s.calls.pending[id];
      var s1 := TakeOut(s, id);
      var s2 := s1.(desk := Tell(s1.desk, OptionSet(CallerOf(req)), Failed(Timeout)));
      if req.AwaitSubscribe? && req.channel in s.subs {
        var s3 := DrainWaiters(s2, req.channel, Timeout);
        CloseSteady(s3, Codes.SUBSCRIBE_TIMEOUT, true, w);
        CloseOutcome(s3, Codes.SUBSCRIBE_TIMEOUT, true);
        ClosedReady(s, t, w);
        assert Onward(s, t);
      }
    }
  }

  lemma CloseOutcome(s: State, code: nat, reconnect: bool)
    ensures var t := OnTransportClose(s, code, reconnect);
      && t.calls.issued == s.calls.issued && t.calls.pending == map[] && t.out.batch.queue == [] && !t.link.stream
      && t.out.wire == s.out.wire && t.link.conn == s.link.conn && t.link.handshake == s.link.handshake
  {}

  // ---------- connecting ----------

  lemma FailureReady(s: State, err: ClientError, w: Watch)
    requires Ready(s, w)
    ensures Ready(OnHandshakeFailure(s, err), w) && !OnHandshakeFailure(s, err).link.stream
  {
    hide MoveToDisconnected, QueueTracked, WireTracked;
    var s1 := EmitError(s.(link := Detach(s.link).(handshake := None)));
    if err.Server? {
      CloseReady(s1, err.error.code, true, w);
      NotReading(s1, err.error.code);
    }
  }

  lemma NotReading(s: State, code: nat)
    ensures !MoveToDisconnected(s, code).link.stream
  {}

  /**
   The watched subscription rides on the connect command with its own epoch and position, in recovery
   mode if it has one.
   */
  lemma ConnectAsks(s: State, w: Watch)
    requires Anchored(s, w)
    ensures w.channel in ConnectSubs(s) ==>
      && ConnectSubs(s)[w.channel] == BuildRequest(w.channel, s.subs[w.channel])
      && ConnectSubs(s)[w.channel].recover == CanRecover(s.subs[w.channel])
      && (ConnectSubs(s)[w.channel].recover ==> ConnectSubs(s)[w.channel].epoch == w.epoch)
      && ConnectSubs(s)[w.channel].offset == s.subs[w.channel].offset
    ensures BodyOk(ConnectBodyOf(s), w, s.subs[w.channel].offset)
  {}

  lemma SendConnectReady(s: State, fate: Fate, w: Watch)
    requires Ready(s, w) && w.connects
    ensures Ready(SendConnect(s, fate), w)
  {
    hide OnHandshakeFailure, SendCommand, ConnectBodyOf, QueueTracked, WireTracked;
    var body := ConnectBodyOf(s);
    var cmd := Command(NextId(s.calls), body);
    var (out, err) := SendCommand(s.out, s.link, cmd, fate);
    var s1 := s.(calls := Issue(s.calls, body, None), out := out);
    if |s1.calls.issued| < TWO_32 {
      ConnectAsks(s, w);
      ConnectBodyKind(s);
      SendTracks(Issue(s.calls, body, None), s.out, s.link, w, s.subs[w.channel].offset, cmd, fate);
    }
    if err.Some? { FailureReady(s1, err.value, w); }
  }

  lemma ConnectBodyKind(s: State)
    ensures ConnectBodyOf(s).ConnectBody?
  {}

  /** A new attempt watches the wire from where it stands, and sends a connect command. */
  function Redial(w: Watch, cursor: nat): Watch { w.(cursor := cursor, open := {}, connects := true) }

  lemma BeginReady(s: State, o: Opening, w: Watch)
    requires Ready(s, w)
    ensures var t := BeginAttempt(s, o); Ready(t, if t.link.conn != s.link.conn then Redial(w, |s.out.wire|) else w)
    ensures BeginAttempt(s, o).link.stream ==> BeginAttempt(s, o).link.conn != s.link.conn || s.link.stream
  {
    hide RefreshTokenIfNeeded, SendConnect, QueueTracked, WireTracked;
    var s0 := s.(link := s.link.(attempts := s.link.attempts + 1));
    var s1 := RefreshTokenIfNeeded(s0, o.token).0;
    RefreshTokenReady(s0, o.token, w);
    var s2 := RefreshConnectData(Attach(s1), o.data);
    var w2 := Redial(w, |s.out.wire|);
    AttachReady(s1, s2, w, w2);
    SendConnectReady(s2, o.fate, w2);
    SendConnectConn(s2, o.fate);
  }

  lemma SendConnectConn(s: State, fate: Fate)
    ensures SendConnect(s, fate).link.conn == s.link.conn
  {}

  lemma AttachReady(s: State, t: State, w: Watch, w2: Watch)
    requires Ready(s, w) && w2 == Redial(w, |s.out.wire|)
    requires t.out == s.out && t.calls == s.calls && t.subs == s.subs && t.servers == s.servers
    ensures Ready(t, w2)
  {}

  lemma RefreshTokenReady(s: State, o: TokenOutcome, w: Watch)
    requires Ready(s, w)
    ensures var t := RefreshTokenIfNeeded(s, o).0;
      Ready(t, w) && t.out.wire == s.out.wire && t.link.conn == s.link.conn && (t.link.stream ==> s.link.stream)
  {
    hide MoveToDisconnected, Ready;
    CloseReady(s, Codes.DISCONNECT_UNAUTHORIZED, true, w);
    DisconnectLink(s, Codes.DISCONNECT_UNAUTHORIZED);
    if !NeedsRefresh(s) || !s.config.hasGetToken || o.Broken? || (o.Token? && o.token != "") {
      SameReady(s, RefreshTokenIfNeeded(s, o).0, w);
    }
  }

  lemma DisconnectLink(s: State, code: nat)
    ensures var t := MoveToDisconnected(s, code);
      && t.out.wire == s.out.wire && t.calls.issued == s.calls.issued
      && t.link.conn == s.link.conn && t.link.handshake == s.link.handshake && !t.link.stream
  {
    hide Tell, Note, CloseAll, WaitersIn, CallersIn;
  }

  // ---------- frames ----------

  /** No subscribe command for the watched channel that is yet to be served goes by `id`. */
  ghost predicate Settled(s: State, w: Watch, id: nat) {
    && (forall i :: 0 <= i < |s.out.batch.queue| && IsAsk(s.out.batch.queue[i].command, w) ==>
        s.out.batch.queue[i].command.id != id)
    && (forall i :: w.cursor <= i < |s.out.wire| && IsAsk(s.out.wire[i].outgoing.command, w) ==>
        s.out.wire[i].outgoing.command.id != id)
  }

  /** The position may advance, and the request of a settled `id` may go. */
  lemma AdvancedReady(s: State, t: State, w: Watch, id: nat)
    requires Ready(s, w) && Anchored(t, w) && s.subs[w.channel].offset <= t.subs[w.channel].offset
    requires t.calls.issued == s.calls.issued && t.out == s.out
    requires t.link.stream == s.link.stream && t.link.conn == s.link.conn && t.link.handshake == s.link.handshake
    requires t.calls.pending == s.calls.pending || (t.calls.pending == s.calls.pending - {id} && Settled(s, w, id))
    ensures Ready(t, w.(open := w.open - {id})) && Onward(s, t)
  {
    if |s.calls.issued| < TWO_32 && s.link.stream {
      var pending, pending' := s.calls.pending, t.calls.pending;
      forall i | w.cursor <= i < |s.out.wire|
        ensures Tracked(pending', w, t.subs[w.channel].offset, s.out.wire[i].outgoing.command)
      {
        assert Tracked(pending, w, s.subs[w.channel].offset, s.out.wire[i].outgoing.command);
      }
    }
  }

  lemma NarrowReady(s: State, w: Watch, id: nat)
    requires Ready(s, w)
    ensures Ready(s, w.(open := w.open - {id}))
  {}

  lemma ReplyReady(s: State, a: Arrival, w: Watch)
    requires Ready(s, w) && (a.reply.id != 0 ==> Settled(s, w, a.reply.id))
    requires a.reply.id == 0 && a.reply.push.Some? && a.reply.push.value.body.SubscribePush? ==>
        a.reply.push.value.channel != w.channel
    requires var t := DispatchReply(s, a);
      w.channel in t.subs && Placed(t.subs[w.channel], w)
      && s.subs[w.channel].offset <= t.subs[w.channel].offset
    ensures var t := DispatchReply(s, a);
      Ready(t, w.(open := w.open - {a.reply.id})) && Onward(s, t) && t.calls.issued == s.calls.issued
    ensures !(a.reply.id == 0 && a.reply.push.Some? && a.reply.push.value.body.DisconnectPush?) ==>
              DispatchReply(s, a).link.stream == s.link.stream
  {
    hide Ready, HandlePush, ResolvePending, Post;
    var r := a.reply;
    var t := DispatchReply(s, a);
    ReadyAnchored(s, w);
    if r.id == 0 && r.push.None? {
      PostReady(s, PongBody, a.fate, w);
      PostCalls(s, a.fate);
      NarrowReady(t, w, 0);
    } else if r.id == 0 {
      if r.push.value.body.DisconnectPush? {
        DisconnectPushReady(s, r.push.value.body.code, w);
        assert t == HandlePush(s, r.push.value);
        PushIsDisconnect(s, r.push.value);
        NarrowReady(t, w, 0);
      } else {
        PushLink(s, r.push.value);
        PushServers(s, r.push.value, w.channel);
        AdvancedReady(s, t, w, 0);
      }
    } else if r.id in s.calls.pending {
      ResolveLink(TakeOut(s, r.id), s.calls.pending[r.id], r);
      AdvancedReady(s, t, w, r.id);
    } else {
      NarrowReady(s, w, r.id);
    }
  }

  lemma PostCalls(s: State, fate: Fate)
    ensures Post(s, Command(0, PongBody), fate).calls == s.calls
    ensures Post(s, Command(0, PongBody), fate).link == s.link
  {}

  lemma PushIsDisconnect(s: State, push: Push)
    requires push.body.DisconnectPush?
    ensures HandlePush(s, push) == HandleDisconnectPush(s, push.body.code)
  {}

  lemma PushLink(s: State, push: Push)
    requires !push.body.DisconnectPush?
    ensures var t := HandlePush(s, push);
      t.calls.issued == s.calls.issued && t.calls.pending == s.calls.pending && t.out == s.out && t.link == s.link
  {}

  lemma PushServers(s: State, push: Push, c: Channel)
    requires !push.body.DisconnectPush? && (push.body.SubscribePush? ==> push.channel != c) && c !in s.servers.subs
    ensures c !in HandlePush(s, push).servers.subs
  {}

  lemma ResolveLink(s: State, req: PendingRequest, r: Reply)
    ensures var t := ResolvePending(s, req, r);
      && t.calls.issued == s.calls.issued && t.calls.pending == s.calls.pending && t.out == s.out
      && t.link.stream == s.link.stream && t.link.conn == s.link.conn && t.link.handshake == s.link.handshake
      && t.servers == s.servers
  {
    hide ResolveSubscribe, Tell;
    if req.AwaitSubscribe? { ResolveSubscribeLink(s, req.channel, r); }
  }

  lemma ResolveSubscribeLink(s: State, ch: Channel, r: Reply)
    ensures var t := ResolveSubscribe(s, ch, r).0;
      && t.calls.issued == s.calls.issued && t.calls.pending == s.calls.pending && t.out == s.out
      && t.link == s.link && t.servers == s.servers
  {
    hide Tell, Succeed, Leave, Emit;
  }

  lemma DisconnectPushReady(s: State, code: nat, w: Watch)
    requires Ready(s, w)
    ensures Ready(HandleDisconnectPush(s, code), w) && Onward(s, HandleDisconnectPush(s, code))
    ensures HandleDisconnectPush(s, code).calls.issued == s.calls.issued
  {
    hide OnTransportClose, MoveToDisconnected, Ready;
    CloseReady(s, code, true, w);
    CloseOutcome(s, code, true);
    DisconnectCalls(s, code);
  }

  lemma DisconnectCalls(s: State, code: nat)
    ensures MoveToDisconnected(s, code).calls.issued == s.calls.issued
  {}

  /** A connect result may advance the position. */
  lemma EstablishReady(s: State, r: ConnectResult, w: Watch)
    requires Ready(s, w)
    requires var t := Establish(s, r);
      w.channel in t.subs && Placed(t.subs[w.channel], w)
      && s.subs[w.channel].offset <= t.subs[w.channel].offset
    ensures var t := Establish(s, r);
      Ready(t, w) && t.out == s.out && t.calls.issued == s.calls.issued
      && t.link.stream == s.link.stream && t.link.conn == s.link.conn && t.link.handshake.None?
  {
    hide ResolvedSubs, RefreshTimers, Tell, Note;
  }

  // ---------- steps that read nothing ----------

  /** Nobody reads, so what was written does not matter. */
  lemma UnreadReady(s: State, w: Watch, v: Watch)
    requires Ready(s, w) && !s.link.stream && SameTopic(w, v) && (w.connects ==> v.connects)
    ensures Ready(s, v)
  {
    hide QueueTracked;
    if |s.calls.issued| < TWO_32 { QueueAlike(s.calls.pending, w, v, s.subs[w.channel].offset, s.out.batch.queue); }
  }

  predicate SameTopic(w: Watch, v: Watch) { v.channel == w.channel && v.epoch == w.epoch && v.strict == w.strict }

  lemma QueueAlike(pending: map<nat, PendingRequest>, w: Watch, v: Watch, x: nat, queue: seq<Outgoing>)
    requires SameTopic(w, v) && (w.connects ==> v.connects) && QueueTracked(pending, w, x, queue)
    ensures QueueTracked(pending, v, x, queue)
  {
    forall i | 0 <= i < |queue|
      ensures Tracked(pending, v, x, queue[i].command)
    {
      assert Tracked(pending, w, x, queue[i].command);
    }
  }

  /** Since `s` nothing was written but the connect command that is now awaited. */
  ghost predicate OnlyConnects(s: State, t: State) {
    && t.link.handshake.Some? && (|t.calls.issued| < TWO_32 ==> t.link.handshake.value == |t.calls.issued|)
    && forall k :: |s.out.wire| <= k < |t.out.wire| ==> t.out.wire[k].outgoing.command.id == t.link.handshake.value
  }

  lemma SendConnectWire(s: State, fate: Fate)
    ensures var t := SendConnect(s, fate);
      && s.out.wire <= t.out.wire && s.calls.issued <= t.calls.issued
      && (t.link.stream ==> OnlyConnects(s, t))
  {
    hide ConnectBodyOf, Tell, Note, CloseAll;
  }

  lemma BeginWire(s: State, o: Opening)
    ensures var t := BeginAttempt(s, o);
      && s.out.wire <= t.out.wire && s.calls.issued <= t.calls.issued
      && (t.link.stream && t.link.conn != s.link.conn ==> OnlyConnects(s, t))
      && (t.link.conn == s.link.conn && t.link.stream ==> t.link.handshake == s.link.handshake)
  {
    hide RefreshTokenIfNeeded, SendConnect;
    var s0 := s.(link := s.link.(attempts := s.link.attempts + 1));
    var s1 := RefreshTokenIfNeeded(s0, o.token).0;
    TokenWire(s0, o.token);
    var s2 := RefreshConnectData(Attach(s1), o.data);
    SendConnectWire(s2, o.fate);
    SendConnectConn(s2, o.fate);
  }

  lemma TokenWire(s: State, o: TokenOutcome)
    ensures var t := RefreshTokenIfNeeded(s, o).0;
      && t.out.wire == s.out.wire && t.calls.issued == s.calls.issued && t.link.conn == s.link.conn
      && t.link.handshake == s.link.handshake
  {
    hide MoveToDisconnected;
    DisconnectLink(s, Codes.DISCONNECT_UNAUTHORIZED);
  }

  lemma FailureWire(s: State, err: ClientError)
    ensures var t := OnHandshakeFailure(s, err);
      t.out.wire == s.out.wire && t.calls.issued == s.calls.issued && t.link.conn == s.link.conn && !t.link.stream
  {
    hide Tell, Note, CloseAll;
  }

  lemma GoneReady(t: State, w: Watch, cursor: nat)
    requires !t.link.stream && (Ready(t, w) || Ready(t, Redial(w, cursor)))
    ensures Ready(t, w.(connects := true))
  {
    hide Ready;
    if Ready(t, w) { UnreadReady(t, w, w.(connects := true)); } else { UnreadReady(t, Redial(w, cursor),
        w.(connects := true)); }
  }

  /** A step other than reading either stays on the connection, or loses it, or opens the next one. */
  lemma LocalReady(s: State, i: Input, w: Watch)
    requires Ready(s, w) && JointInvariant.Joint(s)
    requires !i.Data? && !i.Shake?
    requires !(i.Ask? && i.command.RemoveSubscription? && i.command.channel == w.channel)
    ensures var t := Step(s, i);
      && s.out.wire <= t.out.wire && s.calls.issued <= t.calls.issued
      && if t.link.stream && t.link.conn != s.link.conn
         then Ready(t, Redial(w, |s.out.wire|)) && OnlyConnects(s, t)
         else if t.link.stream then Ready(t, w) && s.link.stream && t.link.handshake == s.link.handshake
         else Ready(t, w.(connects := true))
    ensures Step(s, i).link.stream && Step(s, i).link.conn == s.link.conn && s.link.handshake.Some? ==> Step(s, i) == s
  {
    hide HandleCommand, HandleTimer, BeginAttempt, OnHandshakeFailure, OnTransportClose, Ready;
    var t := Step(s, i);
    if Enabled(s, i) {
      match i {
        case Ask(cmd, fate) =>
          var s1 := Admit(s, ReplyHandle(cmd));
          SameReady(s, s1, w);
          CommandReady(s1, cmd, fate, w);
        case Fire(timer, o) =>
          SameReady(s, Disarm(s, timer), w);
          TimerReady(Disarm(s, timer), timer, o, w);
        case Open(o) =>
          BeginReady(s, o, w);
          BeginWire(s, o);
          
        case ShakeFails(e) =>
          FailureReady(s, e, w);
          FailureWire(s, e);
        case BadData =>
          CloseReady(s, Codes.BAD_PROTOCOL, false, w);
          CloseOutcome(s, Codes.BAD_PROTOCOL, false);
        case TransportClosed(code, reconnect) =>
          CloseReady(s, code, reconnect, w);
          CloseOutcome(s, code, reconnect);
        case PingTimeout =>
          CloseReady(s, Codes.NO_PING, true, w);
          CloseOutcome(s, Codes.NO_PING, true);
      }
    }
    if !t.link.stream { GoneReady(t, w, |s.out.wire|); }
  }
}
