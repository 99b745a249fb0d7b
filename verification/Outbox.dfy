/** What is written to which connection, and in which order. */
module Outbox {
  import opened Prelude
  import Codes
  import opened Lines
  import opened Protocol
  import opened Subscriptions
  import opened ActorState
  import JointInvariant

  /**
   What was queued while connected belongs to the present connection or was written to the one it was
   queued on; frame numbers are fresh.
   */
  ghost predicate Tied(o: Out, l: Link) {
    && (forall i :: 0 <= i < |o.batch.queue| && o.batch.queue[i].whileConnected ==>
          l.phase.Connected? && o.batch.queue[i].conn == l.conn)
    && (forall i :: 0 <= i < |o.wire| && o.wire[i].outgoing.whileConnected ==>
          o.wire[i].conn == o.wire[i].outgoing.conn)
    && (forall i :: 0 <= i < |o.wire| ==> o.wire[i].frame <= i)
  }

  /** Numbered commands leave in the order of their ids, each at most once, and none before it is issued. */
  ghost predicate Ordered(o: Out, n: nat) {
    && (!o.batch.active ==> o.batch.queue == [])
    && (forall i :: 0 <= i < |o.batch.queue| ==> o.batch.queue[i].command.id <= n)
    && (forall i :: 0 <= i < |o.wire| ==> o.wire[i].outgoing.command.id <= n)
    && (forall i, j :: 0 <= i < j < |o.batch.queue| && o.batch.queue[j].command.id != 0 ==>
        o.batch.queue[i].command.id < o.batch.queue[j].command.id)
    && (forall i, j :: 0 <= i < j < |o.wire| && o.wire[j].outgoing.command.id != 0 ==>
        o.wire[i].outgoing.command.id < o.wire[j].outgoing.command.id)
    && (forall i, j :: 0 <= i < |o.wire| && 0 <= j < |o.batch.queue| && o.batch.queue[j].command.id != 0 ==>
        o.wire[i].outgoing.command.id < o.batch.queue[j].command.id)
  }

  ghost predicate Tidy(s: State) {
    && Tied(s.out, s.link)
    && (!s.out.batch.active ==> s.out.batch.queue == [])
    && (|s.calls.issued| < TWO_32 ==> Ordered(s.out, |s.calls.issued|))
  }

  // ---------- sending ----------

  lemma SendTied(o: Out, l: Link, cmd: Command, fate: Fate)
    requires Tied(o, l) && (!o.batch.active ==> o.batch.queue == [])
    ensures Tied(SendCommand(o, l, cmd, fate).0, l)
    ensures var o1 := SendCommand(o, l, cmd, fate).0; !o1.batch.active ==> o1.batch.queue == []
  {}

  lemma SendOrdered(o: Out, l: Link, cmd: Command, fate: Fate, n: nat)
    requires Ordered(o, n) && (cmd.id == 0 || cmd.id == n + 1)
    ensures Ordered(SendCommand(o, l, cmd, fate).0, n + 1)
    ensures cmd.id == 0 ==> Ordered(SendCommand(o, l, cmd, fate).0, n)
  {
    hide SendCommand, Ordered;
    var out := Outgoing(cmd, l.conn, l.phase.Connected?);
    SendCases(o, l, cmd, fate);
    MoreIssued(o, n);
    if o.batch.active { QueueOrdered(o, out, n); } else { WriteOrdered(o, Sent(l.conn, |o.wire|, out), n); }
  }

  lemma SendCases(o: Out, l: Link, cmd: Command, fate: Fate)
    ensures var out := Outgoing(cmd, l.conn, l.phase.Connected?);
      var sent := SendCommand(o, l, cmd, fate).0;
      sent == o || sent == if o.batch.active then o.(batch := BatchState(true, o.batch.queue + [out]))
                           else o.(wire := o.wire + [Sent(l.conn, |o.wire|, out)])
  {}

  lemma QueueOrdered(o: Out, out: Outgoing, n: nat)
    requires Ordered(o, n) && o.batch.active && (out.command.id == 0 || out.command.id == n + 1)
    ensures Ordered(o.(batch := BatchState(true, o.batch.queue + [out])), n + 1)
    ensures out.command.id == 0 ==> Ordered(o.(batch := BatchState(true, o.batch.queue + [out])), n)
  {}

  lemma WriteOrdered(o: Out, sent: Sent, n: nat)
    requires Ordered(o, n) && !o.batch.active && (sent.outgoing.command.id == 0 || sent.outgoing.command.id == n + 1)
    ensures Ordered(o.(wire := o.wire + [sent]), n + 1)
    ensures sent.outgoing.command.id == 0 ==> Ordered(o.(wire := o.wire + [sent]), n)
  {}

  lemma MoreIssued(o: Out, n: nat)
    requires Ordered(o, n)
    ensures Ordered(o, n + 1)
  {}

  /** The common part of all sends that take an id. */
  lemma NumberedSendTidy(s: State, t: State, body: Body, fate: Fate)
    requires Tidy(s) && t.link == s.link
    requires t.out == SendCommand(s.out, s.link, Command(NextId(s.calls), body), fate).0
    requires |t.calls.issued| == |s.calls.issued| + 1
    ensures Tidy(t)
  {
    hide SendCommand, Tied, Ordered;
    SendTied(s.out, s.link, Command(NextId(s.calls), body), fate);
    if |t.calls.issued| < TWO_32 {
      SendOrdered(s.out, s.link, Command(NextId(s.calls), body), fate, |s.calls.issued|);
    }
  }

  lemma TransactTidy(s: State, body: Body, req: PendingRequest, fate: Fate)
    requires Tidy(s)
    ensures Tidy(Transact(s, body, req, fate))
  {
    hide SendCommand, Tied, Ordered;
    NumberedSendTidy(s, Transact(s, body, req, fate), body, fate);
  }

  lemma PostTidy(s: State, body: Body, fate: Fate)
    requires Tidy(s)
    ensures Tidy(Post(s, Command(0, body), fate))
  {
    hide SendCommand, Tied, Ordered;
    SendTied(s.out, s.link, Command(0, body), fate);
    if |s.calls.issued| < TWO_32 {
      SendOrdered(s.out, s.link, Command(0, body), fate, |s.calls.issued|);
    }
  }

  lemma UnsubscribeSentTidy(s: State, ch: Channel, fate: Fate)
    requires Tidy(s)
    ensures Tidy(SendUnsubscribe(s, ch, fate))
  {
    hide SendCommand, Tied, Ordered;
    NumberedSendTidy(s, SendUnsubscribe(s, ch, fate), UnsubscribeBody(ch), fate);
  }

  lemma FlushTidy(s: State, fate: Fate)
    requires Tidy(s)
    ensures Tidy(s.(out := FlushBatch(s.out, s.link, fate)))
  {}

  // ---------- handlers ----------

  /** Nothing outgoing changes and the phase stays, or nothing at all is queued. */
  lemma SameTidy(s: State, t: State)
    requires Tidy(s) && t.calls.issued == s.calls.issued
    requires (t.out == s.out && (t.link.phase == s.link.phase && t.link.conn == s.link.conn))
          || (t.out == s.out && !s.link.phase.Connected?)
          || t.out == s.out.(batch := NO_BATCH)
    ensures Tidy(t)
  {}

  lemma CloseTidy(s: State, code: nat, reconnect: bool)
    requires Tidy(s)
    ensures Tidy(OnTransportClose(s, code, reconnect)) && Tidy(MoveToDisconnected(s, code)) && Tidy(MoveToClosed(s))
  {}

  lemma SendSubscribeTidy(s: State, ch: Channel, sub: SubState, sender: Option<Handle>, fate: Fate)
    requires Tidy(s)
    ensures Tidy(SendSubscribe(s, ch, sub, sender, fate))
  {
    hide Transact, Ordered, Tied;
    TransactTidy(s.(subs := s.subs[ch := sub]), SubscribeBody(BuildRequest(ch, sub)), AwaitSubscribe(ch, sender), fate);
  }

  lemma DoSubscribeTidy(s: State, ch: Channel, o: Oracle)
    requires Tidy(s)
    ensures Tidy(DoSubscribe(s, ch, o))
    ensures DoSubscribe(s, ch, o).link == s.link
  {
    hide SendSubscribe, Ordered, Tied;
    if ch in s.subs {
      DoSubscribeLink(s, ch, o);
      SendSubscribeTidy(s, ch, RefreshData(s.subs[ch], o.data), None, o.fate);
      if o.token.Token? {
        SendSubscribeTidy(s, ch, RefreshData(s.subs[ch].(token := o.token.token), o.data), None, o.fate);
      }
    }
  }

  lemma DoSubscribeLink(s: State, ch: Channel, o: Oracle)
    ensures DoSubscribe(s, ch, o).link == s.link
  {}

  lemma PushTidy(s: State, push: Push)
    requires Tidy(s)
    ensures Tidy(HandlePush(s, push))
  {
    hide OnTransportClose, MoveToDisconnected, Ordered, Tied;
    match push.body {
      case DisconnectPush(code) => CloseTidy(s, code, true);
      case _ =>
    }
  }

  lemma ResolveTidy(s: State, req: PendingRequest, r: Reply)
    requires Tidy(s)
    ensures Tidy(ResolvePending(s, req, r))
  {
    hide Tidy;
    SameTidy(s, ResolvePending(s, req, r));
  }

  lemma DispatchTidy(s: State, a: Arrival)
    requires Tidy(s)
    ensures Tidy(DispatchReply(s, a))
  {
    hide HandlePush, ResolvePending, Post, Ordered, Tied;
    if a.reply.id == 0 {
      if a.reply.push.Some? {
        PushTidy(s, a.reply.push.value);
      } else {
        PostTidy(s, PongBody, a.fate);
      }
    } else if a.reply.id in s.calls.pending {
      ResolveTidy(TakeOut(s, a.reply.id), s.calls.pending[a.reply.id], a.reply);
    }
  }

  lemma {:induction false} DispatchAllTidy(s: State, arrivals: seq<Arrival>)
    requires Tidy(s)
    ensures Tidy(DispatchAll(s, arrivals))
    decreases |arrivals|
  {
    hide DispatchReply, Tidy;
    if arrivals != [] {
      DispatchAllTidy(s, arrivals[..|arrivals| - 1]);
      DispatchTidy(DispatchAll(s, arrivals[..|arrivals| - 1]), arrivals[|arrivals| - 1]);
    }
  }

  lemma FailureTidy(s: State, err: ClientError)
    requires Tidy(s)
    ensures Tidy(OnHandshakeFailure(s, err))
  {
    hide MoveToDisconnected, Ordered, Tied;
    var s1 := EmitError(s.(link := Detach(s.link).(handshake := None)));
    SameTidy(s, s1);
    if err.Server? {
      CloseTidy(s1, err.error.code, true);
      SameTidy(s1, RefreshRequired(s1, true));
    }
  }

  lemma SendConnectTidy(s: State, fate: Fate)
    requires Tidy(s)
    ensures Tidy(SendConnect(s, fate))
  {
    hide OnHandshakeFailure, SendCommand, Ordered, Tied;
    var body := ConnectBodyOf(s);
    var (out, err) := SendCommand(s.out, s.link, Command(NextId(s.calls), body), fate);
    var s1 := s.(calls := Issue(s.calls, body, None), out := out);
    NumberedSendTidy(s, s1, body, fate);
    if err.Some? {
      FailureTidy(s1, err.value);
    } else {
      SameTidy(s1, SendConnect(s, fate));
    }
  }

  lemma BeginTidy(s: State, o: Opening)
    requires Tidy(s) && !s.link.phase.Connected?
    ensures Tidy(BeginAttempt(s, o))
  {
    hide RefreshTokenIfNeeded, SendConnect, Ordered, Tied;
    var s0 := s.(link := s.link.(attempts := s.link.attempts + 1));
    SameTidy(s, s0);
    RefreshTokenTidy(s0, o.token);
    var s1 := RefreshTokenIfNeeded(s0, o.token).0;
    SameTidy(s1, RefreshConnectData(Attach(s1), o.data));
    SendConnectTidy(RefreshConnectData(Attach(s1), o.data), o.fate);
  }

  lemma RefreshTokenTidy(s: State, o: TokenOutcome)
    requires Tidy(s) && !s.link.phase.Connected?
    ensures Tidy(RefreshTokenIfNeeded(s, o).0) && !RefreshTokenIfNeeded(s, o).0.link.phase.Connected?
  {
    hide Tidy;
    SameTidy(s, RefreshTokenIfNeeded(s, o).0);
  }

  lemma EstablishTidy(s: State, r: ConnectResult)
    requires Tidy(s) && !s.link.phase.Connected?
    ensures Tidy(Establish(s, r))
  {}

  lemma {:induction false} ResubscribeTidy(s: State, plan: seq<Attempt>)
    requires Tidy(s)
    ensures Tidy(ResubscribeAll(s, plan))
    decreases |plan|
  {
    hide DoSubscribe, Tidy;
    if plan != [] {
      var last := plan[|plan| - 1];
      ResubscribeTidy(s, plan[..|plan| - 1]);
      DoSubscribeTidy(ResubscribeAll(s, plan[..|plan| - 1]), last.channel, last.oracle);
    }
  }

  lemma HandshakeFrameTidy(s: State, arrivals: seq<Arrival>, plan: seq<Attempt>)
    requires Tidy(s) && JointInvariant.Joint(s) && s.link.handshake.Some?
    ensures Tidy(HandshakeFrame(s, s.link.handshake.value, arrivals, plan))
  {
    hide DispatchAll, Establish, ResubscribeAll, OnHandshakeFailure, Ordered, Tied;
    var n := Before(arrivals, s.link.handshake.value);
    var s1 := DispatchAll(s, arrivals[..n]);
    DispatchAllTidy(s, arrivals[..n]);
    JointInvariant.DispatchAllKeeps(s, arrivals[..n]);
    JointInvariant.DispatchWaits(s, arrivals[..n]);
    if n < |arrivals| {
      match HandshakeResult(arrivals[n].reply) {
        case Err(e) => FailureTidy(s1, e);
        case Ok(r) =>
          EstablishTidy(s1, r);
          ResubscribeTidy(Establish(s1, r), plan);
      }
    }
  }

  lemma CommandTidy(s: State, c: ActorCommand, fate: Fate)
    requires Tidy(s)
    ensures Tidy(HandleCommand(s, c, fate))
  {
    hide Transact, MoveToDisconnected, MoveToClosed, SendSubscribe, SendUnsubscribe, HandleUnsubscribe, FlushBatch,
         Post, Ordered, Tied;
    match c {
      case Connect(h) => SameTidy(s, HandleCommand(s, c, fate));
      case Disconnect(h) => CloseTidy(s, Codes.DISCONNECT_CALLED, true);
      case Close(h) => CloseTidy(s, 0, true);
      case RemoveSubscription(ch, h) =>
        if ch in s.subs { UnsubscribeSentTidy(Forget(s, ch), ch, fate); }
      case Subscribe(ch, h) =>
        if ch in s.subs {
          SendSubscribeTidy(s, ch, BackToSubscribing(s.subs[ch].(attempts := 0), Codes.SUBSCRIBE_CALLED), Some(h),
              fate);
        }
      case Unsubscribe(ch, h) => UnsubscribeTidy(s, ch, h, fate);
      case SendRequest(payload, h) => TransactTidy(s, RequestBody(payload), AwaitReply(h), fate);
      case Send(data) => PostTidy(s, SendBody(data), fate);
      case StartBatching => StartTidy(s);
      case StopBatching => FlushTidy(s, fate);
      case _ =>
    }
  }

  lemma StartTidy(s: State)
    requires Tidy(s)
    ensures Tidy(s.(out := s.out.(batch := s.out.batch.(active := true))))
  {}

  lemma UnsubscribeTidy(s: State, ch: Channel, h: Handle, fate: Fate)
    requires Tidy(s)
    ensures Tidy(HandleUnsubscribe(s, ch, h, fate))
  {
    hide OnTransportClose, SendUnsubscribe, SendFails, Tell, Tidy;
    SameTidy(s, Respond(s, h, Done));
    if ch in s.subs {
      var s1 := s.(subs := s.subs[ch := Leave(s.subs[ch], Codes.UNSUBSCRIBE_CALLED)]);
      SameTidy(s, s1);
      SameTidy(s1, Respond(s1, h, Done));
      UnsubscribeSentTidy(s1, ch, fate);
      var s2 := SendUnsubscribe(s1, ch, fate);
      SameTidy(s2, Respond(s2, h, Done));
      CloseTidy(Respond(s2, h, Done), Codes.UNSUBSCRIBE_ERROR, true);
    }
  }

  lemma TimerTidy(s: State, t: Timer, o: Oracle)
    requires Tidy(s)
    ensures Tidy(HandleTimer(s, t, o))
  {
    hide Transact, MoveToDisconnected, HandleRequestTimeout, DoSubscribe, Ordered, Tied, SendCommand;
    match t {
      case Resubscribe(ch) => DoSubscribeTidy(s, ch, o);
      case RequestTimeout(id) => TimeoutTidy(s, id);
      case RefreshToken =>
        CloseTidy(s, Codes.DISCONNECT_UNAUTHORIZED, true);
        var s1 := if s.config.hasGetToken && o.token.Token? then s.(config := s.config.(token := o.token.token)) else s;
        TransactTidy(s1, RefreshBody(s1.config.token), AwaitRefresh, o.fate);
      case RefreshSubToken(ch) =>
        if ch in s.subs && o.token.Token? {
          TransactTidy(s.(subs := s.subs[ch := s.subs[ch].(token := o.token.token)]), SubRefreshBody(ch, o.token.token),
              AwaitSubRefresh(ch), o.fate);
        }
    }
  }

  lemma TimeoutTidy(s: State, id: nat)
    requires Tidy(s)
    ensures Tidy(HandleRequestTimeout(s, id))
  {
    hide Tidy;
    SameTidy(s, HandleRequestTimeout(s, id));
  }

  // ---------- runs ----------

  lemma StepTidy(s: State, i: Input)
    requires Tidy(s) && JointInvariant.Joint(s)
    ensures Tidy(Step(s, i))
  {
    hide HandleCommand, HandleTimer, BeginAttempt, HandshakeFrame, OnHandshakeFailure, DispatchAll, OnTransportClose,
         Ordered, Tied;
    if Enabled(s, i) {
      match i {
        case Ask(c, fate) => CommandTidy(Admit(s, ReplyHandle(c)), c, fate);
        case Fire(t, o) => TimerTidy(Disarm(s, t), t, o);
        case Open(o) => BeginTidy(s, o);
        case Shake(arrivals, plan) => HandshakeFrameTidy(s, arrivals, plan);
        case ShakeFails(e) => FailureTidy(s, e);
        case Data(arrivals) => DispatchAllTidy(s, arrivals);
        case BadData => CloseTidy(s, Codes.BAD_PROTOCOL, false);
        case TransportClosed(code, reconnect) => CloseTidy(s, code, reconnect);
        case PingTimeout => CloseTidy(s, Codes.NO_PING, true);
      }
    }
  }

  /** After every run: what was queued while connected only ever reaches its own connection, in issue order. */
  lemma {:induction false} RunTidy(config: ClientConfig, inputs: seq<Input>)
    ensures Tidy(Run(Init(config), inputs))
    decreases |inputs|
  {
    hide Step, JointInvariant.Joint;
    if inputs != [] {
      RunTidy(config, inputs[..|inputs| - 1]);
      JointInvariant.RunJoint(config, inputs[..|inputs| - 1]);
      StepTidy(Run(Init(config), inputs[..|inputs| - 1]), inputs[|inputs| - 1]);
    }
  }

  /** No numbered command is ever written twice. */
  lemma WrittenOnce(config: ClientConfig, inputs: seq<Input>, i: nat, j: nat)
    requires var s := Run(Init(config), inputs);
      |s.calls.issued| < TWO_32 && i < j < |s.out.wire| && s.out.wire[i].outgoing.command.id != 0
    ensures var s := Run(Init(config), inputs); s.out.wire[j].outgoing.command.id != s.out.wire[i].outgoing.command.id
  {
    RunTidy(config, inputs);
  }

  // ---------- frames ----------

  function Queued(queue: seq<Outgoing>): (cmds: seq<Command>)
    ensures |cmds| == |queue| && forall i :: 0 <= i < |queue| ==> cmds[i] == queue[i].command
  {
    seq(|queue|, i requires 0 <= i < |queue| => queue[i].command)
  }

  /** The commands written as frame `frame`, in the order in which they stand in it. */
  function FrameCommands(wire: seq<Sent>, frame: nat): seq<Command>
    decreases |wire|
  {
    if wire == [] then []
    else
      var n := |wire| - 1;
      FrameCommands(wire[..n], frame) + if wire[n].frame == frame then [wire[n].outgoing.command] else []
  }

  lemma {:induction false} FrameConcat(wire: seq<Sent>, more: seq<Sent>, frame: nat)
    ensures FrameCommands(wire + more, frame) == FrameCommands(wire, frame) + FrameCommands(more, frame)
    decreases |more|
  {
    if more == [] {
      assert wire + more == wire;
    } else {
      var n := |more| - 1;
      FrameConcat(wire, more[..n], frame);
      assert (wire + more)[..|wire| + n] == wire + more[..n];
    }
  }

  lemma {:induction false} NoSuchFrame(wire: seq<Sent>, frame: nat)
    requires forall i :: 0 <= i < |wire| ==> wire[i].frame != frame
    ensures FrameCommands(wire, frame) == []
    decreases |wire|
  {
    if wire != [] { NoSuchFrame(wire[..|wire| - 1], frame); }
  }

  lemma {:induction false} StampedFrame(conn: nat, frame: nat, queue: seq<Outgoing>)
    ensures FrameCommands(Stamp(conn, frame, queue), frame) == Queued(queue)
    decreases |queue|
  {
    if queue != [] {
      var n := |queue| - 1;
      StampedFrame(conn, frame, queue[..n]);
      assert Stamp(conn, frame, queue)[..n] == Stamp(conn, frame, queue[..n]);
      assert Queued(queue) == Queued(queue[..n]) + [queue[n].command];
    }
  }

  /** What is written at once is a frame of its own, and no earlier frame changes. */
  lemma NewFrame(s: State, conn: nat, queue: seq<Outgoing>)
    requires Tidy(s)
    ensures var wire := s.out.wire + Stamp(conn, |s.out.wire|, queue);
      && FrameCommands(wire, |s.out.wire|) == Queued(queue)
      && forall frame :: 0 <= frame < |s.out.wire| ==> FrameCommands(wire, frame) == FrameCommands(s.out.wire, frame)
  {
    var added := Stamp(conn, |s.out.wire|, queue);
    NoSuchFrame(s.out.wire, |s.out.wire|);
    StampedFrame(conn, |s.out.wire|, queue);
    FrameConcat(s.out.wire, added, |s.out.wire|);
    forall frame | 0 <= frame < |s.out.wire|
      ensures FrameCommands(s.out.wire + added, frame) == FrameCommands(s.out.wire, frame)
    {
      NoSuchFrame(added, frame);
      FrameConcat(s.out.wire, added, frame);
    }
  }

  /**
   A batch is flushed as one frame: after any run, what `StopBatching` writes is a single new frame that
   holds the queued commands in order, and its bytes are those of encoding them all at once.
   */
  lemma FlushedFrame(
      config: ClientConfig, inputs: seq<Input>, fate: Fate, serialize: Command -> Option<Bytes>, queued: seq<Bytes>)
    requires var s := Run(Init(config), inputs);
      && s.link.sink && fate.Accepted?
      && IsQueueOf(config.protocol, queued, Queued(s.out.batch.queue), serialize)
    ensures var s := Run(Init(config), inputs);
      var written := FrameCommands(FlushBatch(s.out, s.link, fate).wire, |s.out.wire|);
      && written == Queued(s.out.batch.queue)
      && Encode(config.protocol, written, serialize) == Some(FlushFrame(config.protocol, queued))
    ensures var s := Run(Init(config), inputs);
      forall frame :: 0 <= frame < |s.out.wire| ==>
        FrameCommands(FlushBatch(s.out, s.link, fate).wire, frame) == FrameCommands(s.out.wire, frame)
  {
    hide Run, Tidy;
    var s := Run(Init(config), inputs);
    RunTidy(config, inputs);
    NewFrame(s, s.link.conn, s.out.batch.queue);
    FlushEqualsEncode(config.protocol, queued, Queued(s.out.batch.queue), serialize);
  }
}
