/** What a step can do, spelled out field by field, with the codes of the protocol as numbers. */
module Outcomes {
  import opened Prelude
  import opened Protocol
  import opened Subscriptions
  import opened ActorState

  // ---------- who is told what ----------

  /** The reply to this request is for the caller. */
  predicate IsFor(req: PendingRequest, h: Handle) {
    req == AwaitReply(h) || (req.AwaitSubscribe? && req.sender == Some(h))
  }

  ghost predicate Pends(c: Calls, h: Handle) { exists id :: id in c.pending && IsFor(c.pending[id], h) }

  ghost predicate Attends(subs: map<Channel, SubState>, h: Handle) {
    exists ch :: ch in subs && !subs[ch].state.Unsubscribed? && h in subs[ch].waiters
  }

  /** The callers whose request awaits a reply. */
  ghost function Pending(c: Calls): iset<Handle> { iset h | Pends(c, h) }

  /** The waiters of the subscriptions that are not unsubscribed. */
  ghost function Attending(subs: map<Channel, SubState>): iset<Handle> { iset h | Attends(subs, h) }

  ghost function Listed(hs: seq<Handle>): iset<Handle> { iset h | h in hs }

  /** Exactly those in `who` have been told, and it was `a`. */
  ghost predicate Told(d: Desk, e: Desk, who: iset<Handle>, a: Answer) {
    forall h :: (h in e.answers <==> h in d.answers || h in who)
                && (h in who ==> e.answers[h] == a)
                && (h in d.answers && h !in who ==> e.answers[h] == d.answers[h])
  }

  lemma TellTold(d: Desk, hs: set<Handle>, who: iset<Handle>, a: Answer)
    requires forall h :: h in who <==> h in hs
    ensures Told(d, Tell(d, hs, a), who, a)
  {}

  lemma TellKeeps(d: Desk, hs: set<Handle>, a: Answer)
    ensures Tell(d, hs, a) == d.(answers := Tell(d, hs, a).answers)
  {}

  lemma PendingCallers(c: Calls)
    ensures forall h :: h in Pending(c) <==> h in CallersIn(c.pending)
  {
    forall h
      ensures h in Pending(c) <==> h in CallersIn(c.pending)
    {
      if h in Pending(c) {
        var id :| id in c.pending && IsFor(c.pending[id], h);
        assert CallerOf(c.pending[id]) == Some(h);
      }
      if h in CallersIn(c.pending) {
        var id :| id in c.pending && CallerOf(c.pending[id]) == Some(h);
        assert IsFor(c.pending[id], h);
      }
    }
  }

  lemma AttendingWaiters(subs: map<Channel, SubState>)
    ensures forall h :: h in Attending(subs) <==> h in WaitersIn(subs, Active(subs))
  {
    forall h
      ensures h in Attending(subs) <==> h in WaitersIn(subs, Active(subs))
    {
      if h in Attending(subs) {
        var ch :| ch in subs && !subs[ch].state.Unsubscribed? && h in subs[ch].waiters;
        assert ch in Active(subs);
      }
    }
  }

  /** The caller's handle has come in. */
  function Entered(s: State, h: Handle): State { s.(desk := s.desk.(callers := s.desk.callers + {h})) }

  /** The caller is told, and nothing else happens. */
  function Replied(s: State, h: Handle, a: Answer): State {
    s.(desk := s.desk.(callers := s.desk.callers + {h}, answers := s.desk.answers[h := a]))
  }

  lemma RespondReplies(s: State, h: Handle, a: Answer)
    ensures Respond(Admit(s, Some(h)), h, a) == Replied(s, h, a)
  {
    assert Tell(s.desk, {h}, a).answers == s.desk.answers[h := a];
  }

  // ---------- what goes out ----------

  /** What keeps a command from leaving: it does not encode, or no batch is open and the transport fails. */
  function Obstacle(s: State, fate: Fate): Option<ClientError> {
    if fate.Unencodable? then Some(BadMessage)
    else if s.out.batch.active then None
    else if !s.link.sink then Some(ClientDisconnected)
    else if fate.Refused? then Some(Transport)
    else None
  }

  /** The command comes last in the open batch, or alone in a new frame of the present connection. */
  ghost predicate Leaves(s: State, out: Out, cmd: Command) {
    var outgoing := Outgoing(cmd, s.link.conn, s.link.phase.Connected?);
    if s.out.batch.active then out == Out(BatchState(true, s.out.batch.queue + [outgoing]), s.out.wire)
    else out == Out(s.out.batch, s.out.wire + [Sent(s.link.conn, |s.out.wire|, outgoing)])
  }

  /** A command whose fate nobody asks for. */
  ghost predicate Posts(s: State, t: State, cmd: Command, fate: Fate) {
    && t == s.(out := t.out)
    && if Obstacle(s, fate).None? then Leaves(s, t.out, cmd) else t.out == s.out
  }

  /** The next of the numbers 1, 2, 3 and so on, in 32 bits. */
  function FreshId(c: Calls): nat { (|c.issued| + 1) % 0x1_0000_0000 }

  /** A numbered command: its request waits for the reply, or its caller is told what kept it from leaving. */
  ghost predicate Sends(
      s: State, t: State, body: Body, req: PendingRequest, caller: Option<Handle>, timed: bool, fate: Fate)
  {
    var id := FreshId(s.calls);
    && t == s.(calls := t.calls, out := t.out, desk := t.desk)
    && t.calls.issued == s.calls.issued + [Issued(body, caller)]
    && t.calls.timers == s.calls.timers + (if timed then multiset{RequestTimeout(id)} else multiset{})
    && match Obstacle(s, fate)
       case None =>
         t.calls.pending == s.calls.pending[id := req] && t.desk == s.desk && Leaves(s, t.out, Command(id, body))
       case Some(e) =>
         && t.calls.pending == s.calls.pending - {id} && t.out == s.out
         && t.desk ==
            if caller.None? then s.desk else s.desk.(answers := s.desk.answers[caller.value := Failed(e)])
  }

  lemma PostPosts(s: State, cmd: Command, fate: Fate)
    ensures Posts(s, Post(s, cmd, fate), cmd, fate)
  {}

  lemma TransactSends(s: State, body: Body, req: PendingRequest, fate: Fate)
    ensures Sends(s, Transact(s, body, req, fate), body, req,
        if req.AwaitReply? then Some(req.caller) else if req.AwaitSubscribe? then req.sender else None,
        req.AwaitReply? || req.AwaitSubscribe?, fate)
    ensures SendFails(s, body, fate) <==> Obstacle(s, fate).Some?
  {
    hide Tell, OptionSet;
    var err := SendCommand(s.out, s.link, Command(NextId(s.calls), body), fate).1;
    if err.Some? { TellOne(s.desk, CallerOf(req), Failed(err.value)); }
  }

  lemma TellOne(d: Desk, caller: Option<Handle>, a: Answer)
    ensures Tell(d, OptionSet(caller), a)
         == if caller.None? then d else d.(answers := d.answers[caller.value := a])
  {
    if caller.None? {
      assert Tell(d, {}, a).answers == d.answers;
    } else {
      assert Tell(d, {caller.value}, a).answers == d.answers[caller.value := a];
    }
  }

  /** The subscribe request says of the subscription what is to be said, field by field. */
  predicate AsksFor(q: SubscribeRequest, ch: Channel, sub: SubState) {
    && q.channel == ch
    && q.token == sub.token
    && q.data == sub.config.data
    && q.positioned == sub.config.positioned
    && q.recoverable == sub.config.recoverable
    && q.joinLeave == sub.config.joinLeave
    && q.delta == sub.config.delta
    && q.epoch == sub.epoch
    && q.offset == sub.offset
    && (q.recover <==> sub.recover && (sub.offset > 0 || sub.epoch != ""))
  }

  /** A subscribe command for the subscription, whose reply is for `caller`. */
  ghost predicate SendsSubscribe(s: State, t: State, ch: Channel, sub: SubState, caller: Option<Handle>, fate: Fate) {
    var m := s.(subs := s.subs[ch := sub]);
    exists q :: AsksFor(q, ch, sub) && Sends(m, t, SubscribeBody(q), AwaitSubscribe(ch, caller), caller, true, fate)
  }

  lemma SendSubscribeSends(s: State, ch: Channel, sub: SubState, caller: Option<Handle>, fate: Fate)
    ensures SendsSubscribe(s, SendSubscribe(s, ch, sub, caller, fate), ch, sub, caller, fate)
  {
    hide Transact, Sends;
    var q := BuildRequest(ch, sub);
    TransactSends(s.(subs := s.subs[ch := sub]), SubscribeBody(q), AwaitSubscribe(ch, caller), fate);
    assert AsksFor(q, ch, sub);
  }

  // ---------- event logs ----------

  /** Every server-side channel in `chs` has seen `e`, and no other has seen anything. */
  ghost predicate Announced(s: State, t: State, chs: set<Channel>, e: ServerEvent) {
    && t.servers.log.Keys == s.servers.log.Keys + chs
    && forall ch :: ch in t.servers.log ==>
         t.servers.log[ch] ==
         if ch !in chs then s.servers.log[ch] else (if ch in s.servers.log then s.servers.log[ch] else []) + [e]
  }

  // ---------- the ends of a connection ----------

  /** The connection is gone; its requests have failed and its batch is lost. */
  ghost predicate CutOff(s: State, t: State) {
    && t.config == s.config
    && !t.link.sink && !t.link.stream
    && t.calls == s.calls.(pending := map[])
    && t.out == Out(BatchState(false, []), s.out.wire)
  }

  /** The client is connecting again, and what was subscribed is to be subscribed again from where it stands. */
  ghost predicate Reconnects(s: State, t: State, code: nat) {
    && CutOff(s, t)
    && t.link == s.link.(phase := Connecting, shared := 1, sink := false, stream := false)
    && t.subs.Keys == s.subs.Keys
    && (forall ch :: ch in s.subs ==>
          t.subs[ch] ==
          if !s.subs[ch].state.Subscribed? then s.subs[ch]
          else s.subs[ch].(state := Subscribing, attempts := 0, log := s.subs[ch].log + [SubscribingEvent(1)]))
    && t.servers.subs == s.servers.subs && Announced(s, t, s.servers.subs.Keys, ServerSubscribing(1))
    && t.desk == s.desk.(answers := t.desk.answers)
    && Told(s.desk, t.desk, Pending(s.calls), Failed(ClientDisconnected))
    && t.clientLog == s.clientLog + [ConnectingEvent(code)]
  }

  /** The client gives up the connection, every subscription and everybody who waited for either. */
  ghost predicate Disconnects(s: State, t: State, code: nat) {
    && CutOff(s, t)
    && t.link == s.link.(phase := Disconnected, shared := 0, clientId := "", connectRequested := false,
                         sink := false, stream := false)
    && (if s.link.phase.Connected? then Ended(s.subs, t.subs) else t.subs == s.subs)
    && t.servers.subs == map[] && Announced(s, t, s.servers.subs.Keys, ServerUnsubscribed(code))
    && t.desk == s.desk.(answers := t.desk.answers, connectWaiters := [])
    && Told(s.desk, t.desk,
         Pending(s.calls) + Listed(s.desk.connectWaiters)
             + (if s.link.phase.Connected? then Attending(s.subs) else iset{}),
         Failed(ClientDisconnected))
    && t.clientLog == s.clientLog + [DisconnectedEvent(code)]
  }

  /** Every subscription that was not unsubscribed is, with one event of code 2 and nobody waiting. */
  ghost predicate Ended(subs: map<Channel, SubState>, subs': map<Channel, SubState>) {
    && subs'.Keys == subs.Keys
    && forall ch :: ch in subs ==>
         subs'[ch] ==
         if subs[ch].state.Unsubscribed? then subs[ch]
         else subs[ch].(state := Unsubscribed, waiters := [], log := subs[ch].log + [UnsubscribedEvent(2)])
  }

  /** The client is closed for good; whoever waited for a reply hears of the connection, the others of the client. */
  ghost predicate Closes(s: State, t: State) {
    && CutOff(s, t)
    && t.link == s.link.(phase := Closed, shared := 3, sink := false, stream := false)
    && Ended(s.subs, t.subs)
    && t.servers == s.servers && t.clientLog == s.clientLog
    && t.desk == s.desk.(answers := t.desk.answers, connectWaiters := [])
    && exists d: Desk ::
         && Told(s.desk, d, Pending(s.calls), Failed(ClientDisconnected))
         && Told(d, t.desk, Listed(s.desk.connectWaiters) + Attending(s.subs), Failed(ClientClosed))
  }

  lemma NoteAnnounces(s: State, t: State, chs: set<Channel>, e: ServerEvent)
    requires t.servers.log == Note(s.servers.log, chs, e)
    ensures Announced(s, t, chs, e)
  {}

  lemma CloseEnds(subs: map<Channel, SubState>)
    ensures Ended(subs, CloseAll(subs))
  {}

  lemma SuspendReconnects(s: State, code: nat)
    requires s.link.connectRequested
    ensures Reconnects(s, OnTransportClose(s, code, true), code)
  {
    hide CallersIn, Pending, Note, Announced, Told, Tell;
    var t := OnTransportClose(s, code, true);
    PendingCallers(s.calls);
    TellTold(s.desk, CallersIn(s.calls.pending), Pending(s.calls), Failed(ClientDisconnected));
    TellKeeps(s.desk, CallersIn(s.calls.pending), Failed(ClientDisconnected));
    NoteAnnounces(s, t, s.servers.subs.Keys, ServerSubscribing(1));
  }

  lemma MoveDisconnects(s: State, code: nat)
    ensures Disconnects(s, MoveToDisconnected(s, code), code)
  {
    hide CallersIn, Pending, WaitersIn, Attending, Active, Note, Announced, CloseAll, Ended, Told, Tell;
    var t := MoveToDisconnected(s, code);
    PendingCallers(s.calls);
    AttendingWaiters(s.subs);
    var hs := CallersIn(s.calls.pending) + SetOf(s.desk.connectWaiters)
        + (if s.link.phase.Connected? then WaitersIn(s.subs, Active(s.subs)) else {});
    var who := Pending(s.calls) + Listed(s.desk.connectWaiters)
        + (if s.link.phase.Connected? then Attending(s.subs) else iset{});
    TellTold(s.desk.(connectWaiters := []), hs, who, Failed(ClientDisconnected));
    TellKeeps(s.desk.(connectWaiters := []), hs, Failed(ClientDisconnected));
    SameAnswers(s.desk, s.desk.(connectWaiters := []), t.desk, who, Failed(ClientDisconnected));
    NoteAnnounces(s, t, s.servers.subs.Keys, ServerUnsubscribed(code));
    CloseEnds(s.subs);
  }

  lemma MoveCloses(s: State)
    ensures Closes(s, MoveToClosed(s))
  {
    hide CallersIn, Pending, WaitersIn, Attending, Active, Told, Tell, CloseAll, Ended;
    PendingCallers(s.calls);
    AttendingWaiters(s.subs);
    var d := Tell(s.desk.(connectWaiters := []), CallersIn(s.calls.pending), Failed(ClientDisconnected));
    var hs := SetOf(s.desk.connectWaiters) + WaitersIn(s.subs, Active(s.subs));
    TellTold(s.desk.(connectWaiters := []), CallersIn(s.calls.pending), Pending(s.calls), Failed(ClientDisconnected));
    SameAnswers(s.desk, s.desk.(connectWaiters := []), d, Pending(s.calls), Failed(ClientDisconnected));
    TellTold(d, hs, Listed(s.desk.connectWaiters) + Attending(s.subs), Failed(ClientClosed));
    TellKeeps(d, hs, Failed(ClientClosed));
    TellKeeps(s.desk.(connectWaiters := []), CallersIn(s.calls.pending), Failed(ClientDisconnected));
    CloseEnds(s.subs);
  }

  /** Who was told depends on the answers alone. */
  lemma SameAnswers(d: Desk, d': Desk, e: Desk, who: iset<Handle>, a: Answer)
    requires d'.answers == d.answers && Told(d', e, who, a)
    ensures Told(d, e, who, a)
  {}

  /** A closed transport leads to one of the two, as reconnecting is offered and wanted. */
  lemma CloseLeads(s: State, code: nat, reconnect: bool)
    ensures if reconnect && s.link.connectRequested then Reconnects(s, OnTransportClose(s, code, reconnect), code)
            else Disconnects(s, OnTransportClose(s, code, reconnect), code)
  {
    hide Reconnects, Disconnects, MoveToDisconnected;
    if reconnect && s.link.connectRequested {
      SuspendReconnects(s, code);
    } else {
      MoveDisconnects(s, code);
    }
  }
}
