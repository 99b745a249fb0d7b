/**
 Runs written out, for every channel, subscription and protocol: a wake-up that is lost, entries
 that are lost, a subscription that only the client holds. Where the theorems stop, they have to.
 */
module ConcreteRuns {
  import opened Prelude
  import Codes
  import opened Lines
  import opened Protocol
  import opened Subscriptions
  import opened ActorState
  import opened SubHistory
  import opened Recovery
  import opened GapFree
  import Anchoring
  import DeltaChain
  import WakeUps

  // ---------- up to the first subscribe command ----------

  function Plain(protocol: ProtocolType): ClientConfig { ClientConfig("t", false, [], false, protocol) }

  const DIAL := Opening(Denied, true, None, Accepted)

  const WELCOME := Reply(1, None, None, Some(ConnectResult("c", 0, false, false, 0, map[])), None, None, None)

  function Retry(ch: Channel, fate: Fate): seq<Attempt> { [Attempt(ch, Oracle(Token("t"), None, fate))] }

  const NEW_LINK := Link(Disconnected, 0, "", false, false, None, 0, 0, false, DEFAULT_PING, false,
      TokenState(false, 0, false))
  const OPEN_LINK := Link(Connecting, 1, "", true, true, Some(1), 1, 1, true, DEFAULT_PING, false,
      TokenState(false, 0, false))
  const UP_LINK := Link(Connected, 2, "c", true, true, None, 1, 0, true, DEFAULT_PING, false,
      TokenState(false, 0, false))
  const NO_CALLS := Calls([], map[], multiset{}, {})

  /** A client with one subscription that has written nothing yet. */
  ghost predicate Idles(s: State, link: Link, ch: Channel, sub: SubState, protocol: ProtocolType) {
    && s.config == Plain(protocol) && s.link == link && s.calls == NO_CALLS && s.out == Out(NO_BATCH, [])
    && s.subs == map[ch := sub] && s.servers.subs == map[]
  }

  function Wanted(sub: SubscriptionConfig): SubState {
    BackToSubscribing(NewSub(sub), Codes.SUBSCRIBE_CALLED).(waiters := [1])
  }

  ghost function Created(protocol: ProtocolType, ch: Channel, sub: SubscriptionConfig): State {
    Step(Init(Plain(protocol)), Ask(NewSubscription(ch, sub, 0), Accepted))
  }

  ghost function Asked(protocol: ProtocolType, ch: Channel, sub: SubscriptionConfig): State {
    Step(Created(protocol, ch, sub), Ask(Subscribe(ch, 1), Accepted))
  }

  ghost function Dialling(protocol: ProtocolType, ch: Channel, sub: SubscriptionConfig): State {
    Step(Asked(protocol, ch, sub), Ask(Connect(2), Accepted))
  }

  ghost function Shaking(protocol: ProtocolType, ch: Channel, sub: SubscriptionConfig): State {
    Step(Dialling(protocol, ch, sub), Open(DIAL))
  }

  ghost function Up(protocol: ProtocolType, ch: Channel, sub: SubscriptionConfig, fate: Fate): State {
    Step(Shaking(protocol, ch, sub), Shake([Arrival(WELCOME, Accepted)], Retry(ch, fate)))
  }

  lemma CreatedIs(protocol: ProtocolType, ch: Channel, sub: SubscriptionConfig)
    ensures var s := Created(protocol, ch, sub);
      Idles(s, NEW_LINK, ch, NewSub(sub), protocol) && s.desk.callers == {0}
  {
    assert Enabled(Init(Plain(protocol)), Ask(NewSubscription(ch, sub, 0), Accepted));
  }

  lemma AskedIs(protocol: ProtocolType, ch: Channel, sub: SubscriptionConfig)
    ensures var s := Asked(protocol, ch, sub);
      Idles(s, NEW_LINK, ch, Wanted(sub), protocol) && s.desk.callers == {0, 1}
  {
    hide Created, SendSubscribe;
    CreatedIs(protocol, ch, sub);
    var s := Created(protocol, ch, sub);
    assert Enabled(s, Ask(Subscribe(ch, 1), Accepted));
    assert s.subs[ch := Wanted(sub)] == map[ch := Wanted(sub)];
    assert NewSub(sub).waiters + [1] == [1];
  }

  lemma DiallingIs(protocol: ProtocolType, ch: Channel, sub: SubscriptionConfig)
    ensures var s := Dialling(protocol, ch, sub);
      && Idles(s, NEW_LINK.(phase := Connecting, shared := 1, connectRequested := true), ch, Wanted(sub), protocol)
      && s.desk.callers == {0, 1, 2}
  {
    hide Wanted;
    AskedIs(protocol, ch, sub);
    assert Enabled(Asked(protocol, ch, sub), Ask(Connect(2), Accepted));
    hide Asked;
  }

  lemma ShakingIs(protocol: ProtocolType, ch: Channel, sub: SubscriptionConfig)
    ensures var s := Shaking(protocol, ch, sub);
      && s.config == Plain(protocol) && s.link == OPEN_LINK && s.out.batch == NO_BATCH
      && s.subs == map[ch := Wanted(sub)] && s.servers.subs == map[] && s.desk.callers == {0, 1, 2}
      && |s.out.wire| == |s.calls.issued| == 1
      && s.out.wire[0].outgoing.command == Command(1, s.calls.issued[0].body) && s.calls.issued[0].body.ConnectBody?
      && s.calls == NO_CALLS.(issued := s.calls.issued)
  {
    hide Wanted, ConnectSubs;
    DiallingIs(protocol, ch, sub);
    hide Dialling;
  }

  lemma ResultRouted(protocol: ProtocolType, ch: Channel, sub: SubscriptionConfig)
    ensures var t := Establish(Shaking(protocol, ch, sub), WELCOME.connect.value);
      && t.config == Plain(protocol) && t.link == UP_LINK && t.subs == map[ch := Wanted(sub)]
      && t.calls == NO_CALLS.(issued := Shaking(protocol, ch, sub).calls.issued)
      && t.out == Shaking(protocol, ch, sub).out && t.servers.subs == map[] && t.desk.callers == {0, 1, 2}
  {
    hide Wanted, Note, Succeed, Refreshed;
    ShakingIs(protocol, ch, sub);
    hide Shaking;
  }

  /** The handshake ends, and the subscription that was asked for is attempted. */
  lemma UpIs(protocol: ProtocolType, ch: Channel, sub: SubscriptionConfig, fate: Fate)
    ensures var s := Shaking(protocol, ch, sub);
      && Enabled(s, Shake([Arrival(WELCOME, Accepted)], Retry(ch, fate)))
      && Up(protocol, ch, sub, fate)
         == AnswerConnectWaiters(DoSubscribe(Establish(s, WELCOME.connect.value), ch, Retry(ch, fate)[0].oracle))
  {
    hide Establish, DoSubscribe, Wanted, AnswerConnectWaiters;
    ShakingIs(protocol, ch, sub);
    ResultRouted(protocol, ch, sub);
    hide Shaking;
    var s := Shaking(protocol, ch, sub);
    var arrivals := [Arrival(WELCOME, Accepted)];
    assert Before(arrivals, 1) == 0 && ReadUntil(s, 1, arrivals) == s;
    var t := Establish(s, WELCOME.connect.value);
    WantedState(sub);
    assert SubscribingChannels(t.subs) == {ch};
    assert Lists(Retry(ch, fate), {ch}) by { assert Retry(ch, fate)[0].channel == ch; }
    assert Retry(ch, fate)[..0] == [];
    assert ResubscribeAll(t, Retry(ch, fate)) == DoSubscribe(t, ch, Retry(ch, fate)[0].oracle);
  }

  lemma WantedState(sub: SubscriptionConfig)
    ensures Wanted(sub).state.Subscribing?
  {}

  // ---------- a lost wake-up ----------

  /** What `do_subscribe` makes of the subscription and sends. */
  function Offered(sub: SubscriptionConfig): SubState {
    RefreshData(if NeedsToken(Wanted(sub)) then Wanted(sub).(token := "t") else Wanted(sub), None)
  }

  lemma OfferedIs(sub: SubscriptionConfig)
    ensures Offered(sub).state.Subscribing?
    ensures MarkOf(Offered(sub), false) == MarkOf(NewSub(sub), false) && Deliveries(Offered(sub).log) == []
    ensures CanRecover(Offered(sub)) == CanRecover(NewSub(sub)) && Offered(sub).epoch == NewSub(sub).epoch
  {
    var asked := SubscribingEvent(Codes.SUBSCRIBE_CALLED);
    assert Wanted(sub).log == [] + [asked];
    DeliveriesEmit([], asked);
    DeliveriesEmit([asked], ErrorEvent);
  }

  lemma SubscribeSent(s: State, ch: Channel, sub: SubscriptionConfig, fate: Fate)
    requires s.subs == map[ch := Wanted(sub)]
    ensures DoSubscribe(s, ch, Retry(ch, fate)[0].oracle) == SendSubscribe(s, ch, Offered(sub), None, fate)
  {
    hide SendSubscribe, RefreshData;
  }

  lemma NothingLeft(s: State, ch: Channel, sub: SubState)
    requires s.calls.pending == map[] && s.calls.timers == multiset{} && s.link == UP_LINK && s.out.batch == NO_BATCH
    ensures var t := SendSubscribe(s, ch, sub, None, Refused);
      t.link == s.link && t.subs == s.subs[ch := sub] && !WakeUps.HasAttempt(t.calls, ch)
  {
    hide BuildRequest, Tell;
    var t := SendSubscribe(s, ch, sub, None, Refused);
    assert t.calls.pending == map[] && t.calls.timers == multiset{RequestTimeout(NextId(s.calls))};
  }

  /** The inputs that lead to `Up`. */
  function Inputs(ch: Channel, sub: SubscriptionConfig, fate: Fate): seq<Input> {
    [Ask(NewSubscription(ch, sub, 0), Accepted), Ask(Subscribe(ch, 1), Accepted), Ask(Connect(2), Accepted), Open(DIAL),
     Shake([Arrival(WELCOME, Accepted)], Retry(ch, fate))]
  }

  lemma RunIs(protocol: ProtocolType, ch: Channel, sub: SubscriptionConfig, fate: Fate)
    ensures Run(Init(Plain(protocol)), Inputs(ch, sub, fate)) == Up(protocol, ch, sub, fate)
  {
    hide Step;
    var s := Init(Plain(protocol));
    var inputs := Inputs(ch, sub, fate);
    assert inputs[..5] == inputs && inputs[..4][..3] == inputs[..3] && inputs[..3][..2] == inputs[..2]
        && inputs[..2][..1] == inputs[..1];
    assert inputs[..1][..0] == [];
    assert Run(s, inputs[..1]) == Created(protocol, ch, sub);
    assert Run(s, inputs[..2]) == Asked(protocol, ch, sub);
    assert Run(s, inputs[..3]) == Dialling(protocol, ch, sub);
    assert Run(s, inputs[..4]) == Shaking(protocol, ch, sub);
  }

  /**
   The first attempt after the handshake cannot be sent: the actor is connected, the
   subscription goes on subscribing, and no request, timeout or timer will ever wake it.
   */
  lemma LostWakeUp(protocol: ProtocolType, ch: Channel, sub: SubscriptionConfig)
    ensures WakeUps.Forgotten(Run(Init(Plain(protocol)), Inputs(ch, sub, Refused)), ch)
  {
    hide Establish, Wanted, Offered, SendSubscribe, DoSubscribe, Tell, Step, Up, Shaking, WakeUps.HasAttempt, Run,
         Inputs;
    UpIs(protocol, ch, sub, Refused);
    ResultRouted(protocol, ch, sub);
    var t := Establish(Shaking(protocol, ch, sub), WELCOME.connect.value);
    SubscribeSent(t, ch, sub, Refused);
    OfferedIs(sub);
    ShakingIs(protocol, ch, sub);
    NothingLeft(t, ch, Offered(sub));
    RunIs(protocol, ch, sub, Refused);
  }

  // ---------- a lost entry ----------

  const LOG: seq<Bytes> := [[7]]

  /** Up to the first subscribe command. */
  function Moves(ch: Channel): seq<Move> {
    [Local(Ask(Subscribe(ch, 1), Accepted)), Local(Ask(Connect(2), Accepted)), Local(Open(DIAL)), Answer(Some(WELCOME)),
     Deliver([Accepted], Retry(ch, Accepted))]
  }

  ghost function Begun(topic: Topic, sub: SubscriptionConfig): World { Start(Plain(topic.protocol), topic, sub, LOG) }

  lemma PlayOne(w: World, topic: Topic, moves: seq<Move>, n: nat)
    requires n < |moves|
    ensures var v := Play(w, topic, moves[..n]);
      Play(w, topic, moves[..n + 1]) == if Possible(v, topic, moves[n]) then Next(v, topic, moves[n]) else v
  {
    hide Possible, Next;
    assert moves[..n + 1][..n] == moves[..n];
  }

  lemma PlayShaking(topic: Topic, sub: SubscriptionConfig)
    ensures Play(Begun(topic, sub), topic, Moves(topic.channel)[..3])
        == World(Shaking(topic.protocol, topic.channel, sub), Idle(LOG, 0))
  {
    hide Step, Moves, Play;
    var w, moves := Begun(topic, sub), Moves(topic.channel);
    MovesAre(topic.channel);
    PlayNothing(w, topic, moves);
    PlayOne(w, topic, moves, 0);
    PlayOne(w, topic, moves, 1);
    PlayOne(w, topic, moves, 2);
    AskedIs(topic.protocol, topic.channel, sub);
    DiallingIs(topic.protocol, topic.channel, sub);
    ShakingIs(topic.protocol, topic.channel, sub);
  }

  lemma PlayNothing(w: World, topic: Topic, moves: seq<Move>)
    ensures Play(w, topic, moves[..0]) == w
  {}

  lemma MovesAre(ch: Channel)
    ensures var moves := Moves(ch);
      && |moves| == 5 && moves[..5] == moves
      && moves[0] == Local(Ask(Subscribe(ch, 1), Accepted)) && moves[1] == Local(Ask(Connect(2), Accepted))
          && moves[2] == Local(Open(DIAL))
      && moves[3] == Answer(Some(WELCOME)) && moves[4] == Deliver([Accepted], Retry(ch, Accepted))
  {}

  lemma PlayWelcomed(topic: Topic, sub: SubscriptionConfig)
    ensures Play(Begun(topic, sub), topic, Moves(topic.channel)[..4])
         == World(Shaking(topic.protocol, topic.channel, sub), Broker(LOG, true, false, false, false, 1, [WELCOME]))
  {
    hide Step, Moves, Play, Shaking;
    MovesAre(topic.channel);
    PlayShaking(topic, sub);
    PlayOne(Begun(topic, sub), topic, Moves(topic.channel), 3);
    ShakingIs(topic.protocol, topic.channel, sub);
  }

  ghost function UpWorld(topic: Topic, sub: SubscriptionConfig): World {
    World(Up(topic.protocol, topic.channel, sub, Accepted), Broker(LOG, true, false, false, false, 1, []))
  }

  lemma PlayUp(topic: Topic, sub: SubscriptionConfig)
    ensures Play(Begun(topic, sub), topic, Moves(topic.channel)) == UpWorld(topic, sub)
  {
    hide *;
    var w := World(Shaking(topic.protocol, topic.channel, sub), Broker(LOG, true, false, false, false, 1, [WELCOME]));
    MovesAre(topic.channel);
    PlayWelcomed(topic, sub);
    PlayOne(Begun(topic, sub), topic, Moves(topic.channel), 4);
    ShakingIs(topic.protocol, topic.channel, sub);
    UpIs(topic.protocol, topic.channel, sub, Accepted);
    UpLink(topic.protocol, topic.channel, sub);
    UpIsStep(topic.protocol, topic.channel, sub, Accepted);
    NextShake(w, topic, WELCOME, Retry(topic.channel, Accepted));
    UpWorldIs(topic, sub);
  }

  lemma UpIsStep(protocol: ProtocolType, ch: Channel, sub: SubscriptionConfig, fate: Fate)
    ensures Up(protocol, ch, sub, fate)
         == Step(Shaking(protocol, ch, sub), Shake([Arrival(WELCOME, Accepted)], Retry(ch, fate)))
    ensures OPEN_LINK.handshake == Some(1) && OPEN_LINK.conn == UP_LINK.conn && UP_LINK.stream
  {
    hide Step, Shaking, Retry;
  }

  lemma UpWorldIs(topic: Topic, sub: SubscriptionConfig)
    ensures UpWorld(topic, sub)
         == World(Up(topic.protocol, topic.channel, sub, Accepted), Broker(LOG, true, false, false, false, 1, []))
  {
    hide Up;
  }

  /** The one reply on its way is read, and is the awaited one. */
  lemma NextShake(w: World, topic: Topic, r: Reply, plan: seq<Attempt>)
    requires w.client.link.handshake.Some? && w.broker.down == [r]
    requires Enabled(w.client, Shake([Arrival(r, Accepted)], plan))
    requires var t := Step(w.client, Shake([Arrival(r, Accepted)], plan));
      t.link.stream && t.link.conn == w.client.link.conn
    ensures Possible(w, topic, Deliver([Accepted], plan))
    ensures Next(w, topic, Deliver([Accepted], plan))
         == World(Step(w.client, Shake([Arrival(r, Accepted)], plan)), w.broker.(down := []))
  {
    hide Step, Enabled;
    assert Frame([r], [Accepted]) == [Arrival(r, Accepted)] && [r][1..] == [];
  }

  /** The subscribe command is written, and its reply awaited. */
  lemma UpLink(protocol: ProtocolType, ch: Channel, sub: SubscriptionConfig)
    ensures var s := Up(protocol, ch, sub, Accepted);
      && s.link == UP_LINK && s.subs == map[ch := Offered(sub)] && s.config == Plain(protocol)
      && s.servers.subs == map[] && s.out.batch == NO_BATCH && s.desk.callers == {0, 1, 2}
      && |s.calls.issued| == 2 && s.calls.issued[1].body == SubscribeBody(BuildRequest(ch, Offered(sub)))
      && s.calls.pending == map[2 := AwaitSubscribe(ch, None)]
      && |s.out.wire| == 2 && s.out.wire[1].outgoing.command
          == Command(2, SubscribeBody(BuildRequest(ch, Offered(sub))))
  {
    hide Establish, Wanted, Offered, DoSubscribe, Step, Up, Shaking, BuildRequest;
    UpIs(protocol, ch, sub, Accepted);
    ResultRouted(protocol, ch, sub);
    ShakingIs(protocol, ch, sub);
    var t := Establish(Shaking(protocol, ch, sub), WELCOME.connect.value);
    SubscribeSent(t, ch, sub, Accepted);
  }

  /** A result at the end of the log moves the position there and delivers nothing. */
  lemma PlacedAt(s: State, topic: Topic, log: seq<Bytes>, id: nat)
    requires id != 0 && id in s.calls.pending && s.calls.pending[id].AwaitSubscribe?
        && s.calls.pending[id].channel == topic.channel
    requires topic.channel in s.subs && Deliveries(s.subs[topic.channel].log) == []
    ensures var t := DispatchReply(s, Arrival(Anchoring.AtEnd(id, topic, log), Accepted));
      && t.link == s.link && t.out == s.out && t.servers == s.servers && t.config == s.config
      && t.calls.issued == s.calls.issued && t.calls.pending == s.calls.pending - {id}
      && topic.channel in t.subs && t.subs[topic.channel].offset == |log| && t.subs[topic.channel].recover
      && Deliveries(t.subs[topic.channel].log) == []
  {
    hide Deliveries, Confirm, Tell;
    var r := Anchoring.AtEnd(id, topic, log).subscribe.value;
    var sub := s.subs[topic.channel];
    ConfirmLog(sub, r);
    ConfirmPosition(sub, r);
    assert ReceiveAll(Confirm(sub, r), [], s.config.protocol) == Confirm(sub, r);
  }

  lemma ConfirmPosition(sub: SubState, r: SubscribeResult)
    requires r.recoverable
    ensures Confirm(sub, r).offset == r.offset && Confirm(sub, r).recover
  {}

  lemma RequestIs(ch: Channel, sub: SubscriptionConfig)
    ensures BuildRequest(ch, Offered(sub)).recover == CanRecover(NewSub(sub))
        && BuildRequest(ch, Offered(sub)).channel == ch
  {
    hide Offered;
    OfferedIs(sub);
  }

  lemma ReadsOne(s: State, r: Reply)
    requires s.link == UP_LINK
    ensures var arrivals := Frame([r], [Accepted]);
      && Reading(s, arrivals, []) == Data(arrivals) && Enabled(s, Data(arrivals))
      && Step(s, Data(arrivals)) == DispatchReply(s, Arrival(r, Accepted))
  {
    hide DispatchReply;
    var arrivals := Frame([r], [Accepted]);
    assert arrivals == [Arrival(r, Accepted)] && arrivals[..0] == [];
    assert DispatchAll(s, arrivals[..0]) == s;
  }

  /** The one reply on its way is read. */
  lemma NextRead(w: World, topic: Topic, r: Reply)
    requires w.client.link == UP_LINK && w.broker.down == [r]
    requires DispatchReply(w.client, Arrival(r, Accepted)).link == UP_LINK
    ensures Possible(w, topic, Deliver([Accepted], []))
    ensures Next(w, topic, Deliver([Accepted], []))
        == World(DispatchReply(w.client, Arrival(r, Accepted)), w.broker.(down := []))
  {
    hide DispatchReply, Step, Enabled;
    ReadsOne(w.client, r);
    assert [r][1..] == [];
  }

  /** The next command is answered at the end of the log. */
  lemma NextAtEnd(w: World, topic: Topic, req: SubscribeRequest)
    requires w.client.link.stream && w.broker.session && w.broker.cursor < |w.client.out.wire|
    requires var cmd := w.client.out.wire[w.broker.cursor].outgoing.command;
      cmd.id != 0 && cmd.body == SubscribeBody(req)
    requires req.channel == topic.channel && !req.recover
    ensures var id := w.client.out.wire[w.broker.cursor].outgoing.command.id;
      var r := Anchoring.AtEnd(id, topic, w.broker.log);
      && Possible(w, topic, Answer(Some(r)))
      && Next(w, topic, Answer(Some(r))) == World(w.client, w.broker.(
           joined := true, delta := false, primed := false, cursor := w.broker.cursor + 1, down := w.broker.down + [r]))
  {}

  function Tail(topic: Topic): seq<Move> { [Answer(Some(Anchoring.AtEnd(2, topic, LOG))), Deliver([Accepted], [])] }

  /**
   From position zero without an epoch the subscribe command does not ask for recovery, and the entries
   before the reply are lost.
   */
  lemma EntryLost(topic: Topic, sub: SubscriptionConfig)
    requires StartsAt(sub, topic) && !CanRecover(NewSub(sub))
    ensures var w := Play(Begun(topic, sub), topic, Moves(topic.channel) + Tail(topic));
      |w.client.calls.issued| == 2 && !Kept(w, topic, sub.since.value.offset)
  {
    hide Step, Moves, Play, Up, DispatchReply, Deliveries, Begun, BuildRequest, Possible, Next, Offered;
    var s := Up(topic.protocol, topic.channel, sub, Accepted);
    PlayUp(topic, sub);
    UpLink(topic.protocol, topic.channel, sub);
    OfferedIs(sub);
    RequestIs(topic.channel, sub);
    var w0 := UpWorld(topic, sub);
    var r := Anchoring.AtEnd(2, topic, LOG);
    NextAtEnd(w0, topic, BuildRequest(topic.channel, Offered(sub)));
    assert [] + [r] == [r];
    var w1 := Next(w0, topic, Answer(Some(r)));
    PlacedAt(s, topic, LOG, 2);
    NextRead(w1, topic, r);
    PlayTwo(w0, topic, Answer(Some(r)), Deliver([Accepted], []));
    Anchoring.PlayConcat(Begun(topic, sub), topic, Moves(topic.channel), Tail(topic));
    assert Entry(LOG, 1) !in Deliveries(DispatchReply(s, Arrival(r, Accepted)).subs[topic.channel].log);
  }

  lemma PlayTwo(w: World, topic: Topic, m: Move, n: Move)
    requires Possible(w, topic, m) && Possible(Next(w, topic, m), topic, n)
    ensures Play(w, topic, [m, n]) == Next(Next(w, topic, m), topic, n)
  {
    hide Possible, Next;
    Anchoring.PlayOnce(w, topic, m);
    assert [m, n][..1] == [m];
  }

  // ---------- subscribed, but not at the server ----------

  const ALREADY := DeltaChain.Already(2)

  lemma AlreadyRead(protocol: ProtocolType, ch: Channel, sub: SubscriptionConfig)
    ensures var s := DispatchReply(Up(protocol, ch, sub, Accepted), Arrival(ALREADY, Accepted));
      s.link == UP_LINK && ch in s.subs && s.subs[ch].state.Subscribed? && s.subs[ch].offset == NewSub(sub).offset
  {
    hide Up, Offered, Deliveries, Tell;
    UpLink(protocol, ch, sub);
    OfferedIs(sub);
    assert ReceiveAll(Confirm(Offered(sub), EMPTY_RESULT), [], protocol) == Confirm(Offered(sub), EMPTY_RESULT);
  }

  /**
   A client may hold itself subscribed where the server does not: connected, with every command
   served and every reply read, it then stands short of the end of the log.
   */
  lemma SubscribedAlone(topic: Topic, sub: SubscriptionConfig)
    requires !CanRecover(NewSub(sub))
    ensures var w := Play(Begun(topic, sub), topic,
        Moves(topic.channel) + [Answer(Some(ALREADY)), Deliver([Accepted], [])]);
      && w.client.link == UP_LINK && topic.channel in w.client.subs && w.client.subs[topic.channel].state.Subscribed?
      && w.broker.down == [] && !w.broker.joined && w.client.subs[topic.channel].offset < |w.broker.log|
  {
    hide Step, Moves, Play, Up, DispatchReply, Deliveries, Begun, BuildRequest, Offered, Enabled;
    var w0 := UpWorld(topic, sub);
    PlayUp(topic, sub);
    UpLink(topic.protocol, topic.channel, sub);
    AlreadyRead(topic.protocol, topic.channel, sub);
    assert [] + [ALREADY] == [ALREADY];
    NextRead(Next(w0, topic, Answer(Some(ALREADY))), topic, ALREADY);
    PlayTwo(w0, topic, Answer(Some(ALREADY)), Deliver([Accepted], []));
    Anchoring.PlayConcat(Begun(topic, sub), topic, Moves(topic.channel),
        [Answer(Some(ALREADY)), Deliver([Accepted], [])]);
  }

  // ---------- a second request without a position ----------

  /** The subscription after `unsubscribe` and `subscribe` while its first command is on its way. */
  function Again(sub: SubscriptionConfig): SubState {
    BackToSubscribing(Leave(Offered(sub), Codes.UNSUBSCRIBE_CALLED).(attempts := 0), Codes.SUBSCRIBE_CALLED)
  }

  lemma AgainIs(sub: SubscriptionConfig)
    ensures Again(sub).state.Subscribing?
    ensures CanRecover(Again(sub)) == CanRecover(NewSub(sub)) && Deliveries(Again(sub).log) == []
  {
    hide Offered, Deliveries;
    OfferedIs(sub);
    DeliveriesEmit(Offered(sub).log, UnsubscribedEvent(Codes.UNSUBSCRIBE_CALLED));
    DeliveriesEmit(Offered(sub).log + [UnsubscribedEvent(Codes.UNSUBSCRIBE_CALLED)],
        SubscribingEvent(Codes.SUBSCRIBE_CALLED));
  }

  ghost function Left(protocol: ProtocolType, ch: Channel, sub: SubscriptionConfig): State {
    Step(Up(protocol, ch, sub, Accepted), Ask(Unsubscribe(ch, 3), Accepted))
  }

  ghost function Twice(protocol: ProtocolType, ch: Channel, sub: SubscriptionConfig): State {
    Step(Left(protocol, ch, sub), Ask(Subscribe(ch, 4), Accepted))
  }

  lemma LeftIs(protocol: ProtocolType, ch: Channel, sub: SubscriptionConfig)
    ensures var s, t := Up(protocol, ch, sub, Accepted), Left(protocol, ch, sub);
      && t.link == UP_LINK && t.calls == s.calls && t.out == s.out && t.servers.subs == map[]
      && t.subs == map[ch := Leave(Offered(sub), Codes.UNSUBSCRIBE_CALLED)] && t.desk.callers == {0, 1, 2, 3}
  {
    hide Up, Offered, BuildRequest;
    UpLink(protocol, ch, sub);
    OfferedIs(sub);
    assert Enabled(Up(protocol, ch, sub, Accepted), Ask(Unsubscribe(ch, 3), Accepted));
  }

  /** Two subscribe commands are on the wire, and both replies are awaited. */
  lemma TwiceIs(protocol: ProtocolType, ch: Channel, sub: SubscriptionConfig)
    ensures var s := Twice(protocol, ch, sub);
      && s.link == UP_LINK && s.subs == map[ch := Again(sub)] && s.servers.subs == map[]
      && |s.calls.issued| == 3
      && s.calls.pending == map[2 := AwaitSubscribe(ch, None), 3 := AwaitSubscribe(ch, Some(4))]
      && |s.out.wire| == 3 && s.out.wire[1].outgoing.command
          == Command(2, SubscribeBody(BuildRequest(ch, Offered(sub))))
      && s.out.wire[2].outgoing.command == Command(3, SubscribeBody(BuildRequest(ch, Again(sub))))
  {
    hide Up, Left, Offered, BuildRequest;
    UpLink(protocol, ch, sub);
    LeftIs(protocol, ch, sub);
    var s := Left(protocol, ch, sub);
    assert Enabled(s, Ask(Subscribe(ch, 4), Accepted));
    assert s.subs[ch := Again(sub)] == map[ch := Again(sub)];
  }

  const LATER: Bytes := [8]

  /** Both commands are written, and the first is answered and read. */
  function Overlap(topic: Topic): seq<Move> {
    [Local(Ask(Unsubscribe(topic.channel, 3), Accepted)), Local(Ask(Subscribe(topic.channel, 4), Accepted)),
     Answer(Some(Anchoring.AtEnd(2, topic, LOG))), Deliver([Accepted], [])]
  }

  /** The server ends the subscription, logs an entry, answers the second command, and all that is read. */
  function Skips(topic: Topic): seq<Move> {
    [Kick(0), Publish(LATER, Publication(2, LATER, None, false)),
        Answer(Some(Anchoring.AtEnd(3, topic, LOG + [LATER]))), Deliver([Accepted, Accepted], [])]
  }

  lemma PlayFour(w: World, topic: Topic, moves: seq<Move>)
    requires |moves| == 4 && Possible(w, topic, moves[0])
    requires var w1 := Next(w, topic, moves[0]); Possible(w1, topic, moves[1])
    requires var w2 := Next(Next(w, topic, moves[0]), topic, moves[1]); Possible(w2, topic, moves[2])
    requires var w3 := Next(Next(Next(w, topic, moves[0]), topic, moves[1]), topic, moves[2]); Possible(w3, topic,
        moves[3])
    ensures Play(w, topic, moves) == Next(Next(Next(Next(w, topic, moves[0]), topic, moves[1]), topic, moves[2]), topic,
        moves[3])
  {
    hide Possible, Next, Play;
    PlayTwo(w, topic, moves[0], moves[1]);
    PlayTwo(Next(Next(w, topic, moves[0]), topic, moves[1]), topic, moves[2], moves[3]);
    Anchoring.PlayConcat(w, topic, [moves[0], moves[1]], [moves[2], moves[3]]);
    assert moves == [moves[0], moves[1]] + [moves[2], moves[3]];
  }

  lemma NextAsked(w: World, topic: Topic, sub: SubscriptionConfig)
    requires w == UpWorld(topic, sub)
    ensures var m, n := Overlap(topic)[0], Overlap(topic)[1];
      && Possible(w, topic, m) && Possible(Next(w, topic, m), topic, n)
      && Next(Next(w, topic, m), topic, n) == World(Twice(topic.protocol, topic.channel, sub), w.broker)
  {
    hide Step, Up;
    UpLink(topic.protocol, topic.channel, sub);
    LeftIs(topic.protocol, topic.channel, sub);
    TwiceIs(topic.protocol, topic.channel, sub);
  }

  /** The client after the first answer. */
  ghost function Placed(topic: Topic, sub: SubscriptionConfig): State {
    DispatchReply(Twice(topic.protocol, topic.channel, sub), Arrival(Anchoring.AtEnd(2, topic, LOG), Accepted))
  }

  lemma PlacedIs(topic: Topic, sub: SubscriptionConfig)
    ensures var s, t := Placed(topic, sub), Twice(topic.protocol, topic.channel, sub);
      && s.link == UP_LINK && s.out == t.out && s.calls.issued == t.calls.issued
      && s.calls.pending == map[3 := AwaitSubscribe(topic.channel, Some(4))]
      && topic.channel in s.subs && s.subs[topic.channel].offset == 1 && s.subs[topic.channel].recover
      && Deliveries(s.subs[topic.channel].log) == []
  {
    hide Twice, Deliveries, DispatchReply;
    TwiceIs(topic.protocol, topic.channel, sub);
    AgainIs(sub);
    PlacedAt(Twice(topic.protocol, topic.channel, sub), topic, LOG, 2);
  }

  lemma PlayOverlap(topic: Topic, sub: SubscriptionConfig)
    requires !CanRecover(NewSub(sub))
    ensures Play(Begun(topic, sub), topic, Moves(topic.channel) + Overlap(topic))
         == World(Placed(topic, sub), Broker(LOG, true, true, false, false, 2, []))
  {
    hide Play, Moves, Step, Up, Twice, DispatchReply, Begun, BuildRequest, Possible, Next, Offered, Again, Deliveries;
    var w0 := UpWorld(topic, sub);
    var moves := Overlap(topic);
    PlayUp(topic, sub);
    NextAsked(w0, topic, sub);
    TwiceIs(topic.protocol, topic.channel, sub);
    RequestIs(topic.channel, sub);
    var w2 := Next(Next(w0, topic, moves[0]), topic, moves[1]);
    NextAtEnd(w2, topic, BuildRequest(topic.channel, Offered(sub)));
    var r := Anchoring.AtEnd(2, topic, LOG);
    assert [] + [r] == [r];
    PlacedIs(topic, sub);
    NextRead(Next(w2, topic, moves[2]), topic, r);
    PlayFour(w0, topic, moves);
    Anchoring.PlayConcat(Begun(topic, sub), topic, Moves(topic.channel), moves);
  }

  function Kicked(topic: Topic): Reply { PushReply(topic.channel, UnsubscribePush(0)) }

  /** The client after the frame that ends `Skips`. */
  ghost function Skipped(topic: Topic, sub: SubscriptionConfig): State {
    DispatchReply(DispatchReply(Placed(topic, sub), Arrival(Kicked(topic), Accepted)),
                  Arrival(Anchoring.AtEnd(3, topic, LOG + [LATER]), Accepted))
  }

  lemma KickedIs(s: State, topic: Topic)
    requires topic.channel in s.subs
    ensures var t := DispatchReply(s, Arrival(Kicked(topic), Accepted));
      && t.link == s.link && t.calls == s.calls && t.out == s.out
      && topic.channel in t.subs && Deliveries(t.subs[topic.channel].log) == Deliveries(s.subs[topic.channel].log)
  {
    hide Deliveries;
    DeliveriesEmit(s.subs[topic.channel].log, UnsubscribedEvent(0));
  }

  lemma SkippedIs(topic: Topic, sub: SubscriptionConfig)
    ensures var s := Skipped(topic, sub);
      && topic.channel in s.subs && s.subs[topic.channel].offset == 2 && Deliveries(s.subs[topic.channel].log) == []
  {
    hide Placed, Deliveries, DispatchReply;
    PlacedIs(topic, sub);
    KickedIs(Placed(topic, sub), topic);
    PlacedAt(DispatchReply(Placed(topic, sub), Arrival(Kicked(topic), Accepted)), topic, LOG + [LATER], 3);
  }

  lemma ReadsTwo(s: State, r: Reply, q: Reply)
    requires s.link == UP_LINK
    ensures var arrivals := Frame([r, q], [Accepted, Accepted]);
      && Reading(s, arrivals, []) == Data(arrivals) && Enabled(s, Data(arrivals))
      && Step(s, Data(arrivals)) == DispatchReply(DispatchReply(s, Arrival(r, Accepted)), Arrival(q, Accepted))
  {
    hide DispatchReply;
    var arrivals := Frame([r, q], [Accepted, Accepted]);
    assert arrivals == [Arrival(r, Accepted), Arrival(q, Accepted)] && arrivals[..1] == [Arrival(r, Accepted)]
        && arrivals[..1][..0] == [];
    assert DispatchAll(s, arrivals[..1][..0]) == s;
    assert DispatchAll(s, arrivals[..1]) == DispatchReply(s, Arrival(r, Accepted));
  }

  lemma NextSkips(topic: Topic, sub: SubscriptionConfig)
    requires !CanRecover(NewSub(sub))
    ensures var w := World(Placed(topic, sub), Broker(LOG, true, true, false, false, 2, []));
      var r := Anchoring.AtEnd(3, topic, LOG + [LATER]);
      && Possible(w, topic, Skips(topic)[0]) && Possible(Next(w, topic, Skips(topic)[0]), topic, Skips(topic)[1])
      && var w2 := Next(Next(w, topic, Skips(topic)[0]), topic, Skips(topic)[1]);
         && Possible(w2, topic, Skips(topic)[2])
         && Next(w2, topic, Skips(topic)[2]) == World(Placed(topic, sub),
             Broker(LOG + [LATER], true, true, false, false, 3, [Kicked(topic), r]))
  {
    hide Placed, BuildRequest, Again, Offered, Twice, Ahead;
    PlacedIs(topic, sub);
    TwiceIs(topic.protocol, topic.channel, sub);
    AgainIs(sub);
    AgainRequest(topic.channel, sub);
    var w2 := World(Placed(topic, sub), Broker(LOG + [LATER], true, false, false, false, 2, [Kicked(topic)]));
    NextAtEnd(w2, topic, BuildRequest(topic.channel, Again(sub)));
  }

  lemma AgainRequest(ch: Channel, sub: SubscriptionConfig)
    ensures BuildRequest(ch, Again(sub)).recover == CanRecover(NewSub(sub))
        && BuildRequest(ch, Again(sub)).channel == ch
  {
    hide Again;
    AgainIs(sub);
  }

  /**
   After the first accepted result the subscription has a position, but its second command had
   none: the answer to it skips an entry.
   */
  lemma SecondAskLoses(topic: Topic, sub: SubscriptionConfig)
    requires !CanRecover(NewSub(sub))
    ensures var w := Play(Begun(topic, sub), topic, Moves(topic.channel) + Overlap(topic));
      && Anchoring.HasPosition(w.client, topic.channel) && w.client.subs[topic.channel].offset == 1
      && !Kept(Play(w, topic, Skips(topic)), topic, 1)
  {
    hide Play, Moves, Step, Enabled, DispatchReply, Deliveries, Placed, Skipped, Possible;
    PlayOverlap(topic, sub);
    PlacedIs(topic, sub);
    NextSkips(topic, sub);
    var w := World(Placed(topic, sub), Broker(LOG, true, true, false, false, 2, []));
    ReadsLast(topic, sub);
    PlayFour(w, topic, Skips(topic));
    SkippedIs(topic, sub);
    assert Entry(LOG + [LATER], 2) !in Deliveries(Skipped(topic, sub).subs[topic.channel].log);
  }

  lemma ReadsLast(topic: Topic, sub: SubscriptionConfig)
    ensures var w := World(Placed(topic, sub),
        Broker(LOG + [LATER], true, true, false, false, 3, [Kicked(topic), Anchoring.AtEnd(3, topic, LOG + [LATER])]));
      && Possible(w, topic, Skips(topic)[3]) && Next(w, topic, Skips(topic)[3]).client == Skipped(topic, sub)
      && Next(w, topic, Skips(topic)[3]).broker.log == LOG + [LATER]
  {
    hide DispatchReply, Placed, Step, Enabled;
    PlacedIs(topic, sub);
    ReadsTwo(Placed(topic, sub), Kicked(topic), Anchoring.AtEnd(3, topic, LOG + [LATER]));
  }

  /** In every run of a client and a server that speak the topic's protocol the subscription keeps up. */
  ghost predicate AlwaysKept(topic: Topic, sub: SubscriptionConfig)
    requires sub.since.Some?
  {
    forall config: ClientConfig, log: seq<Bytes>, moves: seq<Move> ::
      config.protocol == topic.protocol && sub.since.value.offset <= |log|
      && |Play(Start(config, topic, sub, log), topic, moves).client.calls.issued| < TWO_32
      ==> Kept(Play(Start(config, topic, sub, log), topic, moves), topic, sub.since.value.offset)
  }

  /**
   Recovery without gaps is guaranteed exactly for the start positions a request can recover from: a
   positive offset or an epoch.
   */
  lemma GuaranteeExact(topic: Topic, sub: SubscriptionConfig)
    requires StartsAt(sub, topic)
    ensures AlwaysKept(topic, sub) <==> sub.since.value.offset > 0 || sub.since.value.epoch != ""
  {
    hide Play, Start, Kept, Moves, Tail;
    if CanRecover(NewSub(sub)) {
      forall config: ClientConfig, log: seq<Bytes>, moves: seq<Move> |
        config.protocol == topic.protocol && sub.since.value.offset <= |log|
        && |Play(Start(config, topic, sub, log), topic, moves).client.calls.issued| < TWO_32
        ensures Kept(Play(Start(config, topic, sub, log), topic, moves), topic, sub.since.value.offset)
      {
        NoEntryMissed(config, topic, sub, log, moves);
      }
    } else {
      EntryLost(topic, sub);
      assert !Kept(Play(Start(Plain(topic.protocol), topic, sub, LOG), topic, Moves(topic.channel) + Tail(topic)),
          topic, sub.since.value.offset);
    }
  }
}
