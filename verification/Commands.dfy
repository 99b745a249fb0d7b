/** What each command of a client handle does, and what its caller is told at once. */
module Commands {
  import opened Prelude
  import opened Protocol
  import opened Subscriptions
  import opened ActorState
  import opened Outcomes

  // ---------- the registry of subscriptions ----------

  /** A channel is added once, with the fields of a new subscription taken from its configuration. */
  lemma NewSubscriptionCalled(s: State, ch: Channel, config: SubscriptionConfig, h: Handle, fate: Fate)
    requires Enabled(s, Ask(NewSubscription(ch, config, h), fate))
    ensures var t := Step(s, Ask(NewSubscription(ch, config, h), fate));
      if ch in s.subs then t == Replied(s, h, Failed(DuplicateSubscription))
      else
        && t == Replied(s, h, Done).(subs := s.subs[ch := t.subs[ch]])
        && var sub := t.subs[ch];
           && sub.config == config && sub.token == config.token && sub.state == Unsubscribed
           && (config.since.None? ==> sub.offset == 0 && sub.epoch == "" && sub.recover == config.recoverable)
           && (config.since.Some? ==> StreamPosition(sub.offset, sub.epoch) == config.since.value && sub.recover)
           && sub.attempts == 0 && sub.waiters == [] && sub.log == [] && sub.prevData == [] && !sub.deltaNegotiated
  {
    hide Respond;
    RespondReplies(s, h, Failed(DuplicateSubscription));
    RespondReplies(s.(subs := s.subs[ch := NewSub(config)]), h, Done);
  }

  /** Questions about the registry change nothing. */
  lemma RegistryAsked(s: State, ch: Channel, h: Handle, fate: Fate)
    requires TakesCommands(s) && h !in s.desk.callers
    ensures Step(s, Ask(GetSubscription(ch, h), fate)) == Replied(s, h, Found(ch in s.subs))
    ensures exists states: map<Channel, SubscriptionState> ::
              && Step(s, Ask(ListSubscriptions(h), fate)) == Replied(s, h, Listing(states))
              && states.Keys == s.subs.Keys && forall c :: c in states ==> states[c] == s.subs[c].state
  {
    hide Respond;
    RespondReplies(s, h, Found(ch in s.subs));
    RespondReplies(s, h, Listing(map c | c in s.subs :: s.subs[c].state));
  }

  // ---------- subscribing ----------

  /**
   `subscribe` is answered at once for a channel that is unknown or subscribed, joins an attempt under way, or
   starts one: it waits for the connection if there is none, and otherwise sends its own command.
   */
  lemma SubscribeCalled(s: State, ch: Channel, h: Handle, fate: Fate)
    requires Enabled(s, Ask(ActorState.Subscribe(ch, h), fate))
    ensures var t := Step(s, Ask(ActorState.Subscribe(ch, h), fate));
      if ch !in s.subs then t == Replied(s, h, Failed(SubscriptionUnsubscribed))
      else
        var sub := s.subs[ch];
        var started := sub.(state := Subscribing, attempts := 0, log := sub.log + [SubscribingEvent(0)]);
        match sub.state
        case Subscribed => t == Replied(s, h, Done)
        case Subscribing => t == Entered(s, h).(subs := s.subs[ch := sub.(waiters := sub.waiters + [h])])
        case Unsubscribed =>
          if s.link.phase.Connected? then SendsSubscribe(Entered(s, h), t, ch, started, Some(h), fate)
          else t == Entered(s, h).(subs := s.subs[ch := started.(waiters := sub.waiters + [h])])
  {
    hide Respond, SendSubscribe, SendsSubscribe;
    RespondReplies(s, h, Failed(SubscriptionUnsubscribed));
    RespondReplies(s, h, Done);
    if ch in s.subs && s.subs[ch].state.Unsubscribed? {
      var sub := s.subs[ch];
      var started := sub.(state := Subscribing, attempts := 0, log := sub.log + [SubscribingEvent(0)]);
      SendSubscribeSends(Entered(s, h), ch, started, Some(h), fate);
    }
  }

  // ---------- unsubscribing ----------

  /** A number is taken for an unsubscribe command nobody awaits. */
  function Numbered(s: State, ch: Channel): State {
    s.(calls := s.calls.(issued := s.calls.issued + [Issued(UnsubscribeBody(ch), None)]))
  }

  lemma SendUnsubscribePosts(s: State, ch: Channel, fate: Fate)
    ensures Posts(Numbered(s, ch), SendUnsubscribe(s, ch, fate), Command(FreshId(s.calls), UnsubscribeBody(ch)), fate)
    ensures SendFails(s, UnsubscribeBody(ch), fate) <==> Obstacle(s, fate).Some?
  {}

  /** The subscription after `unsubscribe`; whoever waits for it goes on waiting. */
  function Quit(sub: SubState): SubState {
    sub.(state := Unsubscribed, attempts := 0, log := sub.log + [UnsubscribedEvent(0)])
  }

  /**
   `unsubscribe` always succeeds. The server hears of it exactly if the subscription was subscribed and the client
   connected; if the command does not leave, the connection is closed with code 4.
   */
  lemma UnsubscribeCalled(s: State, ch: Channel, h: Handle, fate: Fate)
    requires Enabled(s, Ask(ActorState.Unsubscribe(ch, h), fate))
    ensures var t := Step(s, Ask(ActorState.Unsubscribe(ch, h), fate));
      if ch !in s.subs then t == Replied(s, h, Done)
      else
        var m := Replied(s, h, Done).(subs := s.subs[ch := Quit(s.subs[ch])]);
        if !(s.subs[ch].state.Subscribed? && s.link.phase.Connected?) then t == m
        else if Obstacle(s, fate).None? then
          Posts(Numbered(m, ch), t, Command(FreshId(s.calls), UnsubscribeBody(ch)), fate)
        else if s.link.connectRequested then Reconnects(Numbered(m, ch), t, 4)
        else Disconnects(Numbered(m, ch), t, 4)
  {
    hide Respond, SendUnsubscribe, SendFails, OnTransportClose, Reconnects, Disconnects;
    RespondReplies(s, h, Done);
    if ch in s.subs {
      var s1 := Entered(s, h).(subs := s.subs[ch := Quit(s.subs[ch])]);
      var m := Replied(s, h, Done).(subs := s1.subs);
      RespondReplies(s.(subs := s1.subs), h, Done);
      SendUnsubscribePosts(s1, ch, fate);
      var u := SendUnsubscribe(s1, ch, fate);
      RespondReplies(u, h, Done);
      assert Admit(u, Some(h)) == u;
      assert Replied(u, h, Done) == Numbered(m, ch).(out := u.out);
      if Obstacle(s, fate).Some? {
        assert u.out == s.out;
        CloseLeads(Numbered(m, ch), 4, true);
      }
    }
  }

  /**
   The subscription is gone and `h` has its answer. Its waiters have heard that it is unsubscribed, unless it already
   was, when they have gone with it unanswered.
   */
  function Removed(s: State, ch: Channel, h: Handle): State
    requires ch in s.subs
  {
    var sub := s.subs[ch];
    var waiters := set w | w in sub.waiters;
    var told := if sub.state.Unsubscribed? then {} else waiters;
    s.(subs := s.subs - {ch},
       desk := s.desk.(
         callers := s.desk.callers + {h},
         answers := (s.desk.answers + map w | w in told :: Failed(SubscriptionUnsubscribed))[h := Done],
         dropped := if sub.state.Unsubscribed? then s.desk.dropped + waiters else s.desk.dropped))
  }

  /** Removing always succeeds. The server hears of it exactly if it was subscribed and the client connected. */
  lemma RemoveCalled(s: State, ch: Channel, h: Handle, fate: Fate)
    requires Enabled(s, Ask(RemoveSubscription(ch, h), fate))
    ensures var t := Step(s, Ask(RemoveSubscription(ch, h), fate));
      if ch !in s.subs then t == Replied(s, h, Done)
      else if s.subs[ch].state.Subscribed? && s.link.phase.Connected?
      then Posts(Numbered(Removed(s, ch, h), ch), t, Command(FreshId(s.calls), UnsubscribeBody(ch)), fate)
      else t == Removed(s, ch, h)
  {
    hide Respond, SendUnsubscribe, Forget, Removed;
    RespondReplies(s, h, Done);
    if ch in s.subs {
      var s1 := Forget(Entered(s, h), ch);
      ForgetLeaves(s, ch, h);
      SendUnsubscribePosts(s1, ch, fate);
      var u := SendUnsubscribe(s1, ch, fate);
      RespondReplies(s1, h, Done);
      RespondReplies(u, h, Done);
      assert Admit(s1, Some(h)) == s1 && Admit(u, Some(h)) == u;
    }
  }

  lemma ForgetLeaves(s: State, ch: Channel, h: Handle)
    requires ch in s.subs
    ensures var u := Forget(Entered(s, h), ch);
      && Replied(u, h, Done) == Removed(s, ch, h)
      && u == s.(subs := u.subs, desk := u.desk) && u.desk.callers == s.desk.callers + {h}
  {
    assert s.desk.answers
        == s.desk.answers + map w: Handle | w in s.subs[ch].waiters && false :: Failed(SubscriptionUnsubscribed);
  }

  // ---------- requests and settings ----------

  /** A request is refused unless the client is connected; then it goes out as given, with a timeout. */
  lemma RequestCalled(s: State, payload: Bytes, h: Handle, fate: Fate)
    requires Enabled(s, Ask(SendRequest(payload, h), fate))
    ensures var t := Step(s, Ask(SendRequest(payload, h), fate));
      if !s.link.phase.Connected? then t == Replied(s, h, Failed(ClientDisconnected))
      else Sends(Entered(s, h), t, RequestBody(payload), AwaitReply(h), Some(h), true, fate)
  {
    hide Respond, Transact, Sends;
    RespondReplies(s, h, Failed(ClientDisconnected));
    TransactSends(Entered(s, h), RequestBody(payload), AwaitReply(h), fate);
  }

  /** A message without an answer goes out as given, without a number, if the client is connected. */
  lemma SendCalled(s: State, data: Bytes, fate: Fate)
    requires Enabled(s, Ask(Send(data), fate))
    ensures var t := Step(s, Ask(Send(data), fate));
      if s.link.phase.Connected? then Posts(s, t, Command(0, SendBody(data)), fate) else t == s
  {
    hide Post, Posts;
    assert Admit(s, None) == s;
    PostPosts(s, Command(0, SendBody(data)), fate);
  }

  /** Token and data are replaced, and nothing else changes. */
  lemma SettingsCalled(s: State, token: string, data: Bytes, fate: Fate)
    requires TakesCommands(s)
    ensures Step(s, Ask(SetToken(token), fate)) == s.(config := s.config.(token := token))
    ensures Step(s, Ask(SetData(data), fate)) == s.(config := s.config.(data := data))
  {}

  /** A batch is open, with whatever was queued. */
  lemma StartBatchingCalled(s: State, fate: Fate)
    requires TakesCommands(s)
    ensures Step(s, Ask(StartBatching, fate)) == s.(out := Out(BatchState(true, s.out.batch.queue), s.out.wire))
  {}

  /** The queued commands leave in one frame of the present connection, or are lost; either way the batch is over. */
  lemma StopBatchingCalled(s: State, fate: Fate)
    requires TakesCommands(s)
    ensures var t := Step(s, Ask(StopBatching, fate));
      var queue, wire := s.out.batch.queue, s.out.wire;
      && t == s.(out := t.out) && t.out.batch == BatchState(false, [])
      && wire <= t.out.wire
      && (if s.link.sink && fate.Accepted?
          then |t.out.wire| == |wire| + |queue|
               && forall i :: 0 <= i < |queue| ==>
                    t.out.wire[|wire| + i] == Sent(s.link.conn, |wire|, queue[i])
          else t.out.wire == wire)
  {}
}
