/** What each spawned sleep does when it fires: resubscribing, timeouts and token refreshes. */
module Timers {
  import opened Prelude
  import opened Protocol
  import opened Subscriptions
  import opened ActorState
  import opened Outcomes

  /** The sleep has delivered its message. */
  function Fired(s: State, t: Timer): State { s.(calls := s.calls.(timers := s.calls.timers - multiset{t})) }

  /** A callback has refused a token, or has given an empty one. */
  predicate Refused(o: TokenOutcome) { o.Denied? || o == Token("") }

  /** The subscription ends with code 1 and its waiters hear that they are not authorized. */
  function Unauthorize(s: State, ch: Channel): State
    requires ch in s.subs
  {
    var sub := s.subs[ch];
    s.(subs := s.subs[ch := sub.(state := Unsubscribed, attempts := 0, waiters := [],
                                 log := sub.log + [UnsubscribedEvent(1)])],
       desk := s.desk.(answers := s.desk.answers + map w | w in sub.waiters :: Failed(Unauthorized)))
  }

  lemma UnsubscribeUnauthorizes(s: State, ch: Channel)
    requires ch in s.subs
    ensures UnsubscribeUnauthorized(s, ch) == Unauthorize(s, ch)
  {
    assert (map w | w in s.subs[ch].waiters :: Failed(Unauthorized))
        == map w | w in SetOf(s.subs[ch].waiters) :: Failed(Unauthorized);
  }

  // ---------- resubscribing ----------

  /** The subscription as it asks: with the token and data its callbacks give, and an event if the latter fails. */
  function Prepared(sub: SubState, o: Oracle): SubState {
    var asks := sub.token == "" && sub.config.hasGetToken;
    sub.(token := if asks && o.token.Token? then o.token.token else sub.token,
         config := sub.config.(data := if sub.config.hasGetData && o.data.Some? then o.data.value else sub.config.data),
         log := if sub.config.hasGetData && o.data.None? then sub.log + [ErrorEvent] else sub.log)
  }

  /**
   A due resubscription of a channel that is not unsubscribed sends a subscribe command with what the callbacks give.
   A refused token ends the subscription and a failing token callback costs the attempt; in every other case
   nothing happens.
   */
  lemma ResubscribeFires(s: State, ch: Channel, o: Oracle)
    requires Enabled(s, Fire(Resubscribe(ch), o))
    ensures var t := Step(s, Fire(Resubscribe(ch), o));
      var m := Fired(s, Resubscribe(ch));
      if !s.link.phase.Connected? || ch !in s.subs || s.subs[ch].state.Unsubscribed? then t == m
      else
        var sub := s.subs[ch];
        var asks := sub.token == "" && sub.config.hasGetToken;
        if asks && o.token.Broken? then
          t == m.(subs := s.subs[ch := sub.(attempts := sub.attempts + 1, log := sub.log + [ErrorEvent])],
                  calls := t.calls)
          && t.calls.timers == s.calls.timers && t.calls.pending == s.calls.pending && t.calls.issued == s.calls.issued
        else if asks && Refused(o.token) then t == Unauthorize(m, ch)
        else SendsSubscribe(m, t, ch, Prepared(sub, o), None, o.fate)
  {
    hide SendSubscribe, SendsSubscribe, UnsubscribeUnauthorized, Unauthorize;
    var m := Fired(s, Resubscribe(ch));
    if ch in s.subs {
      UnsubscribeUnauthorizes(m, ch);
      SendSubscribeSends(m, ch, Prepared(s.subs[ch], o), None, o.fate);
    }
  }

  // ---------- timeouts ----------

  /** A late timeout does nothing; one that finds its request fails it, and that is all for a generic one. */
  lemma TimeoutFires(s: State, id: nat, o: Oracle)
    requires Enabled(s, Fire(RequestTimeout(id), o))
    ensures var t := Step(s, Fire(RequestTimeout(id), o));
      var m := Fired(s, RequestTimeout(id));
      if id !in s.calls.pending then t == m
      else
        var late := m.(calls := m.calls.(pending := s.calls.pending - {id}));
        match s.calls.pending[id]
        case AwaitReply(h) => t == late.(desk := s.desk.(answers := s.desk.answers[h := Failed(Timeout)]))
        case AwaitSubscribe(ch, sender) =>
          ch !in s.subs ==>
            t == if sender.None? then late
                 else late.(desk := s.desk.(answers := s.desk.answers[sender.value := Failed(Timeout)]))
        case _ => t == late
  {
    hide Tell, OnTransportClose, DrainWaiters, OptionSet;
    if id in s.calls.pending {
      TellOne(s.desk, CallerOf(s.calls.pending[id]), Failed(Timeout));
    }
  }

  // ---------- token refreshes ----------

  /**
   A due refresh presents the token the callback gives, or the one there is; it is tried again if the callback
   or the send fails, and a refused token disconnects with code 1.
   */
  lemma RefreshFires(s: State, o: Oracle)
    requires Enabled(s, Fire(RefreshToken, o))
    ensures var t := Step(s, Fire(RefreshToken, o));
      var m := Fired(s, RefreshToken);
      if !s.link.phase.Connected? then t == m
      else if s.config.hasGetToken && o.token.Broken? then
        t == s.(clientLog := s.clientLog + [ClientErrorEvent])
      else if s.config.hasGetToken && Refused(o.token) then Disconnects(m, t, 1)
      else
        Presents(m, t, if s.config.hasGetToken then o.token.token else s.config.token, o.fate)
  {
    hide MoveToDisconnected, Disconnects, Transact, SendFails, Sends;
    var m := Fired(s, RefreshToken);
    if s.link.phase.Connected? {
      MoveDisconnects(m, 1);
      if !s.config.hasGetToken || o.token.Token? {
        var token := if s.config.hasGetToken then o.token.token else s.config.token;
        TransactSends(m.(config := m.config.(token := token)), RefreshBody(token), AwaitRefresh, o.fate);
      }
    }
  }

  /** The token is kept and sent, and the refresh is armed again if it does not leave. */
  ghost predicate Presents(s: State, t: State, token: string, fate: Fate) {
    exists u :: Sends(s.(config := s.config.(token := token)), u, RefreshBody(token), AwaitRefresh, None, false, fate)
                && t == if Obstacle(s, fate).None? then u
                        else u.(calls := u.calls.(timers := u.calls.timers + multiset{RefreshToken}))
  }

  /**
   A due refresh of a subscribed channel with a token callback presents the fresh token. A refused one
   ends the subscription, and after a failing callback it is tried again.
   */
  lemma SubRefreshFires(s: State, ch: Channel, o: Oracle)
    requires Enabled(s, Fire(RefreshSubToken(ch), o))
    ensures var t := Step(s, Fire(RefreshSubToken(ch), o));
      var m := Fired(s, RefreshSubToken(ch));
      if !s.link.phase.Connected? || ch !in s.subs || !s.subs[ch].state.Subscribed?
          || !s.subs[ch].config.hasGetToken then t == m
      else
        var sub := s.subs[ch];
        if o.token.Broken? then t == s.(subs := s.subs[ch := sub.(log := sub.log + [ErrorEvent])])
        else if Refused(o.token) then t == Unauthorize(m, ch)
        else Sends(m.(subs := s.subs[ch := sub.(token := o.token.token)]), t,
               SubRefreshBody(ch, o.token.token), AwaitSubRefresh(ch), None, false, o.fate)
  {
    hide Transact, Sends, UnsubscribeUnauthorized, Unauthorize;
    var m := Fired(s, RefreshSubToken(ch));
    if ch in s.subs {
      UnsubscribeUnauthorizes(m, ch);
      if o.token.Token? {
        TransactSends(m.(subs := s.subs[ch := s.subs[ch].(token := o.token.token)]),
            SubRefreshBody(ch, o.token.token), AwaitSubRefresh(ch), o.fate);
      }
    }
  }
}
