/** No lost wake-up: what a connected client is waiting for is always on its way. */
module WakeUps {
  import opened Prelude
  import Codes
  import opened Lines
  import opened Protocol
  import opened Subscriptions
  import opened ActorState
  import JointInvariant
  import RequestIdentity

  ghost predicate IsAttempt(pending: map<nat, PendingRequest>, id: nat, ch: Channel) {
    id in pending && pending[id].AwaitSubscribe? && pending[id].channel == ch
  }

  /** A subscribe reply or a resubscribe timer is outstanding. */
  ghost predicate HasAttempt(c: Calls, ch: Channel) {
    (exists id :: IsAttempt(c.pending, id, ch)) || Resubscribe(ch) in c.timers
  }

  /** The channel is left to itself: nothing will ever try again on this connection. */
  ghost predicate Forgotten(s: State, ch: Channel) {
    s.link.phase.Connected? && ch in s.subs && s.subs[ch].state.Subscribing? && !HasAttempt(s.calls, ch)
  }

  /** `send_command` reports an error. */
  predicate SendRefused(s: State, fate: Fate) {
    fate.Unencodable? || (!s.out.batch.active && (!s.link.sink || fate.Refused?))
  }

  /** While connected, every subscribing channel outside `todo` has an attempt under way. */
  ghost predicate Awake(s: State, todo: set<Channel>) {
    s.link.phase.Connected? ==>
      forall ch :: ch in s.subs && s.subs[ch].state.Subscribing? && ch !in todo ==> HasAttempt(s.calls, ch)
  }

  /** Every request with a deadline has its `RequestTimeout` armed. */
  ghost predicate Armed(c: Calls) {
    forall id :: id in c.pending && TimedOut(c.pending[id]) ==> RequestTimeout(id) in c.timers
  }

  /** The invariant; it rests on ids not having wrapped. */
  ghost predicate Alert(s: State, todo: set<Channel>) {
    && RequestIdentity.Identified(s)
    && Armed(s.calls)
    && (|s.calls.issued| < TWO_32 ==> Awake(s, todo))
  }

  /** A fresh id overwrites no entry. */
  lemma FreshId(s: State)
    requires RequestIdentity.Identified(s) && |s.calls.issued| < TWO_32 - 1
    ensures NextId(s.calls) !in s.calls.pending
  {}

  lemma AttemptsGrow(c: Calls, d: Calls, ch: Channel)
    requires HasAttempt(c, ch)
    requires forall id :: id in c.pending ==> id in d.pending && d.pending[id] == c.pending[id]
    requires Resubscribe(ch) in c.timers ==> Resubscribe(ch) in d.timers
    ensures HasAttempt(d, ch)
  {
    if id :| IsAttempt(c.pending, id, ch) {
      assert IsAttempt(d.pending, id, ch);
    }
  }

  lemma EnterAttempts(c: Calls, body: Body, req: PendingRequest, ch: Channel)
    requires NextId(c) !in c.pending
    ensures HasAttempt(c, ch) ==> HasAttempt(Enter(c, body, req), ch) && HasAttempt(Abandon(c, body, req), ch)
    ensures req.AwaitSubscribe? && req.channel == ch ==> HasAttempt(Enter(c, body, req), ch)
  {
    if HasAttempt(c, ch) {
      AttemptsGrow(c, Enter(c, body, req), ch);
      AttemptsGrow(c, Abandon(c, body, req), ch);
    }
    if req.AwaitSubscribe? && req.channel == ch {
      assert IsAttempt(Enter(c, body, req).pending, NextId(c), ch);
    }
  }

  /** The channels to worry about after a subscribe for `ch`, depending on whether its send was refused. */
  function Tried(todo: set<Channel>, ch: Channel, refused: bool): set<Channel> {
    if refused then todo + {ch} else todo - {ch}
  }

  lemma RefusedIsFailure(s: State, body: Body, fate: Fate)
    ensures SendFails(s, body, fate) == SendRefused(s, fate)
  {}

  lemma MoreExcused(s: State, todo: set<Channel>, more: set<Channel>)
    requires Alert(s, todo) && todo <= more
    ensures Alert(s, more)
  {}

  lemma EnterArmed(c: Calls, body: Body, req: PendingRequest)
    requires Armed(c)
    ensures Armed(Enter(c, body, req)) && Armed(Abandon(c, body, req))
  {}

  /** A request is sent: its channel, if it subscribes and the send is accepted, now has an attempt. */
  lemma TransactKeeps(s: State, body: Body, req: PendingRequest, fate: Fate, todo: set<Channel>)
    requires Alert(s, todo)
    requires RequestIdentity.Fits([Issued(body, CallerOf(req))], 1, req)
    ensures Alert(Transact(s, body, req, fate),
        if req.AwaitSubscribe? then Tried(todo, req.channel, SendRefused(s, fate)) else todo)
  {
    hide SendCommand, Enter, Abandon, HasAttempt, Armed, SendRefused, SendFails, RequestIdentity.Identified;
    var t := Transact(s, body, req, fate);
    RequestIdentity.TransactKeeps(s, body, req, fate);
    EnterArmed(s.calls, body, req);
    RefusedIsFailure(s, body, fate);
    TransactCalls(s, body, req, fate);
    if |t.calls.issued| < TWO_32 && s.link.phase.Connected? {
      IssuedAfter(s, body, req, fate);
      FreshId(s);
      var after := if req.AwaitSubscribe? then Tried(todo, req.channel, SendRefused(s, fate)) else todo;
      forall ch | ch in t.subs && t.subs[ch].state.Subscribing? && ch !in after
        ensures HasAttempt(t.calls, ch)
      {
        EnterAttempts(s.calls, body, req, ch);
      }
    }
  }

  lemma TransactCalls(s: State, body: Body, req: PendingRequest, fate: Fate)
    ensures Transact(s, body, req, fate).calls
         == if SendFails(s, body, fate) then Abandon(s.calls, body, req) else Enter(s.calls, body, req)
  {
    hide SendCommand, Enter, Abandon;
  }

  lemma IssuedAfter(s: State, body: Body, req: PendingRequest, fate: Fate)
    ensures |Transact(s, body, req, fate).calls.issued| == |s.calls.issued| + 1
  {}

  lemma NotConnected(s: State, todo: set<Channel>)
    requires RequestIdentity.Identified(s) && Armed(s.calls) && !s.link.phase.Connected?
    ensures Alert(s, todo)
  {}

  lemma DisconnectedKeeps(s: State, code: nat, todo: set<Channel>)
    requires RequestIdentity.Identified(s)
    ensures Alert(MoveToDisconnected(s, code), todo)
  {
    hide Tell, Note, CloseAll, WaitersIn, CallersIn;
  }

  lemma TransportCloseKeeps(s: State, code: nat, reconnect: bool, todo: set<Channel>)
    requires RequestIdentity.Identified(s)
    ensures Alert(OnTransportClose(s, code, reconnect), todo)
  {
    hide Tell, Note, CloseAll, SuspendAll, WaitersIn, CallersIn;
  }

  /** Calls that only gain timers, subscriptions that do not start subscribing. */
  lemma QuietKeeps(s: State, t: State, todo: set<Channel>)
    requires Alert(s, todo) && RequestIdentity.Identified(t)
    requires t.link.phase == s.link.phase
    requires t.calls.issued == s.calls.issued && t.calls.pending == s.calls.pending
    requires s.calls.timers <= t.calls.timers
    requires forall ch :: ch in t.subs && t.subs[ch].state.Subscribing? ==>
               (ch in s.subs && s.subs[ch].state.Subscribing?) || Resubscribe(ch) in t.calls.timers
    ensures Alert(t, todo)
  {}

  /** The same when `ch` itself is settled: not subscribing any more, or with a timer. */
  lemma SettledKeeps(s: State, t: State, ch: Channel, todo: set<Channel>)
    requires Alert(s, todo) && RequestIdentity.Identified(t)
    requires t.link.phase == s.link.phase
    requires t.calls.issued == s.calls.issued && t.calls.pending == s.calls.pending
    requires s.calls.timers <= t.calls.timers
    requires forall c :: c in t.subs && t.subs[c].state.Subscribing? && c != ch ==>
               c in s.subs && s.subs[c].state.Subscribing?
    requires ch in t.subs && t.subs[ch].state.Subscribing? ==> HasAttempt(t.calls, ch)
    ensures Alert(t, todo - {ch})
  {}

  lemma RetryKeeps(s: State, ch: Channel, token: string, todo: set<Channel>)
    requires Alert(s, todo) && ch in s.subs && RequestIdentity.Identified(RetryLater(s, ch, token))
    ensures Alert(RetryLater(s, ch, token), todo - {ch})
  {}

  lemma ExpelKeeps(s: State, ch: Channel, code: nat, err: ClientError, todo: set<Channel>)
    requires Alert(s, todo) && RequestIdentity.Identified(Expel(s, ch, code, err))
    ensures Alert(Expel(s, ch, code, err), todo - {ch})
  {}

  lemma SendSubscribeKeeps(s: State, ch: Channel, sub: SubState, sender: Option<Handle>, fate: Fate, todo: set<Channel>)
    requires Alert(s, todo)
    ensures Alert(SendSubscribe(s, ch, sub, sender, fate), Tried(todo, ch, SendRefused(s, fate)))
  {
    hide Transact, HasAttempt, RequestIdentity.Identified;
    var s1 := s.(subs := s.subs[ch := sub]);
    assert RequestIdentity.Identified(s1) by { SubsDoNotIdentify(s, s1); }
    SubsKeep(s, s1, ch, todo);
    TransactKeeps(s1, SubscribeBody(BuildRequest(ch, sub)), AwaitSubscribe(ch, sender), fate, todo + {ch});
    MoreExcused(SendSubscribe(s, ch, sub, sender, fate), Tried(todo + {ch}, ch, SendRefused(s, fate)),
        Tried(todo, ch, SendRefused(s, fate)));
  }

  lemma SubsKeep(s: State, t: State, ch: Channel, todo: set<Channel>)
    requires Alert(s, todo) && RequestIdentity.Identified(t)
    requires t.link == s.link && t.calls == s.calls
    requires forall c :: c in t.subs && t.subs[c].state.Subscribing? && c != ch ==>
        c in s.subs && s.subs[c].state.Subscribing?
    ensures Alert(t, todo + {ch})
  {}

  lemma SubsDoNotIdentify(s: State, t: State)
    requires RequestIdentity.Identified(s) && t.calls == s.calls && t.out == s.out && t.link == s.link
    ensures RequestIdentity.Identified(t)
  {}

  /** `do_subscribe` gets as far as sending. */
  predicate Sends(s: State, ch: Channel, o: Oracle) {
    && ch in s.subs && !s.subs[ch].state.Unsubscribed?
    && (NeedsToken(s.subs[ch]) ==> o.token.Token? && o.token.token != "")
  }

  lemma DoSubscribeKeeps(s: State, ch: Channel, o: Oracle, todo: set<Channel>)
    requires Alert(s, todo)
    ensures Alert(DoSubscribe(s, ch, o), Tried(todo, ch, Sends(s, ch, o) && SendRefused(s, o.fate)))
  {
    hide SendSubscribe, RetryLater, Expel, Awake, Armed, SendRefused, RequestIdentity.Identified;
    RequestIdentity.DoSubscribeKeeps(s, ch, o);
    if ch !in s.subs || s.subs[ch].state.Unsubscribed? {
      SettledKeepsSelf(s, ch, todo);
    } else if !NeedsToken(s.subs[ch]) {
      SendSubscribeKeeps(s, ch, RefreshData(s.subs[ch], o.data), None, o.fate, todo);
    } else if o.token.Broken? {
      RetryKeeps(s, ch, s.subs[ch].token, todo);
    } else if o.token.Denied? || o.token.token == "" {
      ExpelKeeps(s, ch, Codes.UNSUBSCRIBED_UNAUTHORIZED, Unauthorized, todo);
    } else {
      SendSubscribeKeeps(s, ch, RefreshData(s.subs[ch].(token := o.token.token), o.data), None, o.fate, todo);
    }
  }

  lemma SettledKeepsSelf(s: State, ch: Channel, todo: set<Channel>)
    requires Alert(s, todo) && (ch in s.subs ==> !s.subs[ch].state.Subscribing?)
    ensures Alert(s, todo - {ch})
  {}

  // ---------- replies and pushes ----------

  /** The channels to worry about after a push: a server unsubscribe may arm an attempt. */
  function Pushed(s: State, push: Push, todo: set<Channel>): set<Channel> {
    if push.body.UnsubscribePush? && push.channel in s.subs && Codes.ShouldResubscribeOnUnsubscribe(push.body.code)
    then todo - {push.channel} else todo
  }

  lemma PushKeeps(s: State, push: Push, todo: set<Channel>)
    requires Alert(s, todo)
    ensures Alert(HandlePush(s, push), Pushed(s, push, todo))
  {
    hide OnTransportClose, MoveToDisconnected, HasAttempt, Receive, Note, RequestIdentity.Identified;
    RequestIdentity.PushKeeps(s, push);
    assert RequestIdentity.Keeps(s, HandlePush(s, push));
    match push.body {
      case DisconnectPush(code) =>
        TransportCloseKeeps(s, code, true, todo);
        DisconnectedKeeps(s, code, todo);
      case PublicationPush(p) =>
        if push.channel in s.subs { ReceiveState(s.subs[push.channel], p, s.config.protocol); }
        QuietKeeps(s, HandlePush(s, push), todo);
      case UnsubscribePush(code) =>
        if Pushed(s, push, todo) == todo { QuietKeeps(s, HandlePush(s, push), todo); } else { KickKeeps(s, push.channel,
            code, todo); }
      case _ =>
        QuietKeeps(s, HandlePush(s, push), todo);
    }
  }

  lemma KickKeeps(s: State, ch: Channel, code: nat, todo: set<Channel>)
    requires Alert(s, todo) && ch in s.subs && Codes.ShouldResubscribeOnUnsubscribe(code)
    requires RequestIdentity.Identified(HandleServerUnsubscribe(s, ch, code))
    ensures Alert(HandleServerUnsubscribe(s, ch, code), todo - {ch})
  {
    hide RequestIdentity.Identified;
    SettledKeeps(s, HandleServerUnsubscribe(s, ch, code), ch, todo);
  }

  lemma ReceiveState(sub: SubState, p: Publication, protocol: ProtocolType)
    ensures Receive(sub, p, protocol).state == sub.state
  {}

  lemma SuccessKeeps(s: State, ch: Channel, r: SubscribeResult, todo: set<Channel>)
    requires Alert(s, todo)
    ensures Alert(HandleSubscribeSuccess(s, ch, r), todo - {ch})
  {
    hide RequestIdentity.Identified, HasAttempt;
    assert RequestIdentity.Identified(HandleSubscribeSuccess(s, ch, r)) by { SuccessIdentified(s, ch, r); }
    SucceedIsSubscribed(if ch in s.subs then s.subs[ch] else NewSub(ANY_CONFIG), r, s.config.protocol);
    SettledKeeps(s, HandleSubscribeSuccess(s, ch, r), ch, todo);
  }

  const ANY_CONFIG := SubscriptionConfig(None, false, false, false, false, "", false, [], false)

  lemma SuccessIdentified(s: State, ch: Channel, r: SubscribeResult)
    requires RequestIdentity.Identified(s)
    ensures RequestIdentity.Identified(HandleSubscribeSuccess(s, ch, r))
  {}

  lemma SucceedIsSubscribed(sub: SubState, r: SubscribeResult, protocol: ProtocolType)
    ensures Succeed(sub, r, protocol).state == Subscribed
  {
    ReceiveAllKeeps(Confirm(sub, r), r.publications, protocol);
  }

  lemma ErrorKeeps(s: State, ch: Channel, err: ServerError, todo: set<Channel>)
    requires Alert(s, todo)
    ensures Alert(HandleSubscribeError(s, ch, err), todo - {ch})
  {
    hide RetryLater, Expel, Awake, Armed, RequestIdentity.Identified;
    assert RequestIdentity.Identified(HandleSubscribeError(s, ch, err)) by { ErrorIdentified(s, ch, err); }
    if ch !in s.subs {
      SettledKeepsSelf(s, ch, todo);
    } else if Codes.IsTemporary(err.code, err.temporary) {
      RetryKeeps(s, ch, if err.code == Codes.TOKEN_EXPIRED then "" else s.subs[ch].token, todo);
    } else {
      ExpelKeeps(s, ch, err.code, Server(err), todo);
    }
  }

  lemma ErrorIdentified(s: State, ch: Channel, err: ServerError)
    requires RequestIdentity.Identified(s)
    ensures RequestIdentity.Identified(HandleSubscribeError(s, ch, err))
  {}

  /** Taking out an entry leaves its own channel, at most, without an attempt. */
  lemma TakeOutKeeps(s: State, id: nat, todo: set<Channel>)
    requires Alert(s, todo) && id in s.calls.pending
    ensures Alert(TakeOut(s, id),
        if s.calls.pending[id].AwaitSubscribe? then todo + {s.calls.pending[id].channel} else todo)
  {
    var t := TakeOut(s, id);
    forall ch | HasAttempt(s.calls, ch) && !IsAttempt(s.calls.pending, id, ch)
      ensures HasAttempt(t.calls, ch)
    {
      if i :| IsAttempt(s.calls.pending, i, ch) {
        assert IsAttempt(t.calls.pending, i, ch);
      }
    }
  }

  predicate Empty(r: Reply) { r.error.None? && r.subscribe.None? }

  lemma ResolveSubscribeKeeps(s: State, ch: Channel, r: Reply, todo: set<Channel>)
    requires Alert(s, todo + {ch})
    ensures Alert(ResolveSubscribe(s, ch, r).0, Tried(todo, ch, Empty(r)))
  {
    hide HandleSubscribeSuccess, HandleSubscribeError, RequestIdentity.Identified, HasAttempt;
    assert todo + {ch} - {ch} == todo - {ch};
    SuccessKeeps(s, ch, if r.subscribe.Some? then r.subscribe.value else EMPTY_RESULT, todo + {ch});
    if r.error.Some? {
      ErrorKeeps(s, ch, r.error.value, todo + {ch});
    } else if r.subscribe.None? {
      assert RequestIdentity.Identified(ResolveSubscribe(s, ch, r).0) by { StrandedIdentified(s, ch); }
      QuietKeeps(s, ResolveSubscribe(s, ch, r).0, todo + {ch});
    }
  }

  lemma StrandedIdentified(s: State, ch: Channel)
    requires RequestIdentity.Identified(s)
    ensures RequestIdentity.Identified(s.(calls := s.calls.(stranded := s.calls.stranded + {ch})))
  {}

  /** The channels to worry about after a reply. */
  function Answered(s: State, r: Reply, todo: set<Channel>): set<Channel> {
    if r.id == 0 then if r.push.Some? then Pushed(s, r.push.value, todo) else todo
    else if r.id in s.calls.pending && s.calls.pending[r.id].AwaitSubscribe? then
      if Empty(r) then todo + {s.calls.pending[r.id].channel}
      else if Retries(s, s.calls.pending[r.id].channel, r) then todo - {s.calls.pending[r.id].channel}
      else todo
    else todo
  }

  /** A temporary error is retried. */
  predicate Retries(s: State, ch: Channel, r: Reply) {
    && ch in s.subs && r.error.Some? && r.error.value.code != Codes.ALREADY_SUBSCRIBED
    && Codes.IsTemporary(r.error.value.code, r.error.value.temporary)
  }

  lemma ResolveKeeps(s: State, req: PendingRequest, r: Reply, todo: set<Channel>)
    requires Alert(s, if req.AwaitSubscribe? then todo + {req.channel} else todo)
    ensures Alert(ResolvePending(s, req, r), if req.AwaitSubscribe? then Tried(todo, req.channel, Empty(r)) else todo)
  {
    hide ResolveSubscribe, RequestIdentity.Identified, HasAttempt;
    RequestIdentity.ResolveKeeps(s, req, r);
    assert RequestIdentity.Keeps(s, ResolvePending(s, req, r));
    if req.AwaitSubscribe? {
      ResolveSubscribeKeeps(s, req.channel, r, todo);
    } else {
      QuietKeeps(s, ResolvePending(s, req, r), todo);
    }
  }

  lemma DispatchKeeps(s: State, a: Arrival, todo: set<Channel>)
    requires Alert(s, todo)
    ensures Alert(DispatchReply(s, a), Answered(s, a.reply, todo))
  {
    hide HandlePush, ResolvePending, RequestIdentity.Identified, HasAttempt;
    RequestIdentity.DispatchKeeps(s, a);
    assert RequestIdentity.Keeps(s, DispatchReply(s, a));
    if a.reply.id == 0 {
      if a.reply.push.Some? {
        PushKeeps(s, a.reply.push.value, todo);
      }
    } else if a.reply.id in s.calls.pending {
      TakeOutKeeps(s, a.reply.id, todo);
      var req := s.calls.pending[a.reply.id];
      ResolveKeeps(TakeOut(s, a.reply.id), req, a.reply, todo);
      MoreExcused(DispatchReply(s, a), if req.AwaitSubscribe? then Tried(todo, req.channel, Empty(a.reply)) else todo,
          Answered(s, a.reply, todo));
    }
  }

  lemma DispatchStranded(s: State, a: Arrival)
    ensures DispatchReply(s, a).calls.stranded == Answered(s, a.reply, s.calls.stranded)
  {
    hide Tell, Note, Succeed, Receive, Leave, CloseAll, SuspendAll, SendCommand;
  }

  lemma {:induction false} DispatchAllKeeps(s: State, arrivals: seq<Arrival>)
    requires Alert(s, s.calls.stranded)
    ensures Alert(DispatchAll(s, arrivals), DispatchAll(s, arrivals).calls.stranded)
    decreases |arrivals|
  {
    hide DispatchReply, Alert;
    if arrivals != [] {
      var m := DispatchAll(s, arrivals[..|arrivals| - 1]);
      DispatchAllKeeps(s, arrivals[..|arrivals| - 1]);
      DispatchKeeps(m, arrivals[|arrivals| - 1], m.calls.stranded);
      DispatchStranded(m, arrivals[|arrivals| - 1]);
    }
  }

  // ---------- the connect cycle ----------

  lemma FailureKeeps(s: State, err: ClientError, todo: set<Channel>)
    requires Alert(s, todo) && !s.link.phase.Connected?
    ensures Alert(OnHandshakeFailure(s, err), todo)
  {
    hide Tell, Note;
    RequestIdentity.FailureKeeps(s, err);
  }

  lemma BeginKeeps(s: State, o: Opening, todo: set<Channel>)
    requires Alert(s, todo) && !s.link.phase.Connected?
    ensures Alert(BeginAttempt(s, o), todo)
  {
    RequestIdentity.BeginKeeps(s, o);
    BeginArmed(s, o);
    NotConnected(BeginAttempt(s, o), todo);
  }

  lemma BeginArmed(s: State, o: Opening)
    requires Armed(s.calls) && !s.link.phase.Connected?
    ensures Armed(BeginAttempt(s, o).calls) && !BeginAttempt(s, o).link.phase.Connected?
  {
    hide RefreshTokenIfNeeded, SendConnect, Armed;
    var s0 := s.(link := s.link.(attempts := s.link.attempts + 1));
    RefreshTokenArmed(s0, o.token);
    SendConnectArmed(RefreshConnectData(Attach(RefreshTokenIfNeeded(s0, o.token).0), o.data), o.fate);
  }

  lemma RefreshTokenArmed(s: State, o: TokenOutcome)
    requires Armed(s.calls) && !s.link.phase.Connected?
    ensures Armed(RefreshTokenIfNeeded(s, o).0.calls) && !RefreshTokenIfNeeded(s, o).0.link.phase.Connected?
  {}

  lemma SendConnectArmed(s: State, fate: Fate)
    requires Armed(s.calls) && !s.link.phase.Connected?
    ensures Armed(SendConnect(s, fate).calls) && !SendConnect(s, fate).link.phase.Connected?
  {}

  /** Nothing is under way yet when the connection has just been established. */
  lemma EstablishKeeps(s: State, r: ConnectResult, todo: set<Channel>)
    requires Alert(s, todo)
    ensures Alert(Establish(s, r), SubscribingChannels(Establish(s, r).subs))
  {
    hide ResolvedSubs;
    RequestIdentity.EstablishKeeps(s, r);
  }

  /** What `resubscribe_all` still has to do after the first `n` steps of its plan. */
  ghost function Remaining(chs: set<Channel>, plan: seq<Attempt>): set<Channel> {
    set ch | ch in chs && forall i :: 0 <= i < |plan| ==> plan[i].channel != ch
  }

  /** The token callback fails, which is retried. */
  predicate CallbackBreaks(s: State, ch: Channel, o: Oracle) {
    ch in s.subs && !s.subs[ch].state.Unsubscribed? && NeedsToken(s.subs[ch]) && o.token.Broken?
  }

  /** The channels whose last attempt failed, after one more `do_subscribe`. */
  lemma DoSubscribeStranded(s: State, ch: Channel, o: Oracle)
    ensures DoSubscribe(s, ch, o).calls.stranded
         == if Sends(s, ch, o) then Tried(s.calls.stranded, ch, SendRefused(s, o.fate))
            else if CallbackBreaks(s, ch, o) then s.calls.stranded - {ch} else s.calls.stranded
  {
    hide Tell, BuildRequest, NeedsToken, Leave;
  }

  lemma {:induction false} ResubscribeKeeps(s: State, plan: seq<Attempt>, chs: set<Channel>)
    requires Alert(s, chs + s.calls.stranded)
    ensures Alert(ResubscribeAll(s, plan), Remaining(chs, plan) + ResubscribeAll(s, plan).calls.stranded)
    decreases |plan|
  {
    hide DoSubscribe, Alert, Sends, SendRefused;
    if plan == [] {
      assert Remaining(chs, plan) == chs;
    } else {
      var prefix, last := plan[..|plan| - 1], plan[|plan| - 1];
      var m := ResubscribeAll(s, prefix);
      ResubscribeKeeps(s, prefix, chs);
      DoSubscribeKeeps(m, last.channel, last.oracle, Remaining(chs, prefix) + m.calls.stranded);
      DoSubscribeStranded(m, last.channel, last.oracle);
      assert Remaining(chs, prefix) - {last.channel} == Remaining(chs, plan);
      MoreExcused(ResubscribeAll(s, plan),
        Tried(Remaining(chs, prefix) + m.calls.stranded, last.channel, Sends(m, last.channel, last.oracle)
            && SendRefused(m, last.oracle.fate)),
        Remaining(chs, plan) + ResubscribeAll(s, plan).calls.stranded);
    }
  }

  lemma FinishKeeps(s: State, r: Reply, plan: seq<Attempt>)
    requires Alert(s, s.calls.stranded) && !s.link.phase.Connected?
    requires HandshakeResult(r).Ok? ==> Lists(plan, SubscribingChannels(Establish(s, HandshakeResult(r).value).subs))
    ensures Alert(FinishHandshake(s, r, plan), FinishHandshake(s, r, plan).calls.stranded)
  {
    hide Establish, ResubscribeAll, OnHandshakeFailure, HasAttempt;
    match HandshakeResult(r) {
      case Err(e) =>
        NotConnected(s, OnHandshakeFailure(s, e).calls.stranded);
        FailureKeeps(s, e, OnHandshakeFailure(s, e).calls.stranded);
      case Ok(result) =>
        var s1 := Establish(s, result);
        var chs := SubscribingChannels(s1.subs);
        EstablishKeeps(s, result, s.calls.stranded);
        MoreExcused(s1, chs, chs + s1.calls.stranded);
        ResubscribeKeeps(s1, plan, chs);
        assert Remaining(chs, plan) + ResubscribeAll(s1, plan).calls.stranded
            == ResubscribeAll(s1, plan).calls.stranded;
    }
  }

  lemma HandshakeFrameKeeps(s: State, arrivals: seq<Arrival>, plan: seq<Attempt>)
    requires Alert(s, s.calls.stranded) && JointInvariant.Joint(s) && s.link.handshake.Some?
    requires PlanFits(s, s.link.handshake.value, arrivals, plan)
    ensures var t := HandshakeFrame(s, s.link.handshake.value, arrivals, plan); Alert(t, t.calls.stranded)
  {
    hide DispatchAll, FinishHandshake, Establish, Alert;
    var n := Before(arrivals, s.link.handshake.value);
    DispatchAllKeeps(s, arrivals[..n]);
    JointInvariant.DispatchAllKeeps(s, arrivals[..n]);
    JointInvariant.DispatchWaits(s, arrivals[..n]);
    if n < |arrivals| {
      FinishKeeps(DispatchAll(s, arrivals[..n]), arrivals[n].reply, plan);
    }
  }

  // ---------- commands and timers ----------

  /** A subscribe call that sends at once. */
  predicate SubscribesNow(s: State, ch: Channel) {
    s.link.phase.Connected? && ch in s.subs && s.subs[ch].state.Unsubscribed?
  }

  lemma SubscribeKeeps(s: State, ch: Channel, h: Handle, fate: Fate, todo: set<Channel>)
    requires Alert(s, todo)
    ensures Alert(HandleSubscribe(s, ch, h, fate),
        if SubscribesNow(s, ch) then Tried(todo, ch, SendRefused(s, fate)) else todo)
  {
    hide SendSubscribe, RequestIdentity.Identified, HasAttempt;
    RequestIdentity.CommandKeeps(s, Subscribe(ch, h), fate);
    assert RequestIdentity.Keeps(s, HandleCommand(s, Subscribe(ch, h), fate));
    if SubscribesNow(s, ch) {
      SendSubscribeKeeps(s, ch, BackToSubscribing(s.subs[ch].(attempts := 0), Codes.SUBSCRIBE_CALLED), Some(h), fate,
          todo);
    } else if s.link.phase.Connected? {
      QuietKeeps(s, HandleSubscribe(s, ch, h, fate), todo);
    }
  }

  lemma UnsubscribeKeeps(s: State, ch: Channel, h: Handle, fate: Fate, todo: set<Channel>)
    requires Alert(s, todo)
    ensures Alert(HandleUnsubscribe(s, ch, h, fate), todo)
  {
    hide OnTransportClose, SendUnsubscribe, SendCommand, RequestIdentity.Identified, HasAttempt;
    if ch in s.subs {
      var s1 := s.(subs := s.subs[ch := Leave(s.subs[ch], Codes.UNSUBSCRIBE_CALLED)]);
      SubsDoNotIdentify(s, s1);
      SettledKeeps(s, s1, ch, todo);
      UnsubscribeSentKeeps(s1, ch, fate, todo);
      var s2 := Respond(SendUnsubscribe(s1, ch, fate), h, Done);
      assert RequestIdentity.Identified(s2) by { SubsDoNotIdentify(SendUnsubscribe(s1, ch, fate), s2); }
      TransportCloseKeeps(s2, Codes.UNSUBSCRIBE_ERROR, true, todo);
      SubsDoNotIdentify(s1, Respond(s1, h, Done));
    } else {
      SubsDoNotIdentify(s, Respond(s, h, Done));
    }
  }

  lemma UnsubscribeSentKeeps(s: State, ch: Channel, fate: Fate, todo: set<Channel>)
    requires Alert(s, todo)
    ensures Alert(SendUnsubscribe(s, ch, fate), todo)
  {
    hide SendCommand, HasAttempt, RequestIdentity.Identified;
    RequestIdentity.PostIssuedKeeps(s, ch, fate);
    var t := SendUnsubscribe(s, ch, fate);
    forall c | HasAttempt(s.calls, c)
      ensures HasAttempt(t.calls, c)
    {
      AttemptsGrow(s.calls, t.calls, c);
    }
  }

  lemma RemoveKeeps(s: State, ch: Channel, h: Handle, fate: Fate, todo: set<Channel>)
    requires Alert(s, todo)
    ensures Alert(HandleRemoveSubscription(s, ch, h, fate), todo)
  {
    hide SendUnsubscribe, RequestIdentity.Identified, HasAttempt;
    if ch in s.subs {
      var s1 := Forget(s, ch);
      SubsDoNotIdentify(s, s1);
      QuietKeeps(s, s1, todo);
      UnsubscribeSentKeeps(s1, ch, fate, todo);
      SubsDoNotIdentify(SendUnsubscribe(s1, ch, fate), Respond(SendUnsubscribe(s1, ch, fate), h, Done));
      SubsDoNotIdentify(s1, Respond(s1, h, Done));
    } else {
      SubsDoNotIdentify(s, Respond(s, h, Done));
    }
  }

  /** The channels to worry about after a command. */
  function Commanded(s: State, c: ActorCommand, fate: Fate, todo: set<Channel>): set<Channel> {
    if c.Subscribe? && SubscribesNow(s, c.channel) then Tried(todo, c.channel, SendRefused(s, fate)) else todo
  }

  lemma CommandKeeps(s: State, c: ActorCommand, fate: Fate, todo: set<Channel>)
    requires Alert(s, todo)
    ensures Alert(HandleCommand(s, c, fate), Commanded(s, c, fate, todo))
  {
    hide Transact, MoveToDisconnected, HandleSubscribe, HandleUnsubscribe, HandleRemoveSubscription,
         RequestIdentity.Identified, HasAttempt, SendCommand, FlushBatch, Tell;
    RequestIdentity.CommandKeeps(s, c, fate);
    assert RequestIdentity.Keeps(s, HandleCommand(s, c, fate));
    match c {
      case Disconnect(h) => DisconnectedKeeps(s, Codes.DISCONNECT_CALLED, todo);
      case Close(h) => NotConnected(HandleCommand(s, c, fate), todo);
      case RemoveSubscription(ch, h) => RemoveKeeps(s, ch, h, fate, todo);
      case Subscribe(ch, h) => SubscribeKeeps(s, ch, h, fate, todo);
      case Unsubscribe(ch, h) => UnsubscribeKeeps(s, ch, h, fate, todo);
      case SendRequest(payload, h) =>
        if s.link.phase.Connected? {
          TransactKeeps(s, RequestBody(payload), AwaitReply(h), fate, todo);
        }
      case Connect(h) =>
      case _ => QuietKeeps(s, HandleCommand(s, c, fate), todo);
    }
  }

  lemma CommandStranded(s: State, c: ActorCommand, fate: Fate)
    ensures HandleCommand(s, c, fate).calls.stranded == Commanded(s, c, fate, s.calls.stranded)
  {
    hide Tell, Note, CloseAll, FlushBatch, HandleSubscribe, HandleUnsubscribe, Transact, SendCommand, BuildRequest;
    match c {
      case Subscribe(ch, h) => SubscribeStranded(s, ch, h, fate);
      case Unsubscribe(ch, h) => UnsubscribeStranded(s, ch, h, fate);
      case SendRequest(payload, h) => ReplyStranded(s, RequestBody(payload), h, fate);
      case _ =>
    }
  }

  lemma SubscribeStranded(s: State, ch: Channel, h: Handle, fate: Fate)
    ensures HandleSubscribe(s, ch, h, fate).calls.stranded
         == if SubscribesNow(s, ch) then Tried(s.calls.stranded, ch, SendRefused(s, fate)) else s.calls.stranded
  {
    hide Tell, BuildRequest;
  }

  lemma UnsubscribeStranded(s: State, ch: Channel, h: Handle, fate: Fate)
    ensures HandleUnsubscribe(s, ch, h, fate).calls.stranded == s.calls.stranded
  {
    hide Tell, Note, CloseAll, SuspendAll, Leave, SendCommand;
  }

  lemma ReplyStranded(s: State, body: Body, h: Handle, fate: Fate)
    ensures Transact(s, body, AwaitReply(h), fate).calls.stranded == s.calls.stranded
  {
    hide Tell, SendCommand;
  }

  lemma ResubscribeTimerKeeps(s: State, ch: Channel, o: Oracle, todo: set<Channel>)
    requires Alert(s, todo) && s.link.phase.Connected?
    ensures Alert(DoSubscribe(Disarm(s, Resubscribe(ch)), ch, o),
                  Tried(todo, ch, Sends(s, ch, o) && SendRefused(s, o.fate)))
  {
    hide DoSubscribe, SendRefused, RequestIdentity.Identified;
    var s1 := Disarm(s, Resubscribe(ch));
    assert RequestIdentity.Identified(s1) by { DisarmIdentified(s, Resubscribe(ch)); }
    forall c | HasAttempt(s.calls, c) && c != ch
      ensures HasAttempt(s1.calls, c)
    {
      AttemptsGrow(s.calls, s1.calls, c);
    }
    DoSubscribeKeeps(s1, ch, o, todo + {ch});
    SameRefusal(s, s1, o.fate);
    MoreExcused(DoSubscribe(s1, ch, o), Tried(todo + {ch}, ch, Sends(s, ch, o) && SendRefused(s, o.fate)),
                Tried(todo, ch, Sends(s, ch, o) && SendRefused(s, o.fate)));
  }

  lemma SameRefusal(s: State, t: State, fate: Fate)
    requires t.out == s.out && t.link == s.link
    ensures SendRefused(t, fate) == SendRefused(s, fate)
  {}

  lemma DisarmIdentified(s: State, t: Timer)
    requires RequestIdentity.Identified(s)
    ensures RequestIdentity.Identified(Disarm(s, t))
  {}

  lemma TimeoutKeeps(s: State, id: nat, o: Oracle, todo: set<Channel>)
    requires Alert(s, todo)
    ensures Alert(HandleTimer(Disarm(s, RequestTimeout(id)), RequestTimeout(id), o), todo)
  {
    hide OnTransportClose, RequestIdentity.Identified, HasAttempt;
    var s1 := Disarm(s, RequestTimeout(id));
    DisarmIdentified(s, RequestTimeout(id));
    assert forall c :: HasAttempt(s.calls, c) ==> HasAttempt(s1.calls, c) by {
      forall c | HasAttempt(s.calls, c)
        ensures HasAttempt(s1.calls, c)
      {
        AttemptsGrow(s.calls, s1.calls, c);
      }
    }
    RequestIdentity.RequestTimeoutKeeps(s1, id);
    if id in s.calls.pending {
      var req := s.calls.pending[id];
      var s2 := TakeOut(s1, id);
      var s3 := s2.(desk := Tell(s2.desk, OptionSet(CallerOf(req)), Failed(Timeout)));
      TakenOut(s1, s3, id, todo);
      if req.AwaitSubscribe? && req.channel in s.subs {
        var s4 := DrainWaiters(s3, req.channel, Timeout);
        SubsDoNotIdentify(s3, s4);
        TransportCloseKeeps(s4, Codes.SUBSCRIBE_TIMEOUT, true, todo);
      }
    }
  }

  /** A request without a subscription leaves: no subscribing channel loses its attempt. */
  lemma TakenOut(s: State, t: State, id: nat, todo: set<Channel>)
    requires id in s.calls.pending && t.calls == TakeOut(s, id).calls && t.out == s.out && t.link == s.link
        && t.subs == s.subs
    requires RequestIdentity.Identified(s) && (|s.calls.issued| < TWO_32 ==> Awake(s, todo))
    ensures RequestIdentity.Identified(t)
    ensures |s.calls.issued| < TWO_32 ==>
              (s.calls.pending[id].AwaitSubscribe? ==> s.calls.pending[id].channel !in s.subs) ==> Awake(t, todo)
  {
    forall ch | HasAttempt(s.calls, ch) && !IsAttempt(s.calls.pending, id, ch)
      ensures HasAttempt(t.calls, ch)
    {
      if i :| IsAttempt(s.calls.pending, i, ch) {
        assert IsAttempt(t.calls.pending, i, ch);
      }
    }
  }

  lemma RefreshTimerKeeps(s: State, o: Oracle, todo: set<Channel>)
    requires Alert(s, todo)
    ensures Alert(DoRefreshToken(s, o.token, o.fate), todo)
  {
    hide Transact, MoveToDisconnected, RequestIdentity.Identified, HasAttempt;
    DisconnectedKeeps(s, Codes.DISCONNECT_UNAUTHORIZED, todo);
    var s1 := if s.config.hasGetToken && o.token.Token? then s.(config := s.config.(token := o.token.token)) else s;
    SubsDoNotIdentify(s, s1);
    var body := RefreshBody(s1.config.token);
    TransactKeeps(s1, body, AwaitRefresh, o.fate, todo);
    RequestIdentity.TimerKeeps(s, RefreshToken, o);
    assert RequestIdentity.Keeps(s, DoRefreshToken(s, o.token, o.fate));
    var s2 := Transact(s1, body, AwaitRefresh, o.fate);
    ArmKeeps(s2, RefreshToken);
    ArmKeeps(EmitError(s), RefreshToken);
  }

  lemma ArmKeeps(s: State, t: Timer)
    ensures (Armed(s.calls) ==> Armed(Arm(s.calls, t)))
    ensures forall ch :: HasAttempt(s.calls, ch) ==> HasAttempt(Arm(s.calls, t), ch)
  {}

  lemma RefreshSubTimerKeeps(s: State, ch: Channel, o: Oracle, todo: set<Channel>)
    requires Alert(s, todo)
    ensures Alert(DoRefreshSubToken(s, ch, o.token, o.fate), todo)
  {
    hide Transact, Expel, RequestIdentity.Identified, HasAttempt;
    RequestIdentity.TimerKeeps(s, RefreshSubToken(ch), o);
    assert RequestIdentity.Keeps(s, DoRefreshSubToken(s, ch, o.token, o.fate));
    if ch in s.subs && s.subs[ch].state.Subscribed? && s.link.phase.Connected? && s.subs[ch].config.hasGetToken {
      if o.token.Broken? {
        QuietKeeps(s, DoRefreshSubToken(s, ch, o.token, o.fate), todo);
      } else if o.token.Denied? || o.token.token == "" {
        ExpelKeeps(s, ch, Codes.UNSUBSCRIBED_UNAUTHORIZED, Unauthorized, todo);
      } else {
        var s1 := s.(subs := s.subs[ch := s.subs[ch].(token := o.token.token)]);
        SubsDoNotIdentify(s, s1);
        QuietKeeps(s, s1, todo);
        TransactKeeps(s1, SubRefreshBody(ch, o.token.token), AwaitSubRefresh(ch), o.fate, todo);
      }
    }
  }

  lemma OtherTimerKeeps(s: State, t: Timer, todo: set<Channel>)
    requires Alert(s, todo) && (t.RefreshToken? || t.RefreshSubToken?)
    ensures Alert(Disarm(s, t), todo)
  {}

  /** The channels to worry about after a timer has fired. */
  function Fired(s: State, t: Timer, o: Oracle, todo: set<Channel>): set<Channel> {
    if t.Resubscribe? && s.link.phase.Connected? then Tried(todo, t.channel, Sends(s, t.channel, o)
        && SendRefused(s, o.fate)) else todo
  }

  lemma TimerKeeps(s: State, t: Timer, o: Oracle, todo: set<Channel>)
    requires Alert(s, todo)
    ensures Alert(HandleTimer(Disarm(s, t), t, o), Fired(s, t, o, todo))
  {
    hide DoRefreshToken, DoRefreshSubToken, DoSubscribe, HandleRequestTimeout, HasAttempt, Sends, SendRefused,
         RequestIdentity.Identified;
    match t {
      case Resubscribe(ch) =>
        if s.link.phase.Connected? {
          ResubscribeTimerKeeps(s, ch, o, todo);
        } else {
          DisarmIdentified(s, t);
        }
      case RequestTimeout(id) => TimeoutKeeps(s, id, o, todo);
      case RefreshToken =>
        OtherTimerKeeps(s, t, todo);
        RefreshTimerKeeps(Disarm(s, t), o, todo);
      case RefreshSubToken(ch) =>
        OtherTimerKeeps(s, t, todo);
        RefreshSubTimerKeeps(Disarm(s, t), ch, o, todo);
    }
  }

  lemma TimerStranded(s: State, t: Timer, o: Oracle)
    ensures var u := HandleTimer(Disarm(s, t), t, o);
      Fired(s, t, o, s.calls.stranded) <= u.calls.stranded
  {
    hide DoSubscribe, Tell, Note, CloseAll, SuspendAll, Sends, SendRefused, Leave;
    if t.Resubscribe? {
      DoSubscribeStranded(Disarm(s, t), t.channel, o);
      SameRefusal(s, Disarm(s, t), o.fate);
      assert Sends(Disarm(s, t), t.channel, o)
          == Sends(s, t.channel, o) by { SameSends(s, Disarm(s, t), t.channel, o); }
    }
  }

  lemma SameSends(s: State, t: State, ch: Channel, o: Oracle)
    requires t.subs == s.subs
    ensures Sends(t, ch, o) == Sends(s, ch, o)
  {}

  // ---------- runs ----------

  lemma StepKeeps(s: State, i: Input)
    requires Alert(s, s.calls.stranded) && JointInvariant.Joint(s)
    ensures Alert(Step(s, i), Step(s, i).calls.stranded)
  {
    hide HandleCommand, HandleTimer, BeginAttempt, HandshakeFrame, OnHandshakeFailure, DispatchAll, OnTransportClose,
         HasAttempt, Sends, SendRefused, RequestIdentity.Identified;
    if Enabled(s, i) {
      match i {
        case Ask(c, fate) =>
          var s1 := Admit(s, ReplyHandle(c));
          SubsDoNotIdentify(s, s1);
          CommandKeeps(s1, c, fate, s.calls.stranded);
          CommandStranded(s1, c, fate);
        case Fire(t, o) =>
          TimerKeeps(s, t, o, s.calls.stranded);
          TimerStranded(s, t, o);
          MoreExcused(Step(s, i), Fired(s, t, o, s.calls.stranded), Step(s, i).calls.stranded);
        case Open(o) =>
          NotConnected(s, Step(s, i).calls.stranded);
          BeginKeeps(s, o, Step(s, i).calls.stranded);
        case Shake(arrivals, plan) => HandshakeFrameKeeps(s, arrivals, plan);
        case ShakeFails(e) =>
          NotConnected(s, Step(s, i).calls.stranded);
          FailureKeeps(s, e, Step(s, i).calls.stranded);
        case Data(arrivals) => DispatchAllKeeps(s, arrivals);
        case BadData => TransportCloseKeeps(s, Codes.BAD_PROTOCOL, false, Step(s, i).calls.stranded);
        case TransportClosed(code, reconnect) => TransportCloseKeeps(s, code, reconnect, Step(s, i).calls.stranded);
        case PingTimeout => TransportCloseKeeps(s, Codes.NO_PING, true, Step(s, i).calls.stranded);
      }
    }
  }

  lemma {:induction false} RunAlert(config: ClientConfig, inputs: seq<Input>)
    ensures Alert(Run(Init(config), inputs), Run(Init(config), inputs).calls.stranded)
    decreases |inputs|
  {
    hide Step, Alert, JointInvariant.Joint;
    if inputs == [] {
      InitAlert(config);
    } else {
      RunAlert(config, inputs[..|inputs| - 1]);
      JointInvariant.RunJoint(config, inputs[..|inputs| - 1]);
      StepKeeps(Run(Init(config), inputs[..|inputs| - 1]), inputs[|inputs| - 1]);
    }
  }

  lemma InitAlert(config: ClientConfig)
    ensures Alert(Init(config), {})
  {}

  /**
   No lost wake-up: after every run with fewer than 2^32 commands, a connected client's
   subscribing channel has a reply or a resubscribe timer outstanding, unless its last
   attempt on this connection could not be sent or was answered with neither error nor
   result; and every request with a deadline has its timer.
   */
  lemma NoLostWakeUp(config: ClientConfig, inputs: seq<Input>, ch: Channel)
    requires |Run(Init(config), inputs).calls.issued| < TWO_32
    ensures var s := Run(Init(config), inputs);
            && (s.link.phase.Connected? && ch in s.subs && s.subs[ch].state.Subscribing? && ch !in s.calls.stranded ==>
                  (exists id :: IsAttempt(s.calls.pending, id, ch) && RequestTimeout(id) in s.calls.timers)
                  || Resubscribe(ch) in s.calls.timers)
            && Armed(s.calls)
  {
    RunAlert(config, inputs);
  }

  // ---------- exactly when a wake-up is lost ----------

  /** The channel has an attempt under way if it needs one; nothing is claimed about the others. */
  ghost predicate Cared(s: State, ch: Channel) {
    && RequestIdentity.Identified(s) && Armed(s.calls)
    && (s.link.phase.Connected? && ch in s.subs && s.subs[ch].state.Subscribing? ==> HasAttempt(s.calls, ch))
  }

  lemma CaredIsAlert(s: State, ch: Channel)
    requires Cared(s, ch)
    ensures Alert(s, s.subs.Keys - {ch})
  {}

  /** A refused subscribe leaves the outstanding attempts as they were. */
  lemma RefusedChangesNothing(s: State, ch: Channel, sub: SubState, sender: Option<Handle>, fate: Fate)
    requires RequestIdentity.Identified(s) && |s.calls.issued| < TWO_32 - 1 && SendRefused(s, fate)
    ensures var t := SendSubscribe(s, ch, sub, sender, fate);
      && t.link == s.link && t.subs == s.subs[ch := sub]
      && HasAttempt(t.calls, ch) == HasAttempt(s.calls, ch)
  {
    hide SendCommand, SendFails, SendRefused, Enter, Abandon, RequestIdentity.Identified, BuildRequest, HasAttempt;
    var s1 := s.(subs := s.subs[ch := sub]);
    var body := SubscribeBody(BuildRequest(ch, sub));
    RefusedIsFailure(s1, body, fate);
    SameRefusal(s, s1, fate);
    TransactCalls(s1, body, AwaitSubscribe(ch, sender), fate);
    FreshId(s);
    AbandonedAttempts(s.calls, body, AwaitSubscribe(ch, sender), ch);
  }

  lemma AbandonedAttempts(c: Calls, body: Body, req: PendingRequest, ch: Channel)
    requires NextId(c) !in c.pending
    ensures HasAttempt(Abandon(c, body, req), ch) == HasAttempt(c, ch)
  {
    if HasAttempt(c, ch) { AttemptsGrow(c, Abandon(c, body, req), ch); }
    assert Abandon(c, body, req).pending == c.pending;
  }

  /**
   `do_subscribe` leaves a subscribing channel forgotten exactly when it sends, the send is refused and
   nothing else was under way.
   */
  lemma ForgottenByDoSubscribe(s: State, ch: Channel, o: Oracle)
    requires RequestIdentity.Identified(s) && Armed(s.calls) && |s.calls.issued| < TWO_32 - 1
    requires s.link.phase.Connected? && ch in s.subs && s.subs[ch].state.Subscribing?
    ensures Forgotten(DoSubscribe(s, ch, o), ch) <==>
        Sends(s, ch, o) && SendRefused(s, o.fate) && !HasAttempt(s.calls, ch)
  {
    hide SendSubscribe, RequestIdentity.Identified, Armed, HasAttempt, SendRefused, Tell;
    var todo := s.subs.Keys;
    DoSubscribeKeeps(s, ch, o, todo);
    DoSubscribeIssues(s, ch, o);
    if Sends(s, ch, o) && SendRefused(s, o.fate) {
      var sub := if NeedsToken(s.subs[ch]) then s.subs[ch].(token := o.token.token) else s.subs[ch];
      RefusedChangesNothing(s, ch, RefreshData(sub, o.data), None, o.fate);
    }
  }

  lemma DoSubscribeIssues(s: State, ch: Channel, o: Oracle)
    ensures |DoSubscribe(s, ch, o).calls.issued| <= |s.calls.issued| + 1
  {
    hide SendCommand, Tell, BuildRequest;
  }

  /** A command or timer that makes the client send a subscribe for `ch`. */
  predicate Attempts(s: State, i: Input, ch: Channel) {
    match i
    case Ask(Subscribe(c, _), _) => c == ch && SubscribesNow(s, ch)
    case Fire(Resubscribe(c), o) => c == ch && s.link.phase.Connected? && Sends(s, ch, o)
        && s.subs[ch].state.Subscribing?
    case _ => false
  }

  function FateOf(i: Input): Fate
    requires i.Ask? || i.Fire?
  {
    if i.Ask? then i.fate else i.oracle.fate
  }

  /** What is under way once the fired timer, if any, is spent. */
  function Left(s: State, i: Input): Calls { if i.Fire? then Disarm(s, i.timer).calls else s.calls }

  lemma ForgottenByCommand(s: State, c: ActorCommand, fate: Fate, ch: Channel)
    requires Enabled(s, Ask(c, fate)) && Cared(s, ch) && s.link.phase.Connected?
    requires |Step(s, Ask(c, fate)).calls.issued| < TWO_32
    ensures Forgotten(Step(s, Ask(c, fate)), ch) <==>
            Attempts(s, Ask(c, fate), ch) && SendRefused(s, fate) && !HasAttempt(s.calls, ch)
  {
    hide HandleCommand, RequestIdentity.Identified, HasAttempt, SendRefused;
    CaredIsAlert(s, ch);
    var s1 := Admit(s, ReplyHandle(c));
    SubsDoNotIdentify(s, s1);
    CommandKeeps(s1, c, fate, s.subs.Keys - {ch});
    SameRefusal(s, s1, fate);
    if c.Subscribe? && c.channel == ch && SubscribesNow(s, ch) && SendRefused(s, fate) {
      CommandIs(s1, ch, c.reply, fate);
      SubscribeRefused(s1, ch, c.reply, fate);
    }
  }

  lemma ForgottenByTimer(s: State, t: Timer, o: Oracle, ch: Channel)
    requires Enabled(s, Fire(t, o)) && Cared(s, ch) && s.link.phase.Connected?
    requires |Step(s, Fire(t, o)).calls.issued| < TWO_32
    ensures Forgotten(Step(s, Fire(t, o)), ch) <==>
            Attempts(s, Fire(t, o), ch) && SendRefused(s, o.fate) && !HasAttempt(Disarm(s, t).calls, ch)
  {
    hide HandleTimer, RequestIdentity.Identified, HasAttempt, SendRefused, Sends;
    CaredIsAlert(s, ch);
    TimerKeeps(s, t, o, s.subs.Keys - {ch});
    if t == Resubscribe(ch) && Sends(s, ch, o) && SendRefused(s, o.fate) {
      TimerIs(Disarm(s, t), ch, o);
      ResubscribeRefused(s, ch, o);
    }
  }

  /**
   A command or timer leaves a channel of a connected client forgotten exactly when it makes the
   client send a subscribe that is refused while nothing else is under way for the channel.
   */
  lemma ForgottenByStep(s: State, i: Input, ch: Channel)
    requires (i.Ask? || i.Fire?) && Enabled(s, i) && Cared(s, ch) && s.link.phase.Connected?
    requires |Step(s, i).calls.issued| < TWO_32
    ensures Forgotten(Step(s, i), ch) <==>
            Attempts(s, i, ch) && SendRefused(s, FateOf(i)) && !HasAttempt(Left(s, i), ch)
  {
    hide Step, Enabled, Cared, Forgotten, Attempts, SendRefused, HasAttempt, Disarm;
    match i {
      case Ask(c, fate) => ForgottenByCommand(s, c, fate, ch);
      case Fire(t, o) => ForgottenByTimer(s, t, o, ch);
    }
  }

  lemma CommandIs(s: State, ch: Channel, h: Handle, fate: Fate)
    ensures HandleCommand(s, Subscribe(ch, h), fate) == HandleSubscribe(s, ch, h, fate)
  {
    hide HandleSubscribe;
  }

  lemma TimerIs(s: State, ch: Channel, o: Oracle)
    requires s.link.phase.Connected?
    ensures HandleTimer(s, Resubscribe(ch), o) == DoSubscribe(s, ch, o)
  {
    hide DoSubscribe;
  }

  lemma SameAttempts(c: Calls, d: Calls, ch: Channel)
    requires c.pending == d.pending && c.timers == d.timers
    ensures HasAttempt(c, ch) == HasAttempt(d, ch)
  {}

  lemma SubscribeRefused(s: State, ch: Channel, h: Handle, fate: Fate)
    requires RequestIdentity.Identified(s) && SubscribesNow(s, ch) && SendRefused(s, fate)
    requires |HandleSubscribe(s, ch, h, fate).calls.issued| < TWO_32
    ensures var t := HandleSubscribe(s, ch, h, fate);
      t.link == s.link && ch in t.subs && t.subs[ch].state.Subscribing?
          && HasAttempt(t.calls, ch) == HasAttempt(s.calls, ch)
  {
    hide SendSubscribe, RequestIdentity.Identified, HasAttempt, SendRefused;
    var sub := BackToSubscribing(s.subs[ch].(attempts := 0), Codes.SUBSCRIBE_CALLED);
    SendIssues(s, ch, sub, Some(h), fate);
    RefusedChangesNothing(s, ch, sub, Some(h), fate);
  }

  lemma SendIssues(s: State, ch: Channel, sub: SubState, sender: Option<Handle>, fate: Fate)
    ensures |SendSubscribe(s, ch, sub, sender, fate).calls.issued| == |s.calls.issued| + 1
  {
    hide BuildRequest;
  }

  lemma ResubscribeRefused(s: State, ch: Channel, o: Oracle)
    requires RequestIdentity.Identified(s) && Sends(s, ch, o) && SendRefused(s, o.fate)
    requires |DoSubscribe(Disarm(s, Resubscribe(ch)), ch, o).calls.issued| < TWO_32
    ensures var m := Disarm(s, Resubscribe(ch));
      var t := DoSubscribe(m, ch, o);
      t.link == s.link && ch in t.subs && t.subs[ch].state == s.subs[ch].state
          && HasAttempt(t.calls, ch) == HasAttempt(m.calls, ch)
  {
    hide SendSubscribe, RequestIdentity.Identified, HasAttempt, SendRefused;
    var m := Disarm(s, Resubscribe(ch));
    DisarmIdentified(s, Resubscribe(ch));
    SameRefusal(s, m, o.fate);
    var sub := RefreshData(if NeedsToken(s.subs[ch]) then s.subs[ch].(token := o.token.token) else s.subs[ch], o.data);
    SendIssues(m, ch, sub, None, o.fate);
    RefusedChangesNothing(m, ch, sub, None, o.fate);
  }

  /**
   A reply leaves a channel of a connected client forgotten exactly when it answers a subscribe for the
   channel with neither error nor result while nothing else is under way for it.
   */
  lemma ForgottenByReply(s: State, a: Arrival, ch: Channel)
    requires Cared(s, ch) && s.link.phase.Connected? && |s.calls.issued| < TWO_32
    ensures Forgotten(DispatchReply(s, a), ch) <==>
            && ch in s.subs && s.subs[ch].state.Subscribing?
            && a.reply.id != 0 && IsAttempt(s.calls.pending, a.reply.id, ch) && Empty(a.reply)
            && !HasAttempt(TakeOut(s, a.reply.id).calls, ch)
  {
    hide DispatchReply, RequestIdentity.Identified, HasAttempt;
    CaredIsAlert(s, ch);
    DispatchKeeps(s, a, s.subs.Keys - {ch});
    DispatchIssues(s, a);
    if a.reply.id != 0 && IsAttempt(s.calls.pending, a.reply.id, ch) && Empty(a.reply) {
      EmptyReply(s, a);
      SameAttempts(DispatchReply(s, a).calls, TakeOut(s, a.reply.id).calls, ch);
    }
  }

  lemma DispatchIssues(s: State, a: Arrival)
    ensures DispatchReply(s, a).calls.issued == s.calls.issued
  {
    hide Tell, Note, Succeed, Receive, Leave, CloseAll, SuspendAll, SendCommand;
  }

  lemma EmptyReply(s: State, a: Arrival)
    requires a.reply.id != 0 && a.reply.id in s.calls.pending && s.calls.pending[a.reply.id].AwaitSubscribe?
        && Empty(a.reply)
    ensures var t := DispatchReply(s, a);
      && t.calls.pending == TakeOut(s, a.reply.id).calls.pending && t.calls.timers == s.calls.timers
      && t.subs == s.subs && t.link == s.link
  {}
}
