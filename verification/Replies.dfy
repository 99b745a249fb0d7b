/** What a reply does to the request that awaits it, and what its caller is told. */
module Replies {
  import opened Prelude
  import opened Lines
  import opened Protocol
  import opened Subscriptions
  import opened ActorState
  import opened Outcomes
  import Registry

  // ---------- generic requests ----------

  /** The caller of a generic request gets the reply as it came, and nothing else happens. */
  lemma RequestAnswered(s: State, a: Arrival, h: Handle)
    requires a.reply.id != 0 && a.reply.id in s.calls.pending && s.calls.pending[a.reply.id] == AwaitReply(h)
    ensures DispatchReply(s, a)
         == s.(calls := s.calls.(pending := s.calls.pending - {a.reply.id}),
               desk := s.desk.(answers := s.desk.answers[h := Raw(a.reply)]))
  {
    assert Tell(s.desk, {h}, Raw(a.reply)).answers == s.desk.answers[h := Raw(a.reply)];
  }

  /** A reply nobody awaits does nothing. */
  lemma StrayReply(s: State, a: Arrival)
    requires a.reply.id != 0 && a.reply.id !in s.calls.pending
    ensures DispatchReply(s, a) == s
  {}

  // ---------- subscribe requests ----------

  /** The reply counts as a success: a result, or the error that the channel is already subscribed. */
  predicate Succeeds(r: Reply) {
    if r.error.Some? then r.error.value.code == 105 else r.subscribe.Some?
  }

  /** An error that leads to another attempt. */
  predicate Retries(r: Reply) {
    && r.error.Some? && r.error.value.code != 105
    && (r.error.value.temporary || r.error.value.code < 100 || r.error.value.code == 109)
  }

  /** An error that does not. */
  predicate Refuses(r: Reply) { r.error.Some? && r.error.value.code != 105 && !Retries(r) }

  /** What the caller of `subscribe` hears. */
  function Verdict(r: Reply): Answer {
    if Succeeds(r) then Done
    else if r.error.Some? then Failed(Server(r.error.value))
    else Failed(BadMessage)
  }

  ghost predicate AwaitedSubscribe(s: State, a: Arrival, ch: Channel, sender: Option<Handle>) {
    && a.reply.id != 0 && a.reply.id in s.calls.pending
    && s.calls.pending[a.reply.id] == AwaitSubscribe(ch, sender)
  }

  /**
   The caller of `subscribe` hears the verdict of the reply. Those who wait for the subscription hear it too
   if it settles the matter, and otherwise go on waiting.
   */
  lemma SubscribeAnswered(s: State, a: Arrival, ch: Channel, sender: Option<Handle>)
    requires AwaitedSubscribe(s, a, ch, sender)
    ensures var t := DispatchReply(s, a);
      var settled := ch in s.subs && (Succeeds(a.reply) || Refuses(a.reply));
      && t.desk == s.desk.(answers := t.desk.answers)
      && Told(s.desk, t.desk,
           (if sender.Some? then iset{sender.value} else iset{}) +
           (if settled then Listed(s.subs[ch].waiters) else iset{}),
           Verdict(a.reply))
      && (ch in s.subs ==> ch in t.subs && t.subs[ch].waiters == if settled then [] else s.subs[ch].waiters)
  {
    hide Confirm, ReceiveAll, Leave, Told, Tell, OptionSet;
    var d, r := s.desk, a.reply;
    var told := if sender.Some? then iset{sender.value} else iset{};
    forall e: Desk
      ensures Told(e, Tell(e, OptionSet(sender), Verdict(r)), told, Verdict(r))
    {
      TellSender(e, sender, Verdict(r));
    }
    TellKeeps(d, OptionSet(sender), Verdict(r));
    if ch in s.subs && (Succeeds(r) || Refuses(r)) {
      var hs := SetOf(s.subs[ch].waiters);
      TellTold(d, hs, Listed(s.subs[ch].waiters), Verdict(r));
      TellKeeps(d, hs, Verdict(r));
      TellKeeps(Tell(d, hs, Verdict(r)), OptionSet(sender), Verdict(r));
      ToldBoth(d, Tell(d, hs, Verdict(r)), Tell(Tell(d, hs, Verdict(r)), OptionSet(sender), Verdict(r)),
          told, Listed(s.subs[ch].waiters), Verdict(r));
    } else {
      assert told + iset{} == told;
    }
  }

  lemma TellSender(d: Desk, sender: Option<Handle>, a: Answer)
    ensures Told(d, Tell(d, OptionSet(sender), a), if sender.Some? then iset{sender.value} else iset{}, a)
  {
    TellTold(d, OptionSet(sender), if sender.Some? then iset{sender.value} else iset{}, a);
  }

  lemma ToldBoth(d: Desk, m: Desk, e: Desk, who: iset<Handle>, others: iset<Handle>, a: Answer)
    requires Told(d, m, others, a) && Told(m, e, who, a)
    ensures Told(d, e, who + others, a)
  {}

  /** A reply that settles a subscription leaves it subscribed exactly if its waiters heard that it is done. */
  lemma DoneMeansSubscribed(s: State, a: Arrival, ch: Channel, sender: Option<Handle>, h: Handle)
    requires AwaitedSubscribe(s, a, ch, sender) && ch in s.subs
    requires h in s.subs[ch].waiters && s.subs[ch].state.Subscribing? && h !in s.desk.answers && sender != Some(h)
    ensures var t := DispatchReply(s, a);
      && ch in t.subs
      && (h in t.desk.answers && t.desk.answers[h] == Done <==> t.subs[ch].state.Subscribed?)
      && (h in t.desk.answers && t.desk.answers[h].Failed? <==> t.subs[ch].state.Unsubscribed?)
      && (h !in t.desk.answers <==> t.subs[ch].state.Subscribing?)
  {
    hide Confirm, Told;
    var result := if a.reply.subscribe.Some? then a.reply.subscribe.value else EMPTY_RESULT;
    SubscribeAnswered(s, a, ch, sender);
    ConfirmSubscribes(s.subs[ch], result);
    ReceiveAllKeeps(Confirm(s.subs[ch], result), result.publications, s.config.protocol);
    ToldOne(s.desk, DispatchReply(s, a).desk, ch, s, a, sender, h);
  }

  lemma ConfirmSubscribes(sub: SubState, r: SubscribeResult)
    ensures Confirm(sub, r).state.Subscribed?
  {}

  lemma ToldOne(d: Desk, e: Desk, ch: Channel, s: State, a: Arrival, sender: Option<Handle>, h: Handle)
    requires ch in s.subs && h in s.subs[ch].waiters && h !in d.answers && sender != Some(h)
    requires Told(d, e,
           (if sender.Some? then iset{sender.value} else iset{}) +
           (if Succeeds(a.reply) || Refuses(a.reply) then Listed(s.subs[ch].waiters) else iset{}),
           Verdict(a.reply))
    ensures h in e.answers <==> Succeeds(a.reply) || Refuses(a.reply)
    ensures h in e.answers ==> e.answers[h] == Verdict(a.reply)
  {}

  /** What a refusal and a temporary error do to the subscription, and to nothing else. */
  lemma SubscribeRefused(s: State, a: Arrival, ch: Channel, sender: Option<Handle>)
    requires AwaitedSubscribe(s, a, ch, sender) && ch in s.subs
    requires a.reply.error.Some? && a.reply.error.value.code != 105
    ensures var t := DispatchReply(s, a);
      var sub := s.subs[ch];
      var e := a.reply.error.value;
      && t == s.(calls := t.calls, subs := s.subs[ch := t.subs[ch]], desk := t.desk)
      && t.calls.pending == s.calls.pending - {a.reply.id} && t.calls.issued == s.calls.issued
      && (Retries(a.reply) ==>
            && t.calls.timers == s.calls.timers + multiset{Resubscribe(ch)}
            && t.subs[ch] == sub.(attempts := sub.attempts + 1, token := if e.code == 109 then "" else sub.token,
                                  log := sub.log + [ErrorEvent]))
      && (Refuses(a.reply) ==>
            && t.calls.timers == s.calls.timers
            && t.subs[ch] == sub.(state := Unsubscribed, attempts := 0, waiters := [],
                                  log := sub.log + [UnsubscribedEvent(e.code)]))
  {}

  /** A reply to a subscribe request with neither an error nor a result changes nothing but the answers. */
  lemma SubscribeEmpty(s: State, a: Arrival, ch: Channel, sender: Option<Handle>)
    requires AwaitedSubscribe(s, a, ch, sender) && a.reply.error.None? && a.reply.subscribe.None?
    ensures var t := DispatchReply(s, a);
      && t == s.(calls := t.calls, desk := t.desk)
      && t.calls == s.calls.(pending := s.calls.pending - {a.reply.id}, stranded := t.calls.stranded)
  {}

  // ---------- accepted results ----------

  /** What counts as the result of a success. */
  function ResultOf(r: Reply): SubscribeResult {
    if r.subscribe.Some? then r.subscribe.value else SubscribeResult(false, false, false, 0, "", false, false, 0, [])
  }

  /** The log goes on with one publication event for each of `ps`, at its offset. */
  ghost predicate Brings(log: seq<SubEvent>, log': seq<SubEvent>, ps: seq<Publication>) {
    && |log'| == |log| + |ps| && log'[..|log|] == log
    && forall i :: |log| <= i < |log'| ==> log'[i].PublicationEvent? && log'[i].offset == ps[i - |log|].offset
  }

  /** The subscription takes its terms from the result, says so in one event, and receives what came with it. */
  ghost predicate TakesOver(sub: SubState, sub': SubState, r: SubscribeResult) {
    var placed := r.recoverable || r.positioned;
    && sub' == sub.(state := Subscribed, attempts := 0, waiters := [], deltaNegotiated := r.delta,
                    recover := sub.recover || r.recoverable, epoch := if placed then r.epoch else sub.epoch,
                    offset := sub'.offset, prevData := sub'.prevData, log := sub'.log)
    && Registry.IsLastPosition(sub'.offset, if placed then r.offset else sub.offset, r.publications)
    && Brings(
         sub.log + [SubscribedEvent(
           if placed then Some(StreamPosition(r.offset, r.epoch)) else None,
           sub.recover && (sub.offset > 0 || sub.epoch != ""), r.recovered, |r.publications| > 0)],
         sub'.log, r.publications)
  }

  lemma ReceiveStep(sub: SubState, p: Publication, protocol: ProtocolType)
    ensures var t := Receive(sub, p, protocol);
      && t == sub.(offset := t.offset, prevData := t.prevData, log := t.log)
      && t.offset == (if p.offset > 0 then p.offset else sub.offset)
      && |t.log| == |sub.log| + 1 && t.log[..|sub.log|] == sub.log
      && t.log[|sub.log|].PublicationEvent? && t.log[|sub.log|].offset == p.offset
  {}

  lemma {:induction false} ReceiveAllBrings(sub: SubState, ps: seq<Publication>, protocol: ProtocolType)
    ensures var t := ReceiveAll(sub, ps, protocol);
      && t == sub.(offset := t.offset, prevData := t.prevData, log := t.log)
      && Brings(sub.log, t.log, ps)
    decreases |ps|
  {
    hide Receive;
    if ps != [] {
      var n := |ps| - 1;
      var m := ReceiveAll(sub, ps[..n], protocol);
      ReceiveAllBrings(sub, ps[..n], protocol);
      ReceiveStep(m, ps[n], protocol);
      BringsMore(sub.log, m.log, ReceiveAll(sub, ps, protocol).log, ps);
    }
  }

  lemma BringsMore(log: seq<SubEvent>, mid: seq<SubEvent>, end: seq<SubEvent>, ps: seq<Publication>)
    requires ps != [] && Brings(log, mid, ps[..|ps| - 1])
    requires |end| == |mid| + 1 && end[..|mid|] == mid
    requires end[|mid|].PublicationEvent? && end[|mid|].offset == ps[|ps| - 1].offset
    ensures Brings(log, end, ps)
  {
    forall i | |log| <= i < |end|
      ensures end[i].PublicationEvent? && end[i].offset == ps[i - |log|].offset
    {
      if i < |mid| {
        assert end[i] == end[..|mid|][i] == mid[i];
        assert ps[..|ps| - 1][i - |log|] == ps[i - |log|];
      }
    }
    assert end[..|log|] == mid[..|log|];
  }

  lemma SucceedTakesOver(sub: SubState, r: SubscribeResult, protocol: ProtocolType)
    ensures TakesOver(sub, Succeed(sub, r, protocol), r)
  {
    hide ReceiveAll, Registry.IsLastPosition, Brings;
    ReceiveAllBrings(Confirm(sub, r), r.publications, protocol);
    Registry.ClientPositionReconciled(sub, r, protocol);
  }

  /** An accepted result moves the subscription and arms its token's refresh if it expires; nothing else changes. */
  lemma SubscribeAccepted(s: State, a: Arrival, ch: Channel, sender: Option<Handle>)
    requires AwaitedSubscribe(s, a, ch, sender) && ch in s.subs && Succeeds(a.reply)
    ensures var t := DispatchReply(s, a);
      var r := ResultOf(a.reply);
      && t == s.(calls := t.calls, subs := s.subs[ch := t.subs[ch]], desk := t.desk)
      && TakesOver(s.subs[ch], t.subs[ch], r)
      && t.calls.pending == s.calls.pending - {a.reply.id} && t.calls.issued == s.calls.issued
      && t.calls.timers == s.calls.timers
                           + (if r.expires && r.ttl > 0 then multiset{RefreshSubToken(ch)} else multiset{})
  {
    hide Succeed, TakesOver;
    SucceedTakesOver(s.subs[ch], ResultOf(a.reply), s.config.protocol);
  }

  /** A subscription that has been removed meanwhile leaves the reply without effect but on its caller. */
  lemma SubscribeGone(s: State, a: Arrival, ch: Channel, sender: Option<Handle>)
    requires AwaitedSubscribe(s, a, ch, sender) && ch !in s.subs
    ensures var t := DispatchReply(s, a);
      && t == s.(calls := t.calls, desk := t.desk)
      && t.calls == s.calls.(pending := s.calls.pending - {a.reply.id}, stranded := t.calls.stranded)
  {}

  // ---------- refreshed tokens ----------

  /** The reply to a token refresh brings new terms and arms the next refresh if the token expires. */
  lemma RefreshAnswered(s: State, a: Arrival)
    requires a.reply.id != 0 && a.reply.id in s.calls.pending && s.calls.pending[a.reply.id] == AwaitRefresh
    ensures var t := DispatchReply(s, a);
      var brings := a.reply.error.None? && a.reply.refresh.Some?;
      && t == s.(calls := s.calls.(pending := s.calls.pending - {a.reply.id}, timers := t.calls.timers), link := t.link)
      && (!brings ==> t.link == s.link && t.calls.timers == s.calls.timers)
      && (brings ==>
            var r := a.reply.refresh.value;
            && t.link == s.link.(token := s.link.token.(expires := r.expires, ttl := r.ttl))
            && t.calls.timers == s.calls.timers
                                 + (if r.expires && r.ttl > 0 then multiset{RefreshToken} else multiset{}))
  {}

  /** The reply to a subscription's refresh arms the next one if the token expires. */
  lemma SubRefreshAnswered(s: State, a: Arrival, ch: Channel)
    requires a.reply.id != 0 && a.reply.id in s.calls.pending && s.calls.pending[a.reply.id] == AwaitSubRefresh(ch)
    ensures var t := DispatchReply(s, a);
      var r := a.reply.subRefresh;
      && t == s.(calls := s.calls.(pending := s.calls.pending - {a.reply.id}, timers := t.calls.timers))
      && t.calls.timers == s.calls.timers +
           (if a.reply.error.None? && ch in s.subs && r.Some? && r.value.expires && r.value.ttl > 0
            then multiset{RefreshSubToken(ch)} else multiset{})
  {}

  // ---------- pings ----------

  /** An empty reply without an id is a ping, answered by an empty command if and only if the server asked for it. */
  lemma PingAnswered(s: State, a: Arrival)
    requires a.reply.id == 0 && a.reply.push.None?
    ensures var t := DispatchReply(s, a);
      if s.link.sendPong then Posts(s, t, Command(0, PongBody), a.fate) else t == s
  {
    PostPosts(s, Command(0, PongBody), a.fate);
  }

  // ---------- the results of a connect ----------

  /** The client-side subscriptions in a connect result take it over as if each had been subscribed by itself. */
  lemma ResultsRouted(s: State, r: ConnectResult)
    ensures var t := ProcessServerSubs(s, r);
      && t == s.(calls := s.calls.(timers := t.calls.timers), desk := s.desk.(answers := t.desk.answers),
                 subs := t.subs, servers := t.servers)
      && t.subs.Keys == s.subs.Keys
      && (forall ch :: ch in s.subs && ch !in r.subs ==> t.subs[ch] == s.subs[ch])
      && (forall ch :: ch in s.subs && ch in r.subs ==> TakesOver(s.subs[ch], t.subs[ch], r.subs[ch]))
      && Told(s.desk, t.desk, (iset h | AwaitsResult(s, r, h)), Done)
      && (forall u :: t.calls.timers[u] == s.calls.timers[u] +
            if u.RefreshSubToken? && u.channel in s.subs && u.channel in r.subs
               && r.subs[u.channel].expires && r.subs[u.channel].ttl > 0 then 1 else 0)
  {
    hide TakesOver, Succeed, Note, RefreshedServers, Told, Tell, WaitersIn;
    var client := r.subs.Keys * s.subs.Keys;
    TellTold(s.desk, WaitersIn(s.subs, client), (iset h | AwaitsResult(s, r, h)), Done) by {
      AwaitersAreWaiters(s, r);
    }
    TellKeeps(s.desk, WaitersIn(s.subs, client), Done);
    forall ch | ch in s.subs && ch in r.subs
      ensures TakesOver(s.subs[ch], Succeed(s.subs[ch], r.subs[ch], s.config.protocol), r.subs[ch])
    {
      SucceedTakesOver(s.subs[ch], r.subs[ch], s.config.protocol);
    }
  }

  lemma AwaitersAreWaiters(s: State, r: ConnectResult)
    ensures forall h :: AwaitsResult(s, r, h) <==> h in WaitersIn(s.subs, r.subs.Keys * s.subs.Keys)
  {}

  /** Waits for a subscription that is in the result. */
  ghost predicate AwaitsResult(s: State, r: ConnectResult, h: Handle) {
    exists ch :: ch in s.subs && ch in r.subs && h in s.subs[ch].waiters
  }
}
