/**
 The connection actor in its own form: one object whose handlers update its fields in place.
 Each method's contract says that the object, read as a value, moved as the specification
 function of the same name says. Hash maps are iterated in an arbitrary order throughout.
 */
module ConnectionActors {
  import opened Prelude
  import opened Codes
  import opened Protocol
  import opened Subscriptions
  import opened ActorState
  import opened SubscriptionCells
  import Spec = ActorState

  // ---------- facts about drained collections ----------

  lemma TellUnion(d: Desk, xs: set<Handle>, ys: set<Handle>, a: Answer)
    ensures Tell(Tell(d, xs, a), ys, a) == Tell(d, xs + ys, a)
  {}

  lemma TellNobody(d: Desk, a: Answer)
    ensures Tell(d, {}, a) == d
  {
    assert Tell(d, {}, a).answers == d.answers;
  }

  lemma TellOne(d: Desk, h: Handle, a: Answer)
    ensures Tell(d, {h}, a) == d.(answers := d.answers[h := a])
  {
    assert Tell(d, {h}, a).answers == d.answers[h := a];
  }

  function Part(pending: map<nat, PendingRequest>, ids: set<nat>): map<nat, PendingRequest> {
    map id | id in pending && id in ids :: pending[id]
  }

  lemma CallersInPart(pending: map<nat, PendingRequest>, ids: set<nat>, id: nat)
    requires id in pending
    ensures CallersIn(Part(pending, ids + {id})) == CallersIn(Part(pending, ids)) + OptionSet(CallerOf(pending[id]))
  {
    var p, q := Part(pending, ids), Part(pending, ids + {id});
    forall h
      ensures h in CallersIn(q) <==> h in CallersIn(p) + OptionSet(CallerOf(pending[id]))
    {
      if h in CallersIn(q) {
        var k :| k in q && CallerOf(q[k]).Some? && CallerOf(q[k]).value == h;
        if k != id { assert k in p && p[k] == q[k]; }
      }
      if h in CallersIn(p) {
        var k :| k in p && CallerOf(p[k]).Some? && CallerOf(p[k]).value == h;
        assert k in q && q[k] == p[k];
      }
      if h in OptionSet(CallerOf(pending[id])) { assert id in q && q[id] == pending[id]; }
    }
  }

  lemma WholeAndNone(pending: map<nat, PendingRequest>)
    ensures Part(pending, pending.Keys) == pending && CallersIn(Part(pending, {})) == {}
  {}

  lemma TellWaiters(d: Desk, hs: set<Handle>, a: Answer)
    ensures Tell(d.(connectWaiters := []), hs, a) == Tell(d, hs, a).(connectWaiters := [])
  {}

  lemma TellKeepsWaiters(d: Desk, hs: set<Handle>, a: Answer)
    ensures Tell(d, hs, a).connectWaiters == d.connectWaiters
  {}

  lemma CallersInNone()
    ensures CallersIn(map[]) == {}
  {}

  /** Answering in two rounds, the second time with nobody pending. */
  lemma TellTwice(d: Desk, xs: set<Handle>, ys: set<Handle>, a: Answer)
    ensures Tell(Tell(d, xs, a).(connectWaiters := []), {} + ys, a) == Tell(d.(connectWaiters := []), xs + ys, a)
  {
    hide Tell;
    TellWaiters(d, xs, a);
    TellUnion(d.(connectWaiters := []), xs, ys, a);
    assert {} + ys == ys;
  }

  lemma SetOfAppend(hs: seq<Handle>, h: Handle)
    ensures SetOf(hs + [h]) == SetOf(hs) + {h}
  {}

  // ---------- facts about loops over maps ----------

  /** The subscriptions of `subs` with all but `rest` closed. */
  function ClosedBut(subs: map<Channel, SubState>, rest: set<Channel>): map<Channel, SubState> {
    map ch | ch in subs :: if ch in rest then subs[ch] else CloseSub(subs[ch])
  }

  function SuspendedBut(subs: map<Channel, SubState>, rest: set<Channel>): map<Channel, SubState> {
    map ch | ch in subs :: if ch in rest then subs[ch] else Suspend(subs[ch])
  }

  lemma ClosedStep(subs: map<Channel, SubState>, rest: set<Channel>, ch: Channel)
    requires ch in rest && rest <= subs.Keys
    ensures ClosedBut(subs, rest)[ch] == subs[ch]
    ensures ClosedBut(subs, rest - {ch}) == ClosedBut(subs, rest)[ch := CloseSub(subs[ch])]
    ensures ClosedBut(subs, subs.Keys) == subs && ClosedBut(subs, {}) == CloseAll(subs)
  {}

  lemma SuspendedStep(subs: map<Channel, SubState>, rest: set<Channel>, ch: Channel)
    requires ch in rest && rest <= subs.Keys
    ensures SuspendedBut(subs, rest)[ch] == subs[ch]
    ensures SuspendedBut(subs, rest - {ch}) == SuspendedBut(subs, rest)[ch := Suspend(subs[ch])]
  {}

  lemma WholeSubs(subs: map<Channel, SubState>)
    ensures ClosedBut(subs, subs.Keys) == subs && ClosedBut(subs, {}) == CloseAll(subs)
    ensures SuspendedBut(subs, subs.Keys) == subs && SuspendedBut(subs, {}) == SuspendAll(subs)
    ensures WaitersIn(subs, {}) == {}
  {}

  lemma WaitersInsert(subs: map<Channel, SubState>, chs: set<Channel>, ch: Channel)
    requires ch in subs
    ensures WaitersIn(subs, chs + {ch}) == WaitersIn(subs, chs) + SetOf(subs[ch].waiters)
  {}

  lemma NoteInsert(log: map<Channel, seq<ServerEvent>>, chs: set<Channel>, ch: Channel, e: ServerEvent)
    requires ch !in chs
    ensures Note(Note(log, chs, e), {ch}, e) == Note(log, chs + {ch}, e)
  {}

  lemma NoteNobody(log: map<Channel, seq<ServerEvent>>, e: ServerEvent)
    ensures Note(log, {}, e) == log
  {}

  // ---------- facts about publications ----------

  lemma LastOffsetStep(offset: nat, ps: seq<Publication>, k: nat)
    requires k < |ps|
    ensures LastOffset(offset, ps[..k + 1]) == if ps[k].offset > 0 then ps[k].offset else LastOffset(offset, ps[..k])
    ensures PublicationEvents(ps[..k + 1]) == PublicationEvents(ps[..k]) + [ServerPublication(ps[k].offset)]
  {
    assert ps[..k + 1][..k] == ps[..k];
  }

  // ---------- facts about the routing of a connect result ----------

  /** The registry after one server-side channel has been refreshed. */
  function RefreshOne(sv: Servers, ch: Channel, r: SubscribeResult): Servers {
    Servers(sv.subs[ch := Refreshed(r)],
            sv.log[ch := Trace(sv.log, ch) + [ServerSubscribed(ch in sv.subs)] + PublicationEvents(r.publications)])
  }

  lemma RefreshStep(sv: Servers, r: ConnectResult, server: set<Channel>, ch: Channel)
    requires server <= r.subs.Keys && ch in r.subs && ch !in server
    ensures RefreshedServers(sv, r, server + {ch}) == RefreshOne(RefreshedServers(sv, r, server), ch, r.subs[ch])
  {
    hide RefreshedServers, RefreshOne;
    var a, b := RefreshedServers(sv, r, server + {ch}), RefreshOne(RefreshedServers(sv, r, server), ch, r.subs[ch]);
    RefreshStepSubs(sv, r, server, ch);
    RefreshStepLogKeys(sv, r, server, ch);
    forall c | c in a.log
      ensures a.log[c] == b.log[c]
    {
      RefreshStepLog(sv, r, server, ch, c);
    }
    assert a.log == b.log;
  }

  lemma RefreshStepSubs(sv: Servers, r: ConnectResult, server: set<Channel>, ch: Channel)
    requires server <= r.subs.Keys && ch in r.subs && ch !in server
    ensures RefreshedServers(sv, r, server + {ch}).subs
        == RefreshOne(RefreshedServers(sv, r, server), ch, r.subs[ch]).subs
  {
    hide Refreshed, PublicationEvents, Trace;
  }

  lemma RefreshStepLogKeys(sv: Servers, r: ConnectResult, server: set<Channel>, ch: Channel)
    requires server <= r.subs.Keys && ch in r.subs && ch !in server
    ensures RefreshedServers(sv, r, server + {ch}).log.Keys
        == RefreshOne(RefreshedServers(sv, r, server), ch, r.subs[ch]).log.Keys
  {
    hide Refreshed, PublicationEvents, Trace;
  }

  lemma RefreshStepLog(sv: Servers, r: ConnectResult, server: set<Channel>, ch: Channel, c: Channel)
    requires server <= r.subs.Keys && ch in r.subs && ch !in server
    requires c in RefreshedServers(sv, r, server + {ch}).log
    ensures var log := RefreshOne(RefreshedServers(sv, r, server), ch, r.subs[ch]).log;
      c in log && RefreshedServers(sv, r, server + {ch}).log[c] == log[c]
  {
    hide Refreshed, PublicationEvents, Trace;
    TraceOutside(sv, r, server, ch);
  }

  lemma TraceOutside(sv: Servers, r: ConnectResult, server: set<Channel>, ch: Channel)
    requires server <= r.subs.Keys && ch !in server
    ensures Trace(RefreshedServers(sv, r, server).log, ch) == Trace(sv.log, ch)
  {
    hide Refreshed, PublicationEvents;
  }

  lemma NoteOne(log: map<Channel, seq<ServerEvent>>, ch: Channel, e: ServerEvent)
    ensures Note(log, {ch}, e) == log[ch := Trace(log, ch) + [e]]
  {}

  lemma TimersStep(r: ConnectResult, client: set<Channel>, ch: Channel)
    requires client <= r.subs.Keys && ch in r.subs && ch !in client
    ensures multiset(RefreshTimers(r, client + {ch})) == multiset(RefreshTimers(r, client)) +
              if r.subs[ch].expires && r.subs[ch].ttl > 0 then multiset{RefreshSubToken(ch)} else multiset{}
    ensures RefreshTimers(r, {}) == {}
  {
    if r.subs[ch].expires && r.subs[ch].ttl > 0 {
      assert RefreshTimers(r, client + {ch}) == RefreshTimers(r, client) + {RefreshSubToken(ch)};
      assert RefreshSubToken(ch) !in RefreshTimers(r, client);
    } else {
      assert RefreshTimers(r, client + {ch}) == RefreshTimers(r, client);
    }
  }

  lemma RouteNone(s: State, r: ConnectResult)
    ensures RouteResults(s, r, {}) == s
  {
    hide Succeed;
    var t := RouteResults(s, r, {});
    assert t.subs == s.subs;
    assert WaitersIn(s.subs, {} * s.subs.Keys) == {};
    TellNobody(s.desk, Done);
    assert RefreshTimers(r, {} * s.subs.Keys) == {};
    assert t.servers.subs == s.servers.subs && t.servers.log == s.servers.log;
  }

  lemma SuccessKeys(s: State, ch: Channel, r: SubscribeResult)
    requires ch in s.subs
    ensures var t := Spec.HandleSubscribeSuccess(s, ch, r); t.subs.Keys == s.subs.Keys && t.servers == s.servers
  {}

  lemma RefreshKeys(sv: Servers, ch: Channel, r: SubscribeResult)
    ensures sv.subs.Keys <= RefreshOne(sv, ch, r).subs.Keys
  {}

  /** Routing one more result of a client-side subscription. */
  lemma RouteClient(s: State, r: ConnectResult, done: set<Channel>, ch: Channel)
    requires done <= r.subs.Keys && ch in r.subs && ch !in done && ch in s.subs
    ensures RouteResults(s, r, done + {ch}) == Spec.HandleSubscribeSuccess(RouteResults(s, r, done), ch, r.subs[ch])
  {
    hide Succeed, Tell, WaitersIn, RefreshTimers, RefreshedServers;
    var s1 := RouteResults(s, r, done);
    var a, b := RouteResults(s, r, done + {ch}), Spec.HandleSubscribeSuccess(s1, ch, r.subs[ch]);
    assert (done + {ch}) * s.subs.Keys == done * s.subs.Keys + {ch};
    assert done + {ch} - s.subs.Keys == done - s.subs.Keys;
    assert a.subs == b.subs;
    WaitersInsert(s.subs, done * s.subs.Keys, ch);
    TellUnion(s.desk, WaitersIn(s.subs, done * s.subs.Keys), SetOf(s.subs[ch].waiters), Done);
    TimersStep(r, done * s.subs.Keys, ch);
    assert a.calls.timers == b.calls.timers;
  }

  /** Routing one more result of a server-side subscription. */
  lemma RouteServer(s: State, r: ConnectResult, done: set<Channel>, ch: Channel)
    requires done <= r.subs.Keys && ch in r.subs && ch !in done && ch !in s.subs
    ensures var s1 := RouteResults(s, r, done);
      RouteResults(s, r, done + {ch}) == s1.(servers := RefreshOne(s1.servers, ch, r.subs[ch]))
  {
    hide Succeed, Tell, WaitersIn, RefreshTimers, RefreshedServers, RefreshOne;
    assert (done + {ch}) * s.subs.Keys == done * s.subs.Keys;
    assert done + {ch} - s.subs.Keys == done - s.subs.Keys + {ch};
    RefreshStep(s.servers, r, done - s.subs.Keys, ch);
    assert ResolvedSubs(s, r, done + {ch}) == ResolvedSubs(s, r, done);
  }

  // ---------- facts about building the connect command ----------

  /** The replay requests for the server-side channels not in `rest`. */
  function ReplaysBut(s: State, rest: set<Channel>): map<Channel, SubscribeRequest> {
    map ch | ch in s.servers.subs && ch !in rest && Replayed(s, ch) :: ReplayRequest(s.servers.subs[ch])
  }

  /** All replay requests, overridden by the requests of the batched subscriptions not in `rest`. */
  function RequestsBut(s: State, rest: set<Channel>): map<Channel, SubscribeRequest> {
    map ch | ch in s.servers.subs.Keys + s.subs.Keys && ((ch !in rest && Batched(s, ch)) || Replayed(s, ch)) ::
      if ch !in rest && Batched(s, ch) then BuildRequest(ch, s.subs[ch]) else ReplayRequest(s.servers.subs[ch])
  }

  lemma ReplayStep(s: State, rest: set<Channel>, ch: Channel)
    requires ch in rest && rest <= s.servers.subs.Keys
    ensures ReplaysBut(s, rest - {ch})
         == if Replayed(s, ch) then ReplaysBut(s, rest)[ch := ReplayRequest(s.servers.subs[ch])]
            else ReplaysBut(s, rest)
  {
    hide ReplayRequest;
  }

  lemma RequestStep(s: State, rest: set<Channel>, ch: Channel)
    requires ch in rest && rest <= s.subs.Keys
    ensures RequestsBut(s, rest - {ch})
         == if Batched(s, ch) then RequestsBut(s, rest)[ch := BuildRequest(ch, s.subs[ch])] else RequestsBut(s, rest)
  {
    hide ReplayRequest, BuildRequest, Batched, Replayed;
    var a, b := RequestsBut(s, rest - {ch}), RequestsBut(s, rest);
    if Batched(s, ch) {
      assert a.Keys == b[ch := BuildRequest(ch, s.subs[ch])].Keys;
    } else {
      assert a.Keys == b.Keys;
    }
  }

  lemma RequestsWhole(s: State)
    ensures ReplaysBut(s, s.servers.subs.Keys) == map[]
    ensures RequestsBut(s, s.subs.Keys) == ReplaysBut(s, {})
    ensures RequestsBut(s, {}) == ConnectSubs(s)
  {
    hide ReplayRequest, BuildRequest;
  }

  // ---------- ids are taken only where something is sent ----------

  lemma FailureIds(s: State, err: ClientError)
    ensures Spec.OnHandshakeFailure(s, err).calls.issued == s.calls.issued
  {}

  lemma TokenIds(s: State, o: TokenOutcome)
    ensures Spec.RefreshTokenIfNeeded(s, o).0.calls.issued == s.calls.issued
  {}

  lemma DisconnectIds(s: State, code: nat)
    ensures Spec.MoveToDisconnected(s, code).calls.issued == s.calls.issued
    ensures Spec.MoveToClosed(s).calls.issued == s.calls.issued
  {}

  lemma CloseIds(s: State, code: nat, reconnect: bool)
    ensures Spec.OnTransportClose(s, code, reconnect).calls.issued == s.calls.issued
  {}

  lemma TimeoutIds(s: State, id: nat)
    ensures Spec.HandleRequestTimeout(s, id).calls.issued == s.calls.issued
  {}

  lemma ForgetElsewhere(s: State, ch: Channel)
    requires ch in s.subs
    ensures var t := Spec.Forget(s, ch); t.link == s.link && t.calls == s.calls
  {}

  lemma EstablishIds(s: State, r: ConnectResult)
    ensures Establish(s, r).calls.issued == s.calls.issued
  {}

  lemma DispatchIds(s: State, a: Arrival)
    ensures Spec.DispatchReply(s, a).calls.issued == s.calls.issued
  {}

  lemma {:induction false} ReadIds(s: State, id: nat, arrivals: seq<Arrival>)
    ensures ReadUntil(s, id, arrivals).calls.issued == s.calls.issued
  {
    DispatchAllIds(s, arrivals[..Before(arrivals, id)]);
  }

  lemma {:induction false} DispatchAllIds(s: State, arrivals: seq<Arrival>)
    ensures DispatchAll(s, arrivals).calls.issued == s.calls.issued
    decreases |arrivals|
  {
    hide Spec.DispatchReply;
    if arrivals != [] {
      DispatchAllIds(s, arrivals[..|arrivals| - 1]);
      DispatchIds(DispatchAll(s, arrivals[..|arrivals| - 1]), arrivals[|arrivals| - 1]);
    }
  }

  lemma NothingPublished(offset: nat, ps: seq<Publication>, events: seq<ServerEvent>)
    ensures LastOffset(offset, ps[..0]) == offset && events + PublicationEvents(ps[..0]) == events
  {}

  class ConnectionActor {
    var config: ClientConfig
    var nextId: u32
    var link: Link
    var calls: Calls
    var out: Out
    var subs: map<Channel, SubState>
    var servers: Servers
    var desk: Desk
    var clientLog: seq<ClientEvent>

    /** The id counter stands where the ids taken so far have brought it. */
    ghost predicate Valid()
      reads this
    {
      nextId == NextId(calls)
    }

    /** The object as a value. */
    ghost function View(): State
      reads this
    {
      State(config, link, calls, out, subs, servers, desk, clientLog)
    }

    constructor (config: ClientConfig)
      ensures Valid() && View() == Init(config)
    {
      this.config := config;
      nextId := 1;
      link := Link(Disconnected, AsU8(Disconnected), "", false, false, None, 0, 0, false, DEFAULT_PING, false,
          TokenState(false, 0, false));
      calls := Calls([], map[], multiset{}, {});
      out := Out(BatchState(false, []), []);
      subs := map[];
      servers := Servers(map[], map[]);
      desk := Desk({}, [], map[], {});
      clientLog := [];
    }

    // ---------- answering and emitting ----------

    /** One `oneshot` send. */
    method Respond(h: Handle, a: Answer)
      modifies this`desk
      ensures desk == Tell(old(desk), {h}, a)
    {
      TellOne(desk, h, a);
      desk := desk.(answers := desk.answers[h := a]);
    }

    /** A drained list of waiters gets the same answer. */
    method AnswerEach(waiters: seq<Handle>, a: Answer)
      modifies this`desk
      ensures desk == Tell(old(desk), SetOf(waiters), a)
    {
      hide Tell;
      TellNobody(desk, a);
      assert SetOf(waiters[..0]) == {};
      for k := 0 to |waiters|
        invariant desk == Tell(old(desk), SetOf(waiters[..k]), a)
      {
        TellUnion(old(desk), SetOf(waiters[..k]), {waiters[k]}, a);
        SetOfAppend(waiters[..k], waiters[k]);
        assert waiters[..k + 1] == waiters[..k] + [waiters[k]];
        Respond(waiters[k], a);
      }
      assert waiters[..|waiters|] == waiters;
    }

    /** The answer to the caller of a request, if it has one that listens. */
    method AnswerCaller(req: PendingRequest, a: Answer)
      modifies this`desk
      ensures desk == Tell(old(desk), OptionSet(CallerOf(req)), a)
    {
      match req {
        case AwaitSubscribe(_, sender) =>
          if sender.Some? { Respond(sender.value, a); } else { TellNobody(desk, a); }
        case AwaitReply(h) => Respond(h, a);
        case _ => TellNobody(desk, a);
      }
    }

    method EmitClient(e: ClientEvent)
      modifies this`clientLog
      ensures clientLog == old(clientLog) + [e]
    {
      clientLog := clientLog + [e];
    }

    method EmitServer(ch: Channel, e: ServerEvent)
      modifies this`servers
      ensures servers == old(servers).(log := Note(old(servers).log, {ch}, e))
    {
      servers := servers.(log := Note(servers.log, {ch}, e));
    }

    method UpdateSharedState()
      modifies this`link
      ensures link == old(link).(shared := AsU8(link.phase))
    {
      link := link.(shared := AsU8(link.phase));
    }

    method NextCmdId(body: Body, caller: Option<Handle>) returns (id: u32)
      requires Valid()
      modifies this`nextId, this`calls
      ensures Valid() && id == NextId(old(calls)) && calls == Issue(old(calls), body, caller)
    {
      id := nextId;
      nextId := (nextId + 1) % TWO_32;
      calls := calls.(issued := calls.issued + [Issued(body, caller)]);
    }

    /** A spawned task sleeps and then sends `t` to the actor. */
    method Spawn(t: Timer)
      modifies this`calls
      ensures calls == Arm(old(calls), t)
    {
      calls := calls.(timers := calls.timers + multiset{t},
                      stranded := if t.Resubscribe? then calls.stranded - {t.channel} else calls.stranded);
    }

    // ---------- state.rs ----------

    method FailAllPending()
      modifies this`calls, this`desk
      ensures calls == old(calls).(pending := map[])
      ensures desk == Tell(old(desk), CallersIn(old(calls).pending), Failed(ClientDisconnected))
    {
      hide Tell, CallersIn, Part;
      var pending := calls.pending;
      calls := calls.(pending := map[]);
      var rest := pending.Keys;
      TellNobody(desk, Failed(ClientDisconnected));
      WholeAndNone(pending);
      assert pending.Keys - rest == {};
      while rest != {}
        invariant rest <= pending.Keys && calls == old(calls).(pending := map[])
        invariant desk == Tell(old(desk), CallersIn(Part(pending, pending.Keys - rest)), Failed(ClientDisconnected))
      {
        var id :| id in rest;
        CallersInPart(pending, pending.Keys - rest, id);
        TellUnion(old(desk), CallersIn(Part(pending, pending.Keys - rest)), OptionSet(CallerOf(pending[id])),
            Failed(ClientDisconnected));
        AnswerCaller(pending[id], Failed(ClientDisconnected));
        assert pending.Keys - (rest - {id}) == pending.Keys - rest + {id};
        rest := rest - {id};
      }
      assert pending.Keys - rest == pending.Keys;
    }

    method UnsubscribeAllSubs(err: ClientError)
      modifies this`subs, this`desk
      ensures subs == CloseAll(old(subs))
      ensures desk == Tell(old(desk), WaitersIn(old(subs), Active(old(subs))), Failed(err))
    {
      hide Tell, WaitersIn, ClosedBut, SetOf;
      ghost var was := subs;
      var rest := subs.Keys;
      WholeSubs(was);
      TellNobody(desk, Failed(err));
      assert Active(was) - rest == {};
      while rest != {}
        invariant rest <= was.Keys && subs == ClosedBut(was, rest) && subs.Keys == was.Keys
        invariant desk == Tell(old(desk), WaitersIn(was, Active(was) - rest), Failed(err))
      {
        var ch :| ch in rest;
        ClosedStep(was, rest, ch);
        var sub := subs[ch];
        if !sub.state.Unsubscribed? {
          AnswerEach(sub.waiters, Failed(err));
          WaitersInsert(was, Active(was) - rest, ch);
          TellUnion(old(desk), WaitersIn(was, Active(was) - rest), SetOf(sub.waiters), Failed(err));
          assert Active(was) - (rest - {ch}) == Active(was) - rest + {ch};
          subs := subs[ch := Emit(sub.(state := Unsubscribed, waiters := []), UnsubscribedEvent(CLIENT_CLOSED))];
        } else {
          assert Active(was) - (rest - {ch}) == Active(was) - rest;
        }
        rest := rest - {ch};
      }
      assert Active(was) - rest == Active(was);
    }

    method MoveToConnecting(code: nat)
      modifies this`link, this`clientLog
      ensures View() == Spec.MoveToConnecting(old(View()), code)
    {
      link := link.(phase := Connecting);
      UpdateSharedState();
      EmitClient(ConnectingEvent(code));
    }

    method MoveToConnected(result: ConnectResult)
      modifies this`link, this`clientLog
      ensures View() == Spec.MoveToConnected(old(View()), result)
    {
      link := link.(phase := Connected, clientId := result.client, attempts := 0);
      if result.ping > 0 {
        link := link.(pingInterval := result.ping);
      }
      link := link.(sendPong := result.pong);
      link := link.(token := link.token.(expires := result.expires, ttl := result.ttl));
      UpdateSharedState();
      EmitClient(ConnectedEvent);
    }

    /** Empty the registry of server-side subscriptions, one event each. */
    method DrainServerSubs(code: nat)
      modifies this`servers
      ensures servers == Servers(map[], Note(old(servers).log, old(servers).subs.Keys, ServerUnsubscribed(code)))
    {
      hide Note;
      var all := servers.subs.Keys;
      var rest := all;
      servers := servers.(subs := map[]);
      NoteNobody(servers.log, ServerUnsubscribed(code));
      assert all - rest == {};
      while rest != {}
        invariant rest <= all && servers == Servers(map[], Note(old(servers).log, all - rest, ServerUnsubscribed(code)))
      {
        var ch :| ch in rest;
        NoteInsert(old(servers).log, all - rest, ch, ServerUnsubscribed(code));
        assert all - (rest - {ch}) == all - rest + {ch};
        EmitServer(ch, ServerUnsubscribed(code));
        rest := rest - {ch};
      }
      assert all - rest == all;
    }

    /** The transport is dropped, every pending request fails and nothing stays queued. */
    method LetGo()
      modifies this`link, this`calls, this`desk, this`out
      ensures link == Detach(old(link)) && calls == old(calls).(pending := map[]) && out == old(out).(batch := NO_BATCH)
      ensures desk == Tell(old(desk), CallersIn(old(calls).pending), Failed(ClientDisconnected))
    {
      hide Tell, CallersIn;
      link := link.(sink := false, stream := false);
      FailAllPending();
      out := out.(batch := out.batch.(active := false));
      out := out.(batch := out.batch.(queue := []));
    }

    method DrainConnectWaiters(a: Answer)
      modifies this`desk
      ensures desk == Tell(old(desk).(connectWaiters := []), SetOf(old(desk).connectWaiters), a)
    {
      var waiters := desk.connectWaiters;
      desk := desk.(connectWaiters := []);
      AnswerEach(waiters, a);
    }

    /** The first half of `move_to_disconnected`: the connection and everybody who waits for it. */
    method GiveUp()
      modifies this`link, this`calls, this`desk, this`out
      ensures link == Detach(SetPhase(old(link), Disconnected)).(clientId := "", connectRequested := false)
      ensures calls == old(calls).(pending := map[]) && out == old(out).(batch := NO_BATCH)
      ensures desk == Tell(old(desk).(connectWaiters := []),
          CallersIn(old(calls).pending) + SetOf(old(desk).connectWaiters),
                           Failed(ClientDisconnected))
    {
      hide Tell, CallersIn, SetOf;
      ghost var d, callers := desk, CallersIn(calls.pending);
      link := link.(phase := Disconnected, clientId := "", connectRequested := false);
      UpdateSharedState();
      LetGo();
      TellKeepsWaiters(d, callers, Failed(ClientDisconnected));
      TellWaiters(d, callers, Failed(ClientDisconnected));
      TellUnion(d.(connectWaiters := []), callers, SetOf(d.connectWaiters), Failed(ClientDisconnected));
      DrainConnectWaiters(Failed(ClientDisconnected));
    }

    method MoveToDisconnected(code: nat)
      modifies this`link, this`calls, this`desk, this`out, this`subs, this`servers, this`clientLog
      ensures View() == Spec.MoveToDisconnected(old(View()), code)
    {
      hide Tell, WaitersIn, CallersIn, SetOf, Note, CloseAll, Active;
      ghost var failed := CallersIn(calls.pending) + SetOf(desk.connectWaiters);
      var wasConnected := link.phase.Connected?;
      GiveUp();
      if wasConnected {
        TellUnion(old(desk).(connectWaiters := []), failed, WaitersIn(subs, Active(subs)), Failed(ClientDisconnected));
        UnsubscribeAllSubs(ClientDisconnected);
      } else {
        assert failed + {} == failed;
      }
      DrainServerSubs(code);
      EmitClient(DisconnectedEvent(code));
    }

    method MoveToClosed()
      modifies this`link, this`calls, this`desk, this`out, this`subs
      ensures View() == Spec.MoveToClosed(old(View()))
    {
      hide Tell, WaitersIn, CallersIn, SetOf, CloseAll, Active;
      ghost var d := desk;
      link := link.(phase := Closed);
      UpdateSharedState();
      LetGo();
      TellKeepsWaiters(d, CallersIn(old(calls).pending), Failed(ClientDisconnected));
      TellWaiters(d, CallersIn(old(calls).pending), Failed(ClientDisconnected));
      TellUnion(desk.(connectWaiters := []), SetOf(d.connectWaiters), WaitersIn(subs, Active(subs)),
          Failed(ClientClosed));
      DrainConnectWaiters(Failed(ClientClosed));
      UnsubscribeAllSubs(ClientClosed);
    }

    method UnsubscribeUnauthorized(ch: Channel)
      modifies this`subs, this`desk
      ensures View() == Spec.UnsubscribeUnauthorized(old(View()), ch)
    {
      hide Tell, SetOf;
      if ch in subs {
        var sub := subs[ch];
        sub := sub.(state := Unsubscribed, attempts := 0);
        AnswerEach(sub.waiters, Failed(Unauthorized));
        subs := subs[ch := Emit(sub.(waiters := []), UnsubscribedEvent(UNSUBSCRIBED_UNAUTHORIZED))];
      }
    }

    // ---------- transport_io.rs ----------

    /** Subscribed subscriptions go back to subscribing. */
    method SuspendSubs()
      modifies this`subs
      ensures subs == SuspendAll(old(subs))
    {
      hide SuspendedBut;
      ghost var was := subs;
      var rest := subs.Keys;
      WholeSubs(was);
      while rest != {}
        invariant rest <= was.Keys && subs == SuspendedBut(was, rest) && subs.Keys == was.Keys
      {
        var ch :| ch in rest;
        SuspendedStep(was, rest, ch);
        if subs[ch].state.Subscribed? {
          subs := subs[ch := Emit(subs[ch].(state := Subscribing, attempts := 0), SubscribingEvent(TRANSPORT_CLOSED))];
        }
        rest := rest - {ch};
      }
    }

    method AnnounceResubscribing()
      modifies this`servers
      ensures servers == old(servers).(log := Note(old(servers).log, old(servers).subs.Keys,
          ServerSubscribing(TRANSPORT_CLOSED)))
    {
      hide Note;
      var all := servers.subs.Keys;
      var rest := all;
      NoteNobody(servers.log, ServerSubscribing(TRANSPORT_CLOSED));
      assert all - rest == {};
      while rest != {}
        invariant rest <= all
        invariant servers == old(servers).(log := Note(old(servers).log, all - rest,
            ServerSubscribing(TRANSPORT_CLOSED)))
      {
        var ch :| ch in rest;
        NoteInsert(old(servers).log, all - rest, ch, ServerSubscribing(TRANSPORT_CLOSED));
        assert all - (rest - {ch}) == all - rest + {ch};
        EmitServer(ch, ServerSubscribing(TRANSPORT_CLOSED));
        rest := rest - {ch};
      }
      assert all - rest == all;
    }

    method OnTransportClose(code: nat, reconnect: bool)
      modifies this`link, this`calls, this`desk, this`out, this`subs, this`servers, this`clientLog
      ensures View() == Spec.OnTransportClose(old(View()), code, reconnect)
    {
      hide Tell, WaitersIn, CallersIn, SetOf, Note, CloseAll, SuspendAll, Active;
      ghost var d := desk;
      LetGo();
      if reconnect && link.connectRequested {
        SuspendSubs();
        AnnounceResubscribing();
        MoveToConnecting(code);
      } else {
        CallersInNone();
        ghost var more := if link.phase.Connected? then WaitersIn(subs, Active(subs)) else {};
        TellTwice(d, CallersIn(old(calls).pending), SetOf(d.connectWaiters) + more, Failed(ClientDisconnected));
        assert {} + (SetOf(d.connectWaiters) + more) == {} + SetOf(d.connectWaiters) + more;
        assert CallersIn(old(calls).pending) + (SetOf(d.connectWaiters) + more)
            == CallersIn(old(calls).pending) + SetOf(d.connectWaiters) + more;
        TellKeepsWaiters(d, CallersIn(old(calls).pending), Failed(ClientDisconnected));
        MoveToDisconnected(code);
      }
    }

    /** `send_command`; `fate` is what the codec and the transport make of it. */
    method SendCommand(cmd: Command, fate: Fate) returns (err: Option<ClientError>)
      modifies this`out
      ensures (out, err) == Spec.SendCommand(old(out), link, cmd, fate)
    {
      var one := Outgoing(cmd, link.conn, link.phase.Connected?);
      if fate.Unencodable? { return Some(BadMessage); }
      if out.batch.active {
        out := out.(batch := out.batch.(queue := out.batch.queue + [one]));
        return None;
      }
      if !link.sink { return Some(ClientDisconnected); }
      if fate.Refused? { return Some(Transport); }
      out := out.(wire := out.wire + [Sent(link.conn, |out.wire|, one)]);
      return None;
    }

    method FlushBatch(fate: Fate)
      modifies this`out
      ensures out == Spec.FlushBatch(old(out), link, fate)
    {
      out := out.(batch := out.batch.(active := false));
      if out.batch.queue == [] {
        assert out.wire + Stamp(link.conn, |out.wire|, []) == out.wire;
        return;
      }
      var queue := out.batch.queue;
      out := out.(batch := out.batch.(queue := []));
      if link.sink && fate.Accepted? {
        out := out.(wire := out.wire + Stamp(link.conn, |out.wire|, queue));
      }
    }
  
    // ---------- subscriptions.rs ----------

    method ScheduleSubTokenRefresh(ch: Channel, ttl: nat)
      modifies this`calls
      ensures calls == Spec.ScheduleSubTokenRefresh(old(calls), ch, ttl)
    {
      if ttl == 0 { return; }
      Spawn(RefreshSubToken(ch));
    }

    method HandleSubscribeSuccess(ch: Channel, r: SubscribeResult)
      modifies this`subs, this`desk, this`calls
      ensures View() == Spec.HandleSubscribeSuccess(old(View()), ch, r)
    {
      hide Tell, SetOf, ReceiveAll;
      if ch !in subs { return; }
      var cell := new SubscriptionCell.Borrow(subs[ch]);
      cell.ConfirmAndReceive(r, config.protocol);
      var sub := cell.View();
      ReceiveAllKeeps(Confirm(subs[ch], r), r.publications, config.protocol);
      AnswerEach(sub.waiters, Done);
      subs := subs[ch := sub.(waiters := [])];
      if r.expires && r.ttl > 0 {
        ScheduleSubTokenRefresh(ch, r.ttl);
      }
    }

    method HandleSubscribeError(ch: Channel, err: ServerError)
      modifies this`subs, this`desk, this`calls
      ensures View() == Spec.HandleSubscribeError(old(View()), ch, err)
    {
      hide Tell, SetOf;
      if ch !in subs { return; }
      var sub := subs[ch];
      if IsTemporary(err.code, err.temporary) {
        sub := Emit(sub, ErrorEvent);
        if err.code == TOKEN_EXPIRED {
          sub := sub.(token := "");
        }
        subs := subs[ch := sub.(attempts := sub.attempts + 1)];
        Spawn(Resubscribe(ch));
      } else {
        sub := sub.(state := Unsubscribed, attempts := 0);
        AnswerEach(sub.waiters, Failed(Server(err)));
        subs := subs[ch := Emit(sub.(waiters := []), UnsubscribedEvent(err.code))];
      }
    }

    /** Take an id, register `req` under it, arm its timeout and send; a failed send takes the entry out again. */
    method Transact(body: Body, req: PendingRequest, fate: Fate) returns (err: Option<ClientError>)
      requires Valid()
      modifies this`nextId, this`calls, this`out, this`desk
      ensures Valid() && View() == Spec.Transact(old(View()), body, req, fate)
      ensures err.Some? == SendFails(old(View()), body, fate)
    {
      hide Tell, Spec.SendCommand;
      var id := NextCmdId(body, CallerOf(req));
      calls := calls.(pending := calls.pending[id := req],
          stranded := if req.AwaitSubscribe? then calls.stranded - {req.channel} else calls.stranded);
      if TimedOut(req) {
        Spawn(RequestTimeout(id));
      }
      err := SendCommand(Command(id, body), fate);
      if err.Some? {
        calls := calls.(pending := calls.pending - {id},
                        stranded := if req.AwaitSubscribe? then calls.stranded + {req.channel} else calls.stranded);
        AnswerCaller(req, Failed(err.value));
      }
    }

    /** `build_subscribe_command` for a subscription that exists. */
    method BuildSubscribeRequest(ch: Channel) returns (request: SubscribeRequest)
      requires ch in subs
      ensures request == BuildRequest(ch, subs[ch])
    {
      var sub := subs[ch];
      var recover := sub.recover && (sub.offset > 0 || sub.epoch != "");
      request := SubscribeRequest(ch, sub.token, recover, sub.epoch, sub.offset, sub.config.data, sub.config.positioned,
                                  sub.config.recoverable, sub.config.joinLeave, sub.config.delta);
    }

    method DoSubscribe(ch: Channel, o: Oracle)
      requires Valid()
      modifies this`nextId, this`calls, this`out, this`desk, this`subs
      ensures Valid() && View() == Spec.DoSubscribe(old(View()), ch, o)
    {
      hide Tell, Spec.Transact, BuildRequest, Spec.UnsubscribeUnauthorized;
      if ch !in subs || subs[ch].state.Unsubscribed? { return; }
      if subs[ch].token == "" && subs[ch].config.hasGetToken {
        match o.token {
          case Token(token) =>
            if token == "" {
              UnsubscribeUnauthorized(ch);
              return;
            }
            subs := subs[ch := subs[ch].(token := token)];
          case Denied =>
            UnsubscribeUnauthorized(ch);
            return;
          case Broken =>
            var sub := Emit(subs[ch], ErrorEvent);
            subs := subs[ch := sub.(attempts := sub.attempts + 1)];
            Spawn(Resubscribe(ch));
            return;
        }
      }
      if subs[ch].config.hasGetData {
        match o.data {
          case Some(data) => subs := subs[ch := subs[ch].(config := subs[ch].config.(data := data))];
          case None => subs := subs[ch := Emit(subs[ch], ErrorEvent)];
        }
      }
      ghost var sub1 :=
        if NeedsToken(old(subs)[ch]) && o.token.Token? then old(subs)[ch].(token := o.token.token) else old(subs)[ch];
      assert subs == old(subs)[ch := RefreshData(sub1, o.data)];
      hide RefreshData, NeedsToken;
      assert View() == old(View()).(subs := old(subs)[ch := RefreshData(sub1, o.data)]);
      var request := BuildSubscribeRequest(ch);
      var _ := Transact(SubscribeBody(request), AwaitSubscribe(ch, None), o.fate);
    }

    /** `plan` is the order in which the hash map yields the channels, with what their callbacks return. */
    method ResubscribeAll(plan: seq<Attempt>)
      requires Valid() && Lists(plan, SubscribingChannels(subs))
      modifies this`nextId, this`calls, this`out, this`desk, this`subs
      ensures Valid() && View() == Spec.ResubscribeAll(old(View()), plan)
    {
      hide Spec.DoSubscribe;
      assert plan[..0] == [];
      for k := 0 to |plan|
        invariant Valid() && View() == Spec.ResubscribeAll(old(View()), plan[..k])
      {
        assert plan[..k + 1][..k] == plan[..k];
        DoSubscribe(plan[k].channel, plan[k].oracle);
      }
      assert plan[..|plan|] == plan;
    }
  
    // ---------- push.rs ----------

    method HandlePublication(ch: Channel, p: Publication)
      modifies this`subs, this`servers
      ensures View() == Spec.HandlePublication(old(View()), ch, p)
    {
      hide Receive, Note;
      if ch in subs {
        var cell := new SubscriptionCell.Borrow(subs[ch]);
        cell.Receive(p, config.protocol);
        subs := subs[ch := cell.View()];
        return;
      }
      if ch in servers.subs {
        if p.offset > 0 {
          servers := servers.(subs := servers.subs[ch := servers.subs[ch].(offset := p.offset)]);
        }
        assert servers.subs == servers.subs[ch := servers.subs[ch]];
        EmitServer(ch, ServerPublication(p.offset));
      }
    }

    method HandleJoin(ch: Channel)
      modifies this`subs, this`servers
      ensures View() == HandleJoinLeave(old(View()), ch, JoinEvent, ServerJoin)
    {
      if ch in subs {
        subs := subs[ch := Emit(subs[ch], JoinEvent)];
      } else if ch in servers.subs {
        EmitServer(ch, ServerJoin);
      }
    }

    method HandleLeave(ch: Channel)
      modifies this`subs, this`servers
      ensures View() == HandleJoinLeave(old(View()), ch, LeaveEvent, ServerLeave)
    {
      if ch in subs {
        subs := subs[ch := Emit(subs[ch], LeaveEvent)];
      } else if ch in servers.subs {
        EmitServer(ch, ServerLeave);
      }
    }

    method HandleServerUnsubscribe(ch: Channel, code: nat)
      modifies this`subs, this`servers, this`calls
      ensures View() == Spec.HandleServerUnsubscribe(old(View()), ch, code)
    {
      hide Note;
      if ch in subs {
        if ShouldResubscribeOnUnsubscribe(code) {
          subs := subs[ch := Emit(subs[ch].(state := Subscribing), SubscribingEvent(code))];
          Spawn(Resubscribe(ch));
        } else {
          subs := subs[ch := Emit(subs[ch].(state := Unsubscribed, attempts := 0), UnsubscribedEvent(code))];
        }
        return;
      }
      if ch in servers.subs {
        servers := servers.(subs := servers.subs - {ch});
        EmitServer(ch, ServerUnsubscribed(code));
      }
    }

    method HandleServerSubscribe(ch: Channel, ss: ServerSub)
      modifies this`servers
      ensures View() == Spec.HandleServerSubscribe(old(View()), ch, ss)
    {
      servers := servers.(subs := servers.subs[ch := ss]);
      EmitServer(ch, ServerSubscribed(false));
    }

    method HandleDisconnectPush(code: nat)
      modifies this`link, this`calls, this`desk, this`out, this`subs, this`servers, this`clientLog
      ensures View() == Spec.HandleDisconnectPush(old(View()), code)
    {
      hide Spec.OnTransportClose, Spec.MoveToDisconnected;
      if ShouldReconnectOnDisconnect(code) {
        OnTransportClose(code, true);
      } else {
        MoveToDisconnected(code);
      }
    }

    method HandlePush(push: Push)
      modifies this`link, this`calls, this`desk, this`out, this`subs, this`servers, this`clientLog
      ensures View() == Spec.HandlePush(old(View()), push)
    {
      hide Spec.HandlePublication, HandleJoinLeave, Spec.HandleServerUnsubscribe, Spec.HandleServerSubscribe,
           Spec.HandleDisconnectPush;
      match push.body {
        case PublicationPush(p) => HandlePublication(push.channel, p);
        case JoinPush => HandleJoin(push.channel);
        case LeavePush => HandleLeave(push.channel);
        case UnsubscribePush(code) => HandleServerUnsubscribe(push.channel, code);
        case SubscribePush(recoverable, offset, epoch) =>
          HandleServerSubscribe(push.channel, ServerSub(recoverable, offset, epoch));
        case DisconnectPush(code) => HandleDisconnectPush(code);
        case MessagePush => EmitClient(MessageEvent);
        case EmptyPush =>
      }
    }

    // ---------- server_subs.rs ----------

    /** One server-side channel of the connect result. */
    method RefreshServerSub(ch: Channel, r: SubscribeResult)
      modifies this`servers
      ensures servers == RefreshOne(old(servers), ch, r)
    {
      hide Note, LastOffset, PublicationEvents;
      var wasRecovering := ch in servers.subs;
      servers := servers.(subs := servers.subs[ch := ServerSub(r.recoverable, r.offset, r.epoch)]);
      EmitServer(ch, ServerSubscribed(wasRecovering));
      NoteOne(old(servers).log, ch, ServerSubscribed(wasRecovering));
      ghost var events := Trace(old(servers).log, ch) + [ServerSubscribed(wasRecovering)];
      NothingPublished(r.offset, r.publications, events);
      for k := 0 to |r.publications|
        invariant servers.subs == old(servers).subs[ch := ServerSub(r.recoverable,
            LastOffset(r.offset, r.publications[..k]), r.epoch)]
        invariant servers.log == old(servers).log[ch := events + PublicationEvents(r.publications[..k])]
      {
        LastOffsetStep(r.offset, r.publications, k);
        NoteOne(servers.log, ch, ServerPublication(r.publications[k].offset));
        if r.publications[k].offset > 0 {
          servers := servers.(subs := servers.subs[ch := servers.subs[ch].(offset := r.publications[k].offset)]);
        }
        EmitServer(ch, ServerPublication(r.publications[k].offset));
        assert events + PublicationEvents(r.publications[..k + 1])
            == events + PublicationEvents(r.publications[..k]) + [ServerPublication(r.publications[k].offset)];
      }
      assert r.publications[..|r.publications|] == r.publications;
    }

    /** Server-side channels the result no longer mentions. */
    method DropServerSubs(former: set<Channel>, r: ConnectResult)
      requires former <= servers.subs.Keys
      modifies this`servers
      ensures servers == Servers(old(servers).subs - (former - r.subs.Keys),
                                 Note(old(servers).log, former - r.subs.Keys, ServerUnsubscribed(SERVER_SUB_REMOVED)))
    {
      hide Note;
      var rest := former;
      ghost var gone: set<Channel> := {};
      NoteNobody(servers.log, ServerUnsubscribed(SERVER_SUB_REMOVED));
      while rest != {}
        invariant rest <= former && gone == former - rest - r.subs.Keys
        invariant servers == Servers(old(servers).subs - gone,
            Note(old(servers).log, gone, ServerUnsubscribed(SERVER_SUB_REMOVED)))
      {
        var ch :| ch in rest;
        if ch !in r.subs {
          NoteInsert(old(servers).log, gone, ch, ServerUnsubscribed(SERVER_SUB_REMOVED));
          assert old(servers).subs - gone - {ch} == old(servers).subs - (gone + {ch});
          servers := servers.(subs := servers.subs - {ch});
          EmitServer(ch, ServerUnsubscribed(SERVER_SUB_REMOVED));
          gone := gone + {ch};
        }
        rest := rest - {ch};
      }
      assert gone == former - r.subs.Keys;
    }

    method ProcessServerSubs(r: ConnectResult)
      modifies this`subs, this`desk, this`calls, this`servers
      ensures View() == Spec.ProcessServerSubs(old(View()), r)
    {
      hide RouteResults, RefreshOne, Spec.HandleSubscribeSuccess;
      var oldChannels := servers.subs.Keys;
      var rest := r.subs.Keys;
      ghost var done: set<Channel> := {};
      RouteNone(View(), r);
      while rest != {}
        invariant rest <= r.subs.Keys && done == r.subs.Keys - rest
        invariant View() == RouteResults(old(View()), r, done) && subs.Keys == old(subs).Keys
        invariant oldChannels <= servers.subs.Keys
      {
        var ch :| ch in rest;
        if ch in subs {
          RouteClient(old(View()), r, done, ch);
          SuccessKeys(View(), ch, r.subs[ch]);
          HandleSubscribeSuccess(ch, r.subs[ch]);
        } else {
          RouteServer(old(View()), r, done, ch);
          RefreshKeys(servers, ch, r.subs[ch]);
          RefreshServerSub(ch, r.subs[ch]);
        }
        rest := rest - {ch};
        done := done + {ch};
      }
      assert done == r.subs.Keys;
      DropServerSubs(oldChannels, r);
    }
  
    // ---------- connect.rs ----------

    method ScheduleTokenRefresh()
      modifies this`calls
      ensures View() == Spec.ScheduleTokenRefresh(old(View()))
    {
      if !link.token.expires || link.token.ttl == 0 { return; }
      Spawn(RefreshToken);
    }

    /** The reply to a subscribe request, and what its caller is told. */
    method ResolveSubscribe(ch: Channel, r: Reply) returns (answer: Answer)
      modifies this`subs, this`desk, this`calls
      ensures (View(), answer) == Spec.ResolveSubscribe(old(View()), ch, r)
    {
      hide Spec.HandleSubscribeSuccess, Spec.HandleSubscribeError;
      if r.error.Some? && r.error.value.code == ALREADY_SUBSCRIBED {
        HandleSubscribeSuccess(ch, if r.subscribe.Some? then r.subscribe.value else EMPTY_RESULT);
        answer := Done;
      } else if r.error.Some? {
        HandleSubscribeError(ch, r.error.value);
        answer := Failed(Server(r.error.value));
      } else if r.subscribe.Some? {
        HandleSubscribeSuccess(ch, r.subscribe.value);
        answer := Done;
      } else {
        calls := calls.(stranded := calls.stranded + {ch});
        answer := Failed(BadMessage);
      }
    }

    method ResolvePending(req: PendingRequest, r: Reply)
      modifies this`subs, this`desk, this`calls, this`link
      ensures View() == Spec.ResolvePending(old(View()), req, r)
    {
      hide Spec.ResolveSubscribe, Tell;
      match req {
        case AwaitSubscribe(ch, _) =>
          var answer := ResolveSubscribe(ch, r);
          AnswerCaller(req, answer);
        case AwaitReply(h) => Respond(h, Raw(r));
        case AwaitRefresh =>
          if r.error.None? && r.refresh.Some? {
            link := link.(token := link.token.(expires := r.refresh.value.expires, ttl := r.refresh.value.ttl));
            ScheduleTokenRefresh();
          }
        case AwaitSubRefresh(ch) =>
          if r.error.None? && r.subRefresh.Some? && ch in subs && r.subRefresh.value.expires {
            ScheduleSubTokenRefresh(ch, r.subRefresh.value.ttl);
          }
      }
    }

    method DispatchReply(a: Arrival)
      modifies this`link, this`calls, this`desk, this`out, this`subs, this`servers, this`clientLog
      ensures View() == Spec.DispatchReply(old(View()), a)
    {
      hide Spec.HandlePush, Spec.ResolvePending, Spec.SendCommand;
      var r := a.reply;
      if r.id == 0 && r.push.None? {
        if link.sendPong {
          var _ := SendCommand(Command(0, PongBody), a.fate);
        }
        return;
      }
      if r.id == 0 {
        HandlePush(r.push.value);
        return;
      }
      if r.id in calls.pending {
        var req := calls.pending[r.id];
        calls := calls.(pending := calls.pending - {r.id});
        ResolvePending(req, r);
      }
    }

    /** `handle_transport_data` on the replies of a frame that decoded. */
    method HandleReplies(arrivals: seq<Arrival>)
      modifies this`link, this`calls, this`desk, this`out, this`subs, this`servers, this`clientLog
      ensures View() == DispatchAll(old(View()), arrivals)
    {
      hide Spec.DispatchReply;
      assert arrivals[..0] == [];
      for k := 0 to |arrivals|
        invariant View() == DispatchAll(old(View()), arrivals[..k])
      {
        assert arrivals[..k + 1][..k] == arrivals[..k];
        DispatchReply(arrivals[k]);
      }
      assert arrivals[..|arrivals|] == arrivals;
    }

    /** `read_reply_with_timeout` on one frame: the awaited reply if it is there. */
    method ReadReply(expected: nat, arrivals: seq<Arrival>) returns (reply: Option<Reply>)
      modifies this`link, this`calls, this`desk, this`out, this`subs, this`servers, this`clientLog
      ensures View() == ReadUntil(old(View()), expected, arrivals)
      ensures var n := Before(arrivals, expected); reply == if n == |arrivals| then None else Some(arrivals[n].reply)
    {
      hide Spec.DispatchReply;
      assert arrivals[..0] == [];
      for k := 0 to |arrivals|
        invariant View() == DispatchAll(old(View()), arrivals[..k])
        invariant forall j :: 0 <= j < k ==> arrivals[j].reply.id != expected
      {
        if arrivals[k].reply.id == expected {
          return Some(arrivals[k].reply);
        }
        assert arrivals[..k + 1][..k] == arrivals[..k];
        DispatchReply(arrivals[k]);
      }
      return None;
    }

    method EmitError()
      modifies this`clientLog
      ensures View() == Spec.EmitError(old(View()))
    {
      EmitClient(ClientErrorEvent);
    }

    method RefreshTokenIfNeeded(o: TokenOutcome) returns (goOn: bool)
      modifies this`config, this`link, this`calls, this`desk, this`out, this`subs, this`servers, this`clientLog
      ensures (View(), goOn) == Spec.RefreshTokenIfNeeded(old(View()), o)
    {
      hide Spec.MoveToDisconnected;
      if !(link.token.refreshRequired || (config.token == "" && config.hasGetToken)) { return true; }
      if config.hasGetToken {
        if o.Broken? {
          EmitError();
          return false;
        }
        if o.Denied? || o.token == "" {
          MoveToDisconnected(DISCONNECT_UNAUTHORIZED);
          return true;
        }
        config := config.(token := o.token);
      }
      link := link.(token := link.token.(refreshRequired := false));
      return true;
    }

    /** The subscribe requests that ride on the connect command. */
    method BuildConnectSubs() returns (requests: map<Channel, SubscribeRequest>)
      ensures requests == ConnectSubs(View())
    {
      hide ReplaysBut, RequestsBut, BuildRequest;
      RequestsWhole(View());
      requests := map[];
      var rest := servers.subs.Keys;
      while rest != {}
        invariant rest <= servers.subs.Keys && requests == ReplaysBut(View(), rest)
      {
        var ch :| ch in rest;
        ReplayStep(View(), rest, ch);
        var ss := servers.subs[ch];
        if ss.recoverable {
          requests :=
            requests[ch := SubscribeRequest("", "", true, ss.epoch, ss.offset, [], false, false, false, false)];
        }
        rest := rest - {ch};
      }
      rest := subs.Keys;
      while rest != {}
        invariant rest <= subs.Keys && requests == RequestsBut(View(), rest)
      {
        var ch :| ch in rest;
        RequestStep(View(), rest, ch);
        if subs[ch].state.Subscribing? && !NeedsToken(subs[ch]) && !subs[ch].config.hasGetData {
          var request := BuildSubscribeRequest(ch);
          requests := requests[ch := request];
        }
        rest := rest - {ch};
      }
    }

    method OnHandshakeFailure(err: ClientError)
      modifies this`link, this`calls, this`desk, this`out, this`subs, this`servers, this`clientLog
      ensures View() == Spec.OnHandshakeFailure(old(View()), err)
    {
      hide Spec.MoveToDisconnected;
      link := link.(sink := false, stream := false, handshake := None);
      EmitError();
      if err.Server? {
        if err.error.code == TOKEN_EXPIRED {
          link := link.(token := link.token.(refreshRequired := true));
        } else if !IsTemporary(err.error.code, err.error.temporary) {
          MoveToDisconnected(err.error.code);
        }
      }
    }

    /** `do_handshake` up to its first read. */
    method SendConnect(fate: Fate)
      requires Valid()
      modifies this`nextId, this`link, this`calls, this`desk, this`out, this`subs, this`servers, this`clientLog
      ensures Valid() && View() == Spec.SendConnect(old(View()), fate)
    {
      hide Spec.OnHandshakeFailure, ConnectSubs, Spec.SendCommand;
      var requests := BuildConnectSubs();
      var body := ConnectBody(config.token, config.data, requests);
      var id := NextCmdId(body, None);
      var err := SendCommand(Command(id, body), fate);
      if err.None? {
        link := link.(handshake := Some(id));
      } else {
        FailureIds(View(), err.value);
        OnHandshakeFailure(err.value);
      }
    }

    /** One turn of `do_connect_cycle`, up to the first read of the handshake. */
    method BeginAttempt(o: Opening)
      requires Valid()
      modifies this
      ensures Valid() && View() == Spec.BeginAttempt(old(View()), o)
    {
      hide Spec.RefreshTokenIfNeeded, Spec.SendConnect;
      link := link.(attempts := link.attempts + 1);
      TokenIds(View(), o.token);
      var goOn := RefreshTokenIfNeeded(o.token);
      if !goOn { return; }
      if !o.opens {
        EmitError();
        return;
      }
      link := link.(sink := true, stream := true, conn := link.conn + 1);
      if config.hasGetData {
        match o.data {
          case Some(data) => config := config.(data := data);
          case None => EmitError();
        }
      }
      SendConnect(o.fate);
    }

    method OnHandshakeSuccess(r: ConnectResult, plan: seq<Attempt>)
      requires Valid() && Lists(plan, SubscribingChannels(Establish(View(), r).subs))
      modifies this`nextId, this`link, this`calls, this`desk, this`out, this`subs, this`servers, this`clientLog
      ensures Valid() && View() == Spec.OnHandshakeSuccess(old(View()), r, plan)
    {
      hide Spec.ProcessServerSubs, Spec.ResubscribeAll, Spec.MoveToConnected;
      link := link.(handshake := None);
      calls := calls.(stranded := {});
      EstablishIds(old(View()), r);
      MoveToConnected(r);
      ProcessServerSubs(r);
      ScheduleTokenRefresh();
      ResubscribeAll(plan);
      DrainConnectWaiters(Done);
    }

    /** One frame read during the handshake. */
    method HandshakeFrame(arrivals: seq<Arrival>, plan: seq<Attempt>)
      requires Valid() && link.handshake.Some? && PlanFits(View(), link.handshake.value, arrivals, plan)
      modifies this`nextId, this`link, this`calls, this`desk, this`out, this`subs, this`servers, this`clientLog
      ensures Valid() && View() == Spec.HandshakeFrame(old(View()), old(link).handshake.value, arrivals, plan)
    {
      hide DispatchAll, Establish, Spec.OnHandshakeSuccess, Spec.OnHandshakeFailure;
      ReadIds(View(), link.handshake.value, arrivals);
      var reply := ReadReply(link.handshake.value, arrivals);
      if reply.None? { return; }
      var r := reply.value;
      if r.error.Some? {
        FailureIds(View(), Server(r.error.value));
        OnHandshakeFailure(Server(r.error.value));
      } else if r.connect.None? {
        FailureIds(View(), BadMessage);
        OnHandshakeFailure(BadMessage);
      } else {
        OnHandshakeSuccess(r.connect.value, plan);
      }
    }
  
    // ---------- token.rs ----------

    method DoRefreshToken(o: TokenOutcome, fate: Fate)
      requires Valid()
      modifies this
      ensures Valid() && View() == Spec.DoRefreshToken(old(View()), o, fate)
    {
      hide Spec.MoveToDisconnected, Spec.Transact, SendFails;
      if !link.phase.Connected? { return; }
      if config.hasGetToken {
        if o.Broken? {
          EmitError();
          Spawn(RefreshToken);
          return;
        }
        if o.Denied? || o.token == "" {
          DisconnectIds(View(), DISCONNECT_UNAUTHORIZED);
          MoveToDisconnected(DISCONNECT_UNAUTHORIZED);
          return;
        }
        config := config.(token := o.token);
      }
      var err := Transact(RefreshBody(config.token), AwaitRefresh, fate);
      if err.Some? {
        Spawn(RefreshToken);
      }
    }

    method DoRefreshSubToken(ch: Channel, o: TokenOutcome, fate: Fate)
      requires Valid()
      modifies this`nextId, this`calls, this`out, this`desk, this`subs
      ensures Valid() && View() == Spec.DoRefreshSubToken(old(View()), ch, o, fate)
    {
      hide Spec.Transact, Spec.UnsubscribeUnauthorized;
      if !link.phase.Connected? || ch !in subs { return; }
      if !subs[ch].state.Subscribed? || !subs[ch].config.hasGetToken { return; }
      match o {
        case Token(token) =>
          if token == "" {
            UnsubscribeUnauthorized(ch);
            return;
          }
          subs := subs[ch := subs[ch].(token := token)];
          var _ := Transact(SubRefreshBody(ch, token), AwaitSubRefresh(ch), fate);
        case Denied => UnsubscribeUnauthorized(ch);
        case Broken =>
          subs := subs[ch := Emit(subs[ch], ErrorEvent)];
          ScheduleSubTokenRefresh(ch, 10);
      }
    }

    // ---------- commands.rs ----------

    method HandleConnect(h: Handle)
      modifies this`link, this`desk, this`clientLog
      ensures View() == Spec.HandleConnect(old(View()), h)
    {
      hide Tell;
      match link.phase {
        case Disconnected =>
          link := link.(connectRequested := true);
          desk := desk.(connectWaiters := desk.connectWaiters + [h]);
          MoveToConnecting(CONNECT_CALLED);
        case Connecting => desk := desk.(connectWaiters := desk.connectWaiters + [h]);
        case Connected => Respond(h, Done);
        case Closed => Respond(h, Failed(ClientClosed));
      }
    }

    method HandleSubscribe(ch: Channel, h: Handle, fate: Fate)
      requires Valid()
      modifies this`nextId, this`calls, this`out, this`desk, this`subs
      ensures Valid() && View() == Spec.HandleSubscribe(old(View()), ch, h, fate)
    {
      hide Tell, Spec.Transact, BuildRequest;
      if ch !in subs {
        Respond(h, Failed(SubscriptionUnsubscribed));
        return;
      }
      if subs[ch].state.Subscribed? {
        Respond(h, Done);
        return;
      }
      if subs[ch].state.Subscribing? {
        subs := subs[ch := subs[ch].(waiters := subs[ch].waiters + [h])];
        return;
      }
      var sub := Emit(subs[ch].(state := Subscribing, attempts := 0), SubscribingEvent(SUBSCRIBE_CALLED));
      if !link.phase.Connected? {
        subs := subs[ch := sub.(waiters := sub.waiters + [h])];
        return;
      }
      subs := subs[ch := sub];
      var request := BuildSubscribeRequest(ch);
      var _ := Transact(SubscribeBody(request), AwaitSubscribe(ch, Some(h)), fate);
    }

    /** The fire-and-forget wire unsubscribe. */
    method SendUnsubscribe(ch: Channel, fate: Fate) returns (err: Option<ClientError>)
      requires Valid()
      modifies this`nextId, this`calls, this`out
      ensures Valid() && View() == Spec.SendUnsubscribe(old(View()), ch, fate)
      ensures err.Some? == SendFails(old(View()), UnsubscribeBody(ch), fate)
    {
      hide Spec.SendCommand;
      var id := NextCmdId(UnsubscribeBody(ch), None);
      err := SendCommand(Command(id, UnsubscribeBody(ch)), fate);
    }

    method HandleUnsubscribe(ch: Channel, h: Handle, fate: Fate)
      requires Valid()
      modifies this
      ensures Valid() && View() == Spec.HandleUnsubscribe(old(View()), ch, h, fate)
    {
      hide Tell, Spec.SendUnsubscribe, SendFails, Spec.OnTransportClose;
      if ch !in subs {
        Respond(h, Done);
        return;
      }
      var wasSubscribed := subs[ch].state.Subscribed?;
      subs := subs[ch := Emit(subs[ch].(state := Unsubscribed, attempts := 0), UnsubscribedEvent(UNSUBSCRIBE_CALLED))];
      if wasSubscribed && link.phase.Connected? {
        var err := SendUnsubscribe(ch, fate);
        if err.Some? {
          Respond(h, Done);
          CloseIds(View(), UNSUBSCRIBE_ERROR, true);
          OnTransportClose(UNSUBSCRIBE_ERROR, true);
          return;
        }
      }
      Respond(h, Done);
    }

    /** The subscription goes; the waiters of one that was already unsubscribed go with it unanswered. */
    method Forget(ch: Channel)
      requires ch in subs
      modifies this`subs, this`desk
      ensures View() == Spec.Forget(old(View()), ch)
    {
      hide Tell, SetOf;
      var sub := subs[ch];
      subs := subs - {ch};
      if !sub.state.Unsubscribed? {
        AnswerEach(sub.waiters, Failed(SubscriptionUnsubscribed));
      } else {
        desk := desk.(dropped := desk.dropped + SetOf(sub.waiters));
      }
    }

    method HandleRemoveSubscription(ch: Channel, h: Handle, fate: Fate)
      requires Valid()
      modifies this`nextId, this`calls, this`out, this`desk, this`subs
      ensures Valid() && View() == Spec.HandleRemoveSubscription(old(View()), ch, h, fate)
    {
      hide Tell, Spec.SendUnsubscribe, Spec.Forget;
      if ch !in subs {
        Respond(h, Done);
        return;
      }
      var wasSubscribed := subs[ch].state.Subscribed?;
      ForgetElsewhere(View(), ch);
      Forget(ch);
      if wasSubscribed && link.phase.Connected? {
        var _ := SendUnsubscribe(ch, fate);
      }
      Respond(h, Done);
    }

    method SendRequestCommand(payload: Bytes, h: Handle, fate: Fate)
      requires Valid()
      modifies this`nextId, this`calls, this`out, this`desk
      ensures Valid() && View() == Spec.SendRequestCommand(old(View()), payload, h, fate)
    {
      hide Tell, Spec.Transact;
      if !link.phase.Connected? {
        Respond(h, Failed(ClientDisconnected));
        return;
      }
      var _ := Transact(RequestBody(payload), AwaitReply(h), fate);
    }

    method HandleRequestTimeout(id: nat)
      modifies this`link, this`calls, this`desk, this`out, this`subs, this`servers, this`clientLog
      ensures View() == Spec.HandleRequestTimeout(old(View()), id)
    {
      hide Tell, SetOf, Spec.OnTransportClose;
      if id !in calls.pending { return; }
      var req := calls.pending[id];
      calls := calls.(pending := calls.pending - {id});
      AnswerCaller(req, Failed(Timeout));
      if req.AwaitSubscribe? && req.channel in subs {
        var waiters := subs[req.channel].waiters;
        subs := subs[req.channel := subs[req.channel].(waiters := [])];
        AnswerEach(waiters, Failed(Timeout));
        OnTransportClose(SUBSCRIBE_TIMEOUT, true);
      }
    }

    method HandleTimer(t: Timer, o: Oracle)
      requires Valid()
      modifies this
      ensures Valid() && View() == Spec.HandleTimer(old(View()), t, o)
    {
      hide Spec.DoSubscribe, Spec.HandleRequestTimeout, Spec.DoRefreshToken, Spec.DoRefreshSubToken;
      match t {
        case Resubscribe(ch) => if link.phase.Connected? { DoSubscribe(ch, o); }
        case RequestTimeout(id) =>
          TimeoutIds(View(), id);
          HandleRequestTimeout(id);
        case RefreshToken => DoRefreshToken(o.token, o.fate);
        case RefreshSubToken(ch) => DoRefreshSubToken(ch, o.token, o.fate);
      }
    }

    /** The commands that only look at or set a field. */
    method HandleSimple(c: ActorCommand, fate: Fate)
      requires !c.Connect? && !c.Disconnect? && !c.Close? && !c.RemoveSubscription? && !c.Subscribe? && !c.Unsubscribe?
          && !c.SendRequest?
      modifies this`config, this`desk, this`out, this`subs
      ensures View() == Spec.HandleCommand(old(View()), c, fate)
    {
      hide Tell, Spec.SendCommand, Spec.FlushBatch;
      match c {
        case NewSubscription(ch, cfg, h) =>
          if ch !in subs {
            var cell := new SubscriptionCell(cfg);
            subs := subs[ch := cell.View()];
            Respond(h, Done);
          } else {
            Respond(h, Failed(DuplicateSubscription));
          }
        case GetSubscription(ch, h) => Respond(h, Found(ch in subs));
        case ListSubscriptions(h) => Respond(h, Listing(map ch | ch in subs :: subs[ch].state));
        case Send(data) =>
          if link.phase.Connected? {
            var _ := SendCommand(Command(0, SendBody(data)), fate);
          }
        case SetToken(token) => config := config.(token := token);
        case SetData(data) => config := config.(data := data);
        case StartBatching => out := out.(batch := out.batch.(active := true));
        case StopBatching => FlushBatch(fate);
      }
    }

    method HandleCommand(c: ActorCommand, fate: Fate)
      requires Valid()
      modifies this
      ensures Valid() && View() == Spec.HandleCommand(old(View()), c, fate)
    {
      hide Tell, Spec.HandleConnect, Spec.MoveToDisconnected, Spec.MoveToClosed, Spec.HandleRemoveSubscription,
           Spec.HandleSubscribe, Spec.HandleUnsubscribe, Spec.SendRequestCommand;
      match c {
        case Connect(h) => HandleConnect(h);
        case Disconnect(h) =>
          DisconnectIds(View(), DISCONNECT_CALLED);
          MoveToDisconnected(DISCONNECT_CALLED);
          Respond(h, Done);
        case Close(h) =>
          DisconnectIds(View(), 0);
          MoveToClosed();
          Respond(h, Done);
        case RemoveSubscription(ch, h) => HandleRemoveSubscription(ch, h, fate);
        case Subscribe(ch, h) => HandleSubscribe(ch, h, fate);
        case Unsubscribe(ch, h) => HandleUnsubscribe(ch, h, fate);
        case SendRequest(payload, h) => SendRequestCommand(payload, h, fate);
        case _ => HandleSimple(c, fate);
      }
    }

    // ---------- the actor loop ----------

    /** One turn of whichever loop the actor is in. */
    method Turn(i: Input)
      requires Valid() && Enabled(View(), i)
      modifies this
      ensures Valid() && View() == Apply(old(View()), i)
    {
      hide Spec.HandleCommand, Spec.HandleTimer, Spec.BeginAttempt, Spec.HandshakeFrame, Spec.OnHandshakeFailure,
           DispatchAll, Spec.OnTransportClose, PlanFits;
      match i {
        case Ask(c, fate) =>
          desk := desk.(callers := desk.callers + OptionSet(ReplyHandle(c)));
          HandleCommand(c, fate);
        case Fire(t, o) =>
          calls := calls.(timers := calls.timers - multiset{t});
          HandleTimer(t, o);
        case Open(o) => BeginAttempt(o);
        case Shake(arrivals, plan) => HandshakeFrame(arrivals, plan);
        case ShakeFails(e) =>
          FailureIds(View(), e);
          OnHandshakeFailure(e);
        case Data(arrivals) =>
          DispatchAllIds(View(), arrivals);
          HandleReplies(arrivals);
        case BadData =>
          CloseIds(View(), BAD_PROTOCOL, false);
          OnTransportClose(BAD_PROTOCOL, false);
        case TransportClosed(code, reconnect) =>
          CloseIds(View(), code, reconnect);
          OnTransportClose(code, reconnect);
        case PingTimeout =>
          CloseIds(View(), NO_PING, true);
          OnTransportClose(NO_PING, true);
      }
    }

    /** A whole run, each input taken when the actor waits for it. */
    method RunAll(inputs: seq<Input>)
      requires Valid()
      requires forall k :: 0 <= k < |inputs| ==> Enabled(Run(View(), inputs[..k]), inputs[k])
      modifies this
      ensures Valid() && View() == Run(old(View()), inputs)
    {
      hide Enabled, Apply;
      assert inputs[..0] == [];
      for k := 0 to |inputs|
        invariant Valid() && View() == Run(old(View()), inputs[..k])
      {
        assert inputs[..k + 1][..k] == inputs[..k];
        assert Enabled(Run(old(View()), inputs[..k]), inputs[k]);
        Turn(inputs[k]);
      }
      assert inputs[..|inputs|] == inputs;
    }
  }
}
