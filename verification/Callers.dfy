/** Caller conservation: where every reply handle ever passed to the actor is. */
module Callers {
  import opened Prelude
  import Codes
  import opened Protocol
  import opened Subscriptions
  import opened ActorState
  import RequestIdentity

  datatype Place = AtConnect | AtSub(channel: Channel) | AtPending(id: nat) | Answered | Lost

  /** The state as far as reply handles are concerned. */
  datatype Holders = Holders(
    callers: set<Handle>, connect: seq<Handle>, waiters: map<Channel, seq<Handle>>, pending: map<nat, Handle>,
    answered: set<Handle>, dropped: set<Handle>)

  function Waiting(subs: map<Channel, SubState>): map<Channel, seq<Handle>> {
    map ch | ch in subs && subs[ch].waiters != [] :: subs[ch].waiters
  }

  function Calling(pending: map<nat, PendingRequest>): map<nat, Handle> {
    map id | id in pending && CallerOf(pending[id]).Some? :: CallerOf(pending[id]).value
  }

  function HoldersOf(s: State): Holders {
    Holders(s.desk.callers, s.desk.connectWaiters, Waiting(s.subs), Calling(s.calls.pending),
            s.desk.answers.Keys, s.desk.dropped)
  }

  ghost predicate Holds(k: Holders, h: Handle, p: Place) {
    match p
    case AtConnect => h in k.connect
    case AtSub(ch) => ch in k.waiters && h in k.waiters[ch]
    case AtPending(id) => id in k.pending && k.pending[id] == h
    case Answered => h in k.answered
    case Lost => h in k.dropped
  }

  ghost predicate Distinct(hs: seq<Handle>) { forall i, j :: 0 <= i < j < |hs| ==> hs[i] != hs[j] }

  /** Every handle found anywhere is entered in the ledger `l` under that place. */
  ghost predicate Listed(k: Holders, l: map<Handle, Place>) {
    && (forall h :: h in k.connect ==> h in l && l[h] == AtConnect)
    && (forall ch, h :: ch in k.waiters && h in k.waiters[ch] ==> h in l && l[h] == AtSub(ch))
    && (forall id :: id in k.pending ==> k.pending[id] in l && l[k.pending[id]] == AtPending(id))
    && (forall h :: h in k.answered ==> h in l && l[h] == Answered)
    && (forall h :: h in k.dropped ==> h in l && l[h] == Lost)
  }

  /** The ledger says where each handle is; those in `loose` are in a handler's hands. */
  ghost predicate Balanced(k: Holders, l: map<Handle, Place>, loose: set<Handle>) {
    && loose !! l.Keys
    && k.callers == l.Keys + loose
    && Distinct(k.connect)
    && (forall ch :: ch in k.waiters ==> Distinct(k.waiters[ch]))
    && (forall h :: h in l ==> Holds(k, h, l[h]))
    && Listed(k, l)
  }

  function Settle(l: map<Handle, Place>, hs: set<Handle>, p: Place): map<Handle, Place> {
    map h | h in l.Keys + hs :: if h in hs then p else l[h]
  }

  // ---------- draining ----------

  function InChannels(waiters: map<Channel, seq<Handle>>, chs: set<Channel>): set<Handle> {
    set ch, h | ch in chs && ch in waiters && h in waiters[ch] :: h
  }

  function AtIds(pending: map<nat, Handle>, ids: set<nat>): set<Handle> {
    set id | id in ids && id in pending :: pending[id]
  }

  /** Take the waiters of `chs`, the callers at `ids` and, if `connect`, the connect waiters. */
  function Drained(k: Holders, chs: set<Channel>, ids: set<nat>, connect: bool): set<Handle> {
    InChannels(k.waiters, chs) + AtIds(k.pending, ids) + if connect then SetOf(k.connect) else {}
  }

  function Emptied(k: Holders, chs: set<Channel>, ids: set<nat>, connect: bool): Holders {
    k.(waiters := k.waiters - chs, pending := k.pending - ids, connect := if connect then [] else k.connect)
  }

  lemma DrainedFrom(
      k: Holders, l: map<Handle, Place>, loose: set<Handle>, chs: set<Channel>, ids: set<nat>, connect: bool)
    requires Balanced(k, l, loose)
    ensures forall h :: h in Drained(k, chs, ids, connect) <==>
              h in l && match l[h]
                        case AtConnect => connect
                        case AtSub(ch) => ch in chs
                        case AtPending(id) => id in ids
                        case _ => false
    ensures loose !! Drained(k, chs, ids, connect)
  {}

  /** Drained handles end up in the handler's hands. */
  lemma DrainBalanced(
      k: Holders, l: map<Handle, Place>, loose: set<Handle>, chs: set<Channel>, ids: set<nat>, connect: bool)
    requires Balanced(k, l, loose)
    ensures var hs := Drained(k, chs, ids, connect);
            && Balanced(Emptied(k, chs, ids, connect), l - hs, loose + hs)
            && hs !! k.answered && hs !! k.dropped
  {
    var hs := Drained(k, chs, ids, connect);
    DrainedFrom(k, l, loose, chs, ids, connect);
    var k' := Emptied(k, chs, ids, connect);
    DrainHolds(k, l, loose, chs, ids, connect);
    DrainListed(k, l, loose, chs, ids, connect);
    hide Drained, Listed, Holds;
    assert k.callers == (l - hs).Keys + (loose + hs);
    AnsweredListed(k, l);
  }

  lemma AnsweredListed(k: Holders, l: map<Handle, Place>)
    requires Listed(k, l)
    ensures forall h :: h in k.answered ==> h in l && l[h] == Answered
    ensures forall h :: h in k.dropped ==> h in l && l[h] == Lost
  {}

  lemma DrainHolds(
      k: Holders, l: map<Handle, Place>, loose: set<Handle>, chs: set<Channel>, ids: set<nat>, connect: bool)
    requires Balanced(k, l, loose)
    ensures var rest := l - Drained(k, chs, ids, connect);
      forall h :: h in rest ==> Holds(Emptied(k, chs, ids, connect), h, rest[h])
  {}

  lemma DrainListed(
      k: Holders, l: map<Handle, Place>, loose: set<Handle>, chs: set<Channel>, ids: set<nat>, connect: bool)
    requires Balanced(k, l, loose)
    ensures Listed(Emptied(k, chs, ids, connect), l - Drained(k, chs, ids, connect))
  {
    hide Drained, Holds;
    DrainedFrom(k, l, loose, chs, ids, connect);
  }

  /** Loose handles are answered. */
  lemma AnswerBalanced(k: Holders, l: map<Handle, Place>, loose: set<Handle>, hs: set<Handle>)
    requires Balanced(k, l, loose) && hs <= loose
    ensures Balanced(k.(answered := k.answered + hs), Settle(l, hs, Answered), loose - hs)
    ensures hs !! k.answered
  {}

  lemma LoseBalanced(k: Holders, l: map<Handle, Place>, loose: set<Handle>, hs: set<Handle>)
    requires Balanced(k, l, loose) && hs <= loose
    ensures Balanced(k.(dropped := k.dropped + hs), Settle(l, hs, Lost), loose - hs)
  {}

  lemma AwaitBalanced(k: Holders, l: map<Handle, Place>, loose: set<Handle>, h: Handle)
    requires Balanced(k, l, loose) && h in loose
    ensures Balanced(k.(connect := k.connect + [h]), Settle(l, {h}, AtConnect), loose - {h})
  {
    var k' := k.(connect := k.connect + [h]);
    forall x | x in l
      ensures Holds(k', x, l[x])
    {
      assert Holds(k, x, l[x]);
    }
  }

  lemma AttachBalanced(k: Holders, l: map<Handle, Place>, loose: set<Handle>, ch: Channel, h: Handle)
    requires Balanced(k, l, loose) && h in loose
    ensures Balanced(k.(waiters := k.waiters[ch := (if ch in k.waiters then k.waiters[ch] else []) + [h]]),
                     Settle(l, {h}, AtSub(ch)), loose - {h})
  {
    var before := if ch in k.waiters then k.waiters[ch] else [];
    var k' := k.(waiters := k.waiters[ch := before + [h]]);
    assert h !in before;
    forall x | x in l
      ensures Holds(k', x, l[x])
    {
      assert Holds(k, x, l[x]);
    }
  }

  lemma EnterBalanced(k: Holders, l: map<Handle, Place>, loose: set<Handle>, id: nat, h: Handle)
    requires Balanced(k, l, loose) && h in loose && id !in k.pending
    ensures Balanced(k.(pending := k.pending[id := h]), Settle(l, {h}, AtPending(id)), loose - {h})
  {
    var k' := k.(pending := k.pending[id := h]);
    forall x | x in l
      ensures Holds(k', x, l[x])
    {
      assert Holds(k, x, l[x]);
    }
  }

  // ---------- the handlers, one by one ----------

  /** Final places are final, and an answer given stays the answer. */
  ghost predicate Final(d: Desk, e: Desk) {
    && d.callers <= e.callers
    && (forall h :: h in d.answers ==> h in e.answers && e.answers[h] == d.answers[h])
    && d.dropped <= e.dropped
  }

  /** The books balance in `t` as they did in `s`, and nothing final in `s` is undone. */
  ghost predicate Carried(s: State, t: State, l: map<Handle, Place>, loose: set<Handle>) {
    Balanced(HoldersOf(t), l, loose) && Final(s.desk, t.desk)
  }

  lemma DrainAndAnswer(
      k: Holders, l: map<Handle, Place>, loose: set<Handle>, chs: set<Channel>, ids: set<nat>, connect: bool)
    returns (l': map<Handle, Place>)
    requires Balanced(k, l, loose)
    ensures var hs := Drained(k, chs, ids, connect);
            && Balanced(Emptied(k, chs, ids, connect).(answered := k.answered + hs), l', loose)
            && hs !! k.answered && hs !! k.dropped
  {
    hide Balanced;
    var hs := Drained(k, chs, ids, connect);
    DrainBalanced(k, l, loose, chs, ids, connect);
    AnswerBalanced(Emptied(k, chs, ids, connect), l - hs, loose + hs, hs);
    l' := Settle(l - hs, hs, Answered);
    DrainedFrom(k, l, loose, chs, ids, connect);
    assert loose + hs - hs == loose;
  }

  lemma WaitingSame(subs: map<Channel, SubState>, ch: Channel, sub: SubState)
    ensures (if ch in subs then subs[ch].waiters else []) == sub.waiters ==> Waiting(subs[ch := sub]) == Waiting(subs)
    ensures sub.waiters == [] ==> Waiting(subs[ch := sub]) == Waiting(subs) - {ch}
    ensures sub.waiters != [] ==> Waiting(subs[ch := sub]) == Waiting(subs)[ch := sub.waiters]
  {}

  lemma SetsAgree(s: State, chs: set<Channel>)
    ensures InChannels(Waiting(s.subs), chs) == WaitersIn(s.subs, chs)
    ensures AtIds(Calling(s.calls.pending), s.calls.pending.Keys) == CallersIn(s.calls.pending)
  {
    var w := Waiting(s.subs);
    forall h | h in WaitersIn(s.subs, chs)
      ensures h in InChannels(w, chs)
    {
      var ch :| ch in chs && ch in s.subs && h in s.subs[ch].waiters;
      assert ch in w && h in w[ch];
    }
    var p := s.calls.pending;
    forall h | h in CallersIn(p)
      ensures h in AtIds(Calling(p), p.Keys)
    {
      var id :| id in p && CallerOf(p[id]).Some? && CallerOf(p[id]).value == h;
      assert id in Calling(p);
    }
  }

  lemma TellFinal(d: Desk, hs: set<Handle>, a: Answer)
    requires hs !! d.answers.Keys
    ensures Final(d, Tell(d, hs, a)) && Tell(d, hs, a).answers.Keys == d.answers.Keys + hs
  {}

  lemma WaitingClosed(subs: map<Channel, SubState>)
    ensures Waiting(CloseAll(subs)) == Waiting(subs) - Active(subs)
  {}

  lemma WaitingSuspended(subs: map<Channel, SubState>)
    ensures Waiting(SuspendAll(subs)) == Waiting(subs)
  {}

  /** All pending requests are failed, the waiters of `chs` and perhaps the connect waiters with them. */
  lemma ExitCarries(s: State, t: State, l: map<Handle, Place>, loose: set<Handle>, chs: set<Channel>, connect: bool)
    returns (l': map<Handle, Place>)
    requires Balanced(HoldersOf(s), l, loose)
    requires t.calls.pending == map[] && Waiting(t.subs) == Waiting(s.subs) - chs
    requires t.desk.callers == s.desk.callers && t.desk.dropped == s.desk.dropped
    requires t.desk.connectWaiters == if connect then [] else s.desk.connectWaiters
    requires forall h :: h in s.desk.answers && h !in FailedBy(s, chs, connect) ==>
               h in t.desk.answers && t.desk.answers[h] == s.desk.answers[h]
    requires t.desk.answers.Keys == s.desk.answers.Keys + FailedBy(s, chs, connect)
    ensures Carried(s, t, l', loose)
  {
    hide Balanced, InChannels, AtIds, WaitersIn, CallersIn;
    var k, ids := HoldersOf(s), s.calls.pending.Keys;
    var hs := Drained(k, chs, ids, connect);
    l' := DrainAndAnswer(k, l, loose, chs, ids, connect);
    SetsAgree(s, chs);
    assert hs == FailedBy(s, chs, connect);
    assert k.pending - ids == map[] && Calling(t.calls.pending) == map[];
    assert HoldersOf(t) == Emptied(k, chs, ids, connect).(answered := k.answered + hs);
  }

  function FailedBy(s: State, chs: set<Channel>, connect: bool): set<Handle> {
    CallersIn(s.calls.pending) + WaitersIn(s.subs, chs) + if connect then SetOf(s.desk.connectWaiters) else {}
  }

  lemma DisconnectedCarries(s: State, l: map<Handle, Place>, loose: set<Handle>, code: nat)
    returns (l': map<Handle, Place>)
    requires Balanced(HoldersOf(s), l, loose)
    ensures Carried(s, MoveToDisconnected(s, code), l', loose)
  {
    hide Balanced, Carried, CloseAll, WaitersIn, CallersIn, Waiting, Active, Note;
    var chs := if s.link.phase.Connected? then Active(s.subs) else {};
    WaitingClosed(s.subs);
    assert Waiting(s.subs) - {} == Waiting(s.subs);
    assert WaitersIn(s.subs, {}) == {} by { NoChannels(s.subs); }
    l' := ExitCarries(s, MoveToDisconnected(s, code), l, loose, chs, true);
  }

  lemma NoChannels(subs: map<Channel, SubState>)
    ensures WaitersIn(subs, {}) == {}
  {}

  lemma TransportCloseCarries(s: State, l: map<Handle, Place>, loose: set<Handle>, code: nat, reconnect: bool)
    returns (l': map<Handle, Place>)
    requires Balanced(HoldersOf(s), l, loose)
    ensures Carried(s, OnTransportClose(s, code, reconnect), l', loose)
  {
    hide Balanced, Carried, MoveToDisconnected, SuspendAll, WaitersIn, CallersIn, Waiting, Note;
    if reconnect && s.link.connectRequested {
      WaitingSuspended(s.subs);
      assert Waiting(s.subs) - {} == Waiting(s.subs);
      NoChannels(s.subs);
      l' := ExitCarries(s, OnTransportClose(s, code, reconnect), l, loose, {}, false);
    } else {
      l' := DisconnectedCarries(s, l, loose, code);
    }
  }

  lemma ClosedCarries(s: State, l: map<Handle, Place>, loose: set<Handle>) returns (l': map<Handle, Place>)
    requires Balanced(HoldersOf(s), l, loose)
    ensures Carried(s, MoveToClosed(s), l', loose)
  {
    hide Balanced, Carried, CloseAll, WaitersIn, CallersIn, Waiting, Active;
    WaitingClosed(s.subs);
    l' := ExitCarries(s, MoveToClosed(s), l, loose, Active(s.subs), true);
  }

  /** The waiters of one channel are answered; its subscription changes otherwise as it likes. */
  lemma ChannelCarries(s: State, t: State, l: map<Handle, Place>, loose: set<Handle>, ch: Channel, a: Answer)
    returns (l': map<Handle, Place>)
    requires Balanced(HoldersOf(s), l, loose) && ch in s.subs && ch in t.subs
    requires t.calls.pending == s.calls.pending && t.subs == s.subs[ch := t.subs[ch]] && t.subs[ch].waiters == []
    requires t.desk == Tell(s.desk, SetOf(s.subs[ch].waiters), a)
    ensures Carried(s, t, l', loose)
  {
    hide Balanced;
    var k := HoldersOf(s);
    var hs := Drained(k, {ch}, {}, false);
    l' := DrainAndAnswer(k, l, loose, {ch}, {}, false);
    SetsAgree(s, {ch});
    assert hs == SetOf(s.subs[ch].waiters);
    TellFinal(s.desk, hs, a);
    WaitingSame(s.subs, ch, t.subs[ch]);
    assert k.pending - {} == k.pending;
    assert HoldersOf(t) == Emptied(k, {ch}, {}, false).(answered := k.answered + hs);
  }

  lemma ExpelCarries(s: State, l: map<Handle, Place>, loose: set<Handle>, ch: Channel, code: nat, err: ClientError)
    returns (l': map<Handle, Place>)
    requires Balanced(HoldersOf(s), l, loose)
    ensures Carried(s, Expel(s, ch, code, err), l', loose)
  {
    hide Balanced;
    l' := l;
    if ch in s.subs {
      l' := ChannelCarries(s, Expel(s, ch, code, err), l, loose, ch, Failed(err));
    }
  }

  lemma SuccessCarries(s: State, l: map<Handle, Place>, loose: set<Handle>, ch: Channel, r: SubscribeResult)
    returns (l': map<Handle, Place>)
    requires Balanced(HoldersOf(s), l, loose)
    ensures Carried(s, HandleSubscribeSuccess(s, ch, r), l', loose)
  {
    hide Balanced;
    l' := l;
    if ch in s.subs {
      l' := ChannelCarries(s, HandleSubscribeSuccess(s, ch, r), l, loose, ch, Done);
    }
  }

  /** Nothing about handles changes. */
  lemma SameCarries(s: State, t: State, l: map<Handle, Place>, loose: set<Handle>)
    requires Balanced(HoldersOf(s), l, loose)
    requires t.desk == s.desk && Calling(t.calls.pending) == Calling(s.calls.pending)
        && Waiting(t.subs) == Waiting(s.subs)
    ensures Carried(s, t, l, loose)
  {}

  lemma RespondCarries(s: State, l: map<Handle, Place>, loose: set<Handle>, h: Handle, a: Answer)
    returns (l': map<Handle, Place>)
    requires Balanced(HoldersOf(s), l, loose) && h in loose
    ensures Carried(s, Respond(s, h, a), l', loose - {h})
  {
    hide Balanced;
    l' := TellCarries(s, l, loose, {h}, a);
  }

  lemma TellCarries(s: State, l: map<Handle, Place>, loose: set<Handle>, hs: set<Handle>, a: Answer)
    returns (l': map<Handle, Place>)
    requires Balanced(HoldersOf(s), l, loose) && hs <= loose
    ensures Carried(s, s.(desk := Tell(s.desk, hs, a)), l', loose - hs)
  {
    hide Balanced;
    l' := Settle(l, hs, Answered);
    AnswerBalanced(HoldersOf(s), l, loose, hs);
    TellFinal(s.desk, hs, a);
    assert HoldersOf(s.(desk := Tell(s.desk, hs, a))) == HoldersOf(s).(answered := s.desk.answers.Keys + hs);
  }

  lemma FinalTransitive(d: Desk, e: Desk, f: Desk)
    requires Final(d, e) && Final(e, f)
    ensures Final(d, f)
  {}

  /** Registering a request under a fresh id takes its caller in; abandoning it answers the caller. */
  lemma TransactCarries(
      s: State, l: map<Handle, Place>, loose: set<Handle>, body: Body, req: PendingRequest, fate: Fate)
    returns (l': map<Handle, Place>)
    requires Balanced(HoldersOf(s), l, loose) && OptionSet(CallerOf(req)) <= loose
    requires NextId(s.calls) !in s.calls.pending
    ensures Carried(s, Transact(s, body, req, fate), l', loose - OptionSet(CallerOf(req)))
  {
    hide Balanced, SendCommand;
    var t := Transact(s, body, req, fate);
    var id := NextId(s.calls);
    if SendFails(s, body, fate) {
      var err := SendCommand(s.out, s.link, Command(id, body), fate).1.value;
      assert t.calls.pending == s.calls.pending;
      l' := TellCarries(s, l, loose, OptionSet(CallerOf(req)), Failed(err));
      assert HoldersOf(t) == HoldersOf(s.(desk := Tell(s.desk, OptionSet(CallerOf(req)), Failed(err))));
    } else if CallerOf(req).Some? {
      l' := Settle(l, OptionSet(CallerOf(req)), AtPending(id));
      EnterBalanced(HoldersOf(s), l, loose, id, CallerOf(req).value);
      assert Calling(t.calls.pending) == Calling(s.calls.pending)[id := CallerOf(req).value];
      assert HoldersOf(t) == HoldersOf(s).(pending := HoldersOf(s).pending[id := CallerOf(req).value]);
    } else {
      l' := l;
      assert Calling(t.calls.pending) == Calling(s.calls.pending);
      assert loose - {} == loose;
      SameCarries(s, t, l, loose);
    }
  }

  lemma TakeOutCarries(s: State, l: map<Handle, Place>, loose: set<Handle>, id: nat) returns (l': map<Handle, Place>)
    requires Balanced(HoldersOf(s), l, loose) && id in s.calls.pending
    ensures Carried(s, TakeOut(s, id), l', loose + OptionSet(CallerOf(s.calls.pending[id])))
    ensures loose !! OptionSet(CallerOf(s.calls.pending[id]))
  {
    hide Balanced;
    var k := HoldersOf(s);
    var hs := Drained(k, {}, {id}, false);
    DrainBalanced(k, l, loose, {}, {id}, false);
    DrainedFrom(k, l, loose, {}, {id}, false);
    l' := l - hs;
    assert hs == OptionSet(CallerOf(s.calls.pending[id]));
    assert k.waiters - {} == k.waiters;
    assert Calling(TakeOut(s, id).calls.pending) == k.pending - {id};
    assert HoldersOf(TakeOut(s, id)) == Emptied(k, {}, {id}, false);
  }

  // ---------- composed handlers ----------

  lemma CarriedThen(
      s: State, t: State, u: State, l: map<Handle, Place>, loose: set<Handle>, l': map<Handle, Place>,
      loose': set<Handle>)
    requires Carried(s, t, l, loose) && Carried(t, u, l', loose')
    ensures Carried(s, u, l', loose')
  {}

  /** Ids have not wrapped, so the next one is free. */
  ghost predicate IdsFresh(s: State, t: State) {
    RequestIdentity.Identified(s) && |t.calls.issued| < TWO_32
  }

  lemma NextIsFree(s: State, t: State)
    requires IdsFresh(s, t) && |s.calls.issued| < |t.calls.issued|
    ensures NextId(s.calls) !in s.calls.pending
  {}

  lemma TransactIssues(s: State, body: Body, req: PendingRequest, fate: Fate)
    ensures |Transact(s, body, req, fate).calls.issued| == |s.calls.issued| + 1
  {}

  lemma SendSubscribeCarries(s: State, l: map<Handle, Place>, loose: set<Handle>, ch: Channel, sub: SubState,
                             sender: Option<Handle>, fate: Fate)
    returns (l': map<Handle, Place>)
    requires Balanced(HoldersOf(s), l, loose) && IdsFresh(s, SendSubscribe(s, ch, sub, sender, fate))
    requires OptionSet(sender) <= loose && ch in s.subs && sub.waiters == s.subs[ch].waiters
    ensures Carried(s, SendSubscribe(s, ch, sub, sender, fate), l', loose - OptionSet(sender))
  {
    hide Balanced, Transact, RequestIdentity.Identified, Waiting, Calling;
    var s1 := s.(subs := s.subs[ch := sub]);
    var body := SubscribeBody(BuildRequest(ch, sub));
    WaitingSame(s.subs, ch, sub);
    SameCarries(s, s1, l, loose);
    TransactIssues(s1, body, AwaitSubscribe(ch, sender), fate);
    NextIsFree(s, SendSubscribe(s, ch, sub, sender, fate));
    l' := TransactCarries(s1, l, loose, body, AwaitSubscribe(ch, sender), fate);
    CarriedThen(s, s1, SendSubscribe(s, ch, sub, sender, fate), l, loose, l', loose - OptionSet(sender));
  }

  lemma SubChangeCarries(s: State, t: State, l: map<Handle, Place>, loose: set<Handle>, ch: Channel)
    requires Balanced(HoldersOf(s), l, loose) && ch in s.subs && ch in t.subs
    requires t.subs == s.subs[ch := t.subs[ch]] && t.subs[ch].waiters == s.subs[ch].waiters
    requires t.desk == s.desk && t.calls.pending == s.calls.pending
    ensures Carried(s, t, l, loose)
  {
    hide Balanced, Waiting, Calling;
    WaitingSame(s.subs, ch, t.subs[ch]);
    SameCarries(s, t, l, loose);
  }

  lemma DoSubscribeCarries(s: State, l: map<Handle, Place>, loose: set<Handle>, ch: Channel, o: Oracle)
    returns (l': map<Handle, Place>)
    requires Balanced(HoldersOf(s), l, loose) && IdsFresh(s, DoSubscribe(s, ch, o))
    ensures Carried(s, DoSubscribe(s, ch, o), l', loose)
  {
    hide Balanced, SendSubscribe, Expel, RequestIdentity.Identified, HoldersOf;
    if ch !in s.subs || s.subs[ch].state.Unsubscribed? {
      l' := l;
    } else if !NeedsToken(s.subs[ch]) {
      l' := SendSubscribeCarries(s, l, loose, ch, RefreshData(s.subs[ch], o.data), None, o.fate);
      assert loose - {} == loose;
    } else if o.token.Broken? {
      l' := l;
      SubChangeCarries(s, DoSubscribe(s, ch, o), l, loose, ch);
    } else if o.token.Denied? || o.token.token == "" {
      l' := ExpelCarries(s, l, loose, ch, Codes.UNSUBSCRIBED_UNAUTHORIZED, Unauthorized);
    } else {
      l' := SendSubscribeCarries(s, l, loose, ch, RefreshData(s.subs[ch].(token := o.token.token), o.data), None,
          o.fate);
      assert loose - {} == loose;
    }
  }

  lemma ErrorCarries(s: State, l: map<Handle, Place>, loose: set<Handle>, ch: Channel, err: ServerError)
    returns (l': map<Handle, Place>)
    requires Balanced(HoldersOf(s), l, loose)
    ensures Carried(s, HandleSubscribeError(s, ch, err), l', loose)
  {
    hide Balanced, Expel, HoldersOf;
    l' := l;
    if ch in s.subs {
      if Codes.IsTemporary(err.code, err.temporary) {
        SubChangeCarries(s, HandleSubscribeError(s, ch, err), l, loose, ch);
      } else {
        l' := ExpelCarries(s, l, loose, ch, err.code, Server(err));
      }
    }
  }

  lemma ResolveSubscribeCarries(s: State, l: map<Handle, Place>, loose: set<Handle>, ch: Channel, r: Reply)
    returns (l': map<Handle, Place>)
    requires Balanced(HoldersOf(s), l, loose)
    ensures Carried(s, ResolveSubscribe(s, ch, r).0, l', loose)
  {
    hide Balanced, HandleSubscribeSuccess, HandleSubscribeError, Waiting, Calling;
    if r.error.Some? && r.error.value.code != Codes.ALREADY_SUBSCRIBED {
      l' := ErrorCarries(s, l, loose, ch, r.error.value);
    } else if r.error.Some? || r.subscribe.Some? {
      l' := SuccessCarries(s, l, loose, ch, if r.subscribe.Some? then r.subscribe.value else EMPTY_RESULT);
    } else {
      l' := l;
      SameCarries(s, ResolveSubscribe(s, ch, r).0, l, loose);
    }
  }

  /** A request taken out of `pending` is settled together with its caller. */
  lemma ResolveCarries(s: State, l: map<Handle, Place>, req: PendingRequest, r: Reply)
    returns (l': map<Handle, Place>)
    requires Balanced(HoldersOf(s), l, OptionSet(CallerOf(req)))
    ensures Carried(s, ResolvePending(s, req, r), l', {})
  {
    hide Balanced, ResolveSubscribe, Waiting, Calling;
    var loose := OptionSet(CallerOf(req));
    assert loose - loose == {};
    match req {
      case AwaitSubscribe(ch, sender) =>
        var (s1, answer) := ResolveSubscribe(s, ch, r);
        var l1 := ResolveSubscribeCarries(s, l, loose, ch, r);
        l' := TellCarries(s1, l1, loose, loose, answer);
        CarriedThen(s, s1, ResolvePending(s, req, r), l1, loose, l', {});
      case AwaitReply(h) =>
        l' := TellCarries(s, l, loose, loose, Raw(r));
      case _ =>
        l' := l;
        SameCarries(s, ResolvePending(s, req, r), l, loose);
    }
  }

  lemma PublicationCarries(s: State, l: map<Handle, Place>, loose: set<Handle>, ch: Channel, p: Publication)
    requires Balanced(HoldersOf(s), l, loose)
    ensures Carried(s, HandlePublication(s, ch, p), l, loose)
  {
    hide Balanced, Waiting, Calling;
    if ch in s.subs {
      SubChangeCarries(s, HandlePublication(s, ch, p), l, loose, ch);
    } else {
      SameCarries(s, HandlePublication(s, ch, p), l, loose);
    }
  }

  lemma PushCarries(s: State, l: map<Handle, Place>, loose: set<Handle>, push: Push) returns (l': map<Handle, Place>)
    requires Balanced(HoldersOf(s), l, loose)
    ensures Carried(s, HandlePush(s, push), l', loose)
  {
    hide Balanced, OnTransportClose, MoveToDisconnected, HandlePublication, Waiting, Calling;
    l' := l;
    match push.body {
      case DisconnectPush(code) =>
        if Codes.ShouldReconnectOnDisconnect(code) {
          l' := TransportCloseCarries(s, l, loose, code, true);
        } else {
          l' := DisconnectedCarries(s, l, loose, code);
        }
      case PublicationPush(p) =>
        PublicationCarries(s, l, loose, push.channel, p);
      case _ =>
        if push.channel in s.subs && !push.body.SubscribePush? && !push.body.MessagePush? && !push.body.EmptyPush? {
          SubChangeCarries(s, HandlePush(s, push), l, loose, push.channel);
        } else {
          SameCarries(s, HandlePush(s, push), l, loose);
        }
    }
  }

  lemma DispatchCarries(s: State, l: map<Handle, Place>, a: Arrival) returns (l': map<Handle, Place>)
    requires Balanced(HoldersOf(s), l, {})
    ensures Carried(s, DispatchReply(s, a), l', {})
  {
    hide Balanced, HandlePush, ResolvePending, Waiting, Calling, SendCommand;
    if a.reply.id == 0 && a.reply.push.Some? {
      l' := PushCarries(s, l, {}, a.reply.push.value);
    } else if a.reply.id != 0 && a.reply.id in s.calls.pending {
      var req := s.calls.pending[a.reply.id];
      var s1 := TakeOut(s, a.reply.id);
      var l1 := TakeOutCarries(s, l, {}, a.reply.id);
      assert {} + OptionSet(CallerOf(req)) == OptionSet(CallerOf(req));
      l' := ResolveCarries(s1, l1, req, a.reply);
      CarriedThen(s, s1, DispatchReply(s, a), l1, OptionSet(CallerOf(req)), l', {});
    } else {
      l' := l;
      SameCarries(s, DispatchReply(s, a), l, {});
    }
  }

  lemma {:induction false} DispatchAllCarries(s: State, l: map<Handle, Place>, arrivals: seq<Arrival>)
    returns (l': map<Handle, Place>)
    requires Balanced(HoldersOf(s), l, {})
    ensures Carried(s, DispatchAll(s, arrivals), l', {})
    decreases |arrivals|
  {
    hide Balanced, DispatchReply, HoldersOf;
    if arrivals == [] {
      l' := l;
    } else {
      var prefix := arrivals[..|arrivals| - 1];
      var l1 := DispatchAllCarries(s, l, prefix);
      l' := DispatchCarries(DispatchAll(s, prefix), l1, arrivals[|arrivals| - 1]);
      CarriedThen(s, DispatchAll(s, prefix), DispatchAll(s, arrivals), l1, {}, l', {});
    }
  }

  // ---------- the connect cycle ----------

  lemma WaitingResolved(s: State, r: ConnectResult)
    ensures Waiting(ResolvedSubs(s, r, r.subs.Keys)) == Waiting(s.subs) - r.subs.Keys * s.subs.Keys
  {}

  lemma RouteCarries(s: State, l: map<Handle, Place>, r: ConnectResult) returns (l': map<Handle, Place>)
    requires Balanced(HoldersOf(s), l, {})
    ensures Carried(s, ProcessServerSubs(s, r), l', {})
  {
    hide Balanced, ResolvedSubs, Waiting, Calling, Note, RefreshedServers, RefreshTimers, WaitersIn, InChannels;
    var k, t := HoldersOf(s), ProcessServerSubs(s, r);
    var chs := r.subs.Keys * s.subs.Keys;
    var hs := Drained(k, chs, {}, false);
    l' := DrainAndAnswer(k, l, {}, chs, {}, false);
    SetsAgree(s, chs);
    assert hs == WaitersIn(s.subs, chs);
    TellFinal(s.desk, hs, Done);
    WaitingResolved(s, r);
    assert k.pending - {} == k.pending;
    assert HoldersOf(t) == Emptied(k, chs, {}, false).(answered := k.answered + hs);
  }

  lemma ConnectWaitersCarries(s: State, l: map<Handle, Place>) returns (l': map<Handle, Place>)
    requires Balanced(HoldersOf(s), l, {})
    ensures Carried(s, AnswerConnectWaiters(s), l', {})
  {
    hide Balanced, Waiting, Calling;
    var k, t := HoldersOf(s), AnswerConnectWaiters(s);
    var hs := Drained(k, {}, {}, true);
    l' := DrainAndAnswer(k, l, {}, {}, {}, true);
    assert hs == SetOf(s.desk.connectWaiters);
    TellFinal(s.desk.(connectWaiters := []), hs, Done);
    assert k.pending - {} == k.pending && k.waiters - {} == k.waiters;
    assert HoldersOf(t) == Emptied(k, {}, {}, true).(answered := k.answered + hs);
  }

  lemma EstablishCarries(s: State, l: map<Handle, Place>, r: ConnectResult) returns (l': map<Handle, Place>)
    requires Balanced(HoldersOf(s), l, {})
    ensures Carried(s, Establish(s, r), l', {})
  {
    hide Balanced, ProcessServerSubs, Waiting, Calling;
    var s1 := MoveToConnected(EndHandshake(s), r);
    SameCarries(s, s1, l, {});
    l' := RouteCarries(s1, l, r);
    SameCarries(ProcessServerSubs(s1, r), Establish(s, r), l', {});
  }

  lemma {:induction false} ResubscribeCarries(s: State, l: map<Handle, Place>, plan: seq<Attempt>)
    returns (l': map<Handle, Place>)
    requires Balanced(HoldersOf(s), l, {}) && IdsFresh(s, ResubscribeAll(s, plan))
    ensures Carried(s, ResubscribeAll(s, plan), l', {})
    decreases |plan|
  {
    hide Balanced, DoSubscribe, HoldersOf, RequestIdentity.Identified;
    if plan == [] {
      l' := l;
    } else {
      var prefix, last := plan[..|plan| - 1], plan[|plan| - 1];
      RequestIdentity.ResubscribeKeeps(s, prefix);
      RequestIdentity.DoSubscribeKeeps(ResubscribeAll(s, prefix), last.channel, last.oracle);
      var l1 := ResubscribeCarries(s, l, prefix);
      l' := DoSubscribeCarries(ResubscribeAll(s, prefix), l1, {}, last.channel, last.oracle);
      CarriedThen(s, ResubscribeAll(s, prefix), ResubscribeAll(s, plan), l1, {}, l', {});
    }
  }

  lemma FailureCarries(s: State, l: map<Handle, Place>, err: ClientError) returns (l': map<Handle, Place>)
    requires Balanced(HoldersOf(s), l, {})
    ensures Carried(s, OnHandshakeFailure(s, err), l', {})
  {
    hide Balanced, MoveToDisconnected, Waiting, Calling;
    var s1 := EmitError(s.(link := Detach(s.link).(handshake := None)));
    SameCarries(s, s1, l, {});
    if err.Server? && err.error.code != Codes.TOKEN_EXPIRED && !Codes.IsTemporary(err.error.code, err.error.temporary) {
      l' := DisconnectedCarries(s1, l, {}, err.error.code);
      CarriedThen(s, s1, OnHandshakeFailure(s, err), l, {}, l', {});
    } else {
      l' := l;
      SameCarries(s, OnHandshakeFailure(s, err), l, {});
    }
  }

  lemma FinishCarries(s: State, l: map<Handle, Place>, r: Reply, plan: seq<Attempt>) returns (l': map<Handle, Place>)
    requires Balanced(HoldersOf(s), l, {}) && IdsFresh(s, FinishHandshake(s, r, plan))
    ensures Carried(s, FinishHandshake(s, r, plan), l', {})
  {
    hide Balanced, Establish, ResubscribeAll, OnHandshakeFailure, HoldersOf, RequestIdentity.Identified, Carried;
    match HandshakeResult(r) {
      case Err(e) => l' := FailureCarries(s, l, e);
      case Ok(result) =>
        var s1 := Establish(s, result);
        var s2 := ResubscribeAll(s1, plan);
        RequestIdentity.EstablishKeeps(s, result);
        assert RequestIdentity.Keeps(s, s1);
        var l1 := EstablishCarries(s, l, result);
        CarriedBalanced(s, s1, l1, {});
        var l2 := ResubscribeCarries(s1, l1, plan);
        CarriedBalanced(s1, s2, l2, {});
        l' := ConnectWaitersCarries(s2, l2);
        CarriedThen(s, s1, s2, l1, {}, l2, {});
        CarriedThen(s, s2, AnswerConnectWaiters(s2), l2, {}, l', {});
    }
  }

  lemma CarriedBalanced(s: State, t: State, l: map<Handle, Place>, loose: set<Handle>)
    requires Carried(s, t, l, loose)
    ensures Balanced(HoldersOf(t), l, loose)
  {}

  lemma HandshakeFrameCarries(s: State, l: map<Handle, Place>, id: nat, arrivals: seq<Arrival>, plan: seq<Attempt>)
    returns (l': map<Handle, Place>)
    requires Balanced(HoldersOf(s), l, {}) && IdsFresh(s, HandshakeFrame(s, id, arrivals, plan))
    ensures Carried(s, HandshakeFrame(s, id, arrivals, plan), l', {})
  {
    hide Balanced, DispatchAll, FinishHandshake, HoldersOf, RequestIdentity.Identified;
    var n := Before(arrivals, id);
    var s1 := DispatchAll(s, arrivals[..n]);
    RequestIdentity.DispatchAllKeeps(s, arrivals[..n]);
    l' := DispatchAllCarries(s, l, arrivals[..n]);
    if n < |arrivals| {
      var l1 := l';
      l' := FinishCarries(s1, l1, arrivals[n].reply, plan);
      CarriedThen(s, s1, HandshakeFrame(s, id, arrivals, plan), l1, {}, l', {});
    }
  }

  lemma RefreshTokenCarries(s: State, l: map<Handle, Place>, o: TokenOutcome) returns (l': map<Handle, Place>)
    requires Balanced(HoldersOf(s), l, {})
    ensures Carried(s, RefreshTokenIfNeeded(s, o).0, l', {})
  {
    hide Balanced, MoveToDisconnected, Waiting, Calling;
    if NeedsRefresh(s) && s.config.hasGetToken && !o.Broken? && (o.Denied? || o.token == "") {
      l' := DisconnectedCarries(s, l, {}, Codes.DISCONNECT_UNAUTHORIZED);
    } else {
      l' := l;
      SameCarries(s, RefreshTokenIfNeeded(s, o).0, l, {});
    }
  }

  lemma SendConnectCarries(s: State, l: map<Handle, Place>, fate: Fate) returns (l': map<Handle, Place>)
    requires Balanced(HoldersOf(s), l, {})
    ensures Carried(s, SendConnect(s, fate), l', {})
  {
    hide Balanced, SendCommand, OnHandshakeFailure, Waiting, Calling;
    var body := ConnectBodyOf(s);
    var (out, err) := SendCommand(s.out, s.link, Command(NextId(s.calls), body), fate);
    var s1 := s.(calls := Issue(s.calls, body, None), out := out);
    SameCarries(s, s1, l, {});
    if err.Some? {
      l' := FailureCarries(s1, l, err.value);
      CarriedThen(s, s1, SendConnect(s, fate), l, {}, l', {});
    } else {
      l' := l;
      SameCarries(s, SendConnect(s, fate), l, {});
    }
  }

  lemma BeginCarries(s: State, l: map<Handle, Place>, o: Opening) returns (l': map<Handle, Place>)
    requires Balanced(HoldersOf(s), l, {})
    ensures Carried(s, BeginAttempt(s, o), l', {})
  {
    hide Balanced, RefreshTokenIfNeeded, SendConnect, Waiting, Calling;
    var s0 := s.(link := s.link.(attempts := s.link.attempts + 1));
    SameCarries(s, s0, l, {});
    var s1 := RefreshTokenIfNeeded(s0, o.token).0;
    var l1 := RefreshTokenCarries(s0, l, o.token);
    var s2 := RefreshConnectData(Attach(s1), o.data);
    SameCarries(s1, s2, l1, {});
    SameCarries(s1, EmitError(s1), l1, {});
    l' := l1;
    if RefreshTokenIfNeeded(s0, o.token).1 && o.opens {
      l' := SendConnectCarries(s2, l1, o.fate);
      CarriedThen(s0, s2, BeginAttempt(s, o), l1, {}, l', {});
    }
  }

  // ---------- commands and timers ----------

  lemma AwaitCarries(s: State, l: map<Handle, Place>, h: Handle) returns (l': map<Handle, Place>)
    requires Balanced(HoldersOf(s), l, {h})
    ensures Carried(s, AwaitConnection(s, h), l', {})
  {
    hide Balanced, Waiting, Calling;
    AwaitBalanced(HoldersOf(s), l, {h}, h);
    l' := Settle(l, {h}, AtConnect);
    assert {h} - {h} == {};
    assert HoldersOf(AwaitConnection(s, h)) == HoldersOf(s).(connect := s.desk.connectWaiters + [h]);
  }

  lemma AttachCarries(s: State, l: map<Handle, Place>, ch: Channel, sub: SubState, h: Handle)
    returns (l': map<Handle, Place>)
    requires Balanced(HoldersOf(s), l, {h}) && ch in s.subs && sub.waiters == s.subs[ch].waiters + [h]
    ensures Carried(s, s.(subs := s.subs[ch := sub]), l', {})
  {
    hide Balanced, Calling;
    AttachBalanced(HoldersOf(s), l, {h}, ch, h);
    l' := Settle(l, {h}, AtSub(ch));
    WaitingSame(s.subs, ch, sub);
    assert {h} - {h} == {};
    assert (if ch in Waiting(s.subs) then Waiting(s.subs)[ch] else []) == s.subs[ch].waiters;
  }

  lemma SubscribeCarries(s: State, l: map<Handle, Place>, ch: Channel, h: Handle, fate: Fate)
    returns (l': map<Handle, Place>)
    requires Balanced(HoldersOf(s), l, {h}) && IdsFresh(s, HandleSubscribe(s, ch, h, fate))
    ensures Carried(s, HandleSubscribe(s, ch, h, fate), l', {})
  {
    hide Balanced, SendSubscribe, HoldersOf, RequestIdentity.Identified;
    assert {h} - {h} == {};
    if ch !in s.subs {
      l' := RespondCarries(s, l, {h}, h, Failed(SubscriptionUnsubscribed));
    } else if s.subs[ch].state.Subscribed? {
      l' := RespondCarries(s, l, {h}, h, Done);
    } else if s.subs[ch].state.Subscribing? {
      l' := AttachCarries(s, l, ch, s.subs[ch].(waiters := s.subs[ch].waiters + [h]), h);
    } else {
      var sub := BackToSubscribing(s.subs[ch].(attempts := 0), Codes.SUBSCRIBE_CALLED);
      if s.link.phase.Connected? {
        l' := SendSubscribeCarries(s, l, {h}, ch, sub, Some(h), fate);
      } else {
        l' := AttachCarries(s, l, ch, sub.(waiters := sub.waiters + [h]), h);
      }
    }
  }

  lemma UnsubscribeSentCarries(s: State, l: map<Handle, Place>, loose: set<Handle>, ch: Channel, fate: Fate)
    requires Balanced(HoldersOf(s), l, loose)
    ensures Carried(s, SendUnsubscribe(s, ch, fate), l, loose)
  {}

  lemma UnsubscribeCarries(s: State, l: map<Handle, Place>, ch: Channel, h: Handle, fate: Fate)
    returns (l': map<Handle, Place>)
    requires Balanced(HoldersOf(s), l, {h})
    ensures Carried(s, HandleUnsubscribe(s, ch, h, fate), l', {})
  {
    hide Balanced, SendUnsubscribe, OnTransportClose, HoldersOf;
    assert {h} - {h} == {};
    if ch !in s.subs {
      l' := RespondCarries(s, l, {h}, h, Done);
    } else {
      var s1 := s.(subs := s.subs[ch := Leave(s.subs[ch], Codes.UNSUBSCRIBE_CALLED)]);
      SubChangeCarries(s, s1, l, {h}, ch);
      if s.subs[ch].state.Subscribed? && s.link.phase.Connected? {
        var s2 := SendUnsubscribe(s1, ch, fate);
        UnsubscribeSentCarries(s1, l, {h}, ch, fate);
        var l1 := RespondCarries(s2, l, {h}, h, Done);
        var s3 := Respond(s2, h, Done);
        CarriedThen(s1, s2, s3, l, {h}, l1, {});
        l' := l1;
        if SendFails(s1, UnsubscribeBody(ch), fate) {
          l' := TransportCloseCarries(s3, l1, {}, Codes.UNSUBSCRIBE_ERROR, true);
          CarriedThen(s1, s3, HandleUnsubscribe(s, ch, h, fate), l1, {}, l', {});
        }
      } else {
        l' := RespondCarries(s1, l, {h}, h, Done);
      }
      CarriedThen(s, s1, HandleUnsubscribe(s, ch, h, fate), l, {h}, l', {});
    }
  }

  lemma ForgetCarries(s: State, l: map<Handle, Place>, loose: set<Handle>, ch: Channel) returns (l': map<Handle, Place>)
    requires Balanced(HoldersOf(s), l, loose) && ch in s.subs
    ensures Carried(s, Forget(s, ch), l', loose)
  {
    hide Balanced;
    var k, t := HoldersOf(s), Forget(s, ch);
    var hs := Drained(k, {ch}, {}, false);
    SetsAgree(s, {ch});
    assert hs == SetOf(s.subs[ch].waiters);
    assert Waiting(t.subs) == Waiting(s.subs) - {ch};
    assert k.pending - {} == k.pending;
    if s.subs[ch].state.Unsubscribed? {
      DrainBalanced(k, l, loose, {ch}, {}, false);
      DrainedFrom(k, l, loose, {ch}, {}, false);
      LoseBalanced(Emptied(k, {ch}, {}, false), l - hs, loose + hs, hs);
      l' := Settle(l - hs, hs, Lost);
      assert loose + hs - hs == loose;
      assert HoldersOf(t) == Emptied(k, {ch}, {}, false).(dropped := k.dropped + hs);
    } else {
      l' := DrainAndAnswer(k, l, loose, {ch}, {}, false);
      TellFinal(s.desk, hs, Failed(SubscriptionUnsubscribed));
      assert HoldersOf(t) == Emptied(k, {ch}, {}, false).(answered := k.answered + hs);
    }
  }

  lemma RemoveCarries(s: State, l: map<Handle, Place>, ch: Channel, h: Handle, fate: Fate)
    returns (l': map<Handle, Place>)
    requires Balanced(HoldersOf(s), l, {h})
    ensures Carried(s, HandleRemoveSubscription(s, ch, h, fate), l', {})
  {
    hide Balanced, SendUnsubscribe, Forget, HoldersOf;
    assert {h} - {h} == {};
    if ch !in s.subs {
      l' := RespondCarries(s, l, {h}, h, Done);
    } else {
      var s1 := Forget(s, ch);
      var l1 := ForgetCarries(s, l, {h}, ch);
      UnsubscribeSentCarries(s1, l1, {h}, ch, fate);
      var s2 := if s.subs[ch].state.Subscribed? && s.link.phase.Connected? then SendUnsubscribe(s1, ch, fate) else s1;
      l' := RespondCarries(s2, l1, {h}, h, Done);
      CarriedThen(s1, s2, Respond(s2, h, Done), l1, {h}, l', {});
      CarriedThen(s, s1, HandleRemoveSubscription(s, ch, h, fate), l1, {h}, l', {});
    }
  }

  lemma NewCarries(s: State, l: map<Handle, Place>, ch: Channel, config: SubscriptionConfig, h: Handle)
    returns (l': map<Handle, Place>)
    requires Balanced(HoldersOf(s), l, {h})
    ensures Carried(s, HandleNewSubscription(s, ch, config, h), l', {})
  {
    hide Balanced, Waiting, Calling;
    assert {h} - {h} == {};
    if ch in s.subs {
      l' := RespondCarries(s, l, {h}, h, Failed(DuplicateSubscription));
    } else {
      var s1 := s.(subs := s.subs[ch := NewSub(config)]);
      WaitingSame(s.subs, ch, NewSub(config));
      SameCarries(s, s1, l, {h});
      l' := RespondCarries(s1, l, {h}, h, Done);
    }
  }

  lemma ConnectCarries(s: State, l: map<Handle, Place>, h: Handle) returns (l': map<Handle, Place>)
    requires Balanced(HoldersOf(s), l, {h})
    ensures Carried(s, HandleConnect(s, h), l', {})
  {
    hide Balanced, Waiting, Calling;
    assert {h} - {h} == {};
    match s.link.phase {
      case Connected => l' := RespondCarries(s, l, {h}, h, Done);
      case Closed => l' := RespondCarries(s, l, {h}, h, Failed(ClientClosed));
      case _ =>
        l' := AwaitCarries(s, l, h);
        SameCarries(AwaitConnection(s, h), HandleConnect(s, h), l', {});
    }
  }

  lemma CommandCarries(s: State, l: map<Handle, Place>, c: ActorCommand, fate: Fate) returns (l': map<Handle, Place>)
    requires Balanced(HoldersOf(s), l, OptionSet(ReplyHandle(c))) && IdsFresh(s, HandleCommand(s, c, fate))
    ensures Carried(s, HandleCommand(s, c, fate), l', {})
  {
    hide Balanced, Transact, MoveToDisconnected, MoveToClosed, HandleConnect, HandleSubscribe, HandleUnsubscribe,
         HandleRemoveSubscription, HandleNewSubscription, Waiting, Calling, RequestIdentity.Identified, SendCommand;
    match c {
      case Connect(h) => l' := ConnectCarries(s, l, h);
      case Disconnect(h) =>
        var l1 := DisconnectedCarries(s, l, {h}, Codes.DISCONNECT_CALLED);
        l' := RespondCarries(MoveToDisconnected(s, Codes.DISCONNECT_CALLED), l1, {h}, h, Done);
        assert {h} - {h} == {};
        CarriedThen(s, MoveToDisconnected(s, Codes.DISCONNECT_CALLED), HandleCommand(s, c, fate), l1, {h}, l', {});
      case Close(h) =>
        var l1 := ClosedCarries(s, l, {h});
        l' := RespondCarries(MoveToClosed(s), l1, {h}, h, Done);
        assert {h} - {h} == {};
        CarriedThen(s, MoveToClosed(s), HandleCommand(s, c, fate), l1, {h}, l', {});
      case NewSubscription(ch, config, h) => l' := NewCarries(s, l, ch, config, h);
      case GetSubscription(ch, h) =>
        l' := RespondCarries(s, l, {h}, h, Found(ch in s.subs));
        assert {h} - {h} == {};
      case ListSubscriptions(h) =>
        l' := RespondCarries(s, l, {h}, h, Listing(map ch | ch in s.subs :: s.subs[ch].state));
        assert {h} - {h} == {};
      case RemoveSubscription(ch, h) => l' := RemoveCarries(s, l, ch, h, fate);
      case Subscribe(ch, h) => l' := SubscribeCarries(s, l, ch, h, fate);
      case Unsubscribe(ch, h) => l' := UnsubscribeCarries(s, l, ch, h, fate);
      case SendRequest(payload, h) =>
        assert {h} - {h} == {};
        if s.link.phase.Connected? {
          TransactIssues(s, RequestBody(payload), AwaitReply(h), fate);
          NextIsFree(s, HandleCommand(s, c, fate));
          l' := TransactCarries(s, l, {h}, RequestBody(payload), AwaitReply(h), fate);
        } else {
          l' := RespondCarries(s, l, {h}, h, Failed(ClientDisconnected));
        }
      case _ =>
        l' := l;
        SameCarries(s, HandleCommand(s, c, fate), l, {});
    }
  }

  lemma TimeoutCarries(s: State, l: map<Handle, Place>, id: nat) returns (l': map<Handle, Place>)
    requires Balanced(HoldersOf(s), l, {})
    ensures Carried(s, HandleRequestTimeout(s, id), l', {})
  {
    hide Balanced, OnTransportClose, Waiting, Calling, HoldersOf, DrainWaiters;
    l' := l;
    if id in s.calls.pending {
      var req := s.calls.pending[id];
      var hs := OptionSet(CallerOf(req));
      var s1 := TakeOut(s, id);
      var l1 := TakeOutCarries(s, l, {}, id);
      assert {} + hs == hs && hs - hs == {};
      var s2 := s1.(desk := Tell(s1.desk, hs, Failed(Timeout)));
      var l2 := TellCarries(s1, l1, hs, hs, Failed(Timeout));
      CarriedThen(s, s1, s2, l1, hs, l2, {});
      l' := l2;
      if req.AwaitSubscribe? && req.channel in s.subs {
        var s3 := DrainWaiters(s2, req.channel, Timeout);
        var l3 := DrainCarries(s2, l2, req.channel);
        l' := TransportCloseCarries(s3, l3, {}, Codes.SUBSCRIBE_TIMEOUT, true);
        CarriedThen(s, s2, s3, l2, {}, l3, {});
        CarriedThen(s, s3, HandleRequestTimeout(s, id), l3, {}, l', {});
      }
    }
  }

  lemma DrainCarries(s: State, l: map<Handle, Place>, ch: Channel) returns (l': map<Handle, Place>)
    requires Balanced(HoldersOf(s), l, {}) && ch in s.subs
    ensures Carried(s, DrainWaiters(s, ch, Timeout), l', {})
  {
    hide Balanced, HoldersOf;
    l' := ChannelCarries(s, DrainWaiters(s, ch, Timeout), l, {}, ch, Failed(Timeout));
  }

  lemma RefreshCarries(s: State, l: map<Handle, Place>, o: TokenOutcome, fate: Fate) returns (l': map<Handle, Place>)
    requires Balanced(HoldersOf(s), l, {}) && IdsFresh(s, DoRefreshToken(s, o, fate))
    ensures Carried(s, DoRefreshToken(s, o, fate), l', {})
  {
    hide Balanced, Transact, MoveToDisconnected, Waiting, Calling, RequestIdentity.Identified, SendCommand;
    var t := DoRefreshToken(s, o, fate);
    if s.link.phase.Connected? && s.config.hasGetToken && !o.Broken? && (o.Denied? || o.token == "") {
      l' := DisconnectedCarries(s, l, {}, Codes.DISCONNECT_UNAUTHORIZED);
    } else if !s.link.phase.Connected? || (s.config.hasGetToken && o.Broken?) {
      l' := l;
      SameCarries(s, t, l, {});
    } else {
      var s1 := if s.config.hasGetToken then s.(config := s.config.(token := o.token)) else s;
      var body := RefreshBody(s1.config.token);
      var s2 := Transact(s1, body, AwaitRefresh, fate);
      SameCarries(s, s1, l, {});
      TransactIssues(s1, body, AwaitRefresh, fate);
      NextIsFree(s, t);
      l' := TransactCarries(s1, l, {}, body, AwaitRefresh, fate);
      assert {} - OptionSet<Handle>(None) == {};
      SameCarries(s2, t, l', {});
      CarriedThen(s1, s2, t, l', {}, l', {});
    }
  }

  lemma RefreshSubCarries(s: State, l: map<Handle, Place>, ch: Channel, o: TokenOutcome, fate: Fate)
    returns (l': map<Handle, Place>)
    requires Balanced(HoldersOf(s), l, {}) && IdsFresh(s, DoRefreshSubToken(s, ch, o, fate))
    ensures Carried(s, DoRefreshSubToken(s, ch, o, fate), l', {})
  {
    hide Balanced, Transact, Expel, HoldersOf, RequestIdentity.Identified;
    var t := DoRefreshSubToken(s, ch, o, fate);
    if !s.link.phase.Connected? || ch !in s.subs || !s.subs[ch].state.Subscribed? || !s.subs[ch].config.hasGetToken {
      l' := l;
    } else if o.Broken? {
      l' := l;
      SubChangeCarries(s, t, l, {}, ch);
    } else if o.Denied? || o.token == "" {
      l' := ExpelCarries(s, l, {}, ch, Codes.UNSUBSCRIBED_UNAUTHORIZED, Unauthorized);
    } else {
      var s1 := s.(subs := s.subs[ch := s.subs[ch].(token := o.token)]);
      SubChangeCarries(s, s1, l, {}, ch);
      TransactIssues(s1, SubRefreshBody(ch, o.token), AwaitSubRefresh(ch), fate);
      NextIsFree(s, t);
      l' := TransactCarries(s1, l, {}, SubRefreshBody(ch, o.token), AwaitSubRefresh(ch), fate);
      assert {} - OptionSet<Handle>(None) == {};
      CarriedThen(s, s1, t, l, {}, l', {});
    }
  }

  lemma TimerCarries(s: State, l: map<Handle, Place>, t: Timer, o: Oracle) returns (l': map<Handle, Place>)
    requires Balanced(HoldersOf(s), l, {}) && IdsFresh(s, HandleTimer(s, t, o))
    ensures Carried(s, HandleTimer(s, t, o), l', {})
  {
    hide Balanced, DoSubscribe, HandleRequestTimeout, DoRefreshToken, DoRefreshSubToken, HoldersOf,
         RequestIdentity.Identified;
    match t {
      case Resubscribe(ch) =>
        l' := l;
        if s.link.phase.Connected? {
          l' := DoSubscribeCarries(s, l, {}, ch, o);
        }
      case RequestTimeout(id) => l' := TimeoutCarries(s, l, id);
      case RefreshToken => l' := RefreshCarries(s, l, o.token, o.fate);
      case RefreshSubToken(ch) => l' := RefreshSubCarries(s, l, ch, o.token, o.fate);
    }
  }

  // ---------- runs ----------

  lemma AskCarries(s: State, l: map<Handle, Place>, c: ActorCommand, fate: Fate) returns (l': map<Handle, Place>)
    requires Balanced(HoldersOf(s), l, {}) && Enabled(s, Ask(c, fate)) && IdsFresh(s, Step(s, Ask(c, fate)))
    ensures Carried(s, Step(s, Ask(c, fate)), l', {})
  {
    hide HandleCommand, Waiting, Calling, RequestIdentity.Identified;
    var s1 := Admit(s, ReplyHandle(c));
    assert Balanced(HoldersOf(s1), l, OptionSet(ReplyHandle(c))) by { AdmitBalanced(s, l, ReplyHandle(c)); }
    RequestIdentity.CommandKeeps(s1, c, fate);
    assert RequestIdentity.Identified(s1) by { AdmitIdentified(s, ReplyHandle(c)); }
    l' := CommandCarries(s1, l, c, fate);
    FinalTransitive(s.desk, s1.desk, Step(s, Ask(c, fate)).desk);
  }

  lemma AdmitBalanced(s: State, l: map<Handle, Place>, h: Option<Handle>)
    requires Balanced(HoldersOf(s), l, {}) && OptionSet(h) !! s.desk.callers
    ensures Balanced(HoldersOf(Admit(s, h)), l, OptionSet(h))
  {
    var k, k' := HoldersOf(s), HoldersOf(Admit(s, h));
    forall x | x in l
      ensures Holds(k', x, l[x])
    {
      assert Holds(k, x, l[x]);
    }
  }

  lemma AdmitIdentified(s: State, h: Option<Handle>)
    requires RequestIdentity.Identified(s)
    ensures RequestIdentity.Identified(Admit(s, h))
  {}

  lemma FireCarries(s: State, l: map<Handle, Place>, t: Timer, o: Oracle) returns (l': map<Handle, Place>)
    requires Balanced(HoldersOf(s), l, {}) && Enabled(s, Fire(t, o)) && IdsFresh(s, Step(s, Fire(t, o)))
    ensures Carried(s, Step(s, Fire(t, o)), l', {})
  {
    hide Balanced, HandleTimer, Waiting, Calling;
    var s1 := Disarm(s, t);
    SameCarries(s, s1, l, {});
    l' := TimerCarries(s1, l, t, o);
  }

  lemma StepCarries(s: State, l: map<Handle, Place>, i: Input) returns (l': map<Handle, Place>)
    requires Balanced(HoldersOf(s), l, {}) && IdsFresh(s, Step(s, i))
    ensures Carried(s, Step(s, i), l', {})
  {
    hide Balanced, HandleCommand, HandleTimer, BeginAttempt, HandshakeFrame, OnHandshakeFailure, DispatchAll,
         OnTransportClose, HoldersOf, RequestIdentity.Identified;
    l' := l;
    if Enabled(s, i) {
      match i {
        case Ask(c, fate) => l' := AskCarries(s, l, c, fate);
        case Fire(t, o) => l' := FireCarries(s, l, t, o);
        case Open(o) => l' := BeginCarries(s, l, o);
        case Shake(arrivals, plan) => l' := HandshakeFrameCarries(s, l, s.link.handshake.value, arrivals, plan);
        case ShakeFails(e) => l' := FailureCarries(s, l, e);
        case Data(arrivals) => l' := DispatchAllCarries(s, l, arrivals);
        case BadData => l' := TransportCloseCarries(s, l, {}, Codes.BAD_PROTOCOL, false);
        case TransportClosed(code, reconnect) => l' := TransportCloseCarries(s, l, {}, code, reconnect);
        case PingTimeout => l' := TransportCloseCarries(s, l, {}, Codes.NO_PING, true);
      }
    }
  }

  lemma {:induction false} RunBalanced(config: ClientConfig, inputs: seq<Input>) returns (l: map<Handle, Place>)
    requires |Run(Init(config), inputs).calls.issued| < TWO_32
    ensures Balanced(HoldersOf(Run(Init(config), inputs)), l, {})
    decreases |inputs|
  {
    hide Balanced, Step, HoldersOf, RequestIdentity.Identified;
    if inputs == [] {
      l := map[];
      InitBalanced(config);
    } else {
      var prefix := inputs[..|inputs| - 1];
      var s := Run(Init(config), prefix);
      RequestIdentity.StepKeeps(s, inputs[|inputs| - 1]);
      var l1 := RunBalanced(config, prefix);
      RequestIdentity.RunIdentified(config, prefix);
      l := StepCarries(s, l1, inputs[|inputs| - 1]);
    }
  }

  lemma InitBalanced(config: ClientConfig)
    ensures Balanced(HoldersOf(Init(config)), map[], {})
  {}

  /**
   Caller conservation: after every run with fewer than 2^32 commands, each handle ever
   passed in is in exactly one place, once, and no other handle is anywhere.
   */
  lemma EveryCallerInOnePlace(config: ClientConfig, inputs: seq<Input>)
    requires |Run(Init(config), inputs).calls.issued| < TWO_32
    ensures var s := Run(Init(config), inputs);
            var k := HoldersOf(s);
            && (forall h :: h in s.desk.callers ==> exists p :: Holds(k, h, p))
            && (forall h, p :: Holds(k, h, p) ==> h in s.desk.callers)
            && (forall h, p, q :: Holds(k, h, p) && Holds(k, h, q) ==> p == q)
            && Distinct(s.desk.connectWaiters)
            && (forall ch :: ch in s.subs ==> Distinct(s.subs[ch].waiters))
  {
    hide Balanced, Step, Run, Holds, Distinct, Waiting;
    var l := RunBalanced(config, inputs);
    var s := Run(Init(config), inputs);
    OnePlaceEach(HoldersOf(s), l);
    WaitersDistinct(s.subs);
  }

  lemma OnePlaceEach(k: Holders, l: map<Handle, Place>)
    requires Balanced(k, l, {})
    ensures forall h :: h in k.callers ==> exists p :: Holds(k, h, p)
    ensures forall h, p :: Holds(k, h, p) ==> h in k.callers
    ensures forall h, p, q :: Holds(k, h, p) && Holds(k, h, q) ==> p == q
    ensures Distinct(k.connect) && forall ch :: ch in k.waiters ==> Distinct(k.waiters[ch])
  {}

  lemma WaitersDistinct(subs: map<Channel, SubState>)
    requires forall ch :: ch in Waiting(subs) ==> Distinct(Waiting(subs)[ch])
    ensures forall ch :: ch in subs ==> Distinct(subs[ch].waiters)
  {
    forall ch | ch in subs
      ensures Distinct(subs[ch].waiters)
    {
      if subs[ch].waiters != [] {
        assert ch in Waiting(subs);
      }
    }
  }

  /** Answers are final over every continuation of a run. */
  lemma {:induction false} AnswersAreFinal(config: ClientConfig, inputs: seq<Input>, more: seq<Input>)
    requires |Run(Run(Init(config), inputs), more).calls.issued| < TWO_32
    ensures Final(Run(Init(config), inputs).desk, Run(Run(Init(config), inputs), more).desk)
    decreases |more|
  {
    hide Balanced, Step, HoldersOf, RequestIdentity.Identified;
    if more != [] {
      var prefix := more[..|more| - 1];
      var s := Run(Run(Init(config), inputs), prefix);
      RequestIdentity.StepKeeps(s, more[|more| - 1]);
      AnswersAreFinal(config, inputs, prefix);
      RunConcat(Init(config), inputs, prefix);
      RequestIdentity.RunIdentified(config, inputs + prefix);
      var l := RunBalanced(config, inputs + prefix);
      var l' := StepCarries(s, l, more[|more| - 1]);
      FinalTransitive(Run(Init(config), inputs).desk, s.desk, Step(s, more[|more| - 1]).desk);
    }
  }

  lemma {:induction false} RunConcat(s: State, a: seq<Input>, b: seq<Input>)
    ensures Run(s, a + b) == Run(Run(s, a), b)
    decreases |b|
  {
    hide Step;
    if b == [] {
      assert a + b == a;
    } else {
      assert (a + b)[..|a + b| - 1] == a + b[..|b| - 1];
      RunConcat(s, a, b[..|b| - 1]);
    }
  }
}
