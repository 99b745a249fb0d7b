/**
 The usual subscription is recoverable and names no position: an accepted result gives it the one
 it will recover from. Requests that it sent before are what can still make it skip entries, and
 from any point of a run on nothing is missed exactly if no such request is outstanding.
 */
module Anchoring {
  import opened Prelude
  import opened Lines
  import opened Protocol
  import opened Subscriptions
  import opened ActorState
  import opened RequestIdentity
  import opened SubHistory
  import opened RecoveryRequests
  import opened Recovery
  import opened GapFree
  import JointInvariant
  import Outbox

  /** If `body` asks for the channel, it asks for recovery. */
  predicate NamesPosition(body: Body, ch: Channel) {
    match body
    case SubscribeBody(r) => r.channel == ch ==> r.recover
    case ConnectBody(_, _, subs) => ch in subs ==> subs[ch].recover
    case _ => true
  }

  /** Every request for the channel that is yet to be sent or served names a position. */
  ghost predicate AllNamed(s: State, cursor: nat, ch: Channel) {
    && (forall i :: 0 <= i < |s.out.batch.queue| ==> NamesPosition(s.out.batch.queue[i].command.body, ch))
    && (s.link.stream ==> forall i :: cursor <= i < |s.out.wire| ==>
        NamesPosition(s.out.wire[i].outgoing.command.body, ch))
  }

  /** No request without a position is outstanding, and no answer in flight skips an entry. */
  ghost predicate Settles(w: World, topic: Topic)
    requires topic.channel in w.client.subs
  {
    && AllNamed(w.client, w.broker.cursor, topic.channel)
    && Flows(w.client.calls.issued, topic, w.broker.log, Here(w.client, topic), w.broker.down, true)
  }

  /** The subscription is there and has a position. */
  predicate HasPosition(s: State, ch: Channel) { ch in s.subs && CanRecover(s.subs[ch]) }

  // ---------- nothing is missed from here on ----------

  lemma SettledInv(w: World, topic: Topic)
    requires Inv(w, topic, None) && HasPosition(w.client, topic.channel) && Settles(w, topic)
    ensures Inv(w, topic, Some(w.client.subs[topic.channel].offset))
  {
    hide JointInvariant.Joint, Identified, Outbox.Tidy, Ready, Holds, Flows, Mail, Session, CatchesUp, AllNamed;
    var s, b := w.client, w.broker;
    ReadyAnchored(s, WatchOf(s, b, topic, false));
    SettledReady(s, WatchOf(s, b, topic, false));
    SettledHolds(s, WatchOf(s, b, topic, false), topic, b.log);
  }

  lemma SettledReady(s: State, v: Watch)
    requires Ready(s, v) && CanRecover(s.subs[v.channel]) && AllNamed(s, v.cursor, v.channel)
    ensures Ready(s, v.(strict := true))
  {
    var w := v.(strict := true);
    assert forall pending, x, cmd: Command :: Tracked(pending, v, x, cmd) && NamesPosition(cmd.body, v.channel) ==>
        Tracked(pending, w, x, cmd);
  }

  lemma SettledHolds(s: State, v: Watch, topic: Topic, log: seq<Bytes>)
    requires Anchored(s, v) && v.channel == topic.channel && v.epoch == topic.epoch
    requires CanRecover(s.subs[topic.channel]) && Holds(s.subs[topic.channel], topic, None, log)
    ensures Holds(s.subs[topic.channel], topic, Some(s.subs[topic.channel].offset), log)
  {
    hide Deliveries;
  }

  /**
   From any point of any run at which the subscription has a position and no request without one
   is outstanding, no later entry is ever missed.
   */
  lemma NoEntryMissedSince(
      config: ClientConfig, topic: Topic, sub: SubscriptionConfig, log: seq<Bytes>, early: seq<Move>, moves: seq<Move>)
    requires Begins(sub, topic, log) && config.protocol == topic.protocol
    requires var w := Play(Start(config, topic, sub, log), topic, early);
      && HasPosition(w.client, topic.channel) && Settles(w, topic)
      && |Play(w, topic, moves).client.calls.issued| < TWO_32
    ensures var w := Play(Start(config, topic, sub, log), topic, early);
      Kept(Play(w, topic, moves), topic, w.client.subs[topic.channel].offset)
  {
    hide Play, Start, Inv, Kept, Settles;
    var w := Play(Start(config, topic, sub, log), topic, early);
    PlayedInv(config, topic, sub, log, early, moves);
    SettledInv(w, topic);
    PlayInv(w, topic, Some(w.client.subs[topic.channel].offset), moves);
    InvKept(Play(w, topic, moves), topic, w.client.subs[topic.channel].offset);
  }

  /** What holds of client and server after every run, wherever the subscription starts. */
  lemma PlayedInv(
      config: ClientConfig, topic: Topic, sub: SubscriptionConfig, log: seq<Bytes>, early: seq<Move>, moves: seq<Move>)
    requires Begins(sub, topic, log) && config.protocol == topic.protocol
    requires |Play(Play(Start(config, topic, sub, log), topic, early), topic, moves).client.calls.issued| < TWO_32
    ensures Inv(Play(Start(config, topic, sub, log), topic, early), topic, None)
  {
    hide Play, Start, Inv;
    PlayIssues(Play(Start(config, topic, sub, log), topic, early), topic, moves);
    StartInv(config, topic, sub, None, log);
    PlayInv(Start(config, topic, sub, log), topic, None, early);
  }

  lemma {:induction false} PlayIssues(w: World, topic: Topic, moves: seq<Move>)
    ensures w.client.calls.issued <= Play(w, topic, moves).client.calls.issued
    decreases |moves|
  {
    hide Possible, Next;
    if moves != [] {
      PlayIssues(w, topic, moves[..|moves| - 1]);
      PlayGrows(w, topic, moves[..|moves| - 1], moves[|moves| - 1]);
    }
  }

  // ---------- a position from the connect reply ----------

  lemma UnnumberedReady(s: State, v: Watch)
    requires Ready(s, v) && NothingNumbered(s, v.cursor) && CanRecover(s.subs[v.channel]) && |s.calls.issued| < TWO_32
    ensures Ready(s, v.(strict := true, connects := false))
  {}

  lemma StrictNames(s: State, v: Watch)
    requires Ready(s, v) && v.strict && |s.calls.issued| < TWO_32
    ensures AllNamed(s, v.cursor, v.channel)
  {}

  /** Replies without an id skip nothing. */
  lemma PushesSettle(issued: seq<Issued>, topic: Topic, log: seq<Bytes>, m: Mark, down: seq<Reply>)
    requires Flows(issued, topic, log, m, down, false) && forall k :: 0 <= k < |down| ==> down[k].id == 0
    ensures Flows(issued, topic, log, m, down, true)
  {
    hide Reach, IsEntry;
    forall k | 0 <= k < |down|
      ensures GoesOn(issued, topic, log, Reach(issued, topic, m, down[..k]), down[k], true)
    {
      assert GoesOn(issued, topic, log, Reach(issued, topic, m, down[..k]), down[k], false);
    }
  }

  /** Nothing with an id follows the connect reply, as no id was taken after its own. */
  lemma PushesFollow(s: State, b: Broker, topic: Topic)
    requires Mail(s, b, topic) && Identified(s) && |s.calls.issued| < TWO_32
    requires b.down != [] && b.down[0].id == |s.calls.issued|
    ensures forall k :: 0 <= k < |b.down[1..]| ==> b.down[1..][k].id == 0
  {
    MailIds(s, b, topic);
    assert forall k :: 0 <= k < |b.down[1..]| ==> b.down[1..][k] == b.down[k + 1];
  }

  /** After a connect result that leaves the subscription with a position only requests with one are written. */
  lemma ResultNames(s: State, result: ConnectResult, plan: seq<Attempt>, v: Watch)
    requires Ready(s, v) && NothingNumbered(s, v.cursor) && |s.calls.issued| < TWO_32
    requires var s1 := Establish(s, result);
      && v.channel in s1.subs && CanRecover(s1.subs[v.channel]) && Placed(s1.subs[v.channel], v)
      && s.subs[v.channel].offset <= s1.subs[v.channel].offset
    requires |OnHandshakeSuccess(s, result, plan).calls.issued| < TWO_32
    ensures AllNamed(OnHandshakeSuccess(s, result, plan), v.cursor, v.channel)
  {
    hide Establish, ResubscribeAll, Ready, CanRecover, Placed, NothingNumbered, AllNamed;
    var s1 := Establish(s, result);
    var s2 := ResubscribeAll(s1, plan);
    EstablishReady(s, result, v);
    SameOutUnnumbered(s, s1, v.cursor);
    UnnumberedReady(s1, v);
    ResubscribeReady(s1, plan, v.(strict := true, connects := false));
    SameReady(s2, AnswerConnectWaiters(s2), v.(strict := true, connects := false));
    StrictNames(AnswerConnectWaiters(s2), v.(strict := true, connects := false));
  }

  lemma SameOutUnnumbered(s: State, t: State, cursor: nat)
    requires NothingNumbered(s, cursor) && t.out == s.out
    ensures NothingNumbered(t, cursor)
  {}

  /** A successful handshake that leaves the subscription with a position leaves no request without one. */
  lemma SuccessNames(s: State, b: Broker, result: ConnectResult, plan: seq<Attempt>, topic: Topic)
    requires Reads(s, b, topic, None)
    requires b.down != [] && s.link.handshake == Some(b.down[0].id) && b.down[0].id == |s.calls.issued|
    requires HandshakeResult(b.down[0]) == Ok(result) && |OnHandshakeSuccess(s, result, plan).calls.issued| < TWO_32
    requires HasPosition(OnHandshakeSuccess(s, result, plan), topic.channel)
    ensures AllNamed(OnHandshakeSuccess(s, result, plan), b.cursor, topic.channel)
  {
    hide Identified, Outbox.Tidy, Ready, Holds, Flows, Mail, Establish, ResubscribeAll, Continues, Placed, CanRecover,
         NothingNumbered;
    var v := WatchOf(s, b, topic, false);
    ReadsAnchored(s, b, topic, None);
    AwaitedFits(s, b, topic, false);
    ConnectRead(s, b, topic);
    EstablishHolds(s, result, v, topic, None, b.log);
    PositionUnmoved(Establish(s, result), plan, topic.channel);
    ResultNames(s, result, plan, v);
  }

  lemma PositionUnmoved(s: State, plan: seq<Attempt>, ch: Channel)
    requires ch in s.subs
    ensures HasPosition(AnswerConnectWaiters(ResubscribeAll(s, plan)), ch) == HasPosition(s, ch)
  {
    hide ResubscribeAll, Deliveries;
    ResubscribeUnmoved(s, plan, ch);
    HistoryUpToOne(s, ch);
  }

  /** The frame a move delivers ends the handshake well. */
  predicate Connects(w: World, fates: seq<Fate>)
    requires |fates| <= |w.broker.down|
  {
    && w.client.link.handshake.Some?
    && var arrivals := Frame(w.broker.down, fates);
       var n := Before(arrivals, w.client.link.handshake.value);
       n < |arrivals| && HandshakeResult(arrivals[n].reply).Ok?
  }

  /**
   Whenever a handshake ends well and the subscription has a position, be it from the connect
   result itself, no request without a position is outstanding.
   */
  lemma ConnectSettles(w: World, topic: Topic, fates: seq<Fate>, plan: seq<Attempt>)
    requires Inv(w, topic, None) && Possible(w, topic, Deliver(fates, plan)) && Connects(w, fates)
    requires |Next(w, topic, Deliver(fates, plan)).client.calls.issued| < TWO_32
    requires HasPosition(Next(w, topic, Deliver(fates, plan)).client, topic.channel)
    ensures Settles(Next(w, topic, Deliver(fates, plan)), topic)
  {
    hide Inv, Possible, Next, Frame, DispatchAll, AllNamed, HasPosition, FinishHandshake;
    var s, b := w.client, w.broker;
    DeliverBounds(w, topic, fates, plan);
    var arrivals := Frame(b.down, fates);
    var n := Before(arrivals, s.link.handshake.value);
    var s1 := DispatchAll(s, arrivals[..n]);
    ShakeNext(w, topic, fates, plan);
    hide Step;
    NextInv(w, topic, None, Deliver(fates, plan));
    AwaitedSettles(w, topic, fates, plan);
    RejoinCases(s, FinishHandshake(s1, arrivals[n].reply, plan), b.(down := b.down[|fates|..]));
    hide Rejoin;
    SettledAfter(Next(w, topic, Deliver(fates, plan)), b.cursor, topic);
  }

  /** The same of the state that follows the awaited reply. */
  lemma AwaitedSettles(w: World, topic: Topic, fates: seq<Fate>, plan: seq<Attempt>)
    requires Inv(w, topic, None) && |fates| <= |w.broker.down| && w.client.link.stream && Connects(w, fates)
    requires Before(Frame(w.broker.down, fates), w.client.link.handshake.value) == |fates| - 1
    requires var arrivals := Frame(w.broker.down, fates);
      var t := FinishHandshake(DispatchAll(w.client, arrivals[..|fates| - 1]), arrivals[|fates| - 1].reply, plan);
      |t.calls.issued| < TWO_32 && HasPosition(t, topic.channel)
    ensures var arrivals := Frame(w.broker.down, fates);
      var t := FinishHandshake(DispatchAll(w.client, arrivals[..|fates| - 1]), arrivals[|fates| - 1].reply, plan);
      AllNamed(t, w.broker.cursor, topic.channel) && t.link.conn == w.client.link.conn
    ensures forall k :: 0 <= k < |w.broker.down[|fates|..]| ==> w.broker.down[|fates|..][k].id == 0
  {
    hide Inv, Reads, DispatchAll, AllNamed, HasPosition, OnHandshakeSuccess;
    var s, b := w.client, w.broker;
    var n := |fates| - 1;
    var arrivals := Frame(b.down, fates);
    var s1 := DispatchAll(s, arrivals[..n]);
    var b1 := b.(down := b.down[n..]);
    assert arrivals[n].reply == b.down[n] == b1.down[0] && b1.down[1..] == b.down[|fates|..];
    ShakeReads(w, topic, None, fates);
    OnwardMeans(s, s1);
    SuccessNames(s1, b1, HandshakeResult(b1.down[0]).value, plan, topic);
    SuccessConn(s1, HandshakeResult(b1.down[0]).value, plan);
    ReadsBasics(s1, b1, topic, None);
    ReadsMail(s1, b1, topic, None);
    PushesFollow(s1, b1, topic);
  }

  lemma ReadsMail(s: State, b: Broker, topic: Topic, base: Option<nat>)
    requires Reads(s, b, topic, base)
    ensures Mail(s, b, topic)
  {}

  lemma RejoinCases(s: State, t: State, b: Broker)
    requires t.link.conn == s.link.conn
    ensures var b' := Rejoin(s, t, b); if t.link.stream then b' == b else b'.down == []
  {}

  lemma SuccessConn(s: State, result: ConnectResult, plan: seq<Attempt>)
    ensures OnHandshakeSuccess(s, result, plan).link.conn == s.link.conn
  {
    hide ResubscribeAll, Tell, Note, ResolvedSubs, RefreshedServers, RefreshTimers;
    ResubscribeLink(Establish(s, result), plan);
  }

  lemma SettledAfter(w: World, cursor: nat, topic: Topic)
    requires Inv(w, topic, None) && AllNamed(w.client, cursor, topic.channel)
        && (w.client.link.stream ==> w.broker.cursor == cursor)
    requires forall k :: 0 <= k < |w.broker.down| ==> w.broker.down[k].id == 0
    ensures topic.channel in w.client.subs && Settles(w, topic)
  {
    hide JointInvariant.Joint, Identified, Outbox.Tidy, Ready, Flows, Mail, Ahead, Holds, Session, UpToDate;
    ReadsAnchored(w.client, w.broker, topic, None);
    PushesSettle(w.client.calls.issued, topic, w.broker.log, Here(w.client, topic), w.broker.down);
  }

  // ---------- a request without a position loses an entry ----------

  /** The client is connected and reading, and no disconnect push is on its way. */
  ghost predicate Online(w: World, topic: Topic)
    requires topic.channel in w.client.subs
  {
    w.client.link.phase.Connected? && w.client.link.stream && !Ahead(w.client, topic, w.broker.down).hung
  }

  ghost predicate Missing(ds: seq<Delivery>, k: nat) { forall d :: d in ds ==> d.offset != k }

  /** Some entry between `base` and the position was never delivered. */
  ghost predicate Gap(sub: SubState, base: nat) {
    exists k: nat :: base < k <= sub.offset && Missing(Deliveries(sub.log), k)
  }

  lemma GapLoses(sub: SubState, base: nat, log: seq<Bytes>)
    requires Gap(sub, base)
    ensures !Covered(Deliveries(sub.log), base, sub.offset, log)
  {
    var k: nat :| base < k <= sub.offset && Missing(Deliveries(sub.log), k);
    if sub.offset <= |log| { assert Entry(log, k) !in Deliveries(sub.log); }
  }

  function Sure(n: nat): (fates: seq<Fate>)
    ensures |fates| == n
  {
    seq(n, _ => Accepted)
  }

  lemma FlowsCons(issued: seq<Issued>, topic: Topic, log: seq<Bytes>, m: Mark, down: seq<Reply>, strict: bool)
    requires down != [] && GoesOn(issued, topic, log, m, down[0], strict)
    requires Flows(issued, topic, log, Read(issued, topic, m, down[0]), down[1..], strict)
    ensures Flows(issued, topic, log, m, down, strict)
  {
    hide GoesOn, Read;
    forall k | 0 <= k < |down|
      ensures GoesOn(issued, topic, log, Reach(issued, topic, m, down[..k]), down[k], strict)
    {
      if k > 0 {
        assert down[..1] + down[1..][..k - 1] == down[..k] && down[1..][k - 1] == down[k];
        ReachConcat(issued, topic, m, down[..1], down[1..][..k - 1]);
        assert down[..1][..0] == [] && Reach(issued, topic, m, down[..1]) == Read(issued, topic, m, down[0]);
        assert GoesOn(issued, topic, log, Reach(issued, topic, Read(issued, topic, m, down[0]), down[1..][..k - 1]),
            down[1..][k - 1], strict);
      } else {
        assert down[..0] == [];
      }
    }
  }

  /** An answer that goes on only loosely skips the entry after the position. */
  lemma SkipGaps(s: State, b: Broker, a: Arrival, topic: Topic, base: nat)
    requires Reads(s, b, topic, None) && (s.link.stream || s.calls.pending == map[])
    requires b.down != [] && a.reply == b.down[0] && !ConnectSuccess(s.calls.issued, b.down[0])
    requires base <= s.subs[topic.channel].offset
        && !GoesOn(s.calls.issued, topic, b.log, Here(s, topic), b.down[0], true)
    ensures var t := DispatchReply(s, a); topic.channel in t.subs && Gap(t.subs[topic.channel], base)
  {
    hide DispatchReply, Identified, Outbox.Tidy, Ready, ReplyBrings, Effect, Flows, Reach, Mail, OpenIds, IsAskId,
         ConnectSuccess, Read, Deliveries, Undergo, Settled;
    var c := topic.channel;
    var w := WatchOf(s, b, topic, false);
    var r := b.down[0];
    ReadyAnchored(s, w);
    var m := Here(s, topic);
    FirstMail(s, b, topic, false);
    BringsEffect(s, r, w);
    ReplyLived(s, a, c);
    FirstFlows(s.calls.issued, topic, b.log, m, b.down, false);
    var h := Effect(s.calls.issued, r, c, m.hung);
    HistoryUpToOne(s, c);
    SkipIs(m, h, b.log, topic);
    SkipUndergone(s.subs[c], h[0].result, s.config.protocol);
    var t := DispatchReply(s, a);
    var k := s.subs[c].offset + 1;
    assert Missing(Deliveries(t.subs[c].log), k);
  }

  lemma SkipIs(m: Mark, h: seq<Happening>, log: seq<Bytes>, topic: Topic)
    requires Continues(m, h, log, topic, false) && !Continues(m, h, log, topic, true)
    ensures h != [] && h == [h[0]] && h[0].Confirmed? && h[0].result.publications == [] && m.offset < h[0].result.offset
    ensures h[0].result.recoverable
  {
    hide Repeats, IsEntry;
  }

  lemma SkipUndergone(sub: SubState, r: SubscribeResult, protocol: ProtocolType)
    requires r.publications == [] && r.recoverable
    ensures var t := Undergo(sub, Confirmed(r), protocol);
      t.offset == r.offset && Deliveries(t.log) == Deliveries(sub.log)
  {
    ConfirmLog(sub, r);
    NothingReceived(Confirm(sub, r), protocol);
  }

  /** A reply that goes on leaves the gap to the rest. */
  lemma GapBehind(s: State, b: Broker, a: Arrival, topic: Topic)
    requires Reads(s, b, topic, None) && (s.link.stream || s.calls.pending == map[]) && s.link.handshake.None?
    requires b.down != [] && a.reply == b.down[0]
        && GoesOn(s.calls.issued, topic, b.log, Here(s, topic), b.down[0], true)
    ensures var t := DispatchReply(s, a);
      var rest := b.(down := b.down[1..]);
      && Reads(t, rest, topic, None) && (t.link.stream || t.calls.pending == map[]) && t.link.handshake.None?
      && s.subs[topic.channel].offset <= t.subs[topic.channel].offset
      && (Flows(t.calls.issued, topic, b.log, Here(t, topic), rest.down, true) ==>
            Flows(s.calls.issued, topic, b.log, Here(s, topic), b.down, true))
  {
    hide DispatchReply, Identified, Outbox.Tidy, Ready, Holds, Mail, GoesOn, Read, ConnectSuccess, Flows, Ahead;
    var t := DispatchReply(s, a);
    NoSuccess(s, b, topic, 0);
    ReadOne(s, b, a, topic, None);
    OnwardMeans(s, t);
    HereAfter(s, b, a, topic);
    if Flows(t.calls.issued, topic, b.log, Here(t, topic), b.down[1..], true) {
      FlowsCons(s.calls.issued, topic, b.log, Here(s, topic), b.down, true);
    }
  }

  /** If what is in flight skips an entry, reading far enough shows it. */
  lemma {:induction false} FindGap(s: State, b: Broker, topic: Topic, base: nat) returns (n: nat)
    requires Reads(s, b, topic, None) && (s.link.stream || s.calls.pending == map[]) && s.link.handshake.None?
    requires topic.channel in s.subs && base <= s.subs[topic.channel].offset
    requires !Flows(s.calls.issued, topic, b.log, Here(s, topic), b.down, true)
    ensures n <= |b.down|
    ensures var t := DispatchAll(s, Frame(b.down, Sure(n))); topic.channel in t.subs && Gap(t.subs[topic.channel], base)
    decreases |b.down|
  {
    hide *;
    FlowsNothing(s.calls.issued, topic, b.log, Here(s, topic));
    var a := Arrival(b.down[0], Accepted);
    if GoesOn(s.calls.issued, topic, b.log, Here(s, topic), b.down[0], true) {
      var rest := b.(down := b.down[1..]);
      GapBehind(s, b, a, topic);
      ReadsAnchored(DispatchReply(s, a), rest, topic, None);
      var k := FindGap(DispatchReply(s, a), rest, topic, base);
      n := k + 1;
      FrameCons(s, b.down, k);
    } else {
      n := 1;
      ReadsNoSuccess(s, b, topic, 0);
      SkipGaps(s, b, a, topic, base);
      FrameCons(s, b.down, 0);
      DispatchNothing(DispatchReply(s, a), Frame(b.down[1..], Sure(0)));
    }
  }

  lemma FlowsNothing(issued: seq<Issued>, topic: Topic, log: seq<Bytes>, m: Mark)
    ensures Flows(issued, topic, log, m, [], true)
  {}

  lemma ReadsNoSuccess(s: State, b: Broker, topic: Topic, k: nat)
    requires Reads(s, b, topic, None) && k < |b.down| && s.link.handshake.None?
    ensures !ConnectSuccess(s.calls.issued, b.down[k])
  {
    hide Identified, Outbox.Tidy, Ready, Holds, ConnectSuccess, Flows;
    NoSuccess(s, b, topic, k);
  }

  lemma HereAfter(s: State, b: Broker, a: Arrival, topic: Topic)
    requires Reads(s, b, topic, None) && (s.link.stream || s.calls.pending == map[])
    requires b.down != [] && a.reply == b.down[0] && !ConnectSuccess(s.calls.issued, b.down[0])
    ensures var t := DispatchReply(s, a);
      && topic.channel in s.subs && topic.channel in t.subs
          && Here(t, topic) == Read(s.calls.issued, topic, Here(s, topic), b.down[0])
      && s.subs[topic.channel].offset <= t.subs[topic.channel].offset
  {
    hide DispatchReply, Identified, Outbox.Tidy, Ready, Holds, ReplyBrings, Effect, Continues, Moved, Lived, Flows,
         Reach, Mail, OpenIds, IsAskId, ConnectSuccess, Settled;
    var c := topic.channel;
    ReadyAnchored(s, WatchOf(s, b, topic, false));
    var m := Here(s, topic);
    FirstMail(s, b, topic, false);
    BringsEffect(s, b.down[0], WatchOf(s, b, topic, false));
    ReplyLived(s, a, c);
    FirstFlows(s.calls.issued, topic, b.log, m, b.down, false);
    LivedHolds(s, DispatchReply(s, a), Effect(s.calls.issued, b.down[0], c, m.hung), m.hung, topic, None, b.log);
    ContinuesForward(m, Effect(s.calls.issued, b.down[0], c, m.hung), b.log, topic, false);
    HangupMeans(s, a);
  }

  lemma FrameCons(s: State, down: seq<Reply>, k: nat)
    requires k < |down|
    ensures DispatchAll(s, Frame(down, Sure(k + 1)))
        == DispatchAll(DispatchReply(s, Arrival(down[0], Accepted)), Frame(down[1..], Sure(k)))
  {
    hide DispatchReply;
    var all := Frame(down, Sure(k + 1));
    DispatchCons(s, all);
    assert all[1..] == Frame(down[1..], Sure(k));
  }

  lemma DispatchNothing(s: State, arrivals: seq<Arrival>)
    requires arrivals == []
    ensures DispatchAll(s, arrivals) == s
  {}

  lemma {:induction false} DispatchCons(s: State, arrivals: seq<Arrival>)
    requires arrivals != []
    ensures DispatchAll(s, arrivals) == DispatchAll(DispatchReply(s, arrivals[0]), arrivals[1..])
    decreases |arrivals|
  {
    hide DispatchReply;
    var n := |arrivals| - 1;
    if n == 0 {
      assert arrivals[..0] == [] && arrivals[1..] == [];
    } else {
      DispatchCons(s, arrivals[..n]);
      assert arrivals[..n][1..] == arrivals[1..][..n - 1];
    }
  }

  /** Some run from `w` on misses an entry after the present position. */
  ghost predicate Loses(w: World, topic: Topic)
    requires topic.channel in w.client.subs
  {
    exists moves: seq<Move> ::
      && |Play(w, topic, moves).client.calls.issued| < TWO_32
      && !Kept(Play(w, topic, moves), topic, w.client.subs[topic.channel].offset)
  }

  lemma {:induction false} PlayConcat(w: World, topic: Topic, moves: seq<Move>, more: seq<Move>)
    ensures Play(w, topic, moves + more) == Play(Play(w, topic, moves), topic, more)
    decreases |more|
  {
    hide Possible, Next;
    if more == [] {
      assert moves + more == moves;
    } else {
      var n := |more| - 1;
      PlayConcat(w, topic, moves, more[..n]);
      assert (moves + more)[..|moves| + n] == moves + more[..n];
    }
  }

  lemma PlayOnce(w: World, topic: Topic, m: Move)
    requires Possible(w, topic, m)
    ensures Play(w, topic, [m]) == Next(w, topic, m)
  {
    hide Possible, Next;
    assert [m][..0] == [];
    assert Play(w, topic, [m][..0]) == w;
  }

  /** A move of the server, or one that leaves the position alone, only brings the loss nearer. */
  lemma LosesLater(w: World, topic: Topic, m: Move)
    requires Possible(w, topic, m) && topic.channel in w.client.subs && topic.channel in Next(w, topic, m).client.subs
    requires Next(w, topic, m).client.subs[topic.channel].offset == w.client.subs[topic.channel].offset
    requires Loses(Next(w, topic, m), topic)
    ensures Loses(w, topic)
  {
    hide Play, Possible, Next, Kept;
    var v := Next(w, topic, m);
    var moves :| |Play(v, topic, moves).client.calls.issued| < TWO_32
        && !Kept(Play(v, topic, moves), topic, v.client.subs[topic.channel].offset);
    PlayOnce(w, topic, m);
    PlayConcat(w, topic, [m], moves);
    assert Play(w, topic, [m] + moves) == Play(v, topic, moves);
  }

  lemma GapNotKept(w: World, topic: Topic, base: nat)
    requires topic.channel in w.client.subs && Gap(w.client.subs[topic.channel], base)
    ensures !Kept(w, topic, base)
  {
    hide Gap;
    GapLoses(w.client.subs[topic.channel], base, w.broker.log);
  }

  /** The client reads what skips. */
  lemma SkipLoses(w: World, topic: Topic)
    requires Inv(w, topic, None) && topic.channel in w.client.subs && w.client.link.phase.Connected?
        && w.client.link.stream
    requires !Flows(w.client.calls.issued, topic, w.broker.log, Here(w.client, topic), w.broker.down, true)
    ensures Loses(w, topic)
  {
    hide Reads, Flows, Gap, Kept, Play, DispatchAll, Session, CatchesUp, JointInvariant.Core;
    var s, b := w.client, w.broker;
    var base := s.subs[topic.channel].offset;
    ConnectedShaken(s);
    var n := FindGap(s, b, topic, base);
    var m := Deliver(Sure(n), []);
    ReadsPossible(w, topic, Sure(n));
    GapNotKept(Next(w, topic, m), topic, base);
    PlayOnce(w, topic, m);
    DispatchIssues(s, Frame(b.down, Sure(n)));
    ReadsBasics(s, b, topic, None);
    assert !Kept(Play(w, topic, [m]), topic, base);
  }

  lemma ConnectedShaken(s: State)
    requires JointInvariant.Joint(s) && s.link.phase.Connected?
    ensures s.link.handshake.None? && s.link.sink == s.link.stream
  {}

  lemma ReadsPossible(w: World, topic: Topic, fates: seq<Fate>)
    requires w.client.link.phase.Connected? && w.client.link.stream && w.client.link.handshake.None?
        && |fates| <= |w.broker.down|
    ensures Possible(w, topic, Deliver(fates, []))
    ensures Next(w, topic, Deliver(fates, [])).client == DispatchAll(w.client, Frame(w.broker.down, fates))
  {
    hide DispatchAll;
  }

  lemma {:induction false} DispatchIssues(s: State, arrivals: seq<Arrival>)
    ensures DispatchAll(s, arrivals).calls.issued == s.calls.issued
    decreases |arrivals|
  {
    hide DispatchReply;
    if arrivals != [] {
      var n := |arrivals| - 1;
      DispatchIssues(s, arrivals[..n]);
      ReplyIssues(DispatchAll(s, arrivals[..n]), arrivals[n]);
    }
  }

  lemma ReplyIssues(s: State, a: Arrival)
    ensures DispatchReply(s, a).calls.issued == s.calls.issued
  {
    hide Tell, Note, CloseAll, SuspendAll, Succeed, Receive, SendCommand, CallersIn, WaitersIn, Leave, Emit;
  }

  /** The command the server serves next asks for the channel without a position, and its reply will be read. */
  ghost predicate BlindNext(w: World, topic: Topic) {
    var s, b := w.client, w.broker;
    && Inv(w, topic, None) && topic.channel in s.subs && Online(w, topic)
    && b.cursor < |s.out.wire| && Blind(s.out.wire[b.cursor].outgoing.command.body, topic.channel)
  }

  predicate Blind(body: Body, ch: Channel) {
    body.SubscribeBody? && body.request.channel == ch && !body.request.recover
  }

  /** A server that answers at the end of its log. */
  function AtEnd(id: nat, topic: Topic, log: seq<Bytes>): Reply {
    Reply(id, None, None, None, Some(SubscribeResult(true, false, false, |log|, topic.epoch, false, false, 0, [])),
        None, None)
  }

  lemma BlindId(s: State, b: Broker, topic: Topic)
    requires Reads(s, b, topic, None) && s.link.stream && b.cursor < |s.out.wire|
    requires Blind(s.out.wire[b.cursor].outgoing.command.body, topic.channel)
    ensures var cmd := s.out.wire[b.cursor].outgoing.command;
      1 <= cmd.id <= |s.calls.issued| && s.calls.issued[cmd.id - 1].body == cmd.body
  {
    hide Holds, Flows, Mail, Outbox.Tidy;
  }

  lemma AtEndAllowed(w: World, topic: Topic)
    requires BlindNext(w, topic)
    ensures var cmd := w.client.out.wire[w.broker.cursor].outgoing.command;
      Possible(w, topic, Answer(Some(AtEnd(cmd.id, topic, w.broker.log))))
  {
    hide JointInvariant.Joint, Reads, CatchesUp, Ahead;
    BlindId(w.client, w.broker, topic);
  }

  lemma AtEndSkips(issued: seq<Issued>, topic: Topic, log: seq<Bytes>, y: Mark, id: nat)
    requires 1 <= id <= |issued| && Blind(issued[id - 1].body, topic.channel) && !y.hung && y.offset < |log|
    ensures !GoesOn(issued, topic, log, y, AtEnd(id, topic, log), true)
  {}

  lemma LastSkips(issued: seq<Issued>, topic: Topic, log: seq<Bytes>, m: Mark, down: seq<Reply>, r: Reply)
    requires !GoesOn(issued, topic, log, Reach(issued, topic, m, down), r, true)
    ensures !Flows(issued, topic, log, m, down + [r], true)
  {
    hide GoesOn;
    assert (down + [r])[..|down|] == down && (down + [r])[|down|] == r;
  }

  /** Entries were logged past the client: the answer skips them. */
  lemma AnswerLoses(w: World, topic: Topic)
    requires BlindNext(w, topic) && Ahead(w.client, topic, w.broker.down).offset < |w.broker.log|
    ensures Loses(w, topic)
  {
    hide Reads, Session, CatchesUp, JointInvariant.Joint, Ahead, Loses, GoesOn, Flows, ReplyAllowed, JoinResult, AtEnd,
         BlindNext;
    var s, b := w.client, w.broker;
    assert Inv(w, topic, None) && topic.channel in s.subs && Online(w, topic) && b.cursor < |s.out.wire|
        && Blind(s.out.wire[b.cursor].outgoing.command.body, topic.channel) by { BlindMeans(w, topic); }
    var cmd := s.out.wire[b.cursor].outgoing.command;
    var r := AtEnd(cmd.id, topic, b.log);
    var m := Answer(Some(r));
    AtEndAllowed(w, topic);
    BlindId(s, b, topic);
    AtEndSkips(s.calls.issued, topic, b.log, Ahead(s, topic, b.down), cmd.id);
    AheadIs(s, topic, b.down);
    LastSkips(s.calls.issued, topic, b.log, Here(s, topic), b.down, r);
    ReadsBasics(s, b, topic, None);
    NextInv(w, topic, None, m);
    SkipLoses(Next(w, topic, m), topic);
    LosesLater(w, topic, m);
  }

  lemma AheadIs(s: State, topic: Topic, down: seq<Reply>)
    requires topic.channel in s.subs
    ensures Ahead(s, topic, down) == Reach(s.calls.issued, topic, Here(s, topic), down)
  {}

  lemma BlindMeans(w: World, topic: Topic)
    requires BlindNext(w, topic)
    ensures var s, b := w.client, w.broker;
      && Inv(w, topic, None) && topic.channel in s.subs && Online(w, topic)
      && b.cursor < |s.out.wire| && Blind(s.out.wire[b.cursor].outgoing.command.body, topic.channel)
  {}

  /** The client is not subscribed at the server, so an entry can pass it by. */
  lemma PublishLoses(w: World, topic: Topic)
    requires BlindNext(w, topic) && !w.broker.joined
    ensures Loses(w, topic)
  {
    hide Reads, Session, JointInvariant.Joint, Ahead, Loses;
    var m := Publish([], Publication(|w.broker.log| + 1, [], None, false));
    var v := Next(w, topic, m);
    ReadsBasics(w.client, w.broker, topic, None);
    NextInv(w, topic, None, m);
    AnswerLoses(v, topic);
    LosesLater(w, topic, m);
  }

  /** The server may end the subscription, let an entry pass and answer. */
  lemma BlindLoses(w: World, topic: Topic)
    requires BlindNext(w, topic)
    ensures Loses(w, topic)
  {
    hide Reads, Session, JointInvariant.Joint, CatchesUp, Loses, Reach, Read;
    if w.broker.joined {
      var m := Kick(0);
      var r := PushReply(topic.channel, UnsubscribePush(0));
      ReadsBasics(w.client, w.broker, topic, None);
      NextInv(w, topic, None, m);
      QuietFits(w.client.calls.issued, topic, w.broker.log, Ahead(w.client, topic, w.broker.down), r, false);
      ReachConcat(w.client.calls.issued, topic, Here(w.client, topic), w.broker.down, [r]);
      ReachOne(w.client.calls.issued, topic, Ahead(w.client, topic, w.broker.down), r);
      PublishLoses(Next(w, topic, m), topic);
      LosesLater(w, topic, m);
    } else {
      PublishLoses(w, topic);
    }
  }

  lemma ReachOne(issued: seq<Issued>, topic: Topic, m: Mark, r: Reply)
    ensures Reach(issued, topic, m, [r]) == Read(issued, topic, m, r)
  {
    hide Read;
    assert [r][..0] == [];
    assert Reach(issued, topic, m, [r][..0]) == m;
  }

  /** The commands before the one without a position need not be answered. */
  lemma {:induction false} ServeLoses(w: World, topic: Topic, i: nat)
    requires Inv(w, topic, None) && topic.channel in w.client.subs && Online(w, topic)
    requires w.broker.cursor <= i < |w.client.out.wire|
        && Blind(w.client.out.wire[i].outgoing.command.body, topic.channel)
    ensures Loses(w, topic)
    decreases i - w.broker.cursor
  {
    hide Reads, Session, JointInvariant.Joint, CatchesUp, Loses, Ahead, JoinResult;
    if i == w.broker.cursor {
      BlindLoses(w, topic);
    } else {
      var m := Answer(None);
      ReadsBasics(w.client, w.broker, topic, None);
      NextInv(w, topic, None, m);
      ServeLoses(Next(w, topic, m), topic, i);
      LosesLater(w, topic, m);
    }
  }

  /** A queued command is written first. */
  lemma QueueLoses(w: World, topic: Topic, i: nat)
    requires Inv(w, topic, None) && topic.channel in w.client.subs && Online(w, topic)
    requires i < |w.client.out.batch.queue| && Blind(w.client.out.batch.queue[i].command.body, topic.channel)
    ensures Loses(w, topic)
  {
    hide Reads, Session, CatchesUp, Loses, JointInvariant.Core, Reach;
    var s, b := w.client, w.broker;
    var m := Local(Ask(StopBatching, Accepted));
    ConnectedShaken(s);
    FlushStep(s);
    var t := Step(s, m.input);
    assert Possible(w, topic, m);
    ReadsBasics(s, b, topic, None);
    NextInv(w, topic, None, m);
    SessionCursor(s, b);
    ServeLoses(Next(w, topic, m), topic, |s.out.wire| + i);
    LosesLater(w, topic, m);
  }

  lemma SessionCursor(s: State, b: Broker)
    requires Session(s, b)
    ensures b.cursor <= |s.out.wire|
  {}

  lemma FlushStep(s: State)
    requires s.link.phase.Connected? && s.link.handshake.None? && s.link.sink
    ensures var t := Step(s, Ask(StopBatching, Accepted));
      && t == s.(out := FlushBatch(s.out, s.link, Accepted))
          && t.out.wire == s.out.wire + Stamp(s.link.conn, |s.out.wire|, s.out.batch.queue)
  {
    assert Enabled(s, Ask(StopBatching, Accepted));
    assert Admit(s, None) == s;
  }

  /** Connected and reading, only subscribe commands can be without a position. */
  lemma BlindAsk(s: State, b: Broker, topic: Topic, cmd: Command)
    requires Reads(s, b, topic, None) && s.link.stream && s.link.handshake.None?
        && !NamesPosition(cmd.body, topic.channel)
    requires (exists i :: 0 <= i < |s.out.batch.queue| && s.out.batch.queue[i].command == cmd)
             || (exists i :: b.cursor <= i < |s.out.wire| && s.out.wire[i].outgoing.command == cmd)
    ensures Blind(cmd.body, topic.channel)
  {
    hide Holds, Flows, Mail, Identified, Outbox.Tidy;
    assert Tracked(s.calls.pending, WatchOf(s, b, topic, false), s.subs[topic.channel].offset, cmd);
  }

  lemma UnsettledLoses(w: World, topic: Topic)
    requires Inv(w, topic, None) && topic.channel in w.client.subs && Online(w, topic) && !Settles(w, topic)
    ensures Loses(w, topic)
  {
    hide Reads, Session, CatchesUp, Loses, JointInvariant.Core, Reach, Flows, NamesPosition, Blind;
    var s, b := w.client, w.broker;
    ConnectedShaken(s);
    SessionCursor(s, b);
    if !Flows(s.calls.issued, topic, b.log, Here(s, topic), b.down, true) {
      SkipLoses(w, topic);
    } else if i :| 0 <= i < |s.out.batch.queue| && !NamesPosition(s.out.batch.queue[i].command.body, topic.channel) {
      BlindAsk(s, b, topic, s.out.batch.queue[i].command);
      QueueLoses(w, topic, i);
    } else {
      var i :| b.cursor <= i < |s.out.wire| && !NamesPosition(s.out.wire[i].outgoing.command.body, topic.channel);
      BlindAsk(s, b, topic, s.out.wire[i].outgoing.command);
      ServeLoses(w, topic, i);
    }
  }

  /** Every continuation keeps up with the log from the present position on. */
  ghost predicate KeptHenceforth(w: World, topic: Topic)
    requires topic.channel in w.client.subs
  {
    forall moves: seq<Move> ::
      |Play(w, topic, moves).client.calls.issued| < TWO_32 ==>
        Kept(Play(w, topic, moves), topic, w.client.subs[topic.channel].offset)
  }

  /**
   At any point of any run at which the client is connected and the subscription has a position,
   be it from a subscribe reply or from the connect reply, every later entry is sure to be
   delivered if and only if no request without a position is outstanding.
   */
  lemma SettlesExactly(config: ClientConfig, topic: Topic, sub: SubscriptionConfig, log: seq<Bytes>, early: seq<Move>)
    requires Begins(sub, topic, log) && config.protocol == topic.protocol
    requires var w := Play(Start(config, topic, sub, log), topic, early);
      |w.client.calls.issued| < TWO_32 && HasPosition(w.client, topic.channel) && Online(w, topic)
    ensures var w := Play(Start(config, topic, sub, log), topic, early);
      KeptHenceforth(w, topic) <==> Settles(w, topic)
  {
    hide Play, Start, Inv, Kept, Settles, Online;
    var w := Play(Start(config, topic, sub, log), topic, early);
    StartInv(config, topic, sub, None, log);
    PlayInv(Start(config, topic, sub, log), topic, None, early);
    if Settles(w, topic) {
      forall moves: seq<Move> | |Play(w, topic, moves).client.calls.issued| < TWO_32
        ensures Kept(Play(w, topic, moves), topic, w.client.subs[topic.channel].offset)
      {
        NoEntryMissedSince(config, topic, sub, log, early, moves);
      }
    } else {
      UnsettledLoses(w, topic);
    }
  }

  /** A position that comes with the connect reply is always one to keep up from. */
  lemma ConnectKeeps(
      config: ClientConfig, topic: Topic, sub: SubscriptionConfig, log: seq<Bytes>, early: seq<Move>, fates: seq<Fate>,
      plan: seq<Attempt>)
    requires Begins(sub, topic, log) && config.protocol == topic.protocol
    requires var w := Play(Start(config, topic, sub, log), topic, early);
      && Possible(w, topic, Deliver(fates, plan)) && Connects(w, fates)
      && |Next(w, topic, Deliver(fates, plan)).client.calls.issued| < TWO_32
      && HasPosition(Next(w, topic, Deliver(fates, plan)).client, topic.channel)
    ensures var w := Play(Start(config, topic, sub, log), topic, early);
      KeptHenceforth(Next(w, topic, Deliver(fates, plan)), topic)
  {
    hide Play, Start, Inv, Kept, Settles, Possible, Next, CanRecover, Connects;
    var w := Play(Start(config, topic, sub, log), topic, early);
    var m := Deliver(fates, plan);
    PlayOnce(w, topic, m);
    PlayConcat(Start(config, topic, sub, log), topic, early, [m]);
    PlayIssues(w, topic, [m]);
    StartInv(config, topic, sub, None, log);
    PlayInv(Start(config, topic, sub, log), topic, None, early);
    ConnectSettles(w, topic, fates, plan);
    forall moves: seq<Move> | |Play(Next(w, topic, m), topic, moves).client.calls.issued| < TWO_32
      ensures Kept(Play(Next(w, topic, m), topic, moves), topic, Next(w, topic, m).client.subs[topic.channel].offset)
    {
      NoEntryMissedSince(config, topic, sub, log, early + [m], moves);
    }
  }
}
