/** The recovery theorem: nothing between the start position and the present one is ever missed. */
module GapFree {
  import opened Prelude
  import opened Lines
  import opened Protocol
  import opened Subscriptions
  import opened ActorState
  import opened RequestIdentity
  import opened SubHistory
  import opened RecoveryRequests
  import opened Recovery
  import DeltaChain
  import JointInvariant
  import Outbox

  // ---------- what a subscription has delivered ----------

  function Entry(log: seq<Bytes>, k: nat): Delivery
    requires 1 <= k <= |log|
  {
    Delivery(k, log[k - 1])
  }

  /** Every entry after `base` up to `x` has been delivered. */
  ghost predicate Covered(ds: seq<Delivery>, base: nat, x: nat, log: seq<Bytes>) {
    x <= |log| && forall k :: base < k <= x ==> Entry(log, k) in ds
  }

  /** Whatever was delivered is an entry of the log. */
  ghost predicate Genuine(ds: seq<Delivery>, log: seq<Bytes>) {
    forall d :: d in ds ==> 1 <= d.offset <= |log| && d == Entry(log, d.offset)
  }

  /** Nothing was delivered from beyond `x`. */
  ghost predicate NoneBeyond(ds: seq<Delivery>, x: nat) {
    forall d :: d in ds ==> d.offset <= x
  }

  /**
   All that was delivered is genuine and none of it from beyond `x`; if there is a `base`, everything
   from there to `x` was.
   */
  ghost predicate Gathers(sub: SubState, base: Option<nat>, x: nat, log: seq<Bytes>) {
    && sub.recover && x <= |log|
    && (base.Some? ==> base.value <= x && Covered(Deliveries(sub.log), base.value, x, log))
    && Genuine(Deliveries(sub.log), log) && NoneBeyond(Deliveries(sub.log), x)
  }

  /** The subscription has everything up to where it stands; with no `base`, entries may have been skipped. */
  ghost predicate Holds(sub: SubState, topic: Topic, base: Option<nat>, log: seq<Bytes>) {
    Located(MarkOf(sub, false), topic, base.Some?) && Gathers(sub, base, sub.offset, log)
  }

  function Max(x: nat, y: nat): nat { if x < y then y else x }

  lemma ReceiveGathers(
      sub: SubState, p: Publication, k: nat, prev: Option<Bytes>, topic: Topic, base: Option<nat>, x: nat,
      log: seq<Bytes>)
    requires Gathers(sub, base, x, log) && k <= x + 1
    requires IsEntry(p, k, log, sub.deltaNegotiated, prev, topic.protocol)
    requires sub.deltaNegotiated ==> DeltaChain.Base(prev, sub)
    ensures Gathers(Receive(sub, p, topic.protocol), base, Max(x, k), log)
  {
    hide Receive, Conveys, Deliveries, DeltaChain.Base;
    ReceiveEntry(sub, p, k, log, prev, topic.protocol);
  }

  lemma {:induction false} ReceiveAllGathers(
      sub: SubState, ps: seq<Publication>, from: nat, topic: Topic, base: Option<nat>, x: nat, log: seq<Bytes>)
    requires Gathers(sub, base, x, log) && from <= x && Repeats(sub.deltaNegotiated, from, ps, log, topic.protocol)
    ensures Gathers(ReceiveAll(sub, ps, topic.protocol), base, Max(x, from + |ps|), log)
    decreases |ps|
  {
    hide Receive, Gathers, IsEntry;
    if ps != [] {
      var n := |ps| - 1;
      var early := ReceiveAll(sub, ps[..n], topic.protocol);
      RepeatsPrefix(sub.deltaNegotiated, from, ps, log, topic.protocol, n);
      ReceiveAllGathers(sub, ps[..n], from, topic, base, x, log);
      ReceiveAllKeeps(sub, ps[..n], topic.protocol);
      if n > 0 { RepeatsMoves(sub, from, ps[..n], log, topic.protocol); }
      var prev := if n == 0 then None else Some(log[from + n - 1]);
      ReceiveGathers(early, ps[n], from + 1 + n, prev, topic, base, Max(x, from + n), log);
    }
  }

  lemma UndergoHolds(sub: SubState, h: Happening, hung: bool, topic: Topic, base: Option<nat>, log: seq<Bytes>)
    requires Gathers(sub, base, sub.offset, log) && Continues(MarkOf(sub, hung), [h], log, topic, base.Some?)
    ensures var t := Undergo(sub, h, topic.protocol); Gathers(t, base, t.offset, log)
  {
    hide Gathers, Receive, ReceiveAll, Confirm, IsEntry, Repeats;
    match h {
      case Live(p) =>
        LiveHolds(sub, p, topic, base, log);
      case Confirmed(r) =>
        ConfirmGathers(sub, r, topic, base, sub.offset, log);
        var sub1 := Confirm(sub, r);
        if r.publications == [] {
          NothingReceived(sub1, topic.protocol);
          GathersAhead(sub1, base, sub.offset, sub1.offset, log);
          WaitersAside(sub1, base, sub1.offset, log);
        } else {
          var from: nat :| from <= sub.offset <= from + |r.publications|
            && Repeats(r.delta, from, r.publications, log, topic.protocol);
          ReceiveAllGathers(sub1, r.publications, from, topic, base, sub.offset, log);
          RepeatsMoves(sub1, from, r.publications, log, topic.protocol);
          WaitersAside(ReceiveAll(sub1, r.publications, topic.protocol), base, from + |r.publications|, log);
        }
    }
  }

  /** With no base to keep, the position may skip ahead. */
  lemma GathersAhead(sub: SubState, base: Option<nat>, x: nat, y: nat, log: seq<Bytes>)
    requires Gathers(sub, base, x, log) && x <= y <= |log| && (base.Some? ==> y == x)
    ensures Gathers(sub, base, y, log)
  {}

  lemma LiveHolds(sub: SubState, p: Publication, topic: Topic, base: Option<nat>, log: seq<Bytes>)
    requires Gathers(sub, base, sub.offset, log)
    requires IsEntry(p, sub.offset + 1, log, sub.deltaNegotiated, Some(sub.prevData), topic.protocol)
    ensures var t := Receive(sub, p, topic.protocol); Gathers(t, base, t.offset, log)
  {
    hide Gathers, Receive, Conveys;
    ReceiveGathers(sub, p, sub.offset + 1, Some(sub.prevData), topic, base, sub.offset, log);
    ReceiveEntry(sub, p, sub.offset + 1, log, Some(sub.prevData), topic.protocol);
  }

  lemma NothingReceived(sub: SubState, protocol: ProtocolType)
    ensures ReceiveAll(sub, [], protocol) == sub
  {}

  lemma WaitersAside(sub: SubState, base: Option<nat>, x: nat, log: seq<Bytes>)
    ensures Gathers(sub.(waiters := []), base, x, log) == Gathers(sub, base, x, log)
  {}

  lemma ConfirmGathers(sub: SubState, r: SubscribeResult, topic: Topic, base: Option<nat>, x: nat, log: seq<Bytes>)
    requires Gathers(sub, base, x, log)
    requires (r.recoverable && r.epoch == topic.epoch) || r == EMPTY_RESULT
    ensures Gathers(Confirm(sub, r), base, x, log)
    ensures Confirm(sub, r).offset == (if r.recoverable then r.offset else sub.offset)
        && Confirm(sub, r).deltaNegotiated == r.delta
  {}

  /** A state change that brings at most one fitting happening. */
  lemma LivedHolds(s: State, t: State, hs: seq<Happening>, hung: bool, topic: Topic, base: Option<nat>, log: seq<Bytes>)
    requires topic.channel in s.subs && Lived(s, t, topic.channel, hs) && s.config.protocol == topic.protocol
    requires Holds(s.subs[topic.channel], topic, base, log)
        && Continues(MarkOf(s.subs[topic.channel], hung), hs, log, topic, base.Some?)
    ensures topic.channel in t.subs && Holds(t.subs[topic.channel], topic, base, log)
        && t.config.protocol == topic.protocol
    ensures MarkOf(t.subs[topic.channel], hung) == Moved(MarkOf(s.subs[topic.channel], hung), hs, topic.protocol)
  {
    hide Covered, Genuine, NoneBeyond, Undergo, Continues, Deliveries;
    var sub := s.subs[topic.channel];
    HistoryUpToOne(s, topic.channel);
    if hs != [] {
      OneHappening(MarkOf(sub, hung), hs, log, topic, base.Some?);
      ContinuesForward(MarkOf(sub, hung), hs, log, topic, base.Some?);
      UndergoHolds(sub, hs[0], hung, topic, base, log);
      UndergoSame(sub, SubAt(MarkOf(sub, hung)), hs[0], topic.protocol);
    }
  }

  lemma UnmovedHolds(s: State, t: State, topic: Topic, base: Option<nat>, log: seq<Bytes>)
    requires topic.channel in s.subs && Unmoved(s, t, topic.channel) && s.config.protocol == topic.protocol
    requires Holds(s.subs[topic.channel], topic, base, log)
    ensures topic.channel in t.subs && Holds(t.subs[topic.channel], topic, base, log)
        && t.config.protocol == topic.protocol
    ensures forall hung :: MarkOf(t.subs[topic.channel], hung) == MarkOf(s.subs[topic.channel], hung)
  {
    hide Covered, Genuine, NoneBeyond, Deliveries;
    HistoryUpToOne(s, topic.channel);
  }

  lemma OneHappening(m: Mark, hs: seq<Happening>, log: seq<Bytes>, topic: Topic, strict: bool)
    requires Continues(m, hs, log, topic, strict) && hs != []
    ensures hs == [hs[0]]
  {}

  lemma HoldsGrows(sub: SubState, topic: Topic, base: Option<nat>, log: seq<Bytes>, more: seq<Bytes>)
    requires Holds(sub, topic, base, log) && log <= more
    ensures Holds(sub, topic, base, more)
  {
    var ds := Deliveries(sub.log);
    forall k | base.Some? && base.value < k <= sub.offset
      ensures Entry(more, k) in ds
    {
      assert Entry(log, k) in ds;
    }
  }

  // ---------- the invariant ----------

  predicate IsAskId(issued: seq<Issued>, id: nat, ch: Channel) {
    1 <= id <= |issued| && issued[id - 1].body.SubscribeBody? && issued[id - 1].body.request.channel == ch
  }

  /** The subscribe commands for the watched channel whose replies are on their way. */
  function OpenIds(issued: seq<Issued>, down: seq<Reply>, ch: Channel): set<nat> {
    set k | 0 <= k < |down| && IsAskId(issued, down[k].id, ch) :: down[k].id
  }

  /** Once the connect reply is read, no connect command is on its way on this connection. */
  function WatchOf(s: State, b: Broker, topic: Topic, strict: bool): Watch {
    Watch(topic.channel, topic.epoch, b.cursor, OpenIds(s.calls.issued, b.down, topic.channel), strict,
          s.link.handshake.Some? || !s.link.stream)
  }

  /** The watch on a connection on which nothing was served. */
  function Outset(topic: Topic, cursor: nat, strict: bool): Watch {
    Watch(topic.channel, topic.epoch, cursor, {}, strict, true)
  }

  ghost predicate Served(wire: seq<Sent>, cursor: nat, id: nat) {
    exists j :: 0 <= j < cursor && j < |wire| && wire[j].outgoing.command.id == id
  }

  predicate ConnectSuccess(issued: seq<Issued>, r: Reply) {
    1 <= r.id <= |issued| && issued[r.id - 1].body.ConnectBody? && HandshakeResult(r).Ok?
  }

  predicate IsSubscribePush(r: Reply) { r.id == 0 && r.push.Some? && r.push.value.body.SubscribePush? }

  /** Replies come back in the order of the commands they answer. */
  ghost predicate Mail(s: State, b: Broker, topic: Topic) {
    && (forall k :: 0 <= k < |b.down| && b.down[k].id != 0 ==> Served(s.out.wire, b.cursor, b.down[k].id))
    && (forall j, k :: 0 <= j < k < |b.down| && b.down[k].id != 0 ==> b.down[j].id < b.down[k].id)
    && (forall k :: 0 <= k < |b.down| && IsSubscribePush(b.down[k]) ==> b.down[k].push.value.channel != topic.channel)
    && (forall k :: 0 <= k < |b.down| && ConnectSuccess(s.calls.issued, b.down[k]) ==>
          b.session && s.link.handshake == Some(b.down[k].id))
  }

  /** What holds between any two replies of a frame; `b.down` is what is still unread. */
  ghost predicate Reads(s: State, b: Broker, topic: Topic, base: Option<nat>) {
    && |s.calls.issued| < TWO_32 && s.config.protocol == topic.protocol
    && Identified(s) && Outbox.Tidy(s)
    && Ready(s, WatchOf(s, b, topic, base.Some?))
    && Holds(s.subs[topic.channel], topic, base, b.log)
    && Flows(s.calls.issued, topic, b.log, Here(s, topic), b.down, base.Some?)
    && Mail(s, b, topic)
  }

  /** The connection as both sides see it. */
  ghost predicate Session(s: State, b: Broker) {
    && b.cursor <= |s.out.wire|
    && (!s.link.stream ==> b.down == [] && !b.session && !b.joined)
    && (s.link.stream && s.link.phase.Connected? ==> b.session)
    && (forall i :: b.cursor <= i < |s.out.wire| && s.out.wire[i].outgoing.command.id != 0
                    && s.out.wire[i].outgoing.command.body.ConnectBody? ==>
          b.session || s.link.handshake == Some(s.out.wire[i].outgoing.command.id))
    && (s.link.stream && s.link.handshake.Some? ==> s.link.handshake.value == |s.calls.issued|)
  }

  /**
   At `y` the client is at the end of the log as long as the server sends it publications, and
   decodes what comes next, unless the connection is going down or it has forgotten deltas.
   */
  predicate UpToDate(y: Mark, b: Broker, topic: Topic) {
    && y.offset <= |b.log|
    && (b.joined && !y.hung ==>
          && y.offset == |b.log| && y.epoch == topic.epoch && (y.delta ==> b.delta)
          && (y.delta && b.primed ==> b.log != [] && y.base == b.log[|b.log| - 1]))
  }

  /** Once all that is in flight has been read, the client is up to date. */
  ghost predicate CatchesUp(s: State, b: Broker, topic: Topic)
    requires topic.channel in s.subs
  {
    UpToDate(Ahead(s, topic, b.down), b, topic)
  }

  ghost predicate Inv(w: World, topic: Topic, base: Option<nat>) {
    && JointInvariant.Joint(w.client)
    && Reads(w.client, w.broker, topic, base)
    && Session(w.client, w.broker)
    && CatchesUp(w.client, w.broker, topic)
  }

  // ---------- reading a frame ----------

  /** What is left to read keeps its properties when the first reply is gone. */
  lemma MailRest(s: State, t: State, b: Broker, topic: Topic, n: nat)
    requires Mail(s, b, topic) && n <= |b.down|
    requires s.out.wire <= t.out.wire && t.calls.issued == s.calls.issued && t.link.handshake == s.link.handshake
    ensures Mail(t, b.(down := b.down[n..]), topic)
  {}

  /** What the reply does to the subscription is what its id says. */
  lemma BringsEffect(s: State, r: Reply, w: Watch)
    requires |s.calls.issued| < TWO_32 && Identified(s) && Ready(s, w)
    requires s.link.stream || s.calls.pending == map[]
    requires r.id != 0 ==> 1 <= r.id <= |s.calls.issued|
    requires IsAskId(s.calls.issued, r.id, w.channel) ==> r.id in w.open
    requires !ConnectSuccess(s.calls.issued, r)
    ensures ReplyBrings(s, r, w.channel) == Effect(s.calls.issued, r, w.channel, !s.link.stream)
  {}

  lemma OpenRest(issued: seq<Issued>, down: seq<Reply>, ch: Channel)
    requires down != []
    requires forall k :: 0 < k < |down| && down[k].id != 0 ==> down[0].id < down[k].id
    ensures OpenIds(issued, down[1..], ch) == OpenIds(issued, down, ch) - {down[0].id}
  {}

  /** A disconnect push ends the stream and drains the requests; no other reply touches the stream or adds a request. */
  lemma HangupMeans(s: State, a: Arrival)
    ensures var t := DispatchReply(s, a);
      if IsHangup(a.reply) then !t.link.stream && t.calls.pending == map[]
      else t.link.stream == s.link.stream && (s.calls.pending == map[] ==> t.calls.pending == map[])
  {
    hide Tell, Note, CloseAll, SuspendAll, Succeed, Receive, SendCommand, CallersIn, WaitersIn, Leave, Emit;
  }

  /** Reading one reply. */
  lemma ReadOne(s: State, b: Broker, a: Arrival, topic: Topic, base: Option<nat>)
    requires Reads(s, b, topic, base) && (s.link.stream || s.calls.pending == map[])
    requires b.down != [] && a.reply == b.down[0] && !ConnectSuccess(s.calls.issued, b.down[0])
    ensures var t := DispatchReply(s, a);
      && Reads(t, b.(down := b.down[1..]), topic, base)
      && Onward(s, t) && t.calls.issued == s.calls.issued
      && Ahead(t, topic, b.down[1..]) == Ahead(s, topic, b.down)
      && (t.link.stream || t.calls.pending == map[])
      && (forall i :: |s.out.wire| <= i < |t.out.wire| ==> t.out.wire[i].outgoing.command.id == 0)
  {
    hide DispatchReply, Identified, Outbox.Tidy, Ready, Holds, ReplyBrings, Effect, Continues, Moved, Lived, Settled,
         Flows, Reach, Mail, OpenIds, IsAskId, ConnectSuccess, Onward, RequestIdentity.Keeps;
    var c := topic.channel;
    var issued := s.calls.issued;
    var w := WatchOf(s, b, topic, base.Some?);
    var r := b.down[0];
    var t := DispatchReply(s, a);
    ReadyAnchored(s, w);
    var m := Here(s, topic);
    var h := Effect(issued, r, c, m.hung);
    FirstMail(s, b, topic, base.Some?);
    BringsEffect(s, r, w);
    ReplyLived(s, a, c);
    FirstFlows(issued, topic, b.log, m, b.down, base.Some?);
    LivedHolds(s, t, h, m.hung, topic, base, b.log);
    ContinuesForward(m, h, b.log, topic, base.Some?);
    HoldsPlaced(s.subs[c], t.subs[c], topic, base, b.log, w);
    ReplyReady(s, a, w);
    HangupMeans(s, a);
    if !t.link.stream { UnreadReady(t, w.(open := w.open - {r.id}), w.(open := w.open - {r.id}, connects := true)); }
    StaysIdentified(s, a);
    Outbox.DispatchTidy(s, a);
    OpenRest(issued, b.down, c);
    OnwardMeans(s, t);
    MailRest(s, t, b, topic, 1);
    DispatchWire(s, a);
  }

  lemma OnwardMeans(s: State, t: State)
    requires Onward(s, t)
    ensures s.out.wire <= t.out.wire && t.link.handshake == s.link.handshake && t.link.conn == s.link.conn
    ensures t.link.stream ==> s.link.stream
  {}

  lemma StaysIdentified(s: State, a: Arrival)
    requires Identified(s) && |s.calls.issued| < TWO_32
    ensures Identified(DispatchReply(s, a))
  {
    hide DispatchReply, Identified;
    RequestIdentity.DispatchKeeps(s, a);
  }

  /** What is known about the first unread reply. */
  lemma FirstMail(s: State, b: Broker, topic: Topic, strict: bool)
    requires Mail(s, b, topic) && b.down != []
    requires Outbox.Tidy(s) && Identified(s) && |s.calls.issued| < TWO_32
    ensures var w := WatchOf(s, b, topic, strict);
      var r := b.down[0];
      && (r.id != 0 ==> 1 <= r.id <= |s.calls.issued| && Settled(s, w, r.id))
      && (IsAskId(s.calls.issued, r.id, topic.channel) ==> r.id in w.open)
      && (r.id == 0 && r.push.Some? && r.push.value.body.SubscribePush? ==> r.push.value.channel != topic.channel)
      && (forall k :: 0 < k < |b.down| && b.down[k].id != 0 ==> r.id < b.down[k].id)
  {}

  lemma HoldsPlaced(sub: SubState, t: SubState, topic: Topic, base: Option<nat>, log: seq<Bytes>, w: Watch)
    requires Placed(sub, w) && w.epoch == topic.epoch && w.strict == base.Some? && sub.offset <= t.offset
        && Holds(t, topic, base, log)
    ensures Placed(t, w)
  {}

  lemma FirstFlows(issued: seq<Issued>, topic: Topic, log: seq<Bytes>, m: Mark, down: seq<Reply>, strict: bool)
    requires Flows(issued, topic, log, m, down, strict) && down != []
    ensures Continues(m, Effect(issued, down[0], topic.channel, m.hung), log, topic, strict)
    ensures var y := Read(issued, topic, m, down[0]);
      Flows(issued, topic, log, y, down[1..], strict)
          && Reach(issued, topic, y, down[1..]) == Reach(issued, topic, m, down)
  {
    hide Continues, Effect, Read;
    FlowsSplit(issued, topic, log, m, down, 1, strict);
    assert down[..1][..0] == [] && down[..0] == [] && down[..1][0] == down[0];
  }

  lemma DispatchWire(s: State, a: Arrival)
    ensures forall i :: |s.out.wire| <= i < |DispatchReply(s, a).out.wire| ==>
        DispatchReply(s, a).out.wire[i].outgoing.command.id == 0
  {}

  /** Reading the first replies one after the other. */
  lemma {:induction false} ReadMany(s: State, b: Broker, arrivals: seq<Arrival>, topic: Topic, base: Option<nat>)
    requires Reads(s, b, topic, base) && (s.link.stream || s.calls.pending == map[]) && |arrivals| <= |b.down|
    requires forall k :: 0 <= k < |arrivals| ==>
        arrivals[k].reply == b.down[k] && !ConnectSuccess(s.calls.issued, b.down[k])
    ensures var t := DispatchAll(s, arrivals);
      var rest := b.down[|arrivals|..];
      && Reads(t, b.(down := rest), topic, base)
      && Onward(s, t) && t.calls.issued == s.calls.issued
      && Ahead(t, topic, rest) == Ahead(s, topic, b.down)
      && (t.link.stream || t.calls.pending == map[])
      && (forall i :: |s.out.wire| <= i < |t.out.wire| ==> t.out.wire[i].outgoing.command.id == 0)
    decreases |arrivals|
  {
    hide DispatchReply, Identified, Outbox.Tidy, Ready, Holds, Flows, Mail, Ahead, ConnectSuccess;
    if arrivals == [] {
      assert b.down[0..] == b.down;
    } else {
      var n := |arrivals| - 1;
      ReadMany(s, b, arrivals[..n], topic, base);
      var m := DispatchAll(s, arrivals[..n]);
      var b1 := b.(down := b.down[n..]);
      assert b1.down[0] == b.down[n] && b1.down[1..] == b.down[n + 1..];
      ReadOne(m, b1, arrivals[n], topic, base);
      var t := DispatchReply(m, arrivals[n]);
      forall i | |s.out.wire| <= i < |t.out.wire|
        ensures t.out.wire[i].outgoing.command.id == 0
      {
        if i < |m.out.wire| { assert t.out.wire[i] == m.out.wire[i]; }
      }
    }
  }

  // ---------- one move ----------

  /** What the client's own invariants need from one step. */
  lemma StepBasics(s: State, i: Input)
    requires JointInvariant.Joint(s) && Identified(s) && Outbox.Tidy(s) && |Step(s, i).calls.issued| < TWO_32
    ensures var t := Step(s, i);
      JointInvariant.Joint(t) && Identified(t) && Outbox.Tidy(t) && s.calls.issued <= t.calls.issued
  {
    hide Step, JointInvariant.Joint, Identified, Outbox.Tidy;
    JointInvariant.StepKeeps(s, i);
    RequestIdentity.StepKeeps(s, i);
    Outbox.StepTidy(s, i);
  }

  /** Nothing is in flight on a connection that is gone or has just begun. */
  lemma FreshInv(t: State, cursor: nat, topic: Topic, base: Option<nat>, log: seq<Bytes>)
    requires JointInvariant.Joint(t) && Identified(t) && Outbox.Tidy(t) && |t.calls.issued| < TWO_32
    requires cursor <= |t.out.wire| && Ready(t, Outset(topic, cursor, base.Some?))
        && t.config.protocol == topic.protocol
    requires Holds(t.subs[topic.channel], topic, base, log)
    requires t.link.stream ==> t.link.handshake == Some(|t.calls.issued|)
    requires forall i :: t.link.stream && cursor <= i < |t.out.wire| ==>
        t.link.handshake == Some(t.out.wire[i].outgoing.command.id)
    requires !t.link.stream ==> cursor == |t.out.wire|
    ensures Inv(World(t, Idle(log, cursor)), topic, base)
  {}

  /** Nobody reads. */
  lemma GoneInv(t: State, v: Watch, topic: Topic, base: Option<nat>, log: seq<Bytes>)
    requires JointInvariant.Joint(t) && Identified(t) && Outbox.Tidy(t) && |t.calls.issued| < TWO_32 && !t.link.stream
    requires Ready(t, v) && SameTopic(Outset(topic, 0, base.Some?), v) && t.config.protocol == topic.protocol
    requires Holds(t.subs[topic.channel], topic, base, log)
    ensures Inv(World(t, Idle(log, |t.out.wire|)), topic, base)
  {
    hide JointInvariant.Joint, Identified, Outbox.Tidy, Ready, Holds, Inv;
    UnreadReady(t, v, Outset(topic, |t.out.wire|, base.Some?));
    FreshInv(t, |t.out.wire|, topic, base, log);
  }

  lemma OpenStable(issued: seq<Issued>, more: seq<Issued>, down: seq<Reply>, ch: Channel)
    requires issued <= more && forall k :: 0 <= k < |down| ==> down[k].id <= |issued|
    ensures OpenIds(more, down, ch) == OpenIds(issued, down, ch)
  {}

  lemma MailIds(s: State, b: Broker, topic: Topic)
    requires Mail(s, b, topic) && Identified(s) && |s.calls.issued| < TWO_32
    ensures forall k :: 0 <= k < |b.down| ==> b.down[k].id <= |s.calls.issued|
  {}

  /** Replies in flight stay what they are while the client writes more. */
  lemma MailStays(s: State, t: State, b: Broker, topic: Topic)
    requires Mail(s, b, topic) && Identified(s) && |s.calls.issued| < TWO_32
    requires s.out.wire <= t.out.wire && s.calls.issued <= t.calls.issued && t.link.handshake == s.link.handshake
    ensures Mail(t, b, topic)
  {}

  /** What the client is up to date with does not depend on how much is still unread. */
  lemma CaughtAlong(s: State, t: State, b: Broker, b1: Broker, topic: Topic)
    requires topic.channel in s.subs && topic.channel in t.subs && CatchesUp(s, b, topic) && b1 == b.(down := b1.down)
    requires Ahead(t, topic, b1.down) == Ahead(s, topic, b.down)
    ensures CatchesUp(t, b1, topic)
  {
    hide Ahead;
  }

  lemma LocalInv(w: World, topic: Topic, base: Option<nat>, i: Input)
    requires Inv(w, topic, base) && Possible(w, topic, Local(i)) && |Step(w.client, i).calls.issued| < TWO_32
    ensures Inv(Next(w, topic, Local(i)), topic, base)
  {
    hide Step, JointInvariant.Joint, Identified, Outbox.Tidy, Ready, Holds, Flows, Mail, Reach, Lived, Brings;
    var s, b := w.client, w.broker;
    var t := Step(s, i);
    var v := WatchOf(s, b, topic, base.Some?);
    StepBasics(s, i);
    LocalReady(s, i, v);
    NothingBrought(s, i, topic.channel);
    StepLived(s, i, topic.channel);
    ReadyAnchored(s, v);
    UnmovedHolds(s, t, topic, base, b.log);
    if !t.link.stream {
      GoneInv(t, v.(connects := true), topic, base, b.log);
    } else if t.link.conn != s.link.conn {
      FreshInv(t, |s.out.wire|, topic, base, b.log);
    } else {
      MailIds(s, b, topic);
      MailStays(s, t, b, topic);
      OpenStable(s.calls.issued, t.calls.issued, b.down, topic.channel);
      FlowsStable(s.calls.issued, t.calls.issued, topic, b.log, b.log, Here(s, topic), b.down, base.Some?);
      SessionStays(s, t, b);
    }
  }

  lemma NothingBrought(s: State, i: Input, ch: Channel)
    requires !i.Data? && !i.Shake?
    ensures Brings(s, i, ch) == []
  {}

  /** A client that goes on reading has a session, unless it is still waiting for the connect reply. */
  lemma SessionStays(s: State, t: State, b: Broker)
    requires Session(s, b) && JointInvariant.Joint(s) && JointInvariant.Joint(t)
    requires s.link.stream && t.link.stream && t.link.handshake == s.link.handshake && s.out.wire <= t.out.wire
    requires s.link.handshake.Some? ==> t.out.wire == s.out.wire && t.calls.issued == s.calls.issued
    ensures Session(t, b)
  {}

  /** One more reply is sent. */
  lemma MailAppend(s: State, b: Broker, b': Broker, r: Reply, topic: Topic)
    requires Mail(s, b, topic)
    requires b'.down == b.down + [r] && b.cursor <= b'.cursor && (b.session ==> b'.session)
    requires r.id != 0 ==> Served(s.out.wire, b'.cursor, r.id) && forall k :: 0 <= k < |b.down| ==> b.down[k].id < r.id
    requires r.id == 0 && r.push.Some? && r.push.value.body.SubscribePush? ==> r.push.value.channel != topic.channel
    requires ConnectSuccess(s.calls.issued, r) ==> b'.session && s.link.handshake == Some(r.id)
    ensures Mail(s, b', topic)
  {}

  lemma OpenAppend(issued: seq<Issued>, down: seq<Reply>, r: Reply, ch: Channel)
    ensures OpenIds(issued, down + [r], ch)
         == OpenIds(issued, down, ch) + (if IsAskId(issued, r.id, ch) then {r.id} else {})
  {
    var more := down + [r];
    assert more[|down|] == r;
    forall id | id in OpenIds(issued, down, ch)
      ensures id in OpenIds(issued, more, ch)
    {
      var k :| 0 <= k < |down| && IsAskId(issued, down[k].id, ch) && down[k].id == id;
      assert more[k] == down[k];
    }
  }

  /** A push that fits where the client will be. */
  lemma PushReads(s: State, b: Broker, b': Broker, topic: Topic, base: Option<nat>, r: Reply)
    requires Reads(s, b, topic, base) && r.id == 0
    requires b.log <= b'.log && b'.down == b.down + [r] && b'.session == b.session && b'.cursor == b.cursor
    requires r.push.Some? && r.push.value.body.SubscribePush? ==> r.push.value.channel != topic.channel
    requires GoesOn(s.calls.issued, topic, b'.log, Ahead(s, topic, b.down), r, base.Some?)
    ensures Reads(s, b', topic, base)
    ensures Ahead(s, topic, b'.down) == Read(s.calls.issued, topic, Ahead(s, topic, b.down), r)
  {
    hide Identified, Outbox.Tidy, Ready, Holds, Flows, Mail, Reach, Effect, OpenIds, IsAskId, ConnectSuccess, GoesOn,
         Read;
    ReadyAnchored(s, WatchOf(s, b, topic, base.Some?));
    MailIds(s, b, topic);
    NoAsk(s.calls.issued, r, topic.channel);
    OpenAppend(s.calls.issued, b.down, r, topic.channel);
    MailAppend(s, b, b', r, topic);
    FlowsStable(s.calls.issued, s.calls.issued, topic, b.log, b'.log, Here(s, topic), b.down, base.Some?);
    HoldsGrows(s.subs[topic.channel], topic, base, b.log, b'.log);
    FlowsAppend(s.calls.issued, topic, b'.log, Here(s, topic), b.down, r, base.Some?);
    assert OpenIds(s.calls.issued, b'.down, topic.channel) == OpenIds(s.calls.issued, b.down, topic.channel);
  }

  lemma NoAsk(issued: seq<Issued>, r: Reply, ch: Channel)
    requires r.id == 0
    ensures !IsAskId(issued, r.id, ch) && !ConnectSuccess(issued, r)
  {}

  /** What carries the next entry fits where the client will be, and leaves it up to date. */
  lemma PublicationFits(
      issued: seq<Issued>, topic: Topic, b: Broker, y: Mark, payload: Bytes, p: Publication, strict: bool)
    requires UpToDate(y, b, topic) && b.joined
    requires IsEntry(p, |b.log| + 1, b.log + [payload], b.delta, LastSent(b), topic.protocol)
    requires y.hung || y.delta != b.delta ==> Continues(y, [Live(p)], b.log + [payload], topic, true)
    ensures var r := PushReply(topic.channel, PublicationPush(p));
      && GoesOn(issued, topic, b.log + [payload], y, r, strict)
      && UpToDate(Read(issued, topic, y, r), b.(log := b.log + [payload], primed := true), topic)
  {
    hide Moved, DeltaChain.Carries;
    var more := b.log + [payload];
    if !y.hung && y.delta && LastSent(b).None? {
      ConveysMore(p, true, y.base, payload, topic.protocol);
    }
    assert Continues(y, [Live(p)], more, topic, strict);
    MovedLive(y, p, more, topic, strict);
  }

  lemma PublishInv(w: World, topic: Topic, base: Option<nat>, payload: Bytes, p: Publication)
    requires Inv(w, topic, base) && Possible(w, topic, Publish(payload, p))
    ensures Inv(Next(w, topic, Publish(payload, p)), topic, base)
  {
    hide JointInvariant.Joint, Identified, Outbox.Tidy, Ready, Holds, Flows, Mail, Reach, OpenIds, GoesOn, Read,
         IsEntry, Continues, Ahead;
    var s, b := w.client, w.broker;
    var b' := Next(w, topic, Publish(payload, p)).broker;
    ReadyAnchored(s, WatchOf(s, b, topic, base.Some?));
    if b.joined {
      var r := PushReply(topic.channel, PublicationPush(p));
      PublicationFits(s.calls.issued, topic, b, Ahead(s, topic, b.down), payload, p, base.Some?);
      PushReads(s, b, b', topic, base, r);
      assert Session(s, b');
    } else {
      MailIds(s, b, topic);
      MailLog(s, b, b', topic);
      FlowsStable(s.calls.issued, s.calls.issued, topic, b.log, b'.log, Here(s, topic), b.down, base.Some?);
      HoldsGrows(s.subs[topic.channel], topic, base, b.log, b'.log);
    }
  }

  lemma MailLog(s: State, b: Broker, b': Broker, topic: Topic)
    requires Mail(s, b, topic) && b' == b.(log := b'.log, primed := b'.primed)
    ensures Mail(s, b', topic)
  {}

  // ---------- the server serves a command ----------

  /** The order of ids on the wire carries over to the replies. */
  lemma AnswersInOrder(s: State, b: Broker, topic: Topic)
    requires Mail(s, b, topic) && Outbox.Tidy(s) && |s.calls.issued| < TWO_32
    requires b.cursor < |s.out.wire| && s.out.wire[b.cursor].outgoing.command.id != 0
    ensures forall k :: 0 <= k < |b.down| ==> b.down[k].id < s.out.wire[b.cursor].outgoing.command.id
  {}

  /**
   The answer to a recovering request starts at or before where the client will be, and ends at
   the end of the log; so does the answer to one without a position, whatever it skips.
   */
  lemma AnswerContinues(
      req: SubscribeRequest, r: SubscribeResult, log: seq<Bytes>, topic: Topic, w: Watch, x: nat, y: Mark)
    requires w.epoch == topic.epoch && RequestOk(req, w, x) && Answers(req, r, log, topic) && x <= y.offset <= |log|
    ensures Continues(y, [Confirmed(r)], log, topic, w.strict)
    ensures var t := Moved(y, [Confirmed(r)], topic.protocol);
      && t.offset == |log| && t.epoch == topic.epoch && t.delta == r.delta && t.hung == y.hung
      && (r.delta && r.publications != [] ==> log != [] && t.base == log[|log| - 1])
  {
    hide Moved, Repeats;
    if r.publications == [] {
      MovedQuietly(y, r, topic.protocol);
    } else {
      assert Repeats(r.delta, req.offset, r.publications, log, topic.protocol);
      MovedConfirmed(y, r, req.offset, log, topic.protocol);
    }
  }

  /** A served command's reply fits where the client will be, and leaves it up to date. */
  lemma ReplyFits(issued: seq<Issued>, b: Broker, topic: Topic, cmd: Command, r: Reply, w: Watch, x: nat, y: Mark)
    requires 1 <= cmd.id <= |issued| && issued[cmd.id - 1].body == cmd.body && ReplyAllowed(b, topic, cmd, r)
    requires w.channel == topic.channel && w.epoch == topic.epoch && BodyOk(cmd.body, w, x)
    requires x <= y.offset && UpToDate(y, b, topic)
    ensures GoesOn(issued, topic, b.log, y, r, w.strict)
    ensures UpToDate(Read(issued, topic, y, r), Serve(b, topic, cmd, Some(r)), topic)
  {
    hide Continues, Moved, Answers, RequestOk;
    StaysPut(y, b.log, topic, EMPTY_RESULT, w.strict);
    match cmd.body {
      case SubscribeBody(req) =>
        if req.channel == topic.channel && r.error.None? && r.subscribe.Some? {
          AnswerContinues(req, r.subscribe.value, b.log, topic, w, x, y);
        }
      case ConnectBody(_, _, subs) =>
        if HandshakeResult(r).Ok? && topic.channel in HandshakeResult(r).value.subs {
          AnswerContinues(subs[topic.channel], HandshakeResult(r).value.subs[topic.channel], b.log, topic, w, x, y);
        }
      case _ =>
    }
  }

  /** Neither nothing nor an "already subscribed" moves the position; the latter makes the client forget deltas. */
  lemma StaysPut(y: Mark, log: seq<Bytes>, topic: Topic, r: SubscribeResult, strict: bool)
    requires r == EMPTY_RESULT
    ensures Continues(y, [], log, topic, strict) && Moved(y, [], topic.protocol) == y
    ensures Continues(y, [Confirmed(r)], log, topic, strict)
    ensures var t := Moved(y, [Confirmed(r)], topic.protocol);
      t.offset == y.offset && t.epoch == y.epoch && !t.delta && t.hung == y.hung
  {
    MovedQuietly(y, r, topic.protocol);
  }

  /** What serving the next command takes from the client and gives. */
  lemma AnswerNext(w: World, topic: Topic, r: Option<Reply>)
    requires Possible(w, topic, Answer(r))
    ensures w.client.link.stream && w.broker.cursor < |w.client.out.wire|
    ensures var cmd := w.client.out.wire[w.broker.cursor].outgoing.command;
      && (r.Some? ==> ReplyAllowed(w.broker, topic, cmd, r.value))
      && Next(w, topic, Answer(r)) == World(w.client, Serve(w.broker, topic, cmd, r))
  {}

  lemma AnswerInv(w: World, topic: Topic, base: Option<nat>, r: Option<Reply>)
    requires Inv(w, topic, base) && Possible(w, topic, Answer(r))
    ensures Inv(Next(w, topic, Answer(r)), topic, base)
  {
    hide JointInvariant.Joint, Identified, Outbox.Tidy, Ready, Holds, Flows, Mail, Reach, OpenIds, IsAskId,
         ConnectSuccess, ReplyAllowed, BodyOk, GoesOn, Read, JoinResult, Possible, Next;
    AnswerNext(w, topic, r);
    var s, b := w.client, w.broker;
    var cmd := s.out.wire[b.cursor].outgoing.command;
    var b' := Serve(b, topic, cmd, r);
    var v := WatchOf(s, b, topic, base.Some?);
    ReadyAnchored(s, v);
    var m := Here(s, topic);
    if r.None? {
      MailMoves(s, b, b', topic);
      UnansweredJoin(b, topic, cmd);
      ServedReady(s, v, v.(cursor := b.cursor + 1));
    } else {
      AnswerId(s, b, topic, cmd, r.value);
      ReachForward(s.calls.issued, topic, b.log, m, b.down, base.Some?);
      UnservedAsks(s, v);
      ReplyFits(s.calls.issued, b, topic, cmd, r.value, v, m.offset, Ahead(s, topic, b.down));
      FlowsAppend(s.calls.issued, topic, b.log, m, b.down, r.value, base.Some?);
      AnswersInOrder(s, b, topic);
      assert Served(s.out.wire, b'.cursor, r.value.id);
      MailAppend(s, b, b', r.value, topic);
      OpenAppend(s.calls.issued, b.down, r.value, topic.channel);
      ServedReady(s, v, WatchOf(s, b', topic, base.Some?));
    }
  }

  lemma UnservedAsks(s: State, v: Watch)
    requires Ready(s, v) && s.link.stream && |s.calls.issued| < TWO_32 && v.cursor < |s.out.wire|
    ensures BodyOk(s.out.wire[v.cursor].outgoing.command.body, v, s.subs[v.channel].offset)
  {}

  /** Facts about a served command that come from its id. */
  lemma AnswerId(s: State, b: Broker, topic: Topic, cmd: Command, r: Reply)
    requires Identified(s) && |s.calls.issued| < TWO_32 && Session(s, b)
    requires b.cursor < |s.out.wire| && cmd == s.out.wire[b.cursor].outgoing.command && ReplyAllowed(b, topic, cmd, r)
    ensures r.id == cmd.id != 0 && TakenFor(s.calls.issued, cmd.id, cmd.body)
    ensures ConnectSuccess(s.calls.issued, r) ==>
        s.link.handshake == Some(r.id) && Serve(b, topic, cmd, Some(r)).session
    ensures IsAskId(s.calls.issued, r.id, topic.channel)
        == (cmd.body.SubscribeBody? && cmd.body.request.channel == topic.channel)
  {}

  lemma UnansweredJoin(b: Broker, topic: Topic, cmd: Command)
    ensures var b' := Serve(b, topic, cmd, None);
      (b'.joined ==> b.joined) && b'.delta == b.delta && b'.primed == b.primed
  {}

  lemma MailMoves(s: State, b: Broker, b': Broker, topic: Topic)
    requires Mail(s, b, topic) && b'.down == b.down && b.cursor <= b'.cursor && (b.session ==> b'.session)
    ensures Mail(s, b', topic)
  {}

  /** The served command is no longer to be served; if it was a subscribe its reply is. */
  lemma ServedReady(s: State, v: Watch, v': Watch)
    requires Ready(s, v) && s.link.stream && |s.calls.issued| < TWO_32 && v.cursor < |s.out.wire|
    requires v' == v.(cursor := v.cursor + 1, open := v'.open)
    requires var cmd := s.out.wire[v.cursor].outgoing.command;
      v'.open <= v.open + if IsAsk(cmd, v) then {cmd.id} else {}
    ensures Ready(s, v')
  {}

  // ---------- the client reads a frame ----------

  /** After reading, the connection is as before. */
  lemma StayInv(s: State, t: State, b: Broker, n: nat, topic: Topic, base: Option<nat>)
    requires JointInvariant.Joint(s) && JointInvariant.Joint(t) && Session(s, b) && s.link.stream && t.link.stream
        && n <= |b.down|
    requires Reads(t, b.(down := b.down[n..]), topic, base) && CatchesUp(t, b.(down := b.down[n..]), topic)
    requires t.link.conn == s.link.conn && s.out.wire <= t.out.wire
    requires (t.link.handshake == s.link.handshake && t.calls.issued == s.calls.issued)
        || (b.session && t.link.handshake.None?)
    requires s.link.handshake.Some? && !b.session ==>
      forall i :: |s.out.wire| <= i < |t.out.wire| ==> t.out.wire[i].outgoing.command.id == 0
    ensures Inv(World(t, b.(down := b.down[n..])), topic, base)
  {
    hide JointInvariant.Joint, Reads, CatchesUp;
    SessionAfter(s, t, b, b.(down := b.down[n..]));
  }

  /** After reading, the connection is as before or gone. */
  lemma ReadInv(s: State, t: State, b: Broker, n: nat, topic: Topic, base: Option<nat>)
    requires JointInvariant.Joint(s) && JointInvariant.Joint(t) && Session(s, b) && s.link.stream && n <= |b.down|
    requires Reads(t, b.(down := b.down[n..]), topic, base) && CatchesUp(t, b.(down := b.down[n..]), topic)
    requires Onward(s, t) && t.calls.issued == s.calls.issued
    requires forall i :: |s.out.wire| <= i < |t.out.wire| ==> t.out.wire[i].outgoing.command.id == 0
    ensures Inv(World(t, Rejoin(s, t, b.(down := b.down[n..]))), topic, base)
  {
    hide JointInvariant.Joint, Identified, Outbox.Tidy, Ready, Flows, Mail, Ahead, Holds, CatchesUp, Session, Inv;
    var b1 := b.(down := b.down[n..]);
    if t.link.stream {
      StayInv(s, t, b, n, topic, base);
    } else {
      GoneInv(t, WatchOf(t, b1, topic, base.Some?), topic, base, b.log);
    }
  }

  lemma SessionAfter(s: State, t: State, b: Broker, b1: Broker)
    requires JointInvariant.Joint(s) && JointInvariant.Joint(t) && Session(s, b) && b1 == b.(down := b1.down)
    requires s.link.stream && t.link.stream && s.out.wire <= t.out.wire
    requires (t.link.handshake == s.link.handshake && t.calls.issued == s.calls.issued)
        || (b.session && t.link.handshake.None?)
    requires s.link.handshake.Some? && !b.session ==>
      forall i :: |s.out.wire| <= i < |t.out.wire| ==> t.out.wire[i].outgoing.command.id == 0
    ensures Session(t, b1)
  {}

  /** Unread replies are no connect replies, but for the awaited one. */
  lemma NoSuccess(s: State, b: Broker, topic: Topic, k: nat)
    requires Mail(s, b, topic) && k < |b.down| && s.link.handshake != Some(b.down[k].id)
    ensures !ConnectSuccess(s.calls.issued, b.down[k])
  {}

  lemma DataInv(w: World, topic: Topic, base: Option<nat>, fates: seq<Fate>, plan: seq<Attempt>)
    requires Inv(w, topic, base) && Possible(w, topic, Deliver(fates, plan)) && w.client.link.handshake.None?
    requires |Next(w, topic, Deliver(fates, plan)).client.calls.issued| < TWO_32
    ensures Inv(Next(w, topic, Deliver(fates, plan)), topic, base)
  {
    hide JointInvariant.Joint, Identified, Outbox.Tidy, Ready, Flows, Mail, Ahead, Holds, DispatchAll, ConnectSuccess,
         Session;
    var s, b := w.client, w.broker;
    var arrivals := Frame(b.down, fates);
    var t := DispatchAll(s, arrivals);
    assert t == Step(s, Data(arrivals));
    StepBasics(s, Data(arrivals));
    forall k | 0 <= k < |arrivals|
      ensures !ConnectSuccess(s.calls.issued, b.down[k])
    {
      NoSuccess(s, b, topic, k);
    }
    ReadMany(s, b, arrivals, topic, base);
    ReadInv(s, t, b, |fates|, topic, base);
  }

  /** A handshake frame is read up to the awaited reply, which is its last. */
  lemma ShakeNext(w: World, topic: Topic, fates: seq<Fate>, plan: seq<Attempt>)
    requires Possible(w, topic, Deliver(fates, plan)) && w.client.link.handshake.Some?
    ensures var s, b := w.client, w.broker;
      var arrivals := Frame(b.down, fates);
      var n := Before(arrivals, s.link.handshake.value);
      var s1 := DispatchAll(s, arrivals[..n]);
      var t := Step(s, Shake(arrivals, plan));
      && Next(w, topic, Deliver(fates, plan)) == World(t, Rejoin(s, t, b.(down := b.down[|fates|..])))
      && s.link.stream && t == (if n == |arrivals| then s1 else FinishHandshake(s1, arrivals[n].reply, plan))
      && (n < |arrivals| ==> n == |fates| - 1)
  {
    hide DispatchAll, FinishHandshake, PlanFits, Rejoin;
  }

  /** What precedes the awaited reply in its frame is read. */
  lemma ShakeReads(w: World, topic: Topic, base: Option<nat>, fates: seq<Fate>)
    requires Inv(w, topic, base) && |fates| <= |w.broker.down| && w.client.link.handshake.Some? && w.client.link.stream
    ensures var s, b := w.client, w.broker;
      var arrivals := Frame(b.down, fates);
      var n := Before(arrivals, s.link.handshake.value);
      var s1 := DispatchAll(s, arrivals[..n]);
      var b1 := b.(down := b.down[n..]);
      && Reads(s1, b1, topic, base) && CatchesUp(s1, b1, topic)
      && Onward(s, s1) && s1.calls.issued == s.calls.issued && s.link.handshake.value == |s.calls.issued|
      && (forall i :: |s.out.wire| <= i < |s1.out.wire| ==> s1.out.wire[i].outgoing.command.id == 0)
  {
    hide JointInvariant.Joint, Identified, Outbox.Tidy, Ready, Flows, Ahead, Holds, DispatchAll, ConnectSuccess,
         Session, Mail, UpToDate;
    var s, b := w.client, w.broker;
    var id := s.link.handshake.value;
    var arrivals := Frame(b.down, fates);
    var n := Before(arrivals, id);
    var s1 := DispatchAll(s, arrivals[..n]);
    var b1 := b.(down := b.down[n..]);
    forall k | 0 <= k < n
      ensures !ConnectSuccess(s.calls.issued, b.down[k])
    {
      assert arrivals[k].reply == b.down[k];
      NoSuccess(s, b, topic, k);
    }
    ReadMany(s, b, arrivals[..n], topic, base);
    ReadsAnchored(s, b, topic, base);
    ReadsAnchored(s1, b1, topic, base);
    CaughtAlong(s, s1, b, b1, topic);
    SessionAwaits(s, b);
  }

  lemma ShakeInv(w: World, topic: Topic, base: Option<nat>, fates: seq<Fate>, plan: seq<Attempt>)
    requires Inv(w, topic, base) && Possible(w, topic, Deliver(fates, plan)) && w.client.link.handshake.Some?
    requires |Next(w, topic, Deliver(fates, plan)).client.calls.issued| < TWO_32
    ensures Inv(Next(w, topic, Deliver(fates, plan)), topic, base)
  {
    hide *;
    var s, b := w.client, w.broker;
    InvParts(w, topic, base);
    DeliverBounds(w, topic, fates, plan);
    var arrivals := Frame(b.down, fates);
    var n := Before(arrivals, s.link.handshake.value);
    var s1 := DispatchAll(s, arrivals[..n]);
    var b1 := b.(down := b.down[n..]);
    ShakeNext(w, topic, fates, plan);
    ReadsBasics(s, b, topic, base);
    StepBasics(s, Shake(arrivals, plan));
    ShakeReads(w, topic, base, fates);
    if n == |arrivals| {
      ReadInv(s, Step(s, Shake(arrivals, plan)), b, n, topic, base);
    } else {
      assert arrivals[n].reply == b.down[n] == b1.down[0];
      OnwardMeans(s, s1);
      assert b1.down[1..] == b.down[|fates|..];
      FinishInv(s, s1, b, b1, plan, topic, base);
    }
  }

  lemma InvParts(w: World, topic: Topic, base: Option<nat>)
    requires Inv(w, topic, base)
    ensures JointInvariant.Joint(w.client) && Reads(w.client, w.broker, topic, base) && Session(w.client, w.broker)
  {}

  lemma DeliverBounds(w: World, topic: Topic, fates: seq<Fate>, plan: seq<Attempt>)
    requires Possible(w, topic, Deliver(fates, plan)) && w.client.link.handshake.Some?
    ensures |fates| <= |w.broker.down| && w.client.link.stream
  {}

  lemma ReadsBasics(s: State, b: Broker, topic: Topic, base: Option<nat>)
    requires Reads(s, b, topic, base)
    ensures Identified(s) && Outbox.Tidy(s) && |s.calls.issued| < TWO_32
  {}

  lemma SessionAwaits(s: State, b: Broker)
    requires Session(s, b) && s.link.stream && s.link.handshake.Some?
    ensures s.link.handshake.value == |s.calls.issued|
  {}

  /** The awaited connect reply is read. */
  lemma FinishInv(s0: State, s: State, b0: Broker, b: Broker, plan: seq<Attempt>, topic: Topic, base: Option<nat>)
    requires JointInvariant.Joint(s0) && Session(s0, b0) && s0.link.stream && b == b0.(down := b.down)
    requires Reads(s, b, topic, base) && CatchesUp(s, b, topic)
    requires s.link.conn == s0.link.conn && s0.out.wire <= s.out.wire
    requires b.down != [] && s.link.handshake == Some(b.down[0].id) == s0.link.handshake
        && b.down[0].id == |s.calls.issued|
    requires var t := FinishHandshake(s, b.down[0], plan);
      JointInvariant.Joint(t) && Identified(t) && Outbox.Tidy(t) && |t.calls.issued| < TWO_32
    ensures var t := FinishHandshake(s, b.down[0], plan);
      Inv(World(t, Rejoin(s0, t, b.(down := b.down[1..]))), topic, base)
  {
    hide JointInvariant.Joint, Identified, Outbox.Tidy, Ready, Holds, Flows, Mail, Ahead, OpenIds, OnHandshakeSuccess,
         OnHandshakeFailure, CatchesUp, Session, Inv;
    var r := b.down[0];
    var t := FinishHandshake(s, r, plan);
    var v := WatchOf(s, b, topic, base.Some?);
    ReadsAnchored(s, b, topic, base);
    match HandshakeResult(r) {
      case Err(e) =>
        FailureKeeps(s, e, v, topic, base, b.log);
        GoneInv(t, v, topic, base, b.log);
      case Ok(result) =>
        AwaitedFits(s, b, topic, base.Some?);
        SuccessStream(s, result, plan);
        if t.link.stream {
          ConnectRead(s, b, topic);
          NoMoreConnects(s, v);
          SuccessReady(s, result, plan, v.(connects := false), topic, base, b.log);
          SuccessReads(s, b, result, plan, topic, base);
          SessionAfter(s0, t, b0, b.(down := b.down[1..]));
          TogetherInv(t, b.(down := b.down[1..]), topic, base);
        } else {
          SuccessReady(s, result, plan, v, topic, base, b.log);
          GoneInv(t, v, topic, base, b.log);
        }
    }
  }

  /** Nothing with an id is queued or written but not served. */
  ghost predicate NothingNumbered(s: State, cursor: nat) {
    && (forall i :: 0 <= i < |s.out.batch.queue| ==> s.out.batch.queue[i].command.id == 0)
    && (forall i :: cursor <= i < |s.out.wire| ==> s.out.wire[i].outgoing.command.id == 0)
  }

  /** The connect command was the last to get an id, and it was served. */
  lemma ConnectRead(s: State, b: Broker, topic: Topic)
    requires Outbox.Tidy(s) && |s.calls.issued| < TWO_32 && Mail(s, b, topic)
    requires b.down != [] && b.down[0].id == |s.calls.issued| != 0
    ensures NothingNumbered(s, b.cursor)
  {
    assert Served(s.out.wire, b.cursor, b.down[0].id);
  }

  lemma NoMoreConnects(s: State, v: Watch)
    requires Ready(s, v) && NothingNumbered(s, v.cursor)
    ensures Ready(s, v.(connects := false))
  {}

  lemma TogetherInv(t: State, b: Broker, topic: Topic, base: Option<nat>)
    requires JointInvariant.Joint(t) && Reads(t, b, topic, base) && Session(t, b) && CatchesUp(t, b, topic)
    ensures Inv(World(t, b), topic, base)
  {
    hide JointInvariant.Joint, Reads, Session, CatchesUp;
  }

  lemma SuccessStream(s: State, r: ConnectResult, plan: seq<Attempt>)
    ensures OnHandshakeSuccess(s, r, plan).link.stream == s.link.stream
        && OnHandshakeSuccess(s, r, plan).link.handshake.None?
  {
    hide ResubscribeAll, Tell, Note, ResolvedSubs, RefreshedServers, RefreshTimers;
    ResubscribeLink(Establish(s, r), plan);
  }

  /** After the awaited reply there is no further connect reply. */
  lemma MailDone(s: State, t: State, b: Broker, topic: Topic)
    requires Mail(s, b, topic) && Identified(s) && |s.calls.issued| < TWO_32
    requires b.down != [] && s.link.handshake == Some(b.down[0].id)
    requires s.out.wire <= t.out.wire && s.calls.issued <= t.calls.issued
    ensures Mail(t, b.(down := b.down[1..]), topic)
  {
    MailIds(s, b, topic);
    var rest := b.down[1..];
    forall k | 0 <= k < |rest|
      ensures rest[k] == b.down[k + 1]
      ensures rest[k].id != 0 ==> Served(t.out.wire, b.cursor, rest[k].id)
      ensures !ConnectSuccess(t.calls.issued, rest[k])
    {
      if rest[k].id != 0 {
        assert Served(s.out.wire, b.cursor, b.down[k + 1].id);
        var j :| 0 <= j < b.cursor && j < |s.out.wire| && s.out.wire[j].outgoing.command.id == rest[k].id;
        assert t.out.wire[j] == s.out.wire[j];
      }
      assert b.down[k + 1].id != 0 ==> b.down[0].id < b.down[k + 1].id;
    }
  }

  /** The awaited reply does to the subscription what the connect result says. */
  lemma AwaitedEffect(s: State, r: Reply, ch: Channel, hung: bool)
    requires Identified(s) && |s.calls.issued| < TWO_32 && s.link.handshake == Some(r.id)
    ensures 1 <= r.id <= |s.calls.issued| && Effect(s.calls.issued, r, ch, hung) == ConnectBrings(r, ch)
    ensures HandshakeResult(r).Ok? ==> ConnectSuccess(s.calls.issued, r)
    ensures !IsAskId(s.calls.issued, r.id, ch) && !IsHangup(r)
  {}

  lemma AwaitedFits(s: State, b: Broker, topic: Topic, strict: bool)
    requires b.down != [] && s.link.handshake == Some(b.down[0].id) && Identified(s) && |s.calls.issued| < TWO_32
    requires topic.channel in s.subs && Flows(s.calls.issued, topic, b.log, Here(s, topic), b.down, strict)
    ensures Continues(Here(s, topic), ConnectBrings(b.down[0], topic.channel), b.log, topic, strict)
        && b.down[0].id != 0
  {
    hide Identified, Flows, Effect, Continues, Read, ConnectBrings;
    AwaitedEffect(s, b.down[0], topic.channel, !s.link.stream);
    FirstFlows(s.calls.issued, topic, b.log, Here(s, topic), b.down, strict);
  }

  lemma FailureKeeps(s: State, e: ClientError, v: Watch, topic: Topic, base: Option<nat>, log: seq<Bytes>)
    requires Ready(s, v) && v.channel == topic.channel && s.config.protocol == topic.protocol
    requires Holds(s.subs[topic.channel], topic, base, log)
    ensures var t := OnHandshakeFailure(s, e);
      && Ready(t, v) && topic.channel in t.subs && Holds(t.subs[topic.channel], topic, base, log)
      && t.config.protocol == topic.protocol && !t.link.stream
  {
    hide Ready, Holds, OnHandshakeFailure, Lived;
    ReadyAnchored(s, v);
    FailureUnmoved(s, e, topic.channel);
    UnmovedHolds(s, OnHandshakeFailure(s, e), topic, base, log);
    FailureReady(s, e, v);
  }

  /** Fewer replies on their way. */
  lemma NarrowOpen(s: State, v: Watch, v': Watch)
    requires Ready(s, v) && v' == v.(open := v'.open) && v'.open <= v.open
    ensures Ready(s, v')
  {}

  /** What the connect result does to the position. */
  lemma EstablishHolds(s: State, result: ConnectResult, v: Watch, topic: Topic, base: Option<nat>, log: seq<Bytes>)
    requires Ready(s, v) && SameTopic(Outset(topic, 0, base.Some?), v) && s.config.protocol == topic.protocol
    requires Holds(s.subs[v.channel], topic, base, log)
    requires Continues(Here(s, topic), if v.channel in result.subs then [Confirmed(result.subs[v.channel])] else [],
        log, topic, base.Some?)
    ensures var t := Establish(s, result);
      && topic.channel in t.subs && Holds(t.subs[topic.channel], topic, base, log)
          && t.config.protocol == topic.protocol
      && Placed(t.subs[topic.channel], v) && s.subs[topic.channel].offset <= t.subs[topic.channel].offset
  {
    hide Establish, Ready, Holds, Lived, Continues, Moved, Placed;
    ReadyAnchored(s, v);
    var c := v.channel;
    var m := Here(s, topic);
    var h := if c in result.subs then [Confirmed(result.subs[c])] else [];
    EstablishLived(s, result, c);
    LivedHolds(s, Establish(s, result), h, m.hung, topic, base, log);
    ContinuesForward(m, h, log, topic, base.Some?);
    HoldsPlaced(s.subs[c], Establish(s, result).subs[c], topic, base, log, v);
  }

  /** The connect result is processed and every subscription still to be made is requested. */
  lemma SuccessReady(
      s: State, result: ConnectResult, plan: seq<Attempt>, v: Watch, topic: Topic, base: Option<nat>, log: seq<Bytes>)
    requires Ready(s, v) && SameTopic(Outset(topic, 0, base.Some?), v) && s.config.protocol == topic.protocol
    requires Holds(s.subs[v.channel], topic, base, log)
    requires Continues(Here(s, topic), if v.channel in result.subs then [Confirmed(result.subs[v.channel])] else [],
        log, topic, base.Some?)
    ensures var t := OnHandshakeSuccess(s, result, plan);
      && Ready(t, v) && t.link.conn == s.link.conn && s.out.wire <= t.out.wire && s.calls.issued <= t.calls.issued
      && topic.channel in t.subs && Holds(t.subs[topic.channel], topic, base, log)
          && t.config.protocol == topic.protocol
  {
    hide Establish, ResubscribeAll, Ready, Holds, Continues, Placed;
    var s1 := Establish(s, result);
    var s2 := ResubscribeAll(s1, plan);
    EstablishHolds(s, result, v, topic, base, log);
    EstablishReady(s, result, v);
    ResubscribeReady(s1, plan, v);
    SameReady(s2, AnswerConnectWaiters(s2), v);
    ResubscribeUnmoved(s1, plan, v.channel);
    UnmovedHolds(s1, s2, topic, base, log);
  }

  lemma SuccessReads(s: State, b: Broker, result: ConnectResult, plan: seq<Attempt>, topic: Topic, base: Option<nat>)
    requires Reads(s, b, topic, base) && CatchesUp(s, b, topic) && b.down != []
        && s.link.handshake == Some(b.down[0].id)
    requires HandshakeResult(b.down[0]) == Ok(result)
    requires var t := OnHandshakeSuccess(s, result, plan);
      Identified(t) && Outbox.Tidy(t) && |t.calls.issued| < TWO_32 && t.link.stream == s.link.stream
    requires var t := OnHandshakeSuccess(s, result, plan);
      && Ready(t, WatchOf(s, b, topic, base.Some?).(connects := false)) && t.link.handshake.None? && t.link.stream
      && t.link.conn == s.link.conn && s.out.wire <= t.out.wire && s.calls.issued <= t.calls.issued
      && topic.channel in t.subs && Holds(t.subs[topic.channel], topic, base, b.log)
          && t.config.protocol == topic.protocol
    ensures var t := OnHandshakeSuccess(s, result, plan);
      Reads(t, b.(down := b.down[1..]), topic, base) && CatchesUp(t, b.(down := b.down[1..]), topic) && b.session
  {
    hide Identified, Outbox.Tidy, Ready, Holds, Flows, Mail, Reach, OpenIds, OnHandshakeSuccess, Effect, Lived, Moved,
         Continues, ConnectSuccess, IsAskId, UpToDate;
    var t := OnHandshakeSuccess(s, result, plan);
    var c := topic.channel;
    var issued := s.calls.issued;
    var rest := b.down[1..];
    var v := WatchOf(s, b, topic, base.Some?);
    ReadsAnchored(s, b, topic, base);
    var m := Here(s, topic);
    var h := ConnectBrings(b.down[0], c);
    AwaitedEffect(s, b.down[0], c, m.hung);
    FirstFlows(issued, topic, b.log, m, b.down, base.Some?);
    SuccessLived(s, result, plan, c);
    LivedHolds(s, t, h, m.hung, topic, base, b.log);
    MailDone(s, t, b, topic);
    MailIds(s, b, topic);
    MailSession(s, b, topic);
    FlowsStable(issued, t.calls.issued, topic, b.log, b.log, Here(t, topic), rest, base.Some?);
    OpenStable(issued, t.calls.issued, rest, c);
    MailOrder(s, b, topic);
    OpenRest(issued, b.down, c);
    NarrowOpen(t, v.(connects := false), WatchOf(t, b.(down := rest), topic, base.Some?));
    CaughtAlong(s, t, b, b.(down := rest), topic);
  }

  lemma MailSession(s: State, b: Broker, topic: Topic)
    requires Mail(s, b, topic) && b.down != [] && ConnectSuccess(s.calls.issued, b.down[0])
    ensures b.session
  {}

  lemma MailOrder(s: State, b: Broker, topic: Topic)
    requires Mail(s, b, topic) && b.down != []
    ensures forall k :: 0 < k < |b.down| && b.down[k].id != 0 ==> b.down[0].id < b.down[k].id
  {}

  // ---------- the theorem ----------

  lemma NextInv(w: World, topic: Topic, base: Option<nat>, m: Move)
    requires Inv(w, topic, base) && Possible(w, topic, m) && |Next(w, topic, m).client.calls.issued| < TWO_32
    ensures Inv(Next(w, topic, m), topic, base)
  {
    hide Inv, Next;
    match m {
      case Local(i) =>
        assert Next(w, topic, m).client == Step(w.client, i) by { NextClient(w, topic, m); }
        LocalInv(w, topic, base, i);
      case Deliver(fates, plan) =>
        if w.client.link.handshake.Some? {
          ShakeInv(w, topic, base, fates, plan);
        } else {
          DataInv(w, topic, base, fates, plan);
        }
      case Answer(r) => AnswerInv(w, topic, base, r);
      case Publish(payload, p) => PublishInv(w, topic, base, payload, p);
      case Kick(_) => QuietInv(w, topic, base, m);
      case Hangup(_) => QuietInv(w, topic, base, m);
      case Notice(_) => QuietInv(w, topic, base, m);
    }
  }

  lemma NextClient(w: World, topic: Topic, m: Move)
    requires Possible(w, topic, m) && m.Local?
    ensures Next(w, topic, m).client == Step(w.client, m.input)
  {}

  /** The reply that a quiet move sends. */
  function QuietReply(topic: Topic, m: Move): Reply {
    match m
    case Kick(code) => PushReply(topic.channel, UnsubscribePush(code))
    case Hangup(code) => PushReply("", DisconnectPush(code))
    case Notice(r) => r
    case _ => PushReply("", EmptyPush)
  }

  lemma QuietNext(w: World, topic: Topic, m: Move)
    requires Possible(w, topic, m) && (m.Kick? || m.Hangup? || m.Notice?)
    ensures (w.broker.joined || w.client.link.stream) && QuietReply(topic, m).id == 0
    ensures var r := QuietReply(topic, m);
      r.push.Some? && (r.push.value.body.PublicationPush? || r.push.value.body.SubscribePush?) ==>
          r.push.value.channel != topic.channel
    ensures var b' := Next(w, topic, m).broker;
      && Next(w, topic, m).client == w.client && (b'.joined ==> w.broker.joined)
      && b' == w.broker.(joined := b'.joined, down := w.broker.down + [QuietReply(topic, m)])
  {}

  lemma QuietInv(w: World, topic: Topic, base: Option<nat>, m: Move)
    requires Inv(w, topic, base) && Possible(w, topic, m) && (m.Kick? || m.Hangup? || m.Notice?)
    ensures Inv(Next(w, topic, m), topic, base)
  {
    hide JointInvariant.Joint, Reads, Ahead, Possible, Next, QuietReply;
    QuietNext(w, topic, m);
    var s, b := w.client, w.broker;
    var b' := Next(w, topic, m).broker;
    var r := QuietReply(topic, m);
    ReadsAnchored(s, b, topic, base);
    QuietFits(s.calls.issued, topic, b.log, Ahead(s, topic, b.down), r, base.Some?);
    PushReads(s, b, b', topic, base, r);
    assert Session(s, b');
  }

  lemma ReadsAnchored(s: State, b: Broker, topic: Topic, base: Option<nat>)
    requires Reads(s, b, topic, base)
    ensures topic.channel in s.subs
  {}

  /** A push that is no publication of the watched channel fits anywhere. */
  lemma QuietFits(issued: seq<Issued>, topic: Topic, log: seq<Bytes>, y: Mark, r: Reply, strict: bool)
    requires r.id == 0 && (r.push.Some? && r.push.value.body.PublicationPush? ==> r.push.value.channel != topic.channel)
    ensures GoesOn(issued, topic, log, y, r, strict)
    ensures Read(issued, topic, y, r) == if IsHangup(r) then y.(hung := true) else y
  {}

  /** A subscription that starts from a position in the epoch of the log. */
  predicate StartsAt(sub: SubscriptionConfig, topic: Topic) { sub.since.Some? && sub.since.value.epoch == topic.epoch }

  /** A subscription that wants recovery and, if it starts from a position, from one in the log. */
  predicate Begins(sub: SubscriptionConfig, topic: Topic, log: seq<Bytes>) {
    && (sub.since.Some? || sub.recoverable)
    && (CanRecover(NewSub(sub)) ==> sub.since.value.epoch == topic.epoch && sub.since.value.offset <= |log|)
  }

  lemma StartInv(config: ClientConfig, topic: Topic, sub: SubscriptionConfig, base: Option<nat>, log: seq<Bytes>)
    requires Begins(sub, topic, log) && config.protocol == topic.protocol
    requires base.Some? ==> CanRecover(NewSub(sub)) && base == Some(sub.since.value.offset)
    ensures Inv(Start(config, topic, sub, log), topic, base)
  {
    hide Step, JointInvariant.Joint, Outbox.Tidy, Identified, Ready, Holds;
    var i := Ask(NewSubscription(topic.channel, sub, 0), Accepted);
    StartBasics(config, topic, sub, base, log);
    StepBasics(Init(config), i);
    FreshInv(Step(Init(config), i), 0, topic, base, log);
  }

  lemma StartBasics(config: ClientConfig, topic: Topic, sub: SubscriptionConfig, base: Option<nat>, log: seq<Bytes>)
    requires Begins(sub, topic, log) && config.protocol == topic.protocol
    requires base.Some? ==> CanRecover(NewSub(sub)) && base == Some(sub.since.value.offset)
    ensures JointInvariant.Joint(Init(config)) && Identified(Init(config)) && Outbox.Tidy(Init(config))
    ensures var t := Step(Init(config), Ask(NewSubscription(topic.channel, sub, 0), Accepted));
      && t.calls.issued == [] && t.out.wire == [] && !t.link.stream && t.config.protocol == topic.protocol
      && Ready(t, Outset(topic, 0, base.Some?))
      && topic.channel in t.subs && Holds(t.subs[topic.channel], topic, base, log)
  {
    hide Step;
    InitBasics(config);
    StartState(config, topic, sub);
  }

  lemma InitBasics(config: ClientConfig)
    ensures JointInvariant.Joint(Init(config)) && Identified(Init(config)) && Outbox.Tidy(Init(config))
  {}

  lemma StartState(config: ClientConfig, topic: Topic, sub: SubscriptionConfig)
    ensures var s, t := Init(config), Step(Init(config), Ask(NewSubscription(topic.channel, sub, 0), Accepted));
      && t.config == config && t.calls == s.calls && t.out == s.out && t.link == s.link && t.servers == s.servers
      && t.subs == map[topic.channel := NewSub(sub)]
  {
    StartEnabled(config, topic, sub);
    hide Enabled, Tell;
  }

  lemma StartEnabled(config: ClientConfig, topic: Topic, sub: SubscriptionConfig)
    ensures Enabled(Init(config), Ask(NewSubscription(topic.channel, sub, 0), Accepted))
  {}

  lemma PlayGrows(w: World, topic: Topic, moves: seq<Move>, m: Move)
    ensures var v := Play(w, topic, moves); Possible(v, topic, m) ==>
        v.client.calls.issued <= Next(v, topic, m).client.calls.issued
  {
    hide Step;
    var v := Play(w, topic, moves);
    if Possible(v, topic, m) {
      match m {
        case Local(i) => RequestIdentity.StepKeeps(v.client, i);
        case Deliver(fates, plan) => RequestIdentity.StepKeeps(v.client,
            Reading(v.client, Frame(v.broker.down, fates), plan));
        case _ =>
      }
    }
  }

  /** The joint invariant of client and server is kept by every run. */
  lemma {:induction false} PlayInv(w: World, topic: Topic, base: Option<nat>, moves: seq<Move>)
    requires Inv(w, topic, base) && |Play(w, topic, moves).client.calls.issued| < TWO_32
    ensures Inv(Play(w, topic, moves), topic, base)
    decreases |moves|
  {
    hide Inv, Possible, Next;
    if moves != [] {
      var early, m := moves[..|moves| - 1], moves[|moves| - 1];
      PlayGrows(w, topic, early, m);
      PlayInv(w, topic, base, early);
      if Possible(Play(w, topic, early), topic, m) {
        NextInv(Play(w, topic, early), topic, base, m);
      }
    }
  }

  /**
   The subscription has delivered the entries after `base` up to where it stands as the server
   logged them, and nothing else, and it is at the end of the log as long as the server holds it
   subscribed and nothing is in flight.
   */
  ghost predicate Kept(w: World, topic: Topic, base: nat) {
    && topic.channel in w.client.subs
    && var t := w.client.subs[topic.channel];
       && base <= t.offset && Covered(Deliveries(t.log), base, t.offset, w.broker.log)
       && Genuine(Deliveries(t.log), w.broker.log) && NoneBeyond(Deliveries(t.log), t.offset)
       && (w.broker.joined && w.broker.down == [] ==> t.offset == |w.broker.log|)
  }

  lemma InvKept(w: World, topic: Topic, base: nat)
    requires Inv(w, topic, Some(base))
    ensures Kept(w, topic, base)
  {}

  /**
   Recovery without gaps: however the connection comes and goes, a subscription that starts from
   a position it can recover from keeps up with the log.
   */
  lemma NoEntryMissed(config: ClientConfig, topic: Topic, sub: SubscriptionConfig, log: seq<Bytes>, moves: seq<Move>)
    requires StartsAt(sub, topic) && CanRecover(NewSub(sub)) && sub.since.value.offset <= |log|
        && config.protocol == topic.protocol
    requires |Play(Start(config, topic, sub, log), topic, moves).client.calls.issued| < TWO_32
    ensures Kept(Play(Start(config, topic, sub, log), topic, moves), topic, sub.since.value.offset)
  {
    hide Play, Start, Inv, Kept;
    var w := Start(config, topic, sub, log);
    StartInv(config, topic, sub, Some(sub.since.value.offset), log);
    PlayInv(w, topic, Some(sub.since.value.offset), moves);
    InvKept(Play(w, topic, moves), topic, sub.since.value.offset);
  }
}
