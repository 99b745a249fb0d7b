/**
 Recovery without gaps: the client composed with a server that keeps an append-only log for one
 channel, answers a recovering subscribe with everything after the requested offset, and sends
 each entry in full or, where deltas were negotiated, as a valid delta from its predecessor.
 */
module Recovery {
  import opened Prelude
  import opened Lines
  import opened Protocol
  import opened Subscriptions
  import opened ActorState
  import opened SubHistory
  import DeltaChain

  // ---------- the other side ----------

  /** The watched channel, the epoch of its log and the protocol of the connection. */
  datatype Topic = Topic(channel: Channel, epoch: string, protocol: ProtocolType)

  /**
   Entry `k` of the channel's log is `log[k - 1]`. On the present connection: whether the connect
   command was accepted, whether the channel is subscribed, with deltas or without, whether a
   publication was sent since, so that the next may be a delta from it, how many written commands
   were served, and the replies on their way, in order.
   */
  datatype Broker = Broker(
    log: seq<Bytes>, session: bool, joined: bool, delta: bool, primed: bool, cursor: nat, down: seq<Reply>)

  datatype World = World(client: State, broker: Broker)

  function Idle(log: seq<Bytes>, cursor: nat): Broker { Broker(log, false, false, false, false, cursor, []) }

  /** `p` carries `payload`: in full or, if deltas are on, possibly as a delta from `prev`. */
  predicate Conveys(p: Publication, delta: bool, prev: Option<Bytes>, payload: Bytes, protocol: ProtocolType) {
    if delta then DeltaChain.Carries(p, prev, payload, protocol) else p.data == payload
  }

  predicate IsEntry(p: Publication, k: nat, log: seq<Bytes>, delta: bool, prev: Option<Bytes>, protocol: ProtocolType) {
    1 <= k <= |log| && p.offset == k && Conveys(p, delta, prev, log[k - 1], protocol)
  }

  /** The entries after `from`, the first in full, the others possibly as deltas from their predecessors. */
  predicate Repeats(delta: bool, from: nat, ps: seq<Publication>, log: seq<Bytes>, protocol: ProtocolType) {
    && from + |ps| <= |log|
    && forall i :: 0 <= i < |ps| ==>
         IsEntry(ps[i], from + 1 + i, log, delta, if i == 0 then None else Some(log[from + i - 1]), protocol)
  }

  predicate Recovers(req: SubscribeRequest, topic: Topic) { req.recover && req.epoch == topic.epoch }

  /** A recovering request gets every entry after its offset, one without a position the end of the log. */
  predicate Answers(req: SubscribeRequest, r: SubscribeResult, log: seq<Bytes>, topic: Topic) {
    && (Recovers(req, topic) ==>
          && r.recoverable && r.epoch == topic.epoch
          && req.offset + |r.publications| == |log|
          && Repeats(r.delta, req.offset, r.publications, log, topic.protocol)
          && (r.publications == [] ==> r.offset == |log|))
    && (!req.recover ==> r.recoverable && r.epoch == topic.epoch && r.publications == [] && r.offset == |log|)
  }

  /**
   A reply the server may give to `cmd`; only replies that concern the watched channel are
   constrained. "Already subscribed" brings no result.
   */
  predicate ReplyAllowed(sv: Broker, topic: Topic, cmd: Command, r: Reply) {
    && r.id == cmd.id != 0
    && match cmd.body
       case SubscribeBody(req) =>
         req.channel == topic.channel && AcceptedResult(r).Some? ==>
           if r.error.None? then sv.session && Answers(req, r.subscribe.value, sv.log, topic)
           else r.subscribe.None?
       case ConnectBody(_, _, subs) =>
         HandshakeResult(r).Ok? ==>
           !sv.session &&
           (topic.channel in HandshakeResult(r).value.subs ==>
              topic.channel in subs && Answers(subs[topic.channel], HandshakeResult(r).value.subs[topic.channel],
                  sv.log, topic))
       case _ => true
  }

  /** The result with which serving `cmd` subscribes the channel. */
  function JoinResult(topic: Topic, cmd: Command, r: Option<Reply>): Option<SubscribeResult> {
    if r.None? then None
    else match cmd.body
      case SubscribeBody(req) => if req.channel == topic.channel && r.value.error.None? then r.value.subscribe else None
      case ConnectBody(_, _, _) =>
        if HandshakeResult(r.value).Ok? && topic.channel in HandshakeResult(r.value).value.subs
        then Some(HandshakeResult(r.value).value.subs[topic.channel]) else None
      case _ => None
  }

  function Serve(sv: Broker, topic: Topic, cmd: Command, r: Option<Reply>): Broker {
    var joins := JoinResult(topic, cmd, r);
    sv.(session := sv.session || (cmd.body.ConnectBody? && r.Some? && HandshakeResult(r.value).Ok?),
        joined := joins.Some? || (sv.joined && cmd.body != UnsubscribeBody(topic.channel)),
        delta := if joins.Some? then joins.value.delta else sv.delta,
        primed := if joins.Some? then joins.value.publications != [] else sv.primed,
        cursor := sv.cursor + 1,
        down := if r.Some? then sv.down + [r.value] else sv.down)
  }

  function PushReply(channel: Channel, body: PushBody): Reply {
    Reply(0, None, Some(Push(channel, body)), None, None, None, None)
  }

  /** A push or ping that is neither a publication of the watched channel nor one of the moves below. */
  predicate Unrelated(r: Reply, topic: Topic) {
    && r.id == 0
    && (r.push.Some? ==>
          !r.push.value.body.DisconnectPush?
          && (r.push.value.body.PublicationPush? || r.push.value.body.SubscribePush? ==>
              r.push.value.channel != topic.channel))
  }

  // ---------- where the client stands, and where it will be ----------

  /**
   Where a subscription stands. After a disconnect push it is `hung`: its frame is read on, but no
   request is resolved.
   */
  datatype Mark = Mark(offset: nat, epoch: string, delta: bool, base: Bytes, hung: bool)

  function MarkOf(sub: SubState, hung: bool): Mark {
    Mark(sub.offset, sub.epoch, sub.deltaNegotiated, sub.prevData, hung)
  }

  /** Some subscription that stands at `m`. */
  function SubAt(m: Mark): (sub: SubState)
    ensures MarkOf(sub, m.hung) == m
  {
    NewSub(SubscriptionConfig(None, true, false, false, m.delta, "", false, [], false)).(
      offset := m.offset, epoch := m.epoch, deltaNegotiated := m.delta, prevData := m.base)
  }

  function Moved(m: Mark, h: seq<Happening>, protocol: ProtocolType): Mark {
    if h == [] then m else MarkOf(Undergo(SubAt(m), h[0], protocol), m.hung)
  }

  /** What a reply brings to the watched subscription, by the command its id was taken for. */
  function Effect(issued: seq<Issued>, r: Reply, ch: Channel, hung: bool): seq<Happening> {
    if r.id == 0 then
      if r.push.Some? && r.push.value.channel == ch && r.push.value.body.PublicationPush?
      then [Live(r.push.value.body.publication)] else []
    else if r.id > |issued| then []
    else match issued[r.id - 1].body
      case SubscribeBody(req) => if req.channel == ch && !hung then Confirmations(AcceptedResult(r)) else []
      case ConnectBody(_, _, _) => ConnectBrings(r, ch)
      case _ => []
  }

  /** In the epoch of the log or, unless `strict`, still without a position. */
  predicate Located(m: Mark, topic: Topic, strict: bool) {
    m.epoch == topic.epoch || (!strict && m.epoch == "" && m.offset == 0)
  }

  /**
   From `m`, `h` continues the log or repeats a part of it and continues; unless `strict`, a result
   without publications may also skip ahead.
   */
  predicate Continues(m: Mark, h: seq<Happening>, log: seq<Bytes>, topic: Topic, strict: bool) {
    h == [] || (|h| == 1 &&
    match h[0]
    case Live(p) => m.epoch == topic.epoch && IsEntry(p, m.offset + 1, log, m.delta, Some(m.base), topic.protocol)
    case Confirmed(r) =>
      if !r.recoverable then r == EMPTY_RESULT
      else
        && r.epoch == topic.epoch
        && if r.publications == [] then r.offset == m.offset || (!strict && m.offset < r.offset <= |log|)
           else exists from: nat ::
             from <= m.offset <= from + |r.publications| && Repeats(r.delta, from, r.publications, log, topic.protocol))
  }

  /** Where the subscription stands after reading `r`. */
  function Read(issued: seq<Issued>, topic: Topic, m: Mark, r: Reply): Mark {
    var t := Moved(m, Effect(issued, r, topic.channel, m.hung), topic.protocol);
    if IsHangup(r) then t.(hung := true) else t
  }

  predicate GoesOn(issued: seq<Issued>, topic: Topic, log: seq<Bytes>, m: Mark, r: Reply, strict: bool) {
    Continues(m, Effect(issued, r, topic.channel, m.hung), log, topic, strict)
  }

  /** Where it stands after all of `down` has been read. */
  function Reach(issued: seq<Issued>, topic: Topic, m: Mark, down: seq<Reply>): Mark
    decreases |down|
  {
    if down == [] then m
    else Read(issued, topic, Reach(issued, topic, m, down[..|down| - 1]), down[|down| - 1])
  }

  ghost predicate Flows(issued: seq<Issued>, topic: Topic, log: seq<Bytes>, m: Mark, down: seq<Reply>, strict: bool) {
    forall k :: 0 <= k < |down| ==> GoesOn(issued, topic, log, Reach(issued, topic, m, down[..k]), down[k], strict)
  }

  function Here(s: State, topic: Topic): Mark
    requires topic.channel in s.subs
  {
    MarkOf(s.subs[topic.channel], !s.link.stream)
  }

  function Ahead(s: State, topic: Topic, down: seq<Reply>): Mark
    requires topic.channel in s.subs
  {
    Reach(s.calls.issued, topic, Here(s, topic), down)
  }

  // ---------- moves ----------

  datatype Move =
    | Local(input: Input)                                   // anything the client does but read a frame
    | Deliver(fates: seq<Fate>, plan: seq<Attempt>)         // the next |fates| replies arrive as one frame
    | Answer(reply: Option<Reply>)                          // the server serves the next command
    | Publish(payload: Bytes, publication: Publication)     // a new log entry, and what carries it to a subscriber
    | Kick(code: nat)                                       // the server unsubscribes the client
    | Hangup(code: nat)                                     // a disconnect push
    | Notice(unrelated: Reply)

  function Frame(down: seq<Reply>, fates: seq<Fate>): (arrivals: seq<Arrival>)
    requires |fates| <= |down|
    ensures |arrivals| == |fates| && forall k :: 0 <= k < |fates| ==> arrivals[k] == Arrival(down[k], fates[k])
  {
    seq(|fates|, k requires 0 <= k < |fates| => Arrival(down[k], fates[k]))
  }

  function Reading(s: State, arrivals: seq<Arrival>, plan: seq<Attempt>): Input {
    if s.link.handshake.Some? then Shake(arrivals, plan) else Data(arrivals)
  }

  predicate IsRemoval(i: Input, ch: Channel) { i.Ask? && i.command.RemoveSubscription? && i.command.channel == ch }

  /** The entry a delta may refer to. */
  function LastSent(sv: Broker): Option<Bytes> {
    if sv.primed && sv.log != [] then Some(sv.log[|sv.log| - 1]) else None
  }

  /**
   Past a disconnect push, or past an "already subscribed" that makes the client forget deltas, the
   server may only send what still continues the log from where the client will stand.
   */
  predicate KeepsUp(s: State, sv: Broker, topic: Topic, payload: Bytes, p: Publication) {
    topic.channel in s.subs && (Ahead(s, topic, sv.down).hung || Ahead(s, topic, sv.down).delta != sv.delta) ==>
      Continues(Ahead(s, topic, sv.down), [Live(p)], sv.log + [payload], topic, true)
  }

  ghost predicate Possible(w: World, topic: Topic, m: Move) {
    var s, sv := w.client, w.broker;
    match m
    case Local(i) => !i.Data? && !i.Shake? && !IsRemoval(i, topic.channel)
    case Deliver(fates, plan) =>
      && |fates| <= |sv.down|
      && Enabled(s, Reading(s, Frame(sv.down, fates), plan))
      && (s.link.handshake.Some? ==>
            // the connect reply ends its frame
            forall k :: 0 <= k < |fates| - 1 ==> sv.down[k].id != s.link.handshake.value)
    case Answer(r) =>
      && s.link.stream && sv.cursor < |s.out.wire|
      && (r.Some? ==> ReplyAllowed(sv, topic, s.out.wire[sv.cursor].outgoing.command, r.value))
    case Publish(payload, p) =>
      sv.joined ==>
        && IsEntry(p, |sv.log| + 1, sv.log + [payload], sv.delta, LastSent(sv), topic.protocol)
        && KeepsUp(s, sv, topic, payload, p)
    case Kick(_) => sv.joined
    case Hangup(_) => s.link.stream
    case Notice(r) => s.link.stream && Unrelated(r, topic)
  }

  /** What is left of the server's side after the client has moved from `s` to `t`. */
  function Rejoin(s: State, t: State, sv: Broker): Broker {
    if !t.link.stream then Idle(sv.log, |t.out.wire|)
    else if t.link.conn != s.link.conn then Idle(sv.log, |s.out.wire|)
    else sv
  }

  ghost function Next(w: World, topic: Topic, m: Move): World
    requires Possible(w, topic, m)
  {
    var s, sv := w.client, w.broker;
    match m
    case Local(i) => World(Step(s, i), Rejoin(s, Step(s, i), sv))
    case Deliver(fates, plan) =>
      var t := Step(s, Reading(s, Frame(sv.down, fates), plan));
      World(t, Rejoin(s, t, sv.(down := sv.down[|fates|..])))
    case Answer(r) => World(s, Serve(sv, topic, s.out.wire[sv.cursor].outgoing.command, r))
    case Publish(payload, p) =>
      World(s, sv.(log := sv.log + [payload], primed := sv.primed || sv.joined,
                   down := if sv.joined then sv.down + [PushReply(topic.channel, PublicationPush(p))] else sv.down))
    case Kick(code) => World(s, sv.(joined := false, down := sv.down + [PushReply(topic.channel,
        UnsubscribePush(code))]))
    case Hangup(code) => World(s, sv.(down := sv.down + [PushReply("", DisconnectPush(code))]))
    case Notice(r) => World(s, sv.(down := sv.down + [r]))
  }

  /** Every finite run; a move that is not possible changes nothing. */
  ghost function Play(w: World, topic: Topic, moves: seq<Move>): World
    decreases |moves|
  {
    if moves == [] then w
    else
      var v := Play(w, topic, moves[..|moves| - 1]);
      var m := moves[|moves| - 1];
      if Possible(v, topic, m) then Next(v, topic, m) else v
  }

  /** A fresh client with one subscription, before any connection. */
  ghost function Start(config: ClientConfig, topic: Topic, sub: SubscriptionConfig, log: seq<Bytes>): World {
    World(Step(Init(config), Ask(NewSubscription(topic.channel, sub, 0), Accepted)), Idle(log, 0))
  }

  // ---------- what the replies in flight will do ----------

  lemma {:induction false} ReachConcat(issued: seq<Issued>, topic: Topic, m: Mark, a: seq<Reply>, b: seq<Reply>)
    ensures Reach(issued, topic, m, a + b) == Reach(issued, topic, Reach(issued, topic, m, a), b)
    decreases |b|
  {
    hide Read;
    if b == [] {
      assert a + b == a;
    } else {
      var n := |b| - 1;
      ReachConcat(issued, topic, m, a, b[..n]);
      assert (a + b)[..|a| + n] == a + b[..n];
    }
  }

  lemma FlowsAppend(
      issued: seq<Issued>, topic: Topic, log: seq<Bytes>, m: Mark, down: seq<Reply>, r: Reply, strict: bool)
    requires Flows(issued, topic, log, m, down, strict)
        && GoesOn(issued, topic, log, Reach(issued, topic, m, down), r, strict)
    ensures Flows(issued, topic, log, m, down + [r], strict)
    ensures Reach(issued, topic, m, down + [r]) == Read(issued, topic, Reach(issued, topic, m, down), r)
  {
    hide GoesOn, Read;
    forall k | 0 <= k < |down| + 1
      ensures GoesOn(issued, topic, log, Reach(issued, topic, m, (down + [r])[..k]), (down + [r])[k], strict)
    {
      assert (down + [r])[..k] == down[..k];
      if k == |down| { assert down[..k] == down; }
    }
    assert (down + [r])[..|down|] == down;
  }

  lemma FlowsSplit(issued: seq<Issued>, topic: Topic, log: seq<Bytes>, m: Mark, down: seq<Reply>, n: nat, strict: bool)
    requires n <= |down| && Flows(issued, topic, log, m, down, strict)
    ensures var y := Reach(issued, topic, m, down[..n]);
      Flows(issued, topic, log, y, down[n..], strict)
          && Reach(issued, topic, y, down[n..]) == Reach(issued, topic, m, down)
  {
    hide GoesOn, Read;
    var y := Reach(issued, topic, m, down[..n]);
    forall k | 0 <= k < |down| - n
      ensures GoesOn(issued, topic, log, Reach(issued, topic, y, down[n..][..k]), down[n..][k], strict)
    {
      ReachConcat(issued, topic, m, down[..n], down[n..][..k]);
      Slices(down, n, k);
    }
    ReachConcat(issued, topic, m, down[..n], down[n..]);
    assert down[..n] + down[n..] == down;
  }

  lemma Slices<T>(d: seq<T>, n: nat, k: nat)
    requires n + k <= |d|
    ensures d[..n] + d[n..][..k] == d[..n + k]
    ensures n + k < |d| ==> d[n..][k] == d[n + k]
  {}

  // ---------- one happening ----------

  /** Receiving an entry: the position is the entry's, and where deltas are on its payload is the new base. */
  lemma ReceiveEntry(
      sub: SubState, p: Publication, k: nat, log: seq<Bytes>, prev: Option<Bytes>, protocol: ProtocolType)
    requires IsEntry(p, k, log, sub.deltaNegotiated, prev, protocol)
    requires sub.deltaNegotiated ==> DeltaChain.Base(prev, sub)
    ensures var t := Receive(sub, p, protocol);
      && t.offset == k && t.deltaNegotiated == sub.deltaNegotiated && (sub.deltaNegotiated ==> t.prevData == log[k - 1])
      && Deliveries(t.log) == Deliveries(sub.log) + [Delivery(k, log[k - 1])]
      && t.recover == sub.recover && t.epoch == sub.epoch
  {}

  lemma RepeatsPrefix(delta: bool, from: nat, ps: seq<Publication>, log: seq<Bytes>, protocol: ProtocolType, n: nat)
    requires Repeats(delta, from, ps, log, protocol) && n <= |ps|
    ensures Repeats(delta, from, ps[..n], log, protocol)
  {
    hide IsEntry;
  }

  lemma {:induction false} RepeatsMoves(
      sub: SubState, from: nat, ps: seq<Publication>, log: seq<Bytes>, protocol: ProtocolType)
    requires Repeats(sub.deltaNegotiated, from, ps, log, protocol) && ps != []
    ensures var t := ReceiveAll(sub, ps, protocol);
      && t.offset == from + |ps| && t.deltaNegotiated == sub.deltaNegotiated
      && (sub.deltaNegotiated ==> t.prevData == log[from + |ps| - 1])
    decreases |ps|
  {
    hide IsEntry, Receive;
    var n := |ps| - 1;
    var early := ReceiveAll(sub, ps[..n], protocol);
    RepeatsPrefix(sub.deltaNegotiated, from, ps, log, protocol, n);
    ReceiveAllKeeps(sub, ps[..n], protocol);
    if n > 0 { RepeatsMoves(sub, from, ps[..n], log, protocol); }
    ReceiveEntry(early, ps[n], from + 1 + n, log, if n == 0 then None else Some(log[from + n - 1]), protocol);
  }

  lemma MovedLive(m: Mark, p: Publication, log: seq<Bytes>, topic: Topic, strict: bool)
    requires Continues(m, [Live(p)], log, topic, strict)
    ensures var t := Moved(m, [Live(p)], topic.protocol);
      && t.offset == m.offset + 1 <= |log| && t.epoch == m.epoch == topic.epoch
      && t.delta == m.delta && (m.delta ==> t.base == log[m.offset]) && t.hung == m.hung
  {
    ReceiveEntry(SubAt(m), p, m.offset + 1, log, Some(m.base), topic.protocol);
  }

  /** An empty confirmation leaves the position. */
  lemma MovedQuietly(m: Mark, r: SubscribeResult, protocol: ProtocolType)
    requires r.publications == []
    ensures var t := Moved(m, [Confirmed(r)], protocol);
      && t.offset == (if r.recoverable || r.positioned then r.offset else m.offset)
      && t.epoch == (if r.recoverable || r.positioned then r.epoch else m.epoch)
      && t.delta == r.delta && t.hung == m.hung
  {}

  /** A confirmation that repeats the entries after `from` ends at the last of them. */
  lemma MovedConfirmed(m: Mark, r: SubscribeResult, from: nat, log: seq<Bytes>, protocol: ProtocolType)
    requires Repeats(r.delta, from, r.publications, log, protocol) && r.publications != []
    ensures var t := Moved(m, [Confirmed(r)], protocol);
      && t.offset == from + |r.publications| <= |log| && (r.recoverable ==> t.epoch == r.epoch)
      && t.delta == r.delta && (t.delta ==> t.base == log[t.offset - 1]) && t.hung == m.hung
  {
    hide Receive, Repeats;
    assert from + |r.publications| <= |log| by { RepeatsWithin(r.delta, from, r.publications, log, protocol); }
    RepeatsMoves(Confirm(SubAt(m), r), from, r.publications, log, protocol);
    ReceiveAllKeeps(Confirm(SubAt(m), r), r.publications, protocol);
  }

  lemma RepeatsWithin(delta: bool, from: nat, ps: seq<Publication>, log: seq<Bytes>, protocol: ProtocolType)
    requires Repeats(delta, from, ps, log, protocol)
    ensures from + |ps| <= |log|
  {}

  /** The position never moves back, nor past the log, and stays in its epoch. */
  lemma ContinuesForward(m: Mark, h: seq<Happening>, log: seq<Bytes>, topic: Topic, strict: bool)
    requires Continues(m, h, log, topic, strict)
    ensures m.offset <= Moved(m, h, topic.protocol).offset && Moved(m, h, topic.protocol).hung == m.hung
    ensures m.offset <= |log| ==> Moved(m, h, topic.protocol).offset <= |log|
    ensures Located(m, topic, strict) ==> Located(Moved(m, h, topic.protocol), topic, strict)
  {
    hide Moved, Repeats, IsEntry;
    if h == [] {
      MovedNothing(m, topic.protocol);
    } else {
      assert h == [h[0]];
      match h[0] {
        case Live(p) => MovedLive(m, p, log, topic, strict);
        case Confirmed(r) =>
          if r.publications == [] {
            MovedQuietly(m, r, topic.protocol);
          } else {
            var from: nat :| from <= m.offset <= from + |r.publications|
              && Repeats(r.delta, from, r.publications, log, topic.protocol);
            MovedConfirmed(m, r, from, log, topic.protocol);
          }
      }
    }
  }

  lemma MovedNothing(m: Mark, protocol: ProtocolType)
    ensures Moved(m, [], protocol) == m
  {}

  lemma ReadForward(issued: seq<Issued>, topic: Topic, log: seq<Bytes>, m: Mark, r: Reply, strict: bool)
    requires GoesOn(issued, topic, log, m, r, strict)
    ensures m.offset <= Read(issued, topic, m, r).offset
  {
    hide Continues, Effect, Moved;
    ContinuesForward(m, Effect(issued, r, topic.channel, m.hung), log, topic, strict);
  }

  lemma {:induction false} ReachForward(
      issued: seq<Issued>, topic: Topic, log: seq<Bytes>, m: Mark, down: seq<Reply>, strict: bool)
    requires Flows(issued, topic, log, m, down, strict)
    ensures m.offset <= Reach(issued, topic, m, down).offset
    decreases |down|
  {
    hide GoesOn, Read;
    if down != [] {
      var n := |down| - 1;
      forall k | 0 <= k < n
        ensures GoesOn(issued, topic, log, Reach(issued, topic, m, down[..n][..k]), down[..n][k], strict)
      {
        assert down[..n][..k] == down[..k];
      }
      ReachForward(issued, topic, log, m, down[..n], strict);
      ReadForward(issued, topic, log, Reach(issued, topic, m, down[..n]), down[n], strict);
    }
  }

  // ---------- two subscriptions at the same mark move alike ----------

  predicate SameMark(a: SubState, b: SubState) { MarkOf(a, false) == MarkOf(b, false) }

  lemma ReceiveSame(a: SubState, b: SubState, p: Publication, protocol: ProtocolType)
    requires SameMark(a, b)
    ensures SameMark(Receive(a, p, protocol), Receive(b, p, protocol))
  {}

  lemma {:induction false} ReceiveAllSame(a: SubState, b: SubState, ps: seq<Publication>, protocol: ProtocolType)
    requires SameMark(a, b)
    ensures SameMark(ReceiveAll(a, ps, protocol), ReceiveAll(b, ps, protocol))
    decreases |ps|
  {
    hide Receive, SameMark;
    if ps != [] {
      var n := |ps| - 1;
      ReceiveAllSame(a, b, ps[..n], protocol);
      ReceiveSame(ReceiveAll(a, ps[..n], protocol), ReceiveAll(b, ps[..n], protocol), ps[n], protocol);
    }
  }

  lemma UndergoSame(a: SubState, b: SubState, h: Happening, protocol: ProtocolType)
    requires SameMark(a, b)
    ensures SameMark(Undergo(a, h, protocol), Undergo(b, h, protocol))
  {
    hide Receive, ReceiveAll;
    match h {
      case Live(p) => ReceiveSame(a, b, p, protocol);
      case Confirmed(r) => ReceiveAllSame(Confirm(a, r), Confirm(b, r), r.publications, protocol);
    }
  }

  // ---------- later commands and later entries ----------

  lemma ConveysMore(p: Publication, delta: bool, prev: Bytes, payload: Bytes, protocol: ProtocolType)
    requires Conveys(p, delta, None, payload, protocol)
    ensures Conveys(p, delta, Some(prev), payload, protocol)
  {}

  lemma RepeatsGrows(
      delta: bool, from: nat, ps: seq<Publication>, log: seq<Bytes>, more: seq<Bytes>, protocol: ProtocolType)
    requires Repeats(delta, from, ps, log, protocol) && log <= more
    ensures Repeats(delta, from, ps, more, protocol)
  {
    hide Conveys;
  }

  lemma ContinuesGrows(m: Mark, h: seq<Happening>, log: seq<Bytes>, more: seq<Bytes>, topic: Topic, strict: bool)
    requires Continues(m, h, log, topic, strict) && log <= more
    ensures Continues(m, h, more, topic, strict)
  {
    hide Repeats, Conveys;
    if h != [] && h[0].Confirmed? && h[0].result.recoverable && h[0].result.publications != [] {
      var r := h[0].result;
      var from: nat :| from <= m.offset <= from + |r.publications|
        && Repeats(r.delta, from, r.publications, log, topic.protocol);
      RepeatsGrows(r.delta, from, r.publications, log, more, topic.protocol);
    }
  }

  /** Later commands and later entries do not change what is in flight. */
  lemma {:induction false} ReachStable(issued: seq<Issued>, more: seq<Issued>, topic: Topic, m: Mark, down: seq<Reply>)
    requires issued <= more && forall k :: 0 <= k < |down| ==> down[k].id <= |issued|
    ensures Reach(more, topic, m, down) == Reach(issued, topic, m, down)
    decreases |down|
  {
    hide Read;
    if down != [] {
      var n := |down| - 1;
      ReachStable(issued, more, topic, m, down[..n]);
      ReadStable(issued, more, topic, Reach(issued, topic, m, down[..n]), down[n]);
    }
  }

  lemma EffectStable(issued: seq<Issued>, more: seq<Issued>, r: Reply, ch: Channel, hung: bool)
    requires issued <= more && r.id <= |issued|
    ensures Effect(more, r, ch, hung) == Effect(issued, r, ch, hung)
  {}

  lemma ReadStable(issued: seq<Issued>, more: seq<Issued>, topic: Topic, m: Mark, r: Reply)
    requires issued <= more && r.id <= |issued|
    ensures Read(more, topic, m, r) == Read(issued, topic, m, r)
  {
    hide Effect, Moved;
    EffectStable(issued, more, r, topic.channel, m.hung);
  }

  lemma GoesOnGrows(
      issued: seq<Issued>, moreIssued: seq<Issued>, topic: Topic, log: seq<Bytes>, moreLog: seq<Bytes>, m: Mark,
      r: Reply, strict: bool)
    requires issued <= moreIssued && log <= moreLog && r.id <= |issued| && GoesOn(issued, topic, log, m, r, strict)
    ensures GoesOn(moreIssued, topic, moreLog, m, r, strict)
  {
    hide Effect, Continues;
    EffectStable(issued, moreIssued, r, topic.channel, m.hung);
    ContinuesGrows(m, Effect(issued, r, topic.channel, m.hung), log, moreLog, topic, strict);
  }

  lemma FlowsStable(
      issued: seq<Issued>, moreIssued: seq<Issued>, topic: Topic, log: seq<Bytes>, moreLog: seq<Bytes>, m: Mark,
      down: seq<Reply>, strict: bool)
    requires issued <= moreIssued && log <= moreLog && forall k :: 0 <= k < |down| ==> down[k].id <= |issued|
    requires Flows(issued, topic, log, m, down, strict)
    ensures Flows(moreIssued, topic, moreLog, m, down, strict)
    ensures Reach(moreIssued, topic, m, down) == Reach(issued, topic, m, down)
  {
    hide GoesOn, Read, Reach;
    ReachStable(issued, moreIssued, topic, m, down);
    forall k | 0 <= k < |down|
      ensures GoesOn(moreIssued, topic, moreLog, Reach(moreIssued, topic, m, down[..k]), down[k], strict)
    {
      ReachStable(issued, moreIssued, topic, m, down[..k]);
      GoesOnGrows(issued, moreIssued, topic, log, moreLog, Reach(issued, topic, m, down[..k]), down[k], strict);
    }
  }
}
