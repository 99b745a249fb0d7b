/**
 The connection actor as values: its state, everything it has made observable, and what
 each handler in `src/client` does to them. `ConnectionActor.dfy` holds the code in
 its own form, proved equal to these functions.
 */
module ActorState {
  import opened Prelude
  import opened Codes
  import opened Lines
  import opened Protocol
  import opened Subscriptions

  // ---------- records ----------

  datatype ClientState = Disconnected | Connecting | Connected | Closed

  function AsU8(c: ClientState): u8 {
    match c
    case Disconnected => 0
    case Connecting => 1
    case Connected => 2
    case Closed => 3
  }

  function FromU8(v: u8): ClientState {
    if v == 1 then Connecting else if v == 2 then Connected else if v == 3 then Closed else Disconnected
  }

  datatype ClientConfig = ClientConfig(
    token: string, hasGetToken: bool, data: Bytes, hasGetData: bool, protocol: ProtocolType)

  datatype PendingRequest =
    | AwaitSubscribe(channel: Channel, sender: Option<Handle>)  // None: the receiver was dropped at once
    | AwaitReply(caller: Handle)
    | AwaitRefresh
    | AwaitSubRefresh(channel: Channel)

  function CallerOf(req: PendingRequest): Option<Handle> {
    match req
    case AwaitSubscribe(_, sender) => sender
    case AwaitReply(h) => Some(h)
    case _ => None
  }

  datatype ServerSub = ServerSub(recoverable: bool, offset: nat, epoch: string)

  datatype TokenState = TokenState(expires: bool, ttl: nat, refreshRequired: bool)

  /** A command on its way out, with where it stood when it was handed to `send_command`. */
  datatype Outgoing = Outgoing(command: Command, conn: nat, whileConnected: bool)

  datatype BatchState = BatchState(active: bool, queue: seq<Outgoing>)

  /** A command written to the transport of connection number `conn`; those written at once share a `frame`. */
  datatype Sent = Sent(conn: nat, frame: nat, outgoing: Outgoing)

  // ---------- observations ----------

  datatype ClientError =
    | Timeout | ClientDisconnected | ClientClosed | SubscriptionUnsubscribed | DuplicateSubscription
    | Unauthorized | Transport | BadMessage | Server(error: ServerError)

  datatype Answer =
    | Done
    | Raw(reply: Reply)
    | Found(present: bool)
    | Listing(states: map<Channel, SubscriptionState>)
    | Failed(error: ClientError)

  datatype ClientEvent =
    | ConnectingEvent(code: nat)
    | ConnectedEvent
    | DisconnectedEvent(code: nat)
    | ClientErrorEvent
    | MessageEvent

  datatype ServerEvent =
    | ServerSubscribed(wasRecovering: bool)
    | ServerSubscribing(code: nat)
    | ServerUnsubscribed(code: nat)
    | ServerPublication(offset: nat)
    | ServerJoin
    | ServerLeave

  /** A spawned sleep that will send a message to the actor. */
  datatype Timer =
    | Resubscribe(channel: Channel)
    | RequestTimeout(id: nat)
    | RefreshToken
    | RefreshSubToken(channel: Channel)

  /** What a command id was taken for, and on whose behalf. */
  datatype Issued = Issued(body: Body, caller: Option<Handle>)

  // ---------- the state ----------

  /** The connection: what `ConnectionActor` keeps about the client and its transport. */
  datatype Link = Link(
    phase: ClientState, shared: u8, clientId: string, sink: bool, stream: bool,
    handshake: Option<nat>,  // the id `read_reply_with_timeout` waits for
    conn: nat,               // connections opened so far
    attempts: nat, connectRequested: bool, pingInterval: nat, sendPong: bool, token: TokenState)

  /** Requests: the ids taken so far, those awaiting a reply, and the spawned sleeps. */
  datatype Calls = Calls(
    issued: seq<Issued>, pending: map<nat, PendingRequest>, timers: multiset<Timer>,
    stranded: set<Channel>)  // channels whose last attempt on this connection could not be sent or came back empty

  /** Outgoing commands: the batch and everything written to a transport. */
  datatype Out = Out(batch: BatchState, wire: seq<Sent>)

  /** The registry of server-side subscriptions and the events about each. */
  datatype Servers = Servers(subs: map<Channel, ServerSub>, log: map<Channel, seq<ServerEvent>>)

  /** Reply handles: all ever passed in, those waiting for the connection, the answered and the dropped. */
  datatype Desk = Desk(callers: set<Handle>, connectWaiters: seq<Handle>, answers: map<Handle, Answer>,
      dropped: set<Handle>)

  datatype State = State(
    config: ClientConfig, link: Link, calls: Calls, out: Out, subs: map<Channel, SubState>,
    servers: Servers, desk: Desk, clientLog: seq<ClientEvent>)

  /** Seconds between server pings unless the server says otherwise. */
  const DEFAULT_PING := 25

  function Init(config: ClientConfig): State {
    State(
      config,
      Link(Disconnected, AsU8(Disconnected), "", false, false, None, 0, 0, false, DEFAULT_PING, false,
          TokenState(false, 0, false)),
      Calls([], map[], multiset{}, {}), Out(BatchState(false, []), []), map[],
      Servers(map[], map[]), Desk({}, [], map[], {}), [])
  }

  // ---------- what the environment chooses ----------

  /** What becomes of one `send_command`. */
  datatype Fate = Accepted | Refused | Unencodable

  datatype TokenOutcome = Token(token: string) | Denied | Broken

  /** Callback results and the fate of the send in one `do_subscribe` or refresh. */
  datatype Oracle = Oracle(token: TokenOutcome, data: Option<Bytes>, fate: Fate)

  // ---------- parts of the state ----------

  function SetOf<T>(hs: seq<T>): set<T> { set h | h in hs }

  function OptionSet<T>(o: Option<T>): set<T> { if o.Some? then {o.value} else {} }

  function Tell(d: Desk, hs: set<Handle>, a: Answer): Desk {
    d.(answers := d.answers + (map h | h in hs :: a))
  }

  function Trace(log: map<Channel, seq<ServerEvent>>, ch: Channel): seq<ServerEvent> {
    if ch in log then log[ch] else []
  }

  /** Append `e` to the log of every channel in `chs`. */
  function Note(
      log: map<Channel, seq<ServerEvent>>, chs: set<Channel>, e: ServerEvent): map<Channel, seq<ServerEvent>> {
    map ch | ch in log.Keys + chs :: if ch in chs then Trace(log, ch) + [e] else log[ch]
  }

  /** A sleep is spawned; one that resubscribes a channel is an attempt for it. */
  function Arm(c: Calls, t: Timer): Calls {
    c.(timers := c.timers + multiset{t}, stranded := if t.Resubscribe? then c.stranded - {t.channel} else c.stranded)
  }

  function SetPhase(l: Link, c: ClientState): Link { l.(phase := c, shared := AsU8(c)) }

  function Detach(l: Link): Link { l.(sink := false, stream := false) }

  const NO_BATCH := BatchState(false, [])

  /** The `n`-th id a wrapping u32 counter starting at 1 hands out. */
  function IdAt(n: nat): nat { (n + 1) % TWO_32 }

  function NextId(c: Calls): nat { IdAt(|c.issued|) }

  function Issue(c: Calls, body: Body, caller: Option<Handle>): Calls {
    c.(issued := c.issued + [Issued(body, caller)])
  }

  function CallersIn(pending: map<nat, PendingRequest>): set<Handle> {
    set id | id in pending && CallerOf(pending[id]).Some? :: CallerOf(pending[id]).value
  }

  /** The waiters of those subscriptions whose channel is in `chs`. */
  function WaitersIn(subs: map<Channel, SubState>, chs: set<Channel>): set<Handle> {
    set ch, h | ch in chs && ch in subs && h in subs[ch].waiters :: h
  }

  function Active(subs: map<Channel, SubState>): set<Channel> {
    set ch | ch in subs && !subs[ch].state.Unsubscribed?
  }

  // ---------- state.rs ----------

  function CloseSub(sub: SubState): SubState {
    if sub.state.Unsubscribed? then sub
    else Emit(sub.(state := Unsubscribed, waiters := []), UnsubscribedEvent(CLIENT_CLOSED))
  }

  function CloseAll(subs: map<Channel, SubState>): map<Channel, SubState> {
    map ch | ch in subs :: CloseSub(subs[ch])
  }

  function MoveToConnecting(s: State, code: nat): State {
    s.(link := SetPhase(s.link, Connecting), clientLog := s.clientLog + [ConnectingEvent(code)])
  }

  function MoveToConnected(s: State, r: ConnectResult): State {
    s.(link := SetPhase(s.link, Connected).(
         clientId := r.client, attempts := 0,
         pingInterval := if r.ping > 0 then r.ping else s.link.pingInterval, sendPong := r.pong,
         token := s.link.token.(expires := r.expires, ttl := r.ttl)),
       clientLog := s.clientLog + [ConnectedEvent])
  }

  function MoveToDisconnected(s: State, code: nat): State {
    var wasConnected := s.link.phase.Connected?;
    var failed :=
      CallersIn(s.calls.pending) + SetOf(s.desk.connectWaiters) +
      (if wasConnected then WaitersIn(s.subs, Active(s.subs)) else {});
    State(
      s.config,
      Detach(SetPhase(s.link, Disconnected)).(clientId := "", connectRequested := false),
      s.calls.(pending := map[]),
      s.out.(batch := NO_BATCH),
      if wasConnected then CloseAll(s.subs) else s.subs,
      Servers(map[], Note(s.servers.log, s.servers.subs.Keys, ServerUnsubscribed(code))),
      Tell(s.desk.(connectWaiters := []), failed, Failed(ClientDisconnected)),
      s.clientLog + [DisconnectedEvent(code)])
  }

  function MoveToClosed(s: State): State {
    State(
      s.config, Detach(SetPhase(s.link, Closed)), s.calls.(pending := map[]), s.out.(batch := NO_BATCH),
      CloseAll(s.subs), s.servers,
      Tell(Tell(s.desk.(connectWaiters := []), CallersIn(s.calls.pending), Failed(ClientDisconnected)),
           SetOf(s.desk.connectWaiters) + WaitersIn(s.subs, Active(s.subs)), Failed(ClientClosed)),
      s.clientLog)
  }

  /** Leave for `Unsubscribed` and give every waiter the same error. */
  function Expel(s: State, ch: Channel, code: nat, err: ClientError): State {
    if ch !in s.subs then s
    else s.(subs := s.subs[ch := Leave(s.subs[ch], code).(waiters := [])],
            desk := Tell(s.desk, SetOf(s.subs[ch].waiters), Failed(err)))
  }

  function UnsubscribeUnauthorized(s: State, ch: Channel): State {
    Expel(s, ch, UNSUBSCRIBED_UNAUTHORIZED, Unauthorized)
  }

  // ---------- transport_io.rs ----------

  function Suspend(sub: SubState): SubState {
    if sub.state.Subscribed? then BackToSubscribing(sub.(attempts := 0), TRANSPORT_CLOSED) else sub
  }

  function SuspendAll(subs: map<Channel, SubState>): map<Channel, SubState> {
    map ch | ch in subs :: Suspend(subs[ch])
  }

  /** The transport is gone: back to connecting if that is wanted, else disconnected. */
  function OnTransportClose(s: State, code: nat, reconnect: bool): State {
    if reconnect && s.link.connectRequested then
      State(
        s.config, Detach(SetPhase(s.link, Connecting)), s.calls.(pending := map[]), s.out.(batch := NO_BATCH),
        SuspendAll(s.subs),
        s.servers.(log := Note(s.servers.log, s.servers.subs.Keys, ServerSubscribing(TRANSPORT_CLOSED))),
        Tell(s.desk, CallersIn(s.calls.pending), Failed(ClientDisconnected)),
        s.clientLog + [ConnectingEvent(code)])
    else
      MoveToDisconnected(s, code)
  }

  /** `send_command`: the outgoing side afterwards and the error, if any. */
  function SendCommand(o: Out, l: Link, cmd: Command, fate: Fate): (Out, Option<ClientError>) {
    var out := Outgoing(cmd, l.conn, l.phase.Connected?);
    if fate.Unencodable? then (o, Some(BadMessage))
    else if o.batch.active then (o.(batch := BatchState(true, o.batch.queue + [out])), None)
    else if !l.sink then (o, Some(ClientDisconnected))
    else if fate.Refused? then (o, Some(Transport))
    else (o.(wire := o.wire + [Sent(l.conn, |o.wire|, out)]), None)
  }

  /** `send_command` where the source ignores the result. */
  function Post(s: State, cmd: Command, fate: Fate): State {
    s.(out := SendCommand(s.out, s.link, cmd, fate).0)
  }

  function Stamp(conn: nat, frame: nat, queue: seq<Outgoing>): (sent: seq<Sent>)
    ensures |sent| == |queue| && forall i :: 0 <= i < |queue| ==> sent[i] == Sent(conn, frame, queue[i])
  {
    seq(|queue|, i requires 0 <= i < |queue| => Sent(conn, frame, queue[i]))
  }

  function FlushBatch(o: Out, l: Link, fate: Fate): Out {
    Out(NO_BATCH, if l.sink && fate.Accepted? then o.wire + Stamp(l.conn, |o.wire|, o.batch.queue) else o.wire)
  }

  // ---------- requests that await a reply ----------

  /** Only subscribe and generic requests get a `RequestTimeout`. */
  predicate TimedOut(req: PendingRequest) { req.AwaitSubscribe? || req.AwaitReply? }

  /** Take an id for `body`, arm its timeout if it gets one, and register `req`. */
  function Enter(c: Calls, body: Body, req: PendingRequest): Calls {
    var id := NextId(c);
    var c1 := Issue(c, body, CallerOf(req));
    var c2 := if TimedOut(req) then Arm(c1, RequestTimeout(id)) else c1;
    c2.(pending := c2.pending[id := req],
        stranded := if req.AwaitSubscribe? then c2.stranded - {req.channel} else c2.stranded)
  }

  /** The same when the send fails: the entry is taken out again. */
  function Abandon(c: Calls, body: Body, req: PendingRequest): Calls {
    var c1 := Enter(c, body, req);
    c1.(pending := c1.pending - {NextId(c)},
        stranded := if req.AwaitSubscribe? then c1.stranded + {req.channel} else c1.stranded)
  }

  /** Register a request and send it; if that fails its caller is told why. */
  function Transact(s: State, body: Body, req: PendingRequest, fate: Fate): State {
    var (out, err) := SendCommand(s.out, s.link, Command(NextId(s.calls), body), fate);
    if err.None? then s.(out := out, calls := Enter(s.calls, body, req))
    else s.(out := out, calls := Abandon(s.calls, body, req),
            desk := Tell(s.desk, OptionSet(CallerOf(req)), Failed(err.value)))
  }

  /** Did the send in `Transact` fail? */
  predicate SendFails(s: State, body: Body, fate: Fate) {
    SendCommand(s.out, s.link, Command(NextId(s.calls), body), fate).1.Some?
  }

  // ---------- subscriptions.rs ----------

  function ScheduleSubTokenRefresh(c: Calls, ch: Channel, ttl: nat): Calls {
    if ttl == 0 then c else Arm(c, RefreshSubToken(ch))
  }

  function HandleSubscribeSuccess(s: State, ch: Channel, r: SubscribeResult): State {
    if ch !in s.subs then s
    else s.(subs := s.subs[ch := Succeed(s.subs[ch], r, s.config.protocol)],
            desk := Tell(s.desk, SetOf(s.subs[ch].waiters), Done),
            calls := if r.expires then ScheduleSubTokenRefresh(s.calls, ch, r.ttl) else s.calls)
  }

  /** A failed attempt that is tried again after a backoff. */
  function RetryLater(s: State, ch: Channel, token: string): State
    requires ch in s.subs
  {
    var sub := s.subs[ch];
    s.(subs := s.subs[ch := Emit(sub.(token := token, attempts := sub.attempts + 1), ErrorEvent)],
       calls := Arm(s.calls, Resubscribe(ch)))
  }

  function HandleSubscribeError(s: State, ch: Channel, err: ServerError): State {
    if ch !in s.subs then s
    else if IsTemporary(err.code, err.temporary) then
      RetryLater(s, ch, if err.code == TOKEN_EXPIRED then "" else s.subs[ch].token)
    else
      Expel(s, ch, err.code, Server(err))
  }

  /** Send the subscribe command of `sub`, which becomes the subscription of `ch`. */
  function SendSubscribe(s: State, ch: Channel, sub: SubState, sender: Option<Handle>, fate: Fate): State {
    Transact(s.(subs := s.subs[ch := sub]), SubscribeBody(BuildRequest(ch, sub)), AwaitSubscribe(ch, sender), fate)
  }

  /** The `get_data` callback of a subscription. */
  function RefreshData(sub: SubState, data: Option<Bytes>): SubState {
    if !sub.config.hasGetData then sub
    else if data.Some? then sub.(config := sub.config.(data := data.value))
    else Emit(sub, ErrorEvent)
  }

  function DoSubscribe(s: State, ch: Channel, o: Oracle): State {
    if ch !in s.subs || s.subs[ch].state.Unsubscribed? then s
    else if !NeedsToken(s.subs[ch]) then
      SendSubscribe(s, ch, RefreshData(s.subs[ch], o.data), None, o.fate)
    else if o.token.Broken? then
      RetryLater(s, ch, s.subs[ch].token)
    else if o.token.Denied? || o.token.token == "" then
      UnsubscribeUnauthorized(s, ch)
    else
      SendSubscribe(s, ch, RefreshData(s.subs[ch].(token := o.token.token), o.data), None, o.fate)
  }

  datatype Attempt = Attempt(channel: Channel, oracle: Oracle)

  function ResubscribeAll(s: State, plan: seq<Attempt>): State
    decreases |plan|
  {
    if plan == [] then s
    else
      var last := plan[|plan| - 1];
      DoSubscribe(ResubscribeAll(s, plan[..|plan| - 1]), last.channel, last.oracle)
  }

  function SubscribingChannels(subs: map<Channel, SubState>): set<Channel> {
    set ch | ch in subs && subs[ch].state.Subscribing?
  }

  /** Some order in which a hash map yields the channels `chs`, each once. */
  ghost predicate Lists(plan: seq<Attempt>, chs: set<Channel>) {
    && (forall i :: 0 <= i < |plan| ==> plan[i].channel in chs)
    && (forall i, j :: 0 <= i < j < |plan| ==> plan[i].channel != plan[j].channel)
    && (forall ch :: ch in chs ==> exists i :: 0 <= i < |plan| && plan[i].channel == ch)
  }

  // ---------- push.rs ----------

  function HandlePublication(s: State, ch: Channel, p: Publication): State {
    if ch in s.subs then s.(subs := s.subs[ch := Receive(s.subs[ch], p, s.config.protocol)])
    else if ch in s.servers.subs then
      var ss := s.servers.subs[ch];
      s.(servers := Servers(s.servers.subs[ch := if p.offset > 0 then ss.(offset := p.offset) else ss],
                            Note(s.servers.log, {ch}, ServerPublication(p.offset))))
    else s
  }

  function HandleJoinLeave(s: State, ch: Channel, e: SubEvent, se: ServerEvent): State {
    if ch in s.subs then s.(subs := s.subs[ch := Emit(s.subs[ch], e)])
    else if ch in s.servers.subs then s.(servers := s.servers.(log := Note(s.servers.log, {ch}, se)))
    else s
  }

  function HandleServerUnsubscribe(s: State, ch: Channel, code: nat): State {
    if ch in s.subs then
      if ShouldResubscribeOnUnsubscribe(code)
      then s.(subs := s.subs[ch := BackToSubscribing(s.subs[ch], code)], calls := Arm(s.calls, Resubscribe(ch)))
      else s.(subs := s.subs[ch := Leave(s.subs[ch], code)])
    else if ch in s.servers.subs then
      s.(servers := Servers(s.servers.subs - {ch}, Note(s.servers.log, {ch}, ServerUnsubscribed(code))))
    else s
  }

  function HandleServerSubscribe(s: State, ch: Channel, ss: ServerSub): State {
    s.(servers := Servers(s.servers.subs[ch := ss], Note(s.servers.log, {ch}, ServerSubscribed(false))))
  }

  function HandleDisconnectPush(s: State, code: nat): State {
    if ShouldReconnectOnDisconnect(code) then OnTransportClose(s, code, true) else MoveToDisconnected(s, code)
  }

  function HandlePush(s: State, push: Push): State {
    match push.body
    case PublicationPush(p) => HandlePublication(s, push.channel, p)
    case JoinPush => HandleJoinLeave(s, push.channel, JoinEvent, ServerJoin)
    case LeavePush => HandleJoinLeave(s, push.channel, LeaveEvent, ServerLeave)
    case UnsubscribePush(code) => HandleServerUnsubscribe(s, push.channel, code)
    case SubscribePush(recoverable, offset, epoch) =>
      HandleServerSubscribe(s, push.channel, ServerSub(recoverable, offset, epoch))
    case DisconnectPush(code) => HandleDisconnectPush(s, code)
    case MessagePush => s.(clientLog := s.clientLog + [MessageEvent])
    case EmptyPush => s
  }

  // ---------- server_subs.rs ----------

  /** The offset of the last publication that carries one, or else `offset`. */
  function LastOffset(offset: nat, ps: seq<Publication>): nat
    decreases |ps|
  {
    if ps == [] then offset
    else if ps[|ps| - 1].offset > 0 then ps[|ps| - 1].offset
    else LastOffset(offset, ps[..|ps| - 1])
  }

  function PublicationEvents(ps: seq<Publication>): (es: seq<ServerEvent>)
    ensures |es| == |ps| && forall i :: 0 <= i < |ps| ==> es[i] == ServerPublication(ps[i].offset)
  {
    seq(|ps|, i requires 0 <= i < |ps| => ServerPublication(ps[i].offset))
  }

  /** The entry `process_server_subs` leaves for a server-side channel of the result. */
  function Refreshed(r: SubscribeResult): ServerSub {
    ServerSub(r.recoverable, LastOffset(r.offset, r.publications), r.epoch)
  }

  /** Client-side subscriptions resolved by the connect result, restricted to `done`. */
  function ResolvedSubs(s: State, r: ConnectResult, done: set<Channel>): map<Channel, SubState>
    requires done <= r.subs.Keys
  {
    map ch | ch in s.subs ::
      if ch in done then Succeed(s.subs[ch], r.subs[ch], s.config.protocol) else s.subs[ch]
  }

  function RefreshTimers(r: ConnectResult, client: set<Channel>): set<Timer>
    requires client <= r.subs.Keys
  {
    set ch | ch in client && r.subs[ch].expires && r.subs[ch].ttl > 0 :: RefreshSubToken(ch)
  }

  /** The registry after the server-side channels in `server` have been refreshed. */
  function RefreshedServers(sv: Servers, r: ConnectResult, server: set<Channel>): Servers
    requires server <= r.subs.Keys
  {
    Servers(
      sv.subs + (map ch | ch in server :: Refreshed(r.subs[ch])),
      map ch | ch in sv.log.Keys + server ::
        if ch in server
        then Trace(sv.log, ch) + [ServerSubscribed(ch in sv.subs)] + PublicationEvents(r.subs[ch].publications)
        else sv.log[ch])
  }

  /** The state after the results of the channels in `done` have been routed. */
  function RouteResults(s: State, r: ConnectResult, done: set<Channel>): State
    requires done <= r.subs.Keys
  {
    var client := done * s.subs.Keys;
    s.(subs := ResolvedSubs(s, r, done),
       desk := Tell(s.desk, WaitersIn(s.subs, client), Done),
       calls := s.calls.(timers := s.calls.timers + multiset(RefreshTimers(r, client))),
       servers := RefreshedServers(s.servers, r, done - s.subs.Keys))
  }

  function ProcessServerSubs(s: State, r: ConnectResult): State {
    var s1 := RouteResults(s, r, r.subs.Keys);
    var gone := s.servers.subs.Keys - r.subs.Keys;
    s1.(servers := Servers(s1.servers.subs - gone, Note(s1.servers.log, gone, ServerUnsubscribed(SERVER_SUB_REMOVED))))
  }

  // ---------- connect.rs ----------

  function ScheduleTokenRefresh(s: State): State {
    if !s.link.token.expires || s.link.token.ttl == 0 then s else s.(calls := Arm(s.calls, RefreshToken))
  }

  function ResolveSubscribe(s: State, ch: Channel, r: Reply): (State, Answer) {
    if r.error.Some? && r.error.value.code == ALREADY_SUBSCRIBED then
      (HandleSubscribeSuccess(s, ch, if r.subscribe.Some? then r.subscribe.value else EMPTY_RESULT), Done)
    else if r.error.Some? then
      (HandleSubscribeError(s, ch, r.error.value), Failed(Server(r.error.value)))
    else if r.subscribe.Some? then
      (HandleSubscribeSuccess(s, ch, r.subscribe.value), Done)
    else
      (s.(calls := s.calls.(stranded := s.calls.stranded + {ch})), Failed(BadMessage))
  }

  function ResolvePending(s: State, req: PendingRequest, r: Reply): State {
    match req
    case AwaitSubscribe(ch, sender) =>
      var (s1, answer) := ResolveSubscribe(s, ch, r);
      s1.(desk := Tell(s1.desk, OptionSet(sender), answer))
    case AwaitReply(h) => s.(desk := Tell(s.desk, {h}, Raw(r)))
    case AwaitRefresh =>
      if r.error.None? && r.refresh.Some? then
        ScheduleTokenRefresh(
          s.(link := s.link.(token := s.link.token.(expires := r.refresh.value.expires, ttl := r.refresh.value.ttl))))
      else s
    case AwaitSubRefresh(ch) =>
      if r.error.None? && r.subRefresh.Some? && ch in s.subs && r.subRefresh.value.expires
      then s.(calls := ScheduleSubTokenRefresh(s.calls, ch, r.subRefresh.value.ttl))
      else s
  }

  /** One decoded reply and, should it be a ping, the fate of the pong. */
  datatype Arrival = Arrival(reply: Reply, fate: Fate)

  function TakeOut(s: State, id: nat): State { s.(calls := s.calls.(pending := s.calls.pending - {id})) }

  function DispatchReply(s: State, a: Arrival): State {
    var r := a.reply;
    if r.id == 0 && r.push.None? then
      if s.link.sendPong then Post(s, Command(0, PongBody), a.fate) else s
    else if r.id == 0 then HandlePush(s, r.push.value)
    else if r.id in s.calls.pending then ResolvePending(TakeOut(s, r.id), s.calls.pending[r.id], r)
    else s
  }

  /** `handle_transport_data` on a frame that decoded. */
  function DispatchAll(s: State, arrivals: seq<Arrival>): State
    decreases |arrivals|
  {
    if arrivals == [] then s
    else DispatchReply(DispatchAll(s, arrivals[..|arrivals| - 1]), arrivals[|arrivals| - 1])
  }

  /** A frame that did not decode. */
  function RejectFrame(s: State): State { OnTransportClose(s, BAD_PROTOCOL, false) }

  function EmitError(s: State): State { s.(clientLog := s.clientLog + [ClientErrorEvent]) }

  datatype Opening = Opening(token: TokenOutcome, opens: bool, data: Option<Bytes>, fate: Fate)

  predicate NeedsRefresh(s: State) {
    s.link.token.refreshRequired || (s.config.token == "" && s.config.hasGetToken)
  }

  function RefreshRequired(s: State, required: bool): State {
    s.(link := s.link.(token := s.link.token.(refreshRequired := required)))
  }

  /** `refresh_token_if_needed`: the new state, and whether to go on. */
  function RefreshTokenIfNeeded(s: State, o: TokenOutcome): (State, bool) {
    if !NeedsRefresh(s) then (s, true)
    else if !s.config.hasGetToken then (RefreshRequired(s, false), true)
    else if o.Broken? then (EmitError(s), false)
    else if o.Denied? || o.token == "" then (MoveToDisconnected(s, DISCONNECT_UNAUTHORIZED), true)
    else (RefreshRequired(s.(config := s.config.(token := o.token)), false), true)
  }

  /** A client-side subscription that rides on the connect command. */
  predicate Batched(s: State, ch: Channel) {
    ch in s.subs && s.subs[ch].state.Subscribing? && !NeedsToken(s.subs[ch]) && !s.subs[ch].config.hasGetData
  }

  /** A server-side subscription the server is asked to replay. */
  predicate Replayed(s: State, ch: Channel) { ch in s.servers.subs && s.servers.subs[ch].recoverable }

  function ReplayRequest(ss: ServerSub): SubscribeRequest {
    SubscribeRequest("", "", true, ss.epoch, ss.offset, [], false, false, false, false)
  }

  function ConnectSubs(s: State): map<Channel, SubscribeRequest> {
    map ch | ch in s.servers.subs.Keys + s.subs.Keys && (Batched(s, ch) || Replayed(s, ch)) ::
      if Batched(s, ch) then BuildRequest(ch, s.subs[ch]) else ReplayRequest(s.servers.subs[ch])
  }

  function RefreshConnectData(s: State, data: Option<Bytes>): State {
    if !s.config.hasGetData then s
    else if data.Some? then s.(config := s.config.(data := data.value))
    else EmitError(s)
  }

  function ConnectBodyOf(s: State): Body { ConnectBody(s.config.token, s.config.data, ConnectSubs(s)) }

  /** `do_handshake` up to the point where it waits for the reply. */
  function SendConnect(s: State, fate: Fate): State {
    var id := NextId(s.calls);
    var body := ConnectBodyOf(s);
    var (out, err) := SendCommand(s.out, s.link, Command(id, body), fate);
    var s1 := s.(calls := Issue(s.calls, body, None), out := out);
    if err.None? then s1.(link := s1.link.(handshake := Some(id))) else OnHandshakeFailure(s1, err.value)
  }

  /** One turn of `do_connect_cycle` up to the handshake's first read. */
  function BeginAttempt(s: State, o: Opening): State {
    var (s1, goOn) := RefreshTokenIfNeeded(s.(link := s.link.(attempts := s.link.attempts + 1)), o.token);
    if !goOn then s1
    else if !o.opens then EmitError(s1)
    else SendConnect(RefreshConnectData(Attach(s1), o.data), o.fate)
  }

  function Attach(s: State): State {
    s.(link := s.link.(sink := true, stream := true, conn := s.link.conn + 1))
  }

  function OnHandshakeFailure(s: State, err: ClientError): State {
    var s1 := EmitError(s.(link := Detach(s.link).(handshake := None)));
    if !err.Server? then s1
    else if err.error.code == TOKEN_EXPIRED then RefreshRequired(s1, true)
    else if !IsTemporary(err.error.code, err.error.temporary) then MoveToDisconnected(s1, err.error.code)
    else s1
  }

  function EndHandshake(s: State): State {
    s.(link := s.link.(handshake := None), calls := s.calls.(stranded := {}))
  }

  /** `on_handshake_success` before the resubscriptions. */
  function Establish(s: State, r: ConnectResult): State {
    ScheduleTokenRefresh(ProcessServerSubs(MoveToConnected(EndHandshake(s), r), r))
  }

  function AnswerConnectWaiters(s: State): State {
    s.(desk := Tell(s.desk.(connectWaiters := []), SetOf(s.desk.connectWaiters), Done))
  }

  function OnHandshakeSuccess(s: State, r: ConnectResult, plan: seq<Attempt>): State {
    AnswerConnectWaiters(ResubscribeAll(Establish(s, r), plan))
  }

  /** How many of the replies of a frame are dispatched before the one with id `id`. */
  function Before(arrivals: seq<Arrival>, id: nat): (n: nat)
    ensures n <= |arrivals|
    ensures forall i :: 0 <= i < n ==> arrivals[i].reply.id != id
    ensures n < |arrivals| ==> arrivals[n].reply.id == id
  {
    if arrivals == [] || arrivals[0].reply.id == id then 0 else 1 + Before(arrivals[1..], id)
  }

  /** A handshake frame up to the awaited reply. */
  function ReadUntil(s: State, id: nat, arrivals: seq<Arrival>): State {
    DispatchAll(s, arrivals[..Before(arrivals, id)])
  }

  /** What `do_handshake` returns for the awaited reply. */
  function HandshakeResult(r: Reply): Result<ConnectResult, ClientError> {
    if r.error.Some? then Err(Server(r.error.value))
    else if r.connect.None? then Err(BadMessage)
    else Ok(r.connect.value)
  }

  /** The end of the handshake on the awaited reply. */
  function FinishHandshake(s: State, r: Reply, plan: seq<Attempt>): State {
    match HandshakeResult(r)
    case Err(e) => OnHandshakeFailure(s, e)
    case Ok(result) => OnHandshakeSuccess(s, result, plan)
  }

  /** One frame read by `read_reply_with_timeout`; replies after the awaited one are lost. */
  function HandshakeFrame(s: State, id: nat, arrivals: seq<Arrival>, plan: seq<Attempt>): State {
    var n := Before(arrivals, id);
    var s1 := ReadUntil(s, id, arrivals);
    if n == |arrivals| then s1 else FinishHandshake(s1, arrivals[n].reply, plan)
  }

  // ---------- token.rs ----------

  function DoRefreshToken(s: State, o: TokenOutcome, fate: Fate): State {
    if !s.link.phase.Connected? then s
    else if s.config.hasGetToken && o.Broken? then
      EmitError(s).(calls := Arm(s.calls, RefreshToken))
    else if s.config.hasGetToken && (o.Denied? || o.token == "") then
      MoveToDisconnected(s, DISCONNECT_UNAUTHORIZED)
    else
      var s1 := if s.config.hasGetToken then s.(config := s.config.(token := o.token)) else s;
      var body := RefreshBody(s1.config.token);
      var s2 := Transact(s1, body, AwaitRefresh, fate);
      if SendFails(s1, body, fate) then s2.(calls := Arm(s2.calls, RefreshToken)) else s2
  }

  function DoRefreshSubToken(s: State, ch: Channel, o: TokenOutcome, fate: Fate): State {
    if !s.link.phase.Connected? || ch !in s.subs || !s.subs[ch].state.Subscribed?
        || !s.subs[ch].config.hasGetToken then s
    else if o.Broken? then
      s.(subs := s.subs[ch := Emit(s.subs[ch], ErrorEvent)], calls := ScheduleSubTokenRefresh(s.calls, ch, 10))
    else if o.Denied? || o.token == "" then
      UnsubscribeUnauthorized(s, ch)
    else
      Transact(s.(subs := s.subs[ch := s.subs[ch].(token := o.token)]), SubRefreshBody(ch, o.token),
          AwaitSubRefresh(ch), fate)
  }

  // ---------- commands.rs ----------

  /** The commands a client handle sends. */
  datatype ActorCommand =
    | Connect(reply: Handle)
    | Disconnect(reply: Handle)
    | Close(reply: Handle)
    | NewSubscription(channel: Channel, config: SubscriptionConfig, reply: Handle)
    | GetSubscription(channel: Channel, reply: Handle)
    | ListSubscriptions(reply: Handle)
    | RemoveSubscription(channel: Channel, reply: Handle)
    | Subscribe(channel: Channel, reply: Handle)
    | Unsubscribe(channel: Channel, reply: Handle)
    | SendRequest(payload: Bytes, reply: Handle)
    | Send(data: Bytes)
    | SetToken(token: string)
    | SetData(data: Bytes)
    | StartBatching
    | StopBatching

  function ReplyHandle(c: ActorCommand): Option<Handle> {
    match c
    case Send(_) => None
    case SetToken(_) => None
    case SetData(_) => None
    case StartBatching => None
    case StopBatching => None
    case _ => Some(c.reply)
  }

  function Respond(s: State, h: Handle, a: Answer): State { s.(desk := Tell(s.desk, {h}, a)) }

  function AwaitConnection(s: State, h: Handle): State {
    s.(desk := s.desk.(connectWaiters := s.desk.connectWaiters + [h]))
  }

  function HandleConnect(s: State, h: Handle): State {
    match s.link.phase
    case Disconnected =>
      var s1 := AwaitConnection(s, h);
      MoveToConnecting(s1.(link := s1.link.(connectRequested := true)), CONNECT_CALLED)
    case Connecting => AwaitConnection(s, h)
    case Connected => Respond(s, h, Done)
    case Closed => Respond(s, h, Failed(ClientClosed))
  }

  function HandleSubscribe(s: State, ch: Channel, h: Handle, fate: Fate): State {
    if ch !in s.subs then Respond(s, h, Failed(SubscriptionUnsubscribed))
    else
      var sub := s.subs[ch];
      match sub.state
      case Subscribed => Respond(s, h, Done)
      case Subscribing => s.(subs := s.subs[ch := sub.(waiters := sub.waiters + [h])])
      case Unsubscribed =>
        var sub1 := BackToSubscribing(sub.(attempts := 0), SUBSCRIBE_CALLED);
        if !s.link.phase.Connected? then s.(subs := s.subs[ch := sub1.(waiters := sub1.waiters + [h])])
        else SendSubscribe(s, ch, sub1, Some(h), fate)
  }

  /** The fire-and-forget wire unsubscribe. */
  function SendUnsubscribe(s: State, ch: Channel, fate: Fate): State {
    Post(s, Command(NextId(s.calls), UnsubscribeBody(ch)), fate).(calls := Issue(s.calls, UnsubscribeBody(ch), None))
  }

  function HandleUnsubscribe(s: State, ch: Channel, h: Handle, fate: Fate): State {
    if ch !in s.subs then Respond(s, h, Done)
    else
      var s1 := s.(subs := s.subs[ch := Leave(s.subs[ch], UNSUBSCRIBE_CALLED)]);
      if s.subs[ch].state.Subscribed? && s.link.phase.Connected? then
        var s2 := Respond(SendUnsubscribe(s1, ch, fate), h, Done);
        if SendFails(s1, UnsubscribeBody(ch), fate) then OnTransportClose(s2, UNSUBSCRIBE_ERROR, true) else s2
      else Respond(s1, h, Done)
  }

  /** The subscription leaves the registry; its waiters are answered unless it was already unsubscribed. */
  function Forget(s: State, ch: Channel): State
    requires ch in s.subs
  {
    var sub := s.subs[ch];
    s.(subs := s.subs - {ch},
       desk := if sub.state.Unsubscribed? then s.desk.(dropped := s.desk.dropped + SetOf(sub.waiters))
               else Tell(s.desk, SetOf(sub.waiters), Failed(SubscriptionUnsubscribed)))
  }

  function HandleRemoveSubscription(s: State, ch: Channel, h: Handle, fate: Fate): State {
    if ch !in s.subs then Respond(s, h, Done)
    else
      var s1 := Forget(s, ch);
      Respond(if s.subs[ch].state.Subscribed?
          && s.link.phase.Connected? then SendUnsubscribe(s1, ch, fate) else s1, h, Done)
  }

  function SendRequestCommand(s: State, payload: Bytes, h: Handle, fate: Fate): State {
    if !s.link.phase.Connected? then Respond(s, h, Failed(ClientDisconnected))
    else Transact(s, RequestBody(payload), AwaitReply(h), fate)
  }

  function HandleNewSubscription(s: State, ch: Channel, config: SubscriptionConfig, h: Handle): State {
    if ch in s.subs then Respond(s, h, Failed(DuplicateSubscription))
    else Respond(s.(subs := s.subs[ch := NewSub(config)]), h, Done)
  }

  function HandleCommand(s: State, c: ActorCommand, fate: Fate): State {
    match c
    case Connect(h) => HandleConnect(s, h)
    case Disconnect(h) => Respond(MoveToDisconnected(s, DISCONNECT_CALLED), h, Done)
    case Close(h) => Respond(MoveToClosed(s), h, Done)
    case NewSubscription(ch, config, h) => HandleNewSubscription(s, ch, config, h)
    case GetSubscription(ch, h) => Respond(s, h, Found(ch in s.subs))
    case ListSubscriptions(h) => Respond(s, h, Listing(map ch | ch in s.subs :: s.subs[ch].state))
    case RemoveSubscription(ch, h) => HandleRemoveSubscription(s, ch, h, fate)
    case Subscribe(ch, h) => HandleSubscribe(s, ch, h, fate)
    case Unsubscribe(ch, h) => HandleUnsubscribe(s, ch, h, fate)
    case SendRequest(payload, h) => SendRequestCommand(s, payload, h, fate)
    case Send(data) => if s.link.phase.Connected? then Post(s, Command(0, SendBody(data)), fate) else s
    case SetToken(t) => s.(config := s.config.(token := t))
    case SetData(d) => s.(config := s.config.(data := d))
    case StartBatching => s.(out := s.out.(batch := s.out.batch.(active := true)))
    case StopBatching => s.(out := FlushBatch(s.out, s.link, fate))
  }

  /** The waiters of a subscription are answered and forgotten; nothing else about it changes. */
  function DrainWaiters(s: State, ch: Channel, err: ClientError): State
    requires ch in s.subs
  {
    s.(subs := s.subs[ch := s.subs[ch].(waiters := [])],
       desk := Tell(s.desk, SetOf(s.subs[ch].waiters), Failed(err)))
  }

  function HandleRequestTimeout(s: State, id: nat): State {
    if id !in s.calls.pending then s
    else
      var req := s.calls.pending[id];
      var s1 := TakeOut(s, id);
      var s2 := s1.(desk := Tell(s1.desk, OptionSet(CallerOf(req)), Failed(Timeout)));
      if req.AwaitSubscribe? && req.channel in s.subs
      then OnTransportClose(DrainWaiters(s2, req.channel, Timeout), SUBSCRIBE_TIMEOUT, true)
      else s2
  }

  /** A spawned sleep delivers its message. */
  function HandleTimer(s: State, t: Timer, o: Oracle): State {
    match t
    case Resubscribe(ch) => if s.link.phase.Connected? then DoSubscribe(s, ch, o) else s
    case RequestTimeout(id) => HandleRequestTimeout(s, id)
    case RefreshToken => DoRefreshToken(s, o.token, o.fate)
    case RefreshSubToken(ch) => DoRefreshSubToken(s, ch, o.token, o.fate)
  }

  // ---------- steps and runs ----------

  datatype Input =
    | Ask(command: ActorCommand, fate: Fate)
    | Fire(timer: Timer, oracle: Oracle)
    | Open(opening: Opening)
    | Shake(arrivals: seq<Arrival>, plan: seq<Attempt>)  // a handshake frame that decodes
    | ShakeFails(error: ClientError)                     // bad frame, close or timeout during the handshake
    | Data(arrivals: seq<Arrival>)
    | BadData
    | TransportClosed(code: nat, reconnect: bool)
    | PingTimeout

  /** The actor is at a point where it takes commands: idle, in backoff or connected. */
  predicate TakesCommands(s: State) {
    && s.link.handshake.None?
    && (s.link.phase.Disconnected? || s.link.phase.Connected? || (s.link.phase.Connecting? && s.link.attempts > 0))
  }

  ghost predicate Enabled(s: State, i: Input) {
    match i
    case Ask(c, _) => TakesCommands(s) && (ReplyHandle(c).Some? ==> ReplyHandle(c).value !in s.desk.callers)
    case Fire(t, _) => TakesCommands(s) && t in s.calls.timers
    case Open(_) => s.link.phase.Connecting? && s.link.handshake.None?
    case Shake(arrivals, plan) => s.link.handshake.Some? && s.link.stream
        && PlanFits(s, s.link.handshake.value, arrivals, plan)
    case ShakeFails(e) => s.link.handshake.Some? && !e.Server?
    case Data(_) => s.link.phase.Connected? && s.link.stream
    case BadData => s.link.phase.Connected? && s.link.stream
    case TransportClosed(_, _) => s.link.phase.Connected? && s.link.stream
    case PingTimeout => s.link.phase.Connected?
  }

  /** If the frame ends the handshake well, `plan` lists what `resubscribe_all` then finds to do. */
  ghost predicate PlanFits(s: State, id: nat, arrivals: seq<Arrival>, plan: seq<Attempt>) {
    var n := Before(arrivals, id);
    n < |arrivals| && HandshakeResult(arrivals[n].reply).Ok? ==>
      Lists(plan, SubscribingChannels(
        Establish(ReadUntil(s, id, arrivals), HandshakeResult(arrivals[n].reply).value).subs))
  }

  function Admit(s: State, h: Option<Handle>): State {
    s.(desk := s.desk.(callers := s.desk.callers + OptionSet(h)))
  }

  function Disarm(s: State, t: Timer): State {
    s.(calls := s.calls.(timers := s.calls.timers - multiset{t}))
  }

  ghost function Apply(s: State, i: Input): State
    requires Enabled(s, i)
  {
    match i
    case Ask(c, fate) => HandleCommand(Admit(s, ReplyHandle(c)), c, fate)
    case Fire(t, o) => HandleTimer(Disarm(s, t), t, o)
    case Open(o) => BeginAttempt(s, o)
    case Shake(arrivals, plan) => HandshakeFrame(s, s.link.handshake.value, arrivals, plan)
    case ShakeFails(e) => OnHandshakeFailure(s, e)
    case Data(arrivals) => DispatchAll(s, arrivals)
    case BadData => RejectFrame(s)
    case TransportClosed(code, reconnect) => OnTransportClose(s, code, reconnect)
    case PingTimeout => OnTransportClose(s, NO_PING, true)
  }

  /** An input the actor is not waiting for stays outside. */
  ghost function Step(s: State, i: Input): State {
    if Enabled(s, i) then Apply(s, i) else s
  }

  /** Every finite run, from any state. */
  ghost function Run(s: State, inputs: seq<Input>): State
    decreases |inputs|
  {
    if inputs == [] then s else Step(Run(s, inputs[..|inputs| - 1]), inputs[|inputs| - 1])
  }
}
