/** `SubState` of `src/subscription.rs` and the handlers that work on one subscription. */
module Subscriptions {
  import opened Prelude
  import opened Lines
  import opened Protocol
  import DeltaFormat

  datatype SubscriptionState = Unsubscribed | Subscribing | Subscribed

  datatype SubscriptionConfig = SubscriptionConfig(
    since: Option<StreamPosition>, recoverable: bool, positioned: bool, joinLeave: bool, delta: bool,
    token: string, hasGetToken: bool, data: Bytes, hasGetData: bool)

  /** The events a subscription sends to its receiver. */
  datatype SubEvent =
    | SubscribingEvent(code: nat)
    | SubscribedEvent(position: Option<StreamPosition>, wasRecovering: bool, recovered: bool, hasPublications: bool)
    | UnsubscribedEvent(code: nat)
    | PublicationEvent(offset: nat, data: Bytes)
    | ErrorEvent
    | JoinEvent
    | LeaveEvent

  /** Identity of a caller waiting for an answer: one `oneshot::Sender`. */
  type Handle = nat

  datatype SubState = SubState(
    config: SubscriptionConfig, state: SubscriptionState, offset: nat, epoch: string, recover: bool,
    attempts: nat, token: string, waiters: seq<Handle>, deltaNegotiated: bool, prevData: Bytes,
    log: seq<SubEvent>)  // every event emitted so far

  function NewSub(config: SubscriptionConfig): SubState {
    SubState(
      config, Unsubscribed,
      if config.since.Some? then config.since.value.offset else 0,
      if config.since.Some? then config.since.value.epoch else "",
      config.since.Some? || config.recoverable,
      0, config.token, [], false, [], [])
  }

  function Emit(sub: SubState, e: SubEvent): SubState { sub.(log := sub.log + [e]) }

  /** `recover` flag of a subscribe request: only from a known position. */
  predicate CanRecover(sub: SubState) { sub.recover && (sub.offset > 0 || sub.epoch != "") }

  predicate NeedsToken(sub: SubState) { sub.token == "" && sub.config.hasGetToken }

  function BuildRequest(channel: Channel, sub: SubState): SubscribeRequest {
    SubscribeRequest(
      channel, sub.token, CanRecover(sub), sub.epoch, sub.offset, sub.config.data,
      sub.config.positioned, sub.config.recoverable, sub.config.joinLeave, sub.config.delta)
  }

  // ---------- publications ----------

  function UnwrapJsonString(p: Publication): Bytes {
    if p.jsonText.Some? then p.jsonText.value else p.data
  }

  function RawData(p: Publication, protocol: ProtocolType): Bytes {
    if protocol.Json? then UnwrapJsonString(p) else p.data
  }

  /** `SubState::apply_delta`: the new `prev_data` and the data to deliver. */
  function ApplyDelta(sub: SubState, p: Publication, protocol: ProtocolType): (SubState, Bytes) {
    if !sub.deltaNegotiated then (sub, p.data)
    else
      var raw := RawData(p, protocol);
      if p.delta then
        match DeltaFormat.Apply(sub.prevData, raw)
        case Ok(full) => (sub.(prevData := full), full)
        case Err(_) => (sub, raw)
      else (sub.(prevData := raw), raw)
  }

  /** One publication, recovered or live. */
  function Receive(sub: SubState, p: Publication, protocol: ProtocolType): SubState {
    var sub1 := if p.offset > 0 then sub.(offset := p.offset) else sub;
    var (sub2, data) := ApplyDelta(sub1, p, protocol);
    Emit(sub2, PublicationEvent(p.offset, data))
  }

  function ReceiveAll(sub: SubState, ps: seq<Publication>, protocol: ProtocolType): SubState
    decreases |ps|
  {
    if ps == [] then sub
    else Receive(ReceiveAll(sub, ps[..|ps| - 1], protocol), ps[|ps| - 1], protocol)
  }

  // ---------- subscribe replies ----------

  /** The `Subscribed` transition, before the recovered publications. */
  function Confirm(sub: SubState, r: SubscribeResult): SubState {
    var sub1 := sub.(state := Subscribed, attempts := 0, deltaNegotiated := r.delta);
    var sub2 := if r.recoverable then sub1.(recover := true, offset := r.offset, epoch := r.epoch) else sub1;
    var sub3 := if r.positioned then sub2.(offset := r.offset, epoch := r.epoch) else sub2;
    Emit(sub3, SubscribedEvent(
      if r.positioned || r.recoverable then Some(StreamPosition(r.offset, r.epoch)) else None,
      CanRecover(sub), r.recovered, r.publications != []))
  }

  /** `handle_subscribe_success` on the subscription; the caller answers the drained waiters. */
  function Succeed(sub: SubState, r: SubscribeResult, protocol: ProtocolType): SubState {
    ReceiveAll(Confirm(sub, r), r.publications, protocol).(waiters := [])
  }

  function BackToSubscribing(sub: SubState, code: nat): SubState {
    Emit(sub.(state := Subscribing), SubscribingEvent(code))
  }

  /** Leave for `Unsubscribed`, keeping waiters and position. */
  function Leave(sub: SubState, code: nat): SubState {
    Emit(sub.(state := Unsubscribed, attempts := 0), UnsubscribedEvent(code))
  }

  /** Publications move position, delta base and log, and nothing else. */
  lemma {:induction false} ReceiveAllKeeps(sub: SubState, ps: seq<Publication>, protocol: ProtocolType)
    ensures var t := ReceiveAll(sub, ps, protocol);
      && t.state == sub.state && t.waiters == sub.waiters && t.deltaNegotiated == sub.deltaNegotiated
      && t.epoch == sub.epoch && t.recover == sub.recover
    decreases |ps|
  {
    if ps != [] {
      ReceiveAllKeeps(sub, ps[..|ps| - 1], protocol);
    }
  }
}
