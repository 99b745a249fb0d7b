/** `SubState` of `src/subscription.rs` as the object its handlers borrow and update in place. */
module SubscriptionCells {
  import opened Prelude
  import opened Lines
  import opened Protocol
  import opened Subscriptions
  import DeltaReaders
  import Spec = Subscriptions

  /** The fields of a confirmed subscription. */
  lemma ConfirmFields(sub: SubState, r: SubscribeResult)
    ensures var known := r.recoverable || r.positioned;
      Spec.Confirm(sub, r) == SubState(
        sub.config, Subscribed, if known then r.offset else sub.offset, if known then r.epoch else sub.epoch,
        sub.recover || r.recoverable, 0, sub.token, sub.waiters, r.delta, sub.prevData,
        sub.log + [SubscribedEvent(if known then Some(StreamPosition(r.offset, r.epoch)) else None,
                                   CanRecover(sub), r.recovered, r.publications != [])])
  {}

  class SubscriptionCell {
    var config: SubscriptionConfig
    var state: SubscriptionState
    var offset: nat
    var epoch: string
    var recover: bool
    var attempts: nat
    var token: string
    var waiters: seq<Handle>
    var deltaNegotiated: bool
    var prevData: Bytes
    var log: seq<SubEvent>

    /** The object as a value. */
    function View(): SubState
      reads this
    {
      SubState(config, state, offset, epoch, recover, attempts, token, waiters, deltaNegotiated, prevData, log)
    }

    /** `SubState::new`. */
    constructor (config: SubscriptionConfig)
      ensures View() == NewSub(config)
    {
      this.config := config;
      state, attempts, token, waiters := Unsubscribed, 0, config.token, [];
      recover := config.since.Some? || config.recoverable;
      offset := if config.since.Some? then config.since.value.offset else 0;
      epoch := if config.since.Some? then config.since.value.epoch else "";
      deltaNegotiated, prevData, log := false, [], [];
    }

    /** A mutable borrow of the entry of a map. */
    constructor Borrow(sub: SubState)
      ensures View() == sub
    {
      config, state, offset, epoch, recover := sub.config, sub.state, sub.offset, sub.epoch, sub.recover;
      attempts, token, waiters := sub.attempts, sub.token, sub.waiters;
      deltaNegotiated, prevData, log := sub.deltaNegotiated, sub.prevData, sub.log;
    }

    /** `apply_delta`: the data to deliver, and a new delta base unless the delta fails. */
    method ApplyDelta(p: Publication, protocol: ProtocolType) returns (data: Bytes)
      modifies this`prevData
      ensures (View(), data) == Spec.ApplyDelta(old(View()), p, protocol)
    {
      if !deltaNegotiated { return p.data; }
      var raw := match protocol case Json => UnwrapJsonString(p) case Protobuf => p.data;
      if p.delta {
        var applied := DeltaReaders.ApplyDelta(prevData, raw);
        match applied {
          case Ok(full) =>
            prevData := full;
            data := full;
          case Err(_) => data := raw;
        }
      } else {
        prevData := raw;
        data := raw;
      }
    }

    method Receive(p: Publication, protocol: ProtocolType)
      modifies this
      ensures View() == Spec.Receive(old(View()), p, protocol)
    {
      if p.offset > 0 {
        offset := p.offset;
      }
      var data := ApplyDelta(p, protocol);
      log := log + [PublicationEvent(p.offset, data)];
    }

    /** Take over the position of a recoverable or positioned result. */
    method Adopt(r: SubscribeResult)
      modifies this`recover, this`offset, this`epoch
      ensures recover == (old(recover) || r.recoverable)
      ensures offset == if r.recoverable || r.positioned then r.offset else old(offset)
      ensures epoch == if r.recoverable || r.positioned then r.epoch else old(epoch)
    {
      if r.recoverable {
        recover, offset, epoch := true, r.offset, r.epoch;
      }
      if r.positioned {
        offset, epoch := r.offset, r.epoch;
      }
    }

    /** The first half of `handle_subscribe_success`. */
    method Confirm(r: SubscribeResult)
      modifies this
      ensures View() == Spec.Confirm(old(View()), r)
    {
      hide Spec.Confirm;
      ConfirmFields(View(), r);
      var wasRecovering := recover && (offset > 0 || epoch != "");
      state, attempts, deltaNegotiated := Subscribed, 0, r.delta;
      Adopt(r);
      var position := if r.positioned || r.recoverable then Some(StreamPosition(r.offset, r.epoch)) else None;
      log := log + [SubscribedEvent(position, wasRecovering, r.recovered, r.publications != [])];
    }

    /** `handle_subscribe_success` up to the waiters. */
    method ConfirmAndReceive(r: SubscribeResult, protocol: ProtocolType)
      modifies this
      ensures View() == ReceiveAll(Spec.Confirm(old(View()), r), r.publications, protocol)
    {
      hide Spec.Receive, Spec.Confirm;
      Confirm(r);
      assert r.publications[..0] == [];
      for k := 0 to |r.publications|
        invariant View() == ReceiveAll(Spec.Confirm(old(View()), r), r.publications[..k], protocol)
      {
        assert r.publications[..k + 1][..k] == r.publications[..k];
        Receive(r.publications[k], protocol);
      }
      assert r.publications[..|r.publications|] == r.publications;
    }
  }
}
