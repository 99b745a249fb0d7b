/** What each push does, by the kind of the channel it is for. */
module Pushes {
  import opened Prelude
  import opened Lines
  import opened Protocol
  import opened Subscriptions
  import opened ActorState
  import opened Outcomes
  import DeltaFormat

  /** The push in the reply is about `ch` and says `body`. */
  predicate IsPush(a: Arrival, ch: Channel, body: PushBody) {
    a.reply.id == 0 && a.reply.push == Some(Push(ch, body))
  }

  /** What a publication carries: in JSON the content of the string, if it is one. */
  predicate Carries(p: Publication, protocol: ProtocolType, raw: Bytes) {
    if protocol.Json? && p.jsonText.Some? then raw == p.jsonText.value else raw == p.data
  }

  /**
   What is delivered, and the base for the next delta: as it came if no deltas were negotiated, and otherwise what it
   carries - or, for a delta that applies to the present base, what that gives.
   */
  predicate Delivers(sub: SubState, p: Publication, protocol: ProtocolType, data: Bytes, base: Bytes) {
    if !sub.deltaNegotiated then data == p.data && base == sub.prevData
    else if !p.delta then Carries(p, protocol, data) && base == data
    else
      var raw := if protocol.Json? && p.jsonText.Some? then p.jsonText.value else p.data;
      if DeltaFormat.Apply(sub.prevData, raw).Ok?
      then data == base == DeltaFormat.Apply(sub.prevData, raw).value
      else data == raw && base == sub.prevData
  }

  /** The subscription has taken one publication. */
  ghost predicate TakesPublication(sub: SubState, sub': SubState, p: Publication, protocol: ProtocolType) {
    && |sub'.log| == |sub.log| + 1 && sub'.log[|sub.log|].PublicationEvent?
    && var data := sub'.log[|sub.log|].data;
       && sub' == sub.(offset := if p.offset > 0 then p.offset else sub.offset, prevData := sub'.prevData,
                       log := sub.log + [PublicationEvent(p.offset, data)])
       && Delivers(sub, p, protocol, data, sub'.prevData)
  }

  lemma ReceiveTakes(sub: SubState, p: Publication, protocol: ProtocolType)
    ensures TakesPublication(sub, Receive(sub, p, protocol), p, protocol)
  {}

  /**
   A publication is delivered to the client-side subscription of its channel, or else noted by the server-side one;
   the one that takes it stands at its offset afterwards if that is positive, and where it stood if not.
   */
  lemma PublicationPushed(s: State, a: Arrival, ch: Channel, p: Publication)
    requires IsPush(a, ch, PublicationPush(p))
    ensures var t := DispatchReply(s, a);
      if ch in s.subs then
        && ch in t.subs && t == s.(subs := s.subs[ch := t.subs[ch]])
        && TakesPublication(s.subs[ch], t.subs[ch], p, s.config.protocol)
      else if ch in s.servers.subs then
        var ss := s.servers.subs[ch];
        && t == s.(servers := t.servers) && Announced(s, t, {ch}, ServerPublication(p.offset))
        && t.servers.subs == s.servers.subs[ch := ss.(offset := if p.offset > 0 then p.offset else ss.offset)]
      else t == s
  {
    hide Note, Announced, Receive, TakesPublication;
    var t := DispatchReply(s, a);
    if ch in s.subs {
      ReceiveTakes(s.subs[ch], p, s.config.protocol);
    } else if ch in s.servers.subs {
      NoteAnnounces(s, t, {ch}, ServerPublication(p.offset));
    }
  }

  /** Joins and leaves are one event for whichever subscription the channel has. */
  lemma PresencePushed(s: State, a: Arrival, ch: Channel, joins: bool)
    requires IsPush(a, ch, if joins then JoinPush else LeavePush)
    ensures var t := DispatchReply(s, a);
      if ch in s.subs then
        t == s.(subs := s.subs[ch := s.subs[ch].(log := s.subs[ch].log + [if joins then JoinEvent else LeaveEvent])])
      else if ch in s.servers.subs then
        && t == s.(servers := t.servers) && t.servers.subs == s.servers.subs
        && Announced(s, t, {ch}, if joins then ServerJoin else ServerLeave)
      else t == s
  {
    hide Note, Announced;
    if ch !in s.subs && ch in s.servers.subs {
      NoteAnnounces(s, DispatchReply(s, a), {ch}, if joins then ServerJoin else ServerLeave);
    }
  }

  /**
   The server takes a subscription away: with a code from 2500 on it is asked for again at once, below it ends. A
   server-side one leaves the registry.
   */
  lemma UnsubscribePushed(s: State, a: Arrival, ch: Channel, code: nat)
    requires IsPush(a, ch, UnsubscribePush(code))
    ensures var t := DispatchReply(s, a);
      if ch in s.subs then
        var sub := s.subs[ch];
        if code >= 2500 then
          && t == s.(calls := t.calls, subs := s.subs[ch := sub.(state := Subscribing,
                                                                 log := sub.log + [SubscribingEvent(code)])])
          && t.calls == s.calls.(timers := s.calls.timers + multiset{Resubscribe(ch)}, stranded := t.calls.stranded)
        else
          t == s.(subs := s.subs[ch := sub.(state := Unsubscribed, attempts := 0,
                                            log := sub.log + [UnsubscribedEvent(code)])])
      else if ch in s.servers.subs then
        && t == s.(servers := t.servers) && t.servers.subs == s.servers.subs - {ch}
        && Announced(s, t, {ch}, ServerUnsubscribed(code))
      else t == s
  {
    hide Note, Announced;
    if ch !in s.subs && ch in s.servers.subs {
      NoteAnnounces(s, DispatchReply(s, a), {ch}, ServerUnsubscribed(code));
    }
  }

  /** The server subscribes the client: the registry has the channel at the position given, and one event says so. */
  lemma SubscribePushed(s: State, a: Arrival, ch: Channel, recoverable: bool, offset: nat, epoch: string)
    requires IsPush(a, ch, SubscribePush(recoverable, offset, epoch))
    ensures var t := DispatchReply(s, a);
      && t == s.(servers := t.servers)
      && t.servers.subs.Keys == s.servers.subs.Keys + {ch}
      && (forall c :: c in s.servers.subs && c != ch ==> t.servers.subs[c] == s.servers.subs[c])
      && t.servers.subs[ch].recoverable == recoverable
      && t.servers.subs[ch].offset == offset && t.servers.subs[ch].epoch == epoch
      && Announced(s, t, {ch}, ServerSubscribed(false))
  {
    hide Note, Announced;
    NoteAnnounces(s, DispatchReply(s, a), {ch}, ServerSubscribed(false));
  }

  /** A message is one event of the client; a push that says nothing does nothing. */
  lemma OtherPushed(s: State, a: Arrival, ch: Channel, body: PushBody)
    requires IsPush(a, ch, body) && (body.MessagePush? || body.EmptyPush?)
    ensures DispatchReply(s, a) == if body.EmptyPush? then s else s.(clientLog := s.clientLog + [MessageEvent])
  {}
}
