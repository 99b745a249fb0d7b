/** What `process_server_subs` leaves of the registry of server-side subscriptions. */
module Registry {
  import opened Lines
  import opened Protocol
  import opened Subscriptions
  import opened ActorState

  /** `offset` is the last positive offset among `ps`, or `fallback` if none is positive. */
  ghost predicate IsLastPosition(offset: nat, fallback: nat, ps: seq<Publication>) {
    || (offset == fallback && forall i :: 0 <= i < |ps| ==> ps[i].offset == 0)
    || (exists i :: 0 <= i < |ps| && LastPositionAt(offset, ps, i))
  }

  ghost predicate LastPositionAt(offset: nat, ps: seq<Publication>, i: nat)
    requires i < |ps|
  {
    ps[i].offset == offset > 0 && forall j :: i < j < |ps| ==> ps[j].offset == 0
  }

  lemma {:induction false} LastOffsetIsLastPosition(fallback: nat, ps: seq<Publication>)
    ensures IsLastPosition(LastOffset(fallback, ps), fallback, ps)
    decreases |ps|
  {
    if ps != [] {
      var n := |ps| - 1;
      if ps[n].offset > 0 {
        assert LastPositionAt(ps[n].offset, ps, n);
      } else {
        LastOffsetIsLastPosition(fallback, ps[..n]);
        var offset := LastOffset(fallback, ps);
        if exists i :: 0 <= i < n && LastPositionAt(offset, ps[..n], i) {
          var i :| 0 <= i < n && LastPositionAt(offset, ps[..n], i);
          assert forall j :: i < j < n ==> ps[j] == ps[..n][j];
          assert LastPositionAt(offset, ps, i);
        }
      }
    }
  }

  /** A last position is unique, so the entry does not depend on how it was found. */
  lemma LastPositionUnique(a: nat, b: nat, fallback: nat, ps: seq<Publication>)
    requires IsLastPosition(a, fallback, ps) && IsLastPosition(b, fallback, ps)
    ensures a == b
  {}

  /** The channels the registry holds afterwards. */
  lemma KeysReconciled(s: State, r: ConnectResult)
    ensures ProcessServerSubs(s, r).servers.subs.Keys
         == set ch | ch in r.subs && (ch !in s.subs || ch in s.servers.subs)
  {}

  /** The entry of a refreshed channel, and that of a channel which meanwhile has a client-side subscription. */
  lemma EntriesReconciled(s: State, r: ConnectResult, ch: Channel)
    requires ch in ProcessServerSubs(s, r).servers.subs
    ensures ch in r.subs
    ensures var entry := ProcessServerSubs(s, r).servers.subs[ch];
      if ch in s.subs then ch in s.servers.subs && entry == s.servers.subs[ch]
      else
        && entry.recoverable == r.subs[ch].recoverable && entry.epoch == r.subs[ch].epoch
        && IsLastPosition(entry.offset, r.subs[ch].offset, r.subs[ch].publications)
  {
    KeysReconciled(s, r);
    if ch !in s.subs {
      LastOffsetIsLastPosition(r.subs[ch].offset, r.subs[ch].publications);
    }
  }

  /** One event for each publication, at its offset. */
  function Noted(ps: seq<Publication>): seq<ServerEvent>
    decreases |ps|
  {
    if ps == [] then [] else Noted(ps[..|ps| - 1]) + [ServerPublication(ps[|ps| - 1].offset)]
  }

  lemma {:induction false} EventsNoted(ps: seq<Publication>)
    ensures PublicationEvents(ps) == Noted(ps)
    decreases |ps|
  {
    if ps != [] {
      EventsNoted(ps[..|ps| - 1]);
      assert PublicationEvents(ps) == PublicationEvents(ps[..|ps| - 1]) + [ServerPublication(ps[|ps| - 1].offset)];
    }
  }

  /** What the receiver of server-side events sees of one channel. */
  lemma EventsReconciled(s: State, r: ConnectResult, ch: Channel)
    ensures Trace(ProcessServerSubs(s, r).servers.log, ch) == Trace(s.servers.log, ch) +
      if ch in r.subs && ch !in s.subs
      then [ServerSubscribed(ch in s.servers.subs)] + Noted(r.subs[ch].publications)
      else if ch in s.servers.subs && ch !in r.subs then [ServerUnsubscribed(3)]
      else []
  {
    hide RouteResults, Noted;
    RoutedEvents(s, r, ch);
  }

  lemma RoutedEvents(s: State, r: ConnectResult, ch: Channel)
    ensures Trace(RouteResults(s, r, r.subs.Keys).servers.log, ch) == Trace(s.servers.log, ch) +
      if ch in r.subs && ch !in s.subs
      then [ServerSubscribed(ch in s.servers.subs)] + Noted(r.subs[ch].publications)
      else []
  {
    hide ResolvedSubs, RefreshTimers, Refreshed, PublicationEvents, WaitersIn, Tell, Noted;
    if ch in r.subs { EventsNoted(r.subs[ch].publications); }
  }

  /** Each channel has one owner: results for client-side subscriptions resolve those and nothing else does. */
  lemma SubsReconciled(s: State, r: ConnectResult)
    ensures var t := ProcessServerSubs(s, r);
      && t.subs.Keys == s.subs.Keys
      && (forall ch :: ch in s.subs ==>
            t.subs[ch] == if ch in r.subs then Succeed(s.subs[ch], r.subs[ch], s.config.protocol) else s.subs[ch])
  {}

  /** A client-side subscription takes its position by the same rule as a server-side one. */
  lemma {:induction false} PublicationsMove(sub: SubState, ps: seq<Publication>, protocol: ProtocolType)
    ensures ReceiveAll(sub, ps, protocol).offset == LastOffset(sub.offset, ps)
    ensures ReceiveAll(sub, ps, protocol).epoch == sub.epoch && ReceiveAll(sub, ps, protocol).recover == sub.recover
    decreases |ps|
  {
    if ps != [] { PublicationsMove(sub, ps[..|ps| - 1], protocol); }
  }

  lemma ClientPositionReconciled(sub: SubState, r: SubscribeResult, protocol: ProtocolType)
    ensures var t := Succeed(sub, r, protocol);
      && IsLastPosition(t.offset, if r.recoverable || r.positioned then r.offset else sub.offset, r.publications)
      && t.epoch == (if r.recoverable || r.positioned then r.epoch else sub.epoch)
      && t.recover == (sub.recover || r.recoverable)
  {
    var c := Confirm(sub, r);
    PublicationsMove(c, r.publications, protocol);
    LastOffsetIsLastPosition(c.offset, r.publications);
  }

  /** Reconciling with a result that was already reconciled changes no entry. */
  lemma ReconcileTwice(s: State, r: ConnectResult)
    ensures ProcessServerSubs(ProcessServerSubs(s, r), r).servers.subs == ProcessServerSubs(s, r).servers.subs
  {
    var t := ProcessServerSubs(s, r);
    KeysReconciled(s, r);
    KeysReconciled(t, r);
    SubsReconciled(s, r);
    hide ProcessServerSubs, Tell, Trace;
    var u := ProcessServerSubs(t, r);
    assert u.servers.subs.Keys == t.servers.subs.Keys;
    forall ch | ch in t.servers.subs
      ensures u.servers.subs[ch] == t.servers.subs[ch]
    {
      EntriesReconciled(s, r, ch);
      EntriesReconciled(t, r, ch);
      if ch !in s.subs {
        LastPositionUnique(u.servers.subs[ch].offset, t.servers.subs[ch].offset, r.subs[ch].offset,
            r.subs[ch].publications);
      }
    }
  }
}
