/**
 What follows a disconnect push in its frame is still dispatched, but the requests are gone: a
 subscribe reply leaves no trace, a publication is delivered and moves the position.
 */
module Hangups {
  import opened Prelude
  import opened Lines
  import opened Protocol
  import opened Subscriptions
  import opened ActorState
  import opened SubHistory
  import opened GapFree
  import opened Recovery
  import DeltaFormat

  ghost predicate Came(ds: seq<Delivery>, k: nat) { exists i :: 0 <= i < |ds| && ds[i].offset == k }

  /** Some delivery came from every offset after `base` up to `x`. */
  ghost predicate Reaches(ds: seq<Delivery>, base: nat, x: nat) { forall k :: base < k <= x ==> Came(ds, k) }

  /**
   The subscription has everything after `base` up to `top` and nothing from beyond, and stands at or
   before `top`.
   */
  ghost predicate Stands(sub: SubState, base: nat, top: nat) {
    base <= top && sub.offset <= top && Reaches(Deliveries(sub.log), base, top) && NoneBeyond(Deliveries(sub.log), top)
  }

  /** The offset of a publication of `ch`. */
  function Published(r: Reply, ch: Channel): Option<nat> {
    if r.id == 0 && r.push.Some? && r.push.value.channel == ch && r.push.value.body.PublicationPush?
    then Some(r.push.value.body.publication.offset) else None
  }

  /** The offsets of the publications of `ch` in a frame. */
  function Offsets(arrivals: seq<Arrival>, ch: Channel): seq<nat>
    decreases |arrivals|
  {
    if arrivals == [] then []
    else
      var last := Published(arrivals[|arrivals| - 1].reply, ch);
      Offsets(arrivals[..|arrivals| - 1], ch) + if last.Some? then [last.value] else []
  }

  function Top(x: nat, offsets: seq<nat>): nat
    decreases |offsets|
  {
    if offsets == [] then x else Max(Top(x, offsets[..|offsets| - 1]), offsets[|offsets| - 1])
  }

  /** No offset leaves a hole after the highest so far. */
  predicate NoHole(x: nat, offsets: seq<nat>) {
    forall i :: 0 <= i < |offsets| ==> offsets[i] <= Top(x, offsets[..i]) + 1
  }

  /** After reading `arrivals` the subscription has everything after `base` up to where it then stands. */
  ghost predicate CoversAfter(s: State, arrivals: seq<Arrival>, ch: Channel, base: nat) {
    var t := DispatchAll(s, arrivals);
    ch in t.subs && Reaches(Deliveries(t.subs[ch].log), base, t.subs[ch].offset)
  }

  /** One more delivery, from `offset`. */
  ghost predicate DeliversOne(sub: SubState, t: SubState, offset: nat) {
    exists data :: Deliveries(t.log) == Deliveries(sub.log) + [Delivery(offset, data)]
  }

  // ---------- one reply ----------

  /** With no request pending a reply brings at most a publication, and leaves none pending. */
  lemma HungReply(s: State, a: Arrival, ch: Channel)
    requires ch in s.subs && s.calls.pending == map[]
    ensures var t := DispatchReply(s, a);
      && ch in t.subs && t.calls.pending == map[]
      && var p := Published(a.reply, ch);
         (p.None? ==>
            t.subs[ch].offset == s.subs[ch].offset && Deliveries(t.subs[ch].log) == Deliveries(s.subs[ch].log))
         && (p.Some? ==>
               && t.subs[ch].offset == (if p.value > 0 then p.value else s.subs[ch].offset)
               && DeliversOne(s.subs[ch], t.subs[ch], p.value))
  {
    hide DispatchReply, Deliveries, Undergo;
    ReplyLived(s, a, ch);
    HistoryUpToOne(s, ch);
    HangupMeans(s, a);
    if Published(a.reply, ch).Some? {
      ReceivedAt(s.subs[ch], a.reply.push.value.body.publication, s.config.protocol);
    }
  }

  lemma ReceivedAt(sub: SubState, p: Publication, protocol: ProtocolType)
    ensures var t := Undergo(sub, Live(p), protocol);
      t.offset == (if p.offset > 0 then p.offset else sub.offset) && DeliversOne(sub, t, p.offset)
  {
    hide DeltaFormat.Apply;
    var sub1 := if p.offset > 0 then sub.(offset := p.offset) else sub;
    DeliveriesEmit(sub.log, PublicationEvent(p.offset, ApplyDelta(sub1, p, protocol).1));
  }

  /** An offset that leaves no hole keeps the subscription standing. */
  lemma StandsStill(sub: SubState, t: SubState, base: nat, top: nat, offset: nat)
    requires Stands(sub, base, top) && offset <= top + 1
    requires (t.offset == if offset > 0 then offset else sub.offset) && DeliversOne(sub, t, offset)
    ensures Stands(t, base, Max(top, offset))
  {
    hide Deliveries;
    var ds, es := Deliveries(sub.log), Deliveries(t.log);
    forall k | base < k <= Max(top, offset)
      ensures Came(es, k)
    {
      if k <= top {
        assert Came(ds, k);
        var i :| 0 <= i < |ds| && ds[i].offset == k;
        assert es[i] == ds[i];
      } else {
        assert es[|ds|].offset == k;
      }
    }
  }

  /** One that leaves a hole loses the entry after the highest. */
  lemma StandsNoMore(sub: SubState, t: SubState, base: nat, top: nat, offset: nat)
    requires Stands(sub, base, top) && offset > top + 1 && t.offset == offset && DeliversOne(sub, t, offset)
    ensures !Reaches(Deliveries(t.log), base, t.offset)
  {
    hide Deliveries;
    var ds, es := Deliveries(sub.log), Deliveries(t.log);
    forall i | 0 <= i < |es|
      ensures es[i].offset != top + 1
    {
      if i < |ds| { assert es[i] == ds[i] && ds[i] in ds; }
    }
    assert !Came(es, top + 1);
  }

  // ---------- the rest of the frame ----------

  lemma NoHoleMore(x: nat, offsets: seq<nat>, offset: nat)
    ensures NoHole(x, offsets + [offset]) <==> NoHole(x, offsets) && offset <= Top(x, offsets) + 1
    ensures Top(x, offsets + [offset]) == Max(Top(x, offsets), offset)
  {
    var more := offsets + [offset];
    assert more[..|offsets|] == offsets;
    assert forall i :: 0 <= i < |offsets| ==> more[..i] == offsets[..i] && more[i] == offsets[i];
    if NoHole(x, more) { assert more[|offsets|] <= Top(x, more[..|offsets|]) + 1; }
    if NoHole(x, more) && 0 < |offsets| {
      forall i | 0 <= i < |offsets|
        ensures offsets[i] <= Top(x, offsets[..i]) + 1
      {
        assert more[i] <= Top(x, more[..i]) + 1;
      }
    }
  }

  lemma {:induction false} HungFrame(s: State, arrivals: seq<Arrival>, ch: Channel, base: nat, x: nat)
    requires ch in s.subs && s.calls.pending == map[] && Stands(s.subs[ch], base, x)
    ensures var t := DispatchAll(s, arrivals);
      && ch in t.subs && t.calls.pending == map[]
      && (NoHole(x, Offsets(arrivals, ch)) ==> Stands(t.subs[ch], base, Top(x, Offsets(arrivals, ch))))
    decreases |arrivals|
  {
    hide DispatchReply, Stands, Deliveries, NoHole, Top, Published;
    if arrivals == [] {
      NoHoleNothing(x);
    } else {
      var n := |arrivals| - 1;
      HungFrame(s, arrivals[..n], ch, base, x);
      var m := DispatchAll(s, arrivals[..n]);
      var offsets := Offsets(arrivals[..n], ch);
      HungReply(m, arrivals[n], ch);
      if Published(arrivals[n].reply, ch).Some? {
        var offset := Published(arrivals[n].reply, ch).value;
        NoHoleMore(x, offsets, offset);
        if NoHole(x, Offsets(arrivals, ch)) {
          StandsStill(m.subs[ch], DispatchAll(s, arrivals).subs[ch], base, Top(x, offsets), offset);
        }
      } else {
        assert Offsets(arrivals, ch) == offsets;
        StandsAlike(m.subs[ch], DispatchAll(s, arrivals).subs[ch], base, Top(x, offsets));
      }
    }
  }

  lemma NoHoleNothing(x: nat)
    ensures NoHole(x, []) && Top(x, []) == x
  {}

  lemma StandsAlike(sub: SubState, t: SubState, base: nat, top: nat)
    requires t.offset == sub.offset && Deliveries(t.log) == Deliveries(sub.log)
    ensures Stands(t, base, top) == Stands(sub, base, top)
  {}

  lemma {:induction false} HoleFound(s: State, arrivals: seq<Arrival>, ch: Channel, base: nat, x: nat) returns (n: nat)
    requires ch in s.subs && s.calls.pending == map[] && Stands(s.subs[ch], base, x)
        && !NoHole(x, Offsets(arrivals, ch))
    ensures n <= |arrivals| && !CoversAfter(s, arrivals[..n], ch, base)
    decreases |arrivals|
  {
    hide DispatchReply, DispatchAll, Stands, Deliveries, NoHole, Top, Published, CoversAfter;
    NoHoleNothing(x);
    var k := |arrivals| - 1;
    if !NoHole(x, Offsets(arrivals[..k], ch)) {
      n := HoleFound(s, arrivals[..k], ch, base, x);
      assert arrivals[..k][..n] == arrivals[..n];
    } else {
      n := |arrivals|;
      assert arrivals[..n] == arrivals;
      HungFrame(s, arrivals[..k], ch, base, x);
      LastHole(s, arrivals, ch, base, Top(x, Offsets(arrivals[..k], ch)), x);
    }
  }

  lemma LastHole(s: State, arrivals: seq<Arrival>, ch: Channel, base: nat, top: nat, x: nat)
    requires arrivals != [] && !NoHole(x, Offsets(arrivals, ch))
    requires var k := |arrivals| - 1;
      && NoHole(x, Offsets(arrivals[..k], ch)) && top == Top(x, Offsets(arrivals[..k], ch))
      && var m := DispatchAll(s, arrivals[..k]);
         ch in m.subs && m.calls.pending == map[] && Stands(m.subs[ch], base, top)
    ensures !CoversAfter(s, arrivals, ch, base)
  {
    hide DispatchReply, Stands, Deliveries, NoHole, Top, Published, Reaches;
    var k := |arrivals| - 1;
    var m := DispatchAll(s, arrivals[..k]);
    HungReply(m, arrivals[k], ch);
    assert Offsets(arrivals[..k], ch) + [] == Offsets(arrivals[..k], ch);
    var offset := Published(arrivals[k].reply, ch).value;
    NoHoleMore(x, Offsets(arrivals[..k], ch), offset);
    StandsNoMore(m.subs[ch], DispatchReply(m, arrivals[k]).subs[ch], base, top, offset);
  }

  lemma PushedOut(s: State, code: nat, ch: Channel)
    requires ch in s.subs
    ensures var t := HandleDisconnectPush(s, code);
      && t.calls.pending == map[] && ch in t.subs
      && t.subs[ch].offset == s.subs[ch].offset && Deliveries(t.subs[ch].log) == Deliveries(s.subs[ch].log)
  {
    hide OnTransportClose, MoveToDisconnected, Deliveries;
    CloseUnmoved(s, code, true, ch);
    HistoryUpToOne(s, ch);
    Drained(s, code);
  }

  lemma Drained(s: State, code: nat)
    ensures OnTransportClose(s, code, true).calls.pending == map[] && MoveToDisconnected(s, code).calls.pending == map[]
  {}

  /**
   A subscription that has everything up to its position when a disconnect push is read keeps
   having everything, at every point of the rest of the frame, exactly when no later publication
   of its channel leaves a hole after the highest offset so far, counted from the position held.
   */
  lemma CoverageAfterHangup(s: State, code: nat, arrivals: seq<Arrival>, ch: Channel, base: nat)
    requires ch in s.subs && Stands(s.subs[ch], base, s.subs[ch].offset)
    ensures var t := HandleDisconnectPush(s, code);
      (forall n :: 0 <= n <= |arrivals| ==> CoversAfter(t, arrivals[..n], ch, base))
      <==> NoHole(s.subs[ch].offset, Offsets(arrivals, ch))
  {
    hide HandleDisconnectPush, Stands, NoHole, Deliveries, DispatchAll, CoversAfter, Offsets;
    var t := HandleDisconnectPush(s, code);
    var x := s.subs[ch].offset;
    PushedOut(s, code, ch);
    StandsAlike(s.subs[ch], t.subs[ch], base, x);
    if NoHole(x, Offsets(arrivals, ch)) {
      forall n | 0 <= n <= |arrivals|
        ensures CoversAfter(t, arrivals[..n], ch, base)
      {
        PrefixNoHole(x, arrivals, ch, n);
        HungFrame(t, arrivals[..n], ch, base, x);
        StandingCovers(t, arrivals[..n], ch, base, Top(x, Offsets(arrivals[..n], ch)));
      }
    } else {
      var n := HoleFound(t, arrivals, ch, base, x);
    }
  }

  lemma StandingCovers(s: State, arrivals: seq<Arrival>, ch: Channel, base: nat, top: nat)
    requires var t := DispatchAll(s, arrivals); ch in t.subs && Stands(t.subs[ch], base, top)
    ensures CoversAfter(s, arrivals, ch, base)
  {
    hide DispatchAll, Deliveries, Came;
  }

  lemma {:induction false} PrefixNoHole(x: nat, arrivals: seq<Arrival>, ch: Channel, n: nat)
    requires n <= |arrivals| && NoHole(x, Offsets(arrivals, ch))
    ensures NoHole(x, Offsets(arrivals[..n], ch))
    decreases |arrivals|
  {
    hide NoHole, Published, Top;
    if n == |arrivals| {
      assert arrivals[..n] == arrivals;
    } else {
      var k := |arrivals| - 1;
      if Published(arrivals[k].reply, ch).Some? {
        NoHoleMore(x, Offsets(arrivals[..k], ch), Published(arrivals[k].reply, ch).value);
      } else {
        assert Offsets(arrivals, ch) == Offsets(arrivals[..k], ch);
      }
      PrefixNoHole(x, arrivals[..k], ch, n);
      assert arrivals[..k][..n] == arrivals[..n];
    }
  }

  /**
   A frame that loses an entry: a disconnect push, the reply that recovers entry x + 1, and
   publication x + 2. The reply is dropped, the position moves on, and the next request asks
   for nothing before x + 3.
   */
  lemma EntrySkipped(s: State, ch: Channel, code: nat, reply: Reply, p: Publication, fates: seq<Fate>)
    requires ch in s.subs && |fates| == 3
    requires reply.id in s.calls.pending && reply.id != 0 && s.calls.pending[reply.id].AwaitSubscribe?
        && s.calls.pending[reply.id].channel == ch
    requires reply.error.None? && reply.subscribe.Some? && |reply.subscribe.value.publications| == 1
    requires var x := s.subs[ch].offset; reply.subscribe.value.publications[0].offset == x + 1 && p.offset == x + 2
    ensures var x := s.subs[ch].offset;
      var frame := Frame([PushReply("", DisconnectPush(code)), reply, PushReply(ch, PublicationPush(p))], fates);
      var t := DispatchAll(s, frame);
      && ch in t.subs && t.subs[ch].offset == x + 2 && BuildRequest(ch, t.subs[ch]).offset == x + 2
      && DeliversOne(s.subs[ch], t.subs[ch], x + 2)
  {
    hide DispatchReply, Deliveries, HandleDisconnectPush;
    var frame := Frame([PushReply("", DisconnectPush(code)), reply, PushReply(ch, PublicationPush(p))], fates);
    assert frame[..3] == frame && frame[..2][..1] == frame[..1] && frame[..1][..0] == [];
    PushDispatched(s, code, fates[0]);
    PushedOut(s, code, ch);
    assert DispatchAll(s, frame[..0]) == s;
    assert DispatchAll(s, frame[..1]) == HandleDisconnectPush(s, code);
    HungReply(DispatchAll(s, frame[..1]), frame[1], ch);
    HungReply(DispatchAll(s, frame[..2]), frame[2], ch);
  }

  lemma PushDispatched(s: State, code: nat, fate: Fate)
    ensures DispatchReply(s, Arrival(PushReply("", DisconnectPush(code)), fate)) == HandleDisconnectPush(s, code)
  {
    hide HandleDisconnectPush;
  }
}
