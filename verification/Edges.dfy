/** Promises the actor keeps only sometimes, and when. */
module Edges {
  import Codes
  import opened Protocol
  import opened Subscriptions
  import opened ActorState
  import SubHistory

  // ---------- the handshake ----------

  lemma BeforeConcat(arrivals: seq<Arrival>, more: seq<Arrival>, id: nat)
    requires Before(arrivals, id) < |arrivals|
    ensures Before(arrivals + more, id) == Before(arrivals, id)
  {
    assert forall k :: 0 <= k < |arrivals| ==> (arrivals + more)[k] == arrivals[k];
  }

  /** Whatever follows the awaited reply in its frame leaves no trace. */
  lemma TailDiscarded(s: State, id: nat, arrivals: seq<Arrival>, more: seq<Arrival>, plan: seq<Attempt>)
    requires Before(arrivals, id) < |arrivals|
    ensures HandshakeFrame(s, id, arrivals + more, plan) == HandshakeFrame(s, id, arrivals, plan)
  {
    var n := Before(arrivals, id);
    BeforeConcat(arrivals, more, id);
    assert (arrivals + more)[..n] == arrivals[..n] && (arrivals + more)[n] == arrivals[n];
  }

  lemma DispatchSink(s: State, a: Arrival)
    ensures DispatchReply(s, a).link.sink <==> s.link.sink && !IsHangup(a.reply)
  {
    hide Tell, Note, CloseAll, SuspendAll, Succeed, Receive, SendCommand, CallersIn, WaitersIn, Leave, Emit;
  }

  lemma {:induction false} DispatchAllSink(s: State, arrivals: seq<Arrival>)
    ensures DispatchAll(s, arrivals).link.sink <==>
            s.link.sink && forall k :: 0 <= k < |arrivals| ==> !IsHangup(arrivals[k].reply)
    decreases |arrivals|
  {
    hide DispatchReply, IsHangup;
    if arrivals != [] {
      var n := |arrivals| - 1;
      DispatchAllSink(s, arrivals[..n]);
      DispatchSink(DispatchAll(s, arrivals[..n]), arrivals[n]);
    }
  }

  /**
   A handshake that ends well leaves the actor connected, with a sink unless a disconnect push came
   before the reply.
   */
  lemma ConnectedHasSink(s: State, id: nat, arrivals: seq<Arrival>, plan: seq<Attempt>)
    requires s.link.sink && Before(arrivals, id) < |arrivals|
    requires HandshakeResult(arrivals[Before(arrivals, id)].reply).Ok?
    ensures HandshakeFrame(s, id, arrivals, plan).link.phase.Connected?
    ensures HandshakeFrame(s, id, arrivals, plan).link.sink <==>
            forall k :: 0 <= k < Before(arrivals, id) ==> !IsHangup(arrivals[k].reply)
  {
    hide DispatchAll, Establish, ResubscribeAll, IsHangup;
    var n := Before(arrivals, id);
    var s1 := DispatchAll(s, arrivals[..n]);
    DispatchAllSink(s, arrivals[..n]);
    var r := HandshakeResult(arrivals[n].reply).value;
    EstablishLink(s1, r);
    SubHistory.ResubscribeLink(Establish(s1, r), plan);
    assert forall k :: 0 <= k < n ==> arrivals[..n][k] == arrivals[k];
  }

  lemma EstablishLink(s: State, r: ConnectResult)
    ensures Establish(s, r).link.phase.Connected? && Establish(s, r).link.sink == s.link.sink
  {}

  /** The token callback refused, or gave an empty token. */
  predicate TokenRefused(s: State, o: TokenOutcome) {
    NeedsRefresh(s) && s.config.hasGetToken && (o.Denied? || (o.Token? && o.token == ""))
  }

  /** An attempt goes on although the token was refused, and then handshakes from the disconnected state. */
  lemma AttemptAfterRefusal(s: State, o: Opening)
    requires s.link.phase.Connecting? && !s.out.batch.active && o.opens && o.fate.Accepted?
    requires !(NeedsRefresh(s) && s.config.hasGetToken && o.token.Broken?)
    ensures var t := BeginAttempt(s, o);
      t.link.handshake.Some?
          && (if TokenRefused(s, o.token) then t.link.phase.Disconnected? else t.link.phase.Connecting?)
  {
    hide Tell, Note, CloseAll, SendConnect, WaitersIn, CallersIn;
    var s1 := RefreshTokenIfNeeded(s.(link := s.link.(attempts := s.link.attempts + 1)), o.token).0;
    SendConnectPhase(RefreshConnectData(Attach(s1), o.data), o.fate);
  }

  lemma SendConnectPhase(s: State, fate: Fate)
    requires s.link.sink && !s.out.batch.active && fate.Accepted?
    ensures var t := SendConnect(s, fate); t.link.handshake.Some? && t.link.phase == s.link.phase
  {
    hide ConnectSubs;
  }

  /** The connect command reaches the wire exactly when no batch is open and the transport takes it. */
  lemma ConnectWritten(s: State, fate: Fate)
    ensures var t := SendConnect(s, fate);
      (|t.out.wire| == |s.out.wire| + 1) <==> (!s.out.batch.active && s.link.sink && fate.Accepted?)
    ensures s.out.batch.active && !fate.Unencodable? ==> SendConnect(s, fate).link.handshake.Some?
  {}

  // ---------- expired tokens ----------

  /** A temporary handshake error keeps the actor connecting; an expired token makes a refresh due. */
  lemma TemporaryFailure(s: State, e: ServerError)
    requires Codes.IsTemporary(e.code, e.temporary)
    ensures var t := OnHandshakeFailure(s, Server(e));
      && t.config == s.config && t.out == s.out && t.link.phase == s.link.phase
      && (NeedsRefresh(t) <==> e.code == Codes.TOKEN_EXPIRED || NeedsRefresh(s))
  {
    hide MoveToDisconnected;
  }

  /** An attempt presents the token the callback gives exactly when a refresh is due, and the one it has otherwise. */
  lemma TokenPresented(s: State, o: Opening)
    requires s.link.phase.Connecting? && !s.out.batch.active && s.config.hasGetToken
    requires o.token.Token? && o.token.token != "" && o.opens && o.fate.Accepted?
    ensures var t := BeginAttempt(s, o);
      && |t.out.wire| == |s.out.wire| + 1
      && var body := t.out.wire[|s.out.wire|].outgoing.command.body;
         body.ConnectBody? && !NeedsRefresh(t)
             && body.token == if NeedsRefresh(s) then o.token.token else s.config.token
  {
    hide Tell, Note, ConnectSubs, MoveToDisconnected, OnHandshakeFailure;
  }

  /**
   After a temporary error the next attempt presents the token the callback then gives exactly
   when the error was an expired token or a refresh was due anyway, and the old one otherwise.
   */
  lemma FreshTokenPresented(s: State, e: ServerError, o: Opening)
    requires Codes.IsTemporary(e.code, e.temporary)
    requires s.link.phase.Connecting? && !s.out.batch.active && s.config.hasGetToken
    requires o.token.Token? && o.token.token != "" && o.opens && o.fate.Accepted?
    ensures var t := BeginAttempt(OnHandshakeFailure(s, Server(e)), o);
      && |t.out.wire| == |s.out.wire| + 1
      && var body := t.out.wire[|s.out.wire|].outgoing.command.body;
         && body.ConnectBody? && !NeedsRefresh(t)
         && body.token == if e.code == Codes.TOKEN_EXPIRED || NeedsRefresh(s) then o.token.token else s.config.token
  {
    hide OnHandshakeFailure, BeginAttempt, NeedsRefresh;
    TemporaryFailure(s, e);
    TokenPresented(OnHandshakeFailure(s, Server(e)), o);
  }

  /**
   A temporary subscribe error arms a resubscription, which then asks for a token exactly when
   the subscription has a token callback and the token was empty or has expired.
   */
  lemma ExpiredTokenDropped(s: State, ch: Channel, e: ServerError)
    requires ch in s.subs && Codes.IsTemporary(e.code, e.temporary)
    ensures var t := HandleSubscribeError(s, ch, e);
      && ch in t.subs && Resubscribe(ch) in t.calls.timers
      && (NeedsToken(t.subs[ch]) <==>
            s.subs[ch].config.hasGetToken && (s.subs[ch].token == "" || e.code == Codes.TOKEN_EXPIRED))
  {}

  // ---------- subscriptions ----------

  /** A late reply revives an unsubscribed subscription exactly when it carries or implies a result. */
  lemma LateReplyRevives(s: State, ch: Channel, r: Reply)
    requires ch in s.subs && s.subs[ch].state.Unsubscribed?
    ensures var t := ResolveSubscribe(s, ch, r).0;
      ch in t.subs && (t.subs[ch].state.Subscribed? <==> SubHistory.AcceptedResult(r).Some?)
  {
    hide Tell, ReceiveAll;
    if SubHistory.AcceptedResult(r).Some? {
      var result := SubHistory.AcceptedResult(r).value;
      ReceiveAllKeeps(Confirm(s.subs[ch], result), result.publications, s.config.protocol);
    }
  }

  /**
   Unsubscribing answers no waiter: those that were there stay, whether a handle or the server
   asks for it; and after the server did, they wait for an attempt exactly for codes from 2500 on.
   */
  lemma WaitersStay(s: State, ch: Channel, h: Handle, fate: Fate, code: nat)
    requires ch in s.subs
    ensures var t := HandleUnsubscribe(s, ch, h, fate);
      ch in t.subs && t.subs[ch].state.Unsubscribed? && t.subs[ch].waiters == s.subs[ch].waiters
    ensures var t := HandleServerUnsubscribe(s, ch, code);
      && ch in t.subs && t.subs[ch].waiters == s.subs[ch].waiters
      && (t.subs[ch].state.Subscribing? && Resubscribe(ch) in t.calls.timers <==> code >= 2500)
  {
    hide Tell, Note, SendCommand, WaitersIn, CallersIn;
  }

  // ---------- what the recovery theorem asks of the server ----------

  /**
   A channel that is also a server-side subscription is asked for from the client-side position,
   or an earlier one, exactly when it is batched or the registry is not ahead.
   */
  lemma SharedChannelSafe(s: State, ch: Channel)
    requires ch in s.subs && Replayed(s, ch)
    ensures ch in ConnectSubs(s)
    ensures ConnectSubs(s)[ch].offset <= s.subs[ch].offset <==>
            Batched(s, ch) || s.servers.subs[ch].offset <= s.subs[ch].offset
  {}
}
