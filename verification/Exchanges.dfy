/** Whole exchanges with the server, from what a handle asks or a transport does to what comes of it. */
module Exchanges {
  import opened Prelude
  import opened Protocol
  import opened Subscriptions
  import opened ActorState
  import opened Outcomes
  import JointInvariant
  import Commands
  import Lifecycle
  import Replies

  /** A frame with one reply is that reply dispatched. */
  lemma OneReply(s: State, a: Arrival)
    requires Enabled(s, Data([a]))
    ensures Step(s, Data([a])) == DispatchReply(s, a)
  {
    hide DispatchReply;
    assert [a][..0] == [];
    assert DispatchAll(s, []) == s;
  }

  /** Whoever subscribes while the client is connected hears the verdict of the reply to the command sent for it. */
  lemma SubscribeHeard(config: ClientConfig, inputs: seq<Input>, ch: Channel, h: Handle, fate: Fate, a: Arrival)
    requires var s := Run(Init(config), inputs);
      && Enabled(s, Ask(ActorState.Subscribe(ch, h), fate)) && s.link.phase.Connected? && s.link.stream
      && ch in s.subs && s.subs[ch].state.Unsubscribed? && Obstacle(s, fate).None?
      && a.reply.id == FreshId(s.calls) != 0
    ensures var t := Step(Step(Run(Init(config), inputs), Ask(ActorState.Subscribe(ch, h), fate)), Data([a]));
      h in t.desk.answers && t.desk.answers[h] == Replies.Verdict(a.reply)
  {
    hide Run, Step, DispatchReply;
    var s := Run(Init(config), inputs);
    var m := Step(s, Ask(ActorState.Subscribe(ch, h), fate));
    Commands.SubscribeCalled(s, ch, h, fate);
    assert m.link == s.link;
    assert a.reply.id in m.calls.pending && m.calls.pending[a.reply.id] == AwaitSubscribe(ch, Some(h));
    OneReply(m, a);
    Replies.SubscribeAnswered(m, a, ch, Some(h));
  }

  /** Whoever sends a request while the client is connected gets the reply to it. */
  lemma RequestHeard(config: ClientConfig, inputs: seq<Input>, payload: Bytes, h: Handle, fate: Fate, a: Arrival)
    requires var s := Run(Init(config), inputs);
      && Enabled(s, Ask(SendRequest(payload, h), fate)) && s.link.phase.Connected? && s.link.stream
      && Obstacle(s, fate).None? && a.reply.id == FreshId(s.calls) != 0
    ensures var t := Step(Step(Run(Init(config), inputs), Ask(SendRequest(payload, h), fate)), Data([a]));
      h in t.desk.answers && t.desk.answers[h] == Raw(a.reply)
  {
    hide Run, Step, DispatchReply;
    var s := Run(Init(config), inputs);
    var m := Step(s, Ask(SendRequest(payload, h), fate));
    Commands.RequestCalled(s, payload, h, fate);
    assert m.link == s.link && a.reply.id in m.calls.pending && m.calls.pending[a.reply.id] == AwaitReply(h);
    OneReply(m, a);
    Replies.RequestAnswered(m, a, h);
  }

  /** The connect command of the attempt is all that goes out. */
  ghost predicate Reopens(s: State, t: State, token: string, subs: map<Channel, SubscribeRequest>) {
    && t.link.conn == s.link.conn + 1 && t.link.sink && t.link.handshake.Some?
    && |t.out.wire| == |s.out.wire| + 1 && t.out.wire[..|s.out.wire|] == s.out.wire
    && t.out.wire[|s.out.wire|].conn == t.link.conn
    && t.out.wire[|s.out.wire|].outgoing.command.id == t.link.handshake.value
    && var body := t.out.wire[|s.out.wire|].outgoing.command.body;
       body.ConnectBody? && body.token == token && body.subs == subs
  }

  /**
   After a transport close in any reached state from which the client reconnects, the next connection that opens asks
   for everything the client had, from where it stood: every subscription that was subscribed, with all it
   has, unless a callback must be asked first; and every recoverable server-side one.
   */
  lemma ReturnsWhereItStood(config: ClientConfig, inputs: seq<Input>, code: nat, o: Opening)
    requires var s := Run(Init(config), inputs);
      && Enabled(s, TransportClosed(code, true)) && s.link.connectRequested
      && o.opens && o.fate.Accepted? && (Lifecycle.AsksForToken(s) ==> o.token.Token? && o.token.token != "")
    ensures var s := Run(Init(config), inputs);
      var t := Step(Step(s, TransportClosed(code, true)), Open(o));
      exists subs ::
        && Reopens(s, t, if Lifecycle.AsksForToken(s) then o.token.token else s.config.token, subs)
        && Recalls(s, subs)
  {
    hide Run, Step, Disconnects, Lifecycle.Bundles;
    var s := Run(Init(config), inputs);
    var m := Step(s, TransportClosed(code, true));
    JointInvariant.RunJoint(config, inputs);
    Lifecycle.TransportCloses(s, code, true);
    Lifecycle.AttemptConnects(m, o);
    var t := Step(m, Open(o));
    var subs :| Lifecycle.Bundles(m, subs) && Lifecycle.SendsConnect(
        Lifecycle.Reached(Lifecycle.Renewed(m, o), o), t, subs, o.fate);
    BundlesRecall(s, m, code, subs);
    assert Reopens(s, t, if Lifecycle.AsksForToken(s) then o.token.token else s.config.token, subs);
  }

  /** The requests ask for what the state held. */
  ghost predicate Recalls(s: State, subs: map<Channel, SubscribeRequest>) {
    && (forall ch :: ch in s.subs && s.subs[ch].state.Subscribed? && !s.subs[ch].config.hasGetData
                     && (s.subs[ch].token != "" || !s.subs[ch].config.hasGetToken) ==>
          ch in subs && AsksFor(subs[ch], ch, s.subs[ch]))
    && forall ch :: ch in s.servers.subs && s.servers.subs[ch].recoverable ==>
         ch in subs && (ch !in s.subs ==> Lifecycle.AsksToReplay(subs[ch], s.servers.subs[ch]))
  }

  lemma BundlesRecall(s: State, m: State, code: nat, subs: map<Channel, SubscribeRequest>)
    requires Reconnects(s, m, code) && Lifecycle.Bundles(m, subs)
    ensures Recalls(s, subs)
  {
    forall ch | ch in s.subs && s.subs[ch].state.Subscribed? && !s.subs[ch].config.hasGetData
                && (s.subs[ch].token != "" || !s.subs[ch].config.hasGetToken)
      ensures ch in subs && AsksFor(subs[ch], ch, s.subs[ch])
    {
      assert Lifecycle.Rides(m, ch);
    }
  }
}
