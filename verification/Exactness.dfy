/** Exactly which configurations a client can be served with, which of its services a user can
    reach, and which configurations can meet a stale clean-up, in any surroundings. */
module Exactness {
  import opened Frames
  import opened Tunnel
  import opened Scenarios
  import F = StepFrames
  import I = Invariant
  import L = Link
  import W = Writer
  import T = Theorems

  /** Internal connections are opened by a forwarding client only, and by then every registration
      is acknowledged. */
  lemma ClientOpensNone(s: State, a: ClientStep)
    requires ClientEnabled(s, a) && !Forwarding(s.cli)
    ensures DoClient(s, a).ints == s.ints && (s.cli.CEnded? ==> DoClient(s, a).acked == s.acked)
  {
    hide L.Push, L.Deliver, L.Shut, W.Push, W.Fresh, Note;
  }

  /** Later steps of the forwarding client leave the count alone. */
  lemma ClientCounts(s: State, a: ClientStep)
    requires ClientEnabled(s, a) && Forwarding(s.cli)
    ensures DoClient(s, a).acked == s.acked
  {
    hide L.Push, L.Deliver, L.Shut, W.Push, W.Fresh, Note, AwaitClient;
  }

  ghost predicate OpenedIsAcked(s: State) { s.ints != [] ==> s.acked == |s.config| }

  lemma Step(s: State, a: Action)
    requires I.Inv(s) && Enabled(s, a) && OpenedIsAcked(s)
    ensures OpenedIsAcked(Do(s, a))
  {
    hide I.Structure, I.AckOrder, I.Upstream, I.HandledOk, I.AcksOk, I.ConfigsOk, I.DownLogOk, I.ExtFlow, I.ArriveFlow,
      I.SegmentsOk, I.IntsOk, I.ConnsOk, DoServer, DoListener, DoExternal, DoClient, DoInner, L.Do;
    match a
    case Server(ss) => F.ServerFrame(s, ss);
    case Listener(p, ps) => F.ListenerFrame(s, p, ps);
    case External(k, xs) => F.ExternalFrame(s, k, xs);
    case Down(_) =>
    case Up(_) =>
    case Client(cs) =>
      F.ClientFrame(s, cs);
      if Forwarding(s.cli) { ClientCounts(s, cs); } else { ClientOpensNone(s, cs); }
    case Inner(i, xs) => F.InnerFrame(s, i, xs);
  }

  lemma {:induction false} AlwaysAcked(config: seq<ClientInfo>, run: seq<Action>)
    requires Exec(Init(config), run).Some?
    ensures OpenedIsAcked(Exec(Init(config), run).value)
  {
    hide Do, Enabled, I.Inv;
    if run == [] {
    } else {
      hide OpenedIsAcked;
      var init := run[..|run| - 1];
      AlwaysAcked(config, init);
      T.Always(config, init, Exec(Init(config), init).value);
      Step(Exec(Init(config), init).value, run[|run| - 1]);
    }
  }

  /** A session whose registrations are all acknowledged shows that it could be served. */
  lemma AckedIsServable(config: seq<ClientInfo>, run: seq<Action>, s: State, w: World)
    requires Reaches(config, run, s) && Within(s, w) && !s.srv.SEnded? && s.acked == |config|
    ensures Servable(config, w)
  {
    hide Exec;
    T.AllServed(config, run, s);
    forall i | 0 <= i < |config| ensures config[i].bindPort !in w.taken {
      assert s.proxies[i].bound && s.proxies[i].client.bindPort == config[i].bindPort;
    }
  }

  /** An internal connection was dialled at its proxy's address, after registration. */
  lemma OpenedIsServable(config: seq<ClientInfo>, run: seq<Action>, s: State, w: World, i: nat)
    requires Reaches(config, run, s) && Within(s, w) && !s.srv.SEnded? && i < |s.ints|
    ensures Servable(config, w)
    ensures s.ints[i].at.p < |config| && config[s.ints[i].at.p].addr !in w.unreachable
  {
    hide Exec, I.Structure, I.Registration, I.AckOrder, I.Upstream, W.Inv, Servable;
    AlwaysAcked(config, run);
    T.Always(config, run, s);
    AckedIsServable(config, run, s, w);
    assert s.ints[i].addr == config[s.ints[i].at.p].addr;
  }

  lemma ForwardingIsAcked(s: State)
    requires I.Inv(s) && Forwarding(s.cli)
    ensures s.acked == |s.config|
  {
    hide I.Structure, I.AckOrder, I.Downstream, I.Upstream, I.HandledOk, I.AcksOk, I.ConfigsOk;
  }

  /** Whatever the surroundings: a client can get through registration, with the server still up,
      exactly when the server can serve its configuration. */
  lemma ForwardingExactly(config: seq<ClientInfo>, w: World)
    ensures (exists run, s :: Reaches(config, run, s) && Within(s, w) && !s.srv.SEnded? && Forwarding(s.cli))
      <==> Servable(config, w)
  {
    hide Exec, I.Inv;
    if Servable(config, w) {
      var run, s := Registered(config, |config|);
      assert Reaches(config, run, s) && Within(s, w) && !s.srv.SEnded? && Forwarding(s.cli);
    }
    forall run, s | Reaches(config, run, s) && Within(s, w) && !s.srv.SEnded? && Forwarding(s.cli)
      ensures Servable(config, w)
    {
      T.Always(config, run, s);
      ForwardingIsAcked(s);
      AckedIsServable(config, run, s, w);
    }
  }

  /** A run built for the configuration lies within the surroundings. */
  lemma BuiltWithin(config: seq<ClientInfo>, s: State, w: World, p: nat)
    requires Servable(config, w) && p < |config| && config[p].addr !in w.unreachable && Bindings(s, config)
    requires forall i :: 0 <= i < |s.ints| ==> s.ints[i].addr == config[p].addr
    ensures Within(s, w)
  {
  }

  /** Whatever the surroundings: bytes of a user of proxy p can reach an internal service exactly
      when the configuration can be served and p's service can be reached. */
  lemma DeliveryExactly(config: seq<ClientInfo>, w: World, p: nat)
    ensures (exists run, s, i: nat :: Reaches(config, run, s) && Within(s, w) && !s.srv.SEnded?
               && i < |s.ints| && s.ints[i].at.p == p && s.ints[i].port.w.sock != [])
      <==> Servable(config, w) && p < |config| && config[p].addr !in w.unreachable
  {
    hide Exec, Servable, Within, Bindings;
    if Servable(config, w) && p < |config| && config[p].addr !in w.unreachable {
      assert Registrable(config) by { ServableIsRegistrable(config, w); }
      var run, s := DeliveryHappens(config, p, [0]);
      BuiltWithin(config, s, w, p);
      var i: nat := 0;
      assert Reaches(config, run, s) && i < |s.ints| && s.ints[i].at.p == p && s.ints[i].port.w.sock != [];
    }
    forall run, s, i: nat | Reaches(config, run, s) && Within(s, w) && !s.srv.SEnded? && i < |s.ints|
      ensures Servable(config, w) && s.ints[i].at.p < |config| && config[s.ints[i].at.p].addr !in w.unreachable
    {
      OpenedIsServable(config, run, s, w, i);
    }
  }

  lemma ServableIsRegistrable(config: seq<ClientInfo>, w: World)
    requires Servable(config, w)
    ensures Registrable(config)
  {
  }

  /** Some service of the configuration can be reached. */
  predicate Reachable(config: seq<ClientInfo>, w: World) {
    exists p :: 0 <= p < |config| && config[p].addr !in w.unreachable
  }

  /** Whatever the surroundings: a clean-up can take the entry of another connection, with the
      server still up, exactly when the configuration can be served and some service reached. */
  lemma StaleCleanupExactly(config: seq<ClientInfo>, w: World)
    ensures (exists run, s, j: nat :: Reaches(config, run, s) && Within(s, w) && !s.srv.SEnded?
               && Enabled(s, Inner(j, Unlink)) && s.ints[j].at in s.conns && s.conns[s.ints[j].at] != j)
      <==> Servable(config, w) && Reachable(config, w)
  {
    hide Exec, Servable, Within, Bindings;
    if Servable(config, w) && Reachable(config, w) {
      assert Registrable(config) by { ServableIsRegistrable(config, w); }
      var p :| 0 <= p < |config| && config[p].addr !in w.unreachable;
      var run, s := AboutToCleanUp(config, p, seq(W.BUFFER, _ => 0));
      BuiltWithin(config, s, w, p);
      var j: nat := 0;
      assert Reaches(config, run, s) && Enabled(s, Inner(j, Unlink)) && s.conns[s.ints[j].at] != j;
    }
    forall run, s, j: nat | Reaches(config, run, s) && Within(s, w) && !s.srv.SEnded? && Enabled(s, Inner(j, Unlink))
      ensures Servable(config, w) && Reachable(config, w)
    {
      OpenedIsServable(config, run, s, w, j);
    }
  }
}
