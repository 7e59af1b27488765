/** The main loops of the tunnel model are the plain sessions that the session classes, with
    their shared tables and caches, are proved to behave like. */
module Refinement {
  import opened Frames
  import opened Decisions
  import opened Tunnel
  import opened Invariant
  import F = StepFrames
  import L = Link
  import W = Writer
  import T = Theorems
  import SS = ServerSession
  import CS = ClientSession

  // ---------------------------------------------------------------- server

  function Clients(proxies: seq<Proxy>): seq<ClientInfo> {
    seq(|proxies|, p requires 0 <= p < |proxies| => proxies[p].client)
  }

  function ServerView(s: State): SS.View { SS.View(Clients(s.proxies), s.routes) }

  /** What an action is to the server's main loop and its tables, if anything. */
  function ServerEvent(s: State, a: Action): seq<SS.Event>
    requires Enabled(s, a)
  {
    match a
    case Server(STake) => [SS.Received(s.up.wire[0].frame)]
    case Listener(p, Accept) => [SS.Accepted(p, s.proxies[p].accepted)]
    case External(k, Unlink) => [SS.Closed(k.p, k.c)]
    case _ => []
  }

  function ServerEvents(s: State, run: seq<Action>): seq<SS.Event>
    requires Exec(s, run).Some?
  {
    if run == [] then []
    else
      var init := run[..|run| - 1];
      ServerEvents(s, init) + ServerEvent(Exec(s, init).value, run[|run| - 1])
  }

  /** The tunnel's server takes the decision of the plain session. */
  lemma ServerTakes(s: State)
    requires ProxiesOk(s.proxies, s.nextProxyId) && ServerEnabled(s, STake)
    ensures var f := s.up.wire[0].frame;
      && DoServer(s, STake).srv == AwaitAfter(SS.Decide(ServerView(s), f))
      && ServerView(DoServer(s, STake)) == SS.NextView(ServerView(s), SS.Received(f))
  {
    hide ProxyOk;
    var t := DoServer(s, STake);
    var f := s.up.wire[0].frame;
    if |t.proxies| > |s.proxies| {
      assert Clients(t.proxies) == Clients(s.proxies) + [f.client];
    }
  }

  lemma SameClients(proxies: seq<Proxy>, p: nat, px: Proxy)
    requires p < |proxies| && px.client == proxies[p].client
    ensures Clients(proxies[p := px]) == Clients(proxies)
  {
  }

  lemma ListenerView(s: State, p: nat, a: ListenerStep)
    requires Structure(s) && ListenerEnabled(s, p, a)
    ensures ServerView(DoListener(s, p, a)) ==
      if a.Accept? then SS.NextView(ServerView(s), SS.Accepted(p, s.proxies[p].accepted)) else ServerView(s)
  {
    hide L.Inv, ExtsOk, PermitsOk, SrvOk, Clients, L.Push, W.GiveUp, W.Spawn, W.Fresh;
    assert ProxyOk(s.proxies[p], p);
    SameClients(s.proxies, p, DoListener(s, p, a).proxies[p]);
    if a.Accept? { ClientsSize(s.proxies); }
  }

  lemma ClientsSize(proxies: seq<Proxy>)
    ensures |Clients(proxies)| == |proxies|
  {
  }

  lemma ExternalView(s: State, k: Conn, a: PortStep)
    requires Enabled(s, External(k, a))
    ensures ServerView(DoExternal(s, k, a)) ==
      if a.Unlink? then SS.NextView(ServerView(s), SS.Closed(k.p, k.c)) else ServerView(s)
  {
    hide W.Do, W.Enabled, ExtSender, Clients, L.Push;
    ClientsSize(s.proxies);
    if a.Release? { SameClients(s.proxies, k.p, DoExternal(s, k, a).proxies[k.p]); }
  }

  lemma ServerStep(s: State, a: Action)
    requires Structure(s) && Enabled(s, a)
    ensures ServerView(Do(s, a)) == SS.ViewAfter(ServerView(s), ServerEvent(s, a))
  {
    hide ProxiesOk, L.Inv, ExtsOk, PermitsOk, SrvOk, Clients, DoListener, DoExternal, DoClient, DoInner, L.Do, TakeUp,
      W.Push, L.Push;
    match a
    case Server(ss) => if ss.STake? { ServerTakes(s); }
    case Listener(p, ps) => ListenerView(s, p, ps);
    case External(k, xs) => ExternalView(s, k, xs);
    case Down(_) =>
    case Up(_) =>
    case Client(cs) => F.ClientFrame(s, cs);
    case Inner(i, xs) => F.InnerFrame(s, i, xs);
  }

  lemma {:induction false} ViewAfterJoin(v: SS.View, a: seq<SS.Event>, b: seq<SS.Event>)
    ensures SS.ViewAfter(v, a + b) == SS.ViewAfter(SS.ViewAfter(v, a), b)
  {
    if b == [] {
      assert a + b == a;
    } else {
      var c := b[..|b| - 1];
      assert (a + b)[..|a + b| - 1] == a + c;
      ViewAfterJoin(v, a, c);
    }
  }

  /** In every run the server side of the tunnel is the plain session fed with its events. */
  lemma {:induction false} ServerRunIsPlain(config: seq<ClientInfo>, run: seq<Action>)
    requires Exec(Init(config), run).Some?
    ensures ServerView(Exec(Init(config), run).value)
         == SS.ViewAfter(SS.View([], {}), ServerEvents(Init(config), run))
  {
    hide Do, Enabled;
    if run != [] {
      hide SS.ViewAfter, ServerView, ServerEvent;
      var init := run[..|run| - 1];
      var s := Exec(Init(config), init).value;
      ServerRunIsPlain(config, init);
      T.Always(config, init, s);
      ServerStep(s, run[|run| - 1]);
      ViewAfterJoin(SS.View([], {}), ServerEvents(Init(config), init), ServerEvent(s, run[|run| - 1]));
    } else {
      assert Clients([]) == [];
    }
  }

  // ---------------------------------------------------------------- client

  function PlainPc(cli: CliMain): CS.PlainPc {
    match cli
    case CDial(k, _) => CS.Dialling(k)
    case CSend(k, i, _) => CS.PlainPc.Sending(k, i)
    case _ => CS.Idle
  }

  function Keys(ints: seq<Internal>): seq<Conn> {
    seq(|ints|, i requires 0 <= i < |ints| => ints[i].at)
  }

  function ClientView(s: State): CS.View { CS.View(s.configs, s.conns, Keys(s.ints), PlainPc(s.cli)) }

  predicate Registering(cli: CliMain) { cli.CRegSend? || cli.CRegWait? }

  function ClientEvent(s: State, a: Action): seq<CS.Event>
    requires Enabled(s, a)
  {
    match a
    case Client(CTake) => if s.cli.CIdle? then [CS.Received(s.down.wire[0].frame)] else []
    case Client(CDialOk) => [CS.Dialled(true)]
    case Client(CDialFail) => [CS.Dialled(false)]
    case Client(CPush) => [CS.Sent(true)]
    case Client(CPushFail) => [CS.Sent(false)]
    case Inner(i, Unlink) => [CS.Cleanup(i)]
    case _ => []
  }

  function ClientEvents(s: State, run: seq<Action>): seq<CS.Event>
    requires Exec(s, run).Some?
  {
    if run == [] then []
    else
      var init := run[..|run| - 1];
      ClientEvents(s, init) + ClientEvent(Exec(s, init).value, run[|run| - 1])
  }

  lemma ClientTakes(s: State)
    requires s.cli.CIdle? && s.down.wire != []
    ensures ClientView(TakeDown(s)) == CS.NextView(ClientView(s), CS.Received(s.down.wire[0].frame))
  {
    hide L.Deliver, Note;
  }

  lemma ClientStepView(s: State, a: ClientStep)
    requires CliOk(s.cli, s.exts, s.ints, s.conns, s.arrived, s.configs) && ClientEnabled(s, a) && !Registering(s.cli)
    ensures ClientView(DoClient(s, a)) == CS.ViewAfter(ClientView(s), ClientEvent(s, Client(a)))
    ensures !Registering(DoClient(s, a).cli)
  {
    hide L.Deliver, L.Push, L.Shut, Note, Current, W.Push, W.Fresh, TakeDown;
    if a.CTake? {
      ClientTakes(s);
      assert !Registering(TakeDown(s).cli) by { NoReturn(s); }
    }
  }

  lemma NoReturn(s: State)
    requires s.cli.CIdle? && s.down.wire != []
    ensures !Registering(TakeDown(s).cli)
  {
    hide L.Deliver, Note, ClientDecide;
  }

  lemma ClientStep(s: State, a: Action)
    requires CliOk(s.cli, s.exts, s.ints, s.conns, s.arrived, s.configs) && Enabled(s, a) && !Registering(s.cli)
    ensures ClientView(Do(s, a)) == CS.ViewAfter(ClientView(s), ClientEvent(s, a))
    ensures !Registering(Do(s, a).cli)
  {
    hide DoServer, DoListener, DoExternal, DoClient, DoInner, L.Do, CliOk;
    match a
    case Server(ss) => F.ServerFrame(s, ss);
    case Listener(p, ps) => F.ListenerFrame(s, p, ps);
    case External(k, xs) => F.ExternalFrame(s, k, xs);
    case Down(_) =>
    case Up(_) =>
    case Client(cs) => ClientStepView(s, cs);
    case Inner(i, xs) => InnerView(s, i, xs);
  }

  lemma InnerView(s: State, i: nat, a: PortStep)
    requires Enabled(s, Inner(i, a))
    ensures var t := DoInner(s, i, a);
      && t.cli == s.cli
      && ClientView(t) == if a.Unlink? then CS.NextView(ClientView(s), CS.Cleanup(i)) else ClientView(s)
  {
    hide L.Push, W.Do, W.Enabled, DoPort, PlainPc;
  }

  lemma {:induction false} ClientJoin(v: CS.View, a: seq<CS.Event>, b: seq<CS.Event>)
    ensures CS.ViewAfter(v, a + b) == CS.ViewAfter(CS.ViewAfter(v, a), b)
  {
    if b == [] {
      assert a + b == a;
    } else {
      var c := b[..|b| - 1];
      assert (a + b)[..|a + b| - 1] == a + c;
      ClientJoin(v, a, c);
    }
  }

  /** From the moment the client forwards, in every continuation, its side of the tunnel is the
      plain loop fed with its events. */
  lemma {:induction false} ClientRunIsPlain(s: State, run: seq<Action>)
    requires Inv(s) && !Registering(s.cli) && Exec(s, run).Some?
    ensures ClientView(Exec(s, run).value) == CS.ViewAfter(ClientView(s), ClientEvents(s, run))
    ensures !Registering(Exec(s, run).value.cli)
  {
    hide Do, Enabled, Structure, Registration, AckOrder, Upstream, ClientView, Registering;
    if run == [] {
    } else {
      hide CS.ViewAfter, ClientEvent;
      var init := run[..|run| - 1];
      var t := Exec(s, init).value;
      ClientRunIsPlain(s, init);
      T.RunKeepsInv(s, init);
      ClientStep(t, run[|run| - 1]);
      ClientJoin(ClientView(s), ClientEvents(s, init), ClientEvent(t, run[|run| - 1]));
    }
  }

  /** While the client registers it has opened nothing, and nothing has happened to its loop. */
  ghost predicate NotBegun(s: State, events: seq<CS.Event>) {
    events == [] && s.ints == [] && s.conns == map[]
  }

  /** The client is where the plain loop, started with its map, gets by these events. */
  ghost predicate Follows(s: State, events: seq<CS.Event>) {
    ClientView(s) == CS.ViewAfter(CS.FirstView(s.configs), events)
  }

  /** A step of a client that registers, or has just finished registering. */
  lemma BeforeStep(s: State, a: Action)
    requires Inv(s) && Enabled(s, a) && Registering(s.cli)
    ensures var t := Do(s, a);
      ClientEvent(s, a) == [] && t.ints == [] && t.conns == map[] && (!Registering(t.cli) ==> PlainPc(t.cli) == CS.Idle)
  {
    hide Structure, Registration, AckOrder, Upstream, DownLogOk, ExtFlow, ArriveFlow, SegmentsOk, IntsOk, ConnsOk,
      DoServer, DoListener, DoExternal, DoClient, DoInner, L.Do;
    match a
    case Server(ss) => F.ServerFrame(s, ss);
    case Listener(p, ps) => F.ListenerFrame(s, p, ps);
    case External(k, xs) => F.ExternalFrame(s, k, xs);
    case Down(_) =>
    case Up(_) =>
    case Client(cs) => RegisteringStep(s, cs);
    case Inner(i, xs) =>
  }

  lemma RegisteringStep(s: State, a: ClientStep)
    requires ClientEnabled(s, a) && Registering(s.cli)
    ensures var t := DoClient(s, a);
      && ClientEvent(s, Client(a)) == [] && t.ints == s.ints && t.conns == s.conns
      && (!Registering(t.cli) ==> PlainPc(t.cli) == CS.Idle)
  {
    hide L.Push, L.Shut, L.Deliver, Note, W.Push, W.Fresh;
  }

  /** Once it forwards, the client's map of proxies no longer changes. */
  lemma ConfigsFixed(s: State, a: Action)
    requires CliOk(s.cli, s.exts, s.ints, s.conns, s.arrived, s.configs) && Enabled(s, a) && !Registering(s.cli)
    ensures Do(s, a).configs == s.configs
  {
    hide Do, CliOk, CS.NextView, ClientEvent;
    ClientStep(s, a);
    EventsKeepConfigs(ClientView(s), ClientEvent(s, a));
  }

  lemma {:induction false} EventsKeepConfigs(v: CS.View, events: seq<CS.Event>)
    ensures CS.ViewAfter(v, events).configs == v.configs
  {
    if events == [] {
    } else {
      EventsKeepConfigs(v, events[..|events| - 1]);
    }
  }

  lemma {:induction false} ClientFromStart(config: seq<ClientInfo>, run: seq<Action>)
    requires Exec(Init(config), run).Some?
    ensures var s := Exec(Init(config), run).value; var events := ClientEvents(Init(config), run);
      if Registering(s.cli) then NotBegun(s, events) else Follows(s, events)
  {
    hide Do, Enabled, Structure, Registration, AckOrder, Upstream;
    if run == [] {
      assert PlainPc(Init(config).cli) == CS.Idle;
    } else {
      hide ClientEvent, CS.NextView, PlainPc;
      var init, a := run[..|run| - 1], run[|run| - 1];
      var s := Exec(Init(config), init).value;
      ClientFromStart(config, init);
      T.Always(config, init, s);
      if Registering(s.cli) {
        BeforeStep(s, a);
      } else {
        ClientStep(s, a);
        ConfigsFixed(s, a);
        ClientJoin(CS.FirstView(s.configs), ClientEvents(Init(config), init), ClientEvent(s, a));
      }
    }
  }

  /** In every run, once registration is over, the client side of the tunnel is the plain loop,
      started with the client's map of proxies and no connections, fed with its events. */
  lemma ClientSessionIsPlain(config: seq<ClientInfo>, run: seq<Action>, s: State)
    requires Reaches(config, run, s)
    ensures !Registering(s.cli) ==>
      ClientView(s) == CS.ViewAfter(CS.FirstView(s.configs), ClientEvents(Init(config), run))
  {
    hide Exec, CS.ViewAfter, ClientEvents, ClientView;
    ClientFromStart(config, run);
  }
}
