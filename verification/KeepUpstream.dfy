/** Every action keeps the accounting of the stream from the services back to the users. */
module KeepUpstream {
  import opened Seqs
  import opened Frames
  import opened Decisions
  import opened Tunnel
  import opened Flows
  import opened Invariant
  import F = StepFrames
  import L = Link
  import W = Writer
  import D = KeepDownstream

  // ---------------------------------------------------------------- the routes

  /** Causality: a response names a connection the server has accepted. */
  lemma ResponseIsKnown(s: State, x: nat)
    requires UpLogOk(s.ints, s.up.log) && IntsOk(s.config, s.exts, s.ints)
    requires x < |s.up.log| && s.up.log[x].frame.Data?
    ensures ConnOf(s.up.log[x].frame) in s.exts
  {
    hide W.Inv;
    assert UpItemOk(s.up.log[x], s.ints);
  }

  /** Nothing has come back yet for a connection that does not exist yet. */
  lemma NoResponseYet(s: State, k: Conn)
    requires L.Inv(s.up) && UpLogOk(s.ints, s.up.log) && IntsOk(s.config, s.exts, s.ints) && k !in s.exts
    ensures Chunks(To(k), s.up.delivered) == []
  {
    hide W.Inv, Chunks;
    L.DeliveredIsPrefix(s.up);
    forall x | 0 <= x < |s.up.delivered| ensures !Picks(To(k), s.up.delivered[x]) {
      assert s.up.delivered[x] == s.up.log[x];
      if s.up.log[x].frame.Data? { ResponseIsKnown(s, x); }
    }
    ChunksEmpty(To(k), s.up.delivered);
  }

  /** The main loop reads a response: it takes it in hand exactly when the route is there. */
  lemma RouteTake(routes: set<Conn>, exts: map<Conn, Port>, delivered: seq<L.Item>, it: L.Item)
    requires RouteFlow(SIdle, routes, exts, delivered) && it.frame.Data?
    ensures var k := ConnOf(it.frame);
      RouteFlow(if k in routes then SData(k, it.frame.data) else SIdle, routes, exts, delivered + [it])
  {
    hide Chunks;
    var k := ConnOf(it.frame);
    var srv' := if k in routes then SData(k, it.frame.data) else SIdle;
    forall j | j in exts
      ensures RouteOk(exts[j].w, Chunks(To(j), delivered + [it]), SrvHand(srv', j), ExtSender(srv', routes, j))
    {
      ChunksPush(To(j), delivered, it);
      var read := Chunks(To(j), delivered);
      assert RouteOk(exts[j].w, read, [], j in routes);
      if j == k { RouteOkTake(exts[j].w, read, it.frame.data, j in routes); }
    }
  }

  lemma RouteOkTake(w: W.Writer, read: seq<Bytes>, data: Bytes, routed: bool)
    requires RouteOk(w, read, [], routed)
    ensures RouteOk(w, read + [data], if routed then [data] else [], routed)
  {
    assert w.log + [] == w.log;
  }

  lemma RouteOther(srv: SrvMain, routes: set<Conn>, exts: map<Conn, Port>, delivered: seq<L.Item>, it: L.Item,
      srv': SrvMain)
    requires RouteFlow(srv, routes, exts, delivered) && !it.frame.Data? && !srv.SData? && !srv'.SData?
    ensures RouteFlow(srv', routes, exts, delivered + [it])
  {
    hide Chunks;
    forall j | j in exts
      ensures RouteOk(exts[j].w, Chunks(To(j), delivered + [it]), SrvHand(srv', j), ExtSender(srv', routes, j))
    {
      ChunksPush(To(j), delivered, it);
    }
  }

  lemma RouteSame(srv: SrvMain, routes: set<Conn>, exts: map<Conn, Port>, delivered: seq<L.Item>, srv': SrvMain)
    requires RouteFlow(srv, routes, exts, delivered) && !srv.SData? && !srv'.SData?
    ensures RouteFlow(srv', routes, exts, delivered)
  {
    hide Chunks;
  }

  lemma RoutePush(srv: SrvMain, routes: set<Conn>, exts: map<Conn, Port>, delivered: seq<L.Item>, pt: Port)
    requires RouteFlow(srv, routes, exts, delivered) && srv.SData? && srv.at in exts && exts[srv.at].w.open
    requires pt.w.log == exts[srv.at].w.log + [srv.data]
    ensures RouteFlow(SIdle, routes, exts[srv.at := pt], delivered)
  {
    hide Chunks;
    assert pt.w.log + [] == pt.w.log;
  }

  lemma RouteRefused(srv: SrvMain, routes: set<Conn>, exts: map<Conn, Port>, delivered: seq<L.Item>)
    requires RouteFlow(srv, routes, exts, delivered) && srv.SData? && srv.at in exts && !exts[srv.at].w.open
    ensures RouteFlow(SIdle, routes, exts, delivered)
  {
    hide Chunks;
    var k := srv.at;
    assert exts[k].w.log <= exts[k].w.log + [srv.data];
  }

  /** Something about connection k changes that queues nothing and opens nothing. */
  lemma RoutePort(srv: SrvMain, routes: set<Conn>, exts: map<Conn, Port>, delivered: seq<L.Item>, k: Conn, pt: Port)
    requires RouteFlow(srv, routes, exts, delivered) && k in exts
    requires pt.w.log == exts[k].w.log && (pt.w.open ==> exts[k].w.open)
    ensures RouteFlow(srv, routes, exts[k := pt], delivered)
  {
    hide Chunks;
  }

  lemma RouteUnlink(srv: SrvMain, routes: set<Conn>, exts: map<Conn, Port>, delivered: seq<L.Item>, k: Conn)
    requires RouteFlow(srv, routes, exts, delivered)
    ensures RouteFlow(srv, routes - {k}, exts, delivered)
  {
    hide Chunks;
  }

  lemma RouteAccept(srv: SrvMain, routes: set<Conn>, exts: map<Conn, Port>, delivered: seq<L.Item>, k: Conn)
    requires RouteFlow(srv, routes, exts, delivered) && k !in exts && SrvOk(srv, exts) && Chunks(To(k), delivered) == []
    ensures RouteFlow(srv, routes + {k}, exts[k := Port(NotStarted, [], [], W.Fresh())], delivered)
  {
    hide Chunks;
  }

  lemma TakeUpKeeps(s: State)
    requires Upstream(s) && s.srv.SIdle? && s.up.wire != []
    ensures Upstream(TakeUp(s))
  {
    hide UpLogOk, IntFlow, RouteFlow;
    var it := s.up.wire[0];
    if it.frame.Data? {
      RouteTake(s.routes, s.exts, s.up.delivered, it);
    } else {
      RouteOther(s.srv, s.routes, s.exts, s.up.delivered, it, TakeUp(s).srv);
    }
  }

  lemma ServerKeeps(s: State, a: ServerStep)
    requires Upstream(s) && ServerEnabled(s, a)
    ensures Upstream(DoServer(s, a))
  {
    hide UpLogOk, IntFlow, RouteFlow, TakeUp, L.Push;
    if a.STake? {
      TakeUpKeeps(s);
    } else if a.SPush? {
      RoutePush(s.srv, s.routes, s.exts, s.up.delivered, DoServer(s, a).exts[s.srv.at]);
    } else if a.SPushFail? {
      RouteRefused(s.srv, s.routes, s.exts, s.up.delivered);
    } else {
      RouteSame(s.srv, s.routes, s.exts, s.up.delivered, DoServer(s, a).srv);
    }
  }

  lemma ListenerKeeps(s: State, p: nat, a: ListenerStep)
    requires Upstream(s) && Structure(s) && IntsOk(s.config, s.exts, s.ints) && ListenerEnabled(s, p, a)
    ensures Upstream(DoListener(s, p, a))
  {
    hide UpLogOk, IntFlow, RouteFlow, IntsOk, L.Inv, ExtsOk, PermitsOk, ProxiesOk, SrvOk, L.Push, W.Fresh;
    var px := s.proxies[p];
    if a.Accept? {
      var k := Conn(px.id, px.nextConnId);
      D.AcceptFresh(s, p);
      NoResponseYet(s, k);
      RouteAccept(s.srv, s.routes, s.exts, s.up.delivered, k);
    } else if a.Permit? || (a.Abort? && px.pc.WaitPermit?) {
      RoutePort(s.srv, s.routes, s.exts, s.up.delivered, Waiting(px), DoListener(s, p, a).exts[Waiting(px)]);
    }
  }

  lemma WriterFrame(s: State, k: Conn, a: PortStep)
    requires Structure(s) && Enabled(s, External(k, a))
    ensures var w := DoExternal(s, k, a).exts[k].w; w.log == s.exts[k].w.log && (w.open ==> s.exts[k].w.open)
  {
    hide L.Inv, PermitsOk, ProxiesOk, SrvOk, W.Inv, L.Push;
    assert ExtOk(s.proxies, k, s.exts[k]);
    if a.Write? { W.StepInv(s.exts[k].w, a.ws, ExtSender(s.srv, s.routes, k)); }
  }

  lemma ExternalKeeps(s: State, k: Conn, a: PortStep)
    requires Upstream(s) && Structure(s) && Enabled(s, External(k, a))
    ensures Upstream(DoExternal(s, k, a))
  {
    hide UpLogOk, IntFlow, RouteFlow, L.Inv, ExtsOk, PermitsOk, ProxiesOk, SrvOk, L.Push, W.Do, W.Enabled, ExtSender;
    WriterFrame(s, k, a);
    RoutePort(s.srv, s.routes, s.exts, s.up.delivered, k, DoExternal(s, k, a).exts[k]);
    if a.Unlink? { RouteUnlink(s.srv, s.routes, DoExternal(s, k, a).exts, s.up.delivered, k); }
  }

  // ---------------------------------------------------------------- the services' end

  lemma IntFlowOther(ints: seq<Internal>, log: seq<L.Item>, it: L.Item)
    requires IntFlow(ints, log) && UpLogOk(ints, log) && (it.frame.Register? || IsPing(it.frame))
    ensures IntFlow(ints, log + [it]) && UpLogOk(ints, log + [it])
  {
    hide PortFlow, Chunks;
    forall i | 0 <= i < |ints| ensures PortFlow(ints[i].port, Chunks(From(i), log + [it])) {
      ChunksPush(From(i), log, it);
    }
  }

  lemma IntFlowOpen(ints: seq<Internal>, log: seq<L.Item>, it: Internal)
    requires IntFlow(ints, log) && UpLogOk(ints, log)
    requires it.port.got == [] && it.port.dropped == [] && it.port.rd.Reading?
    ensures IntFlow(ints + [it], log) && UpLogOk(ints + [it], log)
  {
    ChunksEmpty(From(|ints|), log);
    hide Chunks;
  }

  lemma IntFlowPort(ints: seq<Internal>, log: seq<L.Item>, i: nat, pt: Port)
    requires IntFlow(ints, log) && UpLogOk(ints, log) && i < |ints| && PortFlow(pt, Chunks(From(i), log))
    ensures IntFlow(ints[i := ints[i].(port := pt)], log) && UpLogOk(ints[i := ints[i].(port := pt)], log)
  {
    hide PortFlow, Chunks;
  }

  lemma IntFlowSend(ints: seq<Internal>, log: seq<L.Item>, i: nat, pt: Port, data: Bytes)
    requires IntFlow(ints, log) && UpLogOk(ints, log) && i < |ints| && PortFlow(pt, Chunks(From(i), log) + [data])
    ensures var it := Chunk(ints[i].at, data, i);
      IntFlow(ints[i := ints[i].(port := pt)], log + [it]) && UpLogOk(ints[i := ints[i].(port := pt)], log + [it])
  {
    hide PortFlow, Chunks;
    var it := Chunk(ints[i].at, data, i);
    var ints' := ints[i := ints[i].(port := pt)];
    forall j | 0 <= j < |ints'| ensures PortFlow(ints'[j].port, Chunks(From(j), log + [it])) {
      ChunksPush(From(j), log, it);
    }
  }

  lemma ClientKeeps(s: State, a: ClientStep)
    requires Upstream(s) && Downstream(s) && ClientEnabled(s, a)
    ensures Upstream(DoClient(s, a))
  {
    hide UpLogOk, IntFlow, RouteFlow, DownLogOk, ExtFlow, IntsOk, ArriveFlow, SegmentsOk, ConnsOk, Note, TakeDown,
      TakeWhileRegistering, L.Shut, Current, W.Push;
    var t := DoClient(s, a);
    match a
    case CRegister => IntFlowOther(s.ints, s.up.log, L.Strip(L.Item(Register(s.config[s.cli.i]), 0)));
    case CPing => IntFlowOther(s.ints, s.up.log, L.Strip(L.Item(NewPing(), 0)));
    case CTake => TakeFrame(s);
    case CDialOk => IntFlowOpen(s.ints, s.up.log, t.ints[|s.ints|]);
    case CPush => PushedPort(s);
    case CStop => F.ShutFrame(s.up);
    case CDialFail =>
    case CPushFail =>
  }

  lemma TakeFrame(s: State)
    requires ClientEnabled(s, CTake)
    ensures var t := DoClient(s, CTake);
      t.ints == s.ints && t.up == s.up && t.srv == s.srv && t.routes == s.routes && t.exts == s.exts
  {
    hide Note, L.Deliver;
    if s.cli.CRegWait? {
      assert TakeWhileRegistering(s).ints == s.ints;
    } else {
      assert TakeDown(s).ints == s.ints;
    }
  }

  lemma PushedPort(s: State)
    requires IntFlow(s.ints, s.up.log) && UpLogOk(s.ints, s.up.log) && ClientEnabled(s, CPush)
    ensures IntFlow(DoClient(s, CPush).ints, s.up.log) && UpLogOk(DoClient(s, CPush).ints, s.up.log)
  {
    hide Chunks, UpLogOk, Note;
    var i := s.cli.to;
    assert PortFlow(s.ints[i].port, Chunks(From(i), s.up.log));
    IntFlowPort(s.ints, s.up.log, i, DoClient(s, CPush).ints[i].port);
  }

  lemma InnerKeeps(s: State, i: nat, a: PortStep)
    requires Upstream(s) && Enabled(s, Inner(i, a))
    ensures Upstream(DoInner(s, i, a))
  {
    hide UpLogOk, RouteFlow, W.Do, W.Enabled, IntSender, PortFlow, Chunks;
    var t := DoInner(s, i, a);
    D.PortFlowStep(s.ints[i].port, a, s.up, IntSender(s, i), Chunks(From(i), s.up.log));
    if a.Send? {
      IntFlowSend(s.ints, s.up.log, i, t.ints[i].port, s.ints[i].port.rd.chunk);
    } else {
      IntFlowPort(s.ints, s.up.log, i, t.ints[i].port);
    }
  }

  lemma Keeps(s: State, a: Action)
    requires Structure(s) && Downstream(s) && Upstream(s) && Enabled(s, a)
    ensures Upstream(Do(s, a))
  {
    hide L.Inv, ExtsOk, PermitsOk, ProxiesOk, SrvOk,
      DownLogOk, ExtFlow, IntsOk, ArriveFlow, SegmentsOk, ConnsOk, CliOk, UpLogOk, IntFlow, RouteFlow,
      DoServer, DoListener, DoExternal, DoClient, DoInner, L.Do;
    match a
    case Server(ss) => ServerKeeps(s, ss);
    case Listener(p, ps) => ListenerKeeps(s, p, ps);
    case External(k, xs) => ExternalKeeps(s, k, xs);
    case Down(ls) =>
    case Up(ls) => L.StepInv(s.up, ls);
    case Client(cs) => ClientKeeps(s, cs);
    case Inner(i, xs) => InnerKeeps(s, i, xs);
  }
}
