/** More of what holds in every run: connection limits, the two connection tables, and that what
    is gone stays gone. */
module Limits {
  import opened Seqs
  import opened Frames
  import opened Decisions
  import opened Tunnel
  import opened Flows
  import opened Invariant
  import T = Theorems
  import L = Link
  import W = Writer
  import KD = KeepDownstream

  // ---------------------------------------------------------------- permits

  function RoutesOf(routes: set<Conn>, p: nat): set<Conn> { set k | k in routes && k.p == p }

  /** Free and held permits add up to the limit; every routed connection holds a permit or is
      the one the accept loop accepted last; so a routing table has at most 1025 entries. */
  lemma RoutingTableBound(config: seq<ClientInfo>, run: seq<Action>, s: State, p: nat)
    requires Reaches(config, run, s) && p < |s.proxies|
    ensures s.proxies[p].free + |Holders(s.exts, p)| == 1024
    ensures forall k :: k in RoutesOf(s.routes, p) ==>
      k in Holders(s.exts, p) || (k in s.exts && s.exts[k].rd.NotStarted? && k.c == s.proxies[p].accepted - 1)
    ensures |RoutesOf(s.routes, p)| <= 1025
  {
    hide Exec, Registration, AckOrder, Downstream, Upstream, L.Inv, SrvOk, W.Inv;
    T.Always(config, run, s);
    var last := Conn(p, if s.proxies[p].accepted > 0 then s.proxies[p].accepted - 1 else 0);
    forall k | k in RoutesOf(s.routes, p) ensures
      k in Holders(s.exts, p) || (k in s.exts && s.exts[k].rd.NotStarted? && k.c == s.proxies[p].accepted - 1)
    {
      assert Live(s.exts[k].rd) && ExtOk(s.proxies, k, s.exts[k]);
    }
    SubsetSize(RoutesOf(s.routes, p), Holders(s.exts, p) + {last});
  }

  lemma {:induction false} SubsetSize(a: set<Conn>, b: set<Conn>)
    requires a <= b
    ensures |a| <= |b|
  {
    if a == {} {
    } else {
      var k :| k in a;
      SubsetSize(a - {k}, b - {k});
    }
  }

  // ---------------------------------------------------------------- the proxy table

  /** Proxy ids are handed out in order and never wrap; no table entry is ever replaced. */
  lemma ProxyIds(config: seq<ClientInfo>, run: seq<Action>, s: State)
    requires Reaches(config, run, s)
    ensures s.nextProxyId == |s.proxies| <= 16
    ensures forall p :: 0 <= p < |s.proxies| ==> s.proxies[p].id == p
    ensures forall k :: k in s.exts <==> k.p < |s.proxies| && k.c < s.proxies[k.p].accepted
  {
    hide Exec, Registration, AckOrder, Downstream, Upstream, L.Inv, SrvOk, ExtOk, PermitsOk;
    T.Always(config, run, s);
    assert forall p :: 0 <= p < |s.proxies| ==> ProxyOk(s.proxies[p], p);
    assert forall k :: k in s.exts <==> Known(s.proxies, k);
  }

  // ---------------------------------------------------------------- the client's table

  /** A table entry is the newest internal connection of its key and its read task is still
      there to remove it; a dial that completes never finds its key taken. */
  lemma ClientTable(config: seq<ClientInfo>, run: seq<Action>, s: State)
    requires Reaches(config, run, s)
    ensures forall k :: k in s.conns ==> Latest(s.ints, k, s.conns[k]) && Live(s.ints[s.conns[k]].port.rd)
    ensures s.cli.CDial? ==> s.cli.at !in s.conns
    ensures s.cli.CSend? ==> Latest(s.ints, s.cli.at, s.cli.to)
  {
    hide Exec, Structure, Registration, AckOrder, Upstream, SegmentsOk, IntsOk, ExtFlow, ArriveFlow, DownLogOk, Latest;
    T.Always(config, run, s);
  }

  /** A clean-up takes another connection's entry exactly when its key was filed again for a
      newer connection in the meantime. */
  lemma CleanupTakesOther(config: seq<ClientInfo>, run: seq<Action>, s: State, j: nat)
    requires Reaches(config, run, s) && Enabled(s, Inner(j, Unlink))
    ensures var k := s.ints[j].at;
      && k !in Do(s, Inner(j, Unlink)).conns
      && (k in s.conns && s.conns[k] != j <==> k in s.conns && exists i :: j < i < |s.ints| && s.ints[i].at == k)
  {
    hide Exec;
    var k := s.ints[j].at;
    ClientTable(config, run, s);
    if k in s.conns {
      assert Latest(s.ints, k, s.conns[k]);
      if s.conns[k] != j { assert j < s.conns[k] < |s.ints| && s.ints[s.conns[k]].at == k; }
    }
  }

  /** The guards that mention a handle only do so to name it: the handle is always there. */
  lemma HandlesExist(config: seq<ClientInfo>, run: seq<Action>, s: State)
    requires Reaches(config, run, s)
    ensures s.srv.SData? ==> s.srv.at in s.exts
    ensures forall p :: 0 <= p < |s.proxies| && s.proxies[p].pc.WaitPermit? ==>
      Waiting(s.proxies[p]) in s.exts && s.exts[Waiting(s.proxies[p])].w.pc.NotSpawned?
    ensures forall k :: k in s.exts ==> k.p < |s.proxies|
    ensures s.cli.CDial? ==> s.cli.at.p in s.configs
    ensures s.cli.CSend? ==> s.cli.to < |s.ints|
    ensures s.cli.CRegSend? || s.cli.CRegWait? ==> s.cli.i < |s.config|
  {
    hide Exec, AckOrder, Upstream, SegmentsOk, IntsOk, ExtFlow, ArriveFlow, DownLogOk, ConnsOk, L.Inv, PermitsOk,
      HandledOk, AcksOk, ConfigsOk, W.Inv, Regs, Acks;
    T.Always(config, run, s);
    forall p | 0 <= p < |s.proxies| && s.proxies[p].pc.WaitPermit?
      ensures Waiting(s.proxies[p]) in s.exts && s.exts[Waiting(s.proxies[p])].w.pc.NotSpawned?
    {
      assert ProxyOk(s.proxies[p], p) && Known(s.proxies, Waiting(s.proxies[p]));
    }
    assert forall k :: k in s.exts ==> Known(s.proxies, k);
  }

  // ---------------------------------------------------------------- gone stays gone

  /** Streams only grow, and a dropped receiver never returns. */
  ghost predicate PortLater(a: Port, b: Port) {
    && a.got <= b.got && a.w.log <= b.w.log && a.w.sock <= b.w.sock
    && (b.w.open ==> a.w.open)
  }

  /** Connections stay known, and a removed route never returns. */
  ghost predicate ExtsLater(exts: map<Conn, Port>, routes: set<Conn>, exts': map<Conn, Port>, routes': set<Conn>) {
    forall k :: k in exts ==> k in exts' && PortLater(exts[k], exts'[k]) && (k in routes' ==> k in routes)
  }

  ghost predicate IntsLater(ints: seq<Internal>, ints': seq<Internal>) {
    && |ints| <= |ints'|
    && forall i :: 0 <= i < |ints| ==>
         && ints'[i].at == ints[i].at && ints'[i].addr == ints[i].addr && ints'[i].start == ints[i].start
         && PortLater(ints[i].port, ints'[i].port)
  }

  ghost predicate Later(s: State, t: State) {
    ExtsLater(s.exts, s.routes, t.exts, t.routes) && IntsLater(s.ints, t.ints)
  }

  lemma LaterTrans(s: State, t: State, u: State)
    requires Later(s, t) && Later(t, u)
    ensures Later(s, u)
  {
  }

  lemma SelfLater(s: State)
    ensures Later(s, s)
  {
  }

  lemma PortSelfLater(pt: Port)
    ensures PortLater(pt, pt)
  {
  }

  /** One connection moves on, and routes may go. */
  lemma ExtsLaterSet(exts: map<Conn, Port>, routes: set<Conn>, k: Conn, pt: Port, routes': set<Conn>)
    requires k in exts ==> PortLater(exts[k], pt)
    requires forall j :: j in routes' && j in exts ==> j in routes
    ensures ExtsLater(exts, routes, exts[k := pt], routes')
  {
    hide PortLater;
    forall j | j in exts ensures PortLater(exts[j], exts[k := pt][j]) {
      if j != k { PortSelfLater(exts[j]); }
    }
  }

  lemma LaterPort(pt: Port, a: PortStep, tunnel: L.Link, senders: bool)
    requires W.Inv(pt.w) && PortEnabled(pt, a, tunnel, senders)
    ensures PortLater(pt, DoPort(pt, a, tunnel, senders))
  {
    hide W.Inv, W.Do, W.Enabled;
    if a.Write? { W.StepInv(pt.w, a.ws, senders); }
  }

  lemma LaterServer(s: State, a: ServerStep)
    requires ServerEnabled(s, a)
    ensures Later(s, DoServer(s, a))
  {
    hide ServerDecide, AwaitAfter, L.Push, L.Deliver;
  }

  lemma WaitingLater(pt: Port)
    ensures PortLater(pt, pt.(rd := Reading, w := W.Spawn(pt.w)))
    ensures PortLater(pt, pt.(w := W.GiveUp(pt.w)))
  {
  }

  lemma LaterListener(s: State, p: nat, a: ListenerStep)
    requires Structure(s) && ListenerEnabled(s, p, a)
    ensures Later(s, DoListener(s, p, a))
  {
    hide L.Inv, L.Push, PermitsOk, ProxiesOk, ExtsOk, SrvOk, W.Fresh, W.Spawn, W.GiveUp, ExtsLater, IntsLater,
      PortLater;
    SelfLater(s);
    match a
    case Accept =>
      KD.AcceptFresh(s, p);
      var t := AcceptConn(s, p);
      var k := Conn(s.proxies[p].id, s.proxies[p].nextConnId);
      ExtsLaterSet(s.exts, s.routes, k, t.exts[k], t.routes);
    case Permit =>
      var k := Waiting(s.proxies[p]);
      WaitingLater(s.exts[k]);
      ExtsLaterSet(s.exts, s.routes, k, GrantPermit(s, p).exts[k], s.routes);
    case Abort =>
      if s.proxies[p].pc.WaitPermit? {
        var k := Waiting(s.proxies[p]);
        WaitingLater(s.exts[k]);
        ExtsLaterSet(s.exts, s.routes, k, AbortListener(s, p).exts[k], s.routes);
      }
    case _ =>
  }

  lemma LaterExternal(s: State, k: Conn, a: PortStep)
    requires Structure(s) && Enabled(s, External(k, a))
    ensures Later(s, DoExternal(s, k, a))
  {
    hide L.Inv, L.Push, PermitsOk, ProxiesOk, ExtsOk, SrvOk, W.Inv, DoPort, PortEnabled, ExtSender, Live, Chunk,
      PortLater, ExtsLater, IntsLater;
    assert W.Inv(s.exts[k].w) by { ExtWriter(s, k); }
    LaterPort(s.exts[k], a, s.down, ExtSender(s.srv, s.routes, k));
    ExtsLaterSet(s.exts, s.routes, k, DoPort(s.exts[k], a, s.down, ExtSender(s.srv, s.routes, k)), DoExternal(s, k,
      a).routes);
    SelfLater(s);
  }

  lemma ExtWriter(s: State, k: Conn)
    requires ExtsOk(s.proxies, s.routes, s.exts) && k in s.exts
    ensures W.Inv(s.exts[k].w)
  {
    assert ExtOk(s.proxies, k, s.exts[k]);
  }

  lemma LaterClient(s: State, a: ClientStep)
    requires ClientEnabled(s, a)
    ensures Later(s, DoClient(s, a))
  {
    hide ClientDecide, AwaitClient, L.Push, L.Deliver, L.Shut, Note;
  }

  lemma LaterInner(s: State, i: nat, a: PortStep)
    requires IntsOk(s.config, s.exts, s.ints) && Enabled(s, Inner(i, a))
    ensures Later(s, DoInner(s, i, a))
  {
    hide L.Push, W.Inv, DoPort, PortEnabled, IntSender, PortLater, Chunk;
    SelfLater(s);
    LaterPort(s.ints[i].port, a, s.up, IntSender(s, i));
  }

  lemma LaterStep(s: State, a: Action)
    requires Inv(s) && Enabled(s, a)
    ensures Later(s, Do(s, a))
  {
    hide Structure, Registration, AckOrder, Upstream, DownLogOk, ExtFlow, ArriveFlow, SegmentsOk, IntsOk, ConnsOk,
      CliOk, DoServer, DoListener, DoExternal, DoClient, DoInner, L.Do;
    match a
    case Server(ss) => LaterServer(s, ss);
    case Listener(p, ps) => LaterListener(s, p, ps);
    case External(k, xs) => LaterExternal(s, k, xs);
    case Down(ls) =>
    case Up(ls) =>
    case Client(cs) => LaterClient(s, cs);
    case Inner(i, xs) => LaterInner(s, i, xs);
  }

  lemma {:induction false} LaterRun(s: State, run: seq<Action>)
    requires Inv(s) && Exec(s, run).Some?
    ensures Later(s, Exec(s, run).value)
  {
    hide Inv, Do, Enabled;
    if run == [] {
    } else {
      hide Later;
      var init := run[..|run| - 1];
      var t := Exec(s, init).value;
      LaterRun(s, init);
      T.RunKeepsInv(s, init);
      LaterStep(t, run[|run| - 1]);
      LaterTrans(s, t, Exec(s, run).value);
    }
  }

  /** In every run, whatever follows: a connection whose route or receiver is gone never gets
      it back, internal connections keep their identity, and no stream is rewritten. */
  lemma GoneStaysGone(config: seq<ClientInfo>, run: seq<Action>, s: State, more: seq<Action>, t: State)
    requires Reaches(config, run, s) && Exec(s, more) == Some(t)
    ensures forall k :: k in s.exts ==>
      && k in t.exts && s.exts[k].got <= t.exts[k].got && s.exts[k].w.sock <= t.exts[k].w.sock
      && (k !in s.routes ==> k !in t.routes) && (!s.exts[k].w.open ==> !t.exts[k].w.open)
    ensures |s.ints| <= |t.ints|
    ensures forall i :: 0 <= i < |s.ints| ==>
      && t.ints[i].at == s.ints[i].at && t.ints[i].addr == s.ints[i].addr
      && s.ints[i].port.w.sock <= t.ints[i].port.w.sock
      && (!s.ints[i].port.w.open ==> !t.ints[i].port.w.open)
  {
    hide Exec, Inv;
    T.Always(config, run, s);
    LaterRun(s, more);
  }
}
