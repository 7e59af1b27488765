/** Every action keeps the structure of the server's tables. */
module KeepStructure {
  import opened Seqs
  import opened Frames
  import opened Decisions
  import opened Tunnel
  import opened Invariant
  import L = Link
  import W = Writer

  // ---------------------------------------------------------------- permit counting

  /** A step of connection k that neither takes nor returns a permit. */
  lemma HoldersSame(exts: map<Conn, Port>, k: Conn, pt: Port, p: nat)
    requires k in exts ==> Holding(exts[k].rd) == Holding(pt.rd)
    requires k !in exts ==> !Holding(pt.rd)
    ensures Holders(exts[k := pt], p) == Holders(exts, p)
  {
  }

  lemma HoldersTake(exts: map<Conn, Port>, k: Conn, pt: Port, p: nat)
    requires k in exts && !Holding(exts[k].rd) && Holding(pt.rd)
    ensures |Holders(exts[k := pt], p)| == |Holders(exts, p)| + (if k.p == p then 1 else 0)
  {
    var a, b := Holders(exts, p), Holders(exts[k := pt], p);
    if k.p == p { assert b == a + {k}; } else { assert b == a; }
  }

  lemma HoldersReturn(exts: map<Conn, Port>, k: Conn, pt: Port, p: nat)
    requires k in exts && Holding(exts[k].rd) && !Holding(pt.rd)
    ensures |Holders(exts[k := pt], p)| == |Holders(exts, p)| - (if k.p == p then 1 else 0)
  {
    var a, b := Holders(exts, p), Holders(exts[k := pt], p);
    if k.p == p { assert a == b + {k}; } else { assert b == a; }
  }

  lemma PermitsSame(proxies: seq<Proxy>, proxies': seq<Proxy>, exts: map<Conn, Port>, k: Conn, pt: Port)
    requires PermitsOk(proxies, exts) && |proxies'| == |proxies|
    requires forall p :: 0 <= p < |proxies| ==> proxies'[p].free == proxies[p].free
    requires k in exts ==> Holding(exts[k].rd) == Holding(pt.rd)
    requires k !in exts ==> !Holding(pt.rd)
    ensures PermitsOk(proxies', exts[k := pt])
  {
    forall p | 0 <= p < |proxies'| ensures proxies'[p].free + |Holders(exts[k := pt], p)| == MAX_EXTERNAL {
      HoldersSame(exts, k, pt, p);
    }
  }

  lemma PermitsGrant(proxies: seq<Proxy>, p: nat, px: Proxy, exts: map<Conn, Port>, k: Conn, pt: Port)
    requires PermitsOk(proxies, exts) && p < |proxies| && k in exts && k.p == p
    requires px.free == proxies[p].free - 1
    requires !Holding(exts[k].rd) && Holding(pt.rd)
    ensures PermitsOk(proxies[p := px], exts[k := pt])
  {
    var proxies' := proxies[p := px];
    forall q | 0 <= q < |proxies'| ensures proxies'[q].free + |Holders(exts[k := pt], q)| == MAX_EXTERNAL {
      HoldersTake(exts, k, pt, q);
    }
  }

  lemma PermitsRelease(proxies: seq<Proxy>, p: nat, px: Proxy, exts: map<Conn, Port>, k: Conn, pt: Port)
    requires PermitsOk(proxies, exts) && p < |proxies| && k in exts && k.p == p
    requires px.free == proxies[p].free + 1
    requires Holding(exts[k].rd) && !Holding(pt.rd)
    ensures PermitsOk(proxies[p := px], exts[k := pt])
  {
    var proxies' := proxies[p := px];
    forall q | 0 <= q < |proxies'| ensures proxies'[q].free + |Holders(exts[k := pt], q)| == MAX_EXTERNAL {
      HoldersReturn(exts, k, pt, q);
    }
  }

  // ---------------------------------------------------------------- table updates

  lemma ExtsPort(proxies: seq<Proxy>, routes: set<Conn>, exts: map<Conn, Port>, k: Conn, pt: Port)
    requires ExtsOk(proxies, routes, exts) && k in exts
    requires ExtOk(proxies, k, pt) && Live(pt.rd) == Live(exts[k].rd)
    ensures ExtsOk(proxies, routes, exts[k := pt])
  {
    hide ExtOk, Known;
  }

  lemma ExtsUnlink(proxies: seq<Proxy>, routes: set<Conn>, exts: map<Conn, Port>, k: Conn, pt: Port)
    requires ExtsOk(proxies, routes, exts) && k in exts
    requires ExtOk(proxies, k, pt) && !Live(pt.rd)
    ensures ExtsOk(proxies, routes - {k}, exts[k := pt])
  {
    hide ExtOk, Known;
  }

  lemma SameKnown(proxies: seq<Proxy>, p: nat, px: Proxy)
    requires p < |proxies| && px.accepted == proxies[p].accepted
    ensures forall k :: Known(proxies[p := px], k) <==> Known(proxies, k)
  {
  }

  lemma OtherProxy(proxies: seq<Proxy>, p: nat, px: Proxy, k: Conn, pt: Port)
    requires p < |proxies| && k.p != p && Known(proxies, k) && Known(proxies[p := px], k)
    ensures ExtOk(proxies[p := px], k, pt) <==> ExtOk(proxies, k, pt)
  {
  }

  /** A listener changes without accepting; its connections are none the wiser. */
  lemma ExtsProxy(proxies: seq<Proxy>, routes: set<Conn>, exts: map<Conn, Port>, p: nat, px: Proxy)
    requires ExtsOk(proxies, routes, exts) && p < |proxies|
    requires px.accepted == proxies[p].accepted
    requires forall k :: k in exts && k.p == p ==> Known(proxies[p := px], k) && ExtOk(proxies[p := px], k, exts[k])
    ensures ExtsOk(proxies[p := px], routes, exts)
  {
    hide ExtOk, Known;
    SameKnown(proxies, p, px);
    forall k | k in exts ensures Known(proxies[p := px], k) && ExtOk(proxies[p := px], k, exts[k]) {
      if k.p != p { OtherProxy(proxies, p, px, k, exts[k]); }
    }
  }

  lemma ProxiesSet(proxies: seq<Proxy>, next: nat, p: nat, px: Proxy)
    requires ProxiesOk(proxies, next) && p < |proxies| && ProxyOk(px, p)
    ensures ProxiesOk(proxies[p := px], next)
  {
    hide ProxyOk;
  }

  // ---------------------------------------------------------------- server main loop

  lemma ServerKeeps(s: State, a: ServerStep)
    requires Structure(s) && ServerEnabled(s, a)
    ensures Structure(DoServer(s, a))
  {
    hide ProxiesOk, ExtsOk, PermitsOk, L.Inv, TakeUp;
    match a
    case STake => TakeUpKeeps(s);
    case SPush => PushKeeps(s);
    case SReplied => L.PushInv(s.down, L.Item(s.srv.reply, 0));
    case _ =>
  }

  lemma PushKeeps(s: State)
    requires Structure(s) && ServerEnabled(s, SPush)
    ensures Structure(DoServer(s, SPush))
  {
    hide ProxiesOk, PermitsOk, L.Inv, W.Inv;
    var k := s.srv.at;
    var pt := s.exts[k].(w := W.Push(s.exts[k].w, s.srv.data));
    assert ExtOk(s.proxies, k, s.exts[k]);
    W.PushInv(s.exts[k].w, s.srv.data);
    ExtsPort(s.proxies, s.routes, s.exts, k, pt);
    PermitsSame(s.proxies, s.proxies, s.exts, k, pt);
  }

  lemma TakeUpKeeps(s: State)
    requires Structure(s) && s.srv.SIdle? && s.up.wire != []
    ensures Structure(TakeUp(s))
  {
    hide PermitsOk, L.Inv, ExtOk, ProxyOk;
    L.DeliverInv(s.up);
    var f := s.up.wire[0].frame;
    if f.Register? && |s.proxies| < MAX_PROXIES { SpawnKeeps(s, f.client); }
  }

  lemma SpawnKeeps(s: State, ci: ClientInfo)
    requires Structure(s) && |s.proxies| < MAX_PROXIES
    ensures
      var px := Proxy(s.nextProxyId, ci, Starting, false, 0, 0, MAX_EXTERNAL);
      && ProxiesOk(s.proxies + [px], (s.nextProxyId + 1) % U32_SIZE)
      && ExtsOk(s.proxies + [px], s.routes, s.exts)
      && PermitsOk(s.proxies + [px], s.exts)
  {
    hide L.Inv, PermitsOk, ExtsOk, ProxyOk;
    var px := Proxy(s.nextProxyId, ci, Starting, false, 0, 0, MAX_EXTERNAL);
    assert ProxyOk(px, |s.proxies|) by { FreshProxy(s.nextProxyId, ci); }
    SpawnExts(s.proxies, s.routes, s.exts, px);
    SpawnPermits(s.proxies, s.routes, s.exts, px);
  }

  lemma FreshProxy(p: nat, ci: ClientInfo)
    ensures ProxyOk(Proxy(p, ci, Starting, false, 0, 0, MAX_EXTERNAL), p)
  {
  }

  lemma SpawnExts(proxies: seq<Proxy>, routes: set<Conn>, exts: map<Conn, Port>, px: Proxy)
    requires ExtsOk(proxies, routes, exts) && px.accepted == 0
    ensures ExtsOk(proxies + [px], routes, exts)
  {
    hide W.Inv;
  }

  lemma SpawnPermits(proxies: seq<Proxy>, routes: set<Conn>, exts: map<Conn, Port>, px: Proxy)
    requires ExtsOk(proxies, routes, exts) && PermitsOk(proxies, exts) && px.free == MAX_EXTERNAL
    ensures PermitsOk(proxies + [px], exts)
  {
    hide ExtOk;
    assert Holders(exts, |proxies|) == {};
  }

  // ---------------------------------------------------------------- listeners

  lemma ListenerKeeps(s: State, p: nat, a: ListenerStep)
    requires Structure(s) && ListenerEnabled(s, p, a)
    ensures Structure(DoListener(s, p, a))
  {
    hide ProxiesOk, ExtsOk, PermitsOk, L.Inv, AcceptConn, GrantPermit, AbortListener;
    match a
    case Accept => AcceptKeeps(s, p);
    case Permit => PermitKeeps(s, p);
    case Abort => AbortKeeps(s, p);
    case _ => StartupKeeps(s, p, a);
  }

  /** Binding and acknowledging, before the first connection. */
  lemma StartupKeeps(s: State, p: nat, a: ListenerStep)
    requires Structure(s) && ListenerEnabled(s, p, a)
    requires a.Bind? || a.Ack? || a.AckFail?
    ensures Structure(DoListener(s, p, a))
  {
    hide L.Inv, W.Inv, PermitsOk, ExtsOk;
    var px := s.proxies[p];
    assert ProxyOk(px, p);
    var px' := DoListener(s, p, a).proxies[p];
    ProxiesSet(s.proxies, s.nextProxyId, p, px');
    NoExts(s, p);
    ExtsProxy(s.proxies, s.routes, s.exts, p, px');
    PermitsProxy(s.proxies, s.exts, p, px');
    if a.Ack? { L.PushInv(s.down, L.Item(AckFrame(px, px.pc.ok), 0)); }
  }

  lemma NoExts(s: State, p: nat)
    requires ExtsOk(s.proxies, s.routes, s.exts) && p < |s.proxies| && s.proxies[p].accepted == 0
    ensures forall k :: k in s.exts ==> k.p != p
  {
  }

  lemma PermitsProxy(proxies: seq<Proxy>, exts: map<Conn, Port>, p: nat, px: Proxy)
    requires PermitsOk(proxies, exts) && p < |proxies| && px.free == proxies[p].free
    ensures PermitsOk(proxies[p := px], exts)
  {
    hide Holders;
  }

  lemma AcceptKeeps(s: State, p: nat)
    requires Structure(s) && ListenerEnabled(s, p, Accept)
    ensures Structure(AcceptConn(s, p))
  {
    hide L.Inv, PermitsOk, ExtsOk;
    var t := AcceptConn(s, p);
    var px := s.proxies[p];
    assert ProxyOk(px, p);
    assert px.nextConnId == px.accepted;
    var k := Conn(p, px.accepted);
    ProxiesSet(s.proxies, s.nextProxyId, p, t.proxies[p]);
    AcceptExts(s.proxies, s.routes, s.exts, p, t.proxies[p]);
    PermitsSame(s.proxies, t.proxies, s.exts, k, t.exts[k]);
  }

  lemma AcceptExts(proxies: seq<Proxy>, routes: set<Conn>, exts: map<Conn, Port>, p: nat, px: Proxy)
    requires ExtsOk(proxies, routes, exts) && p < |proxies|
    requires proxies[p].pc.Listening? && px.accepted == proxies[p].accepted + 1 && px.pc.WaitPermit?
    ensures var k := Conn(p, proxies[p].accepted);
      && k !in exts
      && ExtsOk(proxies[p := px], routes + {k}, exts[k := Port(NotStarted, [], [], W.Fresh())])
  {
    hide W.Inv;
    W.FreshInv();
    var k := Conn(p, proxies[p].accepted);
    OneMoreKnown(proxies, p, px);
  }

  lemma OneMoreKnown(proxies: seq<Proxy>, p: nat, px: Proxy)
    requires p < |proxies| && px.accepted == proxies[p].accepted + 1
    ensures forall k :: Known(proxies[p := px], k) <==> Known(proxies, k) || k == Conn(p, proxies[p].accepted)
  {
  }

  lemma PermitKeeps(s: State, p: nat)
    requires Structure(s) && ListenerEnabled(s, p, Permit)
    ensures Structure(GrantPermit(s, p))
  {
    hide L.Inv, PermitsOk, ExtsOk;
    var t := GrantPermit(s, p);
    var k := Waiting(s.proxies[p]);
    assert ProxyOk(s.proxies[p], p);
    ProxiesSet(s.proxies, s.nextProxyId, p, t.proxies[p]);
    PermitExts(s.proxies, s.routes, s.exts, p, t.proxies[p]);
    PermitsGrant(s.proxies, p, t.proxies[p], s.exts, k, t.exts[k]);
  }

  /** The connection waiting at listener p, and the ones before it. */
  lemma WaitingIsLast(proxies: seq<Proxy>, p: nat, k: Conn, pt: Port)
    requires p < |proxies| && ProxyOk(proxies[p], p) && proxies[p].pc.WaitPermit?
    requires k.p == p && Known(proxies, k) && ExtOk(proxies, k, pt)
    ensures k == Waiting(proxies[p]) ==> pt.rd.NotStarted? && pt.w.pc.NotSpawned?
    ensures k != Waiting(proxies[p]) ==> !pt.rd.NotStarted?
  {
  }

  /** A listener that waits for no permit asks nothing of a connection whose task runs. */
  lemma StartedOk(proxies: seq<Proxy>, k: Conn, pt: Port)
    requires Known(proxies, k) && !proxies[k.p].pc.WaitPermit?
    requires W.Inv(pt.w) && !pt.rd.NotStarted? && !pt.w.pc.NotSpawned?
    ensures ExtOk(proxies, k, pt)
  {
  }

  lemma RunningWriter(proxies: seq<Proxy>, k: Conn, pt: Port)
    requires Known(proxies, k) && ExtOk(proxies, k, pt) && !pt.rd.NotStarted?
    ensures W.Inv(pt.w) && !pt.w.pc.NotSpawned?
  {
  }

  lemma PermitExts(proxies: seq<Proxy>, routes: set<Conn>, exts: map<Conn, Port>, p: nat, px: Proxy)
    requires ExtsOk(proxies, routes, exts) && p < |proxies| && ProxyOk(proxies[p], p)
    requires proxies[p].pc.WaitPermit? && px.accepted == proxies[p].accepted && px.pc.Listening?
    requires Waiting(proxies[p]) in exts
    ensures var k := Waiting(proxies[p]);
      && exts[k].rd.NotStarted?
      && ExtsOk(proxies[p := px], routes, exts[k := exts[k].(rd := Reading, w := W.Spawn(exts[k].w))])
  {
    hide W.Inv, ExtOk, ProxyOk, Known;
    var k := Waiting(proxies[p]);
    var pt := exts[k].(rd := Reading, w := W.Spawn(exts[k].w));
    var proxies', exts' := proxies[p := px], exts[k := pt];
    SameKnown(proxies, p, px);
    assert k.p == p by { WaitingHere(proxies[p], p); }
    WaitingIsLast(proxies, p, k, exts[k]);
    assert W.Inv(exts[k].w) by { WriterOk(proxies, k, exts[k]); }
    SpawnInv(exts[k].w);
    forall j | j in exts' ensures Known(proxies', j) && ExtOk(proxies', j, exts'[j]) {
      if j.p != p {
        OtherProxy(proxies, p, px, j, exts[j]);
      } else {
        if j != k {
          WaitingIsLast(proxies, p, j, exts[j]);
          RunningWriter(proxies, j, exts[j]);
        }
        StartedOk(proxies', j, exts'[j]);
      }
    }
  }

  lemma WaitingHere(px: Proxy, p: nat)
    requires ProxyOk(px, p) && px.pc.WaitPermit?
    ensures Waiting(px).p == p
  {
  }

  lemma WriterOk(proxies: seq<Proxy>, k: Conn, pt: Port)
    requires Known(proxies, k) && ExtOk(proxies, k, pt)
    ensures W.Inv(pt.w)
  {
  }

  lemma SpawnInv(w: W.Writer)
    requires W.Inv(w) && w.pc.NotSpawned?
    ensures W.Inv(W.Spawn(w))
  {
  }

  lemma AbortKeeps(s: State, p: nat)
    requires Structure(s) && ListenerEnabled(s, p, Abort)
    ensures Structure(AbortListener(s, p))
  {
    hide L.Inv, PermitsOk, ExtsOk, W.GiveUp;
    var t := AbortListener(s, p);
    var px := s.proxies[p];
    assert ProxyOk(px, p);
    ProxiesSet(s.proxies, s.nextProxyId, p, t.proxies[p]);
    AbortExts(s.proxies, s.routes, s.exts, p, t.proxies[p]);
    if px.pc.WaitPermit? {
      var k := Waiting(px);
      PermitsSame(s.proxies, t.proxies, s.exts, k, t.exts[k]);
    } else {
      PermitsProxy(s.proxies, s.exts, p, t.proxies[p]);
    }
  }

  /** The end of a listener leaves its connections, the waiting one included, as they are. */
  lemma EndedOk(proxies: seq<Proxy>, p: nat, px: Proxy, k: Conn, pt: Port, w: W.Writer)
    requires p < |proxies| && k.p == p && Known(proxies, k) && ExtOk(proxies, k, pt)
    requires px.accepted == proxies[p].accepted && px.pc.Ended? && W.Inv(w)
    requires w == pt.w || !w.pc.NotSpawned?
    ensures Known(proxies[p := px], k) && ExtOk(proxies[p := px], k, pt.(w := w))
  {
  }

  lemma AbortExts(proxies: seq<Proxy>, routes: set<Conn>, exts: map<Conn, Port>, p: nat, px: Proxy)
    requires ExtsOk(proxies, routes, exts) && p < |proxies| && ProxyOk(proxies[p], p)
    requires px.accepted == proxies[p].accepted && px.pc.Ended?
    requires proxies[p].pc.WaitPermit? ==> Waiting(proxies[p]) in exts
    ensures !proxies[p].pc.WaitPermit? ==> ExtsOk(proxies[p := px], routes, exts)
    ensures proxies[p].pc.WaitPermit? ==>
      var k := Waiting(proxies[p]);
      ExtsOk(proxies[p := px], routes, exts[k := exts[k].(w := W.GiveUp(exts[k].w))])
  {
    hide W.Inv, ExtOk, ProxyOk, Known, W.GiveUp;
    SameKnown(proxies, p, px);
    forall j | j in exts && j.p == p ensures Known(proxies[p := px], j) && ExtOk(proxies[p := px], j, exts[j]) {
      WriterOk(proxies, j, exts[j]);
      EndedOk(proxies, p, px, j, exts[j], exts[j].w);
    }
    ExtsProxy(proxies, routes, exts, p, px);
    if proxies[p].pc.WaitPermit? {
      var k := Waiting(proxies[p]);
      assert k.p == p by { WaitingHere(proxies[p], p); }
      WaitingIsLast(proxies, p, k, exts[k]);
      WriterOk(proxies, k, exts[k]);
      var w := W.GiveUp(exts[k].w);
      assert W.Inv(w) && !w.pc.NotSpawned? by { GiveUpInv(exts[k].w); }
      EndedOk(proxies, p, px, k, exts[k], w);
      ExtsPort(proxies[p := px], routes, exts, k, exts[k].(w := w));
    }
  }

  lemma GiveUpInv(w: W.Writer)
    requires W.Inv(w) && w.pc.NotSpawned?
    ensures W.Inv(W.GiveUp(w)) && !W.GiveUp(w).pc.NotSpawned?
  {
    W.StepInv(w, W.Abandon, true);
  }

  // ---------------------------------------------------------------- connection tasks

  lemma ExternalKeeps(s: State, k: Conn, a: PortStep)
    requires Structure(s) && Enabled(s, External(k, a))
    ensures Structure(DoExternal(s, k, a))
  {
    hide ProxiesOk, ExtsOk, PermitsOk, L.Inv, ExtSender, W.Do, W.Enabled;
    var pt := DoExternal(s, k, a).exts[k];
    PortKeeps(s, k, a);
    if a.Release? {
      ReleaseKeeps(s, k);
    } else {
      PermitsSame(s.proxies, s.proxies, s.exts, k, pt);
      if a.Unlink? {
        ExtsUnlink(s.proxies, s.routes, s.exts, k, pt);
      } else {
        ExtsPort(s.proxies, s.routes, s.exts, k, pt);
        if a.Send? { L.PushInv(s.down, Chunk(k, s.exts[k].rd.chunk, 0)); }
      }
    }
  }

  lemma PortKeeps(s: State, k: Conn, a: PortStep)
    requires ExtsOk(s.proxies, s.routes, s.exts) && Enabled(s, External(k, a))
    ensures Known(s.proxies, k) && ExtOk(s.proxies, k, DoPort(s.exts[k], a, s.down, ExtSender(s.srv, s.routes, k)))
  {
    hide W.Inv;
    assert ExtOk(s.proxies, k, s.exts[k]);
    if a.Write? { WriteKeeps(s.exts[k].w, a.ws, ExtSender(s.srv, s.routes, k)); }
  }

  lemma WriteKeeps(w: W.Writer, ws: W.Step, senders: bool)
    requires W.Inv(w) && W.Enabled(w, ws, senders) && !ws.Abandon?
    ensures W.Inv(W.Do(w, ws)) && W.Do(w, ws).log == w.log
    ensures W.Do(w, ws).pc.NotSpawned? <==> w.pc.NotSpawned?
    ensures w.pc.NotSpawned? ==> W.Do(w, ws) == w
  {
    W.StepInv(w, ws, senders);
  }

  lemma ReleaseKeeps(s: State, k: Conn)
    requires Structure(s) && Enabled(s, External(k, Release))
    ensures Structure(DoExternal(s, k, Release))
  {
    hide PermitsOk, L.Inv, ExtsOk;
    var t := DoExternal(s, k, Release);
    PortKeeps(s, k, Release);
    ExtsPort(s.proxies, s.routes, s.exts, k, t.exts[k]);
    assert ProxyOk(s.proxies[k.p], k.p);
    ProxiesSet(s.proxies, s.nextProxyId, k.p, t.proxies[k.p]);
    ExtsFree(s.proxies, s.routes, t.exts, k.p, t.proxies[k.p]);
    PermitsRelease(s.proxies, k.p, t.proxies[k.p], s.exts, k, t.exts[k]);
  }

  lemma ExtsFree(proxies: seq<Proxy>, routes: set<Conn>, exts: map<Conn, Port>, p: nat, px: Proxy)
    requires ExtsOk(proxies, routes, exts) && p < |proxies|
    requires px.accepted == proxies[p].accepted && px.pc == proxies[p].pc
    ensures ExtsOk(proxies[p := px], routes, exts)
  {
    hide W.Inv;
    SameKnown(proxies, p, px);
  }

  // ---------------------------------------------------------------- wires and client

  lemma ClientKeeps(s: State, a: ClientStep)
    requires Structure(s) && ClientEnabled(s, a)
    ensures Structure(DoClient(s, a))
  {
    hide ProxiesOk, ExtsOk, PermitsOk, L.Inv;
    match a
    case CRegister => L.PushInv(s.up, L.Item(Register(s.config[s.cli.i]), 0));
    case CTake => L.DeliverInv(s.down);
    case CStop => L.ShutInv(s.up);
    case CPing => L.PushInv(s.up, L.Item(NewPing(), 0));
    case _ =>
  }

  lemma InnerKeeps(s: State, i: nat, a: PortStep)
    requires Structure(s) && Enabled(s, Inner(i, a))
    ensures Structure(DoInner(s, i, a))
  {
    hide ProxiesOk, ExtsOk, PermitsOk, L.Inv;
    if a.Send? { L.PushInv(s.up, Chunk(s.ints[i].at, s.ints[i].port.rd.chunk, i)); }
  }

  lemma Keeps(s: State, a: Action)
    requires Structure(s) && Enabled(s, a)
    ensures Structure(Do(s, a))
  {
    hide ProxiesOk, ExtsOk, PermitsOk, SrvOk, L.Inv, DoServer, DoListener, DoExternal, DoClient, DoInner;
    match a
    case Server(ss) => ServerKeeps(s, ss);
    case Listener(p, ps) => ListenerKeeps(s, p, ps);
    case External(k, xs) => ExternalKeeps(s, k, xs);
    case Down(ls) => L.StepInv(s.down, ls);
    case Up(ls) => L.StepInv(s.up, ls);
    case Client(cs) => ClientKeeps(s, cs);
    case Inner(i, xs) => InnerKeeps(s, i, xs);
  }
}
