/** Why data is ever given up: in every run each step that gives some up has one of a few reasons,
    and a full queue is none of them. */
module Drops {
  import opened Seqs
  import opened Frames
  import opened Decisions
  import opened Tunnel
  import opened Flows
  import opened Invariant
  import T = Theorems
  import F = StepFrames
  import L = Link
  import W = Writer
  import KD = KeepDownstream
  import KS = KeepStructure

  // ---------------------------------------------------------------- frames in the tunnel

  ghost predicate FateExplained(s: State, a: Action, fate: Fate) {
    match fate
    case ToInternal(_) => true
    case ChannelClosed => s.cli.CSend? && s.cli.to < |s.ints| && !s.ints[s.cli.to].port.w.open
    case DialFailed => a == Client(CDialFail)
    case WhileRegistering => s.cli.CRegWait?
    case Unknown => false
  }

  ghost predicate FatesExplained(s: State, a: Action, arrived': map<Conn, seq<Arrival>>) {
    forall k, x :: |Arrived(s.arrived, k)| <= x < |Arrived(arrived', k)| ==>
      FateExplained(s, a, Arrived(arrived', k)[x].fate)
  }

  /** A step that gives up a chunk on its way into or through the tunnel, and its reason. */
  ghost predicate DropsExplained(s: State, a: Action, t: State) {
    && (forall k :: k in s.exts && k in t.exts && t.exts[k].dropped != s.exts[k].dropped ==> !s.down.open)
    && (forall i :: 0 <= i < |s.ints| <= |t.ints| && t.ints[i].port.dropped != s.ints[i].port.dropped ==> !s.up.open)
    && (t.down.lost != s.down.lost ==> a.Down? && (a.ls.Cut? || a.ls.Fail? || s.down.cut))
    && (t.up.lost != s.up.lost ==> (a.Up? && (a.ls.Cut? || a.ls.Fail? || s.up.cut)) || a == Client(CStop))
    && FatesExplained(s, a, t.arrived)
  }

  lemma DropsServer(s: State, a: ServerStep)
    requires ServerEnabled(s, a)
    ensures DropsExplained(s, Server(a), DoServer(s, a))
  {
    hide ServerDecide, AwaitAfter, FatesExplained, W.Push;
    NoFates(s, Server(a));
  }

  lemma DropsListener(s: State, p: nat, a: ListenerStep)
    requires Structure(s) && ListenerEnabled(s, p, a)
    ensures DropsExplained(s, Listener(p, a), DoListener(s, p, a))
  {
    hide L.Inv, PermitsOk, ProxiesOk, ExtsOk, SrvOk, W.Fresh, W.GiveUp, FatesExplained;
    NoFates(s, Listener(p, a));
    if a.Accept? { KD.AcceptFresh(s, p); }
  }

  lemma DropsExternal(s: State, k: Conn, a: PortStep)
    requires Enabled(s, External(k, a))
    ensures DropsExplained(s, External(k, a), DoExternal(s, k, a))
  {
    hide W.Do, W.Enabled, ExtSender, FatesExplained;
    NoFates(s, External(k, a));
  }

  lemma DropsInner(s: State, i: nat, a: PortStep)
    requires Enabled(s, Inner(i, a))
    ensures DropsExplained(s, Inner(i, a), DoInner(s, i, a))
  {
    hide W.Do, W.Enabled, IntSender, FatesExplained;
    NoFates(s, Inner(i, a));
  }

  lemma NoteExplained(s: State, a: Action, k: Conn, data: Bytes, fate: Fate)
    requires FateExplained(s, a, fate)
    ensures FatesExplained(s, a, Note(s.arrived, k, data, fate))
  {
  }

  lemma FatesOfClient(s: State, a: ClientStep)
    requires ClientEnabled(s, a)
    requires a.CTake? && s.cli.CIdle? && s.down.wire[0].frame.Data? ==> s.down.wire[0].frame.dataProxyId in s.configs
    ensures FatesExplained(s, Client(a), DoClient(s, a).arrived)
  {
    hide Note, FatesExplained, W.Push, W.Fresh, L.Push, L.Shut, L.Deliver;
    assert FatesExplained(s, Client(a), s.arrived) by { NoFates(s, Client(a)); }
    match a
    case CTake =>
      var f := s.down.wire[0].frame;
      if f.Data? && s.cli.CRegWait? {
        NoteExplained(s, Client(a), Conn(f.dataProxyId, f.connId), f.data, WhileRegistering);
      }
    case CDialFail => NoteExplained(s, Client(a), s.cli.at, s.cli.data, DialFailed);
    case CPush => NoteExplained(s, Client(a), s.cli.at, s.cli.data, ToInternal(s.cli.to));
    case CPushFail => NoteExplained(s, Client(a), s.cli.at, s.cli.data, ChannelClosed);
    case _ =>
  }

  lemma NoFates(s: State, a: Action)
    ensures FatesExplained(s, a, s.arrived)
  {
  }

  lemma DropsClient(s: State, a: ClientStep)
    requires ClientEnabled(s, a)
    requires a.CTake? && s.cli.CIdle? && s.down.wire[0].frame.Data? ==> s.down.wire[0].frame.dataProxyId in s.configs
    ensures DropsExplained(s, Client(a), DoClient(s, a))
  {
    hide FatesExplained, Note, W.Push, W.Fresh, ClientDecide, AwaitClient;
    FatesOfClient(s, a);
  }

  /** In every run: a chunk is given up on its way because a channel or the wire was closed, the
      encoder failed or was aborted, a dial failed or the client was registering. */
  lemma DropsHaveReasons(config: seq<ClientInfo>, run: seq<Action>, s: State, a: Action)
    requires Reaches(config, run, s) && Enabled(s, a)
    ensures DropsExplained(s, a, Do(s, a))
  {
    hide Exec, Structure, Registration, AckOrder, Downstream, Upstream, DoServer, DoListener, DoExternal, DoClient,
      DoInner;
    T.Always(config, run, s);
    match a
    case Server(ss) => DropsServer(s, ss);
    case Listener(p, ps) => DropsListener(s, p, ps);
    case External(k, xs) => DropsExternal(s, k, xs);
    case Down(ls) =>
    case Up(ls) =>
    case Client(cs) =>
      if cs.CTake? && s.cli.CIdle? { T.ClientNeverSurprised(config, run, s); }
      DropsClient(s, cs);
    case Inner(i, xs) => DropsInner(s, i, xs);
  }

  // ---------------------------------------------------------------- bytes of the write tasks

  /** A write task gives up bytes only when a write fails, when it ends with a flush that left
      some behind or after a failed write, or when it is dropped before it ever ran. */
  ghost predicate LossExplained(a: W.Writer, b: W.Writer, aborted: bool) {
    b.lost != a.lost ==>
      || (a.pc.Write? && b.pc.Final?)
      || (a.pc.Final? && b.pc.Done?)
      || (a.pc.NotSpawned? && b.pc.Done? && aborted)
  }

  ghost predicate ExtLosses(exts: map<Conn, Port>, exts': map<Conn, Port>, aborted: bool) {
    forall k :: k in exts && k in exts' ==> LossExplained(exts[k].w, exts'[k].w, aborted)
  }

  ghost predicate IntLosses(ints: seq<Internal>, ints': seq<Internal>) {
    forall i :: 0 <= i < |ints| <= |ints'| ==> LossExplained(ints[i].port.w, ints'[i].port.w, false)
  }

  ghost predicate LossesExplained(s: State, t: State) {
    ExtLosses(s.exts, t.exts, s.srv.SEnded?) && IntLosses(s.ints, t.ints)
  }

  lemma WriterLoss(w: W.Writer, st: W.Step, senders: bool)
    requires W.Enabled(w, st, senders) && !st.Abandon?
    ensures LossExplained(w, W.Do(w, st), false) && W.Do(w, st).log == w.log
  {
  }

  lemma PortLoss(pt: Port, a: PortStep, tunnel: L.Link, senders: bool)
    requires PortEnabled(pt, a, tunnel, senders)
    ensures var pt' := DoPort(pt, a, tunnel, senders);
      LossExplained(pt.w, pt'.w, false) && pt'.w.log == pt.w.log
  {
    hide W.Enabled, W.Do;
    if a.Write? { WriterLoss(pt.w, a.ws, senders); }
  }

  lemma NoLoss(s: State)
    ensures LossesExplained(s, s)
  {
  }

  lemma ExtLoss(exts: map<Conn, Port>, k: Conn, pt: Port, aborted: bool)
    requires k in exts ==> LossExplained(exts[k].w, pt.w, aborted)
    ensures ExtLosses(exts, exts[k := pt], aborted)
  {
  }

  lemma IntLoss(ints: seq<Internal>, i: nat, pt: Port)
    requires i < |ints| && LossExplained(ints[i].port.w, pt.w, false)
    ensures IntLosses(ints, ints[i := ints[i].(port := pt)])
  {
  }

  lemma ServerLoss(s: State, a: ServerStep)
    requires ServerEnabled(s, a)
    ensures LossesExplained(s, DoServer(s, a))
  {
    hide ExtLosses, IntLosses, ServerDecide, AwaitAfter, L.Push, L.Deliver;
    NoLoss(s);
    if a.SPush? { ExtLoss(s.exts, s.srv.at, DoServer(s, a).exts[s.srv.at], false); }
  }

  /** The connection that waits for a permit when its listener is aborted never had a task. */
  lemma NeverRan(s: State, p: nat)
    requires Structure(s) && p < |s.proxies| && s.proxies[p].pc.WaitPermit? && Waiting(s.proxies[p]) in s.exts
    ensures s.exts[Waiting(s.proxies[p])].w.pc.NotSpawned?
  {
    hide L.Inv, PermitsOk, SrvOk, W.Inv;
    assert ProxyOk(s.proxies[p], p);
    KS.WaitingIsLast(s.proxies, p, Waiting(s.proxies[p]), s.exts[Waiting(s.proxies[p])]);
  }

  lemma ListenerLoss(s: State, p: nat, a: ListenerStep)
    requires Structure(s) && ListenerEnabled(s, p, a)
    ensures LossesExplained(s, DoListener(s, p, a))
  {
    hide L.Inv, PermitsOk, ProxiesOk, ExtsOk, SrvOk, ExtLosses, IntLosses, L.Push;
    NoLoss(s);
    var t := DoListener(s, p, a);
    if a.Accept? {
      KD.AcceptFresh(s, p);
      var k := Conn(s.proxies[p].id, s.proxies[p].nextConnId);
      ExtLoss(s.exts, k, t.exts[k], s.srv.SEnded?);
    } else if a.Permit? || (a.Abort? && s.proxies[p].pc.WaitPermit?) {
      NeverRan(s, p);
      var k := Waiting(s.proxies[p]);
      ExtLoss(s.exts, k, t.exts[k], s.srv.SEnded?);
    }
  }

  lemma ExternalLoss(s: State, k: Conn, a: PortStep)
    requires Enabled(s, External(k, a))
    ensures LossesExplained(s, DoExternal(s, k, a))
  {
    hide ExtLosses, IntLosses, W.Do, W.Enabled, ExtSender, L.Push, DoPort, PortEnabled, Chunk;
    NoLoss(s);
    var pt := DoPort(s.exts[k], a, s.down, ExtSender(s.srv, s.routes, k));
    PortLoss(s.exts[k], a, s.down, ExtSender(s.srv, s.routes, k));
    ExtLoss(s.exts, k, pt, s.srv.SEnded?);
  }

  lemma ClientLoss(s: State, a: ClientStep)
    requires ClientEnabled(s, a)
    ensures LossesExplained(s, DoClient(s, a))
  {
    hide ExtLosses, W.Fresh, Note, ClientDecide, AwaitClient, L.Push, L.Shut, L.Deliver;
    NoLoss(s);
    if a.CPush? { IntLoss(s.ints, s.cli.to, DoClient(s, a).ints[s.cli.to].port); }
  }

  lemma InnerLoss(s: State, i: nat, a: PortStep)
    requires Enabled(s, Inner(i, a))
    ensures LossesExplained(s, DoInner(s, i, a))
  {
    hide ExtLosses, IntLosses, W.Do, W.Enabled, IntSender, L.Push, DoPort, PortEnabled, Chunk, LossExplained;
    NoLoss(s);
    var pt := DoPort(s.ints[i].port, a, s.up, IntSender(s, i));
    PortLoss(s.ints[i].port, a, s.up, IntSender(s, i));
    IntLoss(s.ints, i, pt);
  }

  lemma LossesHaveReasons(s: State, a: Action)
    requires Structure(s) && Enabled(s, a)
    ensures LossesExplained(s, Do(s, a))
  {
    hide Structure, ExtLosses, IntLosses, DoServer, DoListener, DoExternal, DoClient, DoInner, L.Do;
    NoLoss(s);
    match a
    case Server(ss) => ServerLoss(s, ss);
    case Listener(p, ps) => ListenerLoss(s, p, ps);
    case External(k, xs) => ExternalLoss(s, k, xs);
    case Down(ls) =>
    case Up(ls) =>
    case Client(cs) => ClientLoss(s, cs);
    case Inner(i, xs) => InnerLoss(s, i, xs);
  }

  // ---------------------------------------------------------------- responses at the server

  /** How many responses for k the server has read and neither queued nor still in hand. */
  function Refused(s: State, k: Conn): int
    requires k in s.exts
  {
    |Chunks(To(k), s.up.delivered)| - |s.exts[k].w.log| - |SrvHand(s.srv, k)|
  }

  /** The server gives up a response only for want of a route or of a receiver. */
  ghost predicate RefusalsExplained(s: State, a: Action, t: State) {
    forall k :: k in s.exts && k in t.exts && Refused(t, k) != Refused(s, k) ==>
      (a == Server(STake) && k !in s.routes) || (a == Server(SPushFail) && !s.exts[k].w.open)
  }

  lemma ServerRefusal(s: State, a: ServerStep)
    requires ServerEnabled(s, a)
    ensures RefusalsExplained(s, Server(a), DoServer(s, a))
  {
    hide Chunks, L.Push;
    var t := DoServer(s, a);
    if a.STake? {
      forall k | k in s.exts && Refused(t, k) != Refused(s, k) ensures k !in s.routes {
        ChunksPush(To(k), s.up.delivered, s.up.wire[0]);
      }
    }
  }

  /** Nothing of what counts as refused changes for the connections there were. */
  ghost predicate SameReads(s: State, t: State) {
    t.srv == s.srv && t.up.delivered == s.up.delivered && SameLogs(s.exts, t.exts)
  }

  ghost predicate SameLogs(exts: map<Conn, Port>, exts': map<Conn, Port>) {
    forall k :: k in exts && k in exts' ==> exts'[k].w.log == exts[k].w.log
  }

  lemma LogsSet(exts: map<Conn, Port>, k: Conn, pt: Port)
    requires k in exts ==> pt.w.log == exts[k].w.log
    ensures SameLogs(exts, exts) && SameLogs(exts, exts[k := pt])
  {
  }

  lemma NoRefusal(s: State, a: Action, t: State)
    requires SameReads(s, t)
    ensures RefusalsExplained(s, a, t)
  {
    hide Chunks;
  }

  lemma ListenerReads(s: State, p: nat, a: ListenerStep)
    requires Structure(s) && ListenerEnabled(s, p, a)
    ensures SameReads(s, DoListener(s, p, a))
  {
    hide L.Inv, PermitsOk, ProxiesOk, ExtsOk, SrvOk, L.Push, W.Fresh, SameLogs;
    var t, px := DoListener(s, p, a), s.proxies[p];
    var k := if px.pc.WaitPermit? then Waiting(px) else Conn(px.id, px.nextConnId);
    if a.Accept? { KD.AcceptFresh(s, p); }
    LogsSet(s.exts, k, if k in t.exts then t.exts[k] else Port(NotStarted, [], [], W.Fresh()));
  }

  lemma ExternalReads(s: State, k: Conn, a: PortStep)
    requires Enabled(s, External(k, a))
    ensures SameReads(s, DoExternal(s, k, a))
  {
    hide W.Do, W.Enabled, ExtSender, L.Push, DoPort, PortEnabled, Chunk, LossExplained, SameLogs;
    PortLoss(s.exts[k], a, s.down, ExtSender(s.srv, s.routes, k));
    LogsSet(s.exts, k, DoPort(s.exts[k], a, s.down, ExtSender(s.srv, s.routes, k)));
  }

  lemma RefusalsHaveReasons(s: State, a: Action)
    requires Structure(s) && Enabled(s, a)
    ensures RefusalsExplained(s, a, Do(s, a))
  {
    hide Structure, RefusalsExplained, DoServer, DoListener, DoExternal, DoClient, DoInner, L.Do;
    if a.Server? {
      ServerRefusal(s, a.ss);
    } else {
      hide SameReads;
      assert SameReads(s, Do(s, a)) by { StepReads(s, a); }
      NoRefusal(s, a, Do(s, a));
    }
  }

  lemma StepReads(s: State, a: Action)
    requires Structure(s) && Enabled(s, a) && !a.Server?
    ensures SameReads(s, Do(s, a))
  {
    hide Structure, DoListener, DoExternal, DoClient, DoInner, L.Do;
    match a
    case Listener(p, ps) => ListenerReads(s, p, ps);
    case External(k, xs) => ExternalReads(s, k, xs);
    case Down(ls) =>
    case Up(ls) => F.LinkFrame(s.up, ls);
    case Client(cs) => F.ClientFrame(s, cs);
    case Inner(i, xs) => F.InnerFrame(s, i, xs);
  }

  // ---------------------------------------------------------------- all of it

  /** In every run, every step that gives up data has its reason: a chunk on its way into or
      through the tunnel, bytes of a write task, or a response at the server. None of the
      reasons is a full queue. */
  lemma NothingDroppedForLackOfRoom(config: seq<ClientInfo>, run: seq<Action>, s: State, a: Action)
    requires Reaches(config, run, s) && Enabled(s, a)
    ensures DropsExplained(s, a, Do(s, a))
    ensures LossesExplained(s, Do(s, a))
    ensures RefusalsExplained(s, a, Do(s, a))
  {
    hide Exec, Structure, Registration, AckOrder, Downstream, Upstream, Do, Enabled;
    hide DropsExplained, LossesExplained, RefusalsExplained;
    T.Always(config, run, s);
    DropsHaveReasons(config, run, s, a);
    LossesHaveReasons(s, a);
    RefusalsHaveReasons(s, a);
  }
}
