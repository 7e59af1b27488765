/** No task is ever stuck: in every reachable state each of them can go on, for better or worse,
    unless it waits for room in a full queue, for a frame, a permit or a chunk. */
module Progress {
  import opened Seqs
  import opened Frames
  import opened Decisions
  import opened Tunnel
  import opened Invariant
  import T = Theorems
  import M = Limits
  import L = Link
  import W = Writer

  /** The server's main loop. */
  ghost predicate ServerGoes(s: State) {
    match s.srv
    case SIdle => Enabled(s, Server(SStop)) && (s.up.wire != [] ==> Enabled(s, Server(STake)))
    case SData(k, _) =>
      && k in s.exts
      && (Enabled(s, Server(SPush)) || Enabled(s, Server(SPushFail)) || |s.exts[k].w.queue| == 256)
    case SReply(_) => Enabled(s, Server(SReplied)) || Enabled(s, Server(SReplyFail)) || |s.down.queue| == 256
    case SEnded => forall p: nat :: p < |s.proxies| && !s.proxies[p].pc.Ended? ==> Enabled(s, Listener(p, Abort))
  }

  /** An accept loop: binding may always fail, and succeeds where the port allows. */
  ghost predicate ListenerGoes(s: State, p: nat)
    requires p < |s.proxies|
  {
    match s.proxies[p].pc
    case Starting =>
      && Enabled(s, Listener(p, Bind(false)))
      && (s.proxies[p].client.bindPort >= 1024 && PortFree(s.proxies, p) ==> Enabled(s, Listener(p, Bind(true))))
    case Acking(_) => Enabled(s, Listener(p, Ack)) || Enabled(s, Listener(p, AckFail)) || |s.down.queue| == 256
    case Listening => s.proxies[p].accepted < U64_SIZE ==> Enabled(s, Listener(p, Accept))
    case WaitPermit(_) => s.proxies[p].free > 0 ==> Enabled(s, Listener(p, Permit))
    case Ended => true
  }

  /** The client: registering, dialling, sending, idle. */
  ghost predicate ClientGoes(s: State) {
    match s.cli
    case CRegSend(_) => Enabled(s, Client(CRegister)) || Enabled(s, Client(CStop)) || |s.up.queue| == 256
    case CRegWait(_) => Enabled(s, Client(CStop)) && (s.down.wire != [] ==> Enabled(s, Client(CTake)))
    case CIdle =>
      && Enabled(s, Client(CStop)) && (s.down.wire != [] ==> Enabled(s, Client(CTake)))
      && (s.up.open && |s.up.queue| < 256 ==> Enabled(s, Client(CPing)))
    case CDial(_, _) => Enabled(s, Client(CDialOk)) && Enabled(s, Client(CDialFail))
    case CSend(_, i, _) =>
      && i < |s.ints|
      && (Enabled(s, Client(CPush)) || Enabled(s, Client(CPushFail)) || |s.ints[i].port.w.queue| == 256)
    case CEnded => true
  }

  /** A connection's read task, and its write task once it is spawned; a flush may fail, and a write
      that the buffer cannot take in. */
  ghost predicate PortGoes(pt: Port, tunnel: L.Link, senders: bool) {
    && (pt.rd.Reading? ==>
          && PortEnabled(pt, Eof, tunnel, senders)
          && forall c :: c != [] ==> PortEnabled(pt, Read(c), tunnel, senders))
    && (pt.rd.Sending? ==>
          || PortEnabled(pt, Send, tunnel, senders) || PortEnabled(pt, SendFail, tunnel, senders)
          || |tunnel.queue| == 256)
    && (pt.rd.Finished? ==> PortEnabled(pt, Unlink, tunnel, senders))
    && (pt.rd.Unrouted? ==> PortEnabled(pt, Release, tunnel, senders))
    && (pt.w.pc.NotSpawned? || pt.w.pc.Done? || (pt.w.pc.Recv? && pt.w.queue == [] && senders)
        || exists ws :: !W.Failure(ws) && PortEnabled(pt, Write(ws), tunnel, senders))
    && (pt.w.pc.Flush? ==> PortEnabled(pt, Write(W.FlushError), tunnel, senders))
    && (pt.w.pc.Final? ==> PortEnabled(pt, Write(W.Finish), tunnel, senders))
    && (pt.w.pc.Write? && |pt.w.buf| + |pt.w.pc.rest| > 8192 ==> PortEnabled(pt, Write(W.WriteError), tunnel, senders))
  }

  /** An encoder and its wire: sending may fail, and the wire may be cut anywhere. */
  ghost predicate LinkGoes(l: L.Link) {
    && (l.open && l.hand == [] && l.queue != [] ==> L.Enabled(l, L.Pop))
    && (l.open && l.hand != [] ==> L.Enabled(l, L.Send) && L.Enabled(l, L.Fail))
    && (!l.cut ==> forall n: nat :: n <= |l.wire| ==> L.Enabled(l, L.Cut(n)))
  }

  lemma PortsGo(pt: Port, tunnel: L.Link, senders: bool)
    requires W.Inv(pt.w) && L.Inv(tunnel)
    ensures PortGoes(pt, tunnel, senders)
  {
    if !pt.w.pc.NotSpawned? && !pt.w.pc.Done? && !(pt.w.pc.Recv? && pt.w.queue == [] && senders) {
      hide W.Inv, L.Inv;
      var ws := W.NeverStuck(pt.w, senders);
      assert !W.Failure(ws) && PortEnabled(pt, Write(ws), tunnel, senders);
    }
  }

  lemma ExtGoes(s: State, k: Conn)
    requires Structure(s) && k in s.exts
    ensures PortGoes(s.exts[k], s.down, ExtSender(s.srv, s.routes, k))
  {
    hide L.Inv, W.Inv, PermitsOk, ProxiesOk, SrvOk, PortGoes;
    assert ExtOk(s.proxies, k, s.exts[k]);
    PortsGo(s.exts[k], s.down, ExtSender(s.srv, s.routes, k));
  }

  lemma IntGoes(s: State, i: nat)
    requires L.Inv(s.up) && IntsOk(s.config, s.exts, s.ints) && i < |s.ints|
    ensures PortGoes(s.ints[i].port, s.up, IntSender(s, i))
  {
    hide L.Inv, W.Inv, PortGoes;
    PortsGo(s.ints[i].port, s.up, IntSender(s, i));
  }

  lemma FullOrRoom(w: W.Writer)
    requires W.Inv(w)
    ensures W.CanPush(w) || !w.open || |w.queue| == 256
  {
  }

  lemma ServerLoopGoes(s: State)
    requires L.Inv(s.down)
    requires s.srv.SData? ==> s.srv.at in s.exts && W.Inv(s.exts[s.srv.at].w)
    requires forall p :: 0 <= p < |s.proxies| && s.proxies[p].pc.WaitPermit? ==> Waiting(s.proxies[p]) in s.exts
    ensures ServerGoes(s)
  {
    hide W.Inv;
    if s.srv.SData? { FullOrRoom(s.exts[s.srv.at].w); }
  }

  lemma ClientLoopGoes(s: State)
    requires L.Inv(s.up)
    requires s.cli.CDial? ==> s.cli.at.p in s.configs
    requires s.cli.CSend? ==> s.cli.to < |s.ints| && W.Inv(s.ints[s.cli.to].port.w)
    requires s.cli.CRegSend? || s.cli.CRegWait? ==> s.cli.i < |s.config|
    ensures ClientGoes(s)
  {
    hide W.Inv;
    if s.cli.CSend? { FullOrRoom(s.ints[s.cli.to].port.w); }
  }

  lemma ExtWriter(s: State, k: Conn)
    requires ExtsOk(s.proxies, s.routes, s.exts) && k in s.exts
    ensures W.Inv(s.exts[k].w)
  {
    assert ExtOk(s.proxies, k, s.exts[k]);
  }

  lemma IntWriter(s: State, i: nat)
    requires IntsOk(s.config, s.exts, s.ints) && i < |s.ints|
    ensures W.Inv(s.ints[i].port.w)
  {
  }

  lemma ListenersGo(s: State, p: nat)
    requires L.Inv(s.down) && p < |s.proxies|
    requires s.proxies[p].pc.WaitPermit? ==> Waiting(s.proxies[p]) in s.exts
    ensures ListenerGoes(s, p)
  {
    hide PortFree;
  }

  /** In every run no task of either node is stuck. */
  lemma NothingIsStuck(config: seq<ClientInfo>, run: seq<Action>, s: State)
    requires Reaches(config, run, s)
    ensures ServerGoes(s) && ClientGoes(s) && LinkGoes(s.down) && LinkGoes(s.up)
    ensures forall p :: 0 <= p < |s.proxies| ==> ListenerGoes(s, p)
    ensures forall k :: k in s.exts ==> k.p < |s.proxies| && PortGoes(s.exts[k], s.down, ExtSender(s.srv, s.routes, k))
    ensures forall i :: 0 <= i < |s.ints| ==> PortGoes(s.ints[i].port, s.up, IntSender(s, i))
  {
    hide Exec, ServerGoes, ClientGoes, ListenerGoes, PortGoes, ExtSender, IntSender;
    hide L.Inv, W.Inv, ProxiesOk, ExtsOk, PermitsOk, SrvOk, Registration, AckOrder, Upstream;
    hide DownLogOk, ExtFlow, ArriveFlow, SegmentsOk, IntsOk, ConnsOk, CliOk;
    T.Always(config, run, s);
    M.HandlesExist(config, run, s);
    if s.srv.SData? { ExtWriter(s, s.srv.at); }
    if s.cli.CSend? { IntWriter(s, s.cli.to); }
    ServerLoopGoes(s);
    ClientLoopGoes(s);
    forall p | 0 <= p < |s.proxies| ensures ListenerGoes(s, p) { ListenersGo(s, p); }
    forall k | k in s.exts ensures PortGoes(s.exts[k], s.down, ExtSender(s.srv, s.routes, k)) { ExtGoes(s, k); }
    forall i | 0 <= i < |s.ints| ensures PortGoes(s.ints[i].port, s.up, IntSender(s, i)) { IntGoes(s, i); }
  }
}
