/** The tunnel as one state machine: the server's main loop, its per-proxy accept loops and
    per-connection tasks, the two directions of the wire, the client's registration phase and
    main loop, and the tasks of its internal connections. Each action is what one task does
    between two awaits; a run is any interleaving of actions. */
module Tunnel {
  import opened Seqs
  import opened Frames
  import opened Decisions
  import L = Link
  import W = Writer

  const MAX_EXTERNAL := 1024

  /** A read task: of an external user on the server, of an internal service on the client. */
  datatype Reader =
    | NotStarted        // accepted, waiting for a permit
    | Reading           // read_buf().await
    | Sending(chunk: Bytes) // tx.send(frame).await
    | Finished          // left the loop, its table entry still there
    | Unrouted          // entry removed, permit not yet released
    | Gone

  /** One end of a forwarded stream. `got` lists the chunks its socket delivered; `dropped`
      holds the chunk that was in hand when the tunnel channel turned out closed. */
  datatype Port = Port(rd: Reader, got: seq<Bytes>, dropped: seq<Bytes>, w: W.Writer)

  function Pending(rd: Reader): seq<Bytes> {
    if rd.Sending? then [rd.chunk] else []
  }

  datatype ProxyPc =
    | Starting
    | Acking(ok: bool)
    | Listening
    | WaitPermit(conn: nat)
    | Ended

  /** A handle_reg_frame task. `accepted` counts the accepted connections. */
  datatype Proxy = Proxy(
    id: nat, client: ClientInfo, pc: ProxyPc, bound: bool, accepted: nat, nextConnId: nat, free: nat)

  datatype SrvMain = SIdle | SData(at: Conn, data: Bytes) | SReply(reply: Frame) | SEnded

  datatype CliMain =
    | CRegSend(i: nat)
    | CRegWait(i: nat)
    | CIdle
    | CDial(at: Conn, data: Bytes)
    | CSend(at: Conn, to: nat, data: Bytes)
    | CEnded

  /** An internal connection. `start` is how many frames of its stream had already reached
      the client when it was opened. */
  datatype Internal = Internal(at: Conn, addr: string, start: nat, port: Port)

  datatype Fate =
    | ToInternal(i: nat)
    | DialFailed
    | ChannelClosed
    | Unknown
    | WhileRegistering

  datatype Arrival = Arrival(data: Bytes, fate: Fate)

  datatype State = State(
    config: seq<ClientInfo>,
    // server
    srv: SrvMain, nextProxyId: nat, proxies: seq<Proxy>, routes: set<Conn>, exts: map<Conn, Port>,
    // tunnel
    down: L.Link, up: L.Link,
    // client; `sent` and `acked` count registrations, `arrived` is the fate of every data frame
    cli: CliMain, sent: nat, acked: nat, configs: map<nat, ClientInfo>,
    conns: map<Conn, nat>, ints: seq<Internal>, arrived: map<Conn, seq<Arrival>>)

  /** Server main loop: read and decide, then the awaited sends it decided on, or leave. */
  datatype ServerStep = STake | SPush | SPushFail | SReplied | SReplyFail | SStop

  /** A handle_reg_frame task. */
  datatype ListenerStep = Bind(ok: bool) | Ack | AckFail | Accept | Permit | Abort

  /** The read and write tasks of one connection. */
  datatype PortStep =
    | Read(chunk: Bytes) | Send | SendFail | Eof | Unlink | Release | Write(ws: W.Step)

  /** Client: registration, main loop, heartbeat. */
  datatype ClientStep =
    | CRegister | CTake | CDialOk | CDialFail | CPush | CPushFail | CStop | CPing

  datatype Action =
    | Server(ss: ServerStep)
    | Listener(p: nat, ps: ListenerStep)
    | External(k: Conn, xs: PortStep)
    | Down(ls: L.Step)
    | Up(ls: L.Step)
    | Client(cs: ClientStep)
    | Inner(i: nat, xs: PortStep)

  // ---------------------------------------------------------------- initial state

  function RegNext(i: nat, n: nat): CliMain {
    if i < n then CRegSend(i) else CIdle
  }

  function Init(config: seq<ClientInfo>): State {
    State(config, SIdle, 0, [], {}, map[], L.Fresh(), L.Fresh(),
          RegNext(0, |config|), 0, 0, map[], map[], [], map[])
  }

  // ---------------------------------------------------------------- small parts

  function Chunk(k: Conn, data: Bytes, origin: nat): L.Item {
    L.Item(Data(k.c, k.p, data), origin)
  }

  function Arrived(arrived: map<Conn, seq<Arrival>>, k: Conn): seq<Arrival> {
    if k in arrived then arrived[k] else []
  }

  function Note(arrived: map<Conn, seq<Arrival>>, k: Conn, data: Bytes, fate: Fate): map<Conn, seq<Arrival>> {
    arrived[k := Arrived(arrived, k) + [Arrival(data, fate)]]
  }

  predicate Forwarding(cli: CliMain) { cli.CIdle? || cli.CDial? || cli.CSend? }

  function SetProxy(s: State, p: nat, px: Proxy): State
    requires p < |s.proxies|
  {
    s.(proxies := s.proxies[p := px])
  }

  function SetExt(s: State, k: Conn, pt: Port): State { s.(exts := s.exts[k := pt]) }

  function SetInt(s: State, i: nat, pt: Port): State
    requires i < |s.ints|
  {
    s.(ints := s.ints[i := s.ints[i].(port := pt)])
  }

  /** Is a Sender of connection k's channel alive: in the routing table or in the main loop? */
  predicate ExtSender(srv: SrvMain, routes: set<Conn>, k: Conn) {
    k in routes || (srv.SData? && srv.at == k)
  }

  predicate IntSender(s: State, i: nat)
    requires i < |s.ints|
  {
    var k := s.ints[i].at;
    (k in s.conns && s.conns[k] == i) || (s.cli.CSend? && s.cli.to == i)
  }

  /** The read task has been spawned and not ended: it owns a sender of the tunnel's queue and,
      on the server, a permit of its proxy's semaphore. */
  predicate Holding(rd: Reader) { rd.Reading? || rd.Sending? || rd.Finished? || rd.Unrouted? }

  /** Does anybody on the server, or on the client, still own a sender of the tunnel's queue? */
  predicate DownSenders(s: State) {
    || !s.srv.SEnded?
    || (exists p :: 0 <= p < |s.proxies| && !s.proxies[p].pc.Ended?)
    || (exists k :: k in s.exts && Holding(s.exts[k].rd))
  }

  predicate UpSenders(s: State) {
    !s.cli.CEnded? || exists i :: 0 <= i < |s.ints| && Holding(s.ints[i].port.rd)
  }

  /** The connection whose permit the accept loop is waiting for. */
  function Waiting(px: Proxy): Conn
    requires px.pc.WaitPermit?
  {
    Conn(px.id, px.pc.conn)
  }

  function AckFrame(px: Proxy, ok: bool): Frame {
    RegisterAck(px.client, ok, if ok then px.id else 0)
  }

  // ---------------------------------------------------------------- guards

  predicate HasExt(s: State, k: Conn) { k in s.exts }

  predicate ServerEnabled(s: State, a: ServerStep) {
    match a
    case STake => s.srv.SIdle? && s.up.wire != []
    case SPush => s.srv.SData? && HasExt(s, s.srv.at) && W.CanPush(s.exts[s.srv.at].w)
    case SPushFail => s.srv.SData? && HasExt(s, s.srv.at) && !s.exts[s.srv.at].w.open
    case SReplied => s.srv.SReply? && L.CanPush(s.down)
    case SReplyFail => s.srv.SReply? && !s.down.open
    case SStop => s.srv.SIdle?
  }

  /** The proxy's listener exists: it has been bound and not dropped. */
  predicate Bound(px: Proxy) { px.bound && !px.pc.Ended? }

  /** No listener of this session holds the port that proxy p asks for. */
  predicate PortFree(proxies: seq<Proxy>, p: nat)
    requires p < |proxies|
  {
    forall q :: 0 <= q < |proxies| && q != p && Bound(proxies[q]) ==>
      proxies[q].client.bindPort != proxies[p].client.bindPort
  }

  predicate ListenerEnabled(s: State, p: nat, a: ListenerStep) {
    && p < |s.proxies|
    && var px := s.proxies[p];
       match a
       case Bind(ok) => px.pc.Starting? && (ok ==> px.client.bindPort >= 1024 && PortFree(s.proxies, p))
       case Ack => px.pc.Acking? && L.CanPush(s.down)
       case AckFail => px.pc.Acking? && !s.down.open
       case Accept => px.pc.Listening? && px.accepted < U64_SIZE
       case Permit => px.pc.WaitPermit? && px.free > 0 && HasExt(s, Waiting(px))
       case Abort => s.srv.SEnded? && !px.pc.Ended? && (px.pc.WaitPermit? ==> HasExt(s, Waiting(px)))
  }

  predicate PortEnabled(pt: Port, a: PortStep, tunnel: L.Link, senders: bool) {
    match a
    case Read(chunk) => pt.rd.Reading? && chunk != []
    case Send => pt.rd.Sending? && L.CanPush(tunnel)
    case SendFail => pt.rd.Sending? && !tunnel.open
    case Eof => pt.rd.Reading?
    case Unlink => pt.rd.Finished?
    case Release => pt.rd.Unrouted?
    case Write(ws) => !ws.Abandon? && W.Enabled(pt.w, ws, senders)
  }

  predicate ClientEnabled(s: State, a: ClientStep) {
    match a
    case CRegister => s.cli.CRegSend? && s.cli.i < |s.config| && L.CanPush(s.up)
    case CTake => ((s.cli.CRegWait? && s.cli.i < |s.config|) || s.cli.CIdle?) && s.down.wire != []
    case CDialOk => s.cli.CDial? && s.cli.at.p in s.configs
    case CDialFail => s.cli.CDial?
    case CPush => s.cli.CSend? && s.cli.to < |s.ints| && W.CanPush(s.ints[s.cli.to].port.w)
    case CPushFail => s.cli.CSend? && s.cli.to < |s.ints| && !s.ints[s.cli.to].port.w.open
    case CStop => s.cli.CIdle? || s.cli.CRegWait? || (s.cli.CRegSend? && !s.up.open)
    case CPing => Forwarding(s.cli) && L.CanPush(s.up)
  }

  predicate Enabled(s: State, a: Action) {
    match a
    case Server(ss) => ServerEnabled(s, ss)
    case Listener(p, ps) => ListenerEnabled(s, p, ps)
    case External(k, xs) => HasExt(s, k) && k.p < |s.proxies|
      && PortEnabled(s.exts[k], xs, s.down, ExtSender(s.srv, s.routes, k))
    case Down(ls) => L.Enabled(s.down, ls) && (ls.Close? ==> !DownSenders(s))
    case Up(ls) => L.Enabled(s.up, ls) && (ls.Close? ==> !UpSenders(s))
    case Client(cs) => ClientEnabled(s, cs)
    case Inner(i, xs) => i < |s.ints| && PortEnabled(s.ints[i].port, xs, s.up, IntSender(s, i))
  }

  // ---------------------------------------------------------------- effects

  /** What the server's main loop waits for after a decision. */
  function AwaitAfter(act: ServerAction): SrvMain {
    match act
    case Reject(ci) => SReply(RegisterAck(ci, false, 0))
    case ReplyPong => SReply(NewPong())
    case Forward(k, d) => SData(k, d)
    case _ => SIdle
  }

  function NewProxy(id: nat, ci: ClientInfo): Proxy {
    Proxy(id, ci, Starting, false, 0, 0, MAX_EXTERNAL)
  }

  /** The server's main loop reads one frame and acts on it. */
  function TakeUp(s: State): State
    requires s.up.wire != []
  {
    var f := s.up.wire[0].frame;
    var routed := f.Data? && Conn(f.dataProxyId, f.connId) in s.routes;
    var act := ServerDecide(|s.proxies|, s.nextProxyId, routed, f);
    s.(up := L.Deliver(s.up), srv := AwaitAfter(act),
       nextProxyId := if act.SpawnProxy? then (act.id + 1) % U32_SIZE else s.nextProxyId,
       proxies := if act.SpawnProxy? then s.proxies + [NewProxy(act.id, act.spawned)] else s.proxies)
  }

  function DoServer(s: State, a: ServerStep): State
    requires ServerEnabled(s, a)
  {
    match a
    case STake => TakeUp(s)
    case SPush =>
      var pt := s.exts[s.srv.at];
      SetExt(s, s.srv.at, pt.(w := W.Push(pt.w, s.srv.data))).(srv := SIdle)
    case SPushFail => s.(srv := SIdle)
    case SReplied => s.(srv := SIdle, down := L.Push(s.down, L.Item(s.srv.reply, 0)))
    case SReplyFail => s.(srv := if IsPong(s.srv.reply) then SEnded else SIdle)
    case SStop => s.(srv := SEnded)
  }

  function AcceptConn(s: State, p: nat): State
    requires ListenerEnabled(s, p, Accept)
  {
    var px := s.proxies[p];
    var k := Conn(px.id, px.nextConnId);
    SetProxy(s, p, px.(pc := WaitPermit(k.c), accepted := px.accepted + 1,
                       nextConnId := (px.nextConnId + 1) % U64_SIZE))
    .(exts := s.exts[k := Port(NotStarted, [], [], W.Fresh())], routes := s.routes + {k})
  }

  function GrantPermit(s: State, p: nat): State
    requires ListenerEnabled(s, p, Permit)
  {
    var px := s.proxies[p];
    var k := Waiting(px);
    SetExt(SetProxy(s, p, px.(pc := Listening, free := px.free - 1)),
           k, s.exts[k].(rd := Reading, w := W.Spawn(s.exts[k].w)))
  }

  function AbortListener(s: State, p: nat): State
    requires ListenerEnabled(s, p, Abort)
  {
    var px := s.proxies[p];
    var t := SetProxy(s, p, px.(pc := Ended));
    if px.pc.WaitPermit? then
      var k := Waiting(px);
      SetExt(t, k, s.exts[k].(w := W.GiveUp(s.exts[k].w)))
    else t
  }

  function DoListener(s: State, p: nat, a: ListenerStep): State
    requires ListenerEnabled(s, p, a)
  {
    var px := s.proxies[p];
    match a
    case Bind(ok) => SetProxy(s, p, px.(pc := Acking(ok), bound := ok))
    case Ack =>
      SetProxy(s, p, px.(pc := if px.pc.ok then Listening else Ended))
      .(down := L.Push(s.down, L.Item(AckFrame(px, px.pc.ok), 0)))
    case AckFail => SetProxy(s, p, px.(pc := if px.pc.ok then Listening else Ended))
    case Accept => AcceptConn(s, p)
    case Permit => GrantPermit(s, p)
    case Abort => AbortListener(s, p)
  }

  /** The part of a connection task's step that concerns the connection itself. */
  function DoPort(pt: Port, a: PortStep, tunnel: L.Link, senders: bool): Port
    requires PortEnabled(pt, a, tunnel, senders)
  {
    match a
    case Read(chunk) => pt.(rd := Sending(chunk), got := pt.got + [chunk])
    case Send => pt.(rd := Reading)
    case SendFail => pt.(rd := Finished, dropped := pt.dropped + [pt.rd.chunk])
    case Eof => pt.(rd := Finished)
    case Unlink => pt.(rd := Unrouted)
    case Release => pt.(rd := Gone)
    case Write(ws) => pt.(w := W.Do(pt.w, ws))
  }

  /** A read task of the server: Unlink removes its route, Release returns its permit. */
  function DoExternal(s: State, k: Conn, a: PortStep): State
    requires Enabled(s, External(k, a))
  {
    var t := SetExt(s, k, DoPort(s.exts[k], a, s.down, ExtSender(s.srv, s.routes, k)));
    match a
    case Send => t.(down := L.Push(s.down, Chunk(k, s.exts[k].rd.chunk, 0)))
    case Unlink => t.(routes := s.routes - {k})
    case Release => SetProxy(t, k.p, s.proxies[k.p].(free := s.proxies[k.p].free + 1))
    case _ => t
  }

  /** A read task of the client: Unlink removes whatever its key maps to by then. */
  function DoInner(s: State, i: nat, a: PortStep): State
    requires Enabled(s, Inner(i, a))
  {
    var t := SetInt(s, i, DoPort(s.ints[i].port, a, s.up, IntSender(s, i)));
    match a
    case Send => t.(up := L.Push(s.up, Chunk(s.ints[i].at, s.ints[i].port.rd.chunk, i)))
    case Unlink => t.(conns := s.conns - {s.ints[i].at})
    case _ => t
  }

  /** The client reads its answer to a registration. Anything but a success ends it. */
  function TakeWhileRegistering(s: State): State
    requires s.cli.CRegWait? && s.cli.i < |s.config| && s.down.wire != []
  {
    var f := s.down.wire[0].frame;
    var ok := f.RegisterAck? && f.success;
    s.(down := L.Deliver(s.down),
       configs := if ok then s.configs[f.proxyId := s.config[s.cli.i]] else s.configs,
       acked := if ok then s.acked + 1 else s.acked,
       cli := if ok then RegNext(s.cli.i + 1, |s.config|) else CEnded,
       arrived := if f.Data? then Note(s.arrived, Conn(f.dataProxyId, f.connId), f.data,
         WhileRegistering) else s.arrived)
  }

  /** What the client's main loop waits for after a decision. */
  function AwaitClient(act: ClientAction, conns: map<Conn, nat>): CliMain {
    match act
    case UseExisting(k, d) => if k in conns then CSend(k, conns[k], d) else CIdle
    case Dial(k, d) => CDial(k, d)
    case _ => CIdle
  }

  /** The client's main loop reads one frame and acts on it. */
  function TakeDown(s: State): State
    requires s.cli.CIdle? && s.down.wire != []
  {
    var f := s.down.wire[0].frame;
    var known := f.Data? && f.dataProxyId in s.configs;
    var present := f.Data? && Conn(f.dataProxyId, f.connId) in s.conns;
    var act := ClientDecide(known, present, f);
    s.(down := L.Deliver(s.down), cli := AwaitClient(act, s.conns),
       arrived := if act.UnknownProxy? then Note(s.arrived, act.at, act.payload, Unknown) else s.arrived)
  }

  /** connect() succeeded: insert the new channel, or use the one another task put there. */
  function DialOk(s: State): State
    requires ClientEnabled(s, CDialOk)
  {
    var k := s.cli.at;
    if k in s.conns then s.(cli := CSend(k, s.conns[k], s.cli.data))
    else
      var it := Internal(k, s.configs[k.p].addr, |Arrived(s.arrived, k)|,
                         Port(Reading, [], [], W.Spawn(W.Fresh())));
      s.(cli := CSend(k, |s.ints|, s.cli.data), conns := s.conns[k := |s.ints|], ints := s.ints + [it])
  }

  function DoClient(s: State, a: ClientStep): State
    requires ClientEnabled(s, a)
  {
    match a
    case CRegister =>
      s.(cli := CRegWait(s.cli.i), sent := s.sent + 1,
         up := L.Push(s.up, L.Item(Register(s.config[s.cli.i]), 0)))
    case CTake => if s.cli.CRegWait? then TakeWhileRegistering(s) else TakeDown(s)
    case CDialOk => DialOk(s)
    case CDialFail => s.(cli := CIdle, arrived := Note(s.arrived, s.cli.at, s.cli.data, DialFailed))
    case CPush =>
      var pt := s.ints[s.cli.to].port;
      SetInt(s, s.cli.to, pt.(w := W.Push(pt.w, s.cli.data)))
      .(cli := CIdle, arrived := Note(s.arrived, s.cli.at, s.cli.data, ToInternal(s.cli.to)))
    case CPushFail =>
      s.(cli := CIdle, conns := s.conns - {s.cli.at},
         arrived := Note(s.arrived, s.cli.at, s.cli.data, ChannelClosed))
    case CStop => s.(cli := CEnded, up := if s.cli.CIdle? then L.Shut(s.up) else s.up)
    case CPing => s.(up := L.Push(s.up, L.Item(NewPing(), 0)))
  }

  function Do(s: State, a: Action): State
    requires Enabled(s, a)
  {
    match a
    case Server(ss) => DoServer(s, ss)
    case Listener(p, ps) => DoListener(s, p, ps)
    case External(k, xs) => DoExternal(s, k, xs)
    case Down(ls) => s.(down := L.Do(s.down, ls))
    case Up(ls) => s.(up := L.Do(s.up, ls))
    case Client(cs) => DoClient(s, cs)
    case Inner(i, xs) => DoInner(s, i, xs)
  }

  // ---------------------------------------------------------------- runs

  /** The state after a run, or nothing if some action of it was not enabled. */
  function Exec(s: State, run: seq<Action>): Option<State> {
    if run == [] then Some(s)
    else
      match Exec(s, run[..|run| - 1])
      case None => None
      case Some(t) =>
        var a := run[|run| - 1];
        if Enabled(t, a) then Some(Do(t, a)) else None
  }

  ghost predicate Reaches(config: seq<ClientInfo>, run: seq<Action>, s: State) {
    Exec(Init(config), run) == Some(s)
  }
}
