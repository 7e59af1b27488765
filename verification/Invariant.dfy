/** The inductive invariant of the tunnel, in four parts: structure of the server's tables,
    registration, the stream towards the internal services and the stream back. */
module Invariant {
  import opened Seqs
  import opened Frames
  import opened Decisions
  import opened Tunnel
  import opened Flows
  import L = Link
  import W = Writer

  // ---------------------------------------------------------------- structure

  ghost predicate ProxyOk(px: Proxy, p: nat) {
    && px.id == p
    && px.accepted <= U64_SIZE && px.nextConnId == px.accepted % U64_SIZE
    && (px.pc.WaitPermit? ==> px.accepted > 0 && px.pc.conn == px.accepted - 1)
    && (px.pc.Starting? ==> !px.bound) && (px.pc.Acking? ==> px.bound == px.pc.ok)
    && (px.pc.Listening? || px.pc.WaitPermit? || px.accepted > 0 ==> px.bound)
    && (px.pc.Starting? || px.pc.Acking? ==> px.accepted == 0)
    && (px.bound ==> px.client.bindPort >= 1024)
  }

  ghost predicate ProxiesOk(proxies: seq<Proxy>, nextProxyId: nat) {
    && |proxies| <= MAX_PROXIES && nextProxyId == |proxies|
    && forall p :: 0 <= p < |proxies| ==> ProxyOk(proxies[p], p)
  }

  predicate Known(proxies: seq<Proxy>, k: Conn) {
    k.p < |proxies| && k.c < proxies[k.p].accepted
  }

  /** The read task has not yet removed its table entry. */
  predicate Live(rd: Reader) { rd.NotStarted? || rd.Reading? || rd.Sending? || rd.Finished? }

  ghost predicate ExtOk(proxies: seq<Proxy>, k: Conn, pt: Port)
    requires Known(proxies, k)
  {
    var px := proxies[k.p];
    && W.Inv(pt.w)
    && (pt.rd.NotStarted? ==> k.c == px.accepted - 1 && (px.pc.WaitPermit? || px.pc.Ended?))
    && (pt.rd.NotStarted? && px.pc.WaitPermit? ==> pt.w.pc.NotSpawned?)
    && (px.pc.WaitPermit? && k.c == px.accepted - 1 ==> pt.rd.NotStarted?)
    && (pt.w.pc.NotSpawned? ==> pt.rd.NotStarted?)
  }

  ghost predicate ExtsOk(proxies: seq<Proxy>, routes: set<Conn>, exts: map<Conn, Port>) {
    && (forall k :: k in exts <==> Known(proxies, k))
    && (forall k :: k in exts ==> ExtOk(proxies, k, exts[k]))
    && (forall k :: k in routes <==> k in exts && Live(exts[k].rd))
  }

  function Holders(exts: map<Conn, Port>, p: nat): set<Conn> {
    set k | k in exts && k.p == p && Holding(exts[k].rd)
  }

  ghost predicate PermitsOk(proxies: seq<Proxy>, exts: map<Conn, Port>) {
    forall p :: 0 <= p < |proxies| ==> proxies[p].free + |Holders(exts, p)| == MAX_EXTERNAL
  }

  ghost predicate SrvOk(srv: SrvMain, exts: map<Conn, Port>) {
    srv.SData? ==> srv.at in exts
  }

  ghost predicate Structure(s: State) {
    && L.Inv(s.down) && L.Inv(s.up)
    && ProxiesOk(s.proxies, s.nextProxyId)
    && ExtsOk(s.proxies, s.routes, s.exts)
    && PermitsOk(s.proxies, s.exts)
    && SrvOk(s.srv, s.exts)
  }

  // ---------------------------------------------------------------- registration

  /** The registration phase and the two counters of it. */
  ghost predicate PhaseOk(cli: CliMain, sent: nat, acked: nat, n: nat) {
    && acked <= sent <= acked + 1 && sent <= n
    && match cli
       case CRegSend(i) => sent == acked == i && i < n
       case CRegWait(i) => sent == i + 1 && acked == i
       case CEnded => true
       case _ => sent == acked == n
  }

  ghost predicate ConfigsOk(config: seq<ClientInfo>, configs: map<nat, ClientInfo>, acked: nat) {
    && acked <= |config|
    && (forall i :: i in configs <==> 0 <= i < acked)
    && (forall i :: i in configs ==> configs[i] == config[i])
  }

  predicate Outstanding(pc: ProxyPc) { pc.Starting? || pc.Acking? }

  /** handled: registrations the server has read; all that is known about each of them. */
  ghost predicate HandledOk(config: seq<ClientInfo>, proxies: seq<Proxy>, handled: nat) {
    && handled <= |config|
    && |proxies| == (if handled <= MAX_PROXIES then handled else MAX_PROXIES)
    && forall p :: 0 <= p < |proxies| ==> proxies[p].client == BlankClient(config[p])
  }

  /** `acks` is the list of acknowledgements ever queued. */
  ghost predicate AcksOk(proxies: seq<Proxy>, srv: SrvMain, acks: seq<Frame>, handled: nat) {
    && |acks| <= handled <= |acks| + 1
    && (forall j :: 0 <= j < |acks| ==> acks[j].RegisterAck?)
    && (forall j :: 0 <= j < |acks| && acks[j].success ==>
          && acks[j].proxyId == j && j < |proxies| && proxies[j].bound && !Outstanding(proxies[j].pc)
          && acks[j].ackClient == BlankClient(proxies[j].client))
    && (forall p :: 0 <= p < |proxies| && Outstanding(proxies[p].pc) ==>
          p == handled - 1 && |acks| == handled - 1)
    && (srv.SReply? && !IsPong(srv.reply) ==>
          && srv.reply.RegisterAck? && !srv.reply.success
          && handled > MAX_PROXIES && |acks| == handled - 1)
  }

  /** `regs` is what the client ever queued as Register frames, `read` the acks it read. */
  ghost predicate ClientReg(config: seq<ClientInfo>, cli: CliMain, sent: nat, acked: nat, configs: map<nat, ClientInfo>,
                            regs: seq<Frame>, read: seq<Frame>) {
    && PhaseOk(cli, sent, acked, |config|)
    && ConfigsOk(config, configs, acked)
    && |regs| == sent
    && (forall j :: 0 <= j < sent ==> regs[j] == Register(BlankClient(config[j])))
    && acked <= |read|
    && (forall j :: 0 <= j < acked ==> read[j].RegisterAck? && read[j].success)
    && (!cli.CEnded? ==> |read| == acked)
  }

  ghost predicate Registration(s: State) {
    var handled := |Regs(s.up.delivered)|;
    && ClientReg(s.config, s.cli, s.sent, s.acked, s.configs, Regs(s.up.log), Acks(s.down.delivered))
    && HandledOk(s.config, s.proxies, handled)
    && AcksOk(s.proxies, s.srv, Acks(s.down.log), handled)
    && handled <= s.sent
  }

  predicate AckOf(it: L.Item, p: nat) {
    it.frame.RegisterAck? && it.frame.success && it.frame.proxyId == p
  }

  ghost predicate AckIn(log: seq<L.Item>, p: nat) {
    exists y :: 0 <= y < |log| && AckOf(log[y], p)
  }

  /** A listener past its acknowledgement has it in the log, unless the tunnel was shut. */
  ghost predicate AckLogged(proxies: seq<Proxy>, down: L.Link) {
    forall p :: 0 <= p < |proxies| && (proxies[p].pc.Listening? || proxies[p].pc.WaitPermit? || proxies[p].accepted > 0)
      ==> AckIn(down.log, p) || !down.open
  }

  ghost predicate AckBeforeData(log: seq<L.Item>) {
    forall x :: 0 <= x < |log| && log[x].frame.Data? ==> AckIn(log[..x], log[x].frame.dataProxyId)
  }

  ghost predicate AckOrder(s: State) {
    AckLogged(s.proxies, s.down) && AckBeforeData(s.down.log)
  }

  // ---------------------------------------------------------------- towards the services

  function ConnOf(f: Frame): Conn
    requires f.Data?
  {
    Conn(f.dataProxyId, f.connId)
  }

  /** What a read task got is what it queued into the tunnel, what it holds, what it dropped. */
  ghost predicate PortFlow(pt: Port, queued: seq<Bytes>) {
    && pt.got == queued + Pending(pt.rd) + pt.dropped
    && (pt.dropped != [] ==> pt.rd.Finished? || pt.rd.Unrouted? || pt.rd.Gone?)
    && (pt.rd.NotStarted? ==> pt.got == [])
  }

  ghost predicate DownLogOk(exts: map<Conn, Port>, log: seq<L.Item>) {
    forall x :: 0 <= x < |log| ==>
      || log[x].frame.RegisterAck? || IsPong(log[x].frame)
      || (log[x].frame.Data? && ConnOf(log[x].frame) in exts)
  }

  ghost predicate ExtFlow(exts: map<Conn, Port>, log: seq<L.Item>) {
    forall k :: k in exts ==> PortFlow(exts[k], Chunks(To(k), log))
  }

  function Datas(a: seq<Arrival>): seq<Bytes> {
    seq(|a|, i requires 0 <= i < |a| => a[i].data)
  }

  /** The chunk of connection k the client's main loop is busy with. */
  function InHand(cli: CliMain, k: Conn): seq<Bytes> {
    if (cli.CDial? || cli.CSend?) && cli.at == k then [cli.data] else []
  }

  ghost predicate ArriveFlow(delivered: seq<L.Item>, arrived: map<Conn, seq<Arrival>>, cli: CliMain) {
    forall k :: Chunks(To(k), delivered) == Datas(Arrived(arrived, k)) + InHand(cli, k)
  }

  ghost predicate Latest(ints: seq<Internal>, k: Conn, i: nat) {
    && i < |ints| && ints[i].at == k
    && forall j :: i < j < |ints| ==> ints[j].at != k
  }

  function End(it: Internal): nat { it.start + |it.port.w.log| }

  /** Connection i is the newest for k and has been given every frame since it was opened. */
  ghost predicate Current(ints: seq<Internal>, arrived: map<Conn, seq<Arrival>>, k: Conn, i: nat) {
    Latest(ints, k, i) && End(ints[i]) == |Arrived(arrived, k)|
  }

  /** The frames queued to connection i are exactly the arrivals start..End of its stream. */
  ghost predicate SegmentOk(it: Internal, i: nat, arr: seq<Arrival>) {
    && End(it) <= |arr|
    && forall y :: 0 <= y < |it.port.w.log| ==> arr[it.start + y] == Arrival(it.port.w.log[y], ToInternal(i))
  }

  predicate InSegment(ints: seq<Internal>, k: Conn, x: nat, i: nat) {
    i < |ints| && ints[i].at == k && ints[i].start <= x < End(ints[i])
  }

  /** No arrival claims a connection outside that connection's stretch. */
  ghost predicate FatesOk(ints: seq<Internal>, k: Conn, arr: seq<Arrival>) {
    forall x :: 0 <= x < |arr| && arr[x].fate.ToInternal? ==> InSegment(ints, k, x, arr[x].fate.i)
  }

  ghost predicate Apart(ints: seq<Internal>) {
    forall i, j :: 0 <= i < j < |ints| && ints[i].at == ints[j].at ==> End(ints[i]) <= ints[j].start
  }

  ghost predicate SegmentsOk(ints: seq<Internal>, arrived: map<Conn, seq<Arrival>>) {
    && (forall i :: 0 <= i < |ints| ==> SegmentOk(ints[i], i, Arrived(arrived, ints[i].at)))
    && (forall k :: FatesOk(ints, k, Arrived(arrived, k)))
    && Apart(ints)
  }

  ghost predicate IntsOk(config: seq<ClientInfo>, exts: map<Conn, Port>, ints: seq<Internal>) {
    forall i :: 0 <= i < |ints| ==>
      && ints[i].at in exts && W.Inv(ints[i].port.w) && !ints[i].port.rd.NotStarted?
      && ints[i].at.p < |config| && ints[i].addr == config[ints[i].at.p].addr
  }

  ghost predicate ConnsOk(ints: seq<Internal>, conns: map<Conn, nat>, arrived: map<Conn, seq<Arrival>>,
      configs: map<nat, ClientInfo>) {
    forall k :: k in conns ==>
      k.p in configs && Current(ints, arrived, k, conns[k]) && Live(ints[conns[k]].port.rd)
  }

  ghost predicate CliOk(cli: CliMain, exts: map<Conn, Port>, ints: seq<Internal>, conns: map<Conn, nat>,
                        arrived: map<Conn, seq<Arrival>>, configs: map<nat, ClientInfo>) {
    match cli
    case CDial(k, _) => k in exts && k !in conns && k.p in configs
    case CSend(k, i, _) =>
      k in exts && k.p in configs && Current(ints, arrived, k, i) && (k in conns ==> conns[k] == i)
    case CRegSend(_) => ints == [] && conns == map[]
    case CRegWait(_) => ints == [] && conns == map[]
    case _ => true
  }

  ghost predicate Downstream(s: State) {
    && DownLogOk(s.exts, s.down.log)
    && ExtFlow(s.exts, s.down.log)
    && ArriveFlow(s.down.delivered, s.arrived, s.cli)
    && SegmentsOk(s.ints, s.arrived)
    && IntsOk(s.config, s.exts, s.ints)
    && ConnsOk(s.ints, s.conns, s.arrived, s.configs)
    && CliOk(s.cli, s.exts, s.ints, s.conns, s.arrived, s.configs)
  }

  // ---------------------------------------------------------------- back to the users

  ghost predicate UpItemOk(it: L.Item, ints: seq<Internal>) {
    || it.frame.Register? || IsPing(it.frame)
    || (it.frame.Data? && it.origin < |ints| && ConnOf(it.frame) == ints[it.origin].at)
  }

  ghost predicate UpLogOk(ints: seq<Internal>, log: seq<L.Item>) {
    forall x :: 0 <= x < |log| ==> UpItemOk(log[x], ints)
  }

  ghost predicate IntFlow(ints: seq<Internal>, log: seq<L.Item>) {
    forall i :: 0 <= i < |ints| ==> PortFlow(ints[i].port, Chunks(From(i), log))
  }

  function SrvHand(srv: SrvMain, k: Conn): seq<Bytes> {
    if srv.SData? && srv.at == k then [srv.data] else []
  }

  /** What was read for k is what was queued to it, then what was refused, then what is in hand;
      once something was refused, nothing more will be queued. */
  ghost predicate RouteOk(w: W.Writer, read: seq<Bytes>, hand: seq<Bytes>, reachable: bool) {
    && |w.log| + |hand| <= |read|
    && w.log <= read && read[|read| - |hand|..] == hand
    && (|w.log| + |hand| < |read| ==> !(w.open && reachable))
  }

  ghost predicate RouteFlow(srv: SrvMain, routes: set<Conn>, exts: map<Conn, Port>, delivered: seq<L.Item>) {
    forall k :: k in exts ==>
      RouteOk(exts[k].w, Chunks(To(k), delivered), SrvHand(srv, k), ExtSender(srv, routes, k))
  }

  ghost predicate Upstream(s: State) {
    && UpLogOk(s.ints, s.up.log)
    && IntFlow(s.ints, s.up.log)
    && RouteFlow(s.srv, s.routes, s.exts, s.up.delivered)
  }

  // ---------------------------------------------------------------- all of it

  ghost predicate Inv(s: State) {
    && Structure(s) && Registration(s)
    && AckOrder(s) && Downstream(s) && Upstream(s)
  }

  lemma InitStructure(config: seq<ClientInfo>)
    ensures Structure(Init(config))
  {
    hide L.Inv;
    L.FreshInv();
  }

  lemma InitFlows(config: seq<ClientInfo>)
    ensures Downstream(Init(config)) && Upstream(Init(config))
  {
  }

  lemma InitInv(config: seq<ClientInfo>)
    ensures Inv(Init(config))
  {
    hide Structure, Downstream, Upstream;
    InitStructure(config);
    InitFlows(config);
  }
}
