/** Every action keeps the stop-and-wait registration in step on both sides. */
module KeepRegistration {
  import opened Frames
  import opened Decisions
  import opened Tunnel
  import opened Flows
  import opened Invariant
  import L = Link
  import W = Writer

  /** What the peers have read is a prefix of what was queued, so the four counts line up. */
  lemma Counts(s: State)
    requires L.Inv(s.down) && L.Inv(s.up) && Registration(s)
    ensures Regs(s.up.delivered) <= Regs(s.up.log)
    ensures Acks(s.down.delivered) <= Acks(s.down.log)
    ensures s.acked <= |Acks(s.down.delivered)| <= |Acks(s.down.log)| <= |Regs(s.up.delivered)| <= s.sent <= s.acked + 1
  {
    L.DeliveredIsPrefix(s.down);
    L.DeliveredIsPrefix(s.up);
    RegsPrefix(s.up.delivered, s.up.log);
    AcksPrefix(s.down.delivered, s.down.log);
    hide L.Inv, Regs, Acks, ConfigsOk, HandledOk;
  }

  // ---------------------------------------------------------------- server

  /** The next registration the server reads is the client's next one, and the only one open. */
  lemma NextRegister(s: State)
    requires L.Inv(s.down) && L.Inv(s.up) && Registration(s)
    requires s.up.wire != [] && s.up.wire[0].frame.Register?
    ensures var h := |Regs(s.up.delivered)|;
      && Regs(L.Deliver(s.up).delivered) == Regs(s.up.delivered) + [s.up.wire[0].frame]
      && h < s.sent && h == |Acks(s.down.log)|
      && s.up.wire[0].frame.client == BlankClient(s.config[h])
  {
    Counts(s);
    var f := s.up.wire[0];
    L.DeliveredIsPrefix(s.up);
    RegsPush(s.up.delivered, f);
    RegsPrefix(s.up.delivered + [f], s.up.log);
    hide L.Inv, Regs, Acks, ConfigsOk, HandledOk, AcksOk;
    var h := |Regs(s.up.delivered)|;
    assert Regs(s.up.log)[h] == f.frame;
  }

  lemma SpawnStep(config: seq<ClientInfo>, proxies: seq<Proxy>, srv: SrvMain, acks: seq<Frame>, handled: nat, px: Proxy)
    requires HandledOk(config, proxies, handled) && AcksOk(proxies, srv, acks, handled)
    requires |acks| == handled < |config| && |proxies| < MAX_PROXIES && !srv.SReply?
    requires px.client == BlankClient(config[handled]) && px.pc.Starting?
    ensures HandledOk(config, proxies + [px], handled + 1) && AcksOk(proxies + [px], srv, acks, handled + 1)
  {
  }

  lemma RejectStep(config: seq<ClientInfo>, proxies: seq<Proxy>, srv: SrvMain, acks: seq<Frame>, handled: nat,
      reply: Frame)
    requires HandledOk(config, proxies, handled) && AcksOk(proxies, srv, acks, handled)
    requires |acks| == handled < |config| && |proxies| == MAX_PROXIES
    requires reply.RegisterAck? && !reply.success
    ensures HandledOk(config, proxies, handled + 1) && AcksOk(proxies, SReply(reply), acks, handled + 1)
  {
  }

  /** The main loop turns to something that is not a rejection. */
  lemma MainStep(proxies: seq<Proxy>, srv: SrvMain, srv': SrvMain, acks: seq<Frame>, handled: nat)
    requires AcksOk(proxies, srv, acks, handled)
    requires srv'.SReply? ==> IsPong(srv'.reply)
    ensures AcksOk(proxies, srv', acks, handled)
  {
  }

  /** A queued rejection closes the registration it answers. */
  lemma RejectedStep(proxies: seq<Proxy>, srv: SrvMain, acks: seq<Frame>, handled: nat, ack: Frame)
    requires AcksOk(proxies, srv, acks, handled) && |proxies| <= MAX_PROXIES
    requires srv.SReply? && !IsPong(srv.reply) && ack == Blank(srv.reply)
    ensures AcksOk(proxies, SIdle, acks + [ack], handled)
  {
  }

  lemma TakeRegisterKeeps(s: State)
    requires Structure(s) && Registration(s) && s.srv.SIdle? && s.up.wire != [] && s.up.wire[0].frame.Register?
    ensures Registration(TakeUp(s))
  {
    hide Regs, Acks, L.Inv, ExtsOk, PermitsOk, ProxyOk, ClientReg, HandledOk, AcksOk, SrvOk;
    var f := s.up.wire[0].frame;
    var h, acks := |Regs(s.up.delivered)|, Acks(s.down.log);
    NextRegister(s);
    SentBound(s);
    if |s.proxies| < MAX_PROXIES {
      SpawnStep(s.config, s.proxies, s.srv, acks, h, TakeUp(s).proxies[|s.proxies|]);
    } else {
      RejectStep(s.config, s.proxies, s.srv, acks, h, RegisterAck(f.client, false, 0));
    }
  }

  lemma TakeOtherKeeps(s: State)
    requires Structure(s) && Registration(s) && s.srv.SIdle? && s.up.wire != [] && !s.up.wire[0].frame.Register?
    ensures Registration(TakeUp(s))
  {
    hide Regs, Acks, L.Inv, ExtsOk, PermitsOk, ProxiesOk, ClientReg, HandledOk, AcksOk, SrvOk;
    RegsPush(s.up.delivered, s.up.wire[0]);
    MainStep(s.proxies, s.srv, TakeUp(s).srv, Acks(s.down.log), |Regs(s.up.delivered)|);
  }

  lemma SentBound(s: State)
    requires Registration(s)
    ensures s.sent <= |s.config|
  {
    hide Regs, Acks, HandledOk, AcksOk, ConfigsOk;
  }

  lemma ReplyKeeps(s: State)
    requires Structure(s) && Registration(s) && ServerEnabled(s, SReplied)
    ensures Registration(DoServer(s, SReplied))
  {
    hide Regs, Acks, L.Inv, ExtsOk, PermitsOk, ProxyOk, ClientReg, HandledOk, AcksOk, SrvOk;
    var h, acks := |Regs(s.up.delivered)|, Acks(s.down.log);
    AcksPush(s.down.log, L.Strip(L.Item(s.srv.reply, 0)));
    if IsPong(s.srv.reply) {
      MainStep(s.proxies, s.srv, SIdle, acks, h);
    } else {
      ReplyKind(s.proxies, s.srv, acks, h);
      RejectedStep(s.proxies, s.srv, acks, h, Blank(s.srv.reply));
    }
  }

  lemma ReplyKind(proxies: seq<Proxy>, srv: SrvMain, acks: seq<Frame>, handled: nat)
    requires AcksOk(proxies, srv, acks, handled) && srv.SReply?
    ensures IsPong(srv.reply) || srv.reply.RegisterAck?
  {
  }

  lemma ServerKeeps(s: State, a: ServerStep)
    requires Structure(s) && Registration(s) && ServerEnabled(s, a)
    ensures Registration(DoServer(s, a))
  {
    hide Regs, Acks, L.Inv, ExtsOk, PermitsOk, ProxiesOk, ClientReg, HandledOk, AcksOk, SrvOk, TakeUp, W.Push, L.Push;
    if a.STake? {
      if s.up.wire[0].frame.Register? { TakeRegisterKeeps(s); } else { TakeOtherKeeps(s); }
    } else if a.SReplied? {
      ReplyKeeps(s);
    } else {
      MainStep(s.proxies, s.srv, DoServer(s, a).srv, Acks(s.down.log), |Regs(s.up.delivered)|);
    }
  }

  // ---------------------------------------------------------------- listeners

  /** A listener step that queues no acknowledgement leaves the bookkeeping alone. */
  lemma ProxyStep(config: seq<ClientInfo>, proxies: seq<Proxy>, srv: SrvMain, acks: seq<Frame>, handled: nat, p: nat,
      px: Proxy)
    requires HandledOk(config, proxies, handled) && AcksOk(proxies, srv, acks, handled) && p < |proxies|
    requires px.client == proxies[p].client
    requires Outstanding(px.pc) ==> Outstanding(proxies[p].pc)
    requires !Outstanding(proxies[p].pc) ==> px.bound == proxies[p].bound
    ensures HandledOk(config, proxies[p := px], handled) && AcksOk(proxies[p := px], srv, acks, handled)
  {
  }

  lemma AckStep(config: seq<ClientInfo>, proxies: seq<Proxy>, srv: SrvMain, acks: seq<Frame>, handled: nat, p: nat,
      px: Proxy, ack: Frame)
    requires HandledOk(config, proxies, handled) && AcksOk(proxies, srv, acks, handled) && p < |proxies|
    requires Outstanding(proxies[p].pc) && !Outstanding(px.pc) && px.client == proxies[p].client
    requires ack.RegisterAck?
    requires ack.success ==> px.bound && ack.proxyId == p && ack.ackClient == BlankClient(px.client)
    requires |proxies| <= MAX_PROXIES
    ensures HandledOk(config, proxies[p := px], handled) && AcksOk(proxies[p := px], srv, acks + [ack], handled)
  {
  }

  lemma ListenerKeeps(s: State, p: nat, a: ListenerStep)
    requires Structure(s) && Registration(s) && ListenerEnabled(s, p, a)
    ensures Registration(DoListener(s, p, a))
  {
    hide Regs, Acks, L.Inv, ExtsOk, PermitsOk, ClientReg, HandledOk, AcksOk, SrvOk, W.GiveUp, W.Spawn, W.Fresh;
    var px := s.proxies[p];
    assert ProxyOk(px, p);
    var t := DoListener(s, p, a);
    var h, acks := |Regs(s.up.delivered)|, Acks(s.down.log);
    if a.Ack? {
      var it := L.Item(AckFrame(px, px.pc.ok), 0);
      AcksPush(s.down.log, L.Strip(it));
      AckStep(s.config, s.proxies, s.srv, acks, h, p, t.proxies[p], Blank(it.frame));
    } else {
      ProxyStep(s.config, s.proxies, s.srv, acks, h, p, t.proxies[p]);
    }
  }

  lemma ExternalKeeps(s: State, k: Conn, a: PortStep)
    requires Structure(s) && Registration(s) && Enabled(s, External(k, a))
    ensures Registration(DoExternal(s, k, a))
  {
    hide Regs, Acks, L.Inv, ExtsOk, PermitsOk, ProxiesOk, ClientReg, HandledOk, AcksOk, SrvOk, W.Do, W.Enabled,
      ExtSender;
    if a.Release? {
      var px := DoExternal(s, k, a).proxies[k.p];
      ProxyStep(s.config, s.proxies, s.srv, Acks(s.down.log), |Regs(s.up.delivered)|, k.p, px);
    } else if a.Send? {
      AcksPush(s.down.log, L.Strip(Chunk(k, s.exts[k].rd.chunk, 0)));
    }
  }

  // ---------------------------------------------------------------- client

  lemma UpPush(s: State, it: L.Item)
    ensures it.frame.Register? ==> Regs(L.Push(s.up, it).log) == Regs(s.up.log) + [Blank(it.frame)]
    ensures !it.frame.Register? ==> Regs(L.Push(s.up, it).log) == Regs(s.up.log)
  {
    RegsPush(s.up.log, L.Strip(it));
  }

  lemma RegisterKeeps(s: State)
    requires Registration(s) && ClientEnabled(s, CRegister)
    ensures Registration(DoClient(s, CRegister))
  {
    hide Regs, Acks, HandledOk, AcksOk;
    UpPush(s, L.Item(Register(s.config[s.cli.i]), 0));
  }

  /** While registering, the next acknowledgement read is the one awaited. */
  lemma NextAck(s: State)
    requires L.Inv(s.down) && L.Inv(s.up) && Registration(s) && !s.cli.CEnded?
    requires s.down.wire != [] && s.down.wire[0].frame.RegisterAck?
    ensures s.cli.CRegWait?
    ensures Acks(L.Deliver(s.down).delivered) == Acks(s.down.delivered) + [s.down.wire[0].frame]
    ensures s.down.wire[0].frame.success ==>
      s.down.wire[0].frame.proxyId == s.acked && s.acked < |s.proxies| && s.proxies[s.acked].bound
  {
    Counts(s);
    var f := s.down.wire[0];
    L.DeliveredIsPrefix(s.down);
    AcksPush(s.down.delivered, f);
    AcksPrefix(s.down.delivered + [f], s.down.log);
    assert Acks(s.down.log)[|Acks(s.down.delivered)|] == f.frame;
    hide L.Inv, Regs, Acks, ConfigsOk, HandledOk;
  }

  lemma AckedStep(config: seq<ClientInfo>, cli: CliMain, sent: nat, acked: nat, configs: map<nat, ClientInfo>,
                  regs: seq<Frame>, read: seq<Frame>, f: Frame)
    requires ClientReg(config, cli, sent, acked, configs, regs, read)
    requires cli.CRegWait? && f.RegisterAck? && f.success
    ensures cli.i == acked < |config|
    ensures ClientReg(config, RegNext(cli.i + 1, |config|), sent, acked + 1, configs[acked := config[acked]], regs,
      read + [f])
  {
  }

  lemma QuitStep(config: seq<ClientInfo>, cli: CliMain, sent: nat, acked: nat, configs: map<nat, ClientInfo>,
                 regs: seq<Frame>, read: seq<Frame>, read': seq<Frame>)
    requires ClientReg(config, cli, sent, acked, configs, regs, read) && read <= read'
    ensures ClientReg(config, CEnded, sent, acked, configs, regs, read')
  {
  }

  lemma TakeWhileRegisteringKeeps(s: State)
    requires L.Inv(s.down) && L.Inv(s.up) && Registration(s)
    requires s.cli.CRegWait? && s.cli.i < |s.config| && s.down.wire != []
    ensures Registration(TakeWhileRegistering(s))
  {
    hide L.Inv, Regs, Acks, HandledOk, AcksOk, ClientReg, Note;
    var f := s.down.wire[0].frame;
    var regs, read := Regs(s.up.log), Acks(s.down.delivered);
    AcksPush(s.down.delivered, s.down.wire[0]);
    if f.RegisterAck? && f.success {
      NextAck(s);
      AckedStep(s.config, s.cli, s.sent, s.acked, s.configs, regs, read, f);
    } else {
      QuitStep(s.config, s.cli, s.sent, s.acked, s.configs, regs, read, Acks(s.down.delivered + [s.down.wire[0]]));
    }
  }

  lemma TakeDownKeeps(s: State)
    requires L.Inv(s.down) && L.Inv(s.up) && Registration(s)
    requires s.cli.CIdle? && s.down.wire != []
    ensures Registration(TakeDown(s))
  {
    hide L.Inv, Regs, Acks, HandledOk, AcksOk, Note, ConfigsOk;
    AcksPush(s.down.delivered, s.down.wire[0]);
    if s.down.wire[0].frame.RegisterAck? { NextAck(s); assert false; }
  }

  lemma ClientKeeps(s: State, a: ClientStep)
    requires Structure(s) && Registration(s) && ClientEnabled(s, a)
    ensures Registration(DoClient(s, a))
  {
    hide L.Inv, Regs, Acks, HandledOk, AcksOk, Note, ConfigsOk, ExtsOk, PermitsOk, ProxiesOk, SrvOk, L.Shut,
      TakeDown, TakeWhileRegistering, W.Push, W.Fresh;
    if a.CRegister? {
      RegisterKeeps(s);
    } else if a.CTake? {
      if s.cli.CRegWait? { TakeWhileRegisteringKeeps(s); } else { TakeDownKeeps(s); }
    } else {
      if a.CPing? { UpPush(s, L.Item(NewPing(), 0)); }
      ShutLog(s.up);
    }
  }

  lemma ShutLog(l: L.Link)
    ensures L.Shut(l).log == l.log && L.Shut(l).delivered == l.delivered
  {
  }

  lemma InnerKeeps(s: State, i: nat, a: PortStep)
    requires Structure(s) && Registration(s) && Enabled(s, Inner(i, a))
    ensures Registration(DoInner(s, i, a))
  {
    hide Regs, Acks, L.Inv, ExtsOk, PermitsOk, ProxiesOk, ClientReg, HandledOk, AcksOk, SrvOk, W.Do, W.Enabled,
      IntSender;
    if a.Send? { UpPush(s, Chunk(s.ints[i].at, s.ints[i].port.rd.chunk, i)); }
  }

  lemma Keeps(s: State, a: Action)
    requires Structure(s) && Registration(s) && Enabled(s, a)
    ensures Registration(Do(s, a))
  {
    hide Registration, L.Inv, ExtsOk, PermitsOk, ProxiesOk, SrvOk, DoServer, DoListener, DoExternal, DoClient, DoInner;
    match a
    case Server(ss) => ServerKeeps(s, ss);
    case Listener(p, ps) => ListenerKeeps(s, p, ps);
    case External(k, xs) => ExternalKeeps(s, k, xs);
    case Down(ls) => WireKeeps(s, a);
    case Up(ls) => WireKeeps(s, a);
    case Client(cs) => ClientKeeps(s, cs);
    case Inner(i, xs) => InnerKeeps(s, i, xs);
  }

  lemma WireKeeps(s: State, a: Action)
    requires L.Inv(s.down) && L.Inv(s.up) && Registration(s) && Enabled(s, a) && (a.Down? || a.Up?)
    ensures Registration(Do(s, a))
  {
    hide Regs, Acks, L.Inv, ClientReg, HandledOk, AcksOk, L.Do, L.Enabled;
    if a.Down? { L.StepInv(s.down, a.ls); } else { L.StepInv(s.up, a.ls); }
  }
}
