/** Registration seen from both ends: while the tunnel is up every registration the server has
    read is answered exactly once, and what a registering client can read is its own answer or
    early data of a proxy registered before. */
module Answers {
  import opened Frames
  import opened Decisions
  import opened Tunnel
  import opened Flows
  import opened Invariant
  import F = StepFrames
  import L = Link
  import W = Writer
  import T = Theorems
  import H = Heartbeats
  import KR = KeepRegistration
  import R = Refinement

  // ---------------------------------------------------------------- every answer comes

  /** Somebody on the server is about to answer a registration. */
  ghost predicate Due(proxies: seq<Proxy>, srv: SrvMain) {
    || (srv.SReply? && !IsPong(srv.reply))
    || exists p :: 0 <= p < |proxies| && Outstanding(proxies[p].pc)
  }

  ghost predicate Owed(proxies: seq<Proxy>, srv: SrvMain, open: bool, regs: nat, acks: nat) {
    regs > acks ==> Due(proxies, srv) || !open || srv.SEnded?
  }

  ghost predicate Answering(s: State) {
    Owed(s.proxies, s.srv, s.down.open, |Regs(s.up.delivered)|, |Acks(s.down.log)|)
  }

  lemma TakeKeeps(s: State)
    requires Answering(s) && s.srv.SIdle? && s.up.wire != []
    ensures Answering(TakeUp(s))
  {
    hide Regs, Acks;
    var t, it := TakeUp(s), s.up.wire[0];
    RegsPush(s.up.delivered, it);
    if it.frame.Register? {
      if |t.proxies| > |s.proxies| { assert Outstanding(t.proxies[|s.proxies|].pc); }
    } else {
      assert t.proxies == s.proxies;
    }
  }

  lemma ServerKeeps(s: State, a: ServerStep)
    requires Answering(s) && Registration(s) && ServerEnabled(s, a)
    ensures Answering(DoServer(s, a))
  {
    hide Regs, Acks, TakeUp, W.Push, ClientReg, HandledOk;
    match a
    case STake => TakeKeeps(s);
    case SReplied => AcksPush(s.down.log, L.Strip(L.Item(s.srv.reply, 0)));
    case _ =>
  }

  /** A listener's step that leaves its answer due, if it was. */
  lemma StillDue(proxies: seq<Proxy>, srv: SrvMain, p: nat, px: Proxy)
    requires Due(proxies, srv) && p < |proxies|
    requires Outstanding(proxies[p].pc) ==> Outstanding(px.pc)
    ensures Due(proxies[p := px], srv)
  {
    if exists q :: 0 <= q < |proxies| && Outstanding(proxies[q].pc) {
      var q :| 0 <= q < |proxies| && Outstanding(proxies[q].pc);
      assert Outstanding(proxies[p := px][q].pc);
    }
  }

  lemma ListenerKeeps(s: State, p: nat, a: ListenerStep)
    requires Answering(s) && Registration(s) && ListenerEnabled(s, p, a)
    ensures Answering(DoListener(s, p, a))
  {
    hide Regs, Acks, W.GiveUp, W.Spawn, W.Fresh, ClientReg, HandledOk, Due;
    var t := DoListener(s, p, a);
    if a.Ack? {
      AcksPush(s.down.log, L.Strip(L.Item(AckFrame(s.proxies[p], s.proxies[p].pc.ok), 0)));
    } else if Due(s.proxies, s.srv) && !a.AckFail? && !a.Abort? {
      StillDue(s.proxies, s.srv, p, t.proxies[p]);
    }
  }

  lemma ExternalKeeps(s: State, k: Conn, a: PortStep)
    requires Answering(s) && Enabled(s, External(k, a))
    ensures Answering(DoExternal(s, k, a))
  {
    hide Regs, Acks, W.Do, W.Enabled, ExtSender, Due, DoPort;
    if a.Send? {
      AcksPush(s.down.log, L.Strip(Chunk(k, s.exts[k].rd.chunk, 0)));
    } else if a.Release? && Due(s.proxies, s.srv) {
      StillDue(s.proxies, s.srv, k.p, DoExternal(s, k, a).proxies[k.p]);
    }
  }

  lemma Keeps(s: State, a: Action)
    requires Answering(s) && Registration(s) && Enabled(s, a)
    ensures Answering(Do(s, a))
  {
    hide Regs, Acks, DoServer, DoListener, DoExternal, DoClient, L.Do, L.Push, W.Do, W.Enabled, Due, Registration,
      DoPort;
    match a
    case Server(ss) => ServerKeeps(s, ss);
    case Listener(p, ps) => ListenerKeeps(s, p, ps);
    case External(k, xs) => ExternalKeeps(s, k, xs);
    case Down(ls) => F.LinkFrame(s.down, ls);
    case Up(ls) => F.LinkFrame(s.up, ls);
    case Client(cs) => F.ClientFrame(s, cs);
    case Inner(i, xs) => F.InnerFrame(s, i, xs);
  }

  lemma {:induction false} RunKeeps(config: seq<ClientInfo>, run: seq<Action>)
    requires Exec(Init(config), run).Some?
    ensures Answering(Exec(Init(config), run).value)
  {
    hide Do, Enabled, Due, Structure, Registration, AckOrder, Downstream, Upstream;
    if run == [] {
    } else {
      hide Answering;
      var init := run[..|run| - 1];
      RunKeeps(config, init);
      T.Always(config, init, Exec(Init(config), init).value);
      Keeps(Exec(Init(config), init).value, run[|run| - 1]);
    }
  }

  /** In every run, while both the tunnel and the server's loop are up: each registration the
      server has read has exactly one answer queued, but for the last one while it is due. */
  lemma EveryRegisterAnsweredOnce(config: seq<ClientInfo>, run: seq<Action>, s: State)
    requires Reaches(config, run, s) && s.down.open && !s.srv.SEnded?
    ensures |Regs(s.up.delivered)| == |Acks(s.down.log)| + if Due(s.proxies, s.srv) then 1 else 0
  {
    hide Exec, Structure, AckOrder, Downstream, Upstream, ClientReg, HandledOk, Regs, Acks;
    RunKeeps(config, run);
    T.Always(config, run, s);
  }

  // ---------------------------------------------------------------- each answer is to its question

  /** The j-th answer echoes the j-th registration; a success names its id, a rejection names 0. */
  ghost predicate AnswerTo(ack: Frame, reg: Frame, j: nat) {
    && ack.RegisterAck? && reg.Register? && ack.ackClient == reg.client
    && ack.proxyId == if ack.success then j else 0
  }

  /** So does the rejection that the main loop is about to queue. */
  ghost predicate Matching(srv: SrvMain, regs: seq<Frame>, acks: seq<Frame>) {
    && |acks| <= |regs|
    && (forall j :: 0 <= j < |acks| ==> AnswerTo(acks[j], regs[j], j))
    && (srv.SReply? && !IsPong(srv.reply) ==>
          |acks| < |regs| && AnswerTo(Blank(srv.reply), regs[|acks|], |acks|))
  }

  ghost predicate Matched(s: State) { Matching(s.srv, Regs(s.up.delivered), Acks(s.down.log)) }

  lemma OneMoreAnswer(srv: SrvMain, regs: seq<Frame>, acks: seq<Frame>, ack: Frame, srv': SrvMain)
    requires Matching(srv, regs, acks) && |acks| < |regs| && AnswerTo(ack, regs[|acks|], |acks|)
    requires !(srv'.SReply? && !IsPong(srv'.reply))
    ensures Matching(srv', regs, acks + [ack])
  {
    hide AnswerTo;
  }

  lemma OneMoreQuestion(srv: SrvMain, regs: seq<Frame>, acks: seq<Frame>, reg: Frame, srv': SrvMain)
    requires Matching(srv, regs, acks) && |acks| == |regs|
    requires srv'.SReply? && !IsPong(srv'.reply) ==> AnswerTo(Blank(srv'.reply), reg, |acks|)
    ensures Matching(srv', regs + [reg], acks)
  {
    hide AnswerTo;
  }

  lemma NoQuestion(srv: SrvMain, regs: seq<Frame>, acks: seq<Frame>, srv': SrvMain)
    requires Matching(srv, regs, acks) && !(srv'.SReply? && !IsPong(srv'.reply))
    ensures Matching(srv', regs, acks)
  {
    hide AnswerTo;
  }

  lemma TakeMatches(s: State)
    requires Matched(s) && Registration(s) && L.Inv(s.down) && L.Inv(s.up) && s.srv.SIdle? && s.up.wire != []
    ensures Matched(TakeUp(s))
  {
    hide Regs, Acks, L.Inv, ClientReg, HandledOk, AcksOk, Matching;
    var it, t := s.up.wire[0], TakeUp(s);
    RegsPush(s.up.delivered, it);
    if it.frame.Register? {
      KR.NextRegister(s);
      OneMoreQuestion(s.srv, Regs(s.up.delivered), Acks(s.down.log), it.frame, t.srv);
    } else {
      NoQuestion(s.srv, Regs(s.up.delivered), Acks(s.down.log), t.srv);
    }
  }

  lemma ServerMatches(s: State, a: ServerStep)
    requires Matched(s) && Registration(s) && L.Inv(s.down) && L.Inv(s.up) && ServerEnabled(s, a)
    ensures Matched(DoServer(s, a))
  {
    hide Regs, Acks, L.Inv, Registration, AnswerTo, TakeUp, W.Push;
    match a
    case STake => TakeMatches(s);
    case SReplied => AcksPush(s.down.log, L.Strip(L.Item(s.srv.reply, 0)));
    case _ =>
  }

  /** The listener that acknowledges is the last one, and answers the last registration. */
  lemma AckMatches(s: State, p: nat)
    requires Matched(s) && Registration(s) && L.Inv(s.down) && L.Inv(s.up) && ProxiesOk(s.proxies, s.nextProxyId)
    requires ListenerEnabled(s, p, Ack)
    ensures Matched(DoListener(s, p, Ack))
  {
    hide Regs, Acks, L.Inv, Matching, ConfigsOk;
    var px := s.proxies[p];
    var ack := L.Strip(L.Item(AckFrame(px, px.pc.ok), 0));
    assert ProxyOk(px, p) && Outstanding(px.pc);
    AcksPush(s.down.log, ack);
    KR.Counts(s);
    assert Regs(s.up.delivered)[p] == Regs(s.up.log)[p];
    assert AnswerTo(ack.frame, Regs(s.up.delivered)[p], p);
    OneMoreAnswer(s.srv, Regs(s.up.delivered), Acks(s.down.log), ack.frame, s.srv);
  }

  lemma ListenerMatches(s: State, p: nat, a: ListenerStep)
    requires Matched(s) && Registration(s) && L.Inv(s.down) && L.Inv(s.up) && ProxiesOk(s.proxies, s.nextProxyId)
    requires ListenerEnabled(s, p, a)
    ensures Matched(DoListener(s, p, a))
  {
    hide Regs, Acks, L.Inv, Registration, ProxiesOk, Matching, PortFree, W.GiveUp, W.Spawn, W.Fresh;
    if a.Ack? {
      AckMatches(s, p);
    } else {
      F.ListenerFrame(s, p, a);
    }
  }

  lemma ExternalMatches(s: State, k: Conn, a: PortStep)
    requires Matched(s) && Enabled(s, External(k, a))
    ensures Matched(DoExternal(s, k, a))
  {
    hide Regs, Acks, Matching, W.Do, W.Enabled, ExtSender, DoPort;
    if a.Send? { AcksPush(s.down.log, L.Strip(Chunk(k, s.exts[k].rd.chunk, 0))); }
  }

  lemma MatchesStep(s: State, a: Action)
    requires Matched(s) && Registration(s) && L.Inv(s.down) && L.Inv(s.up) && ProxiesOk(s.proxies, s.nextProxyId)
    requires Enabled(s, a)
    ensures Matched(Do(s, a))
  {
    hide Regs, Acks, L.Inv, Registration, ProxiesOk, Matching;
    hide DoServer, DoListener, DoExternal, DoClient, DoInner, L.Do;
    match a
    case Server(ss) => ServerMatches(s, ss);
    case Listener(p, ps) => ListenerMatches(s, p, ps);
    case External(k, xs) => ExternalMatches(s, k, xs);
    case Down(ls) => F.LinkFrame(s.down, ls);
    case Up(ls) => F.LinkFrame(s.up, ls);
    case Client(cs) => F.ClientFrame(s, cs);
    case Inner(i, xs) => F.InnerFrame(s, i, xs);
  }

  lemma {:induction false} RunMatches(config: seq<ClientInfo>, run: seq<Action>)
    requires Exec(Init(config), run).Some?
    ensures Matched(Exec(Init(config), run).value)
  {
    hide Do, Enabled, L.Inv, ProxiesOk, ExtsOk, PermitsOk, SrvOk, Registration, AckOrder, Downstream, Upstream;
    if run == [] {
    } else {
      hide Matched;
      var init := run[..|run| - 1];
      RunMatches(config, init);
      T.Always(config, init, Exec(Init(config), init).value);
      MatchesStep(Exec(Init(config), init).value, run[|run| - 1]);
    }
  }

  /** In every run the j-th answer the server ever queued echoes the j-th registration it read: a
      success names proxy j, a rejection names 0. */
  lemma AnswersMatch(config: seq<ClientInfo>, run: seq<Action>, s: State, j: nat)
    requires Reaches(config, run, s) && j < |Acks(s.down.log)|
    ensures j < |Regs(s.up.delivered)|
    ensures var ack, reg := Acks(s.down.log)[j], Regs(s.up.delivered)[j];
      && ack.RegisterAck? && reg.Register? && ack.ackClient == reg.client
      && ack.proxyId == if ack.success then j else 0
  {
    hide Exec, Regs, Acks;
    RunMatches(config, run);
  }

  // ---------------------------------------------------------------- what a client can read

  ghost predicate NoPing(log: seq<L.Item>) { forall x :: 0 <= x < |log| ==> !IsPing(log[x].frame) }

  /** No heartbeat before the forwarding phase. */
  ghost predicate Silent(s: State) { R.Registering(s.cli) ==> NoPing(s.up.log) }

  lemma NoPingPush(log: seq<L.Item>, it: L.Item)
    requires NoPing(log) && !IsPing(it.frame)
    ensures NoPing(log + [it])
  {
  }

  lemma SilentClient(s: State, a: ClientStep)
    requires Silent(s) && ClientEnabled(s, a)
    ensures Silent(DoClient(s, a))
  {
    hide NoPing, Note, W.Push, W.Fresh, ClientDecide;
    if a.CRegister? { NoPingPush(s.up.log, L.Strip(L.Item(Register(s.config[s.cli.i]), 0))); }
  }

  lemma SilentInner(s: State, i: nat, a: PortStep)
    requires Silent(s) && Enabled(s, Inner(i, a))
    ensures Silent(DoInner(s, i, a))
  {
    hide NoPing, W.Do, W.Enabled, DoPort;
    if a.Send? && R.Registering(s.cli) {
      NoPingPush(s.up.log, L.Strip(Chunk(s.ints[i].at, s.ints[i].port.rd.chunk, i)));
    }
  }

  lemma SilentStep(s: State, a: Action)
    requires Silent(s) && Enabled(s, a)
    ensures Silent(Do(s, a))
  {
    hide NoPing, DoServer, DoListener, DoExternal, DoClient, DoInner, L.Do;
    match a
    case Server(ss) => F.ServerFrame(s, ss);
    case Listener(p, ps) => F.ListenerFrame(s, p, ps);
    case External(k, xs) => F.ExternalFrame(s, k, xs);
    case Down(ls) =>
    case Up(ls) => F.LinkFrame(s.up, ls);
    case Client(cs) => SilentClient(s, cs);
    case Inner(i, xs) => SilentInner(s, i, xs);
  }

  lemma {:induction false} AlwaysSilent(config: seq<ClientInfo>, run: seq<Action>)
    requires Exec(Init(config), run).Some?
    ensures Silent(Exec(Init(config), run).value)
  {
    hide Do, Enabled;
    if run == [] {
    } else {
      hide Silent;
      AlwaysSilent(config, run[..|run| - 1]);
      SilentStep(Exec(Init(config), run[..|run| - 1]).value, run[|run| - 1]);
    }
  }

  lemma {:induction false} NoPings(log: seq<L.Item>, n: nat)
    requires NoPing(log) && n <= |log|
    ensures H.Pings(log[..n]) == 0
  {
    if n == 0 {
    } else {
      NoPings(log, n - 1);
      assert log[..n] == log[..n - 1] + [log[n - 1]];
      H.PingsPush(log[..n - 1], log[n - 1]);
    }
  }

  lemma {:induction false} NoPongs(log: seq<L.Item>, x: nat)
    requires H.Pongs(log) == 0 && x < |log|
    ensures !IsPong(log[x].frame)
  {
    if x == |log| - 1 {
    } else {
      NoPongs(log[..|log| - 1], x);
    }
  }

  /** Nothing has been answered to heartbeats before the forwarding phase. */
  lemma NoPongYet(config: seq<ClientInfo>, run: seq<Action>, s: State, x: nat)
    requires Reaches(config, run, s) && R.Registering(s.cli) && x < |s.down.log|
    ensures !IsPong(s.down.log[x].frame)
  {
    hide Exec, Structure, Registration, AckOrder, Downstream, Upstream, L.Inv;
    AlwaysSilent(config, run);
    T.Always(config, run, s);
    assert L.Inv(s.up) by { Links(s); }
    L.DeliveredIsPrefix(s.up);
    NoPings(s.up.log, |s.up.delivered|);
    assert s.up.log[..|s.up.delivered|] == s.up.delivered;
    H.EveryPingAnsweredOnce(config, run, s);
    NoPongs(s.down.log, x);
  }

  lemma Links(s: State)
    requires Structure(s)
    ensures L.Inv(s.down) && L.Inv(s.up)
  {
  }

  /** An acknowledgement in the log is in the list of acknowledgements. */
  lemma {:induction false} AckIsListed(log: seq<L.Item>, p: nat) returns (j: nat)
    requires AckIn(log, p)
    ensures j < |Acks(log)| && Acks(log)[j].RegisterAck? && Acks(log)[j].success && Acks(log)[j].proxyId == p
  {
    var n := |log| - 1;
    if AckOf(log[n], p) {
      j := |Acks(log[..n])|;
    } else {
      var y :| 0 <= y < |log| && AckOf(log[y], p);
      assert AckOf(log[..n][y], p);
      j := AckIsListed(log[..n], p);
    }
  }

  /** Early data is of a proxy whose success the client has already read. */
  lemma EarlyData(s: State)
    requires Inv(s) && s.cli.CRegWait? && s.down.wire != [] && s.down.wire[0].frame.Data?
    ensures s.down.wire[0].frame.dataProxyId < s.cli.i
  {
    hide Structure, AckLogged, AckIn, Downstream, Upstream, Acks, Regs, L.Inv, HandledOk, ConfigsOk;
    Links(s);
    var d := s.down;
    T.FrameLogged(d);
    L.DeliveredIsPrefix(d);
    assert d.log[..|d.delivered|] == d.delivered;
    var p := d.wire[0].frame.dataProxyId;
    assert AckIn(d.delivered, p);
    var j := AckIsListed(d.delivered, p);
    AcksPrefix(d.delivered, d.log);
    assert Acks(d.log)[j] == Acks(d.delivered)[j];
  }

  /** In every run, what a client waiting for the answer to its i-th registration reads next is
      that answer, naming id i if it is a success, or data of a proxy before the i-th: the one
      surprise that makes it give up. The first registration can have none. */
  lemma RegistrationAnswers(config: seq<ClientInfo>, run: seq<Action>, s: State)
    requires Reaches(config, run, s) && s.cli.CRegWait? && s.down.wire != []
    ensures var f := s.down.wire[0].frame;
      || (f.RegisterAck? && (f.success ==> f.proxyId == s.cli.i && s.cli.i < |s.proxies| && s.proxies[s.cli.i].bound))
      || (f.Data? && f.dataProxyId < s.cli.i)
  {
    hide Exec, Upstream, AckOrder, Structure, ExtFlow, ArriveFlow, SegmentsOk, ConnsOk, CliOk, IntsOk, Regs, Acks,
      HandledOk, AcksOk, ConfigsOk, L.Inv;
    T.Always(config, run, s);
    Links(s);
    T.FrameLogged(s.down);
    NoPongYet(config, run, s, |s.down.delivered|);
    if s.down.wire[0].frame.Data? { EarlyData(s); }
    if s.down.wire[0].frame.RegisterAck? { KR.NextAck(s); }
  }
}
