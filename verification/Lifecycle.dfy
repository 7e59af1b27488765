/** When tasks, loops and channels come to their end, step by step: a read task goes on as long as
    its socket and the tunnel do, and nothing is closed while somebody may still use it. */
module Lifecycle {
  import opened Frames
  import opened Decisions
  import opened Tunnel
  import opened Invariant
  import F = StepFrames
  import T = Theorems
  import KD = KeepDownstream
  import KS = KeepStructure
  import L = Link
  import W = Writer

  // ---------------------------------------------------------------- read tasks

  /** One step of a read task, or none: it reads a chunk; it queues the chunk and reads on; it gives
      up because the tunnel is closed; its socket ends; it cleans up; it is gone. */
  ghost predicate ReaderMove(pt: Port, pt': Port, tunnel: L.Link, log: seq<L.Item>, k: Conn, origin: nat) {
    match (pt.rd, pt'.rd)
    case (Reading, Sending(c)) => c != [] && pt'.got == pt.got + [c] && pt'.dropped == pt.dropped
    case (Sending(c), Reading) =>
      tunnel.open && log == tunnel.log + [Chunk(k, c, origin)] && pt'.got == pt.got && pt'.dropped == pt.dropped
    case (Sending(c), Finished) => !tunnel.open && pt'.got == pt.got && pt'.dropped == pt.dropped + [c]
    case (Reading, Finished) => pt'.got == pt.got && pt'.dropped == pt.dropped
    case (Finished, Unrouted) => pt'.got == pt.got && pt'.dropped == pt.dropped
    case (Unrouted, Gone) => pt'.got == pt.got && pt'.dropped == pt.dropped
    case (NotStarted, Reading) => pt'.got == pt.got == [] && pt'.dropped == pt.dropped
    case _ => pt'.rd == pt.rd && pt'.got == pt.got && pt'.dropped == pt.dropped
  }

  /** It leaves its loop only at the end of its socket or because the tunnel is closed. */
  ghost predicate EndsFor(pt: Port, pt': Port, tunnel: L.Link, isEof: bool, isSendFail: bool) {
    pt'.rd.Finished? && !pt.rd.Finished? ==> isEof || (isSendFail && !tunnel.open)
  }

  ghost predicate ExtMoves(s: State, a: Action, t: State) {
    forall k :: k in s.exts ==>
      && k in t.exts
      && ReaderMove(s.exts[k], t.exts[k], s.down, t.down.log, k, 0)
      && EndsFor(s.exts[k], t.exts[k], s.down, a == External(k, Eof), a == External(k, SendFail))
  }

  ghost predicate IntMoves(s: State, a: Action, t: State) {
    && |s.ints| <= |t.ints|
    && forall i :: 0 <= i < |s.ints| ==>
         && ReaderMove(s.ints[i].port, t.ints[i].port, s.up, t.up.log, s.ints[i].at, i)
         && EndsFor(s.ints[i].port, t.ints[i].port, s.up, a == Inner(i, Eof), a == Inner(i, SendFail))
  }

  lemma PortMoves(pt: Port, a: PortStep, tunnel: L.Link, senders: bool, k: Conn, origin: nat)
    requires PortEnabled(pt, a, tunnel, senders)
    ensures var pt' := DoPort(pt, a, tunnel, senders);
      var log := if a.Send? then tunnel.log + [Chunk(k, pt.rd.chunk, origin)] else tunnel.log;
      ReaderMove(pt, pt', tunnel, log, k, origin) && EndsFor(pt, pt', tunnel, a.Eof?, a.SendFail?)
  {
    hide W.Do, W.Enabled;
  }

  lemma NoMove(pt: Port, w: W.Writer, tunnel: L.Link, log: seq<L.Item>, k: Conn, origin: nat)
    ensures ReaderMove(pt, pt.(w := w), tunnel, log, k, origin) && EndsFor(pt, pt.(w := w), tunnel, false, false)
  {
  }

  /** Only the write task of one connection is concerned, or none. */
  lemma ExtsStay(s: State, a: Action, t: State)
    requires forall k :: k in s.exts ==> k in t.exts && t.exts[k] == s.exts[k].(w := t.exts[k].w)
    ensures ExtMoves(s, a, t)
  {
    hide ReaderMove, EndsFor;
    forall k | k in s.exts
      ensures ReaderMove(s.exts[k], t.exts[k], s.down, t.down.log, k, 0)
      ensures EndsFor(s.exts[k], t.exts[k], s.down, a == External(k, Eof), a == External(k, SendFail))
    {
      NoMove(s.exts[k], t.exts[k].w, s.down, t.down.log, k, 0);
      StaysEnds(s.exts[k], t.exts[k].w, s.down, a == External(k, Eof), a == External(k, SendFail));
    }
  }

  lemma StaysEnds(pt: Port, w: W.Writer, tunnel: L.Link, x: bool, y: bool)
    ensures EndsFor(pt, pt.(w := w), tunnel, x, y)
  {
  }

  lemma IntsStay(s: State, a: Action, t: State)
    requires |s.ints| <= |t.ints|
    requires forall i :: 0 <= i < |s.ints| ==> t.ints[i].port == s.ints[i].port.(w := t.ints[i].port.w)
    ensures IntMoves(s, a, t)
  {
    hide ReaderMove, EndsFor;
    forall i | 0 <= i < |s.ints|
      ensures ReaderMove(s.ints[i].port, t.ints[i].port, s.up, t.up.log, s.ints[i].at, i)
      ensures EndsFor(s.ints[i].port, t.ints[i].port, s.up, a == Inner(i, Eof), a == Inner(i, SendFail))
    {
      NoMove(s.ints[i].port, t.ints[i].port.w, s.up, t.up.log, s.ints[i].at, i);
      StaysEnds(s.ints[i].port, t.ints[i].port.w, s.up, a == Inner(i, Eof), a == Inner(i, SendFail));
    }
  }

  lemma ServerMoves(s: State, a: ServerStep)
    requires ServerEnabled(s, a)
    ensures ExtMoves(s, Server(a), DoServer(s, a)) && IntMoves(s, Server(a), DoServer(s, a))
  {
    hide ExtMoves, IntMoves, ServerDecide, AwaitAfter, L.Push, L.Deliver, W.Push;
    F.ServerFrame(s, a);
    ExtsStay(s, Server(a), DoServer(s, a));
    IntsStay(s, Server(a), DoServer(s, a));
  }

  /** The waiting connection's read task starts when its permit is granted. */
  lemma PermitMoves(s: State, p: nat)
    requires Structure(s) && Downstream(s) && ListenerEnabled(s, p, Permit)
    ensures ExtMoves(s, Listener(p, Permit), DoListener(s, p, Permit))
  {
    hide L.Inv, PermitsOk, SrvOk, W.Inv, DownLogOk, ArriveFlow, SegmentsOk, IntsOk, ConnsOk, CliOk;
    var k, t := Waiting(s.proxies[p]), DoListener(s, p, Permit);
    assert ProxyOk(s.proxies[p], p);
    KS.WaitingIsLast(s.proxies, p, k, s.exts[k]);
    assert s.exts[k].got == [] by { NothingYet(s, k); }
    forall j | j in s.exts
      ensures ReaderMove(s.exts[j], t.exts[j], s.down, t.down.log, j, 0)
      ensures EndsFor(s.exts[j], t.exts[j], s.down, false, false)
    {
      if j != k { NoMove(s.exts[j], s.exts[j].w, s.down, t.down.log, j, 0); }
    }
  }

  lemma NothingYet(s: State, k: Conn)
    requires ExtFlow(s.exts, s.down.log) && k in s.exts && s.exts[k].rd.NotStarted?
    ensures s.exts[k].got == []
  {
  }

  lemma ListenerMoves(s: State, p: nat, a: ListenerStep)
    requires Structure(s) && Downstream(s) && ListenerEnabled(s, p, a)
    ensures ExtMoves(s, Listener(p, a), DoListener(s, p, a)) && IntMoves(s, Listener(p, a), DoListener(s, p, a))
  {
    hide ExtMoves, IntMoves, Structure, Downstream, PortFree, L.Push, W.Fresh;
    F.ListenerFrame(s, p, a);
    IntsStay(s, Listener(p, a), DoListener(s, p, a));
    if a.Permit? {
      PermitMoves(s, p);
    } else {
      if a.Accept? { KD.AcceptFresh(s, p); }
      ExtsStay(s, Listener(p, a), DoListener(s, p, a));
    }
  }

  lemma ExternalMoves(s: State, k: Conn, a: PortStep)
    requires Enabled(s, External(k, a))
    ensures ExtMoves(s, External(k, a), DoExternal(s, k, a)) && IntMoves(s, External(k, a), DoExternal(s, k, a))
  {
    hide IntMoves, ReaderMove, EndsFor, DoPort, W.Do, W.Enabled, ExtSender;
    var t := DoExternal(s, k, a);
    F.ExternalFrame(s, k, a);
    IntsStay(s, External(k, a), t);
    PortMoves(s.exts[k], a, s.down, ExtSender(s.srv, s.routes, k), k, 0);
    assert t.down.log == if a.Send? then s.down.log + [Chunk(k, s.exts[k].rd.chunk, 0)] else s.down.log;
    forall j | j in s.exts
      ensures ReaderMove(s.exts[j], t.exts[j], s.down, t.down.log, j, 0)
      ensures EndsFor(s.exts[j], t.exts[j], s.down, j == k && a.Eof?, j == k && a.SendFail?)
    {
      if j != k { NoMove(s.exts[j], s.exts[j].w, s.down, t.down.log, j, 0); }
    }
  }

  lemma ClientMoves(s: State, a: ClientStep)
    requires ClientEnabled(s, a)
    ensures ExtMoves(s, Client(a), DoClient(s, a)) && IntMoves(s, Client(a), DoClient(s, a))
  {
    hide ExtMoves, IntMoves, L.Push, L.Deliver, L.Shut, Note, W.Push, W.Fresh, ClientDecide, AwaitClient;
    F.ClientFrame(s, a);
    ExtsStay(s, Client(a), DoClient(s, a));
    IntsStay(s, Client(a), DoClient(s, a));
  }

  lemma InnerMoves(s: State, i: nat, a: PortStep)
    requires Enabled(s, Inner(i, a))
    ensures ExtMoves(s, Inner(i, a), DoInner(s, i, a)) && IntMoves(s, Inner(i, a), DoInner(s, i, a))
  {
    hide ExtMoves, ReaderMove, EndsFor, DoPort, W.Do, W.Enabled, IntSender;
    var t := DoInner(s, i, a);
    F.InnerFrame(s, i, a);
    ExtsStay(s, Inner(i, a), t);
    PortMoves(s.ints[i].port, a, s.up, IntSender(s, i), s.ints[i].at, i);
    assert t.up.log == if a.Send? then s.up.log + [Chunk(s.ints[i].at, s.ints[i].port.rd.chunk, i)] else s.up.log;
    forall j | 0 <= j < |s.ints|
      ensures ReaderMove(s.ints[j].port, t.ints[j].port, s.up, t.up.log, s.ints[j].at, j)
      ensures EndsFor(s.ints[j].port, t.ints[j].port, s.up, j == i && a.Eof?, j == i && a.SendFail?)
    {
      if j != i { NoMove(s.ints[j].port, s.ints[j].port.w, s.up, t.up.log, s.ints[j].at, j); }
    }
  }

  /** In every run, every step moves each read task on either side as its loop does: it reads on
      after every chunk it could queue, and leaves only at the end of its socket or because the
      tunnel is closed. */
  lemma ReadersGoOn(config: seq<ClientInfo>, run: seq<Action>, s: State, a: Action)
    requires Reaches(config, run, s) && Enabled(s, a)
    ensures ExtMoves(s, a, Do(s, a)) && IntMoves(s, a, Do(s, a))
  {
    hide Exec, Structure, Registration, AckOrder, Downstream, Upstream, ExtMoves, IntMoves;
    hide DoServer, DoListener, DoExternal, DoClient, DoInner, L.Do;
    T.Always(config, run, s);
    match a
    case Server(ss) => ServerMoves(s, ss);
    case Listener(p, ps) => ListenerMoves(s, p, ps);
    case External(k, xs) => ExternalMoves(s, k, xs);
    case Down(ls) => ExtsStay(s, a, Do(s, a)); IntsStay(s, a, Do(s, a));
    case Up(ls) => ExtsStay(s, a, Do(s, a)); IntsStay(s, a, Do(s, a));
    case Client(cs) => ClientMoves(s, cs);
    case Inner(i, xs) => InnerMoves(s, i, xs);
  }

  // ---------------------------------------------------------------- main loops

  /** Either main loop ends only when it is stopped between frames, the server's also when it cannot
      queue a pong, the client's also when its answer is no success. */
  ghost predicate LoopsEnd(s: State, a: Action, t: State) {
    && (t.srv.SEnded? && !s.srv.SEnded? ==>
          a == Server(SStop) || (a == Server(SReplyFail) && s.srv.SReply? && IsPong(s.srv.reply) && !s.down.open))
    && (t.cli.CEnded? && !s.cli.CEnded? ==>
          || a == Client(CStop)
          || (a == Client(CTake) && s.cli.CRegWait? && s.down.wire != []
              && !(s.down.wire[0].frame.RegisterAck? && s.down.wire[0].frame.success)))
    && (s.srv.SEnded? ==> t.srv.SEnded?) && (s.cli.CEnded? ==> t.cli.CEnded?)
  }

  lemma ServerLoops(s: State, a: ServerStep)
    requires ServerEnabled(s, a)
    ensures LoopsEnd(s, Server(a), DoServer(s, a))
  {
    hide L.Push, L.Deliver, W.Push;
    F.ServerFrame(s, a);
  }

  lemma ClientLoops(s: State, a: ClientStep)
    requires ClientEnabled(s, a)
    ensures LoopsEnd(s, Client(a), DoClient(s, a))
  {
    hide L.Push, L.Deliver, L.Shut, Note, W.Push, W.Fresh;
    F.ClientFrame(s, a);
  }

  lemma LoopsGoOn(s: State, a: Action)
    requires Enabled(s, a)
    ensures LoopsEnd(s, a, Do(s, a))
  {
    hide DoServer, DoListener, DoExternal, DoClient, DoInner, L.Do;
    match a
    case Server(ss) => ServerLoops(s, ss);
    case Listener(p, ps) => F.ListenerFrame(s, p, ps);
    case External(k, xs) => F.ExternalFrame(s, k, xs);
    case Down(ls) =>
    case Up(ls) =>
    case Client(cs) => ClientLoops(s, cs);
    case Inner(i, xs) => F.InnerFrame(s, i, xs);
  }

  // ---------------------------------------------------------------- channels

  /** A connection's write task sees its channel closed exactly when it has drained it and neither
      the table nor the main loop has a sender of it any more. */
  lemma ChannelClosesExactly(s: State, k: Conn, i: nat)
    ensures Enabled(s, External(k, Write(W.Close))) <==>
      && k in s.exts && k.p < |s.proxies| && s.exts[k].w.pc.Recv? && s.exts[k].w.queue == []
      && k !in s.routes && !(s.srv.SData? && s.srv.at == k)
    ensures Enabled(s, Inner(i, Write(W.Close))) <==>
      && i < |s.ints| && s.ints[i].port.w.pc.Recv? && s.ints[i].port.w.queue == []
      && (s.ints[i].at !in s.conns || s.conns[s.ints[i].at] != i) && !(s.cli.CSend? && s.cli.to == i)
  {
  }

  /** An encoder ends of its own accord exactly when its queue is drained and its main loop, its
      listeners and every read task that could queue a frame are over. */
  lemma EncoderClosesExactly(s: State)
    ensures Enabled(s, Down(L.Close)) <==>
      && s.down.open && s.down.queue == [] && s.down.hand == [] && s.srv.SEnded?
      && (forall p :: 0 <= p < |s.proxies| ==> s.proxies[p].pc.Ended?)
      && (forall k :: k in s.exts ==> s.exts[k].rd.NotStarted? || s.exts[k].rd.Gone?)
    ensures Enabled(s, Up(L.Close)) <==>
      && s.up.open && s.up.queue == [] && s.up.hand == [] && s.cli.CEnded?
      && (forall i :: 0 <= i < |s.ints| ==> s.ints[i].port.rd.NotStarted? || s.ints[i].port.rd.Gone?)
  {
  }

  /** Either queue is closed only by its encoder's end, and the client's also when a forwarding
      client stops, which aborts the encoder. */
  ghost predicate LinksClose(s: State, a: Action, t: State) {
    && (s.down.open && !t.down.open ==> a == Down(L.Fail) || a == Down(L.Close))
    && (s.up.open && !t.up.open ==> a == Up(L.Fail) || a == Up(L.Close) || (a == Client(CStop) && s.cli.CIdle?))
    && (a == Client(CStop) && s.cli.CIdle? ==> !t.up.open)
    && (a == Down(L.Fail) || a == Down(L.Close) ==> !t.down.open)
    && (a == Up(L.Fail) || a == Up(L.Close) ==> !t.up.open)
    && (!s.down.open ==> !t.down.open) && (!s.up.open ==> !t.up.open)
  }

  lemma LinksStayOpen(s: State, a: Action)
    requires Enabled(s, a)
    ensures LinksClose(s, a, Do(s, a))
  {
    hide DoServer, DoListener, DoExternal, DoClient, DoInner;
    match a
    case Server(ss) => ServerLinks(s, ss);
    case Listener(p, ps) => ListenerLinks(s, p, ps);
    case External(k, xs) => ExternalLinks(s, k, xs);
    case Down(ls) =>
    case Up(ls) =>
    case Client(cs) => ClientLinks(s, cs);
    case Inner(i, xs) => InnerLinks(s, i, xs);
  }

  lemma ServerLinks(s: State, a: ServerStep)
    requires ServerEnabled(s, a)
    ensures DoServer(s, a).down.open == s.down.open && DoServer(s, a).up.open == s.up.open
  {
    hide ServerDecide, AwaitAfter, W.Push;
  }

  lemma ListenerLinks(s: State, p: nat, a: ListenerStep)
    requires ListenerEnabled(s, p, a)
    ensures DoListener(s, p, a).down.open == s.down.open && DoListener(s, p, a).up.open == s.up.open
  {
    hide W.GiveUp, W.Spawn, W.Fresh, PortFree;
  }

  lemma ExternalLinks(s: State, k: Conn, a: PortStep)
    requires Enabled(s, External(k, a))
    ensures DoExternal(s, k, a).down.open == s.down.open && DoExternal(s, k, a).up.open == s.up.open
  {
    hide W.Do, W.Enabled, DoPort, ExtSender;
  }

  lemma ClientLinks(s: State, a: ClientStep)
    requires ClientEnabled(s, a)
    ensures DoClient(s, a).down.open == s.down.open
    ensures DoClient(s, a).up.open == (s.up.open && !(a.CStop? && s.cli.CIdle?))
  {
    hide Note, W.Push, W.Fresh, ClientDecide, AwaitClient;
  }

  lemma InnerLinks(s: State, i: nat, a: PortStep)
    requires Enabled(s, Inner(i, a))
    ensures DoInner(s, i, a).down.open == s.down.open && DoInner(s, i, a).up.open == s.up.open
  {
    hide W.Do, W.Enabled, DoPort, IntSender;
  }
}
