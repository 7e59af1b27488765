/** Every action keeps the accounting of the stream from the users to the services. */
module KeepDownstream {
  import opened Seqs
  import opened Frames
  import opened Decisions
  import opened Tunnel
  import opened Flows
  import opened Invariant
  import L = Link
  import W = Writer
  import R = KeepRegistration

  // ---------------------------------------------------------------- the users' end

  /** A read task's own step, with what it queues into the tunnel. */
  lemma PortFlowStep(pt: Port, a: PortStep, tunnel: L.Link, senders: bool, queued: seq<Bytes>)
    requires PortFlow(pt, queued) && PortEnabled(pt, a, tunnel, senders)
    ensures PortFlow(DoPort(pt, a, tunnel, senders), if a.Send? then queued + [pt.rd.chunk] else queued)
  {
    hide W.Do, W.Enabled;
    if a.Read? {
      assert pt.dropped == [];
      assert queued + [] + [] + [a.chunk] == queued + [a.chunk] + [];
    } else if a.SendFail? {
      assert queued + [pt.rd.chunk] + [] == queued + [] + ([] + [pt.rd.chunk]);
    }
  }

  lemma ExtFlowPort(exts: map<Conn, Port>, log: seq<L.Item>, k: Conn, pt: Port)
    requires ExtFlow(exts, log) && PortFlow(pt, Chunks(To(k), log))
    ensures ExtFlow(exts[k := pt], log)
  {
    hide PortFlow, Chunks;
  }

  /** A frame that is not data is queued. */
  lemma ExtFlowOther(exts: map<Conn, Port>, log: seq<L.Item>, it: L.Item)
    requires ExtFlow(exts, log) && DownLogOk(exts, log) && (it.frame.RegisterAck? || IsPong(it.frame))
    ensures ExtFlow(exts, log + [it]) && DownLogOk(exts, log + [it])
  {
    hide PortFlow, Chunks;
    forall k | k in exts ensures PortFlow(exts[k], Chunks(To(k), log + [it])) { ChunksPush(To(k), log, it); }
  }

  lemma ExtFlowSend(exts: map<Conn, Port>, log: seq<L.Item>, k: Conn, pt: Port, data: Bytes)
    requires ExtFlow(exts, log) && DownLogOk(exts, log) && k in exts
    requires PortFlow(pt, Chunks(To(k), log) + [data])
    ensures ExtFlow(exts[k := pt], log + [Chunk(k, data, 0)]) && DownLogOk(exts[k := pt], log + [Chunk(k, data, 0)])
  {
    hide PortFlow, Chunks;
    var it := Chunk(k, data, 0);
    forall j | j in exts[k := pt] ensures PortFlow(exts[k := pt][j], Chunks(To(j), log + [it])) {
      ChunksPush(To(j), log, it);
    }
  }

  lemma ExtFlowAccept(exts: map<Conn, Port>, log: seq<L.Item>, k: Conn)
    requires ExtFlow(exts, log) && DownLogOk(exts, log) && k !in exts
    ensures ExtFlow(exts[k := Port(NotStarted, [], [], W.Fresh())], log)
  {
    ChunksEmpty(To(k), log);
    hide Chunks, W.Fresh;
    assert Chunks(To(k), log) == [];
  }

  /** Facts that only ask which connections exist. */
  lemma Grow(s: State, exts': map<Conn, Port>)
    requires forall k :: k in s.exts ==> k in exts'
    requires DownLogOk(s.exts, s.down.log) && IntsOk(s.config, s.exts, s.ints)
    requires CliOk(s.cli, s.exts, s.ints, s.conns, s.arrived, s.configs)
    ensures DownLogOk(exts', s.down.log) && IntsOk(s.config, exts', s.ints)
    ensures CliOk(s.cli, exts', s.ints, s.conns, s.arrived, s.configs)
  {
    hide W.Inv, Current;
  }

  lemma ServerKeeps(s: State, a: ServerStep)
    requires Downstream(s) && Registration(s) && ServerEnabled(s, a)
    ensures Downstream(DoServer(s, a))
  {
    hide ArriveFlow, SegmentsOk, ConnsOk, IntsOk, DownLogOk, ExtFlow, CliOk, ClientReg, HandledOk, AcksOk, W.Push,
      Chunks, Acks, Regs, TakeUp;
    if a.STake? {
      TakeUpFrame(s);
    } else if a.SPush? {
      var k := s.srv.at;
      SamePort(s.exts, s.down.log, k, DoServer(s, a).exts[k]);
      Grow(s, DoServer(s, a).exts);
    } else if a.SReplied? {
      R.ReplyKind(s.proxies, s.srv, Acks(s.down.log), |Regs(s.up.delivered)|);
      ExtFlowOther(s.exts, s.down.log, L.Strip(L.Item(s.srv.reply, 0)));
    }
  }

  lemma TakeUpFrame(s: State)
    requires s.up.wire != []
    ensures var t := TakeUp(s);
      && t.config == s.config && t.exts == s.exts && t.down == s.down && t.cli == s.cli && t.configs == s.configs
      && t.conns == s.conns && t.ints == s.ints && t.arrived == s.arrived
  {
  }

  /** The write half of a connection is no concern of this stream. */
  lemma SamePort(exts: map<Conn, Port>, log: seq<L.Item>, k: Conn, pt: Port)
    requires ExtFlow(exts, log) && k in exts
    requires pt.got == exts[k].got && pt.dropped == exts[k].dropped
    requires pt.rd == exts[k].rd || (exts[k].rd.NotStarted? && pt.rd.Reading?)
    ensures ExtFlow(exts[k := pt], log)
  {
    assert PortFlow(exts[k], Chunks(To(k), log));
    ExtFlowPort(exts, log, k, pt);
  }

  lemma ListenerKeeps(s: State, p: nat, a: ListenerStep)
    requires Downstream(s) && Structure(s) && ListenerEnabled(s, p, a)
    ensures Downstream(DoListener(s, p, a))
  {
    hide ArriveFlow, SegmentsOk, ConnsOk, IntsOk, DownLogOk, ExtFlow, CliOk, L.Inv, PermitsOk, ExtOk, ExtsOk,
      ProxyOk, W.GiveUp, W.Spawn, W.Fresh;
    var t := DoListener(s, p, a);
    var px := s.proxies[p];
    if a.Ack? {
      ExtFlowOther(s.exts, s.down.log, L.Strip(L.Item(AckFrame(px, px.pc.ok), 0)));
    } else if a.Accept? {
      AcceptFresh(s, p);
      ExtFlowAccept(s.exts, s.down.log, Conn(px.id, px.nextConnId));
      Grow(s, t.exts);
    } else if a.Permit? {
      WaitingNotStarted(s, p);
      SamePort(s.exts, s.down.log, Waiting(px), t.exts[Waiting(px)]);
      Grow(s, t.exts);
    } else if a.Abort? && px.pc.WaitPermit? {
      SamePort(s.exts, s.down.log, Waiting(px), t.exts[Waiting(px)]);
      Grow(s, t.exts);
    }
  }

  lemma AcceptFresh(s: State, p: nat)
    requires Structure(s) && ListenerEnabled(s, p, Accept)
    ensures Conn(s.proxies[p].id, s.proxies[p].nextConnId) !in s.exts
  {
    hide L.Inv, PermitsOk, ExtOk;
    assert ProxyOk(s.proxies[p], p);
    assert !Known(s.proxies, Conn(p, s.proxies[p].accepted));
  }

  lemma WaitingNotStarted(s: State, p: nat)
    requires Structure(s) && p < |s.proxies| && s.proxies[p].pc.WaitPermit?
    ensures Waiting(s.proxies[p]) in s.exts && s.exts[Waiting(s.proxies[p])].rd.NotStarted?
    ensures s.exts[Waiting(s.proxies[p])].w.pc.NotSpawned?
  {
    hide L.Inv, PermitsOk, W.Inv;
    assert ProxyOk(s.proxies[p], p);
    assert Known(s.proxies, Waiting(s.proxies[p]));
  }

  lemma ExternalKeeps(s: State, k: Conn, a: PortStep)
    requires Downstream(s) && Enabled(s, External(k, a))
    ensures Downstream(DoExternal(s, k, a))
  {
    hide ArriveFlow, SegmentsOk, ConnsOk, IntsOk, DownLogOk, CliOk, PortFlow, W.Do, W.Enabled, ExtSender, Chunks;
    var t := DoExternal(s, k, a);
    var queued := Chunks(To(k), s.down.log);
    PortFlowStep(s.exts[k], a, s.down, ExtSender(s.srv, s.routes, k), queued);
    Grow(s, t.exts);
    if a.Send? {
      ExtFlowSend(s.exts, s.down.log, k, t.exts[k], s.exts[k].rd.chunk);
    } else {
      ExtFlowPort(s.exts, s.down.log, k, t.exts[k]);
    }
  }

  // ---------------------------------------------------------------- the client reads a frame

  predicate NoHand(cli: CliMain) { !cli.CDial? && !cli.CSend? }

  lemma ArriveTaken(delivered: seq<L.Item>, arrived: map<Conn, seq<Arrival>>, cli: CliMain, it: L.Item, cli': CliMain)
    requires ArriveFlow(delivered, arrived, cli) && NoHand(cli) && it.frame.Data?
    requires (cli'.CDial? || cli'.CSend?) && cli'.at == ConnOf(it.frame) && cli'.data == it.frame.data
    ensures ArriveFlow(delivered + [it], arrived, cli')
  {
    hide Chunks, Datas;
    forall k ensures Chunks(To(k), delivered + [it]) == Datas(Arrived(arrived, k)) + InHand(cli', k) {
      ChunksPush(To(k), delivered, it);
    }
  }

  lemma ArriveOther(delivered: seq<L.Item>, arrived: map<Conn, seq<Arrival>>, cli: CliMain, it: L.Item, cli': CliMain)
    requires ArriveFlow(delivered, arrived, cli) && NoHand(cli) && NoHand(cli') && !it.frame.Data?
    ensures ArriveFlow(delivered + [it], arrived, cli')
  {
    hide Chunks, Datas;
    forall k ensures Chunks(To(k), delivered + [it]) == Datas(Arrived(arrived, k)) + InHand(cli', k) {
      ChunksPush(To(k), delivered, it);
    }
  }

  lemma DatasPush(arr: seq<Arrival>, data: Bytes, fate: Fate)
    ensures Datas(arr + [Arrival(data, fate)]) == Datas(arr) + [data]
  {
  }

  /** A frame refused the moment it was read. */
  lemma ArriveRefused(delivered: seq<L.Item>, arrived: map<Conn, seq<Arrival>>, cli: CliMain, it: L.Item, fate: Fate,
      cli': CliMain)
    requires ArriveFlow(delivered, arrived, cli) && NoHand(cli) && NoHand(cli') && it.frame.Data?
    ensures ArriveFlow(delivered + [it], Note(arrived, ConnOf(it.frame), it.frame.data, fate), cli')
  {
    hide Chunks, Datas;
    var arrived' := Note(arrived, ConnOf(it.frame), it.frame.data, fate);
    forall k ensures Chunks(To(k), delivered + [it]) == Datas(Arrived(arrived', k)) + InHand(cli', k) {
      ChunksPush(To(k), delivered, it);
      DatasPush(Arrived(arrived, k), it.frame.data, fate);
    }
  }

  /** The frame in hand meets its fate. */
  lemma ArriveSettled(delivered: seq<L.Item>, arrived: map<Conn, seq<Arrival>>, cli: CliMain, fate: Fate)
    requires ArriveFlow(delivered, arrived, cli) && !NoHand(cli)
    ensures ArriveFlow(delivered, Note(arrived, cli.at, cli.data, fate), CIdle)
  {
    hide Chunks, Datas;
    var arrived' := Note(arrived, cli.at, cli.data, fate);
    forall k ensures Chunks(To(k), delivered) == Datas(Arrived(arrived', k)) + InHand(CIdle, k) {
      DatasPush(Arrived(arrived, k), cli.data, fate);
    }
  }

  lemma ArriveSame(delivered: seq<L.Item>, arrived: map<Conn, seq<Arrival>>, cli: CliMain, cli': CliMain)
    requires ArriveFlow(delivered, arrived, cli)
    requires
      || (NoHand(cli) && NoHand(cli'))
      || (!NoHand(cli) && !NoHand(cli') && cli'.at == cli.at && cli'.data == cli.data)
    ensures ArriveFlow(delivered, arrived, cli')
  {
    hide Chunks, Datas;
  }

  /** A data frame the client reads belongs to a connection the server has accepted. */
  lemma ReadIsKnown(s: State)
    requires L.Inv(s.down) && DownLogOk(s.exts, s.down.log) && s.down.wire != []
    ensures s.down.wire[0].frame.Data? ==> ConnOf(s.down.wire[0].frame) in s.exts
  {
    L.DeliveredIsPrefix(s.down);
    assert s.down.log[|s.down.delivered|] == s.down.wire[0];
  }

  // ---------------------------------------------------------------- segments

  lemma NoteArrived(arrived: map<Conn, seq<Arrival>>, k: Conn, data: Bytes, fate: Fate, j: Conn)
    ensures j == k ==> Arrived(Note(arrived, k, data, fate), j) == Arrived(arrived, j) + [Arrival(data, fate)]
    ensures j != k ==> Arrived(Note(arrived, k, data, fate), j) == Arrived(arrived, j)
  {
  }

  /** The next arrival of k goes to no internal connection. */
  lemma NoteElsewhere(ints: seq<Internal>, arrived: map<Conn, seq<Arrival>>, k: Conn, data: Bytes, fate: Fate)
    requires SegmentsOk(ints, arrived) && !fate.ToInternal?
    ensures SegmentsOk(ints, Note(arrived, k, data, fate))
  {
    hide Arrived, Note, Apart, InSegment;
    var arrived' := Note(arrived, k, data, fate);
    forall i | 0 <= i < |ints| ensures SegmentOk(ints[i], i, Arrived(arrived', ints[i].at)) {
      NoteArrived(arrived, k, data, fate, ints[i].at);
    }
    forall j ensures FatesOk(ints, j, Arrived(arrived', j)) {
      NoteArrived(arrived, k, data, fate, j);
      assert FatesOk(ints, j, Arrived(arrived, j));
    }
  }

  lemma NoteConns(ints: seq<Internal>, conns: map<Conn, nat>, arrived: map<Conn, seq<Arrival>>,
      configs: map<nat, ClientInfo>, k: Conn, data: Bytes, fate: Fate)
    requires ConnsOk(ints, conns, arrived, configs) && k !in conns
    ensures ConnsOk(ints, conns, Note(arrived, k, data, fate), configs)
  {
  }

  lemma SegmentsOpen(ints: seq<Internal>, arrived: map<Conn, seq<Arrival>>, it: Internal)
    requires SegmentsOk(ints, arrived) && it.start == |Arrived(arrived, it.at)| && it.port.w.log == []
    ensures SegmentsOk(ints + [it], arrived)
  {
    hide Arrived;
    var ints' := ints + [it];
    forall i | 0 <= i < |ints'| ensures SegmentOk(ints'[i], i, Arrived(arrived, ints'[i].at)) {
      if i < |ints| { assert SegmentOk(ints[i], i, Arrived(arrived, ints[i].at)); }
    }
    forall j ensures FatesOk(ints', j, Arrived(arrived, j)) { assert FatesOk(ints, j, Arrived(arrived, j)); }
  }

  /** The stretches after connection i was given the frames `log`. */
  lemma SegmentsSet(ints: seq<Internal>, i: nat, it: Internal)
    requires i < |ints| && Apart(ints) && it.at == ints[i].at && it.start == ints[i].start
    requires End(it) == End(ints[i]) || (End(it) >= End(ints[i]) && Latest(ints, it.at, i))
    ensures Apart(ints[i := it])
    ensures forall k, x: nat, j: nat :: InSegment(ints, k, x, j) ==> InSegment(ints[i := it], k, x, j)
  {
  }

  lemma SegmentsPort(ints: seq<Internal>, arrived: map<Conn, seq<Arrival>>, i: nat, pt: Port)
    requires SegmentsOk(ints, arrived) && i < |ints| && pt.w.log == ints[i].port.w.log
    ensures SegmentsOk(ints[i := ints[i].(port := pt)], arrived)
  {
    hide Arrived, Apart, InSegment;
    var ints' := ints[i := ints[i].(port := pt)];
    SegmentsSet(ints, i, ints'[i]);
    forall j | 0 <= j < |ints'| ensures SegmentOk(ints'[j], j, Arrived(arrived, ints'[j].at)) {
      assert SegmentOk(ints[j], j, Arrived(arrived, ints[j].at));
    }
    forall j ensures FatesOk(ints', j, Arrived(arrived, j)) { assert FatesOk(ints, j, Arrived(arrived, j)); }
  }

  lemma SegmentsPush(ints: seq<Internal>, arrived: map<Conn, seq<Arrival>>, k: Conn, i: nat, pt: Port, data: Bytes)
    requires SegmentsOk(ints, arrived) && Current(ints, arrived, k, i) && pt.w.log == ints[i].port.w.log + [data]
    ensures SegmentsOk(ints[i := ints[i].(port := pt)], Note(arrived, k, data, ToInternal(i)))
  {
    hide Arrived, Note, Apart, SegmentOk, FatesOk;
    var arrived' := Note(arrived, k, data, ToInternal(i));
    var ints' := ints[i := ints[i].(port := pt)];
    SegmentsSet(ints, i, ints'[i]);
    forall j | 0 <= j < |ints'| ensures SegmentOk(ints'[j], j, Arrived(arrived', ints'[j].at)) {
      NoteArrived(arrived, k, data, ToInternal(i), ints[j].at);
      SegmentGrows(ints[j], ints'[j], j, i, Arrived(arrived, ints[j].at), Arrived(arrived', ints[j].at), data);
    }
    forall j ensures FatesOk(ints', j, Arrived(arrived', j)) {
      NoteArrived(arrived, k, data, ToInternal(i), j);
      FatesGrow(ints, ints', j, Arrived(arrived, j), Arrived(arrived', j), Arrival(data, ToInternal(i)));
    }
  }

  lemma SegmentGrows(it: Internal, it': Internal, j: nat, i: nat, arr: seq<Arrival>, arr': seq<Arrival>, data: Bytes)
    requires SegmentOk(it, j, arr) && it'.start == it.start
    requires j == i ==>
      arr' == arr + [Arrival(data, ToInternal(i))] && End(it) == |arr| && it'.port.w.log == it.port.w.log + [data]
    requires j != i ==> arr <= arr' && it'.port.w.log == it.port.w.log
    ensures SegmentOk(it', j, arr')
  {
  }

  lemma FatesGrow(ints: seq<Internal>, ints': seq<Internal>, k: Conn, arr: seq<Arrival>, arr': seq<Arrival>, a: Arrival)
    requires FatesOk(ints, k, arr)
    requires forall x: nat, j: nat :: InSegment(ints, k, x, j) ==> InSegment(ints', k, x, j)
    requires arr' == arr || (arr' == arr + [a] && (a.fate.ToInternal? ==> InSegment(ints', k, |arr|, a.fate.i)))
    ensures FatesOk(ints', k, arr')
  {
    hide InSegment;
  }

  // ---------------------------------------------------------------- client main loop

  lemma TakeWhileRegisteringKeeps(s: State)
    requires Downstream(s) && L.Inv(s.down)
    requires s.cli.CRegWait? && s.cli.i < |s.config| && s.down.wire != []
    ensures Downstream(TakeWhileRegistering(s))
  {
    hide DownLogOk, ExtFlow, IntsOk, ArriveFlow, SegmentsOk, L.Inv, Note;
    var it := s.down.wire[0];
    var t := TakeWhileRegistering(s);
    if it.frame.Data? {
      ArriveRefused(s.down.delivered, s.arrived, s.cli, it, WhileRegistering, CEnded);
      NoteElsewhere(s.ints, s.arrived, ConnOf(it.frame), it.frame.data, WhileRegistering);
    } else {
      ArriveOther(s.down.delivered, s.arrived, s.cli, it, t.cli);
    }
  }

  lemma TakeDownKeeps(s: State)
    requires Downstream(s) && L.Inv(s.down) && s.cli.CIdle? && s.down.wire != []
    ensures Downstream(TakeDown(s))
  {
    hide DownLogOk, ExtFlow, IntsOk, ArriveFlow, SegmentsOk, L.Inv, Note, Current;
    var it := s.down.wire[0];
    var t := TakeDown(s);
    ReadIsKnown(s);
    if !it.frame.Data? {
      ArriveOther(s.down.delivered, s.arrived, s.cli, it, t.cli);
    } else if it.frame.dataProxyId !in s.configs {
      ArriveRefused(s.down.delivered, s.arrived, s.cli, it, Unknown, CIdle);
      NoteElsewhere(s.ints, s.arrived, ConnOf(it.frame), it.frame.data, Unknown);
      NoteConns(s.ints, s.conns, s.arrived, s.configs, ConnOf(it.frame), it.frame.data, Unknown);
    } else {
      ArriveTaken(s.down.delivered, s.arrived, s.cli, it, t.cli);
    }
  }

  lemma DialOkKeeps(s: State)
    requires Downstream(s) && ConfigsOk(s.config, s.configs, s.acked) && ClientEnabled(s, CDialOk)
    ensures Downstream(DialOk(s))
  {
    hide DownLogOk, ExtFlow, ArriveFlow, SegmentsOk, W.Inv;
    var t := DialOk(s);
    var k := s.cli.at;
    ArriveSame(s.down.delivered, s.arrived, s.cli, t.cli);
    FreshWriter();
    SegmentsOpen(s.ints, s.arrived, t.ints[|s.ints|]);
    OpenConns(s.ints, s.conns, s.arrived, s.configs, k, t.ints[|s.ints|]);
  }

  lemma FreshWriter()
    ensures W.Inv(W.Spawn(W.Fresh())) && W.Spawn(W.Fresh()).log == []
  {
    W.FreshInv();
  }

  lemma OpenConns(ints: seq<Internal>, conns: map<Conn, nat>, arrived: map<Conn, seq<Arrival>>,
      configs: map<nat, ClientInfo>, k: Conn, it: Internal)
    requires ConnsOk(ints, conns, arrived, configs) && k !in conns && k.p in configs
    requires it.at == k && it.start == |Arrived(arrived, k)| && it.port.w.log == [] && it.port.rd.Reading?
    ensures ConnsOk(ints + [it], conns[k := |ints|], arrived, configs)
    ensures Current(ints + [it], arrived, k, |ints|)
  {
  }

  lemma DialFailKeeps(s: State)
    requires Downstream(s) && ClientEnabled(s, CDialFail)
    ensures Downstream(DoClient(s, CDialFail))
  {
    hide DownLogOk, ExtFlow, IntsOk, ArriveFlow, SegmentsOk, ConnsOk, Note;
    ArriveSettled(s.down.delivered, s.arrived, s.cli, DialFailed);
    NoteElsewhere(s.ints, s.arrived, s.cli.at, s.cli.data, DialFailed);
    NoteConns(s.ints, s.conns, s.arrived, s.configs, s.cli.at, s.cli.data, DialFailed);
  }

  lemma PushFailKeeps(s: State)
    requires Downstream(s) && ClientEnabled(s, CPushFail)
    ensures Downstream(DoClient(s, CPushFail))
  {
    hide DownLogOk, ExtFlow, IntsOk, ArriveFlow, SegmentsOk, ConnsOk, Note;
    ArriveSettled(s.down.delivered, s.arrived, s.cli, ChannelClosed);
    NoteElsewhere(s.ints, s.arrived, s.cli.at, s.cli.data, ChannelClosed);
    FewerConns(s.ints, s.conns, s.arrived, s.configs, s.cli.at);
    NoteConns(s.ints, s.conns - {s.cli.at}, s.arrived, s.configs, s.cli.at, s.cli.data, ChannelClosed);
  }

  lemma FewerConns(ints: seq<Internal>, conns: map<Conn, nat>, arrived: map<Conn, seq<Arrival>>,
      configs: map<nat, ClientInfo>, k: Conn)
    requires ConnsOk(ints, conns, arrived, configs)
    ensures ConnsOk(ints, conns - {k}, arrived, configs)
  {
    hide Current;
  }

  lemma PushKeeps(s: State)
    requires Downstream(s) && ClientEnabled(s, CPush)
    ensures Downstream(DoClient(s, CPush))
  {
    hide DownLogOk, ExtFlow, IntsOk, ArriveFlow, SegmentsOk, ConnsOk, Note, W.Inv, Current;
    var t := DoClient(s, CPush);
    var i := s.cli.to;
    ArriveSettled(s.down.delivered, s.arrived, s.cli, ToInternal(i));
    SegmentsPush(s.ints, s.arrived, s.cli.at, i, t.ints[i].port, s.cli.data);
    PushConns(s.ints, s.conns, s.arrived, s.configs, s.cli.at, i, t.ints[i].port, s.cli.data);
    PushInts(s, i);
  }

  lemma PushInts(s: State, i: nat)
    requires IntsOk(s.config, s.exts, s.ints) && ClientEnabled(s, CPush) && i == s.cli.to
    ensures IntsOk(s.config, s.exts, DoClient(s, CPush).ints)
  {
    hide W.Inv, Note;
    W.PushInv(s.ints[i].port.w, s.cli.data);
  }

  lemma PushConns(ints: seq<Internal>, conns: map<Conn, nat>, arrived: map<Conn, seq<Arrival>>,
      configs: map<nat, ClientInfo>, k: Conn, i: nat, pt: Port, data: Bytes)
    requires ConnsOk(ints, conns, arrived, configs) && Current(ints, arrived, k, i) && (k in conns ==> conns[k] == i)
    requires pt.w.log == ints[i].port.w.log + [data] && pt.rd == ints[i].port.rd
    ensures ConnsOk(ints[i := ints[i].(port := pt)], conns, Note(arrived, k, data, ToInternal(i)), configs)
  {
  }

  lemma ClientKeeps(s: State, a: ClientStep)
    requires Downstream(s) && Structure(s) && Registration(s) && ClientEnabled(s, a)
    ensures Downstream(DoClient(s, a))
  {
    hide DownLogOk, ExtFlow, IntsOk, ArriveFlow, SegmentsOk, ConnsOk, ConfigsOk, PhaseOk, HandledOk, AcksOk, Note,
      L.Inv, ExtsOk, PermitsOk, ProxiesOk, SrvOk, TakeWhileRegistering, TakeDown, DialOk, W.Push, L.Push, L.Shut,
        Chunks, Regs, Acks;
    match a
    case CTake => if s.cli.CRegWait? { TakeWhileRegisteringKeeps(s); } else { TakeDownKeeps(s); }
    case CDialOk => DialOkKeeps(s);
    case CDialFail => DialFailKeeps(s);
    case CPush => PushKeeps(s);
    case CPushFail => PushFailKeeps(s);
    case CRegister => ArriveSame(s.down.delivered, s.arrived, s.cli, DoClient(s, a).cli);
    case CStop => ArriveSame(s.down.delivered, s.arrived, s.cli, CEnded);
    case CPing =>
  }

  // ---------------------------------------------------------------- internal connections

  lemma PortConns(s: State, i: nat, pt: Port)
    requires ConnsOk(s.ints, s.conns, s.arrived, s.configs) && i < |s.ints|
    requires pt.w.log == s.ints[i].port.w.log && Live(pt.rd)
    ensures ConnsOk(SetInt(s, i, pt).ints, s.conns, s.arrived, s.configs)
  {
  }

  lemma UnlinkConns(s: State, i: nat, pt: Port)
    requires ConnsOk(s.ints, s.conns, s.arrived, s.configs) && i < |s.ints| && pt.w.log == s.ints[i].port.w.log
    ensures ConnsOk(SetInt(s, i, pt).ints, s.conns - {s.ints[i].at}, s.arrived, s.configs)
  {
  }

  lemma DeadConns(s: State, i: nat, pt: Port)
    requires ConnsOk(s.ints, s.conns, s.arrived, s.configs) && i < |s.ints| && pt.w.log == s.ints[i].port.w.log
    requires !Live(s.ints[i].port.rd)
    ensures ConnsOk(SetInt(s, i, pt).ints, s.conns, s.arrived, s.configs)
  {
  }

  lemma PortCli(s: State, i: nat, pt: Port, conns': map<Conn, nat>)
    requires CliOk(s.cli, s.exts, s.ints, s.conns, s.arrived, s.configs) && i < |s.ints|
      && pt.w.log == s.ints[i].port.w.log
    requires forall k :: k in conns' ==> k in s.conns && conns'[k] == s.conns[k]
    ensures CliOk(s.cli, s.exts, SetInt(s, i, pt).ints, conns', s.arrived, s.configs)
  {
  }

  lemma PortInts(s: State, i: nat, a: PortStep)
    requires IntsOk(s.config, s.exts, s.ints) && Enabled(s, Inner(i, a))
    ensures IntsOk(s.config, s.exts, DoInner(s, i, a).ints)
    ensures DoInner(s, i, a).ints[i].port.w.log == s.ints[i].port.w.log
  {
    hide W.Inv;
    if a.Write? { W.StepInv(s.ints[i].port.w, a.ws, IntSender(s, i)); }
  }

  lemma InnerKeeps(s: State, i: nat, a: PortStep)
    requires Downstream(s) && Enabled(s, Inner(i, a))
    ensures Downstream(DoInner(s, i, a))
  {
    hide DownLogOk, ExtFlow, IntsOk, ArriveFlow, SegmentsOk, ConnsOk, CliOk, W.Do, W.Enabled, IntSender, L.Push;
    var t := DoInner(s, i, a);
    var pt := t.ints[i].port;
    PortInts(s, i, a);
    SegmentsPort(s.ints, s.arrived, i, pt);
    PortCli(s, i, pt, t.conns);
    if a.Unlink? {
      UnlinkConns(s, i, pt);
    } else if Live(pt.rd) {
      PortConns(s, i, pt);
    } else {
      DeadConns(s, i, pt);
    }
  }

  lemma Keeps(s: State, a: Action)
    requires Structure(s) && Registration(s) && Downstream(s) && Enabled(s, a)
    ensures Downstream(Do(s, a))
  {
    hide Registration, L.Inv, ExtsOk, PermitsOk, ProxiesOk, SrvOk,
      DownLogOk, ExtFlow, IntsOk, ArriveFlow, SegmentsOk, ConnsOk, CliOk,
      DoServer, DoListener, DoExternal, DoClient, DoInner, L.Do;
    match a
    case Server(ss) => ServerKeeps(s, ss);
    case Listener(p, ps) => ListenerKeeps(s, p, ps);
    case External(k, xs) => ExternalKeeps(s, k, xs);
    case Down(ls) => L.StepInv(s.down, ls);
    case Up(ls) =>
    case Client(cs) => ClientKeeps(s, cs);
    case Inner(i, xs) => InnerKeeps(s, i, xs);
  }
}
