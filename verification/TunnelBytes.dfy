/** The two directions of the tunnel are links of the kind that CodedLink takes down to bytes, so
    every run of the tunnel is one over encrypted messages. */
module TunnelBytes {
  import opened Seqs
  import opened Frames
  import opened Decisions
  import opened Tunnel
  import B = CodedLink
  import C = Codec
  import L = Link
  import W = Writer

  /** What an action does to the link towards the client, if anything. */
  function DownOp(s: State, a: Action): Option<B.Op>
    requires Enabled(s, a)
  {
    match a
    case Server(SReplied) => Some(B.Push(L.Item(s.srv.reply, 0)))
    case Listener(p, Ack) => Some(B.Push(L.Item(AckFrame(s.proxies[p], s.proxies[p].pc.ok), 0)))
    case External(k, Send) => Some(B.Push(Chunk(k, s.exts[k].rd.chunk, 0)))
    case Down(ls) => Some(B.Step(ls))
    case Client(CTake) => Some(B.Deliver)
    case _ => None
  }

  /** And to the link towards the server. */
  function UpOp(s: State, a: Action): Option<B.Op>
    requires Enabled(s, a)
  {
    match a
    case Client(CRegister) => Some(B.Push(L.Item(Register(s.config[s.cli.i]), 0)))
    case Client(CPing) => Some(B.Push(L.Item(NewPing(), 0)))
    case Client(CStop) => if s.cli.CIdle? then Some(B.Shut) else None
    case Inner(i, Send) => Some(B.Push(Chunk(s.ints[i].at, s.ints[i].port.rd.chunk, i)))
    case Up(ls) => Some(B.Step(ls))
    case Server(STake) => Some(B.Deliver)
    case _ => None
  }

  function AsSeq(op: Option<B.Op>): seq<B.Op> { if op.Some? then [op.value] else [] }

  function DownOps(s: State, run: seq<Action>): seq<B.Op>
    requires Exec(s, run).Some?
  {
    if run == [] then []
    else
      var init := run[..|run| - 1];
      DownOps(s, init) + AsSeq(DownOp(Exec(s, init).value, run[|run| - 1]))
  }

  function UpOps(s: State, run: seq<Action>): seq<B.Op>
    requires Exec(s, run).Some?
  {
    if run == [] then []
    else
      var init := run[..|run| - 1];
      UpOps(s, init) + AsSeq(UpOp(Exec(s, init).value, run[|run| - 1]))
  }

  // ---------------------------------------------------------------- one step

  /** `m` is the link `l` after the operation, or `l` itself. */
  ghost predicate After(l: L.Link, op: Option<B.Op>, m: L.Link) {
    if op.Some? then B.LinkCan(l, op.value) && m == B.LinkDo(l, op.value) else m == l
  }

  lemma ServerOps(s: State, a: ServerStep)
    requires ServerEnabled(s, a)
    ensures After(s.down, DownOp(s, Server(a)), DoServer(s, a).down)
    ensures After(s.up, UpOp(s, Server(a)), DoServer(s, a).up)
  {
    hide ServerDecide, AwaitAfter, L.Push, L.Deliver, W.Push;
  }

  lemma ListenerOps(s: State, p: nat, a: ListenerStep)
    requires ListenerEnabled(s, p, a)
    ensures After(s.down, DownOp(s, Listener(p, a)), DoListener(s, p, a).down)
    ensures After(s.up, UpOp(s, Listener(p, a)), DoListener(s, p, a).up)
  {
    hide L.Push, W.GiveUp, W.Spawn, W.Fresh, PortFree;
  }

  lemma ExternalOps(s: State, k: Conn, a: PortStep)
    requires Enabled(s, External(k, a))
    ensures After(s.down, DownOp(s, External(k, a)), DoExternal(s, k, a).down)
    ensures After(s.up, UpOp(s, External(k, a)), DoExternal(s, k, a).up)
  {
    hide L.Push, W.Do, W.Enabled, DoPort, ExtSender;
  }

  lemma ClientOps(s: State, a: ClientStep)
    requires ClientEnabled(s, a)
    ensures After(s.down, DownOp(s, Client(a)), DoClient(s, a).down)
    ensures After(s.up, UpOp(s, Client(a)), DoClient(s, a).up)
  {
    hide L.Push, L.Deliver, L.Shut, Note, W.Push, W.Fresh, ClientDecide, AwaitClient;
  }

  lemma InnerOps(s: State, i: nat, a: PortStep)
    requires Enabled(s, Inner(i, a))
    ensures After(s.down, DownOp(s, Inner(i, a)), DoInner(s, i, a).down)
    ensures After(s.up, UpOp(s, Inner(i, a)), DoInner(s, i, a).up)
  {
    hide L.Push, W.Do, W.Enabled, DoPort, IntSender;
  }

  lemma StepOps(s: State, a: Action)
    requires Enabled(s, a)
    ensures After(s.down, DownOp(s, a), Do(s, a).down) && After(s.up, UpOp(s, a), Do(s, a).up)
  {
    hide DoServer, DoListener, DoExternal, DoClient, DoInner, L.Do, L.Enabled;
    match a
    case Server(ss) => ServerOps(s, ss);
    case Listener(p, ps) => ListenerOps(s, p, ps);
    case External(k, xs) => ExternalOps(s, k, xs);
    case Down(ls) =>
    case Up(ls) =>
    case Client(cs) => ClientOps(s, cs);
    case Inner(i, xs) => InnerOps(s, i, xs);
  }

  // ---------------------------------------------------------------- whole runs

  lemma OneMore(ops: seq<B.Op>, l: L.Link, op: Option<B.Op>, m: L.Link)
    requires B.LinkExec(ops) == Some(l) && After(l, op, m)
    ensures B.LinkExec(ops + AsSeq(op)) == Some(m)
  {
    hide B.LinkCan, B.LinkDo;
    if op.Some? {
      assert (ops + [op.value])[..|ops|] == ops;
    } else {
      assert ops + [] == ops;
    }
  }

  /** In every run each direction of the tunnel is a link run on what was done to it. */
  lemma {:induction false} LinksOfTunnel(config: seq<ClientInfo>, run: seq<Action>)
    requires Exec(Init(config), run).Some?
    ensures var s := Exec(Init(config), run).value;
      && B.LinkExec(DownOps(Init(config), run)) == Some(s.down)
      && B.LinkExec(UpOps(Init(config), run)) == Some(s.up)
  {
    hide Do, Enabled;
    if run == [] {
    } else {
      hide After, DownOp, UpOp, B.LinkExec, AsSeq;
      var init, a := run[..|run| - 1], run[|run| - 1];
      var s := Exec(Init(config), init).value;
      LinksOfTunnel(config, init);
      StepOps(s, a);
      OneMore(DownOps(Init(config), init), s.down, DownOp(s, a), Do(s, a).down);
      OneMore(UpOps(Init(config), init), s.up, UpOp(s, a), Do(s, a).up);
    }
  }

  /** The link `l` delivers what the peer of the coded link decodes, as far as it fits the limit. */
  ghost predicate OverBytes(z: B.Session, ops: seq<B.Op>, l: L.Link) {
    && B.Exec(z, ops).Some?
    && var c := B.Exec(z, ops).value;
       && |c.read| == |l.delivered| <= |c.taken| == |c.written|
       && (forall k :: 0 <= k < |c.written| ==>
             c.written[k] == C.Encoded(z.u, z.key, z.prefix, k % U64_SIZE, c.taken[k].frame))
       && B.CountersOk(z, c)
       && (forall k :: 0 <= k < |c.read| ==>
             l.delivered[k] == L.Strip(c.taken[k]) && c.read[k] == C.Outcome(z.u, c.taken[k].frame))
  }

  /** In every run, with any keys: the frames each main loop has read are what decoding the peer's
      encrypted messages gives, message k being the k-th frame sent, under counter k. */
  lemma TunnelOverBytes(config: seq<ClientInfo>, run: seq<Action>, s: State, down: B.Session, up: B.Session)
    requires Reaches(config, run, s) && B.Lawful(down) && B.Lawful(up)
    ensures OverBytes(down, DownOps(Init(config), run), s.down)
    ensures OverBytes(up, UpOps(Init(config), run), s.up)
  {
    hide Exec, B.Exec, B.LinkExec, DownOps, UpOps, B.Lawful, C.Encoded, C.Outcome, L.Strip, B.CountersOk;
    LinksOfTunnel(config, run);
    B.BytesRefineFrames(down, DownOps(Init(config), run));
    B.BytesRefineFrames(up, UpOps(Init(config), run));
  }
}
