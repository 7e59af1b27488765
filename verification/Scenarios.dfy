/** Runs that exist: a byte does get through, and some things the tunnel does not promise do
    happen. */
module Scenarios {
  import opened Seqs
  import opened Frames
  import opened Decisions
  import opened Tunnel
  import L = Link
  import F = StepFrames
  import W = Writer

  /** The most that one read of a socket yields. */
  const READ_BUFFER := 65536

  lemma Then(s0: State, run: seq<Action>, a: Action, s: State)
    requires Exec(s0, run) == Some(s) && Enabled(s, a)
    ensures Exec(s0, run + [a]) == Some(Do(s, a))
  {
    hide Do, Enabled;
    assert (run + [a])[..|run|] == run;
  }

  /** A link with nothing under way, and one with a single frame on the wire. */
  function Quiet(d: seq<L.Item>): L.Link { L.Link([], true, [], [], false, d, [], d) }

  function Loaded(d: seq<L.Item>, x: L.Item): L.Link { L.Link([], true, [], [x], false, d, [], d + [x]) }

  lemma Transit(d: seq<L.Item>, it: L.Item)
    ensures var l := L.Push(Quiet(d), it);
      && L.Enabled(l, L.Pop) && L.Enabled(L.Do(l, L.Pop), L.Send)
      && L.Do(L.Do(l, L.Pop), L.Send) == Loaded(d, L.Strip(it))
      && L.Deliver(Loaded(d, L.Strip(it))) == Quiet(d + [L.Strip(it)])
  {
    var l := L.Push(Quiet(d), it);
    assert l.queue == [it];
    var l' := L.Do(l, L.Pop);
    assert l'.queue == [] && l'.hand == [it];
    assert [] + L.StripAll([it]) == [L.Strip(it)];
  }

  /** The encoder takes a queued frame to the wire. */
  lemma CarryDown(s0: State, run: seq<Action>, s: State, d: seq<L.Item>, it: L.Item)
    requires Exec(s0, run) == Some(s) && s.down == L.Push(Quiet(d), it)
    ensures Exec(s0, run + [Down(L.Pop)] + [Down(L.Send)]) == Some(s.(down := Loaded(d, L.Strip(it))))
  {
    hide Exec, L.Push, L.Do, L.Enabled;
    Transit(d, it);
    Then(s0, run, Down(L.Pop), s);
    Then(s0, run + [Down(L.Pop)], Down(L.Send), s.(down := L.Do(s.down, L.Pop)));
  }

  lemma CarryUp(s0: State, run: seq<Action>, s: State, d: seq<L.Item>, it: L.Item)
    requires Exec(s0, run) == Some(s) && s.up == L.Push(Quiet(d), it)
    ensures Exec(s0, run + [Up(L.Pop)] + [Up(L.Send)]) == Some(s.(up := Loaded(d, L.Strip(it))))
  {
    hide Exec, L.Push, L.Do, L.Enabled;
    Transit(d, it);
    Then(s0, run, Up(L.Pop), s);
    Then(s0, run + [Up(L.Pop)], Up(L.Send), s.(up := L.Do(s.up, L.Pop)));
  }

  // ---------------------------------------------------------------- registration

  /** The server can bind a listener for each of the first n proxies. */
  predicate Bindable(config: seq<ClientInfo>, n: nat)
    requires n <= |config|
  {
    && n <= 16
    && (forall i :: 0 <= i < n ==> config[i].bindPort >= 1024)
    && (forall i, j :: 0 <= i < j < n ==> config[i].bindPort != config[j].bindPort)
  }

  predicate Registrable(config: seq<ClientInfo>) { Bindable(config, |config|) }

  /** What a session cannot change: the ports that others hold on the server's machine, its own
      control port among them, and the addresses at which no internal service answers. */
  datatype World = World(taken: set<nat>, unreachable: set<string>)

  /** No listener was ever bound to a taken port, nothing dialled at an unreachable address. */
  ghost predicate Within(s: State, w: World) {
    && (forall p :: 0 <= p < |s.proxies| && s.proxies[p].bound ==> s.proxies[p].client.bindPort !in w.taken)
    && (forall i :: 0 <= i < |s.ints| ==> s.ints[i].addr !in w.unreachable)
  }

  /** The server can serve the configuration: at most 16 proxies, each on a port of its own that
      is unprivileged and free. */
  predicate Servable(config: seq<ClientInfo>, w: World) {
    Registrable(config) && forall i :: 0 <= i < |config| ==> config[i].bindPort !in w.taken
  }

  /** A listener that has acknowledged and accepted nobody yet. */
  function FreshListener(p: nat, ci: ClientInfo): Proxy {
    Proxy(p, BlankClient(ci), Listening, true, 0, 0, MAX_EXTERNAL)
  }

  /** The first n proxies are registered on both sides and nothing is under way. */
  ghost predicate Ready(s: State, config: seq<ClientInfo>, n: nat) {
    && n <= |config| && s.config == config && s.srv.SIdle? && s.nextProxyId == |s.proxies| == n <= MAX_PROXIES
    && (forall p :: 0 <= p < n ==> s.proxies[p] == FreshListener(p, config[p]))
    && s.down == Quiet(s.down.log) && s.up == Quiet(s.up.log)
    && s.cli == RegNext(n, |config|) && s.acked == n
    && (forall i :: i in s.configs <==> 0 <= i < n) && (forall i :: i in s.configs ==> s.configs[i] == config[i])
    && s.exts == map[] && s.conns == map[] && s.ints == [] && s.arrived == map[]
  }

  /** The next registration is on the wire. */
  lemma NextIsSent(s0: State, before: seq<Action>, s: State, n: nat) returns (run: seq<Action>, t: State)
    requires Exec(s0, before) == Some(s) && n < |s.config| && s.cli == CRegSend(n) && s.up == Quiet(s.up.log)
    ensures Exec(s0, run) == Some(t)
    ensures t == s.(cli := CRegWait(n), sent := s.sent + 1,
                    up := Loaded(s.up.log, L.Strip(L.Item(Register(s.config[n]), 0))))
  {
    hide Exec, Quiet, Loaded, L.Push;
    var it := L.Item(Register(s.config[n]), 0);
    QuietRoom(s.up.log);
    Then(s0, before, Client(CRegister), s);
    run := before + [Client(CRegister)];
    var s1 := DoClient(s, CRegister);
    CarryUp(s0, run, s1, s.up.log, it);
    run := run + [Up(L.Pop)] + [Up(L.Send)];
    t := s1.(up := Loaded(s.up.log, L.Strip(it)));
  }

  /** The server has read it. */
  lemma NextIsRead(s0: State, before: seq<Action>, s: State, n: nat) returns (run: seq<Action>, t: State)
    requires Exec(s0, before) == Some(s) && n < |s.config| && s.cli == CRegSend(n) && s.up == Quiet(s.up.log)
    requires s.srv.SIdle? && s.nextProxyId == |s.proxies| == n < MAX_PROXIES
    ensures Exec(s0, run) == Some(t)
    ensures t == s.(proxies := s.proxies + [NewProxy(n, BlankClient(s.config[n]))], nextProxyId := n + 1,
                    cli := CRegWait(n), sent := s.sent + 1, up := t.up)
    ensures t.up == Quiet(t.up.log)
  {
    hide Exec, Quiet, Loaded, L.Deliver;
    var it := L.Item(Register(s.config[n]), 0);
    var s2;
    run, s2 := NextIsSent(s0, before, s, n);
    LoadedWire(s.up.log, L.Strip(it));
    Then(s0, run, Server(STake), s2);
    run := run + [Server(STake)];
    Transit(s.up.log, it);
    QuietLog(s.up.log + [L.Strip(it)]);
    t := DoServer(s2, STake);
  }

  /** Its listener binds and acknowledges. */
  lemma NextAcks(s0: State, before: seq<Action>, s: State, n: nat) returns (run: seq<Action>, t: State)
    requires Exec(s0, before) == Some(s) && |s.proxies| == n + 1 && s.down == Quiet(s.down.log)
    requires s.proxies[n].pc.Starting? && s.proxies[n].id == n && s.proxies[n].client.bindPort >= 1024
    requires PortFree(s.proxies, n)
    ensures Exec(s0, run) == Some(t)
    ensures t == s.(proxies := s.proxies[n := s.proxies[n].(pc := Listening, bound := true)],
                    down := Loaded(s.down.log, L.Strip(L.Item(RegisterAck(s.proxies[n].client, true, n), 0))))
  {
    hide Exec, Quiet, Loaded, L.Push;
    Then(s0, before, Listener(n, Bind(true)), s);
    run := before + [Listener(n, Bind(true))];
    var s1 := DoListener(s, n, Bind(true));
    QuietRoom(s.down.log);
    Then(s0, run, Listener(n, Ack), s1);
    run := run + [Listener(n, Ack)];
    var s2 := DoListener(s1, n, Ack);
    var it := L.Item(RegisterAck(s.proxies[n].client, true, n), 0);
    CarryDown(s0, run, s2, s.down.log, it);
    run := run + [Down(L.Pop)] + [Down(L.Send)];
    t := s2.(down := Loaded(s.down.log, L.Strip(it)));
  }

  /** The client reads the acknowledgement and goes on. */
  lemma NextRegistered(s0: State, before: seq<Action>, s: State, n: nat) returns (run: seq<Action>, t: State)
    requires Exec(s0, before) == Some(s) && Ready(s, s.config, n) && n < |s.config| && n < MAX_PROXIES
    requires s.config[n].bindPort >= 1024
    requires forall i :: 0 <= i < n ==> s.config[i].bindPort != s.config[n].bindPort
    ensures Exec(s0, run) == Some(t) && Ready(t, s.config, n + 1)
  {
    hide Exec, Quiet, Loaded, L.Deliver;
    var s1;
    run, s1 := NextIsRead(s0, before, s, n);
    var s2;
    run, s2 := NextAcks(s0, run, s1, n);
    assert s2.proxies == s.proxies + [FreshListener(n, s.config[n])];
    hide Ready;
    var ack := L.Item(RegisterAck(BlankClient(s.config[n]), true, n), 0);
    LoadedWire(s.down.log, L.Strip(ack));
    Then(s0, run, Client(CTake), s2);
    run := run + [Client(CTake)];
    Transit(s.down.log, ack);
    QuietLog(s.down.log + [L.Strip(ack)]);
    t := DoClient(s2, CTake);
    ReadyNext(s, n, t);
  }

  lemma ReadyNext(s: State, n: nat, t: State)
    requires Ready(s, s.config, n) && n < |s.config| && n < MAX_PROXIES
    requires t == s.(proxies := s.proxies + [FreshListener(n, s.config[n])], nextProxyId := n + 1,
                     cli := RegNext(n + 1, |s.config|), sent := t.sent, acked := n + 1,
                     configs := s.configs[n := s.config[n]], up := t.up, down := t.down)
    requires t.up == Quiet(t.up.log) && t.down == Quiet(t.down.log)
    ensures Ready(t, s.config, n + 1)
  {
    hide Quiet;
  }

  lemma NoStep(s: State)
    ensures Exec(s, []) == Some(s)
  {
  }

  /** The first n proxies can be registered if the server may bind their ports. */
  lemma {:induction false} Registered(config: seq<ClientInfo>, n: nat) returns (run: seq<Action>, s: State)
    requires n <= |config| && Bindable(config, n)
    ensures Exec(Init(config), run) == Some(s) && Ready(s, config, n)
  {
    hide Exec;
    if n == 0 {
      run, s := [], Init(config);
      NoStep(s);
    } else {
      hide Ready;
      run, s := Registered(config, n - 1);
      assert s.config == config by { ReadyConfig(s, config, n - 1); }
      run, s := NextRegistered(Init(config), run, s, n - 1);
    }
  }

  lemma ReadyConfig(s: State, config: seq<ClientInfo>, n: nat)
    requires Ready(s, config, n)
    ensures s.config == config
  {
  }

  // ---------------------------------------------------------------- a chunk gets through

  /** The first connection of proxy p is being served and nothing is under way to the client. */
  ghost predicate Calm(s: State, p: nat) {
    && s.cli.CIdle? && s.srv.SIdle? && s.down == Quiet(s.down.log) && s.up == Quiet(s.up.log)
    && p in s.configs && p < |s.proxies| && First(p) in s.routes
    && First(p) in s.exts && s.exts[First(p)].rd.Reading? && s.exts[First(p)].dropped == []
  }

  function First(p: nat): Conn { Conn(p, 0) }

  /** A user connects to proxy p and is served. */
  lemma Connects(s0: State, before: seq<Action>, s: State, p: nat) returns (run: seq<Action>, t: State)
    requires Exec(s0, before) == Some(s) && p < |s.proxies|
    requires s.proxies[p].pc.Listening? && s.proxies[p].free > 0
    requires s.proxies[p].id == p && s.proxies[p].accepted == s.proxies[p].nextConnId == 0
    ensures Exec(s0, run) == Some(t)
    ensures |t.proxies| == |s.proxies| && (forall q :: 0 <= q < |s.proxies| ==> SameBinding(s.proxies[q], t.proxies[q]))
    ensures t.exts == s.exts[First(p) := Port(Reading, [], [], W.Spawn(W.Fresh()))]
    ensures t.routes == s.routes + {First(p)}
    ensures t.srv == s.srv && t.down == s.down && t.up == s.up && F.SameClient(s, t)
  {
    hide Exec, W.Fresh, W.Spawn;
    Then(s0, before, Listener(p, Accept), s);
    run := before + [Listener(p, Accept)];
    var s1 := DoListener(s, p, Accept);
    Then(s0, run, Listener(p, Permit), s1);
    run := run + [Listener(p, Permit)];
    t := DoListener(s1, p, Permit);
  }

  predicate SameBinding(px: Proxy, py: Proxy) { px.bound == py.bound && px.client == py.client }

  lemma Accepted(config: seq<ClientInfo>, p: nat) returns (run: seq<Action>, s: State)
    requires p < |config| && Registrable(config)
    ensures Exec(Init(config), run) == Some(s) && Calm(s, p) && Bindings(s, config)
    ensures s.ints == [] && s.conns == map[] && s.configs[p] == config[p]
    ensures s.exts[First(p)] == Port(Reading, [], [], W.Spawn(W.Fresh()))
  {
    hide Exec, Quiet, W.Fresh, W.Spawn;
    run, s := Registered(config, |config|);
    run, s := Connects(Init(config), run, s, p);
  }

  /** Every proxy has been bound for its own entry. */
  ghost predicate Bindings(s: State, config: seq<ClientInfo>) {
    && |s.proxies| == |config|
    && forall q :: 0 <= q < |config| ==> s.proxies[q].client == BlankClient(config[q])
  }

  lemma QuietLog(d: seq<L.Item>)
    ensures Quiet(d).log == d
  {
  }

  /** A chunk travels from the user onto the wire towards the client. */
  lemma SetsOut(s0: State, before: seq<Action>, s: State, k: Conn, chunk: Bytes) returns (run: seq<Action>, t: State)
    requires Exec(s0, before) == Some(s) && chunk != [] && s.down == Quiet(s.down.log) && k.p < |s.proxies|
    requires k in s.exts && s.exts[k].rd.Reading?
    ensures Exec(s0, run) == Some(t)
    ensures t == s.(exts := s.exts[k := s.exts[k].(got := s.exts[k].got + [chunk])],
                    down := Loaded(s.down.log, Chunk(k, chunk, 0)))
  {
    hide Exec, Quiet, Loaded, ExtSender;
    run := before;
    Then(s0, run, External(k, Read(chunk)), s);
    run := run + [External(k, Read(chunk))];
    var s1 := DoExternal(s, k, Read(chunk));
    QuietRoom(s.down.log);
    Then(s0, run, External(k, Send), s1);
    run := run + [External(k, Send)];
    var s2 := DoExternal(s1, k, Send);
    var it := Chunk(k, chunk, 0);
    CarryDown(s0, run, s2, s.down.log, it);
    run := run + [Down(L.Pop)] + [Down(L.Send)];
    t := s2.(down := Loaded(s.down.log, L.Strip(it)));
  }

  /** And into the client's hands. */
  lemma Travels(s0: State, before: seq<Action>, s: State, p: nat, chunk: Bytes) returns (run: seq<Action>, t: State)
    requires Exec(s0, before) == Some(s) && Calm(s, p) && chunk != []
    ensures Exec(s0, run) == Some(t)
    ensures var k := First(p);
      && t.exts == s.exts[k := s.exts[k].(got := s.exts[k].got + [chunk])]
      && t.cli == if k in s.conns then CSend(k, s.conns[k], chunk) else CDial(k, chunk)
    ensures t.down == Quiet(t.down.log) && t.srv == s.srv && t.routes == s.routes
    ensures t.configs == s.configs && t.conns == s.conns && t.ints == s.ints && t.proxies == s.proxies
      && t.up == s.up && t.arrived == s.arrived
  {
    hide Exec, Quiet, Loaded, L.Deliver;
    var s3;
    run, s3 := SetsOut(s0, before, s, First(p), chunk);
    var it := Chunk(First(p), chunk, 0);
    LoadedWire(s.down.log, it);
    Then(s0, run, Client(CTake), s3);
    run := run + [Client(CTake)];
    Transit(s.down.log, it);
    t := DoClient(s3, CTake);
    QuietLog(s.down.log + [it]);
  }

  lemma QuietRoom(d: seq<L.Item>)
    ensures L.CanPush(Quiet(d))
  {
  }

  lemma LoadedWire(d: seq<L.Item>, x: L.Item)
    ensures Loaded(d, x).wire == [x]
  {
  }

  /** The first chunk opens internal connection 0 and is queued to it. */
  lemma FirstQueued(config: seq<ClientInfo>, p: nat, chunk: Bytes) returns (run: seq<Action>, s: State)
    requires p < |config| && Registrable(config) && chunk != []
    ensures Exec(Init(config), run) == Some(s) && Calm(s, p) && Bindings(s, config)
    ensures s.exts[First(p)] == Port(Reading, [chunk], [], W.Spawn(W.Fresh()))
    ensures s.conns == map[First(p) := 0] && |s.ints| == 1
    ensures s.ints[0].at == First(p) && s.ints[0].addr == config[p].addr && s.configs[p] == config[p]
    ensures s.ints[0].port == Port(Reading, [], [], W.Push(W.Spawn(W.Fresh()), chunk))
  {
    hide Exec, Quiet, W.Push, W.Spawn, W.Fresh;
    var s0 := Init(config);
    var s1;
    run, s1 := Accepted(config, p);
    var s2;
    run, s2 := Travels(s0, run, s1, p, chunk);
    assert [] + [chunk] == [chunk];
    Then(s0, run, Client(CDialOk), s2);
    run := run + [Client(CDialOk)];
    var s3 := DoClient(s2, CDialOk);
    assert s3.ints == [s3.ints[0]];
    assert s3.conns == map[First(p) := 0];
    FreshRoom();
    Then(s0, run, Client(CPush), s3);
    run := run + [Client(CPush)];
    s := DoClient(s3, CPush);
  }

  lemma FreshRoom()
    ensures W.CanPush(W.Spawn(W.Fresh()))
  {
  }

  // ---------------------------------------------------------------- write tasks at work

  /** The write task after these steps, if each of them is possible. */
  function Writes(w: W.Writer, steps: seq<W.Step>, senders: bool): Option<W.Writer> {
    if steps == [] then Some(w)
    else
      match Writes(w, steps[..|steps| - 1], senders)
      case None => None
      case Some(v) =>
        var st := steps[|steps| - 1];
        if !st.Abandon? && W.Enabled(v, st, senders) then Some(W.Do(v, st)) else None
  }

  lemma WritesOn(w: W.Writer, steps: seq<W.Step>, senders: bool, st: W.Step)
    requires Writes(w, steps, senders).Some? && !st.Abandon?
    requires W.Enabled(Writes(w, steps, senders).value, st, senders)
    ensures Writes(w, steps + [st], senders) == Some(W.Do(Writes(w, steps, senders).value, st))
  {
    hide W.Do, W.Enabled;
    assert (steps + [st])[..|steps|] == steps;
  }

  /** A user's write task makes these steps. */
  lemma {:induction false} ExtWrites(s0: State, before: seq<Action>, s: State, k: Conn, steps: seq<W.Step>)
      returns (run: seq<Action>, t: State)
    requires Exec(s0, before) == Some(s) && k in s.exts && k.p < |s.proxies|
    requires Writes(s.exts[k].w, steps, ExtSender(s.srv, s.routes, k)).Some?
    ensures Exec(s0, run) == Some(t)
    ensures var w := Writes(s.exts[k].w, steps, ExtSender(s.srv, s.routes, k)).value;
      t == s.(exts := s.exts[k := s.exts[k].(w := w)])
  {
    hide Exec, W.Do, W.Enabled, ExtSender;
    if steps == [] {
      run, t := before, s;
      assert s.exts[k := s.exts[k]] == s.exts;
    } else {
      var st := steps[|steps| - 1];
      run, t := ExtWrites(s0, before, s, k, steps[..|steps| - 1]);
      Then(s0, run, External(k, Write(st)), t);
      run, t := run + [External(k, Write(st))], DoExternal(t, k, Write(st));
    }
  }

  /** Internal connection 0's write task makes these steps. */
  lemma {:induction false} IntWrites(s0: State, before: seq<Action>, s: State, steps: seq<W.Step>)
      returns (run: seq<Action>, t: State)
    requires Exec(s0, before) == Some(s) && |s.ints| == 1
    requires Writes(s.ints[0].port.w, steps, IntSender(s, 0)).Some?
    ensures Exec(s0, run) == Some(t)
    ensures var w := Writes(s.ints[0].port.w, steps, IntSender(s, 0)).value;
      t == s.(ints := [s.ints[0].(port := s.ints[0].port.(w := w))])
  {
    hide Exec, W.Do, W.Enabled;
    if steps == [] {
      run, t := before, s;
      assert s.ints == [s.ints[0]];
    } else {
      var st := steps[|steps| - 1];
      run, t := IntWrites(s0, before, s, steps[..|steps| - 1]);
      Then(s0, run, Inner(0, Write(st)), t);
      run, t := run + [Inner(0, Write(st))], DoInner(t, 0, Write(st));
    }
  }

  /** The task waits, with nothing left to do. */
  predicate Waits(w: W.Writer) { w.pc.Recv? && w.queue == [] && w.buf == [] && w.open }

  /** What a waiting task does with a chunk, without failures: it goes through the buffer and a
      flush, or directly. */
  function Chores(chunk: Bytes): seq<W.Step> {
    if |chunk| < W.BUFFER then [W.Take] + [W.Copy] + [W.Written] + [W.Socket(|chunk|)] + [W.Flushed]
    else [W.Take] + [W.Direct(|chunk|)] + [W.Written] + [W.Flushed]
  }

  lemma NoChore(w: W.Writer, senders: bool)
    ensures Writes(w, [], senders) == Some(w)
  {
  }

  /** And then the chunk is on the socket and the task waits again. */
  lemma ChoresDone(w: W.Writer, chunk: Bytes, senders: bool)
    requires Waits(w) && chunk != []
    ensures var v := Writes(W.Push(w, chunk), Chores(chunk), senders);
      v.Some? && Waits(v.value) && v.value.sock == w.sock + chunk
  {
    hide Writes;
    var w0 := W.Push(w, chunk);
    assert w0.queue == [chunk];
    NoChore(w0, senders);
    WritesOn(w0, [], senders, W.Take);
    assert [] + [W.Take] == [W.Take];
    var w1 := W.Do(w0, W.Take);
    if |chunk| < W.BUFFER {
      WritesOn(w0, [W.Take], senders, W.Copy);
      var w2 := W.Do(w1, W.Copy);
      assert w2.buf == chunk;
      WritesOn(w0, [W.Take] + [W.Copy], senders, W.Written);
      var w3 := W.Do(w2, W.Written);
      WritesOn(w0, [W.Take] + [W.Copy] + [W.Written], senders, W.Socket(|chunk|));
      var w4 := W.Do(w3, W.Socket(|chunk|));
      WritesOn(w0, [W.Take] + [W.Copy] + [W.Written] + [W.Socket(|chunk|)], senders, W.Flushed);
    } else {
      WritesOn(w0, [W.Take], senders, W.Direct(|chunk|));
      var w2 := W.Do(w1, W.Direct(|chunk|));
      WritesOn(w0, [W.Take] + [W.Direct(|chunk|)], senders, W.Written);
      var w3 := W.Do(w2, W.Written);
      WritesOn(w0, [W.Take] + [W.Direct(|chunk|)] + [W.Written], senders, W.Flushed);
    }
  }

  lemma FreshWaits()
    ensures Waits(W.Spawn(W.Fresh())) && W.Spawn(W.Fresh()).sock == []
  {
  }

  /** The user has sent the bytes `sent` and received `got`, all through one internal connection,
      whose service has received and sent the same; nothing is under way. */
  ghost predicate Talking(s: State, config: seq<ClientInfo>, p: nat, sent: Bytes, got: Bytes) {
    var k := First(p);
    && p < |config| && Calm(s, p) && Bindings(s, config)
    && Flat(s.exts[k].got) == sent && Waits(s.exts[k].w) && s.exts[k].w.sock == got
    && s.conns == map[k := 0] && |s.ints| == 1 && s.ints[0].at == k && s.ints[0].addr == config[p].addr
    && s.ints[0].port.rd.Reading? && s.ints[0].port.dropped == []
    && Flat(s.ints[0].port.got) == got && Waits(s.ints[0].port.w) && s.ints[0].port.w.sock == sent
  }

  /** The first chunk opens the conversation. */
  lemma Opens(config: seq<ClientInfo>, p: nat, chunk: Bytes) returns (run: seq<Action>, s: State)
    requires p < |config| && Registrable(config) && 0 < |chunk| <= READ_BUFFER
    ensures Exec(Init(config), run) == Some(s) && Talking(s, config, p, chunk, [])
  {
    hide Exec, Quiet, Writes, W.Push, W.Spawn, W.Fresh, Chores;
    run, s := FirstQueued(config, p, chunk);
    FlatPush([], chunk);
    assert [] + [chunk] == [chunk];
    FreshWaits();
    ChoresDone(W.Spawn(W.Fresh()), chunk, IntSender(s, 0));
    run, s := IntWrites(Init(config), run, s, Chores(chunk));
  }

  /** Something does get through: for every configuration the server can serve, every proxy of it
      and every chunk one read can yield, there is a run in which the bytes of a user of that proxy
      reach the socket of its internal service. */
  lemma DeliveryHappens(config: seq<ClientInfo>, p: nat, chunk: Bytes) returns (run: seq<Action>, s: State)
    requires p < |config| && Registrable(config) && 0 < |chunk| <= READ_BUFFER
    ensures Reaches(config, run, s) && !s.srv.SEnded? && Bindings(s, config)
    ensures First(p) in s.exts && Flat(s.exts[First(p)].got) == chunk
    ensures |s.ints| == 1 && s.ints[0].at == First(p) && s.ints[0].addr == config[p].addr
    ensures s.ints[0].port.w.sock == chunk
  {
    hide Exec, Quiet;
    run, s := Opens(config, p, chunk);
  }

  // ---------------------------------------------------------------- a stale clean-up

  lemma WriteFails(w: W.Writer, chunk: Bytes, senders: bool)
    requires w.pc.Recv? && w.queue == [chunk] && w.buf == [] && |chunk| >= W.BUFFER
    ensures var v := Writes(w, [W.Take] + [W.WriteError] + [W.Finish], senders); v.Some? && !v.value.open
  {
    hide Writes;
    NoChore(w, senders);
    WritesOn(w, [], senders, W.Take);
    assert [] + [W.Take] == [W.Take];
    WritesOn(w, [W.Take], senders, W.WriteError);
    WritesOn(w, [W.Take] + [W.WriteError], senders, W.Finish);
  }

  /** The internal service refuses bytes that the buffer does not hide from it: connection 0's
      write task ends and its channel closes, while its read task lives on and its entry stays. */
  lemma WriteTaskDies(config: seq<ClientInfo>, p: nat, chunk: Bytes) returns (run: seq<Action>, s: State)
    requires p < |config| && Registrable(config) && W.BUFFER <= |chunk| <= READ_BUFFER
    ensures Exec(Init(config), run) == Some(s) && Calm(s, p) && Bindings(s, config)
    ensures s.conns == map[First(p) := 0] && |s.ints| == 1 && s.configs[p] == config[p]
    ensures s.ints[0].at == First(p) && s.ints[0].addr == config[p].addr
    ensures s.ints[0].port.rd.Reading? && !s.ints[0].port.w.open
  {
    hide Exec, Quiet, IntSender, Writes;
    var s0 := Init(config);
    run, s := FirstQueued(config, p, chunk);
    WriteFails(s.ints[0].port.w, chunk, IntSender(s, 0));
    run, s := IntWrites(s0, run, s, [W.Take] + [W.WriteError] + [W.Finish]);
  }

  /** The next chunk finds the channel closed and is dropped; the one after it opens
      connection 1 under the same key. */
  lemma Reopened(config: seq<ClientInfo>, p: nat, chunk: Bytes) returns (run: seq<Action>, s: State)
    requires p < |config| && Registrable(config) && W.BUFFER <= |chunk| <= READ_BUFFER
    ensures Exec(Init(config), run) == Some(s) && !s.srv.SEnded? && Bindings(s, config)
    ensures s.conns == map[First(p) := 1] && |s.ints| == 2
    ensures forall i :: 0 <= i < 2 ==> s.ints[i].at == First(p) && s.ints[i].addr == config[p].addr
    ensures s.ints[0].port.rd.Reading? && s.ints[1].port.rd.Reading? && s.ints[1].port.w.open
  {
    hide Exec, Quiet;
    var s0 := Init(config);
    var s1;
    run, s1 := WriteTaskDies(config, p, chunk);
    var s2;
    run, s2 := Travels(s0, run, s1, p, chunk);
    Then(s0, run, Client(CPushFail), s2);
    run := run + [Client(CPushFail)];
    var s3 := DoClient(s2, CPushFail);
    assert s3.conns == map[];
    var s4;
    run, s4 := Travels(s0, run, s3, p, chunk);
    Then(s0, run, Client(CDialOk), s4);
    run := run + [Client(CDialOk)];
    s := DoClient(s4, CDialOk);
    assert s.conns == map[First(p) := 1];
  }

  /** Connection 0's service closes: its read task is about to clean up. */
  lemma AboutToCleanUp(config: seq<ClientInfo>, p: nat, chunk: Bytes) returns (run: seq<Action>, s: State)
    requires p < |config| && Registrable(config) && W.BUFFER <= |chunk| <= READ_BUFFER
    ensures Exec(Init(config), run) == Some(s) && !s.srv.SEnded? && Bindings(s, config)
    ensures s.conns == map[First(p) := 1] && |s.ints| == 2
    ensures forall i :: 0 <= i < 2 ==> s.ints[i].at == First(p) && s.ints[i].addr == config[p].addr
    ensures s.ints[0].port.rd.Finished? && s.ints[1].port.rd.Reading? && s.ints[1].port.w.open
  {
    hide Exec;
    var s1;
    run, s1 := Reopened(config, p, chunk);
    Then(Init(config), run, Inner(0, Eof), s1);
    run := run + [Inner(0, Eof)];
    s := DoInner(s1, 0, Eof);
  }

  /** A read task removes whatever its key maps to: here connection 0's clean-up takes the
      entry of connection 1, which is newer, open and still being read. So a table entry may
      vanish before its own connection ends, and a third connection may be opened beside it. */
  lemma StaleCleanupRemovesNewer(config: seq<ClientInfo>, p: nat, chunk: Bytes) returns (run: seq<Action>, s: State)
    requires p < |config| && Registrable(config) && W.BUFFER <= |chunk| <= READ_BUFFER
    ensures Reaches(config, run, s)
    ensures First(p) !in s.conns && |s.ints| == 2 && s.ints[1].at == First(p)
    ensures s.ints[1].port.rd.Reading? && s.ints[1].port.w.open
  {
    hide Exec;
    var s1;
    run, s1 := AboutToCleanUp(config, p, chunk);
    Then(Init(config), run, Inner(0, Unlink), s1);
    run := run + [Inner(0, Unlink)];
    s := DoInner(s1, 0, Unlink);
  }

  // ---------------------------------------------------------------- early data

  /** A client with more than one proxy may give up although nothing failed: a user of the
      first proxy speaks while the client still waits for the second answer. */
  lemma EarlyDataEndsRegistration(config: seq<ClientInfo>, chunk: Bytes) returns (run: seq<Action>, s: State)
    requires |config| >= 2 && config[0].bindPort >= 1024 && 0 < |chunk| <= READ_BUFFER
    ensures Reaches(config, run, s)
    ensures s.cli.CEnded? && s.acked == 1 && s.down.open && !s.down.cut
    ensures Arrived(s.arrived, First(0)) == [Arrival(chunk, WhileRegistering)]
    ensures |s.proxies| == 1 && s.proxies[0].client == BlankClient(config[0]) && s.ints == []
  {
    hide Exec, Quiet, Loaded, W.Fresh, W.Spawn, L.Push;
    var s0 := Init(config);
    var s1;
    run, s1 := Registered(config, 1);
    QuietRoom(s1.up.log);
    Then(s0, run, Client(CRegister), s1);
    run := run + [Client(CRegister)];
    var s2 := DoClient(s1, CRegister);
    var s3;
    run, s3 := Connects(s0, run, s2, 0);
    var s4;
    run, s4 := SetsOut(s0, run, s3, First(0), chunk);
    var it := Chunk(First(0), chunk, 0);
    LoadedWire(s3.down.log, it);
    Then(s0, run, Client(CTake), s4);
    run := run + [Client(CTake)];
    Transit(s3.down.log, it);
    s := DoClient(s4, CTake);
    QuietOpen(s3.down.log + [it]);
  }

  lemma QuietOpen(d: seq<L.Item>)
    ensures Quiet(d).open && !Quiet(d).cut
  {
  }
}
