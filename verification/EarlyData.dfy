/** Exactly which clients can be surprised by data while they register. */
module EarlyData {
  import opened Seqs
  import opened Frames
  import opened Decisions
  import opened Tunnel
  import opened Invariant
  import F = StepFrames
  import L = Link
  import W = Writer
  import T = Theorems
  import A = Answers
  import opened Scenarios

  ghost predicate IsEarly(arr: seq<Arrival>, x: nat) { x < |arr| && arr[x].fate == WhileRegistering }

  ghost predicate NoneEarly(arrived: map<Conn, seq<Arrival>>) {
    forall k, x: nat :: !IsEarly(Arrived(arrived, k), x)
  }

  lemma NoteNotEarly(arrived: map<Conn, seq<Arrival>>, k: Conn, data: Bytes, fate: Fate)
    requires NoneEarly(arrived) && fate != WhileRegistering
    ensures NoneEarly(Note(arrived, k, data, fate))
  {
    var arrived' := Note(arrived, k, data, fate);
    forall j, x: nat ensures !IsEarly(Arrived(arrived', j), x) {
      assert !IsEarly(Arrived(arrived, j), x);
    }
  }

  /** Early data means an earlier registration succeeded and another one is still open. */
  lemma EarlyNeedsTwo(s: State)
    requires Inv(s) && s.cli.CRegWait? && s.down.wire != [] && s.down.wire[0].frame.Data?
    ensures |s.config| >= 2 && s.acked >= 1
  {
    hide Structure, AckOrder, Downstream, Upstream, HandledOk, AcksOk;
    A.EarlyData(s);
  }

  /** Once it succeeded, the first proxy's port is one the server could bind. */
  lemma FirstIsBound(s: State)
    requires Inv(s) && s.acked >= 1
    ensures |s.proxies| >= 1 && |s.config| >= 1 && s.proxies[0].bound && s.config[0].bindPort >= 1024
    ensures s.proxies[0].client.bindPort == s.config[0].bindPort
  {
    hide AckOrder, Downstream, Upstream, L.Inv, ExtsOk, PermitsOk, SrvOk, AcksOk;
    T.AckedIsBound(s, 0);
    assert ProxyOk(s.proxies[0], 0);
  }

  /** Early data has ended the client, which had to have more than one proxy. */
  ghost predicate Fatal(s: State) {
    NoneEarly(s.arrived) || (s.cli.CEnded? && |s.config| >= 2 && s.acked >= 1)
  }

  lemma ClientStep(s: State, a: ClientStep)
    requires Inv(s) && ClientEnabled(s, a) && Fatal(s)
    ensures Fatal(DoClient(s, a))
  {
    hide Inv, NoneEarly, Note, L.Push, L.Shut, L.Deliver, W.Push, W.Fresh;
    match a
    case CRegister =>
    case CTake =>
      var f := s.down.wire[0].frame;
      if f.Data? {
        if s.cli.CRegWait? {
          EarlyNeedsTwo(s);
        } else {
          NoteNotEarly(s.arrived, Conn(f.dataProxyId, f.connId), f.data, Unknown);
        }
      }
    case CDialOk =>
    case CDialFail => NoteNotEarly(s.arrived, s.cli.at, s.cli.data, DialFailed);
    case CPush => NoteNotEarly(s.arrived, s.cli.at, s.cli.data, ToInternal(s.cli.to));
    case CPushFail => NoteNotEarly(s.arrived, s.cli.at, s.cli.data, ChannelClosed);
    case CStop =>
    case CPing =>
  }

  lemma Step(s: State, a: Action)
    requires Inv(s) && Enabled(s, a) && Fatal(s)
    ensures Fatal(Do(s, a))
  {
    hide Inv, NoneEarly, DoServer, DoListener, DoExternal, DoClient, DoInner, L.Do;
    match a
    case Server(ss) => F.ServerFrame(s, ss);
    case Listener(p, ps) => F.ListenerFrame(s, p, ps);
    case External(k, xs) => F.ExternalFrame(s, k, xs);
    case Down(ls) =>
    case Up(ls) =>
    case Client(cs) => ClientStep(s, cs);
    case Inner(i, xs) => F.InnerFrame(s, i, xs);
  }

  lemma {:induction false} AlwaysFatal(config: seq<ClientInfo>, run: seq<Action>)
    requires Exec(Init(config), run).Some?
    ensures Fatal(Exec(Init(config), run).value)
  {
    hide Do, Enabled, Inv;
    if run == [] {
      assert Init(config).arrived == map[];
    } else {
      hide Fatal;
      var init := run[..|run| - 1];
      AlwaysFatal(config, init);
      T.Always(config, init, Exec(Init(config), init).value);
      Step(Exec(Init(config), init).value, run[|run| - 1]);
    }
  }

  /** In every run, data that reached the client while it registered has ended it, and its first
      proxy had been bound. */
  lemma EarlyDataIsFatal(config: seq<ClientInfo>, run: seq<Action>, s: State, k: Conn, x: nat)
    requires Reaches(config, run, s)
    requires x < |Arrived(s.arrived, k)| && Arrived(s.arrived, k)[x].fate == WhileRegistering
    ensures s.cli.CEnded? && |config| >= 2 && config[0].bindPort >= 1024
    ensures |s.proxies| >= 1 && s.proxies[0].bound && s.proxies[0].client.bindPort == config[0].bindPort
  {
    hide Exec, Inv, NoneEarly;
    AlwaysFatal(config, run);
    T.Always(config, run, s);
    if NoneEarly(s.arrived) {
      Member(s.arrived, k, x);
      assert false;
    }
    FirstIsBound(s);
  }

  /** Whatever the surroundings: a client can read data while it registers, and so give up, exactly
      when it has two or more proxies and the first asks for a port that is unprivileged and free. */
  lemma EarlyDataExactly(config: seq<ClientInfo>, w: World)
    ensures (exists run, s, k, x :: Reaches(config, run, s) && Within(s, w) && 0 <= x < |Arrived(s.arrived, k)|
               && Arrived(s.arrived, k)[x].fate == WhileRegistering)
      <==> |config| >= 2 && config[0].bindPort >= 1024 && config[0].bindPort !in w.taken
  {
    hide Exec;
    if |config| >= 2 && config[0].bindPort >= 1024 && config[0].bindPort !in w.taken {
      var run, s := EarlyDataEndsRegistration(config, [0]);
      assert Within(s, w) && Arrived(s.arrived, First(0))[0].fate == WhileRegistering;
    }
    forall run, s, k, x | Reaches(config, run, s) && Within(s, w) && 0 <= x < |Arrived(s.arrived, k)|
                          && Arrived(s.arrived, k)[x].fate == WhileRegistering
      ensures |config| >= 2 && config[0].bindPort >= 1024 && config[0].bindPort !in w.taken
    {
      EarlyDataIsFatal(config, run, s, k, x);
    }
  }

  lemma Member(arrived: map<Conn, seq<Arrival>>, k: Conn, x: nat)
    requires NoneEarly(arrived)
    ensures !IsEarly(Arrived(arrived, k), x)
  {
  }
}
