/** The registration phase of the tunnel's client is the stop-and-wait loop of the client session,
    run on what it read. */
module RegistrationRun {
  import opened Frames
  import opened Decisions
  import opened Tunnel
  import opened Flows
  import opened Invariant
  import CS = ClientSession
  import F = StepFrames
  import L = Link
  import W = Writer
  import T = Theorems

  /** What an action is to a registration that is under way, if anything: the frame it reads, the
      wait that ends without one, or the Register that cannot be queued. */
  function Reply(s: State, a: Action): seq<CS.Reply>
    requires Enabled(s, a)
  {
    match a
    case Client(CTake) => if s.cli.CRegWait? then [CS.Read(s.down.wire[0].frame)] else []
    case Client(CStop) => if s.cli.CRegWait? then [CS.Timeout] else if s.cli.CRegSend? then [CS.NotQueued] else []
    case _ => []
  }

  function Replies(s: State, run: seq<Action>): seq<CS.Reply>
    requires Exec(s, run).Some?
  {
    if run == [] then []
    else
      var init := run[..|run| - 1];
      Replies(s, init) + Reply(Exec(s, init).value, run[|run| - 1])
  }

  /** Where the loop stands after these replies, and that it is over once one is no success. */
  ghost predicate Stands(cli: CliMain, n: nat, sent: nat, acked: nat, replies: seq<CS.Reply>) {
    match cli
    case CRegSend(i) => |replies| == acked == sent == i < n
    case CRegWait(i) => |replies| == acked == i < n && sent == i + 1
    case CEnded =>
      || |replies| == acked == sent == n
      || (|replies| == acked + 1 <= n && sent == if replies[acked].NotQueued? then acked else acked + 1)
    case _ => |replies| == acked == sent == n
  }

  ghost predicate Follows(s: State, replies: seq<CS.Reply>) {
    && s.acked == CS.Successes(replies) && s.acked <= |s.config|
    && s.configs == CS.Filed(s.config, replies, s.acked)
    && Stands(s.cli, |s.config|, s.sent, s.acked, replies)
  }

  lemma {:induction false} OneMore(replies: seq<CS.Reply>, r: CS.Reply)
    requires CS.Successes(replies) == |replies|
    ensures CS.Successes(replies + [r]) == |replies| + if CS.Success(r) then 1 else 0
  {
    if replies == [] {
      assert ([] + [r])[1..] == [];
    } else {
      OneMore(replies[1..], r);
      assert (replies + [r])[1..] == replies[1..] + [r];
    }
  }

  lemma {:induction false} SameFiled(proxies: seq<ClientInfo>, replies: seq<CS.Reply>, r: CS.Reply, n: nat)
    requires n <= CS.Successes(replies) && n <= CS.Successes(replies + [r]) && n <= |proxies|
    ensures CS.Filed(proxies, replies + [r], n) == CS.Filed(proxies, replies, n)
  {
    if n == 0 {
    } else {
      SameFiled(proxies, replies, r, n - 1);
    }
  }

  /** The client reads its answer, or gives up waiting for it, or cannot ask. */
  lemma Answered(s: State, replies: seq<CS.Reply>, r: CS.Reply)
    requires Follows(s, replies) && (s.cli.CRegWait? || s.cli.CRegSend?)
    ensures var n := CS.Successes(replies + [r]);
      && n == (if CS.Success(r) then s.acked + 1 else s.acked)
      && n <= |s.config|
      && CS.Filed(s.config, replies + [r], n) ==
           if CS.Success(r) then s.configs[r.frame.proxyId := s.config[s.acked]] else s.configs
  {
    hide CS.Success;
    OneMore(replies, r);
    SameFiled(s.config, replies, r, s.acked);
  }

  /** Everything else a client does leaves the counts and the map alone. */
  lemma ClientCounts(s: State, a: ClientStep)
    requires ClientEnabled(s, a) && Forwarding(s.cli)
    ensures var t := DoClient(s, a);
      && t.acked == s.acked && t.sent == s.sent && t.configs == s.configs
      && (Forwarding(t.cli) || t.cli.CEnded?)
  {
    hide L.Push, L.Deliver, L.Shut, W.Push, W.Fresh, Note, ClientDecide;
  }

  lemma ClientStep(s: State, a: ClientStep, replies: seq<CS.Reply>)
    requires Follows(s, replies) && ClientEnabled(s, a)
    ensures Follows(DoClient(s, a), replies + Reply(s, Client(a)))
  {
    hide L.Push, L.Deliver, L.Shut, W.Push, W.Fresh, Note, CS.Successes, CS.Filed;
    assert replies + [] == replies;
    if Forwarding(s.cli) {
      hide DoClient;
      ClientCounts(s, a);
      F.ClientFrame(s, a);
    } else if Reply(s, Client(a)) != [] {
      Answered(s, replies, Reply(s, Client(a))[0]);
    }
  }

  lemma Step(s: State, a: Action, replies: seq<CS.Reply>)
    requires Follows(s, replies) && Enabled(s, a)
    ensures Follows(Do(s, a), replies + Reply(s, a))
  {
    hide DoServer, DoListener, DoExternal, DoClient, DoInner, L.Do, CS.Successes, CS.Filed;
    assert replies + [] == replies;
    match a
    case Server(ss) => F.ServerFrame(s, ss);
    case Listener(p, ps) => F.ListenerFrame(s, p, ps);
    case External(k, xs) => F.ExternalFrame(s, k, xs);
    case Down(_) =>
    case Up(_) =>
    case Client(cs) => ClientStep(s, cs, replies);
    case Inner(i, xs) => F.InnerFrame(s, i, xs);
  }

  lemma {:induction false} RunFollows(config: seq<ClientInfo>, run: seq<Action>)
    requires Exec(Init(config), run).Some?
    ensures Follows(Exec(Init(config), run).value, Replies(Init(config), run))
  {
    hide Do, Enabled;
    if run == [] {
    } else {
      hide Follows, Reply;
      var init := run[..|run| - 1];
      RunFollows(config, init);
      Step(Exec(Init(config), init).value, run[|run| - 1], Replies(Init(config), init));
    }
  }

  /** In every run the client has queued, counted and filed what RegisterAll sends, counts and files
      on the replies it got, and it forwards only after a success for every proxy. */
  lemma RegistrationIsPlain(config: seq<ClientInfo>, run: seq<Action>, s: State)
    requires Reaches(config, run, s)
    ensures var replies := Replies(Init(config), run);
      && |replies| <= |config| && s.acked == CS.Successes(replies)
      && s.configs == CS.Filed(config, replies, CS.Successes(replies))
      && Stands(s.cli, |config|, s.sent, s.acked, replies)
    ensures |Regs(s.up.log)| == s.sent
    ensures forall j :: 0 <= j < s.sent ==> j < |config| && Regs(s.up.log)[j] == Register(BlankClient(config[j]))
    ensures Forwarding(s.cli) ==> forall j :: 0 <= j < |config| ==>
      var r := Replies(Init(config), run)[j]; r.Read? && r.frame.RegisterAck? && r.frame.success
  {
    hide Exec, Replies, CS.Filed, Structure, AckOrder, Downstream, Upstream, HandledOk, AcksOk, ConfigsOk, Regs, Acks;
    RunFollows(config, run);
    T.Always(config, run, s);
  }
}
