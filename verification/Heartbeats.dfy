/** Every ping the server reads is answered by exactly one pong, until the tunnel is shut. */
module Heartbeats {
  import opened Frames
  import opened Decisions
  import opened Tunnel
  import F = StepFrames
  import L = Link
  import W = Writer

  function Pings(s: seq<L.Item>): nat {
    if s == [] then 0 else Pings(s[..|s| - 1]) + if IsPing(s[|s| - 1].frame) then 1 else 0
  }

  function Pongs(s: seq<L.Item>): nat {
    if s == [] then 0 else Pongs(s[..|s| - 1]) + if IsPong(s[|s| - 1].frame) then 1 else 0
  }

  lemma PingsPush(s: seq<L.Item>, it: L.Item)
    ensures Pings(s + [it]) == Pings(s) + if IsPing(it.frame) then 1 else 0
  {
    assert (s + [it])[..|s|] == s;
  }

  lemma PongsPush(s: seq<L.Item>, it: L.Item)
    ensures Pongs(s + [it]) == Pongs(s) + if IsPong(it.frame) then 1 else 0
  {
    assert (s + [it])[..|s|] == s;
  }

  /** The main loop is about to queue a pong. */
  predicate Owes(srv: SrvMain) { srv.SReply? && IsPong(srv.reply) }

  ghost predicate Answered(srv: SrvMain, pings: nat, pongs: nat, open: bool) {
    || pings == pongs + (if Owes(srv) then 1 else 0)
    || (pings == pongs + 1 && srv.SEnded? && !open)
  }

  ghost predicate Inv(s: State) { Answered(s.srv, Pings(s.up.delivered), Pongs(s.down.log), s.down.open) }

  lemma TakeUpKeeps(s: State)
    requires Inv(s) && s.srv.SIdle? && s.up.wire != []
    ensures Inv(TakeUp(s))
  {
    hide Pings, Pongs;
    PingsPush(s.up.delivered, s.up.wire[0]);
  }

  lemma ServerKeeps(s: State, a: ServerStep)
    requires Inv(s) && ServerEnabled(s, a)
    ensures Inv(DoServer(s, a))
  {
    hide Pings, Pongs, TakeUp, W.Push;
    if a.STake? {
      TakeUpKeeps(s);
    } else if a.SReplied? {
      PongsPush(s.down.log, L.Strip(L.Item(s.srv.reply, 0)));
    }
  }

  lemma ListenerKeeps(s: State, p: nat, a: ListenerStep)
    requires Inv(s) && ListenerEnabled(s, p, a)
    ensures Inv(DoListener(s, p, a))
  {
    hide Pings, Pongs, W.GiveUp, W.Spawn, W.Fresh;
    if a.Ack? { PongsPush(s.down.log, L.Strip(L.Item(AckFrame(s.proxies[p], s.proxies[p].pc.ok), 0))); }
  }

  lemma ExternalKeeps(s: State, k: Conn, a: PortStep)
    requires Inv(s) && Enabled(s, External(k, a))
    ensures Inv(DoExternal(s, k, a))
  {
    hide Pings, Pongs, W.Do, W.Enabled, ExtSender;
    if a.Send? { PongsPush(s.down.log, L.Strip(Chunk(k, s.exts[k].rd.chunk, 0))); }
  }

  lemma Keeps(s: State, a: Action)
    requires Inv(s) && Enabled(s, a)
    ensures Inv(Do(s, a))
  {
    hide Pings, Pongs, DoServer, DoListener, DoExternal, DoClient, DoInner, L.Do;
    match a
    case Server(ss) => ServerKeeps(s, ss);
    case Listener(p, ps) => ListenerKeeps(s, p, ps);
    case External(k, xs) => ExternalKeeps(s, k, xs);
    case Down(ls) => F.LinkFrame(s.down, ls);
    case Up(ls) => F.LinkFrame(s.up, ls);
    case Client(cs) => F.ClientFrame(s, cs);
    case Inner(i, xs) => F.InnerFrame(s, i, xs);
  }

  lemma {:induction false} RunKeeps(config: seq<ClientInfo>, run: seq<Action>)
    requires Exec(Init(config), run).Some?
    ensures Inv(Exec(Init(config), run).value)
  {
    hide Do, Enabled, Answered;
    if run != [] {
      hide Inv;
      RunKeeps(config, run[..|run| - 1]);
      Keeps(Exec(Init(config), run[..|run| - 1]).value, run[|run| - 1]);
    } else {
      assert Answered(SIdle, 0, 0, true) by { NoneYet(); }
    }
  }

  lemma NoneYet()
    ensures Answered(SIdle, 0, 0, true)
  {
  }

  /** In every run the pongs ever queued match the pings read, counting the one being queued;
      only a server that gave up on a shut tunnel leaves a ping unanswered. */
  lemma EveryPingAnsweredOnce(config: seq<ClientInfo>, run: seq<Action>, s: State)
    requires Reaches(config, run, s)
    ensures s.down.open || !s.srv.SEnded? ==>
      Pings(s.up.delivered) == Pongs(s.down.log) + if s.srv.SReply? && IsPong(s.srv.reply) then 1 else 0
    ensures Pongs(s.down.log) <= Pings(s.up.delivered) <= Pongs(s.down.log) + 1
  {
    hide Exec, Pings, Pongs;
    RunKeeps(config, run);
  }
}
