/** What the steps of one task leave alone: the server's tasks the client, and the other way round. */
module StepFrames {
  import opened Decisions
  import opened Tunnel
  import L = Link
  import W = Writer

  ghost predicate SameClient(s: State, t: State) {
    && t.config == s.config && t.cli == s.cli && t.sent == s.sent && t.acked == s.acked && t.configs == s.configs
    && t.conns == s.conns && t.ints == s.ints && t.arrived == s.arrived
  }

  ghost predicate SameServer(s: State, t: State) {
    && t.config == s.config && t.srv == s.srv && t.nextProxyId == s.nextProxyId
    && t.proxies == s.proxies && t.routes == s.routes && t.exts == s.exts
  }

  /** Nothing was read from the link, nothing queued to it, and it was not opened. */
  ghost predicate SameEnds(l: L.Link, m: L.Link) {
    m.log == l.log && m.delivered == l.delivered && (m.open ==> l.open)
  }

  lemma LinkFrame(l: L.Link, st: L.Step)
    requires L.Enabled(l, st)
    ensures SameEnds(l, L.Do(l, st))
  {
  }

  lemma ShutFrame(l: L.Link)
    ensures SameEnds(l, L.Shut(l))
  {
  }

  lemma ServerFrame(s: State, a: ServerStep)
    requires ServerEnabled(s, a)
    ensures SameClient(s, DoServer(s, a)) && DoServer(s, a).up.log == s.up.log
  {
    hide ServerDecide, AwaitAfter, L.Push, W.Push;
  }

  lemma ListenerFrame(s: State, p: nat, a: ListenerStep)
    requires ListenerEnabled(s, p, a)
    ensures var t := DoListener(s, p, a); SameClient(s, t) && t.up == s.up && t.srv == s.srv
  {
    hide L.Push, W.GiveUp, W.Spawn, W.Fresh, PortFree;
  }

  lemma ExternalFrame(s: State, k: Conn, a: PortStep)
    requires Enabled(s, External(k, a))
    ensures var t := DoExternal(s, k, a); SameClient(s, t) && t.up == s.up && t.srv == s.srv
  {
    hide L.Push, W.Do, W.Enabled, DoPort, PortEnabled, Chunk;
  }

  lemma ClientFrame(s: State, a: ClientStep)
    requires ClientEnabled(s, a)
    ensures var t := DoClient(s, a);
      && SameServer(s, t) && t.up.delivered == s.up.delivered
      && t.down.log == s.down.log && t.down.open == s.down.open
  {
    hide Note, W.Push, W.Fresh, ClientDecide, AwaitClient;
  }

  lemma InnerFrame(s: State, i: nat, a: PortStep)
    requires Enabled(s, Inner(i, a))
    ensures var t := DoInner(s, i, a);
      && SameServer(s, t) && t.down == s.down && t.up.delivered == s.up.delivered
      && t.cli == s.cli && t.configs == s.configs && t.sent == s.sent && t.acked == s.acked && t.arrived == s.arrived
      && |t.ints| == |s.ints|
  {
    hide W.Do, W.Enabled, DoPort, PortEnabled, Chunk;
  }
}
