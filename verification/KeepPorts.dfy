/** No two listeners of a session hold the same port, and a listener that was bound stays until
    the session is torn down. */
module KeepPorts {
  import opened Decisions
  import opened Tunnel
  import opened Invariant
  import F = StepFrames
  import L = Link
  import W = Writer

  ghost predicate PortsOk(proxies: seq<Proxy>, ended: bool) {
    && (forall p, q :: 0 <= p < q < |proxies| && Bound(proxies[p]) && Bound(proxies[q]) ==>
          proxies[p].client.bindPort != proxies[q].client.bindPort)
    && (forall p :: 0 <= p < |proxies| && proxies[p].bound && proxies[p].pc.Ended? ==> ended)
  }

  lemma SpawnKeeps(proxies: seq<Proxy>, px: Proxy, ended: bool)
    requires PortsOk(proxies, ended) && !px.bound
    ensures PortsOk(proxies + [px], ended)
  {
  }

  /** A listener that keeps its port, or gives it up at the end of the session. */
  lemma SameKeeps(proxies: seq<Proxy>, p: nat, px: Proxy, ended: bool)
    requires PortsOk(proxies, ended) && p < |proxies| && px.client == proxies[p].client
    requires Bound(px) ==> Bound(proxies[p])
    requires px.bound && px.pc.Ended? ==> ended
    ensures PortsOk(proxies[p := px], ended)
  {
  }

  lemma BindKeeps(proxies: seq<Proxy>, p: nat, px: Proxy, ended: bool)
    requires PortsOk(proxies, ended) && p < |proxies| && px.client == proxies[p].client
    requires PortFree(proxies, p) && !px.pc.Ended?
    ensures PortsOk(proxies[p := px], ended)
  {
  }

  lemma ServerKeeps(s: State, a: ServerStep)
    requires PortsOk(s.proxies, s.srv.SEnded?) && ServerEnabled(s, a)
    ensures PortsOk(DoServer(s, a).proxies, DoServer(s, a).srv.SEnded?)
  {
    hide PortsOk, L.Push, L.Deliver, W.Push;
    if a.STake? {
      var f := s.up.wire[0].frame;
      if f.Register? && |s.proxies| < MAX_PROXIES {
        SpawnKeeps(s.proxies, NewProxy(s.nextProxyId, f.client), false);
      }
    } else if DoServer(s, a).srv.SEnded? {
      TeardownKeeps(s.proxies, s.srv.SEnded?);
    }
  }

  lemma TeardownKeeps(proxies: seq<Proxy>, ended: bool)
    requires PortsOk(proxies, ended)
    ensures PortsOk(proxies, true)
  {
  }

  lemma ListenerKeeps(s: State, p: nat, a: ListenerStep)
    requires PortsOk(s.proxies, s.srv.SEnded?) && ProxiesOk(s.proxies, s.nextProxyId) && ListenerEnabled(s, p, a)
    ensures PortsOk(DoListener(s, p, a).proxies, DoListener(s, p, a).srv.SEnded?)
  {
    hide PortsOk, PortFree, L.Push, W.GiveUp, W.Spawn, W.Fresh;
    assert ProxyOk(s.proxies[p], p);
    var px := DoListener(s, p, a).proxies[p];
    if a.Bind? && a.ok {
      BindKeeps(s.proxies, p, px, s.srv.SEnded?);
    } else {
      SameKeeps(s.proxies, p, px, s.srv.SEnded?);
    }
  }

  lemma ExternalKeeps(s: State, k: Conn, a: PortStep)
    requires PortsOk(s.proxies, s.srv.SEnded?) && Enabled(s, External(k, a))
    ensures PortsOk(DoExternal(s, k, a).proxies, DoExternal(s, k, a).srv.SEnded?)
  {
    hide PortsOk, L.Push, W.Do, W.Enabled, DoPort, ExtSender;
    if a.Release? {
      assert PortsOk(s.proxies, s.srv.SEnded?) ==> Settled(s, k.p) by { BoundIsSettled(s, k.p); }
      SameKeeps(s.proxies, k.p, DoExternal(s, k, a).proxies[k.p], s.srv.SEnded?);
    }
  }

  ghost predicate Settled(s: State, p: nat)
    requires p < |s.proxies|
  {
    s.proxies[p].bound && s.proxies[p].pc.Ended? ==> s.srv.SEnded?
  }

  lemma BoundIsSettled(s: State, p: nat)
    requires p < |s.proxies|
    ensures PortsOk(s.proxies, s.srv.SEnded?) ==> Settled(s, p)
  {
  }

  lemma Keeps(s: State, a: Action)
    requires PortsOk(s.proxies, s.srv.SEnded?) && Structure(s) && Enabled(s, a)
    ensures PortsOk(Do(s, a).proxies, Do(s, a).srv.SEnded?)
  {
    hide PortsOk, L.Inv, ProxiesOk, ExtsOk, PermitsOk, SrvOk, DoServer, DoListener, DoExternal, DoClient, DoInner, L.Do;
    match a
    case Server(ss) => ServerKeeps(s, ss);
    case Listener(p, ps) => ListenerKeeps(s, p, ps);
    case External(k, xs) => ExternalKeeps(s, k, xs);
    case Down(ls) =>
    case Up(ls) =>
    case Client(cs) => F.ClientFrame(s, cs);
    case Inner(i, xs) => F.InnerFrame(s, i, xs);
  }
}
