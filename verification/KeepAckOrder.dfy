/** Every action keeps each acknowledgement ahead of the data of its proxy. */
module KeepAckOrder {
  import opened Decisions
  import opened Tunnel
  import opened Invariant
  import L = Link
  import W = Writer

  lemma AckInGrows(log: seq<L.Item>, it: L.Item, p: nat)
    requires AckIn(log, p) || AckOf(it, p)
    ensures AckIn(log + [it], p)
  {
    if AckIn(log, p) {
      var y :| 0 <= y < |log| && AckOf(log[y], p);
      assert AckOf((log + [it])[y], p);
    } else {
      assert AckOf((log + [it])[|log|], p);
    }
  }

  /** The listener may have connections, so its acknowledgement must have been queued. */
  predicate Announced(px: Proxy) { px.pc.Listening? || px.pc.WaitPermit? || px.accepted > 0 }

  lemma LoggedPush(proxies: seq<Proxy>, down: L.Link, it: L.Item)
    requires AckLogged(proxies, down)
    ensures AckLogged(proxies, L.Push(down, it))
  {
    forall p | 0 <= p < |proxies| && Announced(proxies[p]) && down.open
      ensures AckIn(L.Push(down, it).log, p)
    {
      AckInGrows(down.log, L.Strip(it), p);
    }
  }

  lemma BeforePush(log: seq<L.Item>, it: L.Item)
    requires AckBeforeData(log)
    requires it.frame.Data? ==> AckIn(log, it.frame.dataProxyId)
    ensures AckBeforeData(log + [it])
  {
    hide AckIn;
    var log' := log + [it];
    forall x | 0 <= x < |log'| && log'[x].frame.Data? ensures AckIn(log'[..x], log'[x].frame.dataProxyId) {
      if x < |log| {
        assert log'[..x] == log[..x] && log'[x] == log[x];
      } else {
        assert log'[..x] == log;
      }
    }
  }

  lemma LoggedProxy(proxies: seq<Proxy>, down: L.Link, p: nat, px: Proxy)
    requires AckLogged(proxies, down) && p < |proxies|
    requires Announced(px) ==> Announced(proxies[p]) || AckIn(down.log, p) || !down.open
    ensures AckLogged(proxies[p := px], down)
  {
    hide AckIn;
  }

  lemma LoggedLink(proxies: seq<Proxy>, down: L.Link, down': L.Link)
    requires AckLogged(proxies, down) && down'.log == down.log && (down'.open ==> down.open)
    ensures AckLogged(proxies, down')
  {
    hide AckIn;
  }

  lemma LoggedSpawn(proxies: seq<Proxy>, down: L.Link, px: Proxy)
    requires AckLogged(proxies, down) && !Announced(px)
    ensures AckLogged(proxies + [px], down)
  {
    hide AckIn;
  }

  lemma ServerKeeps(s: State, a: ServerStep)
    requires AckOrder(s) && Registration(s) && ServerEnabled(s, a)
    ensures AckOrder(DoServer(s, a))
  {
    hide AckLogged, AckBeforeData, ClientReg, HandledOk, W.Push;
    if a.SReplied? {
      assert !s.srv.reply.Data?;
      LoggedPush(s.proxies, s.down, L.Item(s.srv.reply, 0));
      BeforePush(s.down.log, L.Strip(L.Item(s.srv.reply, 0)));
    } else if a.STake? {
      var t := TakeUp(s);
      if |t.proxies| > |s.proxies| {
        LoggedSpawn(s.proxies, s.down, t.proxies[|s.proxies|]);
      }
    }
  }

  lemma AckKeeps(s: State, p: nat)
    requires AckOrder(s) && ProxiesOk(s.proxies, s.nextProxyId) && ListenerEnabled(s, p, Ack)
    ensures AckOrder(DoListener(s, p, Ack))
  {
    hide AckLogged, AckBeforeData, AckIn;
    var px := s.proxies[p];
    assert ProxyOk(px, p);
    var it := L.Item(AckFrame(px, px.pc.ok), 0);
    LoggedPush(s.proxies, s.down, it);
    BeforePush(s.down.log, L.Strip(it));
    if px.pc.ok { AckInGrows(s.down.log, L.Strip(it), p); }
    LoggedProxy(s.proxies, L.Push(s.down, it), p, DoListener(s, p, Ack).proxies[p]);
  }

  lemma ListenerKeeps(s: State, p: nat, a: ListenerStep)
    requires AckOrder(s) && ProxiesOk(s.proxies, s.nextProxyId) && ListenerEnabled(s, p, a)
    ensures AckOrder(DoListener(s, p, a))
  {
    hide AckLogged, AckBeforeData, AckIn, W.GiveUp, W.Spawn, W.Fresh;
    if a.Ack? {
      AckKeeps(s, p);
    } else {
      LoggedProxy(s.proxies, s.down, p, DoListener(s, p, a).proxies[p]);
    }
  }

  /** The tunnel is open and the connection exists, so its proxy was acknowledged. */
  lemma AckPresent(s: State, k: Conn)
    requires AckLogged(s.proxies, s.down) && ExtsOk(s.proxies, s.routes, s.exts) && k in s.exts && s.down.open
    ensures AckIn(s.down.log, k.p)
  {
    hide AckIn, ExtOk;
    assert Known(s.proxies, k);
  }

  lemma ExternalKeeps(s: State, k: Conn, a: PortStep)
    requires AckOrder(s) && Structure(s) && Enabled(s, External(k, a))
    ensures AckOrder(DoExternal(s, k, a))
  {
    hide AckLogged, AckBeforeData, AckIn, L.Inv, ExtsOk, PermitsOk, ProxiesOk, SrvOk, W.Do, W.Enabled, ExtSender;
    if a.Release? {
      LoggedProxy(s.proxies, s.down, k.p, DoExternal(s, k, a).proxies[k.p]);
    } else if a.Send? {
      var it := Chunk(k, s.exts[k].rd.chunk, 0);
      AckPresent(s, k);
      LoggedPush(s.proxies, s.down, it);
      BeforePush(s.down.log, L.Strip(it));
    }
  }

  lemma ClientKeeps(s: State, a: ClientStep)
    requires AckOrder(s) && ClientEnabled(s, a)
    ensures AckOrder(DoClient(s, a))
  {
    hide AckLogged, AckBeforeData, L.Shut, L.Push, W.Push, W.Fresh, Note;
    LoggedLink(s.proxies, s.down, DoClient(s, a).down);
  }

  lemma Keeps(s: State, a: Action)
    requires Structure(s) && Registration(s) && AckOrder(s) && Enabled(s, a)
    ensures AckOrder(Do(s, a))
  {
    hide Registration, L.Inv, ExtsOk, PermitsOk, ProxiesOk, SrvOk, AckLogged, AckBeforeData, DoServer, DoListener,
      DoExternal, DoClient, W.Do, W.Enabled, L.Push, L.Do;
    match a
    case Server(ss) => ServerKeeps(s, ss);
    case Listener(p, ps) => ListenerKeeps(s, p, ps);
    case External(k, xs) => ExternalKeeps(s, k, xs);
    case Down(ls) =>
      L.StepInv(s.down, ls);
      LoggedLink(s.proxies, s.down, L.Do(s.down, ls));
    case Up(ls) =>
    case Client(cs) => ClientKeeps(s, cs);
    case Inner(i, xs) =>
  }
}
