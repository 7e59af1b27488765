/** What holds in every run of the tunnel. */
module Theorems {
  import opened Seqs
  import opened Frames
  import opened Decisions
  import opened Tunnel
  import opened Flows
  import opened Invariant
  import F = StepFrames
  import L = Link
  import W = Writer
  import KS = KeepStructure
  import KR = KeepRegistration
  import KA = KeepAckOrder
  import KD = KeepDownstream
  import KU = KeepUpstream
  import KP = KeepPorts

  // ---------------------------------------------------------------- induction over runs

  lemma StepKeepsInv(s: State, a: Action)
    requires Inv(s) && Enabled(s, a)
    ensures Inv(Do(s, a))
  {
    hide Structure, Registration, AckOrder, Downstream, Upstream, Do, Enabled;
    KS.Keeps(s, a);
    KR.Keeps(s, a);
    KA.Keeps(s, a);
    KD.Keeps(s, a);
    KU.Keeps(s, a);
  }

  lemma {:induction false} RunKeepsInv(s: State, run: seq<Action>)
    requires Inv(s) && Exec(s, run).Some?
    ensures Inv(Exec(s, run).value)
  {
    hide Inv, Do, Enabled;
    if run == [] {
    } else {
      var init := run[..|run| - 1];
      RunKeepsInv(s, init);
      StepKeepsInv(Exec(s, init).value, run[|run| - 1]);
    }
  }

  lemma ConfigStep(s: State, a: Action)
    requires Enabled(s, a)
    ensures Do(s, a).config == s.config
  {
    hide L.Do, DoServer, DoListener, DoExternal, DoClient, DoInner;
    match a
    case Server(ss) => F.ServerFrame(s, ss);
    case Listener(p, ps) => F.ListenerFrame(s, p, ps);
    case Client(cs) => F.ClientFrame(s, cs);
    case External(k, xs) => F.ExternalFrame(s, k, xs);
    case Down(ls) =>
    case Up(ls) =>
    case Inner(i, xs) => F.InnerFrame(s, i, xs);
  }

  lemma {:induction false} ConfigFixed(s: State, run: seq<Action>)
    requires Exec(s, run).Some?
    ensures Exec(s, run).value.config == s.config
  {
    hide Do, Enabled;
    if run == [] {
    } else {
      var init := run[..|run| - 1];
      ConfigFixed(s, init);
      ConfigStep(Exec(s, init).value, run[|run| - 1]);
    }
  }

  /** The invariant holds in every reachable state. */
  lemma Always(config: seq<ClientInfo>, run: seq<Action>, s: State)
    requires Reaches(config, run, s)
    ensures Inv(s) && s.config == config
  {
    hide Inv, Exec;
    InitInv(config);
    RunKeepsInv(Init(config), run);
    ConfigFixed(Init(config), run);
  }

  // ---------------------------------------------------------------- towards the services

  /** What has arrived for k, in hand included, is a prefix of what its user sent. */
  lemma ArrivedIsPrefix(s: State, k: Conn)
    requires Inv(s) && k in s.exts
    ensures Datas(Arrived(s.arrived, k)) <= s.exts[k].got
  {
    hide Registration, AckOrder, Upstream, ExtsOk, ProxiesOk, PermitsOk, SrvOk, SegmentsOk, ConnsOk, CliOk, IntsOk,
      Chunks, L.Inv, Datas;
    L.DeliveredIsPrefix(s.down);
    ChunksPrefix(To(k), s.down.delivered, s.down.log);
    assert PortFlow(s.exts[k], Chunks(To(k), s.down.log));
    assert Datas(Arrived(s.arrived, k)) <= Chunks(To(k), s.down.delivered);
  }

  /** The frames handed to internal connection i are one contiguous stretch of the user's
      stream, and its socket has received a prefix of that stretch. */
  lemma SegmentIsStretch(s: State, i: nat)
    requires Inv(s) && i < |s.ints|
    ensures s.ints[i].at in s.exts
    ensures var it := s.ints[i]; var got := s.exts[it.at].got;
      End(it) <= |got| && it.port.w.log == got[it.start..End(it)] && it.port.w.sock <= Flat(got[it.start..End(it)])
  {
    hide Registration, AckOrder, Upstream, ExtsOk, ProxiesOk, PermitsOk, SrvOk, ConnsOk, CliOk, L.Inv, ExtFlow,
      ArriveFlow, W.Inv;
    var it := s.ints[i];
    ArrivedIsPrefix(s, it.at);
    var arr, got := Arrived(s.arrived, it.at), s.exts[it.at].got;
    assert SegmentOk(it, i, arr);
    assert forall y :: 0 <= y < |it.port.w.log| ==> Datas(arr)[it.start + y] == it.port.w.log[y];
    W.SocketIsPrefix(it.port.w);
  }

  /** In every run: the payloads that reached the client for k are a prefix of the user's
      stream and fall into segments. Arrival x goes to internal connection i exactly when x
      lies in i's stretch; stretches of successive connections follow one another. */
  lemma StreamToServices(config: seq<ClientInfo>, run: seq<Action>, s: State, k: Conn)
    requires Reaches(config, run, s) && k in s.exts
    ensures var arr := Arrived(s.arrived, k); var got := s.exts[k].got;
      && Datas(arr) <= got && Flat(Datas(arr)) <= Flat(got)
      && (forall x, i :: 0 <= x < |arr| && 0 <= i ==>
            (arr[x].fate == ToInternal(i) <==>
               i < |s.ints| && s.ints[i].at == k && s.ints[i].start <= x < End(s.ints[i])))
      && (forall i :: 0 <= i < |s.ints| && s.ints[i].at == k ==>
            && End(s.ints[i]) <= |got|
            && s.ints[i].port.w.log == got[s.ints[i].start..End(s.ints[i])]
            && s.ints[i].port.w.sock <= Flat(got[s.ints[i].start..End(s.ints[i])]))
      && (forall i, j :: 0 <= i < j < |s.ints| && s.ints[i].at == k && s.ints[j].at == k ==>
            End(s.ints[i]) <= s.ints[j].start)
  {
    hide Exec, W.Inv, L.Inv, Datas;
    Always(config, run, s);
    ArrivedIsPrefix(s, k);
    FlatPrefix(Datas(Arrived(s.arrived, k)), s.exts[k].got);
    forall i | 0 <= i < |s.ints| ensures s.ints[i].at in s.exts &&
      var it := s.ints[i]; var got := s.exts[it.at].got;
      End(it) <= |got| && it.port.w.log == got[it.start..End(it)] && it.port.w.sock <= Flat(got[it.start..End(it)])
    { SegmentIsStretch(s, i); }
    FateIsSegment(s, k);
  }

  lemma FateIsSegment(s: State, k: Conn)
    requires SegmentsOk(s.ints, s.arrived)
    ensures forall x, i :: 0 <= x < |Arrived(s.arrived, k)| && 0 <= i ==>
      (Arrived(s.arrived, k)[x].fate == ToInternal(i) <==>
         i < |s.ints| && s.ints[i].at == k && s.ints[i].start <= x < End(s.ints[i]))
  {
    hide Arrived;
    var arr := Arrived(s.arrived, k);
    assert FatesOk(s.ints, k, arr);
    forall x, i | 0 <= x < |arr| && 0 <= i < |s.ints| && s.ints[i].at == k && s.ints[i].start <= x < End(s.ints[i])
      ensures arr[x].fate == ToInternal(i)
    {
      assert SegmentOk(s.ints[i], i, arr);
      var y := x - s.ints[i].start;
      assert arr[s.ints[i].start + y] == Arrival(s.ints[i].port.w.log[y], ToInternal(i));
    }
  }

  /** No crosstalk: an internal connection was dialled at the address configured for its
      proxy, although the server never learns it, and carries bytes of one user only. */
  lemma NoCrosstalk(config: seq<ClientInfo>, run: seq<Action>, s: State, i: nat)
    requires Reaches(config, run, s) && i < |s.ints|
    requires forall j :: 0 <= j < |config| ==> Initialised(config[j])
    ensures var it := s.ints[i];
      && it.at.p < |config| && it.addr == AddrOf(config[it.at.p])
      && ReadsAs(it.addr, config[it.at.p].proxyIp, config[it.at.p].proxyPort)
      && it.at.p < |s.proxies| && s.proxies[it.at.p].client == BlankClient(config[it.at.p])
      && it.at in s.exts && End(it) <= |s.exts[it.at].got|
      && it.port.w.sock <= Flat(s.exts[it.at].got[it.start..End(it)])
  {
    hide Exec, W.Inv, L.Inv, AddrOf, ClientReg, AcksOk, PermitsOk, AckOrder, Upstream, SegmentsOk, ConnsOk, CliOk,
      ExtFlow, ArriveFlow, ExtOk;
    Always(config, run, s);
    SegmentIsStretch(s, i);
    assert Known(s.proxies, s.ints[i].at);
    var ci := config[s.ints[i].at.p];
    assert ReadsAs(AddrOf(ci), ci.proxyIp, ci.proxyPort) by { AddrOfReads(ci); }
  }

  lemma AddrOfReads(ci: ClientInfo)
    ensures ReadsAs(AddrOf(ci), ci.proxyIp, ci.proxyPort)
  {
    AddrReads(ci.proxyIp, ci.proxyPort);
  }

  // ---------------------------------------------------------------- back to the users

  /** The data frames of connection k, in order. */
  function Responses(k: Conn, s: seq<L.Item>): seq<L.Item> {
    if s == [] then []
    else Responses(k, s[..|s| - 1]) + (if Picks(To(k), s[|s| - 1]) then [s[|s| - 1]] else [])
  }

  function Payloads(m: seq<L.Item>): seq<Bytes>
    requires forall x :: 0 <= x < |m| ==> m[x].frame.Data?
  {
    seq(|m|, x requires 0 <= x < |m| => m[x].frame.data)
  }

  /** `m` interleaves, in order, outputs of internal connections opened for k. */
  ghost predicate MergeFor(s: State, k: Conn, m: seq<L.Item>) {
    && (forall x :: 0 <= x < |m| ==>
          m[x].frame.Data? && m[x].origin < |s.ints| && s.ints[m[x].origin].at == k)
    && (forall i :: 0 <= i < |s.ints| ==> Chunks(From(i), m) <= s.ints[i].port.got)
  }

  lemma {:induction false} ResponsesPayload(k: Conn, s: seq<L.Item>)
    ensures forall x :: 0 <= x < |Responses(k, s)| ==> Responses(k, s)[x].frame.Data?
    ensures forall x :: 0 <= x < |Responses(k, s)| ==> Picks(To(k), Responses(k, s)[x]) && Responses(k, s)[x] in s
    ensures Payloads(Responses(k, s)) == Chunks(To(k), s)
  {
    if s == [] {
    } else {
      var init, it := s[..|s| - 1], s[|s| - 1];
      ResponsesPayload(k, init);
      assert forall x :: x in init ==> x in s;
      if Picks(To(k), it) {
        assert Payloads(Responses(k, init) + [it]) == Payloads(Responses(k, init)) + [it.frame.data];
      } else {
        assert Responses(k, s) == Responses(k, init);
        assert Chunks(To(k), s) == Chunks(To(k), init);
      }
    }
  }

  lemma {:induction false} ResponsesFrom(k: Conn, i: nat, s: seq<L.Item>)
    requires forall x :: 0 <= x < |s| && Picks(From(i), s[x]) ==> Picks(To(k), s[x])
    ensures Chunks(From(i), Responses(k, s)) == Chunks(From(i), s)
  {
    if s == [] {
    } else {
      var init, it := s[..|s| - 1], s[|s| - 1];
      ResponsesFrom(k, i, init);
      ChunksPush(From(i), init, it);
      assert s == init + [it];
      if Picks(To(k), it) { ChunksPush(From(i), Responses(k, init), it); }
      else { assert Responses(k, s) == Responses(k, init); }
    }
  }

  lemma {:induction false} ResponsesNone(k: Conn, i: nat, s: seq<L.Item>)
    requires forall x :: 0 <= x < |s| && Picks(From(i), s[x]) ==> !Picks(To(k), s[x])
    ensures Chunks(From(i), Responses(k, s)) == []
  {
    if s == [] {
    } else {
      var init, it := s[..|s| - 1], s[|s| - 1];
      ResponsesNone(k, i, init);
      if Picks(To(k), it) { ChunksPush(From(i), Responses(k, init), it); }
      else { assert Responses(k, s) == Responses(k, init); }
    }
  }

  lemma OriginOk(s: State, x: nat)
    requires Inv(s) && x < |s.up.delivered|
    ensures UpItemOk(s.up.delivered[x], s.ints)
  {
    hide Registration, AckOrder, Downstream, IntFlow, RouteFlow, UpItemOk, ExtsOk, ProxiesOk, PermitsOk, SrvOk, L.Inv;
    L.DeliveredIsPrefix(s.up);
    assert s.up.delivered[x] == s.up.log[x];
  }

  lemma ResponsesAreMerge(s: State, k: Conn)
    requires Inv(s)
    ensures MergeFor(s, k, Responses(k, s.up.delivered))
  {
    hide Inv, Chunks, Responses;
    var m := Responses(k, s.up.delivered);
    ResponsesPayload(k, s.up.delivered);
    forall x | 0 <= x < |s.up.delivered| ensures UpItemOk(s.up.delivered[x], s.ints) { OriginOk(s, x); }
    forall i | 0 <= i < |s.ints| ensures Chunks(From(i), m) <= s.ints[i].port.got {
      if s.ints[i].at == k { ResponsesFrom(k, i, s.up.delivered); OutputPrefix(s, i); }
      else { ResponsesNone(k, i, s.up.delivered); }
    }
  }

  lemma OutputPrefix(s: State, i: nat)
    requires Inv(s) && i < |s.ints|
    ensures Chunks(From(i), s.up.delivered) <= s.ints[i].port.got
  {
    hide Registration, AckOrder, Downstream, RouteFlow, UpLogOk, ExtsOk, ProxiesOk, PermitsOk, SrvOk, L.Inv, Chunks;
    L.DeliveredIsPrefix(s.up);
    ChunksPrefix(From(i), s.up.delivered, s.up.log);
    assert PortFlow(s.ints[i].port, Chunks(From(i), s.up.log));
  }

  /** What was queued to the user is a prefix of what the server read for it. */
  lemma QueuedIsPrefix(s: State, k: Conn)
    requires Inv(s) && k in s.exts
    ensures s.exts[k].w.log <= Chunks(To(k), s.up.delivered)
    ensures s.exts[k].w.sock <= Flat(Chunks(To(k), s.up.delivered))
  {
    hide Registration, AckOrder, Downstream, IntFlow, UpLogOk, ProxiesOk, PermitsOk, SrvOk, L.Inv, Chunks, W.Inv;
    assert ExtOk(s.proxies, k, s.exts[k]);
    var read := Chunks(To(k), s.up.delivered);
    assert RouteOk(s.exts[k].w, read, SrvHand(s.srv, k), ExtSender(s.srv, s.routes, k));
    W.SocketIsPrefix(s.exts[k].w);
    FlatPrefix(s.exts[k].w.log, read);
  }

  /** In every run the bytes written to user k are a prefix of an in-order merge of the
      outputs of the internal connections opened for k. */
  lemma StreamToUser(config: seq<ClientInfo>, run: seq<Action>, s: State, k: Conn)
    requires Reaches(config, run, s) && k in s.exts
    ensures exists m :: MergeFor(s, k, m) && s.exts[k].w.log <= Payloads(m) && s.exts[k].w.sock <= Flat(Payloads(m))
  {
    hide Exec, Inv, Chunks, Responses;
    Always(config, run, s);
    var m := Responses(k, s.up.delivered);
    ResponsesAreMerge(s, k);
    ResponsesPayload(k, s.up.delivered);
    QueuedIsPrefix(s, k);
  }

  /** If only connection i was ever opened for k, the user receives a prefix of i's output. */
  lemma StreamToUserSingle(config: seq<ClientInfo>, run: seq<Action>, s: State, k: Conn, i: nat)
    requires Reaches(config, run, s) && k in s.exts
    requires i < |s.ints| && s.ints[i].at == k
    requires forall j :: 0 <= j < |s.ints| && s.ints[j].at == k ==> j == i
    ensures s.exts[k].w.log <= s.ints[i].port.got && s.exts[k].w.sock <= Flat(s.ints[i].port.got)
  {
    hide Exec, Inv, Chunks;
    Always(config, run, s);
    QueuedIsPrefix(s, k);
    OutputPrefix(s, i);
    forall x | 0 <= x < |s.up.delivered|
      ensures Picks(From(i), s.up.delivered[x]) <==> Picks(To(k), s.up.delivered[x])
    {
      OriginOk(s, x);
    }
    SameSelection(To(k), From(i), s.up.delivered);
    FlatPrefix(Chunks(To(k), s.up.delivered), s.ints[i].port.got);
  }

  lemma {:induction false} SameSelection(a: Sel, b: Sel, s: seq<L.Item>)
    requires forall x :: 0 <= x < |s| ==> (Picks(a, s[x]) <==> Picks(b, s[x]))
    ensures Chunks(a, s) == Chunks(b, s)
  {
    if s == [] {
    } else {
      SameSelection(a, b, s[..|s| - 1]);
    }
  }

  /** Causality: every response ever queued names a connection the server had accepted. */
  lemma Causality(config: seq<ClientInfo>, run: seq<Action>, s: State, x: nat)
    requires Reaches(config, run, s) && x < |s.up.log| && s.up.log[x].frame.Data?
    ensures var k := ConnOf(s.up.log[x].frame);
      && k in s.exts && k.p < |s.proxies| && k.c < s.proxies[k.p].accepted
      && s.up.log[x].origin < |s.ints| && s.ints[s.up.log[x].origin].at == k
  {
    hide Exec, Registration, AckOrder, ExtFlow, ArriveFlow, SegmentsOk, ConnsOk, CliOk, IntFlow, RouteFlow,
      PermitsOk, L.Inv, ExtOk, W.Inv;
    Always(config, run, s);
    KU.ResponseIsKnown(s, x);
    assert Known(s.proxies, ConnOf(s.up.log[x].frame));
  }

  // ---------------------------------------------------------------- registration

  lemma {:induction false} RunKeepsPorts(config: seq<ClientInfo>, run: seq<Action>)
    requires Exec(Init(config), run).Some?
    ensures var s := Exec(Init(config), run).value; KP.PortsOk(s.proxies, s.srv.SEnded?)
  {
    hide Do, Enabled, Structure, Registration, AckOrder, Downstream, Upstream;
    if run == [] {
    } else {
      hide KP.PortsOk;
      var init := run[..|run| - 1];
      RunKeepsPorts(config, init);
      Always(config, init, Exec(Init(config), init).value);
      KP.Keeps(Exec(Init(config), init).value, run[|run| - 1]);
    }
  }

  /** Once every registration is acknowledged, the server has a listener for each proxy, bound for
      its entry; and until the session is torn down all of them are there, on different ports. */
  lemma AllServed(config: seq<ClientInfo>, run: seq<Action>, s: State)
    requires Reaches(config, run, s) && s.acked == |config|
    ensures |config| <= 16 && |s.proxies| == |config|
    ensures forall i :: 0 <= i < |config| ==>
      && s.proxies[i].id == i && s.proxies[i].client == BlankClient(config[i])
      && s.proxies[i].bound && config[i].bindPort >= 1024
    ensures !s.srv.SEnded? ==>
      forall i :: 0 <= i < |config| ==> s.proxies[i].pc.Listening? || s.proxies[i].pc.WaitPermit?
    ensures !s.srv.SEnded? ==>
      forall i, j :: 0 <= i < j < |config| ==> config[i].bindPort != config[j].bindPort
  {
    hide Exec, AckOrder, Downstream, Upstream, ExtsOk, PermitsOk, L.Inv, Regs, Acks, KP.PortsOk;
    Always(config, run, s);
    KR.Counts(s);
    if config != [] { AckedIsBound(s, |config| - 1); }
    assert |s.proxies| == |config|;
    forall i | 0 <= i < |config|
      ensures s.proxies[i].bound && config[i].bindPort >= 1024 && !Outstanding(s.proxies[i].pc)
    {
      AckedIsBound(s, i);
      assert ProxyOk(s.proxies[i], i) && s.proxies[i].client == BlankClient(config[i]);
    }
    RunKeepsPorts(config, run);
    if !s.srv.SEnded? { DifferentPorts(config, s.proxies); }
  }

  lemma DifferentPorts(config: seq<ClientInfo>, proxies: seq<Proxy>)
    requires KP.PortsOk(proxies, false) && |proxies| == |config|
    requires forall i :: 0 <= i < |config| ==> proxies[i].bound && proxies[i].client == BlankClient(config[i])
    ensures forall i :: 0 <= i < |config| ==> !proxies[i].pc.Ended?
    ensures forall i, j :: 0 <= i < j < |config| ==> config[i].bindPort != config[j].bindPort
  {
    forall i, j | 0 <= i < j < |config| ensures config[i].bindPort != config[j].bindPort {
      assert Bound(proxies[i]) && Bound(proxies[j]);
    }
  }

  /** A client that forwards agrees with the server about every proxy, and until the server tears
      the session down every listener is there, each on its own port. */
  lemma RegistrationAgreement(config: seq<ClientInfo>, run: seq<Action>, s: State)
    requires Reaches(config, run, s) && Forwarding(s.cli)
    ensures |config| <= 16 && |s.proxies| == |config|
    ensures forall i :: i in s.configs <==> 0 <= i < |config|
    ensures forall i :: 0 <= i < |config| ==>
      && s.configs[i] == config[i]
      && s.proxies[i].id == i && s.proxies[i].client == BlankClient(config[i])
      && s.proxies[i].bound && config[i].bindPort >= 1024
    ensures !s.srv.SEnded? ==>
      forall i :: 0 <= i < |config| ==> s.proxies[i].pc.Listening? || s.proxies[i].pc.WaitPermit?
    ensures !s.srv.SEnded? ==>
      forall i, j :: 0 <= i < j < |config| ==> config[i].bindPort != config[j].bindPort
  {
    hide Exec, Structure, AckOrder, Downstream, Upstream, HandledOk, AcksOk, Regs, Acks;
    Always(config, run, s);
    AllServed(config, run, s);
  }

  lemma AckedIsBound(s: State, i: nat)
    requires L.Inv(s.down) && L.Inv(s.up) && Registration(s) && i < s.acked
    ensures i < |s.proxies| && s.proxies[i].bound && !Outstanding(s.proxies[i].pc) && AckListed(s, i)
  {
    hide L.Inv, Regs, Acks, ConfigsOk, HandledOk, PhaseOk;
    KR.Counts(s);
    assert Acks(s.down.log)[i] == Acks(s.down.delivered)[i];
  }

  ghost predicate AckListed(s: State, i: nat) {
    i < |Acks(s.down.log)| && Acks(s.down.log)[i].RegisterAck? && Acks(s.down.log)[i].proxyId == i
  }

  /** No registration is acknowledged twice, and each acknowledgement is queued before any
      data of its proxy. */
  lemma AckOnceBeforeData(config: seq<ClientInfo>, run: seq<Action>, s: State)
    requires Reaches(config, run, s)
    ensures var acks := Acks(s.down.log);
      forall j, l :: 0 <= j < l < |acks|
        && acks[j].RegisterAck? && acks[l].RegisterAck? && acks[j].success && acks[l].success
        ==> acks[j].proxyId != acks[l].proxyId
    ensures |Acks(s.down.log)| <= |Regs(s.up.delivered)|
    ensures AckBeforeData(s.down.log)
  {
    hide Exec, Downstream, Upstream, Structure, ClientReg, HandledOk, Regs, Acks, AckBeforeData, AckLogged;
    Always(config, run, s);
  }

  /** The next frame a forwarding client reads is data of a registered proxy or a pong. */
  lemma ClientNeverSurprised(config: seq<ClientInfo>, run: seq<Action>, s: State)
    requires Reaches(config, run, s) && s.cli.CIdle? && s.down.wire != []
    ensures var f := s.down.wire[0].frame;
      (f.Data? && f.dataProxyId in s.configs) || IsPong(f)
  {
    hide Exec, Upstream, AckOrder, ExtFlow, ArriveFlow, SegmentsOk, ConnsOk, CliOk, IntsOk, PermitsOk, Regs, Acks,
      ExtOk, ClientReg, HandledOk, AcksOk, ProxyOk, L.Inv;
    Always(config, run, s);
    RegistrationAgreement(config, run, s);
    FrameLogged(s.down);
    if s.down.wire[0].frame.RegisterAck? { KR.NextAck(s); }
    if s.down.wire[0].frame.Data? { assert Known(s.proxies, ConnOf(s.down.wire[0].frame)); }
  }

  lemma FrameLogged(l: L.Link)
    requires L.Inv(l) && l.wire != []
    ensures |l.delivered| < |l.log| && l.log[|l.delivered|] == l.wire[0]
  {
    L.DeliveredIsPrefix(l);
  }

  /** The next frame the server reads is a registration, a ping or data of a connection it
      accepted; once the client forwards, no registration comes any more. */
  lemma ServerNeverSurprised(config: seq<ClientInfo>, run: seq<Action>, s: State)
    requires Reaches(config, run, s) && s.up.wire != []
    ensures var f := s.up.wire[0].frame;
      && (f.Register? || IsPing(f) || (f.Data? && ConnOf(f) in s.exts))
      && (Forwarding(s.cli) ==> !f.Register?)
  {
    hide Exec, AckOrder, ExtFlow, ArriveFlow, SegmentsOk, ConnsOk, CliOk, DownLogOk, IntFlow, RouteFlow, PermitsOk,
      Regs, Acks, ExtsOk, ConfigsOk, HandledOk, AcksOk, ProxiesOk, L.Inv, IntsOk;
    Always(config, run, s);
    FrameLogged(s.up);
    var x := |s.up.delivered|;
    assert UpItemOk(s.up.log[x], s.ints);
    if s.up.log[x].frame.Data? { KU.ResponseIsKnown(s, x); }
    if s.up.wire[0].frame.Register? { KR.NextRegister(s); KR.Counts(s); }
  }

  // ---------------------------------------------------------------- conservation

  /** At every moment each chunk a user sent is in exactly one place: settled or in the
      client's hands, on the wire, lost with the wire, with the encoder, queued, pending with
      its read task, or dropped by it. */
  lemma ChunkAccounting(config: seq<ClientInfo>, run: seq<Action>, s: State, k: Conn)
    requires Reaches(config, run, s) && k in s.exts
    ensures s.exts[k].got ==
      (Datas(Arrived(s.arrived, k)) + InHand(s.cli, k))
      + Chunks(To(k), s.down.wire) + Chunks(To(k), s.down.lost)
      + Chunks(To(k), L.StripAll(s.down.hand + s.down.queue))
      + Pending(s.exts[k].rd) + s.exts[k].dropped
    ensures s.down.lost != [] ==> s.down.cut || !s.down.open
    ensures |s.down.queue| <= 256 && |s.exts[k].w.queue| <= 256
    ensures W.Conserved(s.exts[k].w)
    ensures forall i :: 0 <= i < |s.ints| ==> W.Conserved(s.ints[i].port.w)
  {
    hide Exec, Registration, AckOrder, Upstream, SegmentsOk, ConnsOk, CliOk, DownLogOk, PermitsOk, ProxiesOk, Chunks,
      Datas, W.Conserved;
    Always(config, run, s);
    assert ExtOk(s.proxies, k, s.exts[k]);
    assert PortFlow(s.exts[k], Chunks(To(k), s.down.log));
    var d := s.down;
    ChunksJoin(To(k), d.delivered, d.wire);
    ChunksJoin(To(k), d.delivered + d.wire, d.lost);
    ChunksJoin(To(k), d.delivered + d.wire + d.lost, L.StripAll(d.hand + d.queue));
  }

  /** The responses the server has read for k, in order: first those queued to the user, then
      those refused because its route or receiver was gone, then the one in the loop's hands. */
  ghost predicate ReadSplit(s: State, k: Conn, queued: seq<L.Item>, refused: seq<L.Item>, hand: seq<L.Item>) {
    && k in s.exts
    && queued + refused + hand == Responses(k, s.up.delivered)
    && (forall x :: 0 <= x < |queued| ==> queued[x].frame.Data?)
    && (forall x :: 0 <= x < |hand| ==> hand[x].frame.Data?)
    && Payloads(queued) == s.exts[k].w.log && Payloads(hand) == SrvHand(s.srv, k)
    && (refused != [] ==> !(s.exts[k].w.open && ExtSender(s.srv, s.routes, k)))
  }

  lemma SplitRead(s: State, k: Conn) returns (queued: seq<L.Item>, refused: seq<L.Item>, hand: seq<L.Item>)
    requires Inv(s) && k in s.exts
    ensures ReadSplit(s, k, queued, refused, hand)
  {
    hide Inv, Chunks, Responses, Payloads, RouteOk;
    var r, w := Responses(k, s.up.delivered), s.exts[k].w;
    ResponsesPayload(k, s.up.delivered);
    ReadOk(s, k);
    CutPayloads(w, r, SrvHand(s.srv, k), ExtSender(s.srv, s.routes, k));
    var m := |r| - |SrvHand(s.srv, k)|;
    queued, refused, hand := r[..|w.log|], r[|w.log|..m], r[m..];
  }

  lemma ReadOk(s: State, k: Conn)
    requires Inv(s) && k in s.exts
    ensures RouteOk(s.exts[k].w, Chunks(To(k), s.up.delivered), SrvHand(s.srv, k), ExtSender(s.srv, s.routes, k))
  {
    hide Structure, Registration, AckOrder, Downstream, IntFlow, UpLogOk, Chunks, RouteOk;
  }

  lemma CutPayloads(w: W.Writer, r: seq<L.Item>, hand: seq<Bytes>, reachable: bool)
    requires forall x :: 0 <= x < |r| ==> r[x].frame.Data?
    requires RouteOk(w, Payloads(r), hand, reachable)
    ensures var q, m := |w.log|, |r| - |hand|;
      && q <= m && r[..q] + r[q..m] + r[m..] == r
      && Payloads(r[..q]) == w.log && Payloads(r[m..]) == hand
      && (r[q..m] != [] ==> !(w.open && reachable))
  {
    var q, m := |w.log|, |r| - |hand|;
    assert Payloads(r[..q]) == Payloads(r)[..q];
    assert Payloads(r[m..]) == Payloads(r)[m..];
  }

  /** The same for each chunk an internal service sent: queued to the user, refused there, in the
      server's hands, on the wire, lost with it, with the encoder, queued, pending or dropped. */
  lemma ResponseAccounting(config: seq<ClientInfo>, run: seq<Action>, s: State, i: nat)
    returns (queued: seq<L.Item>, refused: seq<L.Item>, hand: seq<L.Item>)
    requires Reaches(config, run, s) && i < |s.ints|
    ensures ReadSplit(s, s.ints[i].at, queued, refused, hand)
    ensures s.ints[i].port.got ==
      (Chunks(From(i), queued) + Chunks(From(i), refused) + Chunks(From(i), hand))
      + Chunks(From(i), s.up.wire) + Chunks(From(i), s.up.lost)
      + Chunks(From(i), L.StripAll(s.up.hand + s.up.queue))
      + Pending(s.ints[i].port.rd) + s.ints[i].port.dropped
    ensures s.up.lost != [] ==> s.up.cut || !s.up.open
    ensures |s.up.queue| <= 256 && |s.ints[i].port.w.queue| <= 256
  {
    hide Exec, Registration, AckOrder, SegmentsOk, ConnsOk, CliOk, DownLogOk, ExtFlow, ArriveFlow, PermitsOk, ProxiesOk,
      ExtsOk, SrvOk, Chunks, W.Conserved, UpLogOk, RouteFlow, ReadSplit, Responses;
    Always(config, run, s);
    assert PortFlow(s.ints[i].port, Chunks(From(i), s.up.log));
    var u := s.up;
    ChunksJoin(From(i), u.delivered, u.wire);
    ChunksJoin(From(i), u.delivered + u.wire, u.lost);
    ChunksJoin(From(i), u.delivered + u.wire + u.lost, L.StripAll(u.hand + u.queue));
    queued, refused, hand := SplitRead(s, s.ints[i].at);
    ReadBy(s, i, queued, refused, hand);
  }

  /** All that the server has read from service i is among the responses of i's connection. */
  lemma ReadBy(s: State, i: nat, queued: seq<L.Item>, refused: seq<L.Item>, hand: seq<L.Item>)
    requires Inv(s) && i < |s.ints| && ReadSplit(s, s.ints[i].at, queued, refused, hand)
    ensures Chunks(From(i), s.up.delivered)
      == Chunks(From(i), queued) + Chunks(From(i), refused) + Chunks(From(i), hand)
  {
    hide Inv, Chunks, Responses;
    var k := s.ints[i].at;
    forall x | 0 <= x < |s.up.delivered| && Picks(From(i), s.up.delivered[x])
      ensures Picks(To(k), s.up.delivered[x])
    {
      OriginOk(s, x);
    }
    ResponsesFrom(k, i, s.up.delivered);
    ChunksJoin(From(i), queued, refused);
    ChunksJoin(From(i), queued + refused, hand);
  }

  lemma {:induction false} ChunksJoin(sel: Sel, a: seq<L.Item>, b: seq<L.Item>)
    ensures Chunks(sel, a + b) == Chunks(sel, a) + Chunks(sel, b)
  {
    if b == [] {
      assert a + b == a && Chunks(sel, b) == [];
    } else {
      var c, x := b[..|b| - 1], b[|b| - 1];
      assert b == c + [x] && a + b == (a + c) + [x];
      hide Chunks;
      ChunksJoin(sel, a, c);
      ChunksPush(sel, a + c, x);
      ChunksPush(sel, c, x);
    }
  }
}
