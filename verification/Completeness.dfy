/** The other half of the prefix theorems: when nothing was given up and nothing is under way,
    nothing is missing. */
module Completeness {
  import opened Seqs
  import opened Frames
  import opened Decisions
  import opened Tunnel
  import opened Flows
  import opened Invariant
  import T = Theorems
  import L = Link
  import W = Writer

  /** Nothing of the selection is queued, held or in flight on the link or was ever lost on it;
      others may be under way. */
  ghost predicate Clear(sel: Sel, l: L.Link) {
    Chunks(sel, l.wire) == [] && Chunks(sel, l.lost) == [] && Chunks(sel, L.StripAll(l.hand + l.queue)) == []
  }

  /** The task waits on an empty channel and no flush has failed, or it ended giving up nothing. */
  ghost predicate Settled(w: W.Writer) {
    (w.pc.Recv? && w.queue == [] && w.flushesOk) || (w.pc.Done? && w.lost == [])
  }

  lemma SettledIsComplete(w: W.Writer)
    requires W.Inv(w) && Settled(w)
    ensures w.sock == Flat(w.log)
  {
    if w.pc.Recv? { W.DrainedIsComplete(w); }
  }

  lemma ClearIsRead(sel: Sel, l: L.Link)
    requires L.Inv(l) && Clear(sel, l)
    ensures Chunks(sel, l.delivered) == Chunks(sel, l.log)
  {
    hide Chunks, L.StripAll;
    var rest := L.StripAll(l.hand + l.queue);
    T.ChunksJoin(sel, l.delivered, l.wire);
    T.ChunksJoin(sel, l.delivered + l.wire, l.lost);
    T.ChunksJoin(sel, l.delivered + l.wire + l.lost, rest);
  }

  // ---------------------------------------------------------------- towards the services

  /** The chunks handed to the first n internal connections of k, one connection after another. */
  function Handed(ints: seq<Internal>, k: Conn, n: nat): seq<Bytes>
    requires n <= |ints|
  {
    if n == 0 then []
    else Handed(ints, k, n - 1) + if ints[n - 1].at == k then ints[n - 1].port.w.log else []
  }

  /** What their sockets have received, likewise. */
  function Received(ints: seq<Internal>, k: Conn, n: nat): Bytes
    requires n <= |ints|
  {
    if n == 0 then []
    else Received(ints, k, n - 1) + if ints[n - 1].at == k then ints[n - 1].port.w.sock else []
  }

  ghost predicate AllTaken(arr: seq<Arrival>) { forall x :: 0 <= x < |arr| ==> arr[x].fate.ToInternal? }

  /** Arrival x, beyond what the first n connections took, is not taken by a later one that
      starts behind it. */
  lemma NoGap(ints: seq<Internal>, arrived: map<Conn, seq<Arrival>>, k: Conn, n: nat, x: nat)
    requires SegmentsOk(ints, arrived) && AllTaken(Arrived(arrived, k)) && n <= |ints| && x < |Arrived(arrived, k)|
    requires forall i :: 0 <= i < n && ints[i].at == k ==> End(ints[i]) <= x
    ensures n < |ints|
    ensures ints[n].at == k ==> ints[n].start <= x
  {
    hide Arrived, SegmentOk;
    var arr := Arrived(arrived, k);
    assert FatesOk(ints, k, arr);
    var i := arr[x].fate.i;
    assert InSegment(ints, k, x, i);
  }

  /** The first n connections were handed the beginning of the stream, without a gap. */
  lemma {:induction false} HandedIsPrefix(ints: seq<Internal>, arrived: map<Conn, seq<Arrival>>, k: Conn, n: nat)
      returns (m: nat)
    requires SegmentsOk(ints, arrived) && AllTaken(Arrived(arrived, k)) && n <= |ints|
    ensures m <= |Arrived(arrived, k)| && Handed(ints, k, n) == Datas(Arrived(arrived, k))[..m]
    ensures forall i :: 0 <= i < n && ints[i].at == k ==> End(ints[i]) <= m
    ensures m == 0 || exists i :: 0 <= i < n && ints[i].at == k && End(ints[i]) == m
  {
    hide SegmentsOk, AllTaken, Arrived;
    var arr := Arrived(arrived, k);
    m := 0;
    if n == 0 {
    } else {
      m := HandedIsPrefix(ints, arrived, k, n - 1);
      var it := ints[n - 1];
      if it.at == k {
        StartsAt(ints, arrived, k, n - 1, m);
        assert End(it) <= |arr| && it.port.w.log == Datas(arr)[it.start..End(it)] by {
          SegmentData(ints, arrived, n - 1);
        }
        if |it.port.w.log| > 0 { assert End(it) > m; }
        assert Datas(arr)[..m] + Datas(arr)[m..End(it)] == Datas(arr)[..End(it)];
        m := End(it);
      }
    }
  }

  lemma SegmentData(ints: seq<Internal>, arrived: map<Conn, seq<Arrival>>, i: nat)
    requires SegmentsOk(ints, arrived) && i < |ints|
    ensures var it := ints[i]; var arr := Arrived(arrived, it.at);
      End(it) <= |arr| && it.port.w.log == Datas(arr)[it.start..End(it)]
  {
    var it := ints[i];
    var arr := Arrived(arrived, it.at);
    assert SegmentOk(it, i, arr);
    assert forall y :: 0 <= y < |it.port.w.log| ==> Datas(arr)[it.start + y] == it.port.w.log[y];
  }

  /** The next connection starts where the ones before it ended. */
  lemma StartsAt(ints: seq<Internal>, arrived: map<Conn, seq<Arrival>>, k: Conn, n: nat, m: nat)
    requires SegmentsOk(ints, arrived) && AllTaken(Arrived(arrived, k)) && n < |ints| && ints[n].at == k
    requires m <= |Arrived(arrived, k)|
    requires forall i :: 0 <= i < n && ints[i].at == k ==> End(ints[i]) <= m
    requires m == 0 || exists i :: 0 <= i < n && ints[i].at == k && End(ints[i]) == m
    ensures ints[n].start == m
  {
    hide AllTaken, Arrived, SegmentOk, FatesOk;
    assert m <= ints[n].start;
    assert ints[n].start <= |Arrived(arrived, k)| by { SegmentData(ints, arrived, n); }
    if m < ints[n].start { NoGap(ints, arrived, k, n, m); }
  }

  lemma AllHanded(ints: seq<Internal>, arrived: map<Conn, seq<Arrival>>, k: Conn)
    requires SegmentsOk(ints, arrived) && AllTaken(Arrived(arrived, k))
    ensures Handed(ints, k, |ints|) == Datas(Arrived(arrived, k))
  {
    hide SegmentsOk, AllTaken, Arrived, Handed;
    var m := HandedIsPrefix(ints, arrived, k, |ints|);
    if m < |Arrived(arrived, k)| { NoGap(ints, arrived, k, |ints|, m); }
  }

  lemma {:induction false} AllReceived(ints: seq<Internal>, k: Conn, n: nat)
    requires n <= |ints|
    requires forall i :: 0 <= i < n && ints[i].at == k ==> ints[i].port.w.sock == Flat(ints[i].port.w.log)
    ensures Received(ints, k, n) == Flat(Handed(ints, k, n))
  {
    if n == 0 {
    } else {
      AllReceived(ints, k, n - 1);
      var more: seq<Bytes> := if ints[n - 1].at == k then ints[n - 1].port.w.log else [];
      FlatAppend(Handed(ints, k, n - 1), more);
    }
  }

  lemma AllArrived(s: State, k: Conn)
    requires Inv(s) && k in s.exts && Clear(To(k), s.down) && InHand(s.cli, k) == []
    requires Pending(s.exts[k].rd) == [] && s.exts[k].dropped == []
    ensures Datas(Arrived(s.arrived, k)) == s.exts[k].got
  {
    hide Registration, AckOrder, Upstream, ExtsOk, ProxiesOk, PermitsOk, SrvOk, SegmentsOk, ConnsOk, CliOk, IntsOk,
      Chunks, L.Inv, Datas, InHand, Pending, Clear;
    ClearIsRead(To(k), s.down);
    assert PortFlow(s.exts[k], Chunks(To(k), s.down.log));
  }

  /** In every run: if nothing of user k was given up, nothing of it is under way and the write
      tasks have nothing left to do, the services opened for k have received, one after the other,
      exactly the bytes the user sent, whatever other users are doing. */
  lemma NothingMissingForServices(config: seq<ClientInfo>, run: seq<Action>, s: State, k: Conn)
    requires Reaches(config, run, s) && k in s.exts
    requires AllTaken(Arrived(s.arrived, k)) && s.exts[k].dropped == []
    requires Clear(To(k), s.down) && InHand(s.cli, k) == [] && Pending(s.exts[k].rd) == []
    requires forall i :: 0 <= i < |s.ints| && s.ints[i].at == k ==> Settled(s.ints[i].port.w)
    ensures Received(s.ints, k, |s.ints|) == Flat(s.exts[k].got)
  {
    hide Exec, AllTaken, Arrived, Clear, InHand, Pending, Handed, Received, Structure, Registration, AckOrder,
      Upstream, SegmentsOk, W.Inv, DownLogOk, ExtFlow, ArriveFlow, ConnsOk, CliOk;
    T.Always(config, run, s);
    AllArrived(s, k);
    AllHanded(s.ints, s.arrived, k);
    forall i | 0 <= i < |s.ints| && s.ints[i].at == k ensures s.ints[i].port.w.sock == Flat(s.ints[i].port.w.log) {
      SettledIsComplete(s.ints[i].port.w);
    }
    AllReceived(s.ints, k, |s.ints|);
  }

  // ---------------------------------------------------------------- back to the users

  /** No response read for k was refused. */
  ghost predicate NoneRefused(s: State, k: Conn)
    requires k in s.exts
  {
    |s.exts[k].w.log| + |SrvHand(s.srv, k)| == |Chunks(To(k), s.up.delivered)|
  }

  /** A user that is still routed and received has had nothing refused. */
  lemma RoutedIsUnrefused(s: State, k: Conn)
    requires Inv(s) && k in s.exts && s.exts[k].w.open && ExtSender(s.srv, s.routes, k)
    ensures NoneRefused(s, k)
  {
    hide Inv, Chunks, ExtSender;
    T.ReadOk(s, k);
  }

  lemma AllQueued(s: State, k: Conn)
    requires Inv(s) && k in s.exts && NoneRefused(s, k) && SrvHand(s.srv, k) == []
    ensures s.exts[k].w.log == Chunks(To(k), s.up.delivered)
  {
    hide Inv, Chunks;
    T.ReadOk(s, k);
  }

  lemma AllSent(s: State, i: nat)
    requires Inv(s) && i < |s.ints| && Clear(From(i), s.up)
    requires Pending(s.ints[i].port.rd) == [] && s.ints[i].port.dropped == []
    ensures Chunks(From(i), s.up.delivered) == s.ints[i].port.got
  {
    hide Registration, AckOrder, Downstream, RouteFlow, UpLogOk, ExtsOk, ProxiesOk, PermitsOk, SrvOk, L.Inv, Chunks,
      Pending, Clear;
    ClearIsRead(From(i), s.up);
    assert PortFlow(s.ints[i].port, Chunks(From(i), s.up.log));
  }

  /** `m` merges everything the internal connections of k have put out. */
  ghost predicate WholeMerge(s: State, k: Conn, m: seq<L.Item>) {
    && T.MergeFor(s, k, m)
    && forall i :: 0 <= i < |s.ints| && s.ints[i].at == k ==> Chunks(From(i), m) == s.ints[i].port.got
  }

  /** In every run: if no response for k was refused, nothing is under way back to it and its write
      task has nothing left to do, the user has received exactly a merge of all that its services
      put out, whatever other users are doing. */
  lemma NothingMissingForUser(config: seq<ClientInfo>, run: seq<Action>, s: State, k: Conn)
    requires Reaches(config, run, s) && k in s.exts
    requires NoneRefused(s, k) || (s.exts[k].w.open && ExtSender(s.srv, s.routes, k))
    requires SrvHand(s.srv, k) == [] && Settled(s.exts[k].w)
    requires forall i :: 0 <= i < |s.ints| && s.ints[i].at == k ==>
      Clear(From(i), s.up) && Pending(s.ints[i].port.rd) == [] && s.ints[i].port.dropped == []
    ensures exists m :: WholeMerge(s, k, m) && s.exts[k].w.sock == Flat(T.Payloads(m))
  {
    hide Exec, Inv, Chunks, T.Responses, Clear, Pending, NoneRefused, SrvHand, ExtSender;
    T.Always(config, run, s);
    var m := T.Responses(k, s.up.delivered);
    T.ResponsesAreMerge(s, k);
    T.ResponsesPayload(k, s.up.delivered);
    forall i | 0 <= i < |s.ints| && s.ints[i].at == k ensures Chunks(From(i), m) == s.ints[i].port.got {
      AllSent(s, i);
      forall x | 0 <= x < |s.up.delivered| ensures UpItemOk(s.up.delivered[x], s.ints) { T.OriginOk(s, x); }
      T.ResponsesFrom(k, i, s.up.delivered);
    }
    if s.exts[k].w.open && ExtSender(s.srv, s.routes, k) { RoutedIsUnrefused(s, k); }
    assert s.exts[k].w.sock == Flat(T.Payloads(m)) by { UserDrained(s, k); }
    assert WholeMerge(s, k, m);
  }

  lemma UserDrained(s: State, k: Conn)
    requires Inv(s) && k in s.exts && NoneRefused(s, k) && SrvHand(s.srv, k) == [] && Settled(s.exts[k].w)
    ensures s.exts[k].w.sock == Flat(Chunks(To(k), s.up.delivered))
  {
    hide Registration, AckOrder, Downstream, Upstream, ProxiesOk, PermitsOk, SrvOk, L.Inv, Chunks, W.Conserved,
      NoneRefused, SrvHand;
    assert ExtOk(s.proxies, k, s.exts[k]);
    AllQueued(s, k);
    SettledIsComplete(s.exts[k].w);
  }
}
