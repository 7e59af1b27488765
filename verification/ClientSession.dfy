/** The client's registration phase and main loop with their real tables
    (rfrp_client/src/run_proxy.rs:64-148, 152-296, 308-357, 422). */
module ClientSession {
  import opened Seqs
  import opened Frames
  import opened Decisions

  // ---------------------------------------------------------------- registration

  /** What becomes of one registration: its frame cannot be queued, or it is and waiting for the
      response yields this. */
  datatype Reply = NotQueued | Read(frame: Frame) | DecodeError | ReadError | Eof | Timeout

  predicate Success(r: Reply) { r.Read? && r.frame.RegisterAck? && r.frame.success }

  /** How many registrations are acknowledged before the first that is not. */
  function Successes(replies: seq<Reply>): (n: nat)
    ensures n <= |replies|
    ensures forall j :: 0 <= j < n ==>
      replies[j].Read? && replies[j].frame.RegisterAck? && replies[j].frame.success
    ensures n < |replies| ==> !(replies[n].Read? && replies[n].frame.RegisterAck? && replies[n].frame.success)
  {
    if replies == [] || !Success(replies[0]) then 0 else 1 + Successes(replies[1..])
  }

  /** The map after the first n successes: each proxy under the id it was acknowledged with. */
  function Filed(proxies: seq<ClientInfo>, replies: seq<Reply>, n: nat): map<nat, ClientInfo>
    requires n <= Successes(replies) && n <= |proxies|
  {
    if n == 0 then map[] else Filed(proxies, replies, n - 1)[replies[n - 1].frame.proxyId := proxies[n - 1]]
  }

  predicate AckedAs(replies: seq<Reply>, n: nat, id: nat)
    requires n <= Successes(replies)
  {
    exists j :: 0 <= j < n && replies[j].frame.proxyId == id
  }

  /** Every key was acknowledged, */
  lemma {:induction false} FiledKeys(proxies: seq<ClientInfo>, replies: seq<Reply>, n: nat, id: nat)
    requires n <= Successes(replies) && n <= |proxies|
    ensures id in Filed(proxies, replies, n) <==> AckedAs(replies, n, id)
  {
    if n == 0 {
    } else {
      FiledKeys(proxies, replies, n - 1, id);
      if replies[n - 1].frame.proxyId == id { assert AckedAs(replies, n, id); }
    }
  }

  /** and holds the last proxy acknowledged with it. */
  lemma {:induction false} FiledLast(proxies: seq<ClientInfo>, replies: seq<Reply>, n: nat, j: nat)
    requires j < n <= Successes(replies) && n <= |proxies|
    requires forall l :: j < l < n ==> replies[l].frame.proxyId != replies[j].frame.proxyId
    ensures var id := replies[j].frame.proxyId;
      id in Filed(proxies, replies, n) && Filed(proxies, replies, n)[id] == proxies[j]
  {
    if j == n - 1 {
    } else {
      FiledLast(proxies, replies, n - 1, j);
    }
  }

  lemma AllFiled(proxies: seq<ClientInfo>, replies: seq<Reply>, n: nat)
    requires n <= Successes(replies) && n <= |proxies|
    ensures forall id :: id in Filed(proxies, replies, n) <==> AckedAs(replies, n, id)
    ensures (forall j, l :: 0 <= j < l < n ==> replies[j].frame.proxyId != replies[l].frame.proxyId) ==>
      forall j :: 0 <= j < n ==>
        var id := replies[j].frame.proxyId;
        id in Filed(proxies, replies, n) && Filed(proxies, replies, n)[id] == proxies[j]
  {
    hide Filed, AckedAs;
    forall id: nat ensures id in Filed(proxies, replies, n) <==> AckedAs(replies, n, id) {
      FiledKeys(proxies, replies, n, id);
    }
    if forall j, l :: 0 <= j < l < n ==> replies[j].frame.proxyId != replies[l].frame.proxyId {
      forall j | 0 <= j < n
        ensures var id := replies[j].frame.proxyId;
          id in Filed(proxies, replies, n) && Filed(proxies, replies, n)[id] == proxies[j]
      {
        FiledLast(proxies, replies, n, j);
      }
    }
  }

  /** Stop-and-wait registration: one Register, one answer, and on with the next only after a
      success. `replies[j]` is what would become of the j-th. It succeeds exactly if every reply
      is an acknowledgement with the success flag; otherwise nothing is sent behind the first
      that is not. */
  method RegisterAll(proxies: seq<ClientInfo>, replies: seq<Reply>)
    returns (ok: bool, sent: seq<Frame>, configs: map<nat, ClientInfo>)
    requires |replies| == |proxies|
    ensures ok <==> forall j :: 0 <= j < |replies| ==>
      replies[j].Read? && replies[j].frame.RegisterAck? && replies[j].frame.success
    ensures var n := Successes(replies);
      && |sent| == (if ok || replies[n].NotQueued? then n else n + 1)
      && (forall j :: 0 <= j < |sent| ==> sent[j] == Register(proxies[j]))
      && configs == Filed(proxies, replies, n)
    ensures forall id :: id in configs <==> AckedAs(replies, Successes(replies), id)
    ensures (forall j, l :: 0 <= j < l < Successes(replies) ==>
               replies[j].frame.proxyId != replies[l].frame.proxyId) ==>
      forall j :: 0 <= j < Successes(replies) ==>
        replies[j].frame.proxyId in configs && configs[replies[j].frame.proxyId] == proxies[j]
  {
    ok, sent, configs := true, [], map[];
    ghost var n := Successes(replies);
    AllFiled(proxies, replies, n);
    for i := 0 to |proxies|
      invariant i <= n && ok && |sent| == i
      invariant forall j :: 0 <= j < i ==> sent[j] == Register(proxies[j])
      invariant configs == Filed(proxies, replies, i)
    {
      if replies[i].NotQueued? {
        ok := false;
        return;
      }
      sent := sent + [Register(proxies[i])];
      if !Success(replies[i]) {
        ok := false;
        return;
      }
      assert i < n;
      configs := configs[replies[i].frame.proxyId := proxies[i]];
    }
  }

  // ---------------------------------------------------------------- main loop

  /** The sending half of an internal connection's channel, numbered as opened. */
  class Channel {
    const number: nat

    constructor (number: nat)
      ensures this.number == number
    {
      this.number := number;
    }
  }

  class ConnMap {
    var entries: map<nat, Channel>

    constructor ()
      ensures entries == map[]
    {
      entries := map[];
    }
  }

  datatype Event =
    | Received(frame: Frame)
    | Dialled(success: bool)      // connect() returns
    | Sent(success: bool)         // sender.send() returns
    | Cleanup(reader: nat)        // the read task of that channel, however old, removes its key

  datatype PlainPc = Idle | Dialling(at: Conn) | Sending(at: Conn, channel: nat)

  /** The main loop on one flat table, without objects or cache. `keys` lists the channels opened,
      each by the key its read task will remove. */
  datatype View = View(configs: map<nat, ClientInfo>, conns: map<Conn, nat>, keys: seq<Conn>, pc: PlainPc)

  function FirstView(configs: map<nat, ClientInfo>): View { View(configs, map[], [], Idle) }

  function KeyOf(f: Frame): Conn { if f.Data? then Conn(f.dataProxyId, f.connId) else Conn(0, 0) }

  function Decide(v: View, f: Frame): ClientAction {
    ClientDecide(f.Data? && f.dataProxyId in v.configs, f.Data? && KeyOf(f) in v.conns, f)
  }

  /** One event on the flat table; events the loop is not waiting for do nothing. */
  function NextView(v: View, e: Event): View {
    match e
    case Received(f) =>
      if !v.pc.Idle? then v
      else (
        match Decide(v, f)
        case UseExisting(k, _) => if k in v.conns then v.(pc := Sending(k, v.conns[k])) else v
        case Dial(k, _) => v.(pc := Dialling(k))
        case _ => v)
    case Dialled(ok) =>
      if !v.pc.Dialling? then v
      else if !ok then v.(pc := Idle)
      else v.(pc := Sending(v.pc.at, |v.keys|), keys := v.keys + [v.pc.at], conns := v.conns[v.pc.at := |v.keys|])
    case Sent(ok) =>
      if !v.pc.Sending? then v
      else v.(pc := Idle, conns := if ok then v.conns else v.conns - {v.pc.at})
    case Cleanup(n) => if n < |v.keys| then v.(conns := v.conns - {v.keys[n]}) else v
  }

  function ViewAfter(v: View, events: seq<Event>): View {
    if events == [] then v else NextView(ViewAfter(v, events[..|events| - 1]), events[|events| - 1])
  }

  datatype Pc =
    | Waiting
    | InDial(dialAt: Conn, dialMap: ConnMap)
    | InSend(sendAt: Conn, sendMap: ConnMap, sender: Channel)

  /** A spawned read task: the key it will remove and the handle it was given to remove it with. */
  datatype Reader = Reader(key: Conn, conns: ConnMap)

  class Session {
    const proxyConfigs: map<nat, ClientInfo>
    var proxyConns: map<nat, ConnMap>
    var cachedConns: Option<(nat, ConnMap)>
    var readers: seq<Reader>
    var pc: Pc

    constructor (configs: map<nat, ClientInfo>)
      ensures Valid() && Shows(FirstView(configs)) && fresh(Maps())
    {
      proxyConfigs, proxyConns, cachedConns, readers, pc := configs, map[], None, [], Waiting;
    }

    ghost function Maps(): set<ConnMap>
      reads this`proxyConns
    {
      set p | p in proxyConns :: proxyConns[p]
    }

    /** No two proxies share a map, the cache holds the very object filed for its proxy, and so do
        the handles of the read tasks and those the loop keeps across an await. */
    ghost predicate Valid()
      reads this
    {
      && (forall p, q :: p in proxyConns && q in proxyConns && p != q ==> proxyConns[p] != proxyConns[q])
      && (cachedConns.Some? ==>
            cachedConns.value.0 in proxyConns && proxyConns[cachedConns.value.0] == cachedConns.value.1)
      && (forall n :: 0 <= n < |readers| ==>
            readers[n].key.p in proxyConns && proxyConns[readers[n].key.p] == readers[n].conns)
      && match pc
         case Waiting => true
         case InDial(k, m) => k.p in proxyConns && proxyConns[k.p] == m
         case InSend(k, m, _) => k.p in proxyConns && proxyConns[k.p] == m
    }

    ghost predicate HasKey(k: Conn)
      reads this`proxyConns, Maps()
    {
      k.p in proxyConns && k.c in proxyConns[k.p].entries
    }

    /** The nested maps hold exactly the entries of the flat table. */
    ghost predicate ShowsConns(conns: map<Conn, nat>)
      reads this`proxyConns, Maps()
    {
      && (forall k :: k in conns <==> HasKey(k))
      && (forall k :: k in conns ==> proxyConns[k.p].entries[k.c].number == conns[k])
    }

    ghost predicate ShowsPc(pc': PlainPc)
      reads this`pc
    {
      match pc
      case Waiting => pc' == Idle
      case InDial(k, _) => pc' == Dialling(k)
      case InSend(k, _, ch) => pc' == PlainPc.Sending(k, ch.number)
    }

    ghost predicate ShowsReaders(keys: seq<Conn>)
      reads this`readers
    {
      |readers| == |keys| && forall n :: 0 <= n < |keys| ==> readers[n].key == keys[n]
    }

    /** The session is in the state `v` of the plain loop. */
    ghost predicate Shows(v: View)
      reads this, Maps()
    {
      proxyConfigs == v.configs && ShowsReaders(v.keys) && ShowsPc(v.pc) && ShowsConns(v.conns)
    }

    /** The per-proxy map, created on first use; through the cache if it matches. */
    method MapFor(p: nat, ghost conns: map<Conn, nat>) returns (m: ConnMap)
      requires Valid() && pc.Waiting? && ShowsConns(conns)
      modifies this`proxyConns, this`cachedConns
      ensures Valid() && p in proxyConns && proxyConns[p] == m && ShowsConns(conns)
      ensures cachedConns == Some((p, m)) && forall q :: q in old(proxyConns) ==>
        q in proxyConns && proxyConns[q] == old(proxyConns)[q]
      ensures fresh(Maps() - old(Maps()))
    {
      if cachedConns.Some? && cachedConns.value.0 == p {
        m := cachedConns.value.1;
      } else {
        if p in proxyConns {
          m := proxyConns[p];
        } else {
          m := new ConnMap();
          proxyConns := proxyConns[p := m];
        }
        cachedConns := Some((p, m));
      }
    }

    method Find(k: Conn, m: ConnMap, ghost conns: map<Conn, nat>) returns (ch: Option<Channel>)
      requires ShowsConns(conns) && k.p in proxyConns && proxyConns[k.p] == m
      ensures ch.Some? <==> k in conns
      ensures ch.Some? ==> ch.value.number == conns[k]
    {
      assert k in conns <==> HasKey(k);
      ch := if k.c in m.entries then Some(m.entries[k.c]) else None;
    }

    /** One turn of the main loop, up to its next await. */
    method OnFrame(f: Frame, ghost v: View) returns (act: ClientAction)
      requires Valid() && Shows(v) && pc.Waiting?
      modifies this
      ensures Valid() && Shows(NextView(v, Received(f))) && act == Decide(v, f)
      ensures fresh(Maps() - old(Maps()))
    {
      hide ShowsConns;
      act := Pass;
      if f.Data? {
        var k := Conn(f.dataProxyId, f.connId);
        if k.p !in proxyConfigs {
          act := UnknownProxy(k, f.data);
        } else {
          var m := MapFor(k.p, v.conns);
          var ch := Find(k, m, v.conns);
          if ch.Some? {
            act := UseExisting(k, f.data);
            pc := InSend(k, m, ch.value);
          } else {
            act := Dial(k, f.data);
            pc := InDial(k, m);
          }
        }
      }
    }

    /** connect() returned. On success the new channel is filed unless the key is taken. */
    method OnDialled(success: bool, ghost v: View) returns (occupied: bool)
      requires Valid() && Shows(v) && pc.InDial?
      modifies this, Maps()
      ensures occupied <==> success && v.pc.at in v.conns
      ensures !occupied ==> Valid() && Shows(NextView(v, Dialled(success))) && Maps() == old(Maps())
    {
      hide ShowsConns;
      occupied := false;
      if !success {
        pc := Waiting;
      } else {
        var k, m := pc.dialAt, pc.dialMap;
        var taken := Find(k, m, v.conns);
        if taken.Some? {
          occupied := true;
          pc := InSend(k, m, taken.value);
        } else {
          var ch := new Channel(|readers|);
          readers := readers + [Reader(k, m)];
          AddKey(k, m, ch, v.conns);
          pc := InSend(k, m, ch);
        }
      }
    }

    /** Remove a key through a handle to its map. */
    method RemoveKey(k: Conn, m: ConnMap, ghost conns: map<Conn, nat>)
      requires Valid() && ShowsConns(conns) && k.p in proxyConns && proxyConns[k.p] == m
      modifies m
      ensures ShowsConns(conns - {k})
    {
      m.entries := m.entries - {k.c};
    }

    /** File a channel through a handle to its map. */
    method AddKey(k: Conn, m: ConnMap, ch: Channel, ghost conns: map<Conn, nat>)
      requires Valid() && ShowsConns(conns) && k.p in proxyConns && proxyConns[k.p] == m
      modifies m
      ensures ShowsConns(conns[k := ch.number])
    {
      m.entries := m.entries[k.c := ch];
    }

    /** sender.send() returned; a closed channel is removed from its map. */
    method OnSent(success: bool, ghost v: View)
      requires Valid() && Shows(v) && pc.InSend?
      modifies this, Maps()
      ensures Valid() && Shows(NextView(v, Sent(success))) && Maps() == old(Maps())
    {
      var k, m := pc.sendAt, pc.sendMap;
      pc := Waiting;
      if !success { RemoveKey(k, m, v.conns); }
    }

    /** The n-th read task removes its key through the handle it was given when it was spawned. */
    method OnCleanup(n: nat, ghost v: View)
      requires Valid() && Shows(v)
      modifies Maps()
      ensures Valid() && Shows(NextView(v, Cleanup(n)))
    {
      hide ShowsConns;
      if n < |readers| {
        RemoveKey(readers[n].key, readers[n].conns, v.conns);
      }
    }
  }

  /** Every entry is the latest channel opened for its key. */
  ghost predicate TableOk(conns: map<Conn, nat>, keys: seq<Conn>) {
    && (forall k :: k in conns ==> conns[k] < |keys| && keys[conns[k]] == k)
    && (forall k, n :: k in conns && conns[k] < n < |keys| ==> keys[n] != k)
  }

  /** A key found missing is still missing when its dial returns, and a channel in use is the one
      filed for its key, if any is. */
  ghost predicate LoopOk(pc: PlainPc, conns: map<Conn, nat>, keys: seq<Conn>) {
    match pc
    case Idle => true
    case Dialling(k) => k !in conns
    case Sending(k, n) => n < |keys| && keys[n] == k && (k in conns ==> conns[k] == n)
  }

  /** Only the loop adds keys, whatever clean-ups run meanwhile. */
  ghost predicate PlainInv(v: View) { TableOk(v.conns, v.keys) && LoopOk(v.pc, v.conns, v.keys) }

  lemma RemovedOk(conns: map<Conn, nat>, keys: seq<Conn>, k: Conn, pc: PlainPc)
    requires TableOk(conns, keys)
    ensures TableOk(conns - {k}, keys) && (LoopOk(pc, conns, keys) ==> LoopOk(pc, conns - {k}, keys))
  {
  }

  lemma FiledOk(conns: map<Conn, nat>, keys: seq<Conn>, k: Conn)
    requires TableOk(conns, keys) && k !in conns
    ensures TableOk(conns[k := |keys|], keys + [k])
    ensures LoopOk(Sending(k, |keys|), conns[k := |keys|], keys + [k])
  {
  }

  lemma PlainStep(v: View, e: Event)
    requires PlainInv(v)
    ensures PlainInv(NextView(v, e))
  {
    hide TableOk;
    match e
    case Received(f) => if v.pc.Idle? { ReceivedOk(v, f); }
    case Dialled(ok) => if v.pc.Dialling? && ok { FiledOk(v.conns, v.keys, v.pc.at); }
    case Sent(ok) => if v.pc.Sending? { RemovedOk(v.conns, v.keys, v.pc.at, Idle); }
    case Cleanup(n) => if n < |v.keys| { RemovedOk(v.conns, v.keys, v.keys[n], v.pc); }
  }

  lemma ReceivedOk(v: View, f: Frame)
    requires PlainInv(v) && v.pc.Idle?
    ensures PlainInv(NextView(v, Received(f)))
  {
  }

  lemma {:induction false} PlainAlways(configs: map<nat, ClientInfo>, events: seq<Event>)
    ensures PlainInv(ViewAfter(FirstView(configs), events))
  {
    if events == [] {
    } else {
      PlainAlways(configs, events[..|events| - 1]);
      PlainStep(ViewAfter(FirstView(configs), events[..|events| - 1]), events[|events| - 1]);
    }
  }

  /** Only the event the loop waits for, and clean-ups, do anything. */
  lemma Ignored(v: View, e: Event)
    requires match e
      case Received(_) => !v.pc.Idle?
      case Dialled(_) => !v.pc.Dialling?
      case Sent(_) => !v.pc.Sending?
      case Cleanup(n) => n < |v.keys| ==> v.keys[n] !in v.conns
    ensures NextView(v, e) == v
  {
    if e.Cleanup? && e.reader < |v.keys| { assert v.conns - {v.keys[e.reader]} == v.conns; }
  }

  /** Any interleaving of frames, completions and clean-ups: the session with nested maps and a
      cache behaves like the loop on one flat table, and never meets a taken key. */
  method Forward(configs: map<nat, ClientInfo>, events: seq<Event>) returns (session: Session, everOccupied: bool)
    ensures fresh(session) && session.Valid() && !everOccupied
    ensures session.Shows(ViewAfter(FirstView(configs), events))
  {
    hide NextView;
    session := new Session(configs);
    everOccupied := false;
    ghost var start := FirstView(configs);
    var i := 0;
    while i < |events|
      invariant i <= |events| && !everOccupied
      invariant fresh(session) && session.Valid() && fresh(session.Maps())
      invariant session.Shows(ViewAfter(start, events[..i]))
    {
      assert events[..i + 1][..i] == events[..i];
      ghost var v := ViewAfter(start, events[..i]);
      PlainAlways(configs, events[..i]);
      match events[i] {
        case Received(f) =>
          if session.pc.Waiting? { var act := session.OnFrame(f, v); } else { Ignored(v, events[i]); }
        case Dialled(ok) =>
          if session.pc.InDial? { everOccupied := session.OnDialled(ok, v); } else { Ignored(v, events[i]); }
        case Sent(ok) =>
          if session.pc.InSend? { session.OnSent(ok, v); } else { Ignored(v, events[i]); }
        case Cleanup(n) => session.OnCleanup(n, v);
      }
      i := i + 1;
    }
    assert events[..i] == events;
  }
}
