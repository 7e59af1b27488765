/** The server's main loop with its real tables: every `Arc<DashMap>` is an object, shared by
    the session, the cache and the accept loop it was handed to
    (rfrp_server/src/run_proxy.rs:55-196). */
module ServerSession {
  import opened Seqs
  import opened Frames
  import opened Decisions

  /** The sending half of one external connection's channel. */
  class Channel {
    constructor () {}
  }

  class RoutingTable {
    var entries: map<nat, Channel>

    constructor ()
      ensures entries == map[]
    {
      entries := map[];
    }
  }

  /** A spawned handle_reg_frame task, with the arguments it was given. */
  datatype Task = Task(id: nat, client: ClientInfo, table: RoutingTable)

  /** What happens to a session: a frame arrives, or an accept loop or read task edits its
      own table behind the main loop's back. */
  datatype Event =
    | Received(frame: Frame)
    | Accepted(task: nat, conn: nat)
    | Closed(task: nat, conn: nat)

  /** The same session without objects, cache or id counter. */
  datatype View = View(clients: seq<ClientInfo>, routes: set<Conn>)

  predicate Routed(v: View, f: Frame) { f.Data? && Conn(f.dataProxyId, f.connId) in v.routes }

  function Decide(v: View, f: Frame): ServerAction {
    ServerDecide(|v.clients|, |v.clients|, Routed(v, f), f)
  }

  function NextView(v: View, e: Event): View {
    match e
    case Received(f) =>
      if Decide(v, f).SpawnProxy? then v.(clients := v.clients + [Decide(v, f).spawned]) else v
    case Accepted(p, c) => if p < |v.clients| then v.(routes := v.routes + {Conn(p, c)}) else v
    case Closed(p, c) => if p < |v.clients| then v.(routes := v.routes - {Conn(p, c)}) else v
  }

  function ViewAfter(v: View, events: seq<Event>): View {
    if events == [] then v else NextView(ViewAfter(v, events[..|events| - 1]), events[|events| - 1])
  }

  /** The decisions of the plain session, one per received frame. */
  function Verdicts(v: View, events: seq<Event>): seq<ServerAction> {
    if events == [] then []
    else
      var before := events[..|events| - 1];
      var e := events[|events| - 1];
      Verdicts(v, before) + (if e.Received? then [Decide(ViewAfter(v, before), e.frame)] else [])
  }

  class Session {
    var proxyRouting: map<nat, RoutingTable>
    var proxyTasks: seq<Task>
    var cachedRouting: Option<(nat, RoutingTable)>
    var nextProxyId: nat

    constructor ()
      ensures Valid() && CurrentView() == View([], {})
      ensures fresh(Tables())
    {
      proxyRouting, proxyTasks, cachedRouting, nextProxyId := map[], [], None, 0;
    }

    /** The id counter counts the tasks, each task was handed the table filed under its id, no
        two tasks share one, and the cache holds the very object the map holds. */
    ghost predicate Valid()
      reads this
    {
      && nextProxyId == |proxyTasks| <= MAX_PROXIES
      && (forall p :: p in proxyRouting <==> 0 <= p < |proxyTasks|)
      && (forall p :: 0 <= p < |proxyTasks| ==> proxyTasks[p].id == p && proxyTasks[p].table == proxyRouting[p])
      && (forall p, q :: 0 <= p < q < |proxyTasks| ==> proxyTasks[p].table != proxyTasks[q].table)
      && (cachedRouting.Some? ==>
            cachedRouting.value.0 in proxyRouting && proxyRouting[cachedRouting.value.0] == cachedRouting.value.1)
    }

    ghost function Tables(): set<RoutingTable>
      reads this
    {
      set p | 0 <= p < |proxyTasks| :: proxyTasks[p].table
    }

    ghost function Routes(): set<Conn>
      reads this, Tables()
    {
      set p, c | 0 <= p < |proxyTasks| && c in proxyTasks[p].table.entries :: Conn(p, c)
    }

    ghost function CurrentView(): View
      reads this, Tables()
    {
      View(seq(|proxyTasks|, p requires 0 <= p < |proxyTasks| reads this => proxyTasks[p].client), Routes())
    }

    /** The routing table for a proxy id: through the cache if it matches, else through the
        map, refreshing the cache on a hit. Either way it is what the map holds. */
    method Lookup(p: nat) returns (rt: Option<RoutingTable>)
      requires Valid()
      modifies this`cachedRouting
      ensures Valid()
      ensures rt == if p in proxyRouting then Some(proxyRouting[p]) else None
      ensures cachedRouting == if p in proxyRouting then Some((p, proxyRouting[p])) else old(cachedRouting)
    {
      if cachedRouting.Some? && cachedRouting.value.0 == p {
        rt := Some(cachedRouting.value.1);
      } else if p in proxyRouting {
        rt := Some(proxyRouting[p]);
        cachedRouting := Some((p, proxyRouting[p]));
      } else {
        rt := None;
      }
    }

    /** File a new table under the next id and hand it to a new task. */
    method SpawnProxy(ci: ClientInfo) returns (id: nat)
      requires Valid() && |proxyTasks| < MAX_PROXIES
      modifies this
      ensures Valid() && id == old(nextProxyId)
      ensures |proxyTasks| == old(|proxyTasks|) + 1 && proxyTasks[..id] == old(proxyTasks)
      ensures id !in old(proxyRouting) && proxyRouting == old(proxyRouting)[id := proxyTasks[id].table]
      ensures proxyTasks[id].client == ci && fresh(proxyTasks[id].table) && proxyTasks[id].table.entries == map[]
      ensures cachedRouting == old(cachedRouting)
    {
      id := nextProxyId;
      nextProxyId := (nextProxyId + 1) % U32_SIZE;
      var routing := new RoutingTable();
      proxyRouting := proxyRouting[id := routing];
      proxyTasks := proxyTasks + [Task(id, ci, routing)];
    }

    /** One turn of the main loop, up to its next await. The action is the one the plain
        session takes, and a forwarded payload goes to the channel filed for its connection. */
    method OnFrame(f: Frame) returns (act: ServerAction, to: Option<Channel>)
      requires Valid()
      modifies this
      ensures Valid()
      ensures act == Decide(old(CurrentView()), f)
      ensures CurrentView() == NextView(old(CurrentView()), Received(f))
      ensures act.Forward? ==>
        act.to.p < |proxyTasks| && act.to.c in proxyTasks[act.to.p].table.entries
        && to == Some(proxyTasks[act.to.p].table.entries[act.to.c])
      ensures fresh(Tables() - old(Tables()))
    {
      ghost var v := CurrentView();
      act, to := Ignore, None;
      match f {
        case Register(ci) =>
          if |proxyTasks| >= MAX_PROXIES {
            act := Reject(ci);
          } else {
            var id := SpawnProxy(ci);
            act := ServerAction.SpawnProxy(id, ci);
            assert CurrentView().clients == v.clients + [ci];
            assert CurrentView().routes == v.routes;
          }
        case Control(_, _) =>
          if IsPing(f) { act := ReplyPong; }
        case RegisterAck(_, _, _) =>
        case Data(c, p, d) =>
          var rt := Lookup(p);
          if rt.Some? && c in rt.value.entries {
            to := Some(rt.value.entries[c]);
            act := Forward(Conn(p, c), d);
          } else {
            act := NoRoute(Conn(p, c));
          }
          assert Conn(p, c) in v.routes <==> p in proxyRouting && c in proxyRouting[p].entries;
      }
    }

    /** The accept loop of a task files a new connection in the table it was handed. */
    method Accept(p: nat, c: nat)
      requires Valid()
      modifies Tables()
      ensures Valid() && CurrentView() == NextView(old(CurrentView()), Accepted(p, c))
    {
      if p < |proxyTasks| {
        ghost var v := CurrentView();
        var ch := new Channel();
        var table := proxyTasks[p].table;
        table.entries := table.entries[c := ch];
        assert CurrentView().routes == v.routes + {Conn(p, c)};
      }
    }

    /** A read task of proxy p removes its connection on disconnect. */
    method Close(p: nat, c: nat)
      requires Valid()
      modifies Tables()
      ensures Valid() && CurrentView() == NextView(old(CurrentView()), Closed(p, c))
    {
      if p < |proxyTasks| {
        ghost var v := CurrentView();
        var table := proxyTasks[p].table;
        table.entries := table.entries - {c};
        assert CurrentView().routes == v.routes - {Conn(p, c)};
      }
    }
  }

  /** Any sequence of frames, interleaved with any table edits: the cached session decides
      exactly like the plain one. */
  method Serve(events: seq<Event>) returns (session: Session, acts: seq<ServerAction>)
    ensures fresh(session) && session.Valid()
    ensures acts == Verdicts(View([], {}), events)
    ensures session.CurrentView() == ViewAfter(View([], {}), events)
  {
    session := new Session();
    acts := [];
    var i := 0;
    while i < |events|
      invariant i <= |events|
      invariant fresh(session) && session.Valid() && fresh(session.Tables())
      invariant acts == Verdicts(View([], {}), events[..i])
      invariant session.CurrentView() == ViewAfter(View([], {}), events[..i])
    {
      assert events[..i + 1][..i] == events[..i];
      match events[i] {
        case Received(f) =>
          var act, to := session.OnFrame(f);
          acts := acts + [act];
        case Accepted(p, c) => session.Accept(p, c);
        case Closed(p, c) => session.Close(p, c);
      }
      i := i + 1;
    }
    assert events[..i] == events;
  }

  /** For any sequence of frames and edits the plain session never has more than 16 proxies. */
  lemma {:induction false} ProxyCap(v: View, events: seq<Event>)
    requires |v.clients| <= 16
    ensures |ViewAfter(v, events).clients| <= 16
  {
    if events == [] {
    } else {
      ProxyCap(v, events[..|events| - 1]);
    }
  }
}
