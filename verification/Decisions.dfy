/** What the two main loops do with one decoded frame, as pure functions of what they look
    up. The tunnel model takes its steps by these functions, and the session classes, with
    their caches and shared tables, are proved to compute them. */
module Decisions {
  import opened Seqs
  import opened Frames

  const MAX_PROXIES := 16

  /** A multiplexed connection: proxy id and connection id. */
  datatype Conn = Conn(p: nat, c: nat)

  datatype ServerAction =
    | Reject(client: ClientInfo)
    | SpawnProxy(id: nat, spawned: ClientInfo)
    | ReplyPong
    | Forward(to: Conn, payload: Bytes)
    | NoRoute(to: Conn)
    | Ignore

  /** rfrp_server/src/run_proxy.rs:111-196. `tasks` is proxy_tasks.len() and `routed` says
      whether the frame's connection is in its proxy's routing table. */
  function ServerDecide(tasks: nat, nextId: nat, routed: bool, f: Frame): ServerAction {
    match f
    case Register(ci) => if tasks >= MAX_PROXIES then Reject(ci) else SpawnProxy(nextId, ci)
    case Control(_, _) => if IsPing(f) then ReplyPong else Ignore
    case RegisterAck(_, _, _) => Ignore
    case Data(c, p, d) => if routed then Forward(Conn(p, c), d) else NoRoute(Conn(p, c))
  }

  datatype ClientAction =
    | UnknownProxy(at: Conn, payload: Bytes)
    | UseExisting(at: Conn, payload: Bytes)
    | Dial(at: Conn, payload: Bytes)
    | Pass

  /** rfrp_client/src/run_proxy.rs:218-295. `known` is the proxy_configs lookup, `present`
      the lookup of the connection in the per-proxy map. */
  function ClientDecide(known: bool, present: bool, f: Frame): ClientAction {
    match f
    case Data(c, p, d) =>
      if !known then UnknownProxy(Conn(p, c), d)
      else if present then UseExisting(Conn(p, c), d)
      else Dial(Conn(p, c), d)
    case _ => Pass
  }
}
