/** Protocol messages and client configuration
    (rfrp_proto/src/frame_types.rs, rfrp_config/src/config_info/base_types.rs). */
module Frames {
  import opened Seqs

  datatype ClientInfo = ClientInfo(
    name: string, bindPort: nat, proxyIp: string, proxyPort: nat, proxyConType: string,
    addr: string)

  datatype ServerInfo = ServerInfo(serverIp: string, serverPort: nat, authToken: string, addr: string)

  datatype Frame =
    | Register(client: ClientInfo)
    | RegisterAck(ackClient: ClientInfo, success: bool, proxyId: nat)
    | Control(command: string, args: seq<string>)
    | Data(connId: nat, dataProxyId: nat, data: Bytes)

  function NewPing(): Frame { Control("ping", []) }

  function NewPong(): Frame { Control("pong", []) }

  predicate IsPing(f: Frame) { f.Control? && f.command == "ping" }

  predicate IsPong(f: Frame) { f.Control? && f.command == "pong" }

  /** What survives serialisation of a ClientInfo: everything but the skipped `addr`. */
  function BlankClient(ci: ClientInfo): ClientInfo { ci.(addr := "") }

  /** The frame the peer decodes when `f` is sent. */
  function Blank(f: Frame): Frame {
    match f
    case Register(ci) => Register(BlankClient(ci))
    case RegisterAck(ci, ok, id) => RegisterAck(BlankClient(ci), ok, id)
    case Control(_, _) => f
    case Data(_, _, _) => f
  }

  /** Decimal text of a number, as `format!("{}", n)` prints it. */
  function Decimal(n: nat): string
  {
    if n < 10 then [Digit(n)] else Decimal(n / 10) + [Digit(n % 10)]
  }

  function Digit(d: nat): char
    requires d < 10
  {
    "0123456789"[d]
  }

  // ---------------------------------------------------------------- what the text says

  predicate IsDigit(c: char) { '0' <= c <= '9' }

  predicate AllDigits(s: string) { forall i :: 0 <= i < |s| ==> IsDigit(s[i]) }

  /** What a string of digits reads as, from the left. */
  function Parse(s: string): int {
    if s == [] then 0 else 10 * Parse(s[..|s| - 1]) + (s[|s| - 1] as int - '0' as int)
  }

  lemma DigitReads(d: nat)
    requires d < 10
    ensures IsDigit(Digit(d)) && Digit(d) as int - '0' as int == d
  {
  }

  /** Decimal text reads back as the number, has digits only, at least one, and no leading zero
      except for zero itself. */
  lemma {:induction false} DecimalReads(n: nat)
    ensures Parse(Decimal(n)) == n && AllDigits(Decimal(n))
    ensures |Decimal(n)| >= 1 && (n > 0 ==> Decimal(n)[0] != '0')
  {
    DigitReads(n % 10);
    if n < 10 {
      assert Parse([Digit(n)]) == 10 * Parse([]) + n;
    } else {
      DecimalReads(n / 10);
      assert Decimal(n)[..|Decimal(n)| - 1] == Decimal(n / 10);
    }
  }

  /** The cached address is the ip, a colon, and a text of digits that reads as the port. */
  lemma AddrReads(ip: string, port: nat)
    ensures var a, n := AddrText(ip, port), |ip|;
      && |a| > n + 1 && a[..n] == ip && a[n] == ':'
      && AllDigits(a[n + 1..]) && Parse(a[n + 1..]) == port && (port > 0 ==> a[n + 1] != '0')
  {
    DecimalReads(port);
    var a := AddrText(ip, port);
    assert a[|ip| + 1..] == Decimal(port);
  }

  /** Heartbeats are known by their command alone, and the two kinds are never mistaken. */
  lemma HeartbeatsRecognised(args: seq<string>, f: Frame)
    ensures IsPing(NewPing()) && IsPing(Control("ping", args)) && IsPong(NewPong()) && IsPong(Control("pong", args))
    ensures !(IsPing(f) && IsPong(f)) && Blank(NewPing()) == NewPing() && Blank(NewPong()) == NewPong()
  {
    assert "ping"[1] != "pong"[1];
  }

  // ---------------------------------------------------------------- addresses

  /** The cached "ip:port" text. */
  function AddrText(ip: string, port: nat): string { ip + ":" + Decimal(port) }

  function AddrOf(ci: ClientInfo): string { AddrText(ci.proxyIp, ci.proxyPort) }

  predicate Initialised(ci: ClientInfo) { ci.addr == AddrOf(ci) }

  /** The text is the ip, a colon and digits that read as the port. */
  predicate ReadsAs(addr: string, ip: string, port: nat) {
    var n := |ip|;
    |addr| > n + 1 && addr[..n] == ip && addr[n] == ':' && AllDigits(addr[n + 1..]) && Parse(addr[n + 1..]) == port
  }

  lemma AddrsRead()
    ensures forall ip, port: nat :: ReadsAs(AddrText(ip, port), ip, port)
  {
    forall ip, port: nat ensures ReadsAs(AddrText(ip, port), ip, port) { AddrReads(ip, port); }
  }

  /** `ConfigInfo::init`: fill in every cached address, the clients' in place. */
  method InitConfig(server: ServerInfo, clients: array<ClientInfo>) returns (server': ServerInfo)
    modifies clients
    ensures server'.addr == AddrText(server.serverIp, server.serverPort)
    ensures server'.(addr := server.addr) == server
    ensures forall i :: 0 <= i < clients.Length ==>
      Initialised(clients[i]) && BlankClient(clients[i]) == BlankClient(old(clients[i]))
    ensures forall i :: 0 <= i < clients.Length ==>
      ReadsAs(clients[i].addr, old(clients[i]).proxyIp, old(clients[i]).proxyPort)
    ensures ReadsAs(server'.addr, server.serverIp, server.serverPort)
  {
    hide ReadsAs, AddrText;
    AddrsRead();
    server' := server.(addr := AddrText(server.serverIp, server.serverPort));
    for i := 0 to clients.Length
      invariant forall j :: 0 <= j < i ==>
        Initialised(clients[j]) && BlankClient(clients[j]) == BlankClient(old(clients[j]))
      invariant forall j :: i <= j < clients.Length ==> clients[j] == old(clients[j])
    {
      clients[i] := clients[i].(addr := AddrOf(clients[i]));
    }
  }
}
