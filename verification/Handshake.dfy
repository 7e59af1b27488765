/** The key handshake (rfrp_proto/src/handshake.rs, crypto.rs:26-36) as a protocol between two
    parties over byte streams that may be written and read in fragments of any size. */
module Handshake {
  import opened Seqs

  const NONCE_LEN := 32

  function Ascii(s: string): Bytes {
    seq(|s|, i requires 0 <= i < |s| => (s[i] as int % 0x80) as byte)
  }

  function Label(): Bytes { Ascii("rfrp-handshake-v1") }

  /** The bytes hashed into the session key. */
  function KeyInput(token: Bytes, clientNonce: Bytes, serverNonce: Bytes): Bytes {
    token + Label() + clientNonce + serverNonce
  }

  /** What is hashed: the token, the 17 bytes that spell rfrp-handshake-v1, the client's nonce, the
      server's nonce, and nothing else. */
  lemma KeyInputLayout(t: Bytes, c: Bytes, s: Bytes)
    requires |c| == |s| == NONCE_LEN
    ensures var x, n := KeyInput(t, c, s), |t|;
      && |x| == n + 17 + 32 + 32 && x[..n] == t
      && x[n..n + 17] == [114, 102, 114, 112, 45, 104, 97, 110, 100, 115, 104, 97, 107, 101, 45, 118, 49]
      && x[n + 17..n + 49] == c && x[n + 49..] == s
  {
    var x, n := KeyInput(t, c, s), |t|;
    var spelled: Bytes := [114, 102, 114, 112, 45, 104, 97, 110, 100, 115, 104, 97, 107, 101, 45, 118, 49];
    assert |Label()| == 17;
    assert Label() == spelled by { LabelSpells(spelled); }
    assert x == t + (spelled + (c + s));
  }

  lemma LabelSpells(spelled: Bytes)
    requires spelled == [114, 102, 114, 112, 45, 104, 97, 110, 100, 115, 104, 97, 107, 101, 45, 118, 49]
    ensures Label() == spelled
  {
    var l := "rfrp-handshake-v1";
    assert l[0] == 'r' && l[1] == 'f' && l[2] == 'r' && l[3] == 'p' && l[4] == '-' && l[5] == 'h';
    assert l[6] == 'a' && l[7] == 'n' && l[8] == 'd' && l[9] == 's' && l[10] == 'h' && l[11] == 'a';
    assert l[12] == 'k' && l[13] == 'e' && l[14] == '-' && l[15] == 'v' && l[16] == '1';
  }

  /** Different token or nonces, different hash input. */
  lemma KeyInputInjective(t: Bytes, c: Bytes, s: Bytes, t': Bytes, c': Bytes, s': Bytes)
    requires |c| == |s| == |c'| == |s'| == NONCE_LEN
    ensures KeyInput(t, c, s) == KeyInput(t', c', s') <==> t == t' && c == c' && s == s'
  {
    var a, b := KeyInput(t, c, s), KeyInput(t', c', s');
    if a == b {
      var n := |t| + |Label()|;
      assert |a| == n + 64 && |b| == |t'| + |Label()| + 64;
      assert a[..|t|] == t && b[..|t'|] == t';
      assert a[n..n + 32] == c && b[n..n + 32] == c';
      assert a[n + 32..] == s && b[n + 32..] == s';
    }
  }

  // ---------------------------------------------------------------- reading under fragmentation

  /** A socket: the fragments the network will hand over, in order, and the bytes written. */
  class Socket {
    var incoming: seq<Bytes>
    var outgoing: Bytes

    constructor (fragments: seq<Bytes>)
      ensures incoming == fragments && outgoing == []
    {
      incoming, outgoing := fragments, [];
    }

    /** write_all: all of it, or an error after part of it. */
    method WriteAll(bytes: Bytes, room: nat) returns (ok: bool)
      modifies this`outgoing
      ensures ok <==> |bytes| <= room
      ensures outgoing == old(outgoing) + if ok then bytes else bytes[..room]
    {
      ok := |bytes| <= room;
      outgoing := outgoing + if ok then bytes else bytes[..room];
    }

    /** read_exact: fill the buffer across fragments. It succeeds exactly when enough bytes come,
        and leaves the stream standing right behind what it took. */
    method ReadExact(dst: array<byte>) returns (ok: bool)
      modifies this`incoming, dst
      ensures ok <==> |old(Flat(incoming))| >= dst.Length
      ensures ok ==> dst[..] + Flat(incoming) == old(Flat(incoming))
    {
      ghost var stream := Flat(incoming);
      var filled := 0;
      while filled < dst.Length
        invariant filled <= dst.Length
        invariant dst[..filled] + Flat(incoming) == stream
        decreases |incoming|, dst.Length - filled
      {
        if incoming == [] {
          return false;
        }
        var frag, rest := incoming[0], incoming[1..];
        var n := if |frag| <= dst.Length - filled then |frag| else dst.Length - filled;
        SplitFragment(dst[..filled], incoming, n);
        CopyInto(dst, filled, frag[..n]);
        incoming := if n == |frag| then rest else [frag[n..]] + rest;
        filled := filled + n;
      }
      assert dst[..filled] == dst[..];
      return true;
    }
  }

  /** Moving part of the first fragment over keeps the stream. */
  lemma SplitFragment(before: Bytes, incoming: seq<Bytes>, n: nat)
    requires incoming != [] && n <= |incoming[0]|
    ensures var frag, rest := incoming[0], incoming[1..];
      before + frag[..n] + Flat(if n == |frag| then rest else [frag[n..]] + rest) == before + Flat(incoming)
  {
    var frag, rest := incoming[0], incoming[1..];
    assert frag == frag[..n] + frag[n..];
    assert ([frag[n..]] + rest)[1..] == rest;
  }

  method CopyInto(dst: array<byte>, at: nat, src: Bytes)
    requires at + |src| <= dst.Length
    modifies dst
    ensures dst[..at + |src|] == old(dst[..at]) + src
  {
    for i := 0 to |src|
      invariant dst[..at + i] == old(dst[..at]) + src[..i]
    {
      dst[at + i] := src[i];
    }
  }

  // ---------------------------------------------------------------- the two routines

  /** The server reads the client's nonce, answers with its own, and only then has a key. A
      timeout is an incoming stream that ends early or a write without room. */
  method ServerHandshake(socket: Socket, token: Bytes, nonce: Bytes, room: nat, hash: Bytes -> Bytes)
      returns (key: Option<Bytes>)
    requires |nonce| == NONCE_LEN && socket.outgoing == []
    modifies socket
    ensures key.Some? <==> |old(Flat(socket.incoming))| >= NONCE_LEN && room >= NONCE_LEN
    ensures socket.outgoing ==
      if |old(Flat(socket.incoming))| < NONCE_LEN then [] else if room >= NONCE_LEN then nonce else nonce[..room]
    ensures key.Some? ==>
      var stream := old(Flat(socket.incoming));
      key.value == hash(KeyInput(token, stream[..NONCE_LEN], nonce)) && Flat(socket.incoming) == stream[NONCE_LEN..]
  {
    var clientNonce := new byte[NONCE_LEN];
    ghost var stream := Flat(socket.incoming);
    var ok := socket.ReadExact(clientNonce);
    if !ok { return None; }
    assert stream[..NONCE_LEN] == clientNonce[..] && stream[NONCE_LEN..] == Flat(socket.incoming);
    ok := socket.WriteAll(nonce, room);
    if !ok { return None; }
    key := Some(hash(KeyInput(token, clientNonce[..], nonce)));
  }

  /** The client sends its nonce first, then reads the server's. */
  method ClientHandshake(socket: Socket, token: Bytes, nonce: Bytes, room: nat, hash: Bytes -> Bytes)
      returns (key: Option<Bytes>)
    requires |nonce| == NONCE_LEN && socket.outgoing == []
    modifies socket
    ensures key.Some? <==> |old(Flat(socket.incoming))| >= NONCE_LEN && room >= NONCE_LEN
    ensures socket.outgoing == if room >= NONCE_LEN then nonce else nonce[..room]
    ensures key.Some? ==>
      var stream := old(Flat(socket.incoming));
      key.value == hash(KeyInput(token, nonce, stream[..NONCE_LEN])) && Flat(socket.incoming) == stream[NONCE_LEN..]
  {
    ghost var stream := Flat(socket.incoming);
    var ok := socket.WriteAll(nonce, room);
    if !ok { return None; }
    var serverNonce := new byte[NONCE_LEN];
    ok := socket.ReadExact(serverNonce);
    if !ok { return None; }
    assert stream[..NONCE_LEN] == serverNonce[..] && stream[NONCE_LEN..] == Flat(socket.incoming);
    key := Some(hash(KeyInput(token, nonce, serverNonce[..])));
  }

  /** Each side fed, in whatever fragments, with the other's nonce and then its frames: both
      succeed, with one key, and what is left to read is exactly the frames. */
  method Handshakes(token: Bytes, cn: Bytes, sn: Bytes, toServer: seq<Bytes>, toClient: seq<Bytes>,
                    clientFrames: Bytes, serverFrames: Bytes, hash: Bytes -> Bytes)
    returns (keys: (Bytes, Bytes), left: (seq<Bytes>, seq<Bytes>))
    requires |cn| == |sn| == NONCE_LEN
    requires Flat(toServer) == cn + clientFrames && Flat(toClient) == sn + serverFrames
    ensures keys.0 == keys.1
    ensures Flat(left.0) == clientFrames && Flat(left.1) == serverFrames
  {
    var server := new Socket(toServer);
    var client := new Socket(toClient);
    var sk := ServerHandshake(server, token, sn, NONCE_LEN, hash);
    var ck := ClientHandshake(client, token, cn, NONCE_LEN, hash);
    assert Flat(toServer)[..NONCE_LEN] == cn && Flat(toServer)[NONCE_LEN..] == clientFrames;
    assert Flat(toClient)[..NONCE_LEN] == sn && Flat(toClient)[NONCE_LEN..] == serverFrames;
    keys, left := (sk.value, ck.value), (server.incoming, client.incoming);
  }

  // ---------------------------------------------------------------- two parties

  datatype Pc = Writing | Reading | Done | Failed

  /** One side: how much of its own nonce it has written, what it has read of the peer's, and
      the bytes of the encrypted phase it has sent since. */
  datatype Party = Party(pc: Pc, nonce: Bytes, sent: nat, got: Bytes, frames: Bytes)

  /** `toServer` and `toClient` are everything ever written in the two directions; a side has
      consumed exactly the bytes it `got`. */
  datatype State = State(client: Party, server: Party, toServer: Bytes, toClient: Bytes)

  datatype Step = Write(n: nat) | Read(n: nat) | SendFrame(bytes: Bytes) | Fail

  datatype Action = Action(byClient: bool, step: Step)

  /** The client writes first, the server reads first. */
  function Init(cn: Bytes, sn: Bytes): State {
    State(Party(Writing, cn, 0, [], []), Party(Reading, sn, 0, [], []), [], [])
  }

  /** read_exact never asks for more than is missing; the server writes only after reading and
      the client reads only after writing. */
  predicate CanDo(p: Party, st: Step, incoming: Bytes) {
    match st
    case Write(n) => p.pc.Writing? && 0 < n && p.sent + n <= NONCE_LEN
    case Read(n) => p.pc.Reading? && 0 < n && |p.got| + n <= NONCE_LEN && |p.got| + n <= |incoming|
    case SendFrame(_) => p.pc.Done?
    case Fail => !p.pc.Done?
  }

  /** What a step puts on the outgoing stream. */
  function Output(p: Party, st: Step): Bytes {
    match st
    case Write(n) => if p.sent + n <= |p.nonce| then p.nonce[p.sent..p.sent + n] else []
    case SendFrame(b) => b
    case _ => []
  }

  /** `after` is what the side turns to once its nonce is out, or the peer's is in. */
  function Next(p: Party, st: Step, incoming: Bytes, afterWrite: Pc, afterRead: Pc): Party
    requires CanDo(p, st, incoming)
  {
    match st
    case Write(n) => p.(sent := p.sent + n, pc := if p.sent + n == NONCE_LEN then afterWrite else Writing)
    case Read(n) =>
      p.(got := incoming[..|p.got| + n], pc := if |p.got| + n == NONCE_LEN then afterRead else Reading)
    case SendFrame(b) => p.(frames := p.frames + b)
    case Fail => p.(pc := Failed)
  }

  predicate Enabled(s: State, a: Action) {
    if a.byClient then CanDo(s.client, a.step, s.toClient) else CanDo(s.server, a.step, s.toServer)
  }

  function Do(s: State, a: Action): State
    requires Enabled(s, a)
  {
    if a.byClient then
      s.(client := Next(s.client, a.step, s.toClient, Reading, Done), toServer := s.toServer + Output(s.client, a.step))
    else
      s.(server := Next(s.server, a.step, s.toServer, Done, Writing), toClient := s.toClient + Output(s.server, a.step))
  }

  /** A side's stream is its nonce so far, then its frames; what it read is how the peer's
      stream begins, and no more than a nonce of it. */
  ghost predicate PartyInv(p: Party, outgoing: Bytes, incoming: Bytes) {
    && |p.nonce| == NONCE_LEN && p.sent <= NONCE_LEN && |p.got| <= NONCE_LEN
    && outgoing == p.nonce[..p.sent] + p.frames
    && (p.frames != [] ==> p.pc.Done?)
    && p.got <= incoming
    && (p.pc.Done? ==> p.sent == NONCE_LEN && |p.got| == NONCE_LEN)
  }

  /** Where each side stands between its two halves of the exchange. */
  ghost predicate Inv(s: State) {
    && PartyInv(s.client, s.toServer, s.toClient)
    && PartyInv(s.server, s.toClient, s.toServer)
    && (s.client.pc.Reading? ==> s.client.sent == NONCE_LEN)
    && (s.server.pc.Writing? ==> |s.server.got| == NONCE_LEN)
  }

  lemma PartyStep(p: Party, st: Step, outgoing: Bytes, incoming: Bytes, afterWrite: Pc, afterRead: Pc)
    requires PartyInv(p, outgoing, incoming) && CanDo(p, st, incoming)
    requires afterWrite.Done? ==> (p.pc.Writing? ==> |p.got| == NONCE_LEN)
    requires afterRead.Done? ==> (p.pc.Reading? ==> p.sent == NONCE_LEN)
    ensures PartyInv(Next(p, st, incoming, afterWrite, afterRead), outgoing + Output(p, st), incoming)
  {
    match st
    case Write(n) =>
      assert p.nonce[..p.sent + n] == p.nonce[..p.sent] + p.nonce[p.sent..p.sent + n];
      assert outgoing + Output(p, st) == p.nonce[..p.sent + n] + [];
    case SendFrame(b) =>
      assert p.nonce[..p.sent] + p.frames + b == p.nonce[..p.sent] + (p.frames + b);
    case _ => assert outgoing + [] == outgoing;
  }

  lemma PeerStep(p: Party, outgoing: Bytes, incoming: Bytes, more: Bytes)
    requires PartyInv(p, outgoing, incoming)
    ensures PartyInv(p, outgoing, incoming + more)
  {
  }

  lemma StepInv(s: State, a: Action)
    requires Inv(s) && Enabled(s, a)
    ensures Inv(Do(s, a))
  {
    if a.byClient {
      PartyStep(s.client, a.step, s.toServer, s.toClient, Reading, Done);
      PeerStep(s.server, s.toClient, s.toServer, Output(s.client, a.step));
    } else {
      PartyStep(s.server, a.step, s.toClient, s.toServer, Done, Writing);
      PeerStep(s.client, s.toServer, s.toClient, Output(s.server, a.step));
    }
  }

  lemma NoncesFixed(s: State, a: Action)
    requires Enabled(s, a)
    ensures Do(s, a).client.nonce == s.client.nonce && Do(s, a).server.nonce == s.server.nonce
  {
  }

  function Exec(s: State, run: seq<Action>): Option<State> {
    if run == [] then Some(s)
    else
      match Exec(s, run[..|run| - 1])
      case None => None
      case Some(t) => if Enabled(t, run[|run| - 1]) then Some(Do(t, run[|run| - 1])) else None
  }

  lemma {:induction false} RunInv(cn: Bytes, sn: Bytes, run: seq<Action>)
    requires |cn| == |sn| == NONCE_LEN && Exec(Init(cn, sn), run).Some?
    ensures Inv(Exec(Init(cn, sn), run).value)
    ensures Exec(Init(cn, sn), run).value.client.nonce == cn && Exec(Init(cn, sn), run).value.server.nonce == sn
  {
    if run == [] {
    } else {
      hide Inv, Do, Enabled;
      var t := Exec(Init(cn, sn), run[..|run| - 1]).value;
      RunInv(cn, sn, run[..|run| - 1]);
      StepInv(t, run[|run| - 1]);
      NoncesFixed(t, run[|run| - 1]);
    }
  }

  /** If both sides finish with the same token they hold the same key, for any hash, and each
      reader stands exactly where the other's encrypted frames begin. */
  lemma Agreement(cn: Bytes, sn: Bytes, run: seq<Action>, s: State, token: Bytes, hash: Bytes -> Bytes)
    requires |cn| == |sn| == NONCE_LEN && Exec(Init(cn, sn), run) == Some(s)
    requires s.client.pc.Done? && s.server.pc.Done?
    ensures hash(KeyInput(token, s.client.nonce, s.client.got)) == hash(KeyInput(token, s.server.got, s.server.nonce))
    ensures s.client.got == sn && s.server.got == cn
    ensures |s.server.got| <= |s.toServer| && s.toServer[|s.server.got|..] == s.client.frames
    ensures |s.client.got| <= |s.toClient| && s.toClient[|s.client.got|..] == s.server.frames
  {
    RunInv(cn, sn, run);
    assert s.toServer == cn + s.client.frames && s.toClient == sn + s.server.frames;
    assert s.client.got == sn && s.server.got == cn;
  }

  lemma Then(s0: State, run: seq<Action>, a: Action, s: State)
    requires Exec(s0, run) == Some(s) && Enabled(s, a)
    ensures Exec(s0, run + [a]) == Some(Do(s, a))
  {
    hide Do, Enabled;
    assert (run + [a])[..|run|] == run;
  }

  /** The exchange can succeed, whatever the nonces. */
  lemma HandshakeCompletes(cn: Bytes, sn: Bytes) returns (run: seq<Action>, s: State)
    requires |cn| == |sn| == NONCE_LEN
    ensures Exec(Init(cn, sn), run) == Some(s) && s.client.pc.Done? && s.server.pc.Done?
  {
    var s0 := Init(cn, sn);
    hide Exec;
    assert Exec(s0, []) == Some(s0) by { NoStep(s0); }
    Then(s0, [], Action(true, Write(NONCE_LEN)), s0);
    run := [] + [Action(true, Write(NONCE_LEN))];
    s := Do(s0, Action(true, Write(NONCE_LEN)));
    Then(s0, run, Action(false, Read(NONCE_LEN)), s);
    run := run + [Action(false, Read(NONCE_LEN))];
    s := Do(s, Action(false, Read(NONCE_LEN)));
    Then(s0, run, Action(false, Write(NONCE_LEN)), s);
    run := run + [Action(false, Write(NONCE_LEN))];
    s := Do(s, Action(false, Write(NONCE_LEN)));
    Then(s0, run, Action(true, Read(NONCE_LEN)), s);
    run := run + [Action(true, Read(NONCE_LEN))];
    s := Do(s, Action(true, Read(NONCE_LEN)));
  }

  /** It can also succeed on one side only: the server holds a key as soon as its nonce is written,
      whether or not the client gets to read it. */
  lemma OneSidedSuccess(cn: Bytes, sn: Bytes) returns (run: seq<Action>, s: State)
    requires |cn| == |sn| == NONCE_LEN
    ensures Exec(Init(cn, sn), run) == Some(s) && s.client.pc.Failed? && s.server.pc.Done? && s.server.got == cn
  {
    var s0 := Init(cn, sn);
    hide Exec;
    assert Exec(s0, []) == Some(s0) by { NoStep(s0); }
    Then(s0, [], Action(true, Write(NONCE_LEN)), s0);
    run := [] + [Action(true, Write(NONCE_LEN))];
    s := Do(s0, Action(true, Write(NONCE_LEN)));
    Then(s0, run, Action(false, Read(NONCE_LEN)), s);
    run := run + [Action(false, Read(NONCE_LEN))];
    s := Do(s, Action(false, Read(NONCE_LEN)));
    assert s.server.got == cn;
    Then(s0, run, Action(false, Write(NONCE_LEN)), s);
    run := run + [Action(false, Write(NONCE_LEN))];
    s := Do(s, Action(false, Write(NONCE_LEN)));
    Then(s0, run, Action(true, Fail), s);
    run := run + [Action(true, Fail)];
    s := Do(s, Action(true, Fail));
  }

  lemma NoStep(s: State)
    ensures Exec(s, []) == Some(s)
  {
  }
}
