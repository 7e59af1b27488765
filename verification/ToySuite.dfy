/** A concrete serialiser, compressor and cipher that meet the laws the pipeline asks of its
    primitives, so that nothing proved from those laws is vacuous. */
module ToySuite {
  import opened Seqs
  import opened Frames
  import Flate
  import Crypto
  import Codec

  // ---------------------------------------------------------------- frames as lists of numbers

  function Codes(s: string): seq<nat> { seq(|s|, i requires 0 <= i < |s| => s[i] as int) }

  function ToChar(n: nat): char {
    if n < 0xD800 || 0xE000 <= n < 0x11_0000 then n as char else ' '
  }

  function Text(c: seq<nat>): string { seq(|c|, i requires 0 <= i < |c| => ToChar(c[i])) }

  lemma TextOfCodes(s: string)
    ensures Text(Codes(s)) == s
  {
  }

  function Numbers(b: Bytes): seq<nat> { seq(|b|, i requires 0 <= i < |b| => b[i] as nat) }

  function ToBytes(c: seq<nat>): Bytes { seq(|c|, i requires 0 <= i < |c| => (c[i] % 0x100) as byte) }

  function AllCodes(a: seq<string>): seq<seq<nat>> { seq(|a|, i requires 0 <= i < |a| => Codes(a[i])) }

  function AllText(a: seq<seq<nat>>): seq<string> { seq(|a|, i requires 0 <= i < |a| => Text(a[i])) }

  lemma AllTextOfCodes(a: seq<string>)
    ensures AllText(AllCodes(a)) == a
  {
    forall i | 0 <= i < |a| ensures AllText(AllCodes(a))[i] == a[i] { TextOfCodes(a[i]); }
  }

  function ClientLists(ci: ClientInfo): seq<seq<nat>> {
    [Codes(ci.name), [ci.bindPort], Codes(ci.proxyIp), [ci.proxyPort], Codes(ci.proxyConType)]
  }

  function ClientOf(l: seq<seq<nat>>): Option<ClientInfo> {
    if |l| == 5 && |l[1]| == 1 && |l[3]| == 1 then
      Some(ClientInfo(Text(l[0]), l[1][0], Text(l[2]), l[3][0], Text(l[4]), ""))
    else None
  }

  lemma ClientOfLists(ci: ClientInfo)
    ensures ClientOf(ClientLists(ci)) == Some(BlankClient(ci))
  {
    TextOfCodes(ci.name);
    TextOfCodes(ci.proxyIp);
    TextOfCodes(ci.proxyConType);
  }

  function Lists(f: Frame): seq<seq<nat>> {
    match f
    case Register(ci) => [[0]] + ClientLists(ci)
    case RegisterAck(ci, ok, id) => [[1, if ok then 1 else 0, id]] + ClientLists(ci)
    case Control(command, args) => [[2], Codes(command)] + AllCodes(args)
    case Data(c, p, d) => [[3, c, p], Numbers(d)]
  }

  function FrameOf(l: seq<seq<nat>>): Option<Frame> {
    if l == [] || l[0] == [] then None
    else if l[0][0] == 0 then
      match ClientOf(l[1..])
      case Some(ci) => Some(Register(ci))
      case None => None
    else if l[0][0] == 1 && |l[0]| == 3 then
      match ClientOf(l[1..])
      case Some(ci) => Some(RegisterAck(ci, l[0][1] == 1, l[0][2]))
      case None => None
    else if l[0][0] == 2 && |l| >= 2 then Some(Control(Text(l[1]), AllText(l[2..])))
    else if l[0][0] == 3 && |l[0]| == 3 && |l| == 2 then Some(Data(l[0][1], l[0][2], ToBytes(l[1])))
    else None
  }

  lemma FrameOfLists(f: Frame)
    ensures FrameOf(Lists(f)) == Some(Blank(f))
  {
    match f
    case Register(ci) =>
      ClientOfLists(ci);
      assert Lists(f)[1..] == ClientLists(ci);
    case RegisterAck(ci, _, _) =>
      ClientOfLists(ci);
      assert Lists(f)[1..] == ClientLists(ci);
    case Control(command, args) =>
      TextOfCodes(command);
      AllTextOfCodes(args);
      assert Lists(f)[2..] == AllCodes(args);
    case Data(_, _, d) => assert ToBytes(Numbers(d)) == d;
  }

  // ---------------------------------------------------------------- lists of numbers as bytes

  function Unary(n: nat): Bytes { if n == 0 then [0] else [1] + Unary(n - 1) }

  function WriteList(l: seq<nat>): Bytes { if l == [] then [2] else Unary(l[0]) + WriteList(l[1..]) }

  function WriteLists(ls: seq<seq<nat>>): Bytes { if ls == [] then [] else WriteList(ls[0]) + WriteLists(ls[1..]) }

  /** Read on with n counted, `cur` read of the current list and `done` lists behind it. */
  function ReadOn(b: Bytes, n: nat, cur: seq<nat>, done: seq<seq<nat>>): seq<seq<nat>> {
    if b == [] then done
    else if b[0] == 1 then ReadOn(b[1..], n + 1, cur, done)
    else if b[0] == 0 then ReadOn(b[1..], 0, cur + [n], done)
    else ReadOn(b[1..], 0, [], done + [cur])
  }

  lemma {:induction false} ReadUnary(k: nat, rest: Bytes, n: nat, cur: seq<nat>, done: seq<seq<nat>>)
    ensures ReadOn(Unary(k) + rest, n, cur, done) == ReadOn(rest, 0, cur + [n + k], done)
  {
    if k == 0 {
      assert (Unary(0) + rest)[1..] == rest;
    } else {
      assert (Unary(k) + rest)[1..] == Unary(k - 1) + rest;
      ReadUnary(k - 1, rest, n + 1, cur, done);
    }
  }

  lemma {:induction false} ReadList(l: seq<nat>, rest: Bytes, cur: seq<nat>, done: seq<seq<nat>>)
    ensures ReadOn(WriteList(l) + rest, 0, cur, done) == ReadOn(rest, 0, [], done + [cur + l])
  {
    if l == [] {
      assert (WriteList(l) + rest)[1..] == rest;
      assert cur + l == cur;
    } else {
      assert WriteList(l) + rest == Unary(l[0]) + (WriteList(l[1..]) + rest);
      ReadUnary(l[0], WriteList(l[1..]) + rest, 0, cur, done);
      ReadList(l[1..], rest, cur + [l[0]], done);
      assert cur + [l[0]] + l[1..] == cur + l;
    }
  }

  lemma {:induction false} ReadLists(ls: seq<seq<nat>>, done: seq<seq<nat>>)
    ensures ReadOn(WriteLists(ls), 0, [], done) == done + ls
  {
    if ls == [] {
    } else {
      ReadList(ls[0], WriteLists(ls[1..]), [], done);
      ReadLists(ls[1..], done + [[] + ls[0]]);
      assert [] + ls[0] == ls[0];
      assert done + [ls[0]] + ls[1..] == done + ls;
    }
  }

  function ToyPack(): Codec.Pack {
    Codec.Pack(f => WriteLists(Lists(f)), b => FrameOf(ReadOn(b, 0, [], [])))
  }

  function Toy(): Codec.Suite { Codec.Suite(ToyPack(), Flate.Stored(), Crypto.PlainText()) }

  lemma ToyIsLawful()
    ensures Codec.Lawful(Toy())
  {
    forall f ensures ToyPack().read(ToyPack().write(f)) == Some(Blank(f)) {
      ReadLists(Lists(f), []);
      assert [] + Lists(f) == Lists(f);
      FrameOfLists(f);
    }
    Flate.StoredIsLawful();
    Crypto.PlainTextIsLawful();
  }
}
