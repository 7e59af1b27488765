/** One direction of the tunnel down to its bytes: the encoder turns each queued frame into a
    message, the wire carries messages, the peer decodes them (rfrp_proto/src/coalesce.rs:26-39,
    rfrp_server/src/run_proxy.rs:78-109). Link, which carries frames, is refined by it. */
module CodedLink {
  import opened Seqs
  import opened Frames
  import L = Link
  import C = Codec
  import Crypto

  /** The keys of one session and the primitives it uses. */
  datatype Session = Session(u: C.Suite, key: Bytes, prefix: Bytes)

  ghost predicate Lawful(z: Session) { C.Lawful(z.u) && |z.prefix| == 4 }

  /** `coded` is the message made of the frame in hand; `taken` and `written` are history: each
      frame sent and the message it was sent as; `read` is what the peer made of each message. */
  datatype Coded = Coded(
    queue: seq<L.Item>, open: bool, hand: seq<L.Item>, coded: seq<Bytes>, wire: seq<Bytes>, cut: bool,
    taken: seq<L.Item>, written: seq<Bytes>, read: seq<C.Decoded>)

  /** What the two ends and the network do to a link. */
  datatype Op = Push(it: L.Item) | Step(st: L.Step) | Deliver | Shut

  function Message(z: Session, k: nat, f: Frame): Bytes { C.Encoded(z.u, z.key, z.prefix, k % U64_SIZE, f) }

  predicate Can(c: Coded, op: Op) {
    match op
    case Push(_) => c.open && |c.queue| < L.CAPACITY
    case Step(Pop) => c.open && c.hand == [] && c.queue != []
    case Step(Send) => c.open && c.hand != [] && c.coded != []
    case Step(Fail) => c.open && c.hand != []
    case Step(Close) => c.open && c.hand == [] && c.queue == []
    case Step(Cut(n)) => !c.cut && n <= |c.wire|
    case Deliver => c.wire != []
    case Shut => true
  }

  function End(c: Coded): Coded { c.(open := false, hand := [], coded := [], queue := []) }

  /** The encoder's n-th message is made under counter n, which wraps at 2^64. */
  function Do(z: Session, c: Coded, op: Op): Coded
    requires Can(c, op)
  {
    match op
    case Push(it) => c.(queue := c.queue + [it])
    case Step(Pop) =>
      c.(hand := [c.queue[0]], queue := c.queue[1..], coded := [Message(z, |c.written|, c.queue[0].frame)])
    case Step(Send) =>
      c.(hand := [], coded := [], taken := c.taken + [c.hand[0]], written := c.written + [c.coded[0]],
         wire := if c.cut then c.wire else c.wire + [c.coded[0]])
    case Step(Fail) => End(c)
    case Step(Close) => c.(open := false)
    case Step(Cut(n)) => c.(cut := true, wire := c.wire[..n])
    case Deliver => c.(wire := c.wire[1..], read := c.read + [C.Decode(z.u, z.key, c.wire[0])])
    case Shut => End(c)
  }

  predicate LinkCan(l: L.Link, op: Op) {
    match op
    case Push(_) => L.CanPush(l)
    case Step(st) => L.Enabled(l, st)
    case Deliver => l.wire != []
    case Shut => true
  }

  function LinkDo(l: L.Link, op: Op): L.Link
    requires LinkCan(l, op)
  {
    match op
    case Push(it) => L.Push(l, it)
    case Step(st) => L.Do(l, st)
    case Deliver => L.Deliver(l)
    case Shut => L.Shut(l)
  }

  function Exec(z: Session, ops: seq<Op>): Option<Coded> {
    if ops == [] then Some(Coded([], true, [], [], [], false, [], [], []))
    else
      match Exec(z, ops[..|ops| - 1])
      case None => None
      case Some(c) => if Can(c, ops[|ops| - 1]) then Some(Do(z, c, ops[|ops| - 1])) else None
  }

  function LinkExec(ops: seq<Op>): Option<L.Link> {
    if ops == [] then Some(L.Fresh())
    else
      match LinkExec(ops[..|ops| - 1])
      case None => None
      case Some(l) => if LinkCan(l, ops[|ops| - 1]) then Some(LinkDo(l, ops[|ops| - 1])) else None
  }

  // ---------------------------------------------------------------- the relation

  /** Both links are at the same point, up to the wire. */
  ghost predicate SameEnds(c: Coded, l: L.Link) {
    c.queue == l.queue && c.open == l.open && c.hand == l.hand && c.cut == l.cut
  }

  /** Message k was made of the k-th frame under counter k, the one in hand included. */
  ghost predicate Messages(z: Session, c: Coded) {
    && |c.taken| == |c.written|
    && (forall k :: 0 <= k < |c.written| ==> c.written[k] == Message(z, k, c.taken[k].frame))
    && |c.hand| == |c.coded| <= 1
    && (c.hand != [] ==> c.coded[0] == Message(z, |c.written|, c.hand[0].frame))
  }

  /** The wire carries the messages behind those read, all of them unless it was cut. */
  ghost predicate Carried(z: Session, c: Coded) {
    var n := |c.read|;
    && n + |c.wire| <= |c.written| && (!c.cut ==> n + |c.wire| == |c.written|)
    && c.wire == c.written[n..n + |c.wire|]
    && (forall k :: 0 <= k < n ==> c.read[k] == C.Decode(z.u, z.key, c.written[k]))
  }

  /** Link has delivered, and carries, the frames those messages were made of, blanked. */
  ghost predicate SameFrames(c: Coded, l: L.Link) {
    var n := |c.read|;
    && n + |c.wire| <= |c.taken|
    && l.delivered == L.StripAll(c.taken[..n]) && l.wire == L.StripAll(c.taken[n..n + |c.wire|])
  }

  ghost predicate Refines(z: Session, c: Coded, l: L.Link) {
    SameEnds(c, l) && Messages(z, c) && Carried(z, c) && SameFrames(c, l)
  }

  lemma SameGuards(z: Session, c: Coded, l: L.Link, op: Op)
    requires Refines(z, c, l)
    ensures Can(c, op) <==> LinkCan(l, op)
  {
    hide Message;
  }

  lemma EndsStep(z: Session, c: Coded, l: L.Link, op: Op)
    requires SameEnds(c, l) && Can(c, op) && LinkCan(l, op)
    ensures SameEnds(Do(z, c, op), LinkDo(l, op))
  {
    hide Message;
  }

  lemma MessagesStep(z: Session, c: Coded, op: Op)
    requires Messages(z, c) && Can(c, op)
    ensures Messages(z, Do(z, c, op))
  {
    hide Message;
  }

  lemma CarriedStep(z: Session, c: Coded, op: Op)
    requires Messages(z, c) && Carried(z, c) && Can(c, op)
    ensures Carried(z, Do(z, c, op))
  {
    hide Message, Messages, Carried;
    match op
    case Push(it) => CarriedSame(z, c, Do(z, c, op));
    case Step(Pop) => CarriedSame(z, c, Do(z, c, op));
    case Step(Send) => CarriedSend(z, c);
    case Step(Fail) => CarriedSame(z, c, Do(z, c, op));
    case Step(Close) => CarriedSame(z, c, Do(z, c, op));
    case Step(Cut(k)) => CarriedCut(z, c, k);
    case Deliver => CarriedDeliver(z, c);
    case Shut => CarriedSame(z, c, Do(z, c, op));
  }

  lemma CarriedSame(z: Session, c: Coded, c': Coded)
    requires Carried(z, c) && c'.wire == c.wire && c'.cut == c.cut && c'.written == c.written && c'.read == c.read
    ensures Carried(z, c')
  {
  }

  lemma CarriedSend(z: Session, c: Coded)
    requires Carried(z, c) && Can(c, Step(L.Send))
    ensures Carried(z, Do(z, c, Step(L.Send)))
  {
    var t, n, m := Do(z, c, Step(L.Send)), |c.read|, |c.wire|;
    assert t.written[n..n + m] == c.written[n..n + m];
    if !c.cut { assert t.written[n..n + m + 1] == c.written[n..n + m] + [c.coded[0]]; }
  }

  lemma CarriedCut(z: Session, c: Coded, k: nat)
    requires Carried(z, c) && Can(c, Step(L.Cut(k)))
    ensures Carried(z, Do(z, c, Step(L.Cut(k))))
  {
  }

  lemma CarriedDeliver(z: Session, c: Coded)
    requires Carried(z, c) && Can(c, Deliver)
    ensures Carried(z, Do(z, c, Deliver))
  {
    hide C.Decode;
    assert c.wire[0] == c.written[|c.read|];
  }

  lemma FramesStep(z: Session, c: Coded, l: L.Link, op: Op)
    requires Refines(z, c, l) && Can(c, op) && LinkCan(l, op)
    ensures SameFrames(Do(z, c, op), LinkDo(l, op))
  {
    hide Message, SameFrames, C.Decode, L.Do;
    match op
    case Push(it) => FramesSame(c, l, Do(z, c, op), LinkDo(l, op));
    case Step(Send) => FramesSend(z, c, l);
    case Step(Pop) => FramesStepSame(z, c, l, L.Pop);
    case Step(Fail) => FramesStepSame(z, c, l, L.Fail);
    case Step(Close) => FramesStepSame(z, c, l, L.Close);
    case Step(Cut(k)) => FramesCut(z, c, l, k);
    case Deliver => FramesDeliver(z, c, l);
    case Shut => FramesSame(c, l, Do(z, c, op), LinkDo(l, op));
  }

  lemma FramesSame(c: Coded, l: L.Link, c': Coded, l': L.Link)
    requires SameFrames(c, l)
    requires c'.wire == c.wire && c'.taken == c.taken && c'.read == c.read
    requires l'.wire == l.wire && l'.delivered == l.delivered
    ensures SameFrames(c', l')
  {
  }

  lemma FramesStepSame(z: Session, c: Coded, l: L.Link, st: L.Step)
    requires SameFrames(c, l) && Can(c, Step(st)) && L.Enabled(l, st) && !st.Send? && !st.Cut?
    ensures SameFrames(Do(z, c, Step(st)), L.Do(l, st))
  {
    hide Message, SameFrames;
    FramesSame(c, l, Do(z, c, Step(st)), L.Do(l, st));
  }

  lemma FramesSend(z: Session, c: Coded, l: L.Link)
    requires Refines(z, c, l) && Can(c, Step(L.Send)) && L.Enabled(l, L.Send)
    ensures SameFrames(Do(z, c, Step(L.Send)), L.Do(l, L.Send))
  {
    hide Message, C.Decode, L.Do, L.StripAll;
    SendFrames(c, l);
    assert c.hand == [c.hand[0]];
  }

  lemma FramesCut(z: Session, c: Coded, l: L.Link, k: nat)
    requires SameFrames(c, l) && Can(c, Step(L.Cut(k))) && L.Enabled(l, L.Cut(k))
    ensures SameFrames(Do(z, c, Step(L.Cut(k))), L.Do(l, L.Cut(k)))
  {
    var n := |c.read|;
    assert L.StripAll(c.taken[n..n + |c.wire|])[..k] == L.StripAll(c.taken[n..n + k]);
  }

  lemma FramesDeliver(z: Session, c: Coded, l: L.Link)
    requires SameFrames(c, l) && Can(c, Deliver) && l.wire != []
    ensures SameFrames(Do(z, c, Deliver), L.Deliver(l))
  {
    hide C.Decode;
    var n, m := |c.read|, |c.wire|;
    assert L.StripAll(c.taken[..n]) + [L.Strip(c.taken[n])] == L.StripAll(c.taken[..n + 1]);
    assert L.StripAll(c.taken[n..n + m])[1..] == L.StripAll(c.taken[n + 1..n + m]);
  }

  lemma SendFrames(c: Coded, l: L.Link)
    requires SameFrames(c, l) && |c.hand| == 1 && c.hand == l.hand && c.cut == l.cut && L.Enabled(l, L.Send)
    requires !c.cut ==> |c.read| + |c.wire| == |c.taken|
    ensures var taken, n := c.taken + c.hand, |c.read|;
      var m := if c.cut then |c.wire| else |c.wire| + 1;
      && L.Do(l, L.Send).delivered == L.StripAll(taken[..n])
      && L.Do(l, L.Send).wire == L.StripAll(taken[n..n + m])
  {
    hide L.StripAll;
    var n, m := |c.read|, |c.wire|;
    Earlier(c.taken, c.hand, 0, n);
    assert (c.taken + c.hand)[..n] == (c.taken + c.hand)[0..n] && c.taken[..n] == c.taken[0..n];
    if c.cut {
      Earlier(c.taken, c.hand, n, n + m);
    } else {
      ToTheEnd(c.taken, c.hand, n);
      StripJoin(c.taken[n..n + m], c.hand);
    }
  }

  lemma Earlier(a: seq<L.Item>, b: seq<L.Item>, i: nat, j: nat)
    requires i <= j <= |a|
    ensures (a + b)[i..j] == a[i..j]
  {
  }

  lemma ToTheEnd(a: seq<L.Item>, b: seq<L.Item>, i: nat)
    requires i <= |a|
    ensures (a + b)[i..|a| + |b|] == a[i..|a|] + b
  {
  }

  lemma StripJoin(a: seq<L.Item>, b: seq<L.Item>)
    ensures L.StripAll(a + b) == L.StripAll(a) + L.StripAll(b)
  {
  }

  lemma RefinesStep(z: Session, c: Coded, l: L.Link, op: Op)
    requires Refines(z, c, l) && Can(c, op) && LinkCan(l, op)
    ensures Refines(z, Do(z, c, op), LinkDo(l, op))
  {
    EndsStep(z, c, l, op);
    MessagesStep(z, c, op);
    CarriedStep(z, c, op);
    FramesStep(z, c, l, op);
    hide SameEnds, Messages, Carried, SameFrames, Do, LinkDo, Can, LinkCan;
  }

  lemma {:induction false} RunRefines(z: Session, ops: seq<Op>)
    ensures Exec(z, ops).Some? <==> LinkExec(ops).Some?
    ensures Exec(z, ops).Some? ==> Refines(z, Exec(z, ops).value, LinkExec(ops).value)
  {
    hide Do, LinkDo, Can, LinkCan;
    if ops == [] {
      assert L.StripAll([]) == [];
    } else {
      hide Refines;
      var init, op := ops[..|ops| - 1], ops[|ops| - 1];
      RunRefines(z, init);
      if Exec(z, init).Some? {
        var c, l := Exec(z, init).value, LinkExec(init).value;
        SameGuards(z, c, l, op);
        if Can(c, op) { RefinesStep(z, c, l, op); }
      }
    }
  }

  // ---------------------------------------------------------------- the results

  /** The link on frames and the link on bytes allow the same runs; in each of them message k is
      the wire form of the k-th frame under counter k, and what the peer decodes k-th is the
      frame the link delivers k-th, exactly as far as serialised forms fit the limit. */
  lemma BytesRefineFrames(z: Session, ops: seq<Op>)
    requires Lawful(z)
    ensures Exec(z, ops).Some? <==> LinkExec(ops).Some?
    ensures Exec(z, ops).Some? ==>
      var c, l := Exec(z, ops).value, LinkExec(ops).value;
      && |c.read| == |l.delivered| <= |c.taken| == |c.written|
      && (forall k :: 0 <= k < |c.written| ==>
            c.written[k] == C.Encoded(z.u, z.key, z.prefix, k % U64_SIZE, c.taken[k].frame))
      && CountersOk(z, c)
      && (forall k :: 0 <= k < |c.read| ==>
            && l.delivered[k] == L.Strip(c.taken[k])
            && c.read[k] == C.Outcome(z.u, c.taken[k].frame))
  {
    hide Exec, LinkExec;
    RunRefines(z, ops);
    if Exec(z, ops).Some? {
      var c, l := Exec(z, ops).value, LinkExec(ops).value;
      forall k | 0 <= k < |c.read| ensures c.read[k] == C.Outcome(z.u, c.taken[k].frame) {
        hide C.Outcome, C.Encoded, C.Decode;
        C.RoundTrip(z.u, z.key, z.prefix, k % U64_SIZE, c.taken[k].frame);
      }
      assert CountersOk(z, c) by { WrittenCounters(z, c); }
    }
  }

  /** Message k carries counter k in its trailer, and until the counter wraps no two carry the same
      nonce. */
  ghost predicate CountersOk(z: Session, c: Coded) {
    && (forall k :: 0 <= k < |c.written| ==> Crypto.CarriesCounter(c.written[k], z.prefix, k % U64_SIZE))
    && (forall i, j :: 0 <= i < j < |c.written| && j < U64_SIZE ==>
          Crypto.NonceOf(c.written[i]) != Crypto.NonceOf(c.written[j]))
  }

  lemma WrittenCounters(z: Session, c: Coded)
    requires Lawful(z) && Messages(z, c)
    ensures CountersOk(z, c)
  {
    hide C.Lawful, C.Encoded, Crypto.CarriesCounter, Crypto.NonceOf;
    forall k | 0 <= k < |c.written| ensures Crypto.CarriesCounter(c.written[k], z.prefix, k % U64_SIZE) {
      C.EncodedCarriesCounter(z.u, z.key, z.prefix, k % U64_SIZE, c.taken[k].frame);
    }
    forall i, j | 0 <= i < j < |c.written| && j < U64_SIZE
      ensures Crypto.NonceOf(c.written[i]) != Crypto.NonceOf(c.written[j])
    {
      Crypto.CountersApart(c.written[i], c.written[j], z.prefix, i, j);
    }
  }

  function FramesOf(items: seq<L.Item>): seq<Frame> {
    seq(|items|, k requires 0 <= k < |items| => items[k].frame)
  }

  /** The write task and the reader, run on what a link took from its queue, write the bytes that
      link carried and read the frames that link delivered. */
  method Transport(z: Session, receiver: Bytes, ops: seq<Op>) returns (wire: seq<Bytes>, rs: seq<C.Decoded>)
    requires Lawful(z) && |receiver| == 4 && Exec(z, ops).Some? && LinkExec(ops).Some?
    requires |Exec(z, ops).value.taken| < U64_SIZE
    ensures wire == Exec(z, ops).value.written
    ensures |LinkExec(ops).value.delivered| <= |rs| == |wire| == |Exec(z, ops).value.taken|
    ensures forall k :: 0 <= k < |LinkExec(ops).value.delivered| ==>
      var f := Exec(z, ops).value.taken[k].frame;
      && LinkExec(ops).value.delivered[k].frame == Blank(f)
      && rs[k] == C.Outcome(z.u, f)
  {
    hide Exec, LinkExec, C.Encoded, C.Decode, C.Outcome, C.Lawful;
    BytesRefineFrames(z, ops);
    var frames := FramesOf(Exec(z, ops).value.taken);
    var mine := new Crypto.Cipher(z.u.aead, z.key, z.prefix);
    var theirs := new Crypto.Cipher(z.u.aead, z.key, receiver);
    wire := C.WriteTask(z.u, mine, frames, seq(|frames|, _ => true));
    rs := C.DecodeAll(z.u, theirs, wire);
    forall k | 0 <= k < |rs| ensures rs[k] == C.Outcome(z.u, frames[k]) {
      C.RoundTrip(z.u, z.key, z.prefix, k, frames[k]);
    }
  }
}
