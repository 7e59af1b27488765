/** One direction of the tunnel: the bounded frame queue, the single FIFO encoder task
    behind it and the wire (rfrp_proto/src/coalesce.rs:26-39). A frame reaches the peer
    without its skipped fields, so everything past the encoder is blanked.

    `delivered`, `lost` and `log` are history: what the peer has read, what a cut, a failed
    send or an abort destroyed, and everything ever queued. `origin` tags each frame with
    the task that produced it; no step looks at it. */
module Link {
  import opened Frames

  const CAPACITY := 256

  datatype Item = Item(frame: Frame, origin: nat)

  function Strip(it: Item): Item { it.(frame := Blank(it.frame)) }

  function StripAll(s: seq<Item>): (r: seq<Item>)
    ensures |r| == |s|
    ensures forall i :: 0 <= i < |s| ==> r[i] == Strip(s[i])
  {
    seq(|s|, i requires 0 <= i < |s| => Strip(s[i]))
  }

  datatype Link = Link(
    queue: seq<Item>, open: bool, hand: seq<Item>, wire: seq<Item>, cut: bool,
    delivered: seq<Item>, lost: seq<Item>, log: seq<Item>)

  datatype Step =
    | Pop          // the encoder receives the oldest queued frame
    | Send         // writer.send succeeds locally; a cut wire swallows the frame
    | Fail         // writer.send fails: the encoder ends and its receiver is dropped
    | Close        // the encoder has drained the queue and every sender is gone: it ends
    | Cut(n: nat)  // the connection breaks; only the first n in-flight frames survive

  function Fresh(): Link { Link([], true, [], [], false, [], [], []) }

  predicate CanPush(l: Link) { l.open && |l.queue| < CAPACITY }

  function Push(l: Link, it: Item): Link {
    l.(queue := l.queue + [it], log := l.log + [Strip(it)])
  }

  predicate Enabled(l: Link, st: Step) {
    match st
    case Pop => l.open && l.hand == [] && l.queue != []
    case Send => l.open && l.hand != []
    case Fail => l.open && l.hand != []
    case Close => l.open && l.hand == [] && l.queue == []
    case Cut(n) => !l.cut && n <= |l.wire|
  }

  /** The encoder ends: what it held and what was queued is lost. */
  function Shut(l: Link): Link {
    l.(open := false, hand := [], queue := [], lost := l.lost + StripAll(l.hand + l.queue))
  }

  function Do(l: Link, st: Step): Link
    requires Enabled(l, st)
  {
    match st
    case Pop => l.(hand := [l.queue[0]], queue := l.queue[1..])
    case Send =>
      if l.cut then l.(hand := [], lost := l.lost + StripAll(l.hand))
      else l.(hand := [], wire := l.wire + StripAll(l.hand))
    case Fail => Shut(l)
    case Close => l.(open := false)
    case Cut(n) => l.(cut := true, wire := l.wire[..n], lost := l.wire[n..] + l.lost)
  }

  /** The peer's FramedRead yields the next frame. */
  function Deliver(l: Link): Link
    requires l.wire != []
  {
    l.(wire := l.wire[1..], delivered := l.delivered + [l.wire[0]])
  }

  function Join(d: seq<Item>, w: seq<Item>, x: seq<Item>, h: seq<Item>, q: seq<Item>): seq<Item> {
    d + w + x + StripAll(h + q)
  }

  ghost predicate Inv(l: Link) {
    && l.log == Join(l.delivered, l.wire, l.lost, l.hand, l.queue)
    && |l.queue| <= CAPACITY && |l.hand| <= 1
    && (!l.open ==> l.hand == [] && l.queue == [])
    && (l.lost != [] ==> l.cut || !l.open)
  }

  lemma FreshInv()
    ensures Inv(Fresh())
  {
  }

  lemma PushInv(l: Link, it: Item)
    requires Inv(l) && CanPush(l)
    ensures Inv(Push(l, it))
  {
    assert StripAll(l.hand + (l.queue + [it])) == StripAll(l.hand + l.queue) + [Strip(it)];
  }

  lemma ShutInv(l: Link)
    requires Inv(l)
    ensures Inv(Shut(l))
  {
  }

  lemma DeliverInv(l: Link)
    requires Inv(l) && l.wire != []
    ensures Inv(Deliver(l))
  {
    assert l.wire == [l.wire[0]] + l.wire[1..];
  }

  lemma StepInv(l: Link, st: Step)
    requires Inv(l) && Enabled(l, st)
    ensures Inv(Do(l, st))
    ensures Do(l, st).log == l.log && Do(l, st).delivered == l.delivered
    ensures Do(l, st).open ==> l.open
  {
    match st
    case Pop => assert [l.queue[0]] + l.queue[1..] == l.hand + l.queue;
    case Send => SendInv(l);
    case Fail => ShutInv(l);
    case Close =>
    case Cut(n) => assert l.wire == l.wire[..n] + l.wire[n..];
  }

  lemma SendInv(l: Link)
    requires Inv(l) && Enabled(l, Send)
    ensures Inv(Do(l, Send))
  {
    assert StripAll(l.hand + l.queue) == StripAll(l.hand) + StripAll([] + l.queue);
    if !l.cut { assert l.lost == []; }
  }

  /** FIFO and lossless until it is cut: the peer has read a prefix of what was queued. */
  lemma DeliveredIsPrefix(l: Link)
    requires Inv(l)
    ensures l.delivered <= l.log
    ensures l.wire != [] ==> l.delivered + [l.wire[0]] <= l.log
  {
  }
}
