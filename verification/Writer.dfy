/** The flush-when-drained write task that stands between a bounded channel and a socket
    (rfrp_proto/src/frame_handle.rs:185-203, rfrp_client/src/run_proxy.rs:363-383).

    `log` and `lost` are history: every chunk a producer managed to queue, and the bytes
    given up because of a write error or because the task ended. */
module Writer {
  import opened Seqs

  const CAPACITY := 256

  /** The size of the BufWriter's buffer. */
  const BUFFER := 8192

  datatype Pc =
    | NotSpawned        // the receiver exists, the task does not run yet
    | Recv              // rx.recv().await
    | Write(rest: Bytes)// write_all(&data).await, `rest` not yet accepted by the BufWriter
    | Flush             // flush().await after the channel was seen empty
    | Final             // the flush().await behind the loop
    | Done              // task over, receiver dropped

  datatype Writer = Writer(
    pc: Pc, queue: seq<Bytes>, open: bool, buf: Bytes, sock: Bytes, flushesOk: bool,
    log: seq<Bytes>, lost: Bytes)

  datatype Step =
    | Take              // recv() yields the oldest chunk
    | Copy              // what is left of the chunk fits into the buffer and is copied there
    | Direct(n: nat)    // it is as large as the buffer, which is empty: n bytes go to the socket
    | Socket(n: nat)    // n buffered bytes reach the socket, to make room or to flush
    | Written           // write_all returns Ok; rx.is_empty() decides about the flush
    | WriteError        // the socket fails while write_all makes room or writes directly
    | Flushed           // flush returns Ok
    | FlushError        // flush returns Err, which the task ignores
    | Close             // recv() yields None
    | Finish            // the last flush returned, with or without success
    | Abandon           // the owner is dropped before the task was spawned

  function Fresh(): Writer {
    Writer(NotSpawned, [], true, [], [], true, [], [])
  }

  predicate CanPush(w: Writer) { w.open && |w.queue| < CAPACITY }

  /** Sender::send completing: the chunk is queued. */
  function Push(w: Writer, data: Bytes): Writer {
    w.(queue := w.queue + [data], log := w.log + [data])
  }

  function Spawn(w: Writer): Writer { w.(pc := Recv) }

  /** The bytes of the chunk in the task's hands that the BufWriter has not taken yet. */
  function Hand(w: Writer): Bytes {
    if w.pc.Write? then w.pc.rest else []
  }

  /** write_all has to empty the buffer before it takes more of the chunk. */
  predicate NeedsRoom(w: Writer) { w.pc.Write? && w.buf != [] && |w.buf| + |w.pc.rest| > BUFFER }

  /** write_all hands what is left of the chunk to the socket itself. */
  predicate WritesThrough(w: Writer) { w.pc.Write? && w.buf == [] && |w.pc.rest| >= BUFFER }

  /** `senders` says whether some Sender of the channel is still alive. */
  predicate Enabled(w: Writer, st: Step, senders: bool) {
    match st
    case Take => w.pc.Recv? && w.queue != []
    case Copy => w.pc.Write? && w.pc.rest != [] && |w.buf| + |w.pc.rest| <= BUFFER && |w.pc.rest| < BUFFER
    case Direct(n) => WritesThrough(w) && 0 < n <= |w.pc.rest|
    case Socket(n) => (NeedsRoom(w) || w.pc.Flush? || w.pc.Final?) && 0 < n <= |w.buf|
    case Written => w.pc == Write([])
    case WriteError => NeedsRoom(w) || WritesThrough(w)
    case Flushed => w.pc.Flush? && w.buf == []
    case FlushError => w.pc.Flush?
    case Close => w.pc.Recv? && w.queue == [] && !senders
    case Finish => w.pc.Final?
    case Abandon => w.pc.NotSpawned?
  }

  function GiveUp(w: Writer): Writer {
    w.(pc := Done, open := false, queue := [], buf := [],
       lost := w.buf + w.lost + Flat(w.queue))
  }

  function Do(w: Writer, st: Step): Writer
    requires exists senders :: Enabled(w, st, senders)
  {
    match st
    case Take => w.(pc := Write(w.queue[0]), queue := w.queue[1..])
    case Copy => w.(pc := Write([]), buf := w.buf + w.pc.rest)
    case Direct(n) => w.(pc := Write(w.pc.rest[n..]), sock := w.sock + w.pc.rest[..n])
    case Socket(n) => w.(buf := w.buf[n..], sock := w.sock + w.buf[..n])
    case Written => w.(pc := if w.queue == [] then Flush else Recv)
    case WriteError => w.(pc := Final, lost := w.pc.rest)
    case Flushed => w.(pc := Recv)
    case FlushError => w.(pc := Recv, flushesOk := false)
    case Close => w.(pc := Final)
    case Finish => GiveUp(w)
    case Abandon => GiveUp(w)
  }

  function Join(sock: Bytes, buf: Bytes, hand: Bytes, lost: Bytes, queued: Bytes): Bytes {
    sock + buf + hand + lost + queued
  }

  /** Every queued byte is on the socket, in the buffer, in hand, given up or still queued. */
  ghost predicate Conserved(w: Writer) {
    Flat(w.log) == Join(w.sock, w.buf, Hand(w), w.lost, Flat(w.queue))
  }

  ghost predicate Inv(w: Writer) {
    && Conserved(w)
    && |w.queue| <= CAPACITY && |w.buf| <= BUFFER
    && (w.open <==> !w.pc.Done?)
    && (w.pc.Done? ==> w.queue == [] && w.buf == [])
    && (w.lost != [] ==> w.pc.Final? || w.pc.Done?)
    && (w.pc.Recv? && w.flushesOk && w.queue == [] ==> w.buf == [])
    && (w.pc.NotSpawned? ==> w.sock == [] && w.buf == [])
  }

  lemma FreshInv()
    ensures Inv(Fresh())
  {
  }

  lemma PushInv(w: Writer, data: Bytes)
    requires Inv(w) && CanPush(w)
    ensures Inv(Push(w, data))
  {
    FlatPush(w.log, data);
    FlatPush(w.queue, data);
    var q := Flat(w.queue);
    assert Join(w.sock, w.buf, Hand(w), w.lost, q + data)
        == Join(w.sock, w.buf, Hand(w), w.lost, q) + data;
  }

  // The ways bytes change place without changing the stream they spell out.

  lemma JoinTake(s: Bytes, b: Bytes, x: Bytes, q: Bytes)
    ensures Join(s, b, x, [], q) == Join(s, b, [], [], x + q)
  {
  }

  lemma JoinCopy(s: Bytes, b: Bytes, h: Bytes, l: Bytes, q: Bytes)
    ensures Join(s, b + h, [], l, q) == Join(s, b, h, l, q)
  {
  }

  lemma JoinDirect(s: Bytes, h: Bytes, l: Bytes, q: Bytes, n: nat)
    requires n <= |h|
    ensures Join(s + h[..n], [], h[n..], l, q) == Join(s, [], h, l, q)
  {
    assert h == h[..n] + h[n..];
  }

  lemma JoinSocket(s: Bytes, b: Bytes, h: Bytes, l: Bytes, q: Bytes, n: nat)
    requires n <= |b|
    ensures Join(s + b[..n], b[n..], h, l, q) == Join(s, b, h, l, q)
  {
    assert b == b[..n] + b[n..];
  }

  lemma JoinError(s: Bytes, b: Bytes, h: Bytes, q: Bytes)
    ensures Join(s, b, [], h, q) == Join(s, b, h, [], q)
  {
  }

  lemma JoinGiveUp(s: Bytes, b: Bytes, l: Bytes, q: Bytes)
    ensures Join(s, [], [], b + l + q, []) == Join(s, b, [], l, q)
  {
  }

  lemma StepConserves(w: Writer, st: Step, senders: bool)
    requires Inv(w) && Enabled(w, st, senders)
    ensures Conserved(Do(w, st))
  {
    hide Join;
    var q := Flat(w.queue);
    match st
    case Take => JoinTake(w.sock, w.buf, w.queue[0], Flat(w.queue[1..]));
    case Copy => JoinCopy(w.sock, w.buf, Hand(w), w.lost, q);
    case Direct(n) => JoinDirect(w.sock, Hand(w), w.lost, q, n);
    case Socket(n) => JoinSocket(w.sock, w.buf, Hand(w), w.lost, q, n);
    case Written =>
    case WriteError => JoinError(w.sock, w.buf, w.pc.rest, q);
    case Flushed =>
    case FlushError =>
    case Close =>
    case Finish => JoinGiveUp(w.sock, w.buf, w.lost, q);
    case Abandon => JoinGiveUp(w.sock, w.buf, w.lost, q);
  }

  lemma StepInv(w: Writer, st: Step, senders: bool)
    requires Inv(w) && Enabled(w, st, senders)
    ensures Inv(Do(w, st))
    ensures Do(w, st).log == w.log
    ensures w.sock <= Do(w, st).sock
    ensures Do(w, st).open ==> w.open
  {
    StepConserves(w, st, senders);
  }

  /** The socket has received a prefix of what was queued, in order, whatever failed. */
  lemma SocketIsPrefix(w: Writer)
    requires Inv(w)
    ensures w.sock <= Flat(w.log)
  {
  }

  /** Blocked on an empty channel with no failed flush, the task is as good as unbuffered. */
  lemma DrainedIsComplete(w: Writer)
    requires Inv(w) && w.pc.Recv? && w.queue == [] && w.flushesOk
    ensures w.sock == Flat(w.log)
  {
  }

  // ---------------------------------------------------------------- the loop

  /** The loop flushes exactly when it has written a chunk and sees the channel empty; it is left
      exactly by a failed write or a closed channel, never by a failed flush; and the task ends
      only behind the last flush, or without having run. */
  lemma LoopSteps(w: Writer, st: Step, senders: bool)
    requires Enabled(w, st, senders)
    ensures var v := Do(w, st);
      && (!w.pc.Flush? ==> (v.pc.Flush? <==> st.Written? && w.queue == []))
      && (!w.pc.Final? ==> (v.pc.Final? <==> st.WriteError? || st.Close?))
      && (st.Close? ==> w.queue == [] && !senders)
      && (st.FlushError? || st.Flushed? ==> v.pc.Recv?)
      && (v.pc.Done? ==> w.pc.Final? || w.pc.NotSpawned?)
  {
  }

  predicate Failure(st: Step) { st.WriteError? || st.FlushError? || st.Abandon? }

  /** A running task that has something to do can do it without a failure. */
  lemma NeverStuck(w: Writer, senders: bool) returns (st: Step)
    requires Inv(w) && !w.pc.NotSpawned? && !w.pc.Done? && !(w.pc.Recv? && w.queue == [] && senders)
    ensures Enabled(w, st, senders) && !Failure(st)
    ensures w.pc.Final? && w.buf != [] ==> st == Socket(|w.buf|)
  {
    match w.pc
    case Recv => st := if w.queue != [] then Take else Close;
    case Write(rest) =>
      if rest == [] { st := Written; }
      else if WritesThrough(w) { st := Direct(|rest|); }
      else if NeedsRoom(w) { st := Socket(|w.buf|); }
      else { st := Copy; }
    case Flush => st := if w.buf == [] then Flushed else Socket(|w.buf|);
    case Final => st := if w.buf == [] then Finish else Socket(|w.buf|);
  }
}
