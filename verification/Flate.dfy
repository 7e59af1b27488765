/** The chunked DEFLATE loops (rfrp_proto/src/compress.rs). The engine behind them may consume
    and emit any amount per call; only the stream as a whole is fixed. */
module Flate {
  import opened Seqs
  import opened Buffers

  const MAX_DECOMPRESSED_SIZE := 64 * 1024 * 1024
  const CHUNK := 8192

  /** What a byte string is to an inflater: a complete stream (of `used` bytes, the rest being
      ignored), the beginning of one, or no stream at all. */
  datatype Inflated = Complete(out: Bytes, used: nat) | Incomplete | Corrupt

  datatype Deflate = Deflate(deflate: Bytes -> Bytes, inflate: Bytes -> Inflated)

  ghost predicate Lawful(z: Deflate) {
    && (forall x :: z.inflate(z.deflate(x)) == Complete(x, |z.deflate(x)|))
    && (forall d :: z.inflate(d).Complete? ==> z.inflate(d).used <= |d|)
  }

  datatype Status = Unfinished | StreamEnd

  // ---------------------------------------------------------------- compression

  /** Of `input` bytes offered and `rest` bytes due, n are consumed and m <= most emitted: the
      end is reported only when nothing remains, and without it something must move. */
  predicate Progress(input: nat, rest: nat, most: nat, n: nat, m: nat, end: bool) {
    && n <= input && m <= most <= rest
    && (end ==> n == input && m == rest)
    && (!end ==> n > 0 || m > 0)
  }

  /** Some progress, nobody knows which. */
  method AnyProgress(input: nat, rest: nat, most: nat) returns (n: nat, m: nat, end: bool)
    requires most <= rest && (most == 0 ==> rest == 0)
    ensures Progress(input, rest, most, n, m, end)
  {
    assert Progress(input, rest, most, input, most, most == rest);
    n, m, end :| Progress(input, rest, most, n, m, end);
    assert Progress(input, rest, most, n, m, end);
  }

  class Compressor {
    const z: Deflate
    var fed: Bytes      // consumed since the last reset
    var emitted: Bytes  // produced since the last reset

    constructor (z: Deflate)
      ensures this.z == z
    {
      this.z := z;
      fed, emitted := [], [];
    }

    method Reset()
      modifies this
      ensures fed == [] && emitted == []
    {
      fed, emitted := [], [];
    }

    /** One call with FlushCompress::Finish: any progress whatever towards the compressed form
        of everything fed and still offered; the end is only reported when all is out. */
    method Compress(input: Bytes, room: nat) returns (status: Status, consumed: nat, out: Bytes)
      requires room > 0 && emitted <= z.deflate(fed + input)
      modifies this
      ensures consumed <= |input| && |out| <= room
      ensures fed == old(fed) + input[..consumed] && emitted == old(emitted) + out
      ensures emitted <= z.deflate(old(fed) + input)
      ensures status.StreamEnd? ==> consumed == |input| && emitted == z.deflate(old(fed) + input)
      ensures status.Unfinished? ==> consumed > 0 || out != []
    {
      var rest := z.deflate(fed + input)[|emitted|..];
      var most := if |rest| < room then |rest| else room;
      var n, m, end := AnyProgress(|input|, |rest|, most);
      status := if end then StreamEnd else Unfinished;
      consumed := n;
      out := rest[..m];
      fed := fed + input[..n];
      emitted := emitted + out;
    }
  }

  /** However the engine cuts up its work, the compressed form comes out, from any earlier state
      of the buffer and the compressor; the stall the code would panic on cannot occur. */
  method CompressInto(data: Bytes, dst: Buffer, c: Compressor)
    modifies dst, c
    ensures dst.data == c.z.deflate(data)
  {
    c.Reset();
    dst.data := [];
    var input := data;
    while true
      invariant c.fed + input == data
      invariant dst.data == c.emitted && c.emitted <= c.z.deflate(data)
      decreases |input| + (|c.z.deflate(data)| - |dst.data|)
    {
      var status, consumed, out := c.Compress(input, CHUNK);
      assert input == input[..consumed] + input[consumed..];
      dst.data := dst.data + out;
      input := input[consumed..];
      if status.StreamEnd? {
        break;
      }
      if consumed == 0 && out == [] {
        assert false;
      }
    }
  }

  // ---------------------------------------------------------------- decompression

  class Decompressor {
    const z: Deflate
    var fed: Bytes
    var emitted: Bytes

    constructor (z: Deflate)
      ensures this.z == z
    {
      this.z := z;
      fed, emitted := [], [];
    }

    method Reset()
      modifies this
      ensures fed == [] && emitted == []
    {
      fed, emitted := [], [];
    }

    /** If `whole` is a complete stream, this much of it has been read and written. */
    ghost predicate Within(whole: Bytes)
      reads this
    {
      var r := z.inflate(whole);
      r.Complete? ==> |fed| <= r.used && emitted <= r.out
    }

    lemma FreshWithin(whole: Bytes)
      requires fed == emitted == []
      ensures Within(whole)
    {
    }

    lemma EmittedWithin(whole: Bytes)
      requires Within(whole)
      ensures z.inflate(whole).Complete? ==> |emitted| <= |z.inflate(whole).out|
    {
    }

    /** One call with FlushDecompress::Finish. On a complete stream it progresses, in any steps,
        until it reports the end exactly there; otherwise it may do anything but report one. */
    method Decompress(input: Bytes, room: nat) returns (status: Option<Status>, consumed: nat, out: Bytes)
      requires Lawful(z) && room > 0 && Within(fed + input)
      modifies this
      ensures consumed <= |input| && |out| <= room
      ensures fed == old(fed) + input[..consumed] && emitted == old(emitted) + out
      ensures Within(old(fed) + input)
      ensures var r := z.inflate(old(fed) + input);
        && (status == Some(StreamEnd) ==> r == Complete(emitted, |fed|))
        && (r.Complete? ==> status.Some? && (status.value.Unfinished? ==> consumed > 0 || out != []))
        && (status.None? ==> r.Corrupt?)
    {
      var r := z.inflate(fed + input);
      if r.Complete? {
        var rest := r.out[|emitted|..];
        var left := r.used - |fed|;
        var most := if |rest| < room then |rest| else room;
        var n, m, end := AnyProgress(left, |rest|, most);
        status := Some(if end then StreamEnd else Unfinished);
        consumed := n;
        out := rest[..m];
      } else {
        var none: Bytes := [];
        assert |none| <= room;
        consumed :| consumed <= |input|;
        out :| |out| <= room;
        status := *;
        if status == Some(StreamEnd) || (status.None? && !r.Corrupt?) { status := Some(Unfinished); }
      }
      fed := fed + input[..consumed];
      emitted := emitted + out;
    }
  }

  datatype Failure = EngineError | Bomb | Stalled

  /** For every chunking: success exactly when the input begins with a complete stream whose
      output fits the limit, and then the output is that stream's; the buffer never exceeds
      the limit by more than one chunk; and the loop ends, because each turn that does not
      leave it consumes input or spends output allowance. */
  method DecompressInto(data: Bytes, dst: Buffer, d: Decompressor) returns (failure: Option<Failure>)
    requires Lawful(d.z)
    modifies dst, d
    ensures var r := d.z.inflate(data);
      && (failure.None? <==> r.Complete? && |r.out| <= 64 * 1024 * 1024)
      && (failure.None? ==> dst.data == r.out)
      && (r.Complete? && failure.Some? ==> failure.value == Bomb)
      && (r.Incomplete? ==> failure == Some(Bomb) || failure == Some(Stalled))
      && (failure == Some(EngineError) ==> r.Corrupt?)
    ensures |dst.data| <= 64 * 1024 * 1024 + 8192
  {
    hide Lawful, Decompressor.Within;
    d.Reset();
    d.FreshWithin(data);
    dst.data := [];
    var input := data;
    while true
      invariant d.fed + input == data
      invariant dst.data == d.emitted && d.Within(data)
      invariant |dst.data| <= MAX_DECOMPRESSED_SIZE
      decreases |input| + (MAX_DECOMPRESSED_SIZE - |dst.data|)
    {
      var status, consumed, out := d.Decompress(input, CHUNK);
      assert input == input[..consumed] + input[consumed..];
      if status.None? {
        return Some(EngineError);
      }
      d.EmittedWithin(data);
      dst.data := dst.data + out;
      if |dst.data| > MAX_DECOMPRESSED_SIZE {
        return Some(Bomb);
      }
      input := input[consumed..];
      if status.value.StreamEnd? {
        return None;
      }
      if consumed == 0 && out == [] {
        return Some(Stalled);
      }
    }
  }

  // ---------------------------------------------------------------- the laws can be met

  /** A toy stream format: each byte behind a 1, closed by a 0. */
  function Store(x: Bytes): Bytes {
    if x == [] then [0] else [1, x[0]] + Store(x[1..])
  }

  function Unstore(d: Bytes): (r: Inflated)
    ensures r.Complete? ==> r.used <= |d|
  {
    if d == [] then Incomplete
    else if d[0] == 0 then Complete([], 1)
    else if d[0] != 1 then Corrupt
    else if |d| == 1 then Incomplete
    else
      match Unstore(d[2..])
      case Complete(out, used) => Complete([d[1]] + out, used + 2)
      case other => other
  }

  lemma {:induction false} StoreThenUnstore(x: Bytes)
    ensures Unstore(Store(x)) == Complete(x, |Store(x)|)
  {
    if x == [] {
    } else {
      StoreThenUnstore(x[1..]);
      assert Store(x)[2..] == Store(x[1..]);
    }
  }

  function Stored(): Deflate { Deflate(x => Store(x), d => Unstore(d)) }

  lemma StoredIsLawful()
    ensures Lawful(Stored())
  {
    forall x ensures Stored().inflate(Stored().deflate(x)) == Complete(x, |Stored().deflate(x)|) {
      StoreThenUnstore(x);
    }
  }
}
