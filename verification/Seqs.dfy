/** Byte strings, integer widths and the few sequence facts the rest of the project leans on. */
module Seqs {
  newtype byte = x: int | 0 <= x < 0x100

  type Bytes = seq<byte>

  const U32_SIZE := 0x1_0000_0000
  const U64_SIZE := 0x1_0000_0000_0000_0000

  datatype Option<+T> = None | Some(value: T)

  /** The byte stream that a list of chunks spells out. */
  function Flat(chunks: seq<Bytes>): Bytes {
    if chunks == [] then [] else chunks[0] + Flat(chunks[1..])
  }

  lemma {:induction false} FlatAppend(a: seq<Bytes>, b: seq<Bytes>)
    ensures Flat(a + b) == Flat(a) + Flat(b)
  {
    if a == [] {
      assert a + b == b;
    } else {
      assert (a + b)[1..] == a[1..] + b;
      FlatAppend(a[1..], b);
    }
  }

  lemma FlatPush(a: seq<Bytes>, x: Bytes)
    ensures Flat(a + [x]) == Flat(a) + x
  {
    FlatAppend(a, [x]);
    assert Flat([x]) == x + Flat([]);
  }

  /** Chunk lists that are prefixes of each other spell out streams that are too. */
  lemma FlatPrefix(a: seq<Bytes>, b: seq<Bytes>)
    requires a <= b
    ensures Flat(a) <= Flat(b)
  {
    assert b == a + b[|a|..];
    FlatAppend(a, b[|a|..]);
  }
}
