/** The session cipher (rfrp_proto/src/crypto.rs): counter nonces, the trailer format
    [ciphertext][nonce 12][tag 16] and the three decryption forms. AES-256-GCM itself is a
    parameter with the laws of authenticated encryption. */
module Crypto {
  import opened Seqs
  import opened Buffers

  const NONCE_LEN := 12
  const TAG_LEN := 16
  const TRAILER_LEN := 28

  datatype Aead = Aead(
    seal: (Bytes, Bytes, Bytes) -> (Bytes, Bytes),           // key, nonce, plaintext -> ciphertext, tag
    open: (Bytes, Bytes, Bytes, Bytes) -> Option<Bytes>)     // key, nonce, ciphertext, tag -> plaintext

  /** Sections 7.1 and 7.2 of NIST SP 800-38D: lengths are kept, what was sealed opens, and
      only what was sealed opens. */
  ghost predicate Lawful(a: Aead) {
    && (forall k, n, p :: |a.seal(k, n, p).0| == |p| && |a.seal(k, n, p).1| == TAG_LEN)
    && (forall k, n, p :: a.open(k, n, a.seal(k, n, p).0, a.seal(k, n, p).1) == Some(p))
    && (forall k, n, c, t :: a.open(k, n, c, t).Some? ==> a.seal(k, n, a.open(k, n, c, t).value) == (c, t))
  }

  // ---------------------------------------------------------------- nonces

  /** The last `len` bytes of n, most significant first. */
  function BigEndian(n: nat, len: nat): (b: Bytes)
    ensures |b| == len
  {
    if len == 0 then [] else BigEndian(n / 0x100, len - 1) + [(n % 0x100) as byte]
  }

  function Pow256(len: nat): nat { if len == 0 then 1 else 0x100 * Pow256(len - 1) }

  function Value(b: Bytes): nat {
    if b == [] then 0 else 0x100 * Value(b[..|b| - 1]) + b[|b| - 1] as nat
  }

  lemma {:induction false} BigEndianValue(n: nat, len: nat)
    requires n < Pow256(len)
    ensures Value(BigEndian(n, len)) == n
  {
    if len == 0 {
    } else {
      BigEndianValue(n / 0x100, len - 1);
      assert BigEndian(n, len)[..len - 1] == BigEndian(n / 0x100, len - 1);
    }
  }

  /** n shifted right by k bytes. */
  function Shifted(n: nat, k: nat): nat { if k == 0 then n else Shifted(n / 0x100, k - 1) }

  /** Byte i from the left is the low byte of the counter shifted right by the bytes behind it: the
      most significant comes first, the least significant last. */
  lemma {:induction false} BigEndianDigits(n: nat, len: nat, i: nat)
    requires i < len
    ensures BigEndian(n, len)[i] as nat == Shifted(n, len - 1 - i) % 0x100
  {
    if i == len - 1 {
    } else {
      BigEndianDigits(n / 0x100, len - 1, i);
    }
  }

  lemma CounterFits()
    ensures Pow256(8) == U64_SIZE
  {
    assert Pow256(4) == 0x1_0000_0000;
  }

  function Nonce(prefix: Bytes, counter: nat): Bytes { prefix + BigEndian(counter, 8) }

  /** A nonce is the 4-byte prefix followed by the counter, most significant byte first. */
  lemma NonceLayout(prefix: Bytes, counter: nat)
    requires |prefix| == 4 && counter < U64_SIZE
    ensures |Nonce(prefix, counter)| == 12
    ensures Nonce(prefix, counter)[..4] == prefix && Value(Nonce(prefix, counter)[4..]) == counter
  {
    CounterFits();
    BigEndianValue(counter, 8);
    assert Nonce(prefix, counter)[4..] == BigEndian(counter, 8);
  }

  /** Section 8.2.1 of NIST SP 800-38D: the nonces of one cipher differ as long as its counter
      has not wrapped, and coincide exactly where it has. */
  lemma NoncesDistinct(prefix: Bytes, i: nat, j: nat)
    ensures Nonce(prefix, i % U64_SIZE) == Nonce(prefix, j % U64_SIZE) <==> i % U64_SIZE == j % U64_SIZE
  {
    CounterFits();
    var a, b := i % U64_SIZE, j % U64_SIZE;
    BigEndianValue(a, 8);
    BigEndianValue(b, 8);
    if Nonce(prefix, a) == Nonce(prefix, b) {
      assert BigEndian(a, 8) == Nonce(prefix, a)[|prefix|..];
      assert BigEndian(b, 8) == Nonce(prefix, b)[|prefix|..];
    }
  }

  // ---------------------------------------------------------------- one message

  /** What encrypting the message with that counter puts on the wire. */
  function Sealed(a: Aead, key: Bytes, prefix: Bytes, counter: nat, plain: Bytes): Bytes {
    var nonce := Nonce(prefix, counter);
    var (cipher, tag) := a.seal(key, nonce, plain);
    cipher + nonce + tag
  }

  /** What a byte string off the wire decrypts to, if anything. */
  function Opened(a: Aead, key: Bytes, msg: Bytes): Option<Bytes> {
    if |msg| < TRAILER_LEN then None
    else
      var split := |msg| - TRAILER_LEN;
      a.open(key, msg[split..split + NONCE_LEN], msg[..split], msg[split + NONCE_LEN..])
  }

  /** The trailer split recovers exactly the nonce and tag that were appended, and the message
      opens to what was sealed. */
  lemma OpenSealed(a: Aead, key: Bytes, prefix: Bytes, counter: nat, plain: Bytes)
    requires Lawful(a) && |prefix| == 4
    ensures var msg := Sealed(a, key, prefix, counter, plain); var split := |msg| - TRAILER_LEN;
      && split == |plain|
      && msg[split..split + NONCE_LEN] == Nonce(prefix, counter)
      && msg[split + NONCE_LEN..] == a.seal(key, Nonce(prefix, counter), plain).1
    ensures Opened(a, key, Sealed(a, key, prefix, counter, plain)) == Some(plain)
  {
    var nonce := Nonce(prefix, counter);
    var (cipher, tag) := a.seal(key, nonce, plain);
    var msg := cipher + nonce + tag;
    assert |cipher| == |plain| && |nonce| == NONCE_LEN && |tag| == TAG_LEN;
    assert msg[..|cipher|] == cipher;
    assert msg[|cipher|..|cipher| + NONCE_LEN] == nonce;
    assert msg[|cipher| + NONCE_LEN..] == tag;
  }

  /** So no two messages of one cipher carry the same nonce before its counter wraps. */
  lemma TrailersDistinct(a: Aead, key: Bytes, prefix: Bytes, i: nat, j: nat, x: Bytes, y: Bytes)
    requires Lawful(a) && |prefix| == 4 && i < j < U64_SIZE
    ensures var m, n := Sealed(a, key, prefix, i, x), Sealed(a, key, prefix, j, y);
      |m| >= TRAILER_LEN && |n| >= TRAILER_LEN && m[|x|..|x| + NONCE_LEN] != n[|y|..|y| + NONCE_LEN]
  {
    hide Lawful, Sealed, Nonce;
    OpenSealed(a, key, prefix, i, x);
    OpenSealed(a, key, prefix, j, y);
    NoncesDistinct(prefix, i, j);
  }

  /** The trailer of a message reads `prefix`, then `k`: bytes -28 to -24 and -24 to -16. */
  ghost predicate CarriesCounter(msg: Bytes, prefix: Bytes, k: nat) {
    var n := |msg|;
    n >= 28 && msg[n - 28..n - 24] == prefix && Value(msg[n - 24..n - 16]) == k
  }

  /** The nonce in the trailer of a message. */
  function NonceOf(msg: Bytes): Bytes {
    if |msg| < TRAILER_LEN then [] else msg[|msg| - TRAILER_LEN..|msg| - TAG_LEN]
  }

  /** Messages that carry different counters carry different nonces. */
  lemma CountersApart(m: Bytes, n: Bytes, prefix: Bytes, i: nat, j: nat)
    requires CarriesCounter(m, prefix, i) && CarriesCounter(n, prefix, j) && i != j
    ensures NonceOf(m) != NonceOf(n)
  {
    var a, b := |m|, |n|;
    assert NonceOf(m)[4..] == m[a - 24..a - 16] && NonceOf(n)[4..] == n[b - 24..b - 16];
  }

  ghost predicate IsSealed(a: Aead, key: Bytes, nonce: Bytes, plain: Bytes, msg: Bytes) {
    |nonce| == NONCE_LEN && msg == a.seal(key, nonce, plain).0 + nonce + a.seal(key, nonce, plain).1
  }

  /** Whatever opens is a sealed message with its nonce and tag in the trailer. */
  lemma OpenedWasSealed(a: Aead, key: Bytes, msg: Bytes)
    requires Lawful(a) && Opened(a, key, msg).Some?
    ensures exists nonce :: IsSealed(a, key, nonce, Opened(a, key, msg).value, msg)
  {
    var split := |msg| - TRAILER_LEN;
    var nonce := msg[split..split + NONCE_LEN];
    assert msg == msg[..split] + nonce + msg[split + NONCE_LEN..];
    assert IsSealed(a, key, nonce, Opened(a, key, msg).value, msg);
  }

  /** Every sealed message opens, to the plaintext it was made of. */
  lemma SealedOpens(a: Aead, key: Bytes, nonce: Bytes, plain: Bytes, msg: Bytes)
    requires Lawful(a) && IsSealed(a, key, nonce, plain, msg)
    ensures Opened(a, key, msg) == Some(plain)
  {
    var (cipher, tag) := a.seal(key, nonce, plain);
    assert |cipher| == |plain| && |tag| == TAG_LEN;
    assert msg == cipher + nonce + tag;
    assert msg[..|cipher|] == cipher && msg[|cipher|..|cipher| + NONCE_LEN] == nonce;
    assert msg[|cipher| + NONCE_LEN..] == tag;
  }

  // ---------------------------------------------------------------- the cipher object

  class Cipher {
    const aead: Aead
    const key: Bytes
    const prefix: Bytes
    var nonceCounter: nat

    constructor (aead: Aead, key: Bytes, prefix: Bytes)
      requires |prefix| == 4
      ensures Valid() && this.aead == aead && this.key == key && this.prefix == prefix && nonceCounter == 0
    {
      this.aead, this.key, this.prefix := aead, key, prefix;
      nonceCounter := 0;
    }

    ghost predicate Valid()
      reads this
    {
      nonceCounter < U64_SIZE && |prefix| == 4
    }

    /** fetch_add on a 64-bit counter. */
    method NextCounter() returns (counter: nat)
      requires Valid()
      modifies this
      ensures Valid() && counter == old(nonceCounter) && nonceCounter == (counter + 1) % U64_SIZE
    {
      counter := nonceCounter;
      nonceCounter := (nonceCounter + 1) % U64_SIZE;
    }

    /** Encrypt in place, then append nonce and tag. */
    method EncryptInPlace(buf: Buffer)
      requires Valid()
      modifies this, buf
      ensures Valid() && nonceCounter == (old(nonceCounter) + 1) % U64_SIZE
      ensures buf.data == Sealed(aead, key, prefix, old(nonceCounter), old(buf.data))
    {
      var counter := NextCounter();
      var nonce := Nonce(prefix, counter);
      var (cipher, tag) := aead.seal(key, nonce, buf.data);
      buf.data := cipher;
      buf.data := buf.data + nonce;
      buf.data := buf.data + tag;
    }

    method Encrypt(plain: Bytes) returns (msg: Bytes)
      requires Valid()
      modifies this
      ensures Valid() && nonceCounter == (old(nonceCounter) + 1) % U64_SIZE
      ensures msg == Sealed(aead, key, prefix, old(nonceCounter), plain)
    {
      var buf := new Buffer();
      buf.data := plain;
      EncryptInPlace(buf);
      msg := buf.data;
    }

    /** Decrypt a copy. */
    method Decrypt(msg: Bytes) returns (plain: Option<Bytes>)
      ensures plain == Opened(aead, key, msg)
    {
      if |msg| < TRAILER_LEN { return None; }
      var split := |msg| - TRAILER_LEN;
      var nonce := msg[split..split + NONCE_LEN];
      var tag := msg[split + NONCE_LEN..];
      plain := aead.open(key, nonce, msg[..split], tag);
    }

    /** Decrypt where the message lies: cut the trailer off, then overwrite. The Vec and the
        BytesMut form are this one method on either buffer. Same verdict and same plaintext
        as the copying form, for every byte string. */
    method DecryptInPlace(buf: Buffer) returns (ok: bool)
      modifies buf
      ensures ok <==> Opened(aead, key, old(buf.data)).Some?
      ensures ok ==> Opened(aead, key, old(buf.data)) == Some(buf.data)
      ensures !ok ==>
        buf.data == if |old(buf.data)| < TRAILER_LEN then old(buf.data)
                    else old(buf.data)[..|old(buf.data)| - TRAILER_LEN]
    {
      if |buf.data| < TRAILER_LEN { return false; }
      var split := |buf.data| - TRAILER_LEN;
      var nonce := buf.data[split..split + NONCE_LEN];
      var tag := buf.data[split + NONCE_LEN..];
      buf.data := buf.data[..split];
      var plain := aead.open(key, nonce, buf.data, tag);
      ok := plain.Some?;
      if ok { buf.data := plain.value; }
    }
  }

  /** The k-th message a fresh cipher encrypts carries counter k: all its nonces differ for the
      first 2^64 messages. */
  method EncryptAll(c: Cipher, plains: seq<Bytes>) returns (msgs: seq<Bytes>)
    requires c.Valid() && c.nonceCounter == 0 && |plains| < U64_SIZE
    modifies c
    ensures c.Valid() && c.nonceCounter == |plains|
    ensures |msgs| == |plains|
    ensures forall k :: 0 <= k < |msgs| ==> msgs[k] == Sealed(c.aead, c.key, c.prefix, k, plains[k])
  {
    msgs := [];
    for i := 0 to |plains|
      invariant c.Valid() && c.nonceCounter == i && |msgs| == i
      invariant forall k :: 0 <= k < i ==> msgs[k] == Sealed(c.aead, c.key, c.prefix, k, plains[k])
    {
      var msg := c.Encrypt(plains[i]);
      msgs := msgs + [msg];
    }
  }

  // ---------------------------------------------------------------- the laws can be met

  function PlainText(): Aead {
    Aead((k, n, p) => (p, seq(TAG_LEN, i => 0 as byte)),
         (k, n, c, t) => if t == seq(TAG_LEN, i => 0 as byte) then Some(c) else None)
  }

  lemma PlainTextIsLawful()
    ensures Lawful(PlainText())
  {
  }
}
