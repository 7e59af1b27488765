/** The frame pipeline: serialise, compress, encrypt, and back, through reused buffers
    (rfrp_proto/src/frame_encode.rs, frame_decode.rs, coalesce.rs). */
module Codec {
  import opened Seqs
  import opened Frames
  import opened Buffers
  import opened Flate
  import C = Crypto

  /** The MessagePack serialisation of frames: it loses the skipped fields and nothing else. */
  datatype Pack = Pack(write: Frame -> Bytes, read: Bytes -> Option<Frame>)

  datatype Suite = Suite(pack: Pack, flate: Deflate, aead: C.Aead)

  ghost predicate Lawful(u: Suite) {
    && (forall f :: u.pack.read(u.pack.write(f)) == Some(Blank(f)))
    && Flate.Lawful(u.flate) && C.Lawful(u.aead)
  }

  datatype Decoded = Ok(frame: Frame) | BadCipher | BadStream | BadFrame

  // ---------------------------------------------------------------- the pure pipeline

  /** The wire form of a frame: a function of frame, key, nonce prefix and counter only. */
  function Encoded(u: Suite, key: Bytes, prefix: Bytes, counter: nat, f: Frame): Bytes {
    C.Sealed(u.aead, key, prefix, counter, u.flate.deflate(u.pack.write(f)))
  }

  /** What a byte string off the wire decodes to: a function of key and bytes only. */
  function Decode(u: Suite, key: Bytes, msg: Bytes): Decoded {
    match C.Opened(u.aead, key, msg)
    case None => BadCipher
    case Some(plain) =>
      var r := u.flate.inflate(plain);
      if r.Complete? && |r.out| <= MAX_DECOMPRESSED_SIZE then
        match u.pack.read(r.out)
        case Some(f) => Ok(f)
        case None => BadFrame
      else BadStream
  }

  /** What the peer should make of a frame: the frame without its skipped fields, if it fits. */
  function Outcome(u: Suite, f: Frame): Decoded {
    if |u.pack.write(f)| <= MAX_DECOMPRESSED_SIZE then Ok(Blank(f)) else BadStream
  }

  /** A frame survives the trip, but for its skipped fields, exactly when its serialised form is
      within the decompression limit. */
  lemma RoundTrip(u: Suite, key: Bytes, prefix: Bytes, counter: nat, f: Frame)
    requires Lawful(u) && |prefix| == 4
    ensures Decode(u, key, Encoded(u, key, prefix, counter, f)) == Outcome(u, f)
    ensures Outcome(u, f) == if |u.pack.write(f)| <= 64 * 1024 * 1024 then Ok(Blank(f)) else BadStream
  {
    var bytes := u.pack.write(f);
    C.OpenSealed(u.aead, key, prefix, counter, u.flate.deflate(bytes));
    assert u.flate.inflate(u.flate.deflate(bytes)) == Complete(bytes, |u.flate.deflate(bytes)|);
  }

  /** The message of a frame carries its cipher's prefix and the counter it was made under, most
      significant byte first, in the nonce of its trailer. */
  lemma EncodedCarriesCounter(u: Suite, key: Bytes, prefix: Bytes, k: nat, f: Frame)
    requires Lawful(u) && |prefix| == 4 && k < U64_SIZE
    ensures var m := Encoded(u, key, prefix, k, f);
      && |m| >= 28 && m[|m| - 28..|m| - 24] == prefix && C.Value(m[|m| - 24..|m| - 16]) == k
      && C.CarriesCounter(m, prefix, k)
  {
    hide C.Lawful;
    var plain := u.flate.deflate(u.pack.write(f));
    var m := Encoded(u, key, prefix, k, f);
    C.OpenSealed(u.aead, key, prefix, k, plain);
    C.NonceLayout(prefix, k);
    var nonce := C.Nonce(prefix, k);
    assert m[|m| - 28..|m| - 16] == nonce;
    assert m[|m| - 28..|m| - 24] == nonce[..4] && m[|m| - 24..|m| - 16] == nonce[4..];
  }

  // ---------------------------------------------------------------- what decodes to what

  /** The message is authentic under the key and holds a complete stream of at most 64 MiB. */
  ghost predicate Holds(u: Suite, key: Bytes, msg: Bytes, nonce: Bytes, plain: Bytes) {
    && C.IsSealed(u.aead, key, nonce, plain, msg)
    && u.flate.inflate(plain).Complete? && |u.flate.inflate(plain).out| <= 64 * 1024 * 1024
  }

  /** Whatever the bytes: they decode to a frame exactly if they were sealed under the key, hold a
      complete stream within the limit and this reads as that frame. */
  lemma DecodesExactly(u: Suite, key: Bytes, msg: Bytes, f: Frame)
    requires Lawful(u)
    ensures Decode(u, key, msg) == Ok(f) <==>
      exists nonce, plain :: Holds(u, key, msg, nonce, plain) && u.pack.read(u.flate.inflate(plain).out) == Some(f)
  {
    hide Lawful, C.Opened;
    WhatOpens(u, key, msg);
    if Decode(u, key, msg) == Ok(f) {
      var plain := C.Opened(u.aead, key, msg).value;
      var nonce :| C.IsSealed(u.aead, key, nonce, plain, msg);
      assert Holds(u, key, msg, nonce, plain);
    }
  }

  /** And each error has its one cause: a message that nobody with the key has sealed, too short
      ones included; a stream that is incomplete, corrupt or too long; bytes that are no frame. */
  lemma ErrorsExactly(u: Suite, key: Bytes, msg: Bytes)
    requires Lawful(u)
    ensures Decode(u, key, msg) == BadCipher <==> !exists nonce, plain :: C.IsSealed(u.aead, key, nonce, plain, msg)
    ensures Decode(u, key, msg) == BadStream <==>
      exists nonce, plain :: C.IsSealed(u.aead, key, nonce, plain, msg) && !Holds(u, key, msg, nonce, plain)
    ensures Decode(u, key, msg) == BadFrame <==>
      exists nonce, plain :: Holds(u, key, msg, nonce, plain) && u.pack.read(u.flate.inflate(plain).out) == None
  {
    hide Lawful, C.Opened;
    WhatOpens(u, key, msg);
  }

  lemma WhatOpens(u: Suite, key: Bytes, msg: Bytes)
    requires Lawful(u)
    ensures forall nonce, plain :: C.IsSealed(u.aead, key, nonce, plain, msg) ==>
      C.Opened(u.aead, key, msg) == Some(plain)
    ensures C.Opened(u.aead, key, msg).Some? ==>
      exists nonce :: C.IsSealed(u.aead, key, nonce, C.Opened(u.aead, key, msg).value, msg)
  {
    hide C.Lawful, C.Opened;
    forall nonce, plain | C.IsSealed(u.aead, key, nonce, plain, msg) ensures C.Opened(u.aead, key, msg) == Some(plain) {
      C.SealedOpens(u.aead, key, nonce, plain, msg);
    }
    if C.Opened(u.aead, key, msg).Some? { C.OpenedWasSealed(u.aead, key, msg); }
  }

  // ---------------------------------------------------------------- encoding

  /** The serialiser writes through BytesMutWriter in pieces of whatever size. */
  method WriteFrame(pack: Pack, f: Frame, buf: Buffer)
    modifies buf
    ensures buf.data == old(buf.data) + pack.write(f)
  {
    var bytes := pack.write(f);
    var done := 0;
    while done < |bytes|
      invariant done <= |bytes|
      invariant buf.data == old(buf.data) + bytes[..done]
    {
      var n: nat :| done < n <= |bytes|;
      assert bytes[..n] == bytes[..done] + bytes[done..n];
      buf.data := buf.data + bytes[done..n];
      done := n;
    }
    assert bytes[..done] == bytes;
  }

  /** Take everything out of a buffer. */
  method Split(buf: Buffer) returns (bytes: Bytes)
    modifies buf
    ensures bytes == old(buf.data) && buf.data == []
  {
    bytes := buf.data;
    buf.data := [];
  }

  /** Whatever the buffer and the compressor went through before, the output is the pure wire
      form for the cipher's current counter. */
  method EncodeEncrypted(u: Suite, f: Frame, cipher: C.Cipher, buf: Buffer, c: Compressor) returns (msg: Bytes)
    requires cipher.Valid() && cipher.aead == u.aead && c.z == u.flate
    modifies cipher, buf, c
    ensures cipher.Valid() && cipher.nonceCounter == (old(cipher.nonceCounter) + 1) % U64_SIZE
    ensures msg == Encoded(u, cipher.key, cipher.prefix, old(cipher.nonceCounter), f)
    ensures Lawful(u) ==> C.CarriesCounter(msg, cipher.prefix, old(cipher.nonceCounter))
  {
    hide Lawful, C.CarriesCounter;
    buf.data := [];
    WriteFrame(u.pack, f, buf);
    var serialized := Split(buf);
    assert serialized == u.pack.write(f);
    CompressInto(serialized, buf, c);
    cipher.EncryptInPlace(buf);
    msg := Split(buf);
    if Lawful(u) { EncodedCarriesCounter(u, cipher.key, cipher.prefix, old(cipher.nonceCounter), f); }
  }

  lemma AllApart(wire: seq<Bytes>, prefix: Bytes)
    requires forall k :: 0 <= k < |wire| ==> C.CarriesCounter(wire[k], prefix, k)
    ensures forall i, j :: 0 <= i < j < |wire| ==> C.NonceOf(wire[i]) != C.NonceOf(wire[j])
  {
    hide C.CarriesCounter, C.NonceOf;
    forall i, j | 0 <= i < j < |wire| ensures C.NonceOf(wire[i]) != C.NonceOf(wire[j]) {
      C.CountersApart(wire[i], wire[j], prefix, i, j);
    }
  }

  /** The write task: drain the queue in order, one buffer and one compressor for all frames,
      until a send fails. Frame k goes out under counter k. */
  method WriteTask(u: Suite, cipher: C.Cipher, frames: seq<Frame>, sendOk: seq<bool>) returns (wire: seq<Bytes>)
    requires cipher.Valid() && cipher.aead == u.aead && cipher.nonceCounter == 0
    requires |sendOk| == |frames| < U64_SIZE
    modifies cipher
    ensures |wire| <= |frames|
    ensures forall k :: 0 <= k < |wire| ==> wire[k] == Encoded(u, cipher.key, cipher.prefix, k, frames[k]) && sendOk[k]
    ensures |wire| < |frames| ==> !sendOk[|wire|]
    ensures Lawful(u) ==> forall k :: 0 <= k < |wire| ==> C.CarriesCounter(wire[k], cipher.prefix, k)
    ensures Lawful(u) ==> forall i, j :: 0 <= i < j < |wire| ==> C.NonceOf(wire[i]) != C.NonceOf(wire[j])
  {
    hide Encoded, Lawful, C.CarriesCounter, C.NonceOf;
    var buf := new Buffer();
    var c := new Compressor(u.flate);
    wire := [];
    var i := 0;
    while i < |frames|
      invariant i == |wire| <= |frames|
      invariant cipher.Valid() && cipher.nonceCounter == i
      invariant forall k :: 0 <= k < i ==> wire[k] == Encoded(u, cipher.key, cipher.prefix, k, frames[k]) && sendOk[k]
      invariant Lawful(u) ==> forall k :: 0 <= k < i ==> C.CarriesCounter(wire[k], cipher.prefix, k)
    {
      var msg := EncodeEncrypted(u, frames[i], cipher, buf, c);
      if !sendOk[i] { break; }
      wire := wire + [msg];
      i := i + 1;
    }
    if Lawful(u) { AllApart(wire, cipher.prefix); }
  }

  // ---------------------------------------------------------------- decoding

  /** Decrypt in place, inflate into the reused buffer, deserialise: whatever the buffer and the
      decompressor went through before, the result is the pure one. */
  method DecodeEncrypted(u: Suite, buf: Buffer, cipher: C.Cipher, out: Buffer, d: Decompressor) returns (r: Decoded)
    requires Lawful(u) && cipher.aead == u.aead && d.z == u.flate && buf != out
    modifies buf, out, d
    ensures r == Decode(u, cipher.key, old(buf.data))
  {
    var ok := cipher.DecryptInPlace(buf);
    if !ok { return BadCipher; }
    var failure := DecompressInto(buf.data, out, d);
    if failure.Some? { return BadStream; }
    match u.pack.read(out.data)
    case Some(f) => r := Ok(f);
    case None => r := BadFrame;
  }

  /** A reader that keeps one output buffer and one decompressor over any sequence of messages,
      good or bad. */
  method DecodeAll(u: Suite, cipher: C.Cipher, msgs: seq<Bytes>) returns (rs: seq<Decoded>)
    requires Lawful(u) && cipher.aead == u.aead
    ensures |rs| == |msgs|
    ensures forall k :: 0 <= k < |rs| ==> rs[k] == Decode(u, cipher.key, msgs[k])
  {
    var out := new Buffer();
    var d := new Decompressor(u.flate);
    rs := [];
    for i := 0 to |msgs|
      invariant |rs| == i
      invariant forall k :: 0 <= k < i ==> rs[k] == Decode(u, cipher.key, msgs[k])
    {
      var buf := new Buffer();
      buf.data := msgs[i];
      var r := DecodeEncrypted(u, buf, cipher, out, d);
      rs := rs + [r];
    }
  }

  /** End to end: what one session's write task puts on the wire before its first failed send,
      the peer's reader decodes to the same frames, blanked, wherever their serialised form is
      within the limit. */
  method SendAndReceive(u: Suite, key: Bytes, sender: Bytes, receiver: Bytes, frames: seq<Frame>, sendOk: seq<bool>)
    returns (rs: seq<Decoded>)
    requires Lawful(u) && |sender| == 4 && |receiver| == 4 && |sendOk| == |frames| < U64_SIZE
    ensures |rs| <= |frames|
    ensures forall k :: 0 <= k < |rs| ==> sendOk[k] && rs[k] == Outcome(u, frames[k])
    ensures |rs| < |frames| ==> !sendOk[|rs|]
  {
    var mine := new C.Cipher(u.aead, key, sender);
    var theirs := new C.Cipher(u.aead, key, receiver);
    var wire := WriteTask(u, mine, frames, sendOk);
    rs := DecodeAll(u, theirs, wire);
    forall k | 0 <= k < |rs| ensures rs[k] == Outcome(u, frames[k]) {
      RoundTrip(u, key, sender, k, frames[k]);
    }
  }
}
