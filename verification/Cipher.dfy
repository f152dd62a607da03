/** The stream encryption of gateway.go: counter-mode XOR keyed by the section key, with the
    masked checksum of the plaintext and eight random bytes as initialisation vector. */
module StreamCipher {
  import opened Arith
  import opened Options
  import opened Bytes

  /** The primitives, as unspecified functions: byte i of the keystream for a key and vector,
      and the CRC-64 checksum. */
  datatype Primitives = Primitives(keystream: (bytes, bytes, nat) -> byte, crc: bytes -> uint64)

  function Masked(c: Primitives, key: bytes, iv: bytes, data: bytes): (r: bytes)
    ensures |r| == |data|
    ensures forall i | 0 <= i < |data| :: r[i] == XorByte(data[i], c.keystream(key, iv, i))
  {
    seq<byte>(|data|, i requires 0 <= i < |data| => XorByte(data[i], c.keystream(key, iv, i)))
  }

  lemma MaskedTwice(c: Primitives, key: bytes, iv: bytes, data: bytes)
    ensures Masked(c, key, iv, Masked(c, key, iv, data)) == data
  {
    var once := Masked(c, key, iv, data);
    forall i | 0 <= i < |data|
      ensures Masked(c, key, iv, once)[i] == data[i]
    {
      XorByteTwice(data[i], c.keystream(key, iv, i));
    }
  }

  /** `encryptStream`; `salt` is the random half of the vector. */
  function Encrypt(c: Primitives, key: bytes, keyCrc: uint64, salt: bytes, data: bytes): (r: bytes)
    requires |salt| == 8
    ensures |r| == 16 + |data|
  {
    var iv := LE(XorWord(c.crc(data), keyCrc), 8) + salt;
    iv + Masked(c, key, iv, data)
  }

  /** `decryptStream` as a value: None for data of at most 16 bytes or a checksum mismatch. */
  function Decrypt(c: Primitives, key: bytes, keyCrc: uint64, data: bytes): (r: Option<bytes>)
    ensures r.Some? ==> |r.value| == |data| - 16
  {
    if |data| <= 16 then None
    else
      var plain := Masked(c, key, data[..16], data[16..]);
      if FromLE(data[..8]) != XorWord(c.crc(plain), keyCrc) then None else Some(plain)
  }

  /** An honest message is never rejected and comes back byte for byte. */
  lemma DecryptEncrypt(c: Primitives, key: bytes, keyCrc: uint64, salt: bytes, data: bytes)
    requires |salt| == 8 && data != []
    ensures Decrypt(c, key, keyCrc, Encrypt(c, key, keyCrc, salt, data)) == Some(data)
  {
    var head := LE(XorWord(c.crc(data), keyCrc), 8);
    var iv := head + salt;
    var sent := Encrypt(c, key, keyCrc, salt, data);
    assert sent[..16] == iv && sent[16..] == Masked(c, key, iv, data);
    assert sent[..8] == head;
    MaskedTwice(c, key, iv, data);
    LE8(XorWord(c.crc(data), keyCrc));
  }

  /** What a receiver sees of an encryption: the checksum under the key's mask, the random bytes, and
      a body that the keystream of these sixteen bytes turns into the plaintext. */
  lemma EncryptionIs(c: Primitives, key: bytes, keyCrc: uint64, salt: bytes, data: bytes)
    requires |salt| == 8
    ensures var sent := Encrypt(c, key, keyCrc, salt, data);
            && FromLE(sent[..8]) == XorWord(c.crc(data), keyCrc) && sent[8..16] == salt
            && Masked(c, key, sent[..16], sent[16..]) == data
  {
    var head, sent := LE(XorWord(c.crc(data), keyCrc), 8), Encrypt(c, key, keyCrc, salt, data);
    assert sent[..16] == head + salt && sent[16..] == Masked(c, key, head + salt, data);
    assert sent[..8] == head && sent[8..16] == salt;
    MaskedTwice(c, key, head + salt, data);
    LE8(XorWord(c.crc(data), keyCrc));
  }

  predicate Encrypts(c: Primitives, key: bytes, keyCrc: uint64, salt: bytes, plain: bytes, data: bytes) {
    |salt| == 8 && Encrypt(c, key, keyCrc, salt, plain) == data
  }

  lemma AcceptedIsEncrypted(c: Primitives, key: bytes, keyCrc: uint64, data: bytes, plain: bytes)
    requires Decrypt(c, key, keyCrc, data) == Some(plain)
    ensures plain != [] && Encrypts(c, key, keyCrc, data[8..16], plain, data)
  {
    var iv, salt := data[..16], data[8..16];
    MaskedTwice(c, key, iv, data[16..]);
    FromLERoundTrip(data[..8]);
    assert LE(XorWord(c.crc(plain), keyCrc), 8) == data[..8];
    assert data[..8] + salt == iv && iv + data[16..] == data;
  }

  /** Only encryptions under this key are accepted, and all of them are: a message decrypts to a
      plaintext if and only if it is an encryption of it, which is not empty. */
  lemma DecryptExactly(c: Primitives, key: bytes, keyCrc: uint64, data: bytes, plain: bytes)
    ensures Decrypt(c, key, keyCrc, data) == Some(plain) <==> plain != [] && exists salt :: Encrypts(c, key, keyCrc, salt, plain, data)
  {
    if Decrypt(c, key, keyCrc, data) == Some(plain) {
      AcceptedIsEncrypted(c, key, keyCrc, data, plain);
    }
    if plain != [] && exists salt :: Encrypts(c, key, keyCrc, salt, plain, data) {
      var salt :| Encrypts(c, key, keyCrc, salt, plain, data);
      DecryptEncrypt(c, key, keyCrc, salt, plain);
    }
  }

  /** `decryptStream` on the receive buffer: the bytes after the vector are unmasked in place,
      also when the checksum then fails. */
  method DecryptStream(c: Primitives, key: bytes, keyCrc: uint64, buf: array<byte>) returns (ok: bool)
    modifies buf
    ensures ok == Decrypt(c, key, keyCrc, old(buf[..])).Some?
    ensures buf.Length <= 16 ==> buf[..] == old(buf[..])
    ensures buf.Length > 16 ==> buf[..16] == old(buf[..16])
    ensures buf.Length > 16 ==> buf[16..] == Masked(c, key, old(buf[..16]), old(buf[16..]))
    ensures ok ==> Some(buf[16..]) == Decrypt(c, key, keyCrc, old(buf[..]))
    ensures ok <==> buf.Length > 16 && Encrypts(c, key, keyCrc, old(buf[8..16]), buf[16..], old(buf[..]))
  {
    if buf.Length <= 16 {
      return false;
    }
    ghost var was := buf[..];
    var iv := buf[..16];
    for i := 16 to buf.Length
      invariant buf[..16] == iv
      invariant forall j | 16 <= j < i :: buf[j] == Masked(c, key, iv, was[16..])[j - 16]
      invariant forall j | i <= j < buf.Length :: buf[j] == was[j]
    {
      buf[i] := XorByte(buf[i], c.keystream(key, iv, i - 16));
    }
    assert buf[16..] == Masked(c, key, iv, was[16..]);
    assert was[..8] == iv[..8];
    ok := FromLE(iv[..8]) == XorWord(c.crc(buf[16..]), keyCrc);
    assert was[8..16] == old(buf[8..16]);
    if ok {
      AcceptedIsEncrypted(c, key, keyCrc, was, buf[16..]);
    } else if Encrypts(c, key, keyCrc, was[8..16], buf[16..], was) {
      DecryptEncrypt(c, key, keyCrc, was[8..16], buf[16..]);
    }
  }
}
