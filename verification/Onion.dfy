/** Layered messages: sealing a container around the message for the next hop, and peeling. */
module Onion {
  import opened Arith
  import opened Options
  import opened Bytes
  import opened Codec
  import opened StreamCipher

  /** Cipher and codec together. */
  datatype Suite = Suite(prim: Primitives, tl: Leaves)

  datatype SectionKeys = SectionKeys(pub: bytes, cipherKey: bytes, keyCrc: uint64)

  datatype Message = Message(section: bytes, instructions: bytes, payload: bytes)

  // ---------------------------------------------------------------------------------------
  // Key agreement
  // ---------------------------------------------------------------------------------------

  /** Public keys of private ones, and the shared key of a private and a public one. */
  datatype Agreement = Agreement(pub: bytes -> bytes, shared: (bytes, bytes) -> bytes)

  ghost predicate Symmetric(ag: Agreement) {
    forall a: bytes, b: bytes {:trigger ag.shared(a, ag.pub(b))} :: ag.shared(a, ag.pub(b)) == ag.shared(b, ag.pub(a))
  }

  /** `NewEncryptionKeys` at the sender. */
  function SenderKeys(w: Suite, ag: Agreement, sectionPrivate: bytes, receiverPub: bytes): SectionKeys {
    var key := ag.shared(sectionPrivate, receiverPub);
    SectionKeys(ag.pub(sectionPrivate), key, w.prim.crc(key))
  }

  /** The keys of a section created for a first message, at the gateway that receives it. */
  function ReceiverKeys(w: Suite, ag: Agreement, gatewayPrivate: bytes, sectionPub: bytes): SectionKeys {
    var key := ag.shared(gatewayPrivate, sectionPub);
    SectionKeys(sectionPub, key, w.prim.crc(key))
  }

  lemma BothEndsAgree(w: Suite, ag: Agreement, sectionPrivate: bytes, gatewayPrivate: bytes)
    requires Symmetric(ag)
    ensures SenderKeys(w, ag, sectionPrivate, ag.pub(gatewayPrivate))
         == ReceiverKeys(w, ag, gatewayPrivate, ag.pub(sectionPrivate))
  {
    assert ag.shared(sectionPrivate, ag.pub(gatewayPrivate)) == ag.shared(gatewayPrivate, ag.pub(sectionPrivate));
  }

  // ---------------------------------------------------------------------------------------
  // One layer
  // ---------------------------------------------------------------------------------------

  function Seal(w: Suite, k: SectionKeys, seqno: uint32, salt: bytes, list: seq<Instruction>, rest: bytes): (r: bytes)
    requires |salt| == 8
    ensures |r| == 16 + |SerializeContainer(w.tl, Container(seqno, list))| + |rest|
  {
    Encrypt(w.prim, k.cipherKey, k.keyCrc, salt, SerializeContainer(w.tl, Container(seqno, list)) + rest)
  }

  /** `decryptMessage`. */
  function Open(w: Suite, k: SectionKeys, data: bytes): (r: Option<(Container, bytes)>)
    requires Consumes(w.tl)
    ensures r.Some? ==> |r.value.1| <= |data| - 28
  {
    match Decrypt(w.prim, k.cipherKey, k.keyCrc, data)
    case None => None
    case Some(plain) => ParseContainer(w.tl, plain)
  }

  lemma OpenSeal(w: Suite, k: SectionKeys, seqno: uint32, salt: bytes, list: seq<Instruction>, rest: bytes)
    requires Lawful(w.tl) && |salt| == 8 && EncodableAll(w.tl, list)
    ensures Open(w, k, Seal(w, k, seqno, salt, list, rest)) == Some((Container(seqno, list), rest))
  {
    var plain := SerializeContainer(w.tl, Container(seqno, list)) + rest;
    DecryptEncrypt(w.prim, k.cipherKey, k.keyCrc, salt, plain);
    ContainerRoundTrip(w.tl, Container(seqno, list), rest);
  }

  /** Exactly what was sealed under a section's keys opens: a container and a rest come out if and
      only if the data is an encryption, under those keys, of bytes that begin with the container
      and end with the rest. */
  lemma OpenExactly(w: Suite, k: SectionKeys, data: bytes, c: Container, rest: bytes)
    requires Consumes(w.tl)
    ensures Open(w, k, data) == Some((c, rest)) <==>
              exists salt, plain :: Encrypts(w.prim, k.cipherKey, k.keyCrc, salt, plain, data) && ParseContainer(w.tl, plain) == Some((c, rest))
  {
    if Open(w, k, data) == Some((c, rest)) {
      var plain := Decrypt(w.prim, k.cipherKey, k.keyCrc, data).value;
      AcceptedIsEncrypted(w.prim, k.cipherKey, k.keyCrc, data, plain);
    }
    if exists salt, plain :: Encrypts(w.prim, k.cipherKey, k.keyCrc, salt, plain, data) && ParseContainer(w.tl, plain) == Some((c, rest)) {
      var salt, plain :| Encrypts(w.prim, k.cipherKey, k.keyCrc, salt, plain, data) && ParseContainer(w.tl, plain) == Some((c, rest));
      DecryptEncrypt(w.prim, k.cipherKey, k.keyCrc, salt, plain);
    }
  }

  predicate Seals(w: Suite, k: SectionKeys, salt: bytes, c: Container, rest: bytes, data: bytes) {
    |salt| == 8 && Seal(w, k, c.seqno, salt, c.list, rest) == data
  }

  lemma OpenedIsSealed(w: Suite, k: SectionKeys, data: bytes, c: Container, rest: bytes)
    requires Consumes(w.tl) && Strict(w.tl) && Open(w, k, data) == Some((c, rest))
    ensures |data| >= 16 && EncodableAll(w.tl, c.list) && Seals(w, k, data[8..16], c, rest, data)
  {
    var plain := Decrypt(w.prim, k.cipherKey, k.keyCrc, data).value;
    AcceptedIsEncrypted(w.prim, k.cipherKey, k.keyCrc, data, plain);
    ParsedContainer(w.tl, plain);
  }

  /** With leaves read from nothing but what writes them: a message opens if and only if it was sealed
      for this section, number, list and rest included. */
  lemma OpenedWasSealed(w: Suite, k: SectionKeys, data: bytes, c: Container, rest: bytes)
    requires Lawful(w.tl) && Strict(w.tl)
    ensures Open(w, k, data) == Some((c, rest)) <==> EncodableAll(w.tl, c.list) && exists salt :: Seals(w, k, salt, c, rest, data)
  {
    if Open(w, k, data) == Some((c, rest)) {
      OpenedIsSealed(w, k, data, c, rest);
    }
    if EncodableAll(w.tl, c.list) && exists salt :: Seals(w, k, salt, c, rest, data) {
      var salt :| Seals(w, k, salt, c, rest, data);
      OpenSeal(w, k, c.seqno, salt, c.list, rest);
    }
  }

  /** Random bytes from the operating system. */
  method RandomSalt() returns (salt: bytes)
    ensures |salt| == 8
  {
    salt := seq<byte>(8, _ => 0);
  }

  /** The counter after an `AddUint32` of one. */
  function Successor(n: uint32): uint32 {
    if n == 0xFFFF_FFFF then 0 else n + 1
  }

  /** The next container of these keys around `rest`: the counter moves by one, wrapping at 2^32,
      before it is used; an empty list is refused and changes nothing. */
  method SealNext(w: Suite, keys: SectionKeys, seqno: uint32, list: seq<Instruction>, rest: bytes)
    returns (r: Option<bytes>, next: uint32, ghost salt: bytes)
    ensures list == [] ==> r.None? && next == seqno
    ensures list != [] ==>
              |salt| == 8 && next == Successor(seqno) && r == Some(Seal(w, keys, next, salt, list, rest))
  {
    if list == [] {
      return None, seqno, [];
    }
    next := Successor(seqno);
    var plain := SerializeContainer(w.tl, Container(next, list)) + rest;
    var random := RandomSalt();
    salt := random;
    r := Some(Encrypt(w.prim, keys.cipherKey, keys.keyCrc, random, plain));
  }

  /** `EncryptionKeys` with its counter. */
  class EncryptionKeys {
    const keys: SectionKeys
    var seqno: uint32

    constructor (keys: SectionKeys)
      ensures this.keys == keys && seqno == 0
    {
      this.keys := keys;
      seqno := 0;
    }

    method EncryptInstructionsMessage(w: Suite, msg: Message, list: seq<Instruction>)
      returns (r: Option<Message>, ghost salt: bytes)
      modifies this`seqno
      ensures list == [] ==> r.None? && seqno == old(seqno)
      ensures list != [] ==>
                && |salt| == 8
                && seqno == Successor(old(seqno))
                && r == Some(Message(keys.pub, Seal(w, keys, seqno, salt, list, msg.instructions), msg.payload))
    {
      var sealed;
      sealed, seqno, salt := SealNext(w, keys, seqno, list, msg.instructions);
      r := if sealed.None? then None else Some(Message(keys.pub, sealed.value, msg.payload));
    }
  }

  // ---------------------------------------------------------------------------------------
  // Many layers
  // ---------------------------------------------------------------------------------------

  datatype Layer = Layer(keys: SectionKeys, seqno: uint32, salt: bytes, list: seq<Instruction>)

  predicate Sealable(w: Suite, layers: seq<Layer>) {
    forall l | l in layers :: |l.salt| == 8 && EncodableAll(w.tl, l.list)
  }

  /** Layers wrapped inside out: the first hop's is outermost. */
  function Wrap(w: Suite, layers: seq<Layer>): bytes
    requires Sealable(w, layers)
  {
    if layers == [] then []
    else
      var l := layers[0];
      Seal(w, l.keys, l.seqno, l.salt, l.list, Wrap(w, layers[1..]))
  }

  /** What is left after the first j hops each decrypted with their own keys and passed on the rest. */
  function Peel(w: Suite, keys: seq<SectionKeys>, data: bytes): Option<bytes>
    requires Consumes(w.tl)
  {
    if keys == [] then Some(data)
    else
      match Open(w, keys[0], data)
      case None => None
      case Some((_, rest)) => Peel(w, keys[1..], rest)
  }

  function KeysOf(layers: seq<Layer>): (keys: seq<SectionKeys>)
    ensures |keys| == |layers| && forall i | 0 <= i < |layers| :: keys[i] == layers[i].keys
  {
    seq(|layers|, i requires 0 <= i < |layers| => layers[i].keys)
  }

  lemma SealableTail(w: Suite, layers: seq<Layer>, j: nat)
    requires Sealable(w, layers) && j <= |layers|
    ensures Sealable(w, layers[j..])
  {
    assert forall l | l in layers[j..] :: l in layers;
  }

  predicate PassesOn(w: Suite, k: SectionKeys, data: bytes, rest: bytes)
    requires Consumes(w.tl)
  {
    Open(w, k, data).Some? && Open(w, k, data).value.1 == rest
  }

  /** Peeling follows any chain of messages in which each hop passes on the next. */
  lemma {:induction false} PeelChain(w: Suite, keys: seq<SectionKeys>, msgs: seq<bytes>)
    requires Consumes(w.tl) && |msgs| == |keys| + 1
    requires forall i: nat | i < |keys| :: PassesOn(w, keys[i], msgs[i], msgs[i + 1])
    ensures Peel(w, keys, msgs[0]) == Some(msgs[|keys|])
  {
    if keys != [] {
      assert PassesOn(w, keys[0], msgs[0], msgs[0 + 1]);
      var keys', msgs' := keys[1..], msgs[1..];
      forall i: nat | i < |keys'|
        ensures PassesOn(w, keys'[i], msgs'[i], msgs'[i + 1])
      {
        assert PassesOn(w, keys[i + 1], msgs[i + 1], msgs[i + 1 + 1]);
      }
      PeelChain(w, keys', msgs');
    }
  }

  /** The message on its way to hop i. */
  function MessageTo(w: Suite, layers: seq<Layer>, i: nat): bytes
    requires Sealable(w, layers) && i <= |layers|
  {
    SealableTail(w, layers, i);
    Wrap(w, layers[i..])
  }

  lemma HopPassesOn(w: Suite, layers: seq<Layer>, i: nat)
    requires Lawful(w.tl) && Sealable(w, layers) && i < |layers|
    ensures PassesOn(w, layers[i].keys, MessageTo(w, layers, i), MessageTo(w, layers, i + 1))
    ensures Open(w, layers[i].keys, MessageTo(w, layers, i)).value.0 == Container(layers[i].seqno, layers[i].list)
  {
    SealableTail(w, layers, i);
    OpenHead(w, layers[i..]);
    assert layers[i..][1..] == layers[i + 1..];
  }

  /** After j hops, hop j receives the byte-exact message for it and decrypts exactly its own
      container; after the last hop nothing is left. */
  lemma PeelOnion(w: Suite, layers: seq<Layer>, j: nat)
    requires Lawful(w.tl) && Sealable(w, layers) && j < |layers|
    ensures Peel(w, KeysOf(layers)[..j], Wrap(w, layers)) == Some(MessageTo(w, layers, j))
    ensures Open(w, layers[j].keys, MessageTo(w, layers, j))
         == Some((Container(layers[j].seqno, layers[j].list), MessageTo(w, layers, j + 1)))
    ensures MessageTo(w, layers, |layers|) == []
  {
    var keys := KeysOf(layers)[..j];
    var msgs := seq(j + 1, i requires 0 <= i <= j => MessageTo(w, layers, i));
    forall i: nat | i < j
      ensures PassesOn(w, keys[i], msgs[i], msgs[i + 1])
    {
      HopPassesOn(w, layers, i);
    }
    assert layers[0..] == layers;
    PeelChain(w, keys, msgs);
    HopPassesOn(w, layers, j);
  }

  lemma OpenHead(w: Suite, layers: seq<Layer>)
    requires Lawful(w.tl) && Sealable(w, layers) && layers != []
    ensures Sealable(w, layers[1..])
    ensures Open(w, layers[0].keys, Wrap(w, layers))
         == Some((Container(layers[0].seqno, layers[0].list), Wrap(w, layers[1..])))
  {
    var l := layers[0];
    assert l in layers;
    SealableTail(w, layers, 1);
    OpenSeal(w, l.keys, l.seqno, l.salt, l.list, Wrap(w, layers[1..]));
  }
}
