/** The wire form of instruction containers: hand-written parsers that recurse through cached
    instructions, around leaf codecs supplied by the TL library. */
module Codec {
  import opened Arith
  import opened Options
  import opened Bytes

  datatype Meta = StateMeta(state: uint32) | PingMeta(seqno: uint64, withPayments: bool)

  datatype Instruction =
    | Destroy
    | Cache(version: uint64, list: seq<Instruction>)
    | Route(routeId: uint32)
    | BuildRoute(adnl: bytes, section: bytes, routeId: uint32, price: uint64)
    | Payment(body: bytes)
    | BindOut(adnl: bytes, section: bytes, inbound: bytes, receiver: bytes, price: uint64)
    | ReportStats(body: bytes)
    | SendOut
    | Deliver
    | DeliverInitiator(from: uint32, meta: Meta)

  datatype Container = Container(seqno: uint32, list: seq<Instruction>)

  /** The TL library: constructor numbers, and the codecs of the leaf instructions. */
  datatype Leaves = Leaves(
    containerOp: uint32,
    cacheOp: uint32,
    op: Instruction -> uint32,
    write: Instruction -> bytes,
    parse: (uint32, bytes) -> Option<(Instruction, bytes)>,
    writable: Instruction -> bool)

  /** A leaf that can be written is read back, leaving exactly what follows it. */
  ghost predicate RoundTrips(tl: Leaves) {
    forall x: Instruction, t: bytes {:trigger tl.parse(tl.op(x), tl.write(x) + t)} ::
      !x.Cache? && tl.writable(x) ==> tl.parse(tl.op(x), tl.write(x) + t) == Some((x, t))
  }

  /** Reading a leaf never produces bytes. */
  ghost predicate Consumes(tl: Leaves) {
    forall op: uint32, d: bytes {:trigger tl.parse(op, d)} :: tl.parse(op, d).Some? ==> |tl.parse(op, d).value.1| <= |d|
  }

  ghost predicate Lawful(tl: Leaves) {
    && RoundTrips(tl)
    && Consumes(tl)
    && forall x: Instruction {:trigger tl.op(x)} :: !x.Cache? ==> tl.op(x) != tl.cacheOp
  }

  // ---------------------------------------------------------------------------------------
  // Serialize
  // ---------------------------------------------------------------------------------------

  function Serialize(tl: Leaves, x: Instruction): bytes
    decreases x, 1
  {
    match x
    case Cache(version, list) => LE(tl.cacheOp, 4) + LE(version, 8) + LE(|list|, 4) + SerializeAll(tl, list)
    case _ => LE(tl.op(x), 4) + tl.write(x)
  }

  function SerializeAll(tl: Leaves, list: seq<Instruction>): bytes
    decreases list, 0
  {
    if list == [] then [] else Serialize(tl, list[0]) + SerializeAll(tl, list[1..])
  }

  function SerializeContainer(tl: Leaves, c: Container): (r: bytes)
    ensures |r| >= 12
  {
    LE(tl.containerOp, 4) + LE(c.seqno, 4) + LE(|c.list|, 4) + SerializeAll(tl, c.list)
  }

  /** Counts fit their 32-bit fields, at every depth of nesting, and leaves can be written. */
  predicate Encodable(tl: Leaves, x: Instruction)
    decreases x, 1
  {
    match x
    case Cache(version, list) => EncodableAll(tl, list)
    case _ => tl.writable(x)
  }

  predicate EncodableAll(tl: Leaves, list: seq<Instruction>)
    decreases list, 0
  {
    |list| < 0x1_0000_0000 && (list != [] ==> Encodable(tl, list[0]) && EncodableAll(tl, list[1..]))
  }

  // ---------------------------------------------------------------------------------------
  // Parse
  // ---------------------------------------------------------------------------------------

  function ParseOne(tl: Leaves, data: bytes): (r: Option<(Instruction, bytes)>)
    requires Consumes(tl)
    ensures r.Some? ==> |r.value.1| < |data|
    decreases |data|, 0, 0
  {
    if |data| < 4 then None
    else
      var op, body := FromLE4(data[..4]), data[4..];
      if op == tl.cacheOp then
        if |body| < 12 then None
        else
          match ParseMany(tl, FromLE4(body[8..12]), body[12..])
          case None => None
          case Some((list, rest)) => Some((Cache(FromLE8(body[..8]), list), rest))
      else tl.parse(op, body)
  }

  function ParseMany(tl: Leaves, num: nat, data: bytes): (r: Option<(seq<Instruction>, bytes)>)
    requires Consumes(tl)
    ensures r.Some? ==> |r.value.1| <= |data|
    decreases |data|, 1, num
  {
    if num == 0 then Some(([], data))
    else
      match ParseOne(tl, data)
      case None => None
      case Some((x, rest)) =>
        match ParseMany(tl, num - 1, rest)
        case None => None
        case Some((list, rest')) => Some(([x] + list, rest'))
  }

  /** The boxed container after the length guard of `decryptMessage`. */
  function ParseContainer(tl: Leaves, data: bytes): (r: Option<(Container, bytes)>)
    requires Consumes(tl)
    ensures r.Some? ==> |r.value.1| <= |data| - 12
  {
    if |data| < 12 || FromLE4(data[..4]) != tl.containerOp then None
    else
      match ParseMany(tl, FromLE4(data[8..12]), data[12..])
      case None => None
      case Some((list, rest)) => Some((Container(FromLE4(data[4..8]), list), rest))
  }

  function FromLE4(s: bytes): (n: uint32)
    requires |s| == 4
  {
    FromLEBelow(s);
    assert Pow256(4) == 0x1_0000_0000 by {
      assert Pow256(2) == 0x1_0000;
    }
    FromLE(s)
  }

  function FromLE8(s: bytes): (n: uint64)
    requires |s| == 8
  {
    FromLEBelow(s);
    assert Pow256(8) == 0x1_0000_0000_0000_0000 by {
      assert Pow256(2) == 0x1_0000;
      assert Pow256(4) == 0x1_0000_0000;
      assert Pow256(6) == 0x1_0000_0000_0000;
    }
    FromLE(s)
  }

  lemma {:induction false} FromLEBelow(s: bytes)
    ensures FromLE(s) < Pow256(|s|)
  {
    if s != [] {
      FromLEBelow(s[1..]);
    }
  }

  // ---------------------------------------------------------------------------------------
  // Round trip
  // ---------------------------------------------------------------------------------------

  lemma {:induction false} ParseOneOf(tl: Leaves, x: Instruction, t: bytes)
    requires Lawful(tl) && Encodable(tl, x)
    ensures ParseOne(tl, Serialize(tl, x) + t) == Some((x, t))
    decreases x, 1
  {
    var data := Serialize(tl, x) + t;
    match x
    case Cache(version, list) =>
      var body := LE(version, 8) + LE(|list|, 4) + SerializeAll(tl, list) + t;
      assert data == LE(tl.cacheOp, 4) + body;
      assert data[..4] == LE(tl.cacheOp, 4) && data[4..] == body;
      assert body[..8] == LE(version, 8) && body[8..12] == LE(|list|, 4);
      assert body[12..] == SerializeAll(tl, list) + t;
      LE4(tl.cacheOp);
      LE8(version);
      assert |list| < 0x1_0000_0000;
      LE4(|list|);
      ParseManyOf(tl, list, t);
    case _ =>
      assert data == LE(tl.op(x), 4) + (tl.write(x) + t);
      assert data[..4] == LE(tl.op(x), 4) && data[4..] == tl.write(x) + t;
      LE4(tl.op(x));
      assert tl.parse(tl.op(x), tl.write(x) + t) == Some((x, t));
  }

  lemma {:induction false} ParseManyOf(tl: Leaves, list: seq<Instruction>, t: bytes)
    requires Lawful(tl) && EncodableAll(tl, list)
    ensures ParseMany(tl, |list|, SerializeAll(tl, list) + t) == Some((list, t))
    decreases list, 0
  {
    if list == [] {
      assert SerializeAll(tl, list) + t == t;
    } else {
      var rest := SerializeAll(tl, list[1..]) + t;
      assert SerializeAll(tl, list) + t == Serialize(tl, list[0]) + rest;
      ParseOneOf(tl, list[0], rest);
      ParseManyOf(tl, list[1..], t);
      assert [list[0]] + list[1..] == list;
    }
  }

  /** Parsing a serialized container followed by anything returns the same number and
      instructions, nested caches included, and exactly what followed. */
  lemma ContainerRoundTrip(tl: Leaves, c: Container, t: bytes)
    requires Lawful(tl) && EncodableAll(tl, c.list)
    ensures ParseContainer(tl, SerializeContainer(tl, c) + t) == Some((c, t))
  {
    var data := SerializeContainer(tl, c) + t;
    assert data[..4] == LE(tl.containerOp, 4) && data[4..8] == LE(c.seqno, 4) && data[8..12] == LE(|c.list|, 4);
    assert data[12..] == SerializeAll(tl, c.list) + t;
    LE4(tl.containerOp);
    LE4(c.seqno);
    LE4(|c.list|);
    ParseManyOf(tl, c.list, t);
  }

  // ---------------------------------------------------------------------------------------
  // Nothing else parses
  // ---------------------------------------------------------------------------------------

  /** Leaves that are read from nothing but what writes them. */
  ghost predicate Strict(tl: Leaves) {
    forall op: uint32, d: bytes {:trigger tl.parse(op, d)} :: tl.parse(op, d).Some? ==>
      var (x, t) := tl.parse(op, d).value;
      !x.Cache? && tl.writable(x) && tl.op(x) == op && d == tl.write(x) + t
  }

  lemma FourBytes(s: bytes)
    requires |s| == 4
    ensures LE(FromLE4(s), 4) == s
  {
    FromLERoundTrip(s);
  }

  lemma EightBytes(s: bytes)
    requires |s| == 8
    ensures LE(FromLE8(s), 8) == s
  {
    FromLERoundTrip(s);
  }

  lemma Pieces(data: bytes, i: nat, j: nat)
    requires i <= j <= |data|
    ensures data == data[..i] + data[i..j] + data[j..]
  {
  }

  lemma FourPieces(data: bytes, op: bytes, body: bytes, all: bytes, t: bytes)
    requires data == op + body && |body| >= 12 && body[12..] == all + t
    ensures data == (op + body[..8] + body[8..12] + all) + t
  {
    Pieces(body, 8, 12);
  }

  lemma {:induction false} ParsedOne(tl: Leaves, data: bytes)
    requires Consumes(tl) && Strict(tl) && ParseOne(tl, data).Some?
    ensures var (x, t) := ParseOne(tl, data).value;
            Encodable(tl, x) && data == Serialize(tl, x) + t
    decreases |data|, 0, 0
  {
    var op, body := FromLE4(data[..4]), data[4..];
    FourBytes(data[..4]);
    assert data == LE(op, 4) + body;
    if op == tl.cacheOp {
      var num := FromLE4(body[8..12]);
      var (list, t) := ParseMany(tl, num, body[12..]).value;
      ParsedMany(tl, num, body[12..]);
      EightBytes(body[..8]);
      FourBytes(body[8..12]);
      FourPieces(data, LE(op, 4), body, SerializeAll(tl, list), t);
    } else {
      var (x, t) := tl.parse(op, body).value;
      assert data == Serialize(tl, x) + t;
    }
  }

  lemma {:induction false} ParsedMany(tl: Leaves, num: uint32, data: bytes)
    requires Consumes(tl) && Strict(tl) && ParseMany(tl, num, data).Some?
    ensures var (list, t) := ParseMany(tl, num, data).value;
            |list| == num && EncodableAll(tl, list) && data == SerializeAll(tl, list) + t
    decreases |data|, 1, num
  {
    if num == 0 {
      assert data == SerializeAll(tl, []) + data;
    } else {
      var (x, rest) := ParseOne(tl, data).value;
      var (list, t) := ParseMany(tl, num - 1, rest).value;
      ParsedOne(tl, data);
      ParsedMany(tl, num - 1, rest);
      assert ([x] + list)[1..] == list;
      assert data == SerializeAll(tl, [x] + list) + t;
    }
  }

  lemma ThreeWords(data: bytes)
    requires |data| >= 12
    ensures data == data[..4] + data[4..8] + data[8..12] + data[12..]
  {
  }

  lemma ParsedContainer(tl: Leaves, data: bytes)
    requires Consumes(tl) && Strict(tl) && ParseContainer(tl, data).Some?
    ensures var (c, t) := ParseContainer(tl, data).value;
            EncodableAll(tl, c.list) && data == SerializeContainer(tl, c) + t
  {
    var (c, t) := ParseContainer(tl, data).value;
    ParsedMany(tl, FromLE4(data[8..12]), data[12..]);
    FourBytes(data[..4]);
    FourBytes(data[4..8]);
    FourBytes(data[8..12]);
    ThreeWords(data);
    var head := LE(tl.containerOp, 4) + LE(c.seqno, 4) + LE(|c.list|, 4);
    assert data == head + (SerializeAll(tl, c.list) + t);
    assert head + (SerializeAll(tl, c.list) + t) == (head + SerializeAll(tl, c.list)) + t;
  }

  /** With such leaves, bytes parse as a container and a rest if and only if they are that container,
      serialized, and that rest. */
  lemma ContainerExactly(tl: Leaves, data: bytes, c: Container, t: bytes)
    requires Lawful(tl) && Strict(tl)
    ensures ParseContainer(tl, data) == Some((c, t)) <==> EncodableAll(tl, c.list) && data == SerializeContainer(tl, c) + t
  {
    if ParseContainer(tl, data) == Some((c, t)) {
      ParsedContainer(tl, data);
    }
    if EncodableAll(tl, c.list) && data == SerializeContainer(tl, c) + t {
      ContainerRoundTrip(tl, c, t);
    }
  }

  /** The layout of a container: constructor number, its own number, and the count of its
      instructions, each in four bytes. */
  lemma ContainerLayout(tl: Leaves, c: Container)
    requires |c.list| < 0x1_0000_0000
    ensures var data := SerializeContainer(tl, c);
            FromLE4(data[..4]) == tl.containerOp && FromLE4(data[4..8]) == c.seqno && FromLE4(data[8..12]) == |c.list|
  {
    var data := SerializeContainer(tl, c);
    assert data[..4] == LE(tl.containerOp, 4) && data[4..8] == LE(c.seqno, 4) && data[8..12] == LE(|c.list|, 4);
    LE4(tl.containerOp);
    LE4(c.seqno);
    LE4(|c.list|);
  }

  // ---------------------------------------------------------------------------------------
  // The loops of the source
  // ---------------------------------------------------------------------------------------

  /** The loop shared by `InstructionsContainer.Parse` and `CacheInstruction.Parse`. */
  method ParseList(tl: Leaves, num: nat, data: bytes) returns (r: Option<(seq<Instruction>, bytes)>)
    requires Consumes(tl)
    ensures r == ParseMany(tl, num, data)
    decreases |data|, 1
  {
    var list: seq<Instruction> := [];
    var left := data;
    var i := 0;
    assert ParseMany(tl, num, data).Some? ==> list + ParseMany(tl, num, data).value.0 == ParseMany(tl, num, data).value.0;
    while i < num
      invariant 0 <= i <= num && |left| <= |data|
      invariant ParseMany(tl, num, data) == match ParseMany(tl, num - i, left)
                                            case None => None
                                            case Some((tail, rest)) => Some((list + tail, rest))
    {
      if |left| < 4 {
        return None;
      }
      var one := ParseInstruction(tl, left);
      if one.None? {
        return None;
      }
      ghost var before := list;
      list, left, i := list + [one.value.0], one.value.1, i + 1;
      assert forall tail :: before + ([one.value.0] + tail) == list + tail;
    }
    assert list + [] == list;
    r := Some((list, left));
  }

  method ParseInstruction(tl: Leaves, data: bytes) returns (r: Option<(Instruction, bytes)>)
    requires Consumes(tl) && |data| >= 4
    ensures r == ParseOne(tl, data)
    decreases |data|, 0
  {
    var op, body := FromLE4(data[..4]), data[4..];
    if op != tl.cacheOp {
      return tl.parse(op, body);
    }
    if |body| < 12 {
      return None;
    }
    var inner := ParseList(tl, FromLE4(body[8..12]), body[12..]);
    if inner.None? {
      return None;
    }
    r := Some((Cache(FromLE8(body[..8]), inner.value.0), inner.value.1));
  }
}
