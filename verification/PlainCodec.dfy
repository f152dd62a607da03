/** The laws asked of the TL library are consistent: a plain codec, with a length before every
    byte string, obeys them all and writes every instruction. */
module PlainCodec {
  import opened Arith
  import opened Options
  import opened Bytes
  import opened Codec
  import opened Onion
  import opened Nests
  import opened StreamCipher
  import Setup

  // ---------------------------------------------------------------------------------------
  // Fields
  // ---------------------------------------------------------------------------------------

  function WriteBytes(b: bytes): bytes {
    LE(|b|, 4) + b
  }

  function ReadBytes(d: bytes): (r: Option<(bytes, bytes)>)
    ensures r.Some? ==> |r.value.0| + |r.value.1| <= |d|
  {
    if |d| < 4 then None
    else
      var n := FromLE4(d[..4]);
      if |d| - 4 < n then None else Some((d[4..4 + n], d[4 + n..]))
  }

  lemma ReadWritten(b: bytes, t: bytes)
    requires |b| < TWO_32
    ensures ReadBytes(WriteBytes(b) + t) == Some((b, t))
  {
    var d := WriteBytes(b) + t;
    assert d[..4] == LE(|b|, 4);
    LE4(|b|);
    assert d[4..4 + |b|] == b && d[4 + |b|..] == t;
  }

  function Read4(d: bytes): (r: Option<(uint32, bytes)>)
    ensures r.Some? ==> |r.value.1| <= |d|
  {
    if |d| < 4 then None else Some((FromLE4(d[..4]), d[4..]))
  }

  lemma Read4Written(n: uint32, t: bytes)
    ensures Read4(LE(n, 4) + t) == Some((n, t))
  {
    var d := LE(n, 4) + t;
    assert d[..4] == LE(n, 4) && d[4..] == t;
    LE4(n);
  }

  function Read8(d: bytes): (r: Option<(uint64, bytes)>)
    ensures r.Some? ==> |r.value.1| <= |d|
  {
    if |d| < 8 then None else Some((FromLE8(d[..8]), d[8..]))
  }

  lemma Read8Written(n: uint64, t: bytes)
    ensures Read8(LE(n, 8) + t) == Some((n, t))
  {
    var d := LE(n, 8) + t;
    assert d[..8] == LE(n, 8) && d[8..] == t;
    LE8(n);
  }

  function WriteMeta(m: Meta): bytes {
    match m
    case StateMeta(state) => [0] + LE(state, 4)
    case PingMeta(seqno, withPayments) => [if withPayments then 2 else 1] + LE(seqno, 8)
  }

  function ReadMeta(d: bytes): (r: Option<(Meta, bytes)>)
    ensures r.Some? ==> |r.value.1| <= |d|
  {
    if |d| == 0 then None
    else if d[0] == 0 then
      match Read4(d[1..])
      case None => None
      case Some((n, t)) => Some((StateMeta(n), t))
    else if d[0] > 2 then None
    else
      match Read8(d[1..])
      case None => None
      case Some((n, t)) => Some((PingMeta(n, d[0] == 2), t))
  }

  lemma Tagged(tag: byte, body: bytes, t: bytes)
    ensures var d := [tag] + body + t;
            |d| > 0 && d[0] == tag && d[1..] == body + t
  {
  }

  lemma ReadMetaWritten(m: Meta, t: bytes)
    ensures ReadMeta(WriteMeta(m) + t) == Some((m, t))
  {
    match m
    case StateMeta(state) =>
      Tagged(0, LE(state, 4), t);
      Read4Written(state, t);
    case PingMeta(seqno, withPayments) =>
      Tagged(if withPayments then 2 else 1, LE(seqno, 8), t);
      Read8Written(seqno, t);
  }

  // ---------------------------------------------------------------------------------------
  // Instructions
  // ---------------------------------------------------------------------------------------

  function Opcode(x: Instruction): uint32 {
    match x
    case Destroy => 10
    case Cache(_, _) => 11
    case Route(_) => 12
    case BuildRoute(_, _, _, _) => 13
    case Payment(_) => 14
    case BindOut(_, _, _, _, _) => 15
    case ReportStats(_) => 16
    case SendOut => 17
    case Deliver => 18
    case DeliverInitiator(_, _) => 19
  }

  function Write(x: Instruction): bytes {
    match x
    case Route(id) => LE(id, 4)
    case BuildRoute(adnl, section, id, price) => WriteBytes(adnl) + (WriteBytes(section) + (LE(id, 4) + LE(price, 8)))
    case Payment(body) => WriteBytes(body)
    case BindOut(adnl, section, inbound, receiver, price) =>
      WriteBytes(adnl) + (WriteBytes(section) + (WriteBytes(inbound) + (WriteBytes(receiver) + LE(price, 8))))
    case ReportStats(body) => WriteBytes(body)
    case DeliverInitiator(from, meta) => LE(from, 4) + WriteMeta(meta)
    case _ => []
  }

  /** Byte strings fit their 32-bit lengths. */
  predicate Fits(x: Instruction) {
    match x
    case BuildRoute(adnl, section, _, _) => |adnl| < TWO_32 && |section| < TWO_32
    case Payment(body) => |body| < TWO_32
    case BindOut(adnl, section, inbound, receiver, _) =>
      |adnl| < TWO_32 && |section| < TWO_32 && |inbound| < TWO_32 && |receiver| < TWO_32
    case ReportStats(body) => |body| < TWO_32
    case _ => true
  }

  function ReadBuildRoute(d: bytes): (r: Option<(Instruction, bytes)>)
    ensures r.Some? ==> r.value.0.BuildRoute? && |r.value.1| <= |d|
  {
    match ReadBytes(d)
    case None => None
    case Some((adnl, d1)) =>
      match ReadBytes(d1)
      case None => None
      case Some((section, d2)) =>
        match Read4(d2)
        case None => None
        case Some((id, d3)) =>
          match Read8(d3)
          case None => None
          case Some((price, t)) => Some((BuildRoute(adnl, section, id, price), t))
  }

  function ReadBindOut(d: bytes): (r: Option<(Instruction, bytes)>)
    ensures r.Some? ==> r.value.0.BindOut? && |r.value.0.inbound| <= |d| && |r.value.1| <= |d|
  {
    match ReadBytes(d)
    case None => None
    case Some((adnl, d1)) =>
      match ReadBytes(d1)
      case None => None
      case Some((section, d2)) =>
        match ReadBytes(d2)
        case None => None
        case Some((inbound, d3)) =>
          match ReadBytes(d3)
          case None => None
          case Some((receiver, d4)) =>
            match Read8(d4)
            case None => None
            case Some((price, t)) => Some((BindOut(adnl, section, inbound, receiver, price), t))
  }

  function ReadDeliver(d: bytes): (r: Option<(Instruction, bytes)>)
    ensures r.Some? ==> r.value.0.DeliverInitiator? && |r.value.1| <= |d|
  {
    match Read4(d)
    case None => None
    case Some((from, d1)) =>
      match ReadMeta(d1)
      case None => None
      case Some((meta, t)) => Some((DeliverInitiator(from, meta), t))
  }

  function Read(op: uint32, d: bytes): (r: Option<(Instruction, bytes)>)
    ensures r.Some? ==> |r.value.1| <= |d| && (r.value.0.BindOut? ==> |r.value.0.inbound| <= |d|)
  {
    if op == 10 then Some((Destroy, d))
    else if op == 12 then (match Read4(d) case None => None case Some((id, t)) => Some((Route(id), t)))
    else if op == 13 then ReadBuildRoute(d)
    else if op == 14 then (match ReadBytes(d) case None => None case Some((body, t)) => Some((Payment(body), t)))
    else if op == 15 then ReadBindOut(d)
    else if op == 16 then (match ReadBytes(d) case None => None case Some((body, t)) => Some((ReportStats(body), t)))
    else if op == 17 then Some((SendOut, d))
    else if op == 18 then Some((Deliver, d))
    else if op == 19 then ReadDeliver(d)
    else None
  }

  predicate ReadsBack(x: Instruction, t: bytes) {
    Read(Opcode(x), Write(x) + t) == Some((x, t))
  }

  lemma ReadBuildRouteWritten(adnl: bytes, section: bytes, id: uint32, price: uint64, t: bytes)
    requires |adnl| < TWO_32 && |section| < TWO_32
    ensures ReadsBack(BuildRoute(adnl, section, id, price), t)
  {
    var d3 := LE(price, 8) + t;
    var d2 := LE(id, 4) + d3;
    var d1 := WriteBytes(section) + d2;
    assert Write(BuildRoute(adnl, section, id, price)) + t == WriteBytes(adnl) + d1;
    ReadWritten(adnl, d1);
    ReadWritten(section, d2);
    Read4Written(id, d3);
    Read8Written(price, t);
  }

  lemma ReadBindOutWritten(adnl: bytes, section: bytes, inbound: bytes, receiver: bytes, price: uint64, t: bytes)
    requires |adnl| < TWO_32 && |section| < TWO_32 && |inbound| < TWO_32 && |receiver| < TWO_32
    ensures ReadBindOut(Write(BindOut(adnl, section, inbound, receiver, price)) + t)
         == Some((BindOut(adnl, section, inbound, receiver, price), t))
  {
    var d4 := LE(price, 8) + t;
    var d3 := WriteBytes(receiver) + d4;
    var d2 := WriteBytes(inbound) + d3;
    var d1 := WriteBytes(section) + d2;
    assert Write(BindOut(adnl, section, inbound, receiver, price)) + t == WriteBytes(adnl) + d1;
    ReadWritten(adnl, d1);
    ReadWritten(section, d2);
    ReadWritten(inbound, d3);
    ReadWritten(receiver, d4);
    Read8Written(price, t);
  }

  lemma Associate(a: bytes, b: bytes, t: bytes)
    ensures (a + b) + t == a + (b + t)
  {
  }

  lemma ReadDeliverWritten(from: uint32, meta: Meta, t: bytes)
    ensures ReadsBack(DeliverInitiator(from, meta), t)
  {
    Associate(LE(from, 4), WriteMeta(meta), t);
    Read4Written(from, WriteMeta(meta) + t);
    ReadMetaWritten(meta, t);
  }

  lemma ReadEmpty(x: Instruction, t: bytes)
    requires x.Destroy? || x.SendOut? || x.Deliver?
    ensures ReadsBack(x, t)
  {
    assert [] + t == t;
  }

  lemma ReadSimple(x: Instruction, t: bytes)
    requires (x.Route? || x.Payment? || x.ReportStats?) && Fits(x)
    ensures ReadsBack(x, t)
  {
    if x.Route? {
      Read4Written(x.routeId, t);
    } else {
      ReadWritten(x.body, t);
    }
  }

  lemma ReadBind(x: Instruction, t: bytes)
    requires x.BindOut? && Fits(x)
    ensures ReadsBack(x, t)
  {
    var data := Write(x) + t;
    ReadBindOutWritten(x.adnl, x.section, x.inbound, x.receiver, x.price, t);
    assert ReadBindOut(data) == Some((x, t));
    assert Read(15, data) == ReadBindOut(data);
  }

  lemma {:induction false} ReadComposed(x: Instruction, t: bytes)
    requires (x.BuildRoute? || x.BindOut? || x.DeliverInitiator?) && Fits(x)
    ensures ReadsBack(x, t)
  {
    match x
    case BuildRoute(adnl, section, id, price) => ReadBuildRouteWritten(adnl, section, id, price, t);
    case BindOut(_, _, _, _, _) => ReadBind(x, t);
    case DeliverInitiator(from, meta) => ReadDeliverWritten(from, meta, t);
  }

  lemma ReadInstruction(x: Instruction, t: bytes)
    requires !x.Cache? && Fits(x)
    ensures ReadsBack(x, t)
  {
    if x.BuildRoute? || x.BindOut? || x.DeliverInitiator? {
      ReadComposed(x, t);
    } else if x.Route? || x.Payment? || x.ReportStats? {
      ReadSimple(x, t);
    } else {
      ReadEmpty(x, t);
    }
  }

  // ---------------------------------------------------------------------------------------
  // Nothing else is read
  // ---------------------------------------------------------------------------------------

  lemma WrittenBytes(d: bytes)
    requires ReadBytes(d).Some?
    ensures var (b, t) := ReadBytes(d).value;
            |b| < TWO_32 && d == WriteBytes(b) + t
  {
    FourBytes(d[..4]);
    Pieces(d, 4, 4 + FromLE4(d[..4]));
  }

  lemma Written4(d: bytes)
    requires Read4(d).Some?
    ensures var (n, t) := Read4(d).value;
            d == LE(n, 4) + t
  {
    FourBytes(d[..4]);
  }

  lemma Written8(d: bytes)
    requires Read8(d).Some?
    ensures var (n, t) := Read8(d).value;
            d == LE(n, 8) + t
  {
    EightBytes(d[..8]);
  }

  lemma WrittenMeta(d: bytes)
    requires ReadMeta(d).Some?
    ensures var (m, t) := ReadMeta(d).value;
            d == WriteMeta(m) + t
  {
    var (m, t) := ReadMeta(d).value;
    assert d == [d[0]] + d[1..];
    if d[0] == 0 {
      Written4(d[1..]);
    } else {
      Written8(d[1..]);
    }
  }

  lemma WrittenBuildRoute(d: bytes)
    requires ReadBuildRoute(d).Some?
    ensures var (x, t) := ReadBuildRoute(d).value;
            Fits(x) && d == Write(x) + t
  {
    var (adnl, d1) := ReadBytes(d).value;
    var (section, d2) := ReadBytes(d1).value;
    var (id, d3) := Read4(d2).value;
    var (price, t) := Read8(d3).value;
    WrittenBytes(d);
    WrittenBytes(d1);
    Written4(d2);
    Written8(d3);
    var a, b, c, e := WriteBytes(adnl), WriteBytes(section), LE(id, 4), LE(price, 8);
    assert d == a + (b + (c + (e + t)));
    assert a + (b + (c + (e + t))) == (a + (b + (c + e))) + t;
  }

  lemma WrittenBindOut(d: bytes)
    requires ReadBindOut(d).Some?
    ensures var (x, t) := ReadBindOut(d).value;
            Fits(x) && d == Write(x) + t
  {
    var (adnl, d1) := ReadBytes(d).value;
    var (section, d2) := ReadBytes(d1).value;
    var (inbound, d3) := ReadBytes(d2).value;
    var (receiver, d4) := ReadBytes(d3).value;
    var (price, t) := Read8(d4).value;
    WrittenBytes(d);
    WrittenBytes(d1);
    WrittenBytes(d2);
    WrittenBytes(d3);
    Written8(d4);
    Nested(WriteBytes(adnl), WriteBytes(section), WriteBytes(inbound), WriteBytes(receiver), LE(price, 8), t);
  }

  lemma Nested(a: bytes, b: bytes, c: bytes, d: bytes, e: bytes, t: bytes)
    ensures a + (b + (c + (d + (e + t)))) == (a + (b + (c + (d + e)))) + t
  {
  }

  lemma WrittenDeliver(d: bytes)
    requires ReadDeliver(d).Some?
    ensures var (x, t) := ReadDeliver(d).value;
            Fits(x) && d == Write(x) + t
  {
    var (from, d1) := Read4(d).value;
    var (meta, t) := ReadMeta(d1).value;
    Written4(d);
    WrittenMeta(d1);
    Associate(LE(from, 4), WriteMeta(meta), t);
  }

  lemma WrittenInstruction(op: uint32, d: bytes)
    requires Read(op, d).Some?
    ensures var (x, t) := Read(op, d).value;
            !x.Cache? && Fits(x) && Opcode(x) == op && d == Write(x) + t
  {
    if op == 12 {
      Written4(d);
    } else if op == 13 {
      WrittenBuildRoute(d);
    } else if op == 14 || op == 16 {
      WrittenBytes(d);
    } else if op == 15 {
      WrittenBindOut(d);
    } else if op == 19 {
      WrittenDeliver(d);
    } else {
      assert [] + d == d;
    }
  }

  function Plain(): Leaves {
    Leaves(1, 11, (x: Instruction) => Opcode(x), (x: Instruction) => Write(x),
           (op: uint32, d: bytes) => Read(op, d), (x: Instruction) => Fits(x))
  }

  lemma PlainIsStrict()
    ensures Strict(Plain())
  {
    var tl := Plain();
    forall op: uint32, d: bytes | tl.parse(op, d).Some?
      ensures var (x, t) := tl.parse(op, d).value;
              !x.Cache? && tl.writable(x) && tl.op(x) == op && d == tl.write(x) + t
    {
      WrittenInstruction(op, d);
    }
  }

  /** It obeys every law the model asks of the library. */
  lemma PlainIsLawful()
    ensures Lawful(Plain()) && BindLaws(Plain()) && Strict(Plain())
  {
    var tl := Plain();
    PlainIsStrict();
    forall x: Instruction, t: bytes | !x.Cache? && tl.writable(x)
      ensures tl.parse(tl.op(x), tl.write(x) + t) == Some((x, t))
    {
      ReadInstruction(x, t);
      assert ReadsBack(x, t);
    }
    forall a: bytes, k: bytes, x: bytes, y: bytes, r: bytes, p: uint64 | |x| == |y|
      ensures |tl.write(BindOut(a, k, x, r, p))| == |tl.write(BindOut(a, k, y, r, p))|
    {
    }
  }

  // ---------------------------------------------------------------------------------------
  // A tunnel that can be set up
  // ---------------------------------------------------------------------------------------

  /** Keys and addresses fit their lengths. */
  predicate Short(t: Setup.Tunnel) {
    |t.receiver| < TWO_32 && forall n | n in t.nodes :: |n.adnl| < TWO_32 && |n.keys.pub| < TWO_32
  }

  lemma {:induction false} FittingLists(w: Suite, list: seq<Instruction>)
    requires w.tl == Plain() && |list| < TWO_32 && forall x | x in list :: Encodable(w.tl, x)
    ensures EncodableAll(w.tl, list)
  {
    if list != [] {
      assert list[0] in list;
      FittingLists(w, list[1..]);
    }
  }

  lemma ListIsEncodable(w: Suite, t: Setup.Tunnel, back: bytes, i: nat)
    requires w.tl == Plain() && t.Proper() && Short(t) && |back| < TWO_32 && i < t.Size()
    ensures EncodableAll(w.tl, Setup.ListAt(t, back, i))
  {
    var list := Setup.ListAt(t, back, i);
    if i + 1 < t.Size() {
      var next := t.nodes[i + 1];
      assert next in t.nodes;
      FittingLists(w, [Route(Setup.RouteId(next))]);
      FittingLists(w, [SendOut]);
    } else {
      FittingLists(w, [DeliverInitiator(t.localId, StateMeta(t.state))]);
    }
    FittingLists(w, list);
  }

  lemma {:induction false} LayersAreSealable(w: Suite, t: Setup.Tunnel, back: bytes, lo: nat, hi: nat)
    requires w.tl == Plain() && t.Proper() && Short(t) && |back| < TWO_32 && lo <= hi <= t.Size()
    ensures Sealable(w, Setup.LayersOf(t, back, lo, hi))
  {
    var layers := Setup.LayersOf(t, back, lo, hi);
    forall l | l in layers
      ensures |l.salt| == 8 && EncodableAll(w.tl, l.list)
    {
      var j :| 0 <= j < |layers| && layers[j] == l;
      ListIsEncodable(w, t, back, lo + j);
      assert l.list == Setup.ListAt(t, back, lo + j) && l.salt == t.salts[lo + j];
    }
  }

  /** With it, the init message of every tunnel whose back onion stays below 2^32 bytes can be
      written. */
  lemma PlainWritesTunnels(w: Suite, t: Setup.Tunnel)
    requires w.tl == Plain() && t.Proper() && Short(t)
    ensures Sealable(w, Setup.BackLayers(t))
    ensures |Setup.BackOnion(w, t)| < TWO_32 ==> Setup.Writable(w, t)
  {
    LayersAreSealable(w, t, [], t.outbound, t.Size());
    if |Setup.BackOnion(w, t)| < TWO_32 {
      LayersAreSealable(w, t, Setup.BackOnion(w, t), 0, t.outbound);
    }
  }

  /** A gate and the initiator. */
  function Smallest(): Setup.Tunnel {
    var node := Setup.Node([1], SectionKeys([1, 2, 3, 4], [], 0));
    var salt := seq<byte>(8, _ => 0);
    Setup.Tunnel([node, node], 1, [1, 1], [1, 1], [1, 1], [salt, salt], 7, [], 0)
  }

  lemma DeliverySize(localId: uint32, state: uint32, version: uint64)
    ensures |SerializeAll(Plain(), Setup.InitiatorList(localId, StateMeta(state), version))| == 42
  {
    var tl, deliver := Plain(), DeliverInitiator(localId, StateMeta(state));
    var cache := Cache(version, [deliver]);
    assert |Serialize(tl, deliver)| == 13;
    assert [deliver][1..] == [] && |SerializeAll(tl, [deliver])| == 13;
    assert |Serialize(tl, cache)| == 29;
    assert [deliver, cache][1..] == [cache] && [cache][1..] == [] && |SerializeAll(tl, [cache])| == 29;
  }

  lemma SmallestBackOnion(w: Suite)
    requires w.tl == Plain() && Smallest().Proper() && Sealable(w, Setup.BackLayers(Smallest()))
    ensures |Setup.BackOnion(w, Smallest())| == 70
  {
    var t := Smallest();
    var layers := Setup.BackLayers(t);
    DeliverySize(t.localId, t.state, t.versions[1]);
    assert |layers| == 1 && layers[1..] == [] && layers[0].list == Setup.InitiatorList(t.localId, StateMeta(t.state), t.versions[1]);
    assert Wrap(w, layers[1..]) == [];
  }

  lemma SmallestIsProper()
    ensures Smallest().Proper() && Short(Smallest()) && Smallest().Started()
  {
  }

  lemma SmallestIsWritable(w: Suite)
    requires w.tl == Plain()
    ensures Setup.Writable(w, Smallest())
  {
    SmallestIsProper();
    PlainWritesTunnels(w, Smallest());
    SmallestBackOnion(w);
  }

  lemma SmallestIsAccepted(p: Setup.Policy)
    requires p == Setup.Policy(true, true, 0, 0, false, {7})
    ensures Setup.Accepted(Smallest(), [p, p])
  {
    SmallestIsProper();
  }

  /** So the hypotheses of the setup theorems can be met together. */
  lemma SetupIsPossible() returns (w: Suite, t: Setup.Tunnel, policies: seq<Setup.Policy>)
    ensures Setup.Ready(w, t, policies) && t.Started()
  {
    var p := Setup.Policy(true, true, 0, 0, false, {7});
    w, t, policies := Suite(Primitives((_, _, _) => 0, _ => 0), Plain()), Smallest(), [p, p];
    PlainIsLawful();
    SmallestIsProper();
    SmallestIsWritable(w);
    SmallestIsAccepted(p);
  }
}
