/** The meaning of an onion built over a tunnel's chain: its layers, hop by hop, with the onions
    nested in bind instructions, apart from sequence numbers and random bytes. */
module Nests {
  import opened Arith
  import opened Options
  import opened Bytes
  import opened Codec
  import opened Onion

  /** An instruction of a layer; a bind carries the onion that leads back to the client, which
      starts at node `at`. */
  datatype Item =
    | Plain(ins: Instruction)
    | Bind(adnl: bytes, at: nat, inbound: Nest, receiver: bytes, price: uint64)

  datatype Nest = End | Shell(seqno: uint32, salt: bytes, items: seq<Item>, rest: Nest)

  /** Layer by layer from node s, every layer falls on one of n nodes. */
  predicate Placed(n: nat, o: Nest, s: nat)
    decreases o, 1
  {
    o.Shell? ==> s < n && |o.salt| == 8 && PlacedAll(n, o.items) && Placed(n, o.rest, s + 1)
  }

  predicate PlacedItem(n: nat, it: Item)
    decreases it, 0
  {
    it.Bind? ==> it.at < n && it.inbound.Shell? && Placed(n, it.inbound, it.at)
  }

  predicate PlacedAll(n: nat, items: seq<Item>)
    decreases items, 0
  {
    forall i | 0 <= i < |items| :: PlacedItem(n, items[i])
  }

  // ---------------------------------------------------------------------------------------
  // The bytes
  // ---------------------------------------------------------------------------------------

  function Ins(w: Suite, nodes: seq<SectionKeys>, it: Item): Instruction
    requires PlacedItem(|nodes|, it)
    decreases it, 0
  {
    match it
    case Plain(ins) => ins
    case Bind(adnl, at, inbound, receiver, price) =>
      BindOut(adnl, nodes[at].pub, Write(w, nodes, inbound, at), receiver, price)
  }

  function InsAll(w: Suite, nodes: seq<SectionKeys>, items: seq<Item>): (list: seq<Instruction>)
    requires PlacedAll(|nodes|, items)
    ensures |list| == |items|
    ensures forall i | 0 <= i < |items| :: list[i] == Ins(w, nodes, items[i])
    decreases items, 0
  {
    seq(|items|, i requires 0 <= i < |items| => Ins(w, nodes, items[i]))
  }

  function Write(w: Suite, nodes: seq<SectionKeys>, o: Nest, s: nat): bytes
    requires Placed(|nodes|, o, s)
    decreases o, 1
  {
    match o
    case End => []
    case Shell(seqno, salt, items, rest) =>
      Seal(w, nodes[s], seqno, salt, InsAll(w, nodes, items), Write(w, nodes, rest, s + 1))
  }

  // ---------------------------------------------------------------------------------------
  // Onions a tunnel builds
  // ---------------------------------------------------------------------------------------

  predicate HasRoute(list: seq<Instruction>) {
    exists x | x in list :: x.Route?
  }

  /** Every layer holds something, can be written, and goes on exactly when it routes to a
      further node; bind instructions appear as binds. */
  predicate Built(w: Suite, nodes: seq<SectionKeys>, o: Nest, s: nat)
    requires Placed(|nodes|, o, s)
    decreases o, 1
  {
    o.Shell? ==>
      && o.items != []
      && EncodableAll(w.tl, InsAll(w, nodes, o.items))
      && (o.rest.Shell? <==> HasRoute(InsAll(w, nodes, o.items)) && s + 1 < |nodes|)
      && BuiltAll(w, nodes, o.items)
      && Built(w, nodes, o.rest, s + 1)
  }

  predicate BuiltItem(w: Suite, nodes: seq<SectionKeys>, it: Item)
    requires PlacedItem(|nodes|, it)
    decreases it, 0
  {
    match it
    case Plain(ins) => !ins.BindOut?
    case Bind(_, at, inbound, _, _) => Built(w, nodes, inbound, at)
  }

  predicate BuiltAll(w: Suite, nodes: seq<SectionKeys>, items: seq<Item>)
    requires PlacedAll(|nodes|, items)
    decreases items, 0
  {
    forall i | 0 <= i < |items| :: BuiltItem(w, nodes, items[i])
  }

  /** Opening the outer layer gives its container and the bytes for the next node. */
  lemma OpenShell(w: Suite, nodes: seq<SectionKeys>, o: Nest, s: nat)
    requires Lawful(w.tl) && o.Shell? && Placed(|nodes|, o, s) && Built(w, nodes, o, s)
    ensures Open(w, nodes[s], Write(w, nodes, o, s))
         == Some((Container(o.seqno, InsAll(w, nodes, o.items)), Write(w, nodes, o.rest, s + 1)))
  {
    OpenSeal(w, nodes[s], o.seqno, o.salt, InsAll(w, nodes, o.items), Write(w, nodes, o.rest, s + 1));
  }

  // ---------------------------------------------------------------------------------------
  // Same meaning
  // ---------------------------------------------------------------------------------------

  /** The same layers with the same instructions; numbers and random bytes may differ. */
  predicate Same(o: Nest, o': Nest)
    decreases o, 1
  {
    if o.End? then o'.End? else o'.Shell? && SameAll(o.items, o'.items) && Same(o.rest, o'.rest)
  }

  predicate SameItem(it: Item, it': Item)
    decreases it, 0
  {
    match it
    case Plain(_) => it' == it
    case Bind(adnl, at, inbound, receiver, price) =>
      it'.Bind? && it' == Bind(adnl, at, it'.inbound, receiver, price) && Same(inbound, it'.inbound)
  }

  predicate SameAll(items: seq<Item>, items': seq<Item>)
    decreases items, 0
  {
    |items'| == |items| && forall i | 0 <= i < |items| :: SameItem(items[i], items'[i])
  }

  /** The size of a bind, and whether it can be written, depend on the inbound bytes only by
      their length; and a parsed bind's inbound bytes are part of what was parsed. */
  ghost predicate BindLaws(tl: Leaves) {
    && (forall a: bytes, k: bytes, x: bytes, y: bytes, r: bytes, p: uint64
          {:trigger tl.write(BindOut(a, k, x, r, p)), tl.write(BindOut(a, k, y, r, p))} ::
          |x| == |y| ==>
            && |tl.write(BindOut(a, k, x, r, p))| == |tl.write(BindOut(a, k, y, r, p))|
            && (tl.writable(BindOut(a, k, x, r, p)) ==> tl.writable(BindOut(a, k, y, r, p))))
    && (forall op: uint32, d: bytes {:trigger tl.parse(op, d)} ::
          tl.parse(op, d).Some? && tl.parse(op, d).value.0.BindOut? ==> |tl.parse(op, d).value.0.inbound| <= |d|)
  }

  lemma {:induction false} SameMeaningSameSize(w: Suite, nodes: seq<SectionKeys>, o: Nest, o': Nest, s: nat)
    requires BindLaws(w.tl) && Same(o, o') && Placed(|nodes|, o, s) && Placed(|nodes|, o', s)
    ensures |Write(w, nodes, o, s)| == |Write(w, nodes, o', s)|
    decreases o, 1
  {
    if o.Shell? {
      SameItemsSameSize(w, nodes, o.items, o'.items);
      SameMeaningSameSize(w, nodes, o.rest, o'.rest, s + 1);
    }
  }

  lemma {:induction false} SameItemSameSize(w: Suite, nodes: seq<SectionKeys>, it: Item, it': Item)
    requires BindLaws(w.tl) && SameItem(it, it') && PlacedItem(|nodes|, it) && PlacedItem(|nodes|, it')
    ensures SameSize(w.tl, Ins(w, nodes, it), Ins(w, nodes, it'))
    decreases it, 0
  {
    if it.Bind? {
      SameMeaningSameSize(w, nodes, it.inbound, it'.inbound, it.at);
      var x, y := Ins(w, nodes, it), Ins(w, nodes, it');
      assert |w.tl.write(x)| == |w.tl.write(y)|;
    }
  }

  predicate SameSize(tl: Leaves, x: Instruction, y: Instruction) {
    |Serialize(tl, x)| == |Serialize(tl, y)| && (Encodable(tl, x) ==> Encodable(tl, y))
  }

  lemma {:induction false} SameSizeLists(tl: Leaves, list: seq<Instruction>, list': seq<Instruction>)
    requires |list| == |list'| && forall i | 0 <= i < |list| :: SameSize(tl, list[i], list'[i])
    ensures |SerializeAll(tl, list)| == |SerializeAll(tl, list')|
    ensures EncodableAll(tl, list) ==> EncodableAll(tl, list')
  {
    if list != [] {
      assert SameSize(tl, list[0], list'[0]);
      SameSizeLists(tl, list[1..], list'[1..]);
    }
  }

  lemma {:induction false} SameItemsSameSize(w: Suite, nodes: seq<SectionKeys>, items: seq<Item>, items': seq<Item>)
    requires BindLaws(w.tl) && SameAll(items, items') && PlacedAll(|nodes|, items) && PlacedAll(|nodes|, items')
    ensures |SerializeAll(w.tl, InsAll(w, nodes, items))| == |SerializeAll(w.tl, InsAll(w, nodes, items'))|
    ensures EncodableAll(w.tl, InsAll(w, nodes, items)) ==> EncodableAll(w.tl, InsAll(w, nodes, items'))
    decreases items, 0
  {
    var list, list' := InsAll(w, nodes, items), InsAll(w, nodes, items');
    forall i | 0 <= i < |items|
      ensures SameSize(w.tl, list[i], list'[i])
    {
      SameItemSameSize(w, nodes, items[i], items'[i]);
    }
    SameSizeLists(w.tl, list, list');
  }

  lemma SameRoutes(w: Suite, nodes: seq<SectionKeys>, items: seq<Item>, items': seq<Item>)
    requires SameAll(items, items') && PlacedAll(|nodes|, items) && PlacedAll(|nodes|, items')
    ensures HasRoute(InsAll(w, nodes, items)) == HasRoute(InsAll(w, nodes, items'))
  {
    var list, list' := InsAll(w, nodes, items), InsAll(w, nodes, items');
    forall i | 0 <= i < |items|
      ensures list[i].Route? == list'[i].Route? && list[i] in list && list'[i] in list'
    {
      assert SameItem(items[i], items'[i]);
    }
    if x :| x in list && x.Route? {
      var i :| 0 <= i < |list| && list[i] == x;
      assert list'[i].Route?;
    }
    if x :| x in list' && x.Route? {
      var i :| 0 <= i < |list'| && list'[i] == x;
      assert list[i].Route?;
    }
  }

  /** Sealing a rebuilt layer around a rebuilt rest rebuilds the whole. */
  lemma SealSame(w: Suite, nodes: seq<SectionKeys>, o: Nest, s: nat, seqno: uint32, salt: bytes, made: seq<Item>, tail: Nest)
    requires BindLaws(w.tl) && o.Shell? && Placed(|nodes|, o, s) && Built(w, nodes, o, s)
    requires SameAll(o.items, made) && PlacedAll(|nodes|, made) && BuiltAll(w, nodes, made)
    requires Same(o.rest, tail) && Placed(|nodes|, tail, s + 1) && Built(w, nodes, tail, s + 1)
    requires |salt| == 8
    ensures var o' := Shell(seqno, salt, made, tail);
            && Same(o, o') && Placed(|nodes|, o', s) && Built(w, nodes, o', s)
            && Write(w, nodes, o', s) == Seal(w, nodes[s], seqno, salt, InsAll(w, nodes, made), Write(w, nodes, tail, s + 1))
  {
    SameItemsSameSize(w, nodes, o.items, made);
    SameRoutes(w, nodes, o.items, made);
  }

  // ---------------------------------------------------------------------------------------
  // Numbers
  // ---------------------------------------------------------------------------------------

  /** Layers, nested ones included: the numbers a rebuild uses up. */
  function Layers(o: Nest): nat
    decreases o, 1
  {
    if o.End? then 0 else 1 + LayersAll(o.items) + Layers(o.rest)
  }

  function LayersAll(items: seq<Item>): nat
    decreases items, 0
  {
    if items == [] then 0
    else
      var last := |items| - 1;
      LayersAll(items[..last]) + if items[last].Bind? then Layers(items[last].inbound) else 0
  }

  function LayersOf(it: Item): nat {
    if it.Bind? then Layers(it.inbound) else 0
  }

  lemma {:induction false} LayersUpTo(items: seq<Item>, y: nat)
    requires y < |items|
    ensures LayersAll(items[..y + 1]) == LayersAll(items[..y]) + LayersOf(items[y]) <= LayersAll(items)
    decreases |items| - y
  {
    assert items[..y + 1][..y] == items[..y];
    if y + 1 == |items| {
      assert items[..y + 1] == items;
    } else {
      LayersUpTo(items, y + 1);
    }
  }

  /** Counters without wrap-around: at least as far as before, and by at most n further. */
  predicate Grown(before: seq<nat>, now: seq<nat>, n: nat) {
    |before| == |now| && forall k: nat | k < |now| :: before[k] <= now[k] <= before[k] + n
  }

  lemma GrownTwice(before: seq<nat>, mid: seq<nat>, now: seq<nat>, n: nat, m: nat)
    requires Grown(before, mid, n) && Grown(mid, now, m)
    ensures Grown(before, now, n + m)
  {
  }

  /** The number is the low 32 bits of one issued after `lo`, up to `hi`. */
  predicate IssuedNumber(n: uint32, lo: nat, hi: nat) {
    exists k: nat {:trigger k % TWO_32} :: lo < k <= hi && k % TWO_32 == n
  }

  /** Every layer's number was issued by its node's counter between `lo` and `hi`. */
  predicate Issued(o: Nest, s: nat, lo: seq<nat>, hi: seq<nat>)
    requires |lo| == |hi| && Placed(|lo|, o, s)
    decreases o, 1
  {
    o.Shell? ==> IssuedNumber(o.seqno, lo[s], hi[s]) && IssuedAll(o.items, lo, hi) && Issued(o.rest, s + 1, lo, hi)
  }

  predicate IssuedItem(it: Item, lo: seq<nat>, hi: seq<nat>)
    requires |lo| == |hi| && PlacedItem(|lo|, it)
    decreases it, 0
  {
    it.Bind? ==> Issued(it.inbound, it.at, lo, hi)
  }

  predicate IssuedAll(items: seq<Item>, lo: seq<nat>, hi: seq<nat>)
    requires |lo| == |hi| && PlacedAll(|lo|, items)
    decreases items, 0
  {
    forall i | 0 <= i < |items| :: IssuedItem(items[i], lo, hi)
  }

  /** The interval from lo' to hi' encloses the one from lo to hi, at every node. */
  predicate Encloses(lo': seq<nat>, lo: seq<nat>, hi: seq<nat>, hi': seq<nat>) {
    |lo'| == |lo| == |hi| == |hi'| && forall k: nat | k < |lo| :: lo'[k] <= lo[k] && hi[k] <= hi'[k]
  }

  lemma {:induction false} Widened(o: Nest, s: nat, lo': seq<nat>, lo: seq<nat>, hi: seq<nat>, hi': seq<nat>)
    requires Encloses(lo', lo, hi, hi') && Placed(|lo|, o, s) && Issued(o, s, lo, hi)
    ensures Issued(o, s, lo', hi')
    decreases o, 1
  {
    if o.Shell? {
      var k: nat :| lo[s] < k <= hi[s] && k % TWO_32 == o.seqno;
      assert lo'[s] < k <= hi'[s];
      WidenedAll(o.items, lo', lo, hi, hi');
      Widened(o.rest, s + 1, lo', lo, hi, hi');
    }
  }

  lemma {:induction false} WidenedAll(items: seq<Item>, lo': seq<nat>, lo: seq<nat>, hi: seq<nat>, hi': seq<nat>)
    requires Encloses(lo', lo, hi, hi') && PlacedAll(|lo|, items) && IssuedAll(items, lo, hi)
    ensures IssuedAll(items, lo', hi')
    decreases items, 0
  {
    forall i | 0 <= i < |items|
      ensures IssuedItem(items[i], lo', hi')
    {
      assert IssuedItem(items[i], lo, hi);
      if items[i].Bind? {
        Widened(items[i].inbound, items[i].at, lo', lo, hi, hi');
      }
    }
  }

  /** Every layer's number is at most its node's counter. */
  predicate Numbered(o: Nest, s: nat, seqnos: seq<uint32>)
    requires Placed(|seqnos|, o, s)
    decreases o, 1
  {
    o.Shell? ==> o.seqno <= seqnos[s] && NumberedAll(o.items, seqnos) && Numbered(o.rest, s + 1, seqnos)
  }

  predicate NumberedItem(it: Item, seqnos: seq<uint32>)
    requires PlacedItem(|seqnos|, it)
    decreases it, 0
  {
    it.Bind? ==> Numbered(it.inbound, it.at, seqnos)
  }

  predicate NumberedAll(items: seq<Item>, seqnos: seq<uint32>)
    requires PlacedAll(|seqnos|, items)
    decreases items, 0
  {
    forall i | 0 <= i < |items| :: NumberedItem(items[i], seqnos)
  }

  /** In every layer of the same onion, the second number is larger. */
  predicate Larger(o: Nest, o': Nest)
    requires Same(o, o')
    decreases o, 1
  {
    o.Shell? ==> o.seqno < o'.seqno && LargerAll(o.items, o'.items) && Larger(o.rest, o'.rest)
  }

  predicate LargerItem(it: Item, it': Item)
    requires SameItem(it, it')
    decreases it, 0
  {
    it.Bind? ==> Larger(it.inbound, it'.inbound)
  }

  predicate LargerAll(items: seq<Item>, items': seq<Item>)
    requires SameAll(items, items')
    decreases items, 0
  {
    forall i | 0 <= i < |items| :: LargerItem(items[i], items'[i])
  }

  /** The counters stand at `seqnos`, and n more numbers fit each. */
  predicate Room(seqnos: seq<uint32>, lo: seq<nat>, hi: seq<nat>, n: nat) {
    && |seqnos| == |lo| && Grown(lo, hi, n)
    && forall k: nat | k < |seqnos| :: seqnos[k] == lo[k] % TWO_32 && seqnos[k] + n < TWO_32
  }

  lemma LaterIsLarger(seqno: uint32, now: uint32, fresh': uint32, lo: nat, hi: nat, n: nat)
    requires seqno <= now == lo % TWO_32 && now + n < TWO_32 && hi <= lo + n && IssuedNumber(fresh', lo, hi)
    ensures seqno < fresh'
  {
    var k: nat :| lo < k <= hi && k % TWO_32 == fresh';
    var turns := lo / TWO_32;
    assert k == turns * TWO_32 + (now + (k - lo));
  }

  /** While no counter wraps, numbers issued since are larger than numbers issued before. */
  lemma {:induction false} IssuedIsLarger(o: Nest, o': Nest, s: nat, seqnos: seq<uint32>, lo: seq<nat>, hi: seq<nat>, n: nat)
    requires Room(seqnos, lo, hi, n) && Same(o, o') && Placed(|lo|, o, s) && Placed(|lo|, o', s)
    requires Numbered(o, s, seqnos) && Issued(o', s, lo, hi)
    ensures Larger(o, o')
    decreases o, 1
  {
    if o.Shell? {
      LaterIsLarger(o.seqno, seqnos[s], o'.seqno, lo[s], hi[s], n);
      IssuedIsLarger(o.rest, o'.rest, s + 1, seqnos, lo, hi, n);
      IssuedAreLarger(o.items, o'.items, seqnos, lo, hi, n);
    }
  }

  lemma {:induction false} IssuedAreLarger(items: seq<Item>, items': seq<Item>, seqnos: seq<uint32>, lo: seq<nat>, hi: seq<nat>, n: nat)
    requires Room(seqnos, lo, hi, n) && SameAll(items, items') && PlacedAll(|lo|, items) && PlacedAll(|lo|, items')
    requires NumberedAll(items, seqnos) && IssuedAll(items', lo, hi)
    ensures LargerAll(items, items')
    decreases items, 0
  {
    forall i | 0 <= i < |items|
      ensures LargerItem(items[i], items'[i])
    {
      assert SameItem(items[i], items'[i]) && IssuedItem(items'[i], lo, hi) && NumberedItem(items[i], seqnos);
      if items[i].Bind? {
        IssuedIsLarger(items[i].inbound, items'[i].inbound, items[i].at, seqnos, lo, hi, n);
      }
    }
  }
}
