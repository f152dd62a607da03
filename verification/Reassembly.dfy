/** `reassembleInstructions`: open a whole onion with the tunnel's own keys, rebuild the onions
    nested in bind instructions, and seal everything again under renewed numbers. */
module Reassembly {
  import opened Arith
  import opened Options
  import opened Bytes
  import opened Codec
  import opened Onion
  import opened Nests

  lemma {:induction false} ParsedBindsAreShort(tl: Leaves, num: nat, data: bytes)
    requires Consumes(tl) && BindLaws(tl) && ParseMany(tl, num, data).Some?
    ensures forall x | x in ParseMany(tl, num, data).value.0 && x.BindOut? :: |x.inbound| <= |data|
    decreases num
  {
    if num > 0 {
      var one := ParseOne(tl, data).value;
      ParsedBindsAreShort(tl, num - 1, one.1);
      var tail := ParseMany(tl, num - 1, one.1).value.0;
      assert ParseMany(tl, num, data).value.0 == [one.0] + tail;
      assert one.0.BindOut? ==> |one.0.inbound| <= |data[4..]|;
    }
  }

  /** Whatever bytes are opened, nested instruction bytes are strictly shorter. */
  lemma OpenedBindsAreShorter(w: Suite, k: SectionKeys, data: bytes)
    requires Consumes(w.tl) && BindLaws(w.tl) && Open(w, k, data).Some?
    ensures forall x | x in Open(w, k, data).value.0.list && x.BindOut? :: |x.inbound| < |data|
  {
    var plain := StreamCipher.Decrypt(w.prim, k.cipherKey, k.keyCrc, data).value;
    ParsedBindsAreShort(w.tl, FromLE4(plain[8..12]), plain[12..]);
  }

  class Tunnel {
    const w: Suite
    const chainTo: seq<SectionKeys>
    const chainFrom: seq<SectionKeys>
    /** The whole circle. */
    const nodes: seq<SectionKeys>
    /** The counter of each section's keys, `chainTo` first. */
    var seqnos: seq<uint32>
    /** The same counters without wrap-around: how many numbers each section issued. */
    ghost var issued: seq<nat>

    ghost predicate Valid()
      reads this
    {
      && Lawful(w.tl) && BindLaws(w.tl)
      && nodes == chainTo + chainFrom
      && |seqnos| == |issued| == |nodes|
      && forall k: nat | k < |nodes| :: seqnos[k] == issued[k] % TWO_32
    }

    predicate DistinctSections() {
      forall i, j | 0 <= i < j < |nodes| :: nodes[i].pub != nodes[j].pub
    }

    constructor (w: Suite, chainTo: seq<SectionKeys>, chainFrom: seq<SectionKeys>)
      requires Lawful(w.tl) && BindLaws(w.tl)
      ensures Valid() && this.w == w && this.chainTo == chainTo && this.chainFrom == chainFrom
      ensures forall k | 0 <= k < |seqnos| :: seqnos[k] == 0
    {
      this.w, this.chainTo, this.chainFrom, this.nodes := w, chainTo, chainFrom, chainTo + chainFrom;
      seqnos := seq(|chainTo| + |chainFrom|, _ => 0);
      issued := seq(|chainTo| + |chainFrom|, _ => 0);
    }

    /** The first section with this key, and the one after it on the circle. */
    method ResolveSection(key: bytes) returns (sec: Option<nat>, next: Option<nat>)
      requires Valid()
      ensures sec.None? ==> forall i | 0 <= i < |nodes| :: nodes[i].pub != key
      ensures sec.Some? ==>
                && sec.value < |nodes| && nodes[sec.value].pub == key
                && forall i | 0 <= i < sec.value :: nodes[i].pub != key
      ensures next == if sec.Some? && sec.value + 1 < |nodes| then Some(sec.value + 1) else None
    {
      for i := 0 to |chainTo|
        invariant forall j | 0 <= j < i :: nodes[j].pub != key
      {
        if chainTo[i].pub == key {
          assert nodes[i] == chainTo[i];
          next := None;
          if i + 1 < |chainTo| {
            next := Some(i + 1);
          } else if |chainFrom| > 0 {
            next := Some(|chainTo|);
          }
          return Some(i), next;
        }
        assert nodes[i] == chainTo[i];
      }
      for i := 0 to |chainFrom|
        invariant forall j | 0 <= j < |chainTo| + i :: nodes[j].pub != key
      {
        assert nodes[|chainTo| + i] == chainFrom[i];
        if chainFrom[i].pub == key {
          next := if i + 1 < |chainFrom| then Some(|chainTo| + i + 1) else None;
          return Some(|chainTo| + i), next;
        }
      }
      return None, None;
    }

    /** `EncryptInstructionsMessage` with the keys of section i. */
    method SealAt(i: nat, list: seq<Instruction>, rest: bytes) returns (r: Option<bytes>, ghost salt: bytes)
      requires Valid() && i < |nodes|
      modifies this`seqnos, this`issued
      ensures Valid()
      ensures list == [] ==> r.None? && issued == old(issued)
      ensures list != [] ==>
                && |salt| == 8
                && issued == old(issued)[i := old(issued[i]) + 1]
                && r == Some(Seal(w, nodes[i], seqnos[i], salt, list, rest))
    {
      var next;
      r, next, salt := SealNext(w, nodes[i], seqnos[i], list, rest);
      if r.Some? {
        NextNumber(issued[i]);
        seqnos, issued := seqnos[i := next], issued[i := issued[i] + 1];
      }
    }

    /** `items` says what `list` is. */
    ghost predicate Spells(list: seq<Instruction>, items: seq<Item>) {
      PlacedAll(|nodes|, items) && list == InsAll(w, nodes, items) && BuiltAll(w, nodes, items)
    }

    ghost predicate SpellsItem(x: Instruction, it: Item) {
      PlacedItem(|nodes|, it) && x == Ins(w, nodes, it) && BuiltItem(w, nodes, it)
    }

    /** `o`, starting at node s, is what `data` for section `key` is. */
    ghost predicate SpellsOnion(key: bytes, data: bytes, o: Nest, s: nat) {
      && o.Shell? && Placed(|nodes|, o, s) && key == nodes[s].pub
      && data == Write(w, nodes, o, s) && Built(w, nodes, o, s)
    }

    /** One instruction: only a bind changes, by rebuilding the onion nested in it. */
    method ReassembleItem(x: Instruction, ghost honest: bool, ghost it: Item, ghost bound: nat)
      returns (r: Option<Instruction>, ghost it': Item)
      requires Valid() && DistinctSections()
      requires x.BindOut? ==> |x.inbound| < bound
      requires honest ==> SpellsItem(x, it)
      modifies this`seqnos, this`issued
      ensures Valid()
      ensures honest ==> Grown(old(issued), issued, LayersOf(it))
      ensures honest ==> r.Some? && SameItem(it, it') && SpellsItem(r.value, it') && IssuedItem(it', old(issued), issued)
      decreases bound, 0
    {
      it' := it;
      if !x.BindOut? {
        return Some(x), it;
      }
      ghost var nested := if honest then it.inbound else End;
      var inner, nested' := Reassemble(x.section, x.inbound, honest, nested, if honest then it.at else 0);
      if inner.None? {
        return None, it;
      }
      if honest {
        it' := it.(inbound := nested');
      }
      r := Some(x.(inbound := inner.value.1));
    }

    ghost predicate ItemDone(it: Item, it': Item, x: Instruction) {
      SameItem(it, it') && SpellsItem(x, it')
    }

    ghost predicate AllDone(items: seq<Item>, made: seq<Item>, out: seq<Instruction>) {
      |items| == |made| == |out| && forall j | 0 <= j < |items| :: ItemDone(items[j], made[j], out[j])
    }

    lemma OneMoreDone(items: seq<Item>, made: seq<Item>, out: seq<Instruction>, y: nat, it': Item, x: Instruction)
      requires y < |items| && AllDone(items[..y], made, out) && ItemDone(items[y], it', x)
      ensures AllDone(items[..y + 1], made + [it'], out + [x])
    {
      forall j | 0 <= j < y + 1
        ensures ItemDone(items[..y + 1][j], (made + [it'])[j], (out + [x])[j])
      {
        if j < y {
          assert ItemDone(items[..y][j], made[j], out[j]);
        }
      }
    }

    lemma AllDoneSpells(items: seq<Item>, made: seq<Item>, out: seq<Instruction>)
      requires AllDone(items, made, out)
      ensures SameAll(items, made) && Spells(out, made)
    {
      forall j | 0 <= j < |items|
        ensures SameItem(items[j], made[j]) && SpellsItem(out[j], made[j])
      {
        assert ItemDone(items[j], made[j], out[j]);
      }
      assert PlacedAll(|nodes|, made);
      assert out == InsAll(w, nodes, made);
    }

    lemma SpelledItem(list: seq<Instruction>, items: seq<Item>, y: nat)
      requires Spells(list, items) && y < |items|
      ensures SpellsItem(list[y], items[y])
    {
    }

    /** The inner loop over one container's instructions; `more` tells whether it routes on. */
    method ReassembleList(list: seq<Instruction>, ghost honest: bool, ghost items: seq<Item>, ghost bound: nat)
      returns (r: Option<seq<Instruction>>, more: bool, ghost made: seq<Item>)
      requires Valid() && DistinctSections()
      requires forall x | x in list && x.BindOut? :: |x.inbound| < bound
      requires honest ==> Spells(list, items)
      modifies this`seqnos, this`issued
      ensures Valid()
      ensures r.Some? ==> more == HasRoute(list)
      ensures honest ==> Grown(old(issued), issued, LayersAll(items))
      ensures honest ==> r.Some? && SameAll(items, made) && Spells(r.value, made) && IssuedAll(made, old(issued), issued)
      decreases bound, 1
    {
      var out: seq<Instruction> := [];
      more := false;
      made := [];
      for y := 0 to |list|
        invariant Valid() && |out| == y
        invariant more == HasRoute(list[..y])
        invariant honest ==> |made| == y && AllDone(items[..y], made, out) && NewIssued(made, old(issued), issued)
        invariant honest ==> Grown(old(issued), issued, LayersAll(items[..y]))
      {
        assert list[y] in list;
        HasRouteAppend(list[..y], list[y]);
        assert list[..y + 1] == list[..y] + [list[y]];
        ghost var it, mid := Plain(list[y]), issued;
        if honest {
          it := items[y];
          LayersUpTo(items, y);
          SpelledItem(list, items, y);
        }
        if list[y].Route? {
          more := true;
        }
        var x, it' := ReassembleItem(list[y], honest, it, bound);
        if x.None? {
          return None, false, [];
        }
        if honest {
          OneMoreDone(items, made, out, y, it', x.value);
          OneMoreIssued(made, it', old(issued), mid, issued, LayersAll(items[..y]), LayersOf(it));
        }
        out, made := out + [x.value], made + [it'];
      }
      assert list[..|list|] == list;
      if honest {
        assert items[..|items|] == items;
        AllDoneSpells(items, made, out);
      }
      r := Some(out);
    }

    ghost predicate NewIssued(made: seq<Item>, lo: seq<nat>, hi: seq<nat>) {
      |lo| == |hi| == |nodes| && PlacedAll(|nodes|, made) && IssuedAll(made, lo, hi)
    }

    lemma OneMoreIssued(made: seq<Item>, it: Item, lo: seq<nat>, mid: seq<nat>, hi: seq<nat>, n: nat, m: nat)
      requires NewIssued(made, lo, mid) && PlacedItem(|nodes|, it) && Grown(lo, mid, n) && Grown(mid, hi, m)
      requires IssuedItem(it, mid, hi)
      ensures NewIssued(made + [it], lo, hi) && Grown(lo, hi, n + m)
    {
      GrownTwice(lo, mid, hi, n, m);
      WidenedAll(made, lo, lo, mid, hi);
      if it.Bind? {
        Widened(it.inbound, it.at, lo, mid, hi, hi);
      }
    }

    /** Layer i of an onion being taken apart: the original, what it was rebuilt to, its section. */
    ghost predicate DecodedAt(shells: seq<Nest>, made: seq<seq<Item>>, lists: seq<seq<Instruction>>, secs: seq<nat>, s: nat, i: nat)
      requires i < |made| && |shells| == |made| + 1 && |lists| == |secs| == |made|
    {
      && shells[i].Shell? && shells[i + 1] == shells[i].rest && secs[i] == s + i
      && SameAll(shells[i].items, made[i]) && Spells(lists[i], made[i])
    }

    ghost predicate Remains(o: Nest, s: nat) {
      Placed(|nodes|, o, s) && Built(w, nodes, o, s)
    }

    ghost predicate Decoded(o: Nest, s: nat, shells: seq<Nest>, made: seq<seq<Item>>,
                            lists: seq<seq<Instruction>>, secs: seq<nat>)
    {
      && |shells| == |made| + 1 && |lists| == |secs| == |made| && shells[0] == o
      && (forall i: nat | i < |made| :: DecodedAt(shells, made, lists, secs, s, i))
      && (forall i: nat | i <= |made| :: Remains(shells[i], s + i))
      && Layers(shells[|made|]) + |made| <= Layers(o)
    }

    /** Finding the section of a message and opening its layer. */
    method OpenLayer(key: bytes, data: bytes, ghost honest: bool, ghost o: Nest, ghost s: nat)
      returns (ok: bool, sec: nat, after: Option<nat>, list: seq<Instruction>, rest: bytes)
      requires Valid() && DistinctSections() && (honest ==> SpellsOnion(key, data, o, s))
      ensures ok ==> sec < |nodes| && |rest| < |data| && (after.Some? ==> after.value < |nodes|)
      ensures ok ==> forall x | x in list && x.BindOut? :: |x.inbound| < |data|
      ensures honest ==> ok && sec == s && Spells(list, o.items) && rest == Write(w, nodes, o.rest, s + 1)
      ensures honest ==> after == if s + 1 < |nodes| then Some(s + 1) else None
    {
      ok, sec, list, rest := false, 0, [], [];
      var found;
      found, after := ResolveSection(key);
      if found.None? {
        return;
      }
      sec := found.value;
      if honest {
        OpenShell(w, nodes, o, s);
        assert sec == s;
        assert Spells(InsAll(w, nodes, o.items), o.items);
      }
      var layer := Open(w, nodes[sec], data);
      if layer.None? {
        return;
      }
      OpenedBindsAreShorter(w, nodes[sec], data);
      ok, list, rest := true, layer.value.0.list, layer.value.1;
    }

    lemma RoutesOnExactly(o: Nest, s: nat, list: seq<Instruction>)
      requires o.Shell? && Placed(|nodes|, o, s) && Built(w, nodes, o, s) && list == InsAll(w, nodes, o.items)
      ensures HasRoute(list) && s + 1 < |nodes| <==> o.rest.Shell?
    {
    }

    /** One turn of the outer loop: open a layer with its section's keys and rebuild its list. */
    method DecodeLayer(key: bytes, data: bytes, ghost honest: bool, ghost o: Nest, ghost s: nat)
      returns (ok: bool, sec: nat, list: seq<Instruction>, rest: bytes, next: Option<nat>, ghost made: seq<Item>)
      requires Valid() && DistinctSections()
      requires honest ==> SpellsOnion(key, data, o, s)
      modifies this`seqnos, this`issued
      ensures Valid()
      ensures ok ==> sec < |nodes| && |rest| < |data| && (next.Some? ==> next.value < |nodes|)
      ensures honest ==> Grown(old(issued), issued, LayersAll(o.items)) && NewIssued(made, old(issued), issued)
      ensures honest ==> ok && sec == s && SameAll(o.items, made) && Spells(list, made)
      ensures honest ==> next == if o.rest.Shell? then Some(s + 1) else None
      ensures honest ==> rest == Write(w, nodes, o.rest, s + 1)
      decreases |data|, 2
    {
      sec, list, rest, next, made := 0, [], [], None, [];
      var after, received;
      ok, sec, after, received, rest := OpenLayer(key, data, honest, o, s);
      if !ok {
        return;
      }
      if honest {
        RoutesOnExactly(o, s, received);
      }
      var rebuilt, more, items := ReassembleList(received, honest, if honest then o.items else [], |data|);
      if rebuilt.None? {
        return false, sec, [], rest, None, [];
      }
      list, made := rebuilt.value, items;
      next := if more then after else None;
    }

    /** The nested onions of all layers carry numbers issued since `before`. */
    ghost predicate AllIssued(made: seq<seq<Item>>, before: seq<nat>, now: seq<nat>) {
      forall i: nat | i < |made| :: NewIssued(made[i], before, now)
    }

    lemma StillIssued(made: seq<seq<Item>>, before: seq<nat>, mid: seq<nat>, now: seq<nat>, n: nat)
      requires AllIssued(made, before, mid) && Grown(mid, now, n)
      ensures AllIssued(made, before, now)
    {
      forall i: nat | i < |made|
        ensures NewIssued(made[i], before, now)
      {
        assert NewIssued(made[i], before, mid);
        WidenedAll(made[i], before, before, mid, now);
      }
    }

    /** The outer loop so far: layers taken apart, and numbers issued for nested onions. */
    ghost predicate Progress(before: seq<nat>, now: seq<nat>, o: Nest, s: nat, shells: seq<Nest>,
                             made: seq<seq<Item>>, lists: seq<seq<Instruction>>, secs: seq<nat>)
    {
      && Decoded(o, s, shells, made, lists, secs)
      && Grown(before, now, Layers(o) - Layers(shells[|made|]) - |made|)
      && AllIssued(made, before, now)
    }

    lemma ProgressStep(before: seq<nat>, mid: seq<nat>, now: seq<nat>, o: Nest, s: nat, shells: seq<Nest>,
                       made: seq<seq<Item>>, lists: seq<seq<Instruction>>, secs: seq<nat>,
                       cur: Nest, sec: nat, items: seq<Item>, list: seq<Instruction>)
      requires Progress(before, mid, o, s, shells, made, lists, secs) && cur == shells[|made|] && cur.Shell?
      requires sec == s + |made| && SameAll(cur.items, items) && Spells(list, items)
      requires Grown(mid, now, LayersAll(cur.items)) && NewIssued(items, mid, now)
      ensures Progress(before, now, o, s, shells + [cur.rest], made + [items], lists + [list], secs + [sec])
      ensures Remains(cur.rest, sec + 1)
    {
      assert Layers(cur) == 1 + LayersAll(cur.items) + Layers(cur.rest);
      GrownTwice(before, mid, now, Layers(o) - Layers(cur) - |made|, LayersAll(cur.items));
      DecodedStep(o, s, shells, made, lists, secs, items, list, sec);
      RemainingAt(o, s, shells + [cur.rest], made + [items], lists + [list], secs + [sec]);
      StillIssued(made, before, mid, now, LayersAll(cur.items));
      WidenedAll(items, before, mid, now, now);
      assert AllIssued(made + [items], before, now) by {
        assert forall i: nat | i < |made| :: NewIssued(made[i], before, now);
      }
    }

    /** Where the outer loop stands: what is left to open, if anything. */
    ghost predicate Standing(more: bool, key: bytes, rest: bytes, left: Nest, at: nat) {
      if more then SpellsOnion(key, rest, left, at) else left.End?
    }

    lemma StandingAfter(left: Nest, at: nat, next: Option<nat>, more: bool, key: bytes, rest: bytes)
      requires Remains(left, at) && rest == Write(w, nodes, left, at)
      requires next == (if left.Shell? then Some(at) else None) && more == next.Some?
      requires more ==> at < |nodes| && key == nodes[at].pub
      ensures Standing(more, key, rest, left, at)
    {
      if more {
        RestSpells(left, at, key, rest);
      }
    }

    /** The state of the outer loop: layers taken apart, and the message `rest` for section `key`
        still to open, if there is more. */
    ghost predicate Decoding(before: seq<nat>, now: seq<nat>, o: Nest, s: nat, shells: seq<Nest>, made: seq<seq<Item>>,
                             lists: seq<seq<Instruction>>, secs: seq<nat>, more: bool, key: bytes, rest: bytes)
    {
      && Progress(before, now, o, s, shells, made, lists, secs)
      && Standing(more, key, rest, shells[|made|], s + |made|)
    }

    lemma DecodingStarts(now: seq<nat>, o: Nest, s: nat, key: bytes, data: bytes)
      requires |now| == |nodes| && SpellsOnion(key, data, o, s)
      ensures Decoding(now, now, o, s, [o], [], [], [], true, key, data)
    {
    }

    lemma DecodingStands(before: seq<nat>, now: seq<nat>, o: Nest, s: nat, shells: seq<Nest>, made: seq<seq<Item>>,
                         lists: seq<seq<Instruction>>, secs: seq<nat>, left: Nest, at: nat, more: bool, key: bytes, rest: bytes)
      requires Progress(before, now, o, s, shells, made, lists, secs) && Standing(more, key, rest, left, at)
      requires left == shells[|made|] && at == s + |made|
      ensures Decoding(before, now, o, s, shells, made, lists, secs, more, key, rest)
    {
    }

    lemma DecodingStep(before: seq<nat>, mid: seq<nat>, now: seq<nat>, o: Nest, s: nat, shells: seq<Nest>,
                       made: seq<seq<Item>>, lists: seq<seq<Instruction>>, secs: seq<nat>, cur: Nest, at: nat,
                       items: seq<Item>, list: seq<Instruction>, next: Option<nat>, more: bool, key: bytes, rest: bytes)
      requires Progress(before, mid, o, s, shells, made, lists, secs) && cur == shells[|made|] && cur.Shell? && at == s + |made|
      requires SameAll(cur.items, items) && Spells(list, items)
      requires Grown(mid, now, LayersAll(cur.items)) && NewIssued(items, mid, now)
      requires next == (if cur.rest.Shell? then Some(at + 1) else None) && more == next.Some?
      requires more ==> at + 1 < |nodes| && key == nodes[at + 1].pub
      requires rest == Write(w, nodes, cur.rest, at + 1)
      ensures Decoding(before, now, o, s, shells + [cur.rest], made + [items], lists + [list], secs + [at], more, key, rest)
    {
      ProgressStep(before, mid, now, o, s, shells, made, lists, secs, cur, at, items, list);
      StandingAfter(cur.rest, at + 1, next, more, key, rest);
      assert |shells| == |made| + 1;
      DecodingStands(before, now, o, s, shells + [cur.rest], made + [items], lists + [list], secs + [at], cur.rest, at + 1, more, key, rest);
    }

    /** One turn of the outer loop, with its bookkeeping. */
    method DecodeTurn(key: bytes, data: bytes, lists: seq<seq<Instruction>>, secs: seq<nat>, ghost honest: bool,
                      ghost before: seq<nat>, ghost o: Nest, ghost s: nat, ghost shells: seq<Nest>, ghost made: seq<seq<Item>>)
      returns (ok: bool, sec: nat, list: seq<Instruction>, rest: bytes, more: bool, nextKey: bytes,
               ghost left: Nest, ghost items: seq<Item>)
      requires Valid() && DistinctSections()
      requires honest ==> Decoding(before, issued, o, s, shells, made, lists, secs, true, key, data)
      modifies this`seqnos, this`issued
      ensures Valid()
      ensures ok ==> sec < |nodes| && |rest| < |data|
      ensures honest ==>
                ok && Decoding(before, issued, o, s, shells + [left], made + [items], lists + [list], secs + [sec], more, nextKey, rest)
      decreases |data|, 3
    {
      ghost var mid, cur, at := issued, if honest then shells[|made|] else End, if honest then s + |made| else 0;
      var next: Option<nat>;
      ok, sec, list, rest, next, items := DecodeLayer(key, data, honest, cur, at);
      more, nextKey, left := false, [], if honest then cur.rest else End;
      if !ok {
        return;
      }
      if next.Some? {
        more, nextKey := true, nodes[next.value].pub;
      }
      if honest {
        DecodingStep(before, mid, issued, o, s, shells, made, lists, secs, cur, at, items, list, next, more, nextKey, rest);
      }
    }

    /** The outer loop: layer after layer while the message routes on. */
    method DecodeLayers(key: bytes, data: bytes, ghost honest: bool, ghost o: Nest, ghost s: nat)
      returns (ok: bool, lists: seq<seq<Instruction>>, secs: seq<nat>, ghost shells: seq<Nest>, ghost made: seq<seq<Item>>)
      requires Valid() && DistinctSections()
      requires honest ==> SpellsOnion(key, data, o, s)
      modifies this`seqnos, this`issued
      ensures Valid()
      ensures ok ==> |lists| == |secs| && forall i | 0 <= i < |secs| :: secs[i] < |nodes|
      ensures honest ==> ok && Progress(old(issued), issued, o, s, shells, made, lists, secs) && shells[|made|].End?
      decreases |data|, 4
    {
      ok, lists, secs, shells, made := false, [], [], [o], [];
      var sectionKey, rest, more := key, data, true;
      if honest {
        DecodingStarts(issued, o, s, key, data);
      }
      while more
        invariant Valid() && |rest| <= |data|
        invariant |lists| == |secs| && forall i | 0 <= i < |secs| :: secs[i] < |nodes|
        invariant honest ==> Decoding(old(issued), issued, o, s, shells, made, lists, secs, more, sectionKey, rest)
        decreases |rest|, more
      {
        var fine, sec, list, after, on, nextKey, left, items :=
          DecodeTurn(sectionKey, rest, lists, secs, honest, old(issued), o, s, shells, made);
        if !fine {
          return;
        }
        lists, secs, made, shells := lists + [list], secs + [sec], made + [items], shells + [left];
        sectionKey, rest, more := nextKey, after, on;
      }
      ok := true;
    }

    lemma RestSpells(o: Nest, s: nat, key: bytes, data: bytes)
      requires Remains(o, s) && o.Shell? && s < |nodes| && key == nodes[s].pub && data == Write(w, nodes, o, s)
      ensures SpellsOnion(key, data, o, s)
    {
    }

    lemma RemainingAt(o: Nest, s: nat, shells: seq<Nest>, made: seq<seq<Item>>,
                      lists: seq<seq<Instruction>>, secs: seq<nat>)
      requires Decoded(o, s, shells, made, lists, secs)
      ensures Remains(shells[|made|], s + |made|)
    {
    }

    lemma DecodedStep(o: Nest, s: nat, shells: seq<Nest>, made: seq<seq<Item>>,
                      lists: seq<seq<Instruction>>, secs: seq<nat>, items: seq<Item>, list: seq<Instruction>, sec: nat)
      requires Decoded(o, s, shells, made, lists, secs) && shells[|made|].Shell?
      requires sec == s + |made| && SameAll(shells[|made|].items, items) && Spells(list, items)
      ensures Decoded(o, s, shells + [shells[|made|].rest], made + [items], lists + [list], secs + [sec])
    {
      var cur := shells[|made|];
      var shells', made', lists', secs' := shells + [cur.rest], made + [items], lists + [list], secs + [sec];
      forall i: nat | i < |made'|
        ensures DecodedAt(shells', made', lists', secs', s, i)
      {
        if i < |made| {
          assert DecodedAt(shells, made, lists, secs, s, i);
        }
      }
      forall i: nat | i <= |made'|
        ensures Remains(shells'[i], s + i)
      {
        assert Remains(shells[if i <= |made| then i else |made|], s + if i <= |made| then i else |made|);
      }
    }

    /** One rebuilt layer, before it is sealed around `tail`. */
    ghost predicate ReadyToSeal(list: seq<Instruction>, out: bytes, shell: Nest, made: seq<Item>, tail: Nest, s: nat) {
      && shell.Shell? && Placed(|nodes|, shell, s) && Built(w, nodes, shell, s)
      && SameAll(shell.items, made) && Spells(list, made)
      && SealedSoFar(out, shell.rest, tail, s + 1)
    }

    ghost predicate SealedSoFar(out: bytes, shell: Nest, o': Nest, s: nat) {
      && Same(shell, o') && Placed(|nodes|, o', s) && Built(w, nodes, o', s)
      && out == Write(w, nodes, o', s)
    }

    /** Sealing one rebuilt layer. */
    method EncodeLayer(sec: nat, list: seq<Instruction>, out: bytes, ghost honest: bool,
                       ghost at: nat, ghost shell: Nest, ghost made: seq<Item>, ghost tail: Nest)
      returns (r: Option<bytes>, ghost o': Nest)
      requires Valid() && sec < |nodes|
      requires honest ==> sec == at && ReadyToSeal(list, out, shell, made, tail, at)
      modifies this`seqnos, this`issued
      ensures Valid()
      ensures honest ==> issued == old(issued)[at := old(issued)[at] + 1]
      ensures honest ==> r.Some? && SealedSoFar(r.value, shell, o', at)
      ensures honest ==> o' == Shell(seqnos[at], o'.salt, made, tail)
    {
      var sealed, salt := SealAt(sec, list, out);
      r, o' := sealed, End;
      if honest {
        SealSame(w, nodes, shell, at, seqnos[at], salt, made, tail);
        o' := Shell(seqnos[at], salt, made, tail);
      }
    }

    lemma ReadyAt(o: Nest, s: nat, shells: seq<Nest>, made: seq<seq<Item>>,
                  lists: seq<seq<Instruction>>, secs: seq<nat>, i: nat, out: bytes, tail: Nest)
      requires Decoded(o, s, shells, made, lists, secs) && i < |made|
      requires SealedSoFar(out, shells[i + 1], tail, s + i + 1)
      ensures secs[i] == s + i < |nodes| && ReadyToSeal(lists[i], out, shells[i], made[i], tail, s + i)
    {
      assert DecodedAt(shells, made, lists, secs, s, i) && Remains(shells[i], s + i);
    }

    /** What is sealed so far carries numbers issued since `before`. */
    ghost predicate Fresh(o: Nest, s: nat, before: seq<nat>, now: seq<nat>) {
      |before| == |now| == |nodes| && Placed(|nodes|, o, s) && Issued(o, s, before, now)
    }

    lemma OneMoreFresh(seqno: uint32, salt: bytes, made: seq<Item>, tail: Nest, s: nat, before: seq<nat>, mid: seq<nat>, now: seq<nat>, n: nat)
      requires NewIssued(made, before, mid) && Fresh(tail, s + 1, before, mid) && Grown(before, mid, n)
      requires s < |mid| && now == mid[s := mid[s] + 1] && seqno == now[s] % TWO_32 && |salt| == 8
      ensures Fresh(Shell(seqno, salt, made, tail), s, before, now) && Grown(before, now, n + 1)
    {
      WidenedAll(made, before, before, mid, now);
      Widened(tail, s + 1, before, before, mid, now);
      assert before[s] < now[s] && now[s] % TWO_32 == seqno;
    }

    lemma SealedSpells(out: bytes, o: Nest, o': Nest, s: nat)
      requires SealedSoFar(out, o, o', s) && o.Shell?
      ensures s < |nodes| && Same(o, o') && SpellsOnion(nodes[s].pub, out, o', s)
    {
    }

    /** Layers i and on are sealed again into `out`, with numbers issued since `before`. */
    ghost predicate SealedDownTo(i: nat, before: seq<nat>, now: seq<nat>, o: Nest, s: nat, shells: seq<Nest>,
                                 made: seq<seq<Item>>, out: bytes, tail: Nest)
    {
      && i <= Layers(o) && Grown(before, now, Layers(o) - i)
      && Fresh(tail, s + i, before, now) && AllIssued(made, before, now)
      && i < |shells| && SealedSoFar(out, shells[i], tail, s + i)
    }

    /** One turn of the descending loop. */
    method EncodeTurn(lists: seq<seq<Instruction>>, secs: seq<nat>, i: nat, out: bytes, ghost before: seq<nat>, ghost honest: bool,
                      ghost o: Nest, ghost s: nat, ghost shells: seq<Nest>, ghost made: seq<seq<Item>>, ghost tail: Nest)
      returns (sealed: Option<bytes>, ghost o': Nest)
      requires Valid() && i < |lists| == |secs| && secs[i] < |nodes|
      requires honest ==> Decoded(o, s, shells, made, lists, secs) && SealedDownTo(i + 1, before, issued, o, s, shells, made, out, tail)
      modifies this`seqnos, this`issued
      ensures Valid()
      ensures honest ==> sealed.Some? && secs[i] == s + i && SealedDownTo(i, before, issued, o, s, shells, made, sealed.value, o')
    {
      ghost var shell, items, mid := End, [], issued;
      if honest {
        ReadyAt(o, s, shells, made, lists, secs, i, out, tail);
        shell, items := shells[i], made[i];
      }
      sealed, o' := EncodeLayer(secs[i], lists[i], out, honest, s + i, shell, items, tail);
      if honest {
        assert NewIssued(made[i], before, mid);
        OneMoreFresh(o'.seqno, o'.salt, items, tail, s + i, before, mid, issued, Layers(o) - (i + 1));
        StillIssued(made, before, mid, issued, 1);
      }
    }

    /** The descending loop: every layer sealed again around what is already sealed. */
    method EncodeLayers(lists: seq<seq<Instruction>>, secs: seq<nat>, ghost before: seq<nat>, ghost honest: bool,
                        ghost o: Nest, ghost s: nat, ghost shells: seq<Nest>, ghost made: seq<seq<Item>>)
      returns (r: Option<(bytes, bytes)>, ghost o': Nest)
      requires Valid() && |lists| == |secs| && forall i | 0 <= i < |secs| :: secs[i] < |nodes|
      requires honest ==> Progress(before, issued, o, s, shells, made, lists, secs) && shells[|made|].End? && o.Shell?
      modifies this`seqnos, this`issued
      ensures Valid()
      ensures honest ==> Grown(before, issued, Layers(o)) && Fresh(o', s, before, issued)
      ensures honest ==> r.Some? && Same(o, o') && SpellsOnion(r.value.0, r.value.1, o', s)
    {
      o' := End;
      var out: bytes := [];
      var key: bytes := [];
      for i := |lists| downto 0
        invariant Valid()
        invariant honest ==> SealedDownTo(i, before, issued, o, s, shells, made, out, o')
        invariant honest && i < |lists| ==> s + i < |nodes| && key == nodes[s + i].pub
      {
        var sealed, o1 := EncodeTurn(lists, secs, i, out, before, honest, o, s, shells, made, o');
        if sealed.None? {
          return None, End;
        }
        o', out, key := o1, sealed.value, nodes[secs[i]].pub;
      }
      if honest {
        SealedSpells(out, o, o', s);
      }
      r := Some((key, out));
    }

    /** For any bytes the method terminates.  For the bytes of an onion this tunnel built, it
        returns the bytes of an onion with the same instructions at every hop, nested ones
        included, every layer under a number issued meanwhile. */
    method Reassemble(key: bytes, data: bytes, ghost honest: bool, ghost o: Nest, ghost s: nat)
      returns (r: Option<(bytes, bytes)>, ghost o': Nest)
      requires Valid() && DistinctSections()
      requires honest ==> SpellsOnion(key, data, o, s)
      modifies this`seqnos, this`issued
      ensures Valid()
      ensures honest ==> Grown(old(issued), issued, Layers(o)) && Fresh(o', s, old(issued), issued)
      ensures honest ==> r.Some? && Same(o, o') && r.value.0 == key && SpellsOnion(key, r.value.1, o', s)
      decreases |data|, 5
    {
      var ok, lists, secs, shells, made := DecodeLayers(key, data, honest, o, s);
      if !ok {
        return None, End;
      }
      r, o' := EncodeLayers(lists, secs, old(issued), honest, o, s, shells, made);
    }

    /** `ReassembleInstructions`, for every onion built over this tunnel, whether or not a counter
        wraps: the result has the length of the input, so the check that panics on a different
        length never fires, the same payload and the same instructions at every hop and depth.
        While no counter wraps, every layer has a larger number. */
    method ReassembleMessage(msg: Message, ghost o: Nest, ghost s: nat) returns (r: Option<Message>, ghost o': Nest)
      requires Valid() && DistinctSections() && SpellsOnion(msg.section, msg.instructions, o, s)
      modifies this`seqnos, this`issued
      ensures Valid()
      ensures r.Some? && r.value.section == msg.section && r.value.payload == msg.payload
      ensures |r.value.instructions| == |msg.instructions|
      ensures Same(o, o') && SpellsOnion(msg.section, r.value.instructions, o', s) && Fresh(o', s, old(issued), issued)
      ensures |old(seqnos)| == |nodes| && (Numbered(o, s, old(seqnos)) && HasRoom(old(seqnos), Layers(o)) ==> Larger(o, o'))
    {
      var rebuilt, renewed := Reassemble(msg.section, msg.instructions, true, o, s);
      SameMeaningSameSize(w, nodes, o, renewed, s);
      assert |rebuilt.value.1| == |msg.instructions|;
      if Numbered(o, s, old(seqnos)) && HasRoom(old(seqnos), Layers(o)) {
        IssuedIsLarger(o, renewed, s, old(seqnos), old(issued), issued, Layers(o));
      }
      r, o' := Some(Message(rebuilt.value.0, rebuilt.value.1, msg.payload)), renewed;
    }
  }

  /** No counter wraps within n numbers. */
  predicate HasRoom(seqnos: seq<uint32>, n: nat) {
    forall k: nat | k < |seqnos| :: seqnos[k] + n < TWO_32
  }

  lemma NextNumber(n: nat)
    ensures Successor(n % TWO_32) == (n + 1) % TWO_32
  {
  }

  lemma HasRouteAppend(list: seq<Instruction>, x: Instruction)
    ensures HasRoute(list + [x]) == (x.Route? || HasRoute(list))
  {
    assert x in list + [x];
    assert forall y | y in list :: y in list + [x];
    assert forall y | y in list + [x] :: y == x || y in list;
  }
}
