/** When a gateway's reference counts are the number of live routes, out ports and tunnels, and
    exactly which instructions and operations keep them so. */
module LiveCounts {
  import opened Limits
  import opened Options
  import opened PeerCounts
  import opened Relay

  /** Who holds a reference: a route or the out port of the section at a key, or a tunnel. */
  datatype Slot = RouteSlot(key: nat, routeId: nat) | OutSlot(key: nat) | TunnelSlot(client: nat)

  function SectionSlots(heap: seq<RouteObject>, k: nat, s: Section, p: PeerRef): set<Slot> {
    (set id | id in RoutesTo(heap, s, p) :: RouteSlot(k, id)) + (if OutTo(s, p) then {OutSlot(k)} else {})
  }

  function TunnelSlots(g: Gate, p: PeerRef): set<Slot> {
    set i | 0 <= i < |g.clients| && !g.clients[i].stopped && g.clients[i].peer == p :: TunnelSlot(i)
  }

  /** The routes and out ports of the sections in the gateway and the tunnels not stopped that lead
      to peer p. */
  function LiveSlots(g: Gate, p: PeerRef): set<Slot>
    requires Sound(g)
  {
    (set k, slot | k in g.inbound && slot in SectionSlots(g.heap, k, g.objects[g.inbound[k]], p) :: slot) + TunnelSlots(g, p)
  }

  function Counts(g: Gate): (c: seq<nat>)
    requires Sound(g)
    ensures |c| == |g.table.peers| && forall p: nat | p < |c| :: c[p] == |LiveSlots(g, p)|
  {
    seq(|g.table.peers|, p requires 0 <= p < |g.table.peers| => |LiveSlots(g, p)|)
  }

  /** Every peer's count is the number of live slots that lead to it, and a referenced peer is the
      active one for its id. */
  predicate Live(g: Gate)
    requires Sound(g)
  {
    g.table.Live(Counts(g))
  }

  // ---------------------------------------------------------------------------------------
  // Counting
  // ---------------------------------------------------------------------------------------

  lemma {:induction false} RouteSlotsSize(k: nat, ids: set<nat>)
    ensures |set id | id in ids :: RouteSlot(k, id)| == |ids|
  {
    var slots := set id | id in ids :: RouteSlot(k, id);
    if ids != {} {
      var x :| x in ids;
      RouteSlotsSize(k, ids - {x});
      assert slots == (set id | id in ids - {x} :: RouteSlot(k, id)) + {RouteSlot(k, x)};
    }
  }

  lemma SectionSlotsSize(heap: seq<RouteObject>, k: nat, s: Section, p: PeerRef)
    ensures |SectionSlots(heap, k, s, p)| == Uses(heap, s, p)
  {
    RouteSlotsSize(k, RoutesTo(heap, s, p));
  }

  /** The gateway without the section at a key. */
  function Without(g: Gate, k: nat): (r: Gate)
    requires Sound(g)
    ensures Sound(r)
  {
    var r := g.(inbound := g.inbound - {k});
    SectionsElsewhere(g, r);
    r
  }

  lemma SectionsElsewhere(g: Gate, r: Gate)
    requires Sound(g) && r == g.(inbound := r.inbound)
    ensures forall ref: nat | ref < |g.objects| :: SectionSound(r, ref, r.objects[ref])
  {
    forall ref: nat | ref < |g.objects|
      ensures SectionSound(r, ref, r.objects[ref])
    {
      assert SectionSound(g, ref, g.objects[ref]);
      SectionStaysSound(g, r, ref, g.objects[ref]);
    }
  }

  lemma SlotsHaveKey(heap: seq<RouteObject>, k: nat, s: Section, p: PeerRef, slot: Slot)
    requires slot in SectionSlots(heap, k, s, p)
    ensures !slot.TunnelSlot? && slot.key == k
  {
  }

  predicate AtKey(g: Gate, k: nat, p: PeerRef, slot: Slot)
    requires Sound(g) && k in g.inbound
  {
    slot in SectionSlots(g.heap, k, g.objects[g.inbound[k]], p)
  }

  lemma LiveExactly(g: Gate, p: PeerRef, slot: Slot)
    requires Sound(g)
    ensures slot in LiveSlots(g, p) <==>
              if slot.TunnelSlot? then slot in TunnelSlots(g, p) else slot.key in g.inbound && AtKey(g, slot.key, p, slot)
  {
    if slot in LiveSlots(g, p) && slot !in TunnelSlots(g, p) {
      var k :| k in g.inbound && slot in SectionSlots(g.heap, k, g.objects[g.inbound[k]], p);
      SlotsHaveKey(g.heap, k, g.objects[g.inbound[k]], p, slot);
    }
  }

  lemma SlotSplits(g: Gate, k: nat, p: PeerRef, slot: Slot)
    requires Sound(g) && k in g.inbound
    ensures slot in LiveSlots(g, p) <==> slot in LiveSlots(Without(g, k), p) || AtKey(g, k, p, slot)
    ensures AtKey(g, k, p, slot) ==> slot !in LiveSlots(Without(g, k), p)
  {
    LiveExactly(g, p, slot);
    LiveExactly(Without(g, k), p, slot);
    if AtKey(g, k, p, slot) {
      SlotsHaveKey(g.heap, k, g.objects[g.inbound[k]], p, slot);
    }
  }

  lemma UnionSize(whole: set<Slot>, a: set<Slot>, b: set<Slot>)
    requires forall slot :: (slot in whole <==> slot in a || slot in b) && !(slot in a && slot in b)
    ensures |whole| == |a| + |b|
  {
    assert whole == a + b;
  }

  lemma LiveSplits(g: Gate, k: nat, p: PeerRef)
    requires Sound(g) && k in g.inbound
    ensures |LiveSlots(g, p)| == |LiveSlots(Without(g, k), p)| + Uses(g.heap, g.objects[g.inbound[k]], p)
  {
    var whole, there, here := LiveSlots(g, p), LiveSlots(Without(g, k), p), SectionSlots(g.heap, k, g.objects[g.inbound[k]], p);
    forall slot
      ensures (slot in whole <==> slot in there || slot in here) && !(slot in there && slot in here)
    {
      SlotSplits(g, k, p, slot);
    }
    UnionSize(whole, there, here);
    SectionSlotsSize(g.heap, k, g.objects[g.inbound[k]], p);
  }

  /** Only section object `ref` and its own routes differ, and perhaps the peers. */
  predicate OnlyObject(g: Gate, g': Gate, ref: nat) {
    && g'.inbound == g.inbound && g'.clients == g.clients
    && ref < |g.objects| && |g'.objects| == |g.objects| && g'.objects == g.objects[ref := g'.objects[ref]]
    && |g.heap| <= |g'.heap|
    && (forall r: nat | r < |g.heap| && g.heap[r].section != ref :: g'.heap[r] == g.heap[r])
  }

  /** A change to a section object outside the gateway changes no live slot. */
  lemma ElsewhereIsSame(g: Gate, g': Gate, ref: nat, p: PeerRef)
    requires Sound(g) && Sound(g') && OnlyObject(g, g', ref)
    requires forall k | k in g.inbound :: g.inbound[k] != ref
    ensures LiveSlots(g', p) == LiveSlots(g, p)
  {
    forall k | k in g.inbound
      ensures SectionSlots(g'.heap, k, g'.objects[g.inbound[k]], p) == SectionSlots(g.heap, k, g.objects[g.inbound[k]], p)
    {
      SameSlots(g, g', ref, g.inbound[k], p);
    }
  }

  lemma SameSlots(g: Gate, g': Gate, ref: nat, q: nat, p: PeerRef)
    requires Sound(g) && OnlyObject(g, g', ref) && q < |g.objects| && q != ref
    ensures RoutesTo(g'.heap, g'.objects[q], p) == RoutesTo(g.heap, g.objects[q], p) && OutTo(g'.objects[q], p) == OutTo(g.objects[q], p)
  {
    var s := g.objects[q];
    assert SectionSound(g, q, s);
    forall id | id in s.routes
      ensures s.routes[id] < |g.heap| && g'.heap[s.routes[id]] == g.heap[s.routes[id]]
    {
      assert RouteSound(g, q, id, s.routes[id]);
    }
  }

  /** A change to the section at key k moves the live counts by what it changes of its uses. */
  lemma CountsMove(g: Gate, g': Gate, k: nat, p: PeerRef)
    requires Sound(g) && Sound(g') && k in g.inbound && OnlyObject(g, g', g.inbound[k])
    ensures |LiveSlots(g', p)| - |LiveSlots(g, p)|
         == Uses(g'.heap, g'.objects[g.inbound[k]], p) - Uses(g.heap, g.objects[g.inbound[k]], p)
  {
    var ref, w, w' := g.inbound[k], Without(g, k), Without(g', k);
    LiveSplits(g, k, p);
    LiveSplits(g', k, p);
    forall j | j in w.inbound
      ensures w.inbound[j] != ref
    {
      assert g.objects[g.inbound[j]].key == j && g.objects[ref].key == k;
    }
    ElsewhereIsSame(w, w', ref, p);
  }

  /** No slot leads to a peer that does not exist. */
  lemma NobodyElse(g: Gate, p: PeerRef)
    requires Sound(g) && p >= |g.table.peers|
    ensures LiveSlots(g, p) == {}
  {
    forall k | k in g.inbound
      ensures SectionSlots(g.heap, k, g.objects[g.inbound[k]], p) == {}
    {
      var ref := g.inbound[k];
      var s := g.objects[ref];
      assert SectionSound(g, ref, s);
      forall id | id in s.routes
        ensures g.heap[s.routes[id]].target.peer < |g.table.peers|
      {
        assert RouteSound(g, ref, id, s.routes[id]);
      }
    }
  }

  /** The peers themselves are no slots. */
  lemma PeersAreNoSlots(g: Gate, t: Table, p: PeerRef)
    requires Sound(g) && Sound(g.(table := t))
    ensures LiveSlots(g.(table := t), p) == LiveSlots(g, p)
  {
  }

  /** The counts when a peer was added: nobody leads to it yet. */
  function Grown(g: Gate, id: Id): (c: seq<nat>)
    requires Sound(g)
    ensures |c| == |g.table.Added(id).peers|
    ensures forall p: nat | p < |c| :: c[p] == |LiveSlots(g, p)|
  {
    if id in g.table.active then Counts(g)
    else
      NobodyElse(g, |g.table.peers|);
      Counts(g) + [0]
  }

  lemma AddedIsLive(g: Gate, id: Id)
    requires Sound(g) && Live(g)
    ensures var t', p := g.table.Added(id), g.table.PeerOf(id);
            && t'.Live(Grown(g, id)) && p < |t'.peers|
            && t'.peers[p].id == id && id in t'.active && t'.active[id] == p
  {
    AddedStaysLive(g.table, id, Counts(g));
  }

  lemma SameCounts(g: Gate, c: seq<nat>)
    requires Sound(g) && |c| == |g.table.peers| && forall p: nat | p < |c| :: c[p] == |LiveSlots(g, p)|
    ensures Counts(g) == c
  {
  }

  lemma AddingStaysLive(g: Gate, id: Id)
    requires Sound(g) && Live(g)
    ensures Sound(g.(table := g.table.Added(id))) && Live(g.(table := g.table.Added(id)))
  {
    var g' := g.(table := g.table.Added(id));
    AddingIsSound(g, id);
    AddedIsLive(g, id);
    forall p: nat | p < |g'.table.peers|
      ensures Grown(g, id)[p] == |LiveSlots(g', p)|
    {
      PeersAreNoSlots(g, g'.table, p);
    }
    SameCounts(g', Grown(g, id));
  }

  // ---------------------------------------------------------------------------------------
  // Instructions of a section in the gateway
  // ---------------------------------------------------------------------------------------

  predicate Attached(g: Gate, ref: nat) {
    ref < |g.objects| && g.objects[ref].key in g.inbound && g.inbound[g.objects[ref].key] == ref
  }

  lemma SizeWith(was: set<nat>, now: set<nat>, x: nat, before: bool, after: bool)
    requires before == (x in was) && after == (x in now) && forall y | y != x :: y in was <==> y in now
    ensures |now| == |was| - (if before then 1 else 0) + (if after then 1 else 0)
  {
    var rest := was - {x};
    assert rest == now - {x};
    assert before ==> was == rest + {x};
    assert after ==> now == rest + {x};
    assert !before ==> was == rest;
    assert !after ==> now == rest;
  }

  lemma UsesOfNew(heap: seq<RouteObject>, s: Section, obj: RouteObject, p: PeerRef)
    requires obj.id !in s.routes && forall id | id in s.routes :: s.routes[id] < |heap|
    ensures Uses(heap + [obj], s.(routes := s.routes[obj.id := |heap|]), p)
         == Uses(heap, s, p) + if obj.target.peer == p then 1 else 0
  {
    var heap', s' := heap + [obj], s.(routes := s.routes[obj.id := |heap|]);
    var was, now := RoutesTo(heap, s, p), RoutesTo(heap', s', p);
    forall y | y != obj.id
      ensures y in was <==> y in now
    {
      assert y in s.routes ==> heap'[s.routes[y]] == heap[s.routes[y]];
    }
    SizeWith(was, now, obj.id, false, obj.target.peer == p);
  }

  lemma UsesOfMoved(heap: seq<RouteObject>, s: Section, id: nat, target: RouteTarget, p: PeerRef)
    requires id in s.routes && forall i | i in s.routes :: s.routes[i] < |heap| && heap[s.routes[i]].id == i
    ensures var r := s.routes[id];
            Uses(heap[r := heap[r].(target := target)], s, p)
              == Uses(heap, s, p) - (if heap[r].target.peer == p then 1 else 0) + (if target.peer == p then 1 else 0)
  {
    var r := s.routes[id];
    var heap' := heap[r := heap[r].(target := target)];
    var was, now := RoutesTo(heap, s, p), RoutesTo(heap', s, p);
    forall y | y != id
      ensures y in was <==> y in now
    {
      assert y in s.routes ==> heap'[s.routes[y]] == heap[s.routes[y]];
    }
    SizeWith(was, now, id, heap[r].target.peer == p, target.peer == p);
  }

  /** With the same ADNL id, the peer found is the one the route already leads to. */
  lemma SameAdnlSamePeer(g: Gate, ref: nat, routeId: nat)
    requires Sound(g) && Live(g) && Attached(g, ref) && routeId in g.objects[ref].routes
    ensures g.objects[ref].routes[routeId] < |g.heap|
    ensures var target := g.heap[g.objects[ref].routes[routeId]].target;
            target.adnl in g.table.active && g.table.PeerOf(target.adnl) == target.peer
  {
    var s, k := g.objects[ref], g.objects[ref].key;
    assert SectionSound(g, ref, s) && RouteSound(g, ref, routeId, s.routes[routeId]);
    var p := g.heap[s.routes[routeId]].target.peer;
    assert AtKey(g, k, p, RouteSlot(k, routeId));
    LiveExactly(g, p, RouteSlot(k, routeId));
    assert LiveSlots(g, p) != {};
    assert g.table.PeerLive(Counts(g), p);
  }

  /** A count, none for a peer that does not exist yet. */
  function At(c: seq<nat>, p: PeerRef): nat {
    if p < |c| then c[p] else 0
  }

  predicate Differ(c': seq<nat>, c: seq<nat>, from: Option<PeerRef>, to: PeerRef) {
    forall q: nat | q < |c'| ::
      c'[q] == At(c, q) - (if from == Some(q) then 1 else 0) + (if to == q then 1 else 0)
  }

  /** Referencing one peer for an id and giving up another, either first, keeps a table live. */
  lemma MovedStaysLive(t: Table, from: PeerRef, id: Id, c: seq<nat>) returns (c': seq<nat>)
    requires t.Sound() && t.Live(c) && from < |t.peers| && c[from] > 0 && t.peers[from].id != id
    ensures t.PeerOf(id) < |t.Added(id).peers| && Moved(t.Added(id), from, t.PeerOf(id)).Live(c') && Differ(c', c, Some(from), t.PeerOf(id))
  {
    var t1, p, c1 := t.Added(id), t.PeerOf(id), if id in t.active then c else c + [0];
    AddedStaysLive(t, id, c);
    ReferencedStaysLive(t1, p, c1);
    var c2 := c1[p := c1[p] + 1];
    DereferencedStaysLive(t1.Referenced(p), from, c2);
    c' := c2[from := c2[from] - 1];
  }

  lemma ReboundStaysLive(t: Table, from: Option<PeerRef>, id: Id, c: seq<nat>) returns (c': seq<nat>)
    requires t.Sound() && t.Live(c)
    requires from.Some? ==> from.value < |t.peers| && c[from.value] > 0 && t.peers[from.value].id != id
    ensures Rebound(t, from, id).Live(c')
    ensures Differ(c', c, from, (if from.Some? then t.Dereferenced(from.value) else t).PeerOf(id))
  {
    var t1, c1 := t, c;
    if from.Some? {
      DereferencedStaysLive(t, from.value, c);
      t1, c1 := t.Dereferenced(from.value), c[from.value := c[from.value] - 1];
    }
    AddedStaysLive(t1, id, c1);
    var c2 := if id in t1.active then c1 else c1 + [0];
    ReferencedStaysLive(t1.Added(id), t1.PeerOf(id), c2);
    c' := c2[t1.PeerOf(id) := c2[t1.PeerOf(id)] + 1];
  }

  lemma CountOrNone(g: Gate, p: PeerRef)
    requires Sound(g)
    ensures At(Counts(g), p) == |LiveSlots(g, p)|
  {
    if p >= |g.table.peers| {
      NobodyElse(g, p);
    }
  }

  /** A route of a section in the gateway is counted. */
  lemma RouteIsCounted(g: Gate, ref: nat, routeId: nat)
    requires Sound(g) && Attached(g, ref) && routeId in g.objects[ref].routes
    ensures var r := g.objects[ref].routes[routeId];
            r < |g.heap| && g.heap[r].target.peer < |g.table.peers| && Counts(g)[g.heap[r].target.peer] > 0
  {
    var s, k := g.objects[ref], g.objects[ref].key;
    assert SectionSound(g, ref, s) && RouteSound(g, ref, routeId, s.routes[routeId]);
    var p := g.heap[s.routes[routeId]].target.peer;
    LiveSplits(g, k, p);
    assert routeId in RoutesTo(g.heap, s, p);
  }

  lemma PortIsCounted(g: Gate, ref: nat)
    requires Sound(g) && Attached(g, ref) && g.objects[ref].out.Some?
    ensures var p := g.objects[ref].out.value.inboundPeer;
            p < |g.table.peers| && Counts(g)[p] > 0
  {
    var s, k := g.objects[ref], g.objects[ref].key;
    assert SectionSound(g, ref, s);
    LiveSplits(g, k, s.out.value.inboundPeer);
  }

  ghost predicate UsesDiffer(heap: seq<RouteObject>, s: Section, heap': seq<RouteObject>, s': Section, from: Option<PeerRef>, to: PeerRef) {
    forall q: nat ::
      Uses(heap', s', q) == Uses(heap, s, q) - (if from == Some(q) then 1 else 0) + (if to == q then 1 else 0)
  }

  /** A section in the gateway that leads to one peer more, and perhaps to one less, is live with a
      table that counts just that. */
  lemma LiveAfterMove(g: Gate, g': Gate, ref: nat, c': seq<nat>, from: Option<PeerRef>, to: PeerRef)
    requires Sound(g) && Sound(g') && Attached(g, ref) && OnlyObject(g, g', ref)
    requires g'.table.Live(c') && Differ(c', Counts(g), from, to)
    requires UsesDiffer(g.heap, g.objects[ref], g'.heap, g'.objects[ref], from, to)
    ensures Live(g')
  {
    forall q: nat | q < |c'|
      ensures c'[q] == |LiveSlots(g', q)|
    {
      CountOrNone(g, q);
      CountsMove(g, g', g.objects[ref].key, q);
    }
    SameCounts(g', c');
  }

  lemma InstalledOnly(g: Gate, ref: nat, x: Instruction)
    requires Sound(g) && ref < |g.objects| && x.Build? && x.routeId !in g.objects[ref].routes
    ensures OnlyObject(g, Installed(g, ref, x), ref)
    ensures UsesDiffer(g.heap, g.objects[ref], Installed(g, ref, x).heap, Installed(g, ref, x).objects[ref], None, g.table.PeerOf(x.adnl))
  {
    var s := g.objects[ref];
    assert SectionSound(g, ref, s);
    assert forall id | id in s.routes :: RouteSound(g, ref, id, s.routes[id]);
    forall q: nat
      ensures Uses(Installed(g, ref, x).heap, Installed(g, ref, x).objects[ref], q)
           == Uses(g.heap, s, q) + if g.table.PeerOf(x.adnl) == q then 1 else 0
    {
      UsesOfNew(g.heap, s, RouteObject(ref, x.routeId, TargetOf(g, x), 0), q);
    }
  }

  lemma TakenStaysLive(t: Table, id: Id, c: seq<nat>) returns (c': seq<nat>)
    requires t.Sound() && t.Live(c)
    ensures t.PeerOf(id) < |t.Added(id).peers| && t.Added(id).Referenced(t.PeerOf(id)).Live(c') && Differ(c', c, None, t.PeerOf(id))
  {
    AddedStaysLive(t, id, c);
    var p, c1 := t.PeerOf(id), if id in t.active then c else c + [0];
    ReferencedStaysLive(t.Added(id), p, c1);
    c' := c1[p := c1[p] + 1];
  }

  lemma InstalledStaysLive(g: Gate, ref: nat, x: Instruction)
    requires Sound(g) && Live(g) && Attached(g, ref) && x.Build?
    requires x.routeId !in g.objects[ref].routes && |g.objects[ref].routes| < MAX_ACTIVE_ROUTES_PER_SECTION
    ensures Sound(Installed(g, ref, x)) && Live(Installed(g, ref, x))
  {
    InstalledIsSound(g, ref, x);
    InstalledOnly(g, ref, x);
    var c' := TakenStaysLive(g.table, x.adnl, Counts(g));
    LiveAfterMove(g, Installed(g, ref, x), ref, c', None, g.table.PeerOf(x.adnl));
  }

  lemma RetargetedOnly(g: Gate, ref: nat, x: Instruction)
    requires Sound(g) && ref < |g.objects| && x.Build? && x.routeId in g.objects[ref].routes
    ensures var g', r := Retargeted(g, ref, x), g.objects[ref].routes[x.routeId];
            && OnlyObject(g, g', ref) && g'.objects == g.objects && r < |g.heap|
            && (g'.heap == g.heap || g'.heap == g.heap[r := g.heap[r].(target := TargetOf(g, x))])
  {
    assert SectionSound(g, ref, g.objects[ref]);
    assert RouteSound(g, ref, x.routeId, g.objects[ref].routes[x.routeId]);
  }

  lemma RetargetedUses(g: Gate, ref: nat, x: Instruction)
    requires Sound(g) && ref < |g.objects| && x.Build? && x.routeId in g.objects[ref].routes
    ensures g.objects[ref].routes[x.routeId] < |g.heap|
    ensures var s, r := g.objects[ref], g.objects[ref].routes[x.routeId];
            UsesDiffer(g.heap, s, g.heap[r := g.heap[r].(target := TargetOf(g, x))], s, Some(g.heap[r].target.peer), g.table.PeerOf(x.adnl))
  {
    var s := g.objects[ref];
    assert SectionSound(g, ref, s);
    assert forall id | id in s.routes :: RouteSound(g, ref, id, s.routes[id]);
    var r := s.routes[x.routeId];
    forall q: nat
      ensures Uses(g.heap[r := g.heap[r].(target := TargetOf(g, x))], s, q)
           == Uses(g.heap, s, q) - (if g.heap[r].target.peer == q then 1 else 0) + (if g.table.PeerOf(x.adnl) == q then 1 else 0)
    {
      UsesOfMoved(g.heap, s, x.routeId, TargetOf(g, x), q);
    }
  }

  lemma MovedRouteStaysLive(g: Gate, ref: nat, x: Instruction)
    requires Sound(g) && Live(g) && Attached(g, ref) && x.Build? && x.routeId in g.objects[ref].routes
    requires var r := g.objects[ref].routes[x.routeId];
             r < |g.heap| && g.heap[r].target.adnl != x.adnl
    ensures Sound(Retargeted(g, ref, x)) && Live(Retargeted(g, ref, x))
  {
    var g', r := Retargeted(g, ref, x), g.objects[ref].routes[x.routeId];
    var from, to := g.heap[r].target.peer, g.table.PeerOf(x.adnl);
    assert SectionSound(g, ref, g.objects[ref]) && RouteSound(g, ref, x.routeId, r);
    RetargetedIsSound(g, ref, x);
    RetargetedOnly(g, ref, x);
    RetargetedUses(g, ref, x);
    RouteIsCounted(g, ref, x.routeId);
    var c' := MovedStaysLive(g.table, from, x.adnl, Counts(g));
    LiveAfterMove(g, g', ref, c', Some(from), to);
  }

  lemma SameUsesStaysLive(g: Gate, g': Gate, ref: nat)
    requires Sound(g) && Live(g) && Sound(g') && Attached(g, ref) && OnlyObject(g, g', ref) && g'.table == g.table
    requires forall p: nat :: Uses(g'.heap, g'.objects[ref], p) == Uses(g.heap, g.objects[ref], p)
    ensures Live(g')
  {
    forall p: nat | p < |g.table.peers|
      ensures Counts(g)[p] == |LiveSlots(g', p)|
    {
      CountsMove(g, g', g.objects[ref].key, p);
    }
    SameCounts(g', Counts(g));
  }

  lemma KeptRouteStaysLive(g: Gate, ref: nat, x: Instruction)
    requires Sound(g) && Live(g) && Attached(g, ref) && x.Build? && x.routeId in g.objects[ref].routes
    requires var r := g.objects[ref].routes[x.routeId];
             r < |g.heap| && g.heap[r].target.adnl == x.adnl
    ensures Sound(Retargeted(g, ref, x)) && Live(Retargeted(g, ref, x))
  {
    SameAdnlSamePeer(g, ref, x.routeId);
    RetargetedIsSound(g, ref, x);
    RetargetedOnly(g, ref, x);
    RetargetedUses(g, ref, x);
    SameUsesStaysLive(g, Retargeted(g, ref, x), ref);
  }

  lemma RetargetedStaysLive(g: Gate, ref: nat, x: Instruction)
    requires Sound(g) && Live(g) && Attached(g, ref) && x.Build? && x.routeId in g.objects[ref].routes
    ensures Sound(Retargeted(g, ref, x)) && Live(Retargeted(g, ref, x))
  {
    RetargetedOnly(g, ref, x);
    if g.heap[g.objects[ref].routes[x.routeId]].target.adnl != x.adnl {
      MovedRouteStaysLive(g, ref, x);
    } else {
      KeptRouteStaysLive(g, ref, x);
    }
  }

  lemma PortUses(heap: seq<RouteObject>, s: Section, out: OutPort, p: PeerRef)
    ensures Uses(heap, s.(out := Some(out)), p)
         == Uses(heap, s, p) - (if OutTo(s, p) then 1 else 0) + (if out.inboundPeer == p then 1 else 0)
  {
    assert RoutesTo(heap, s.(out := Some(out)), p) == RoutesTo(heap, s, p);
  }

  lemma BoundOnly(policy: Policy, g: Gate, ref: nat, bind: BindRequest)
    requires Sound(g) && ref < |g.objects|
    ensures var s, g' := g.objects[ref], BoundOut(policy, g, ref, bind);
            && OnlyObject(g, g', ref) && g'.heap == g.heap && g'.objects[ref].out.Some?
            && g'.objects[ref] == s.(out := g'.objects[ref].out)
  {
  }

  lemma MovedPortStaysLive(policy: Policy, g: Gate, ref: nat, bind: BindRequest)
    requires Sound(g) && Live(g) && Attached(g, ref)
    requires g.objects[ref].out.Some? ==> g.objects[ref].out.value.inboundAdnl != bind.adnl
    ensures Sound(BoundOut(policy, g, ref, bind)) && Live(BoundOut(policy, g, ref, bind))
  {
    var s, g' := g.objects[ref], BoundOut(policy, g, ref, bind);
    assert SectionSound(g, ref, s);
    BoundIsSound(policy, g, ref, bind);
    BoundOnly(policy, g, ref, bind);
    var from := if s.out.Some? then Some(s.out.value.inboundPeer) else None;
    if s.out.Some? {
      PortIsCounted(g, ref);
    }
    var c' := ReboundStaysLive(g.table, from, bind.adnl, Counts(g));
    var out := g'.objects[ref].out.value;
    forall q: nat
      ensures Uses(g'.heap, g'.objects[ref], q)
           == Uses(g.heap, s, q) - (if from == Some(q) then 1 else 0) + (if out.inboundPeer == q then 1 else 0)
    {
      PortUses(g.heap, s, out, q);
    }
    LiveAfterMove(g, g', ref, c', from, out.inboundPeer);
  }

  lemma BoundStaysLive(policy: Policy, g: Gate, ref: nat, bind: BindRequest)
    requires Sound(g) && Live(g) && Attached(g, ref)
    ensures Sound(BoundOut(policy, g, ref, bind)) && Live(BoundOut(policy, g, ref, bind))
  {
    var s, g' := g.objects[ref], BoundOut(policy, g, ref, bind);
    if s.out.Some? && s.out.value.inboundAdnl == bind.adnl {
      BoundIsSound(policy, g, ref, bind);
      BoundOnly(policy, g, ref, bind);
      forall p: nat
        ensures Uses(g'.heap, g'.objects[ref], p) == Uses(g.heap, s, p)
      {
        PortUses(g.heap, s, g'.objects[ref].out.value, p);
      }
      SameUsesStaysLive(g, g', ref);
    } else {
      MovedPortStaysLive(policy, g, ref, bind);
    }
  }

  lemma ClosedStaysLive(g: Gate, ref: nat)
    requires Sound(g) && Live(g) && Attached(g, ref)
    ensures Sound(Closed(g, ref)) && Live(Closed(g, ref))
  {
    var s, k, g' := g.objects[ref], g.objects[ref].key, Closed(g, ref);
    var c, d := Counts(g), AllUses(g, s);
    ClosedIsSound(g, ref);
    forall p: nat | p < |c|
      ensures d[p] <= c[p] && c[p] - d[p] == |LiveSlots(g', p)|
    {
      LiveSplits(g, k, p);
      PeersAreNoSlots(Without(g, k), g'.table, p);
    }
    ReleasedStaysLive(g.table, c, d);
    SameCounts(g', Less(c, d));
  }

  lemma RecachedStaysLive(g: Gate, ref: nat, version: nat, list: seq<Cacheable>)
    requires Sound(g) && Live(g) && Attached(g, ref) && AllResolvable(g.tunnels, g.objects[ref], list)
    ensures Sound(Recached(g, ref, version, list)) && Live(Recached(g, ref, version, list))
  {
    var s, g' := g.objects[ref], Recached(g, ref, version, list);
    CacheIsSound(g, ref, version, list);
    forall p: nat
      ensures Uses(g'.heap, g'.objects[ref], p) == Uses(g.heap, s, p)
    {
      assert RoutesTo(g'.heap, g'.objects[ref], p) == RoutesTo(g.heap, s, p);
    }
    SameUsesStaysLive(g, g', ref);
  }

  lemma RoutedStaysLive(g: Gate, ref: nat, x: Instruction)
    requires Sound(g) && Live(g) && Attached(g, ref) && x.Build?
    ensures Sound(Routed(g, ref, x)) && Live(Routed(g, ref, x))
  {
    if x.routeId in g.objects[ref].routes {
      RetargetedStaysLive(g, ref, x);
    } else if |g.objects[ref].routes| >= MAX_ACTIVE_ROUTES_PER_SECTION {
      AddingStaysLive(g, x.adnl);
    } else {
      InstalledStaysLive(g, ref, x);
    }
  }

  lemma CacheResult(policy: Policy, g: Gate, ref: nat, x: Instruction)
    requires Sound(g) && ref < |g.objects| && x.Cache?
    ensures var g' := Execute(policy, g, ref, x).0;
            g' == g || (AllResolvable(g.tunnels, g.objects[ref], x.list) && g' == Recached(g, ref, x.version, x.list))
  {
  }

  lemma CacheStaysLive(policy: Policy, g: Gate, ref: nat, x: Instruction)
    requires Sound(g) && Live(g) && Attached(g, ref) && x.Cache?
    ensures Sound(Execute(policy, g, ref, x).0) && Live(Execute(policy, g, ref, x).0)
  {
    CacheResult(policy, g, ref, x);
    if AllResolvable(g.tunnels, g.objects[ref], x.list) {
      RecachedStaysLive(g, ref, x.version, x.list);
    }
  }

  /** Every instruction of a section in the gateway keeps the counts live. */
  lemma AttachedStaysLive(policy: Policy, g: Gate, ref: nat, x: Instruction)
    requires Sound(g) && Live(g) && Attached(g, ref)
    ensures Sound(Execute(policy, g, ref, x).0) && Live(Execute(policy, g, ref, x).0)
  {
    match x
    case Destroy => ClosedStaysLive(g, ref);
    case Build(_, _, _, _) => RoutedStaysLive(g, ref, x);
    case Bind(bind, _) => BoundStaysLive(policy, g, ref, bind);
    case Cache(_, _) => CacheStaysLive(policy, g, ref, x);
    case Other(_) =>
  }

  // ---------------------------------------------------------------------------------------
  // Instructions of a section that is gone
  // ---------------------------------------------------------------------------------------

  predicate Detached(g: Gate, ref: nat) {
    ref < |g.objects| && g.objects[ref].key !in g.inbound
  }

  /** The instruction takes or gives up a reference: the guard, on the section as it is before. */
  predicate Touches(policy: Policy, g: Gate, ref: nat, x: Instruction)
    requires Sound(g) && ref < |g.objects|
  {
    var s := g.objects[ref];
    match x
    case Destroy => s.routes != map[] || s.out.Some?
    case Build(adnl, _, routeId, price) =>
      Routable(policy, s, routeId, price) && (routeId in s.routes ==> RouteAdnl(g, ref, routeId) != adnl)
    case Bind(bind, world) => Bindable(policy, s, bind, world) && (s.out.Some? ==> s.out.value.inboundAdnl != bind.adnl)
    case _ => false
  }

  function RouteAdnl(g: Gate, ref: nat, routeId: nat): Id
    requires Sound(g) && ref < |g.objects| && routeId in g.objects[ref].routes
  {
    assert SectionSound(g, ref, g.objects[ref]) && RouteSound(g, ref, routeId, g.objects[ref].routes[routeId]);
    g.heap[g.objects[ref].routes[routeId]].target.adnl
  }

  lemma DetachedIsElsewhere(g: Gate, g': Gate, ref: nat, p: PeerRef)
    requires Sound(g) && Sound(g') && Detached(g, ref) && OnlyObject(g, g', ref)
    ensures LiveSlots(g', p) == LiveSlots(g, p)
  {
    forall k | k in g.inbound
      ensures g.inbound[k] != ref
    {
      assert g.objects[g.inbound[k]].key == k;
    }
    ElsewhereIsSame(g, g', ref, p);
  }

  lemma WrongCount(g: Gate, p: PeerRef)
    requires Sound(g) && p < |g.table.peers| && g.table.peers[p].references != |LiveSlots(g, p)|
    ensures !Live(g)
  {
    assert !g.table.PeerLive(Counts(g), p);
  }

  lemma CountOf(g: Gate, p: PeerRef)
    requires Sound(g) && Live(g) && p < |g.table.peers|
    ensures g.table.peers[p].references == |LiveSlots(g, p)|
  {
    assert g.table.PeerLive(Counts(g), p);
  }

  /** One reference more for a peer, while a section object elsewhere changed. */
  lemma OneTooMany(g: Gate, g': Gate, ref: nat, p: PeerRef)
    requires Sound(g) && Live(g) && Sound(g') && Detached(g, ref) && OnlyObject(g, g', ref)
    requires p < |g'.table.peers|
    requires g'.table.peers[p].references == (if p < |g.table.peers| then g.table.peers[p].references else 0) + 1
    ensures !Live(g')
  {
    DetachedIsElsewhere(g, g', ref, p);
    if p < |g.table.peers| {
      CountOf(g, p);
    } else {
      NobodyElse(g, p);
    }
    WrongCount(g', p);
  }

  /** No reference moved: at most an id was looked up. */
  lemma NoneMoved(g: Gate, g': Gate, ref: nat, id: Id)
    requires Sound(g) && Live(g) && Sound(g') && Detached(g, ref) && OnlyObject(g, g', ref)
    requires g'.table == g.table || g'.table == g.table.Added(id)
    ensures Live(g')
  {
    var c := if g'.table == g.table then Counts(g) else Grown(g, id);
    AddedIsLive(g, id);
    forall p: nat | p < |c|
      ensures c[p] == |LiveSlots(g', p)|
    {
      DetachedIsElsewhere(g, g', ref, p);
    }
    SameCounts(g', c);
  }

  lemma UsesSomething(g: Gate, ref: nat) returns (p: PeerRef)
    requires Sound(g) && ref < |g.objects| && (g.objects[ref].routes != map[] || g.objects[ref].out.Some?)
    ensures p < |g.table.peers| && Uses(g.heap, g.objects[ref], p) > 0
  {
    var s := g.objects[ref];
    assert SectionSound(g, ref, s);
    if s.out.Some? {
      p := s.out.value.inboundPeer;
    } else {
      var id :| id in s.routes;
      assert RouteSound(g, ref, id, s.routes[id]);
      p := g.heap[s.routes[id]].target.peer;
      assert id in RoutesTo(g.heap, s, p);
    }
  }

  lemma EmptyClosedAgain(g: Gate, ref: nat)
    requires Sound(g) && Detached(g, ref) && g.objects[ref].routes == map[] && g.objects[ref].out.None?
    ensures Closed(g, ref) == g
  {
    var s := g.objects[ref];
    forall p: nat | p < |g.table.peers|
      ensures AllUses(g, s)[p] == 0
    {
      assert RoutesTo(g.heap, s, p) == {};
    }
    NoneReleased(g.table, AllUses(g, s));
    assert g.inbound - {s.key} == g.inbound;
  }

  lemma UsedClosedAgain(g: Gate, ref: nat)
    requires Sound(g) && Live(g) && Detached(g, ref) && (g.objects[ref].routes != map[] || g.objects[ref].out.Some?)
    ensures Sound(Closed(g, ref)) && !Live(Closed(g, ref))
  {
    var t := g.table.Released(AllUses(g, g.objects[ref]));
    ClosedIsSound(g, ref);
    ClosedElsewhere(g, ref);
    var p := UsesSomething(g, ref);
    TooFew(g, t, p, Uses(g.heap, g.objects[ref], p));
  }

  lemma ClosedElsewhere(g: Gate, ref: nat)
    requires Detached(g, ref)
    ensures Closed(g, ref) == g.(table := g.table.Released(AllUses(g, g.objects[ref])))
  {
    assert g.inbound - {g.objects[ref].key} == g.inbound;
  }

  lemma TooFew(g: Gate, t: Table, p: PeerRef, n: nat)
    requires Sound(g) && Live(g) && Sound(g.(table := t)) && p < |g.table.peers| == |t.peers| && n > 0
    requires t.peers[p].references == g.table.peers[p].references - n
    ensures !Live(g.(table := t))
  {
    CountOf(g, p);
    PeersAreNoSlots(g, t, p);
    WrongCount(g.(table := t), p);
  }

  /** Closed once more: wrong exactly when the object still has routes or an out port. */
  lemma ClosedAgainExactly(g: Gate, ref: nat)
    requires Sound(g) && Live(g) && Detached(g, ref)
    ensures Sound(Closed(g, ref))
    ensures Live(Closed(g, ref)) <==> g.objects[ref].routes == map[] && g.objects[ref].out.None?
  {
    if g.objects[ref].routes == map[] && g.objects[ref].out.None? {
      EmptyClosedAgain(g, ref);
    } else {
      UsedClosedAgain(g, ref);
    }
  }

  lemma TakenRefers(t: Table, id: Id)
    requires t.Sound()
    ensures var p := t.PeerOf(id);
            && p < |t.Added(id).peers|
            && t.Added(id).Referenced(p).peers[p].references == (if p < |t.peers| then t.peers[p].references else 0) + 1
  {
  }

  lemma MovedRefers(t: Table, from: PeerRef, id: Id)
    requires t.Sound() && from < |t.peers| && t.peers[from].id != id
    ensures var p := t.PeerOf(id);
            && p < |t.Added(id).peers|
            && Moved(t.Added(id), from, p).peers[p].references == (if p < |t.peers| then t.peers[p].references else 0) + 1
  {
    TakenRefers(t, id);
  }

  lemma ReboundRefers(t: Table, from: Option<PeerRef>, id: Id)
    requires t.Sound() && (from.Some? ==> from.value < |t.peers| && t.peers[from.value].id != id)
    ensures var p := t.PeerOf(id);
            && p < |Rebound(t, from, id).peers|
            && Rebound(t, from, id).peers[p].references == (if p < |t.peers| then t.peers[p].references else 0) + 1
  {
  }

  lemma RetargetedElsewhereExactly(g: Gate, ref: nat, x: Instruction)
    requires Sound(g) && Live(g) && Detached(g, ref) && x.Build? && x.routeId in g.objects[ref].routes
    ensures var g' := Retargeted(g, ref, x);
            Sound(g') && (Live(g') <==> RouteAdnl(g, ref, x.routeId) == x.adnl)
  {
    var s, g' := g.objects[ref], Retargeted(g, ref, x);
    var r := s.routes[x.routeId];
    assert SectionSound(g, ref, s) && RouteSound(g, ref, x.routeId, r);
    RetargetedIsSound(g, ref, x);
    RetargetedOnly(g, ref, x);
    if g.heap[r].target.adnl != x.adnl {
      MovedRefers(g.table, g.heap[r].target.peer, x.adnl);
      OneTooMany(g, g', ref, g.table.PeerOf(x.adnl));
    } else {
      NoneMoved(g, g', ref, x.adnl);
    }
  }

  lemma BuiltElsewhereExactly(policy: Policy, g: Gate, ref: nat, x: Instruction)
    requires Sound(g) && Live(g) && Detached(g, ref) && x.Build? && policy.allowRouting && policy.minPriceRoute <= x.price
    ensures Sound(Routed(g, ref, x)) && (Live(Routed(g, ref, x)) <==> !Touches(policy, g, ref, x))
  {
    var s, g' := g.objects[ref], Routed(g, ref, x);
    RoutedIsSound(g, ref, x);
    if x.routeId in s.routes {
      RetargetedElsewhereExactly(g, ref, x);
    } else if |s.routes| >= MAX_ACTIVE_ROUTES_PER_SECTION {
      NoneMoved(g, g', ref, x.adnl);
    } else {
      InstalledOnly(g, ref, x);
      TakenRefers(g.table, x.adnl);
      OneTooMany(g, g', ref, g.table.PeerOf(x.adnl));
    }
  }

  lemma BoundElsewhereExactly(policy: Policy, g: Gate, ref: nat, x: Instruction)
    requires Sound(g) && Live(g) && Detached(g, ref) && x.Bind? && Bindable(policy, g.objects[ref], x.bind, x.world)
    ensures var g' := BoundOut(policy, g, ref, x.bind);
            Sound(g') && (Live(g') <==> !Touches(policy, g, ref, x))
  {
    var s, g' := g.objects[ref], BoundOut(policy, g, ref, x.bind);
    assert SectionSound(g, ref, s);
    BoundIsSound(policy, g, ref, x.bind);
    BoundOnly(policy, g, ref, x.bind);
    if s.out.Some? && s.out.value.inboundAdnl == x.bind.adnl {
      NoneMoved(g, g', ref, x.bind.adnl);
    } else {
      var from := if s.out.Some? then Some(s.out.value.inboundPeer) else None;
      ReboundRefers(g.table, from, x.bind.adnl);
      OneTooMany(g, g', ref, g.table.PeerOf(x.bind.adnl));
    }
  }

  lemma CachedElsewhere(policy: Policy, g: Gate, ref: nat, x: Instruction)
    requires Sound(g) && Live(g) && Detached(g, ref) && x.Cache?
    ensures Sound(Execute(policy, g, ref, x).0) && Live(Execute(policy, g, ref, x).0)
  {
    CacheResult(policy, g, ref, x);
    if AllResolvable(g.tunnels, g.objects[ref], x.list) {
      CacheIsSound(g, ref, x.version, x.list);
      NoneMoved(g, Recached(g, ref, x.version, x.list), ref, 0);
    }
  }

  /** An instruction of a section that is gone keeps the counts live exactly when it touches no
      reference. */
  lemma DetachedExactly(policy: Policy, g: Gate, ref: nat, x: Instruction)
    requires Sound(g) && Live(g) && Detached(g, ref)
    ensures Sound(Execute(policy, g, ref, x).0)
    ensures Live(Execute(policy, g, ref, x).0) <==> !Touches(policy, g, ref, x)
  {
    match x
    case Destroy => ClosedAgainExactly(g, ref);
    case Build(_, _, _, price) =>
      if policy.allowRouting && policy.minPriceRoute <= price {
        BuiltElsewhereExactly(policy, g, ref, x);
      }
    case Bind(bind, world) =>
      if Bindable(policy, g.objects[ref], bind, world) {
        BoundElsewhereExactly(policy, g, ref, x);
      }
    case Cache(_, _) => CachedElsewhere(policy, g, ref, x);
    case Other(_) =>
  }
}
