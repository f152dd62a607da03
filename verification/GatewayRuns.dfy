/** Whole messages and whole runs of a gateway: what every run keeps, and exactly which messages and
    operations keep the reference counts live. */
module GatewayRuns {
  import opened Limits
  import opened Options
  import opened PeerCounts
  import opened Relay
  import opened LiveCounts

  // ---------------------------------------------------------------------------------------
  // One message
  // ---------------------------------------------------------------------------------------

  /** The instruction loop on one section object: in order, until one fails. */
  function ExecuteAll(policy: Policy, g: Gate, ref: nat, list: seq<Instruction>): (r: Gate)
    requires Sound(g) && ref < |g.objects|
    ensures Sound(r) && SameKeys(g, r)
    decreases |list|
  {
    if list == [] then g
    else
      var (g', ok) := Execute(policy, g, ref, list[0]);
      ExecuteIsSound(policy, g, ref, list[0]);
      if ok then ExecuteAll(policy, g', ref, list[1..]) else g'
  }

  /** The counts are live before and after every instruction that executes. */
  predicate LiveThroughout(policy: Policy, g: Gate, ref: nat, list: seq<Instruction>)
    requires Sound(g) && ref < |g.objects|
    decreases |list|
  {
    && Live(g)
    && (list != [] ==>
          var (g', ok) := Execute(policy, g, ref, list[0]);
          ExecuteIsSound(policy, g, ref, list[0]);
          Live(g') && (ok ==> LiveThroughout(policy, g', ref, list[1..])))
  }

  /** No instruction that executes after the section is gone touches a reference. */
  predicate Clean(policy: Policy, g: Gate, ref: nat, list: seq<Instruction>)
    requires Sound(g) && ref < |g.objects|
    decreases |list|
  {
    list != [] ==>
      var (g', ok) := Execute(policy, g, ref, list[0]);
      ExecuteIsSound(policy, g, ref, list[0]);
      (Attached(g, ref) || !Touches(policy, g, ref, list[0])) && (ok ==> Clean(policy, g', ref, list[1..]))
  }

  /** The section object is the one at its key, or there is none at its key. */
  predicate Here(g: Gate, ref: nat) {
    Attached(g, ref) || Detached(g, ref)
  }

  lemma StaysHere(policy: Policy, g: Gate, ref: nat, x: Instruction)
    requires Sound(g) && Here(g, ref)
    ensures var g' := Execute(policy, g, ref, x).0;
            && Here(g', ref)
            && (x.Destroy? || Detached(g, ref) ==> Detached(g', ref))
            && (!x.Destroy? && Attached(g, ref) ==> Attached(g', ref))
  {
    ExecuteIsSound(policy, g, ref, x);
    InboundStays(policy, g, ref, x);
  }

  lemma InboundStays(policy: Policy, g: Gate, ref: nat, x: Instruction)
    requires Sound(g) && ref < |g.objects|
    ensures Execute(policy, g, ref, x).0.inbound == if x.Destroy? then g.inbound - {g.objects[ref].key} else g.inbound
  {
    match x
    case Build(_, _, _, _) => RoutedInbound(g, ref, x);
    case Bind(bind, _) => BoundOnly(policy, g, ref, bind);
    case Cache(_, _) => CacheResult(policy, g, ref, x);
    case _ =>
  }

  lemma RoutedInbound(g: Gate, ref: nat, x: Instruction)
    requires Sound(g) && ref < |g.objects| && x.Build?
    ensures Routed(g, ref, x).inbound == g.inbound
  {
    if x.routeId in g.objects[ref].routes {
      RetargetedOnly(g, ref, x);
    }
  }

  /** For every message on every section of every live gateway: the counts stay live at every
      instruction if and only if nothing after a destroy touches a reference. */
  lemma {:induction false} MessageExactly(policy: Policy, g: Gate, ref: nat, list: seq<Instruction>)
    requires Sound(g) && Live(g) && Here(g, ref)
    ensures LiveThroughout(policy, g, ref, list) <==> Clean(policy, g, ref, list)
    decreases |list|
  {
    if list != [] {
      var (g', ok) := Execute(policy, g, ref, list[0]);
      StaysHere(policy, g, ref, list[0]);
      ExecuteIsSound(policy, g, ref, list[0]);
      if Attached(g, ref) {
        AttachedStaysLive(policy, g, ref, list[0]);
      } else {
        DetachedExactly(policy, g, ref, list[0]);
      }
      if Live(g') {
        MessageExactly(policy, g', ref, list[1..]);
      }
    }
  }

  /** What a whole message leaves live. */
  lemma {:induction false} LiveThroughoutIsLive(policy: Policy, g: Gate, ref: nat, list: seq<Instruction>)
    requires Sound(g) && ref < |g.objects| && LiveThroughout(policy, g, ref, list)
    ensures Live(ExecuteAll(policy, g, ref, list))
    decreases |list|
  {
    if list != [] {
      var (g', ok) := Execute(policy, g, ref, list[0]);
      ExecuteIsSound(policy, g, ref, list[0]);
      if ok {
        LiveThroughoutIsLive(policy, g', ref, list[1..]);
      }
    }
  }

  // ---------------------------------------------------------------------------------------
  // Operations
  // ---------------------------------------------------------------------------------------

  /** What happens to a gateway, one thing at a time: a message for a section key, with its list;
      a peer that connects; a route's counter that payments and packets move; a section that
      expires; an unreferenced peer that is dropped; a tunnel that is opened here, which fails
      when it needs payments and there are none; and one that is stopped. */
  datatype Op =
    | Message(k: nat, list: seq<Instruction>)
    | Meet(id: Id)
    | Spend(k: nat, routeId: nat, prepaid: int)
    | Expire(k: nat)
    | Kill(id: Id)
    | Open(tunnel: nat, adnl: Id, ok: bool)
    | Stop(client: nat)

  /** The gateway with a section at this key, created if there is none. */
  function WithSection(g: Gate, k: nat): (r: Gate)
    requires Sound(g)
    ensures Sound(r) && k in r.inbound && Attached(r, r.inbound[k])
  {
    if k in g.inbound then g
    else
      var r := g.(objects := g.objects + [Section(k, map[], None, [], 0)], inbound := g.inbound[k := |g.objects|]);
      NewSectionIsSound(g, r, k);
      r
  }

  lemma NewSectionIsSound(g: Gate, r: Gate, k: nat)
    requires Sound(g) && k !in g.inbound
    requires r == g.(objects := g.objects + [Section(k, map[], None, [], 0)], inbound := g.inbound[k := |g.objects|])
    ensures Sound(r)
  {
    forall ref: nat | ref < |r.objects|
      ensures SectionSound(r, ref, r.objects[ref])
    {
      if ref < |g.objects| {
        SectionStaysSound(g, r, ref, g.objects[ref]);
      }
    }
  }

  /** `CreateRegularOutTunnel`: the first hop is referenced before anything can fail, and a tunnel
      that failed is given to nobody. */
  function Opened(g: Gate, tunnel: nat, adnl: Id, ok: bool): Gate
    requires Sound(g)
  {
    var p := g.table.PeerOf(adnl);
    var g' := g.(table := g.table.Added(adnl).Referenced(p));
    if ok then g'.(tunnels := g.tunnels + {tunnel}, clients := g.clients + [Client(p, false)]) else g'
  }

  /** `Stop` gives up the first hop, every time it is called. */
  function Stopped(g: Gate, i: nat): Gate
    requires Sound(g) && i < |g.clients|
  {
    g.(table := g.table.Dereferenced(g.clients[i].peer), clients := g.clients[i := g.clients[i].(stopped := true)])
  }

  function Spent(g: Gate, ref: nat, routeId: nat, prepaid: int): Gate
    requires Sound(g) && ref < |g.objects| && routeId in g.objects[ref].routes
  {
    var r := g.objects[ref].routes[routeId];
    assert SectionSound(g, ref, g.objects[ref]) && RouteSound(g, ref, routeId, r);
    g.(heap := g.heap[r := g.heap[r].(prepaid := prepaid)])
  }

  /** A peer nobody references may be dropped. */
  predicate Idle(g: Gate, id: Id) {
    id in g.table.active && g.table.active[id] < |g.table.peers| && g.table.peers[g.table.active[id]].references == 0
  }

  function Next(policy: Policy, g: Gate, op: Op): (r: Gate)
    requires Sound(g)
    ensures Sound(r)
  {
    NextIsSound(policy, g, op);
    Step(policy, g, op)
  }

  function Step(policy: Policy, g: Gate, op: Op): Gate
    requires Sound(g)
  {
    match op
    case Message(k, list) =>
      var g1 := WithSection(g, k);
      if |list| > MAX_INSTRUCTIONS then g1 else ExecuteAll(policy, g1, g1.inbound[k], list)
    case Meet(id) => g.(table := g.table.Added(id))
    case Spend(k, routeId, prepaid) =>
      if k in g.inbound && routeId in g.objects[g.inbound[k]].routes then Spent(g, g.inbound[k], routeId, prepaid) else g
    case Expire(k) => if k in g.inbound then Closed(g, g.inbound[k]) else g
    case Kill(id) => if Idle(g, id) then g.(table := g.table.Killed(id)) else g
    case Open(tunnel, adnl, ok) => Opened(g, tunnel, adnl, ok)
    case Stop(i) => if i < |g.clients| then Stopped(g, i) else g
  }

  /** Whatever happens, the gateway stays sound. */
  lemma NextIsSound(policy: Policy, g: Gate, op: Op)
    requires Sound(g)
    ensures Sound(Step(policy, g, op))
  {
    match op
    case Message(_, _) =>
    case Meet(id) => AddingIsSound(g, id);
    case Spend(k, routeId, prepaid) =>
      if k in g.inbound && routeId in g.objects[g.inbound[k]].routes {
        SpentIsSound(g, g.inbound[k], routeId, prepaid);
      }
    case Expire(k) =>
      if k in g.inbound {
        ClosedIsSound(g, g.inbound[k]);
      }
    case Kill(id) => TableIsSound(g, g.table.Killed(id));
    case Open(tunnel, adnl, ok) => OpenedIsSound(g, tunnel, adnl, ok);
    case Stop(i) =>
      if i < |g.clients| {
        StoppedIsSound(g, i);
      }
  }

  lemma TableIsSound(g: Gate, t: Table)
    requires Sound(g) && t.Sound() && SameIds(g.table, t)
    ensures Sound(g.(table := t))
  {
    var g' := g.(table := t);
    forall ref: nat | ref < |g.objects|
      ensures SectionSound(g', ref, g'.objects[ref])
    {
      SectionStaysSound(g, g', ref, g.objects[ref]);
    }
  }

  lemma ClientsAreSound(g: Gate, g': Gate)
    requires Sound(g) && g' == g.(tunnels := g'.tunnels, clients := g'.clients)
    requires forall i: nat | i < |g'.clients| :: g'.clients[i].peer < |g.table.peers|
    ensures Sound(g')
  {
    forall ref: nat | ref < |g.objects|
      ensures SectionSound(g', ref, g'.objects[ref])
    {
      SectionStaysSound(g, g', ref, g.objects[ref]);
    }
  }

  lemma OpenedIsSound(g: Gate, tunnel: nat, adnl: Id, ok: bool)
    requires Sound(g)
    ensures Sound(Opened(g, tunnel, adnl, ok))
  {
    var p, t1 := g.table.PeerOf(adnl), g.table.Added(adnl);
    AddedIsSound(g.table, adnl);
    ReferencedIsSound(t1, p);
    TableIsSound(g, t1.Referenced(p));
    ClientsAreSound(g.(table := t1.Referenced(p)), Opened(g, tunnel, adnl, ok));
  }

  lemma StoppedIsSound(g: Gate, i: nat)
    requires Sound(g) && i < |g.clients|
    ensures Sound(Stopped(g, i))
  {
    var t := g.table.Dereferenced(g.clients[i].peer);
    DereferencedIsSound(g.table, g.clients[i].peer);
    TableIsSound(g, t);
    ClientsAreSound(g.(table := t), Stopped(g, i));
  }

  lemma SpentIsSound(g: Gate, ref: nat, routeId: nat, prepaid: int)
    requires Sound(g) && ref < |g.objects| && routeId in g.objects[ref].routes
    ensures Sound(Spent(g, ref, routeId, prepaid))
  {
    var g' := Spent(g, ref, routeId, prepaid);
    assert SectionSound(g, ref, g.objects[ref]);
    SectionStaysSound(g, g', ref, g.objects[ref]);
    StaysSound(g, g', ref);
  }

  // ---------------------------------------------------------------------------------------
  // Which operations keep the counts live
  // ---------------------------------------------------------------------------------------

  lemma EmptyUses(heap: seq<RouteObject>, s: Section, p: PeerRef)
    requires s.routes == map[] && s.out.None?
    ensures Uses(heap, s, p) == 0
  {
    assert RoutesTo(heap, s, p) == {};
  }

  lemma WithoutNew(g: Gate, k: nat)
    requires Sound(g) && k !in g.inbound
    ensures var r := WithSection(g, k);
            && Without(r, k) == g.(objects := r.objects) && g.objects <= r.objects && r.heap == g.heap
            && r.inbound[k] == |g.objects| && r.objects[|g.objects|] == Section(k, map[], None, [], 0)
  {
    assert g.inbound[k := |g.objects|] - {k} == g.inbound;
  }

  lemma NewSectionCount(g: Gate, k: nat, p: PeerRef)
    requires Sound(g) && k !in g.inbound
    ensures |LiveSlots(WithSection(g, k), p)| == |LiveSlots(g, p)|
  {
    var r := WithSection(g, k);
    WithoutNew(g, k);
    LiveSplits(r, k, p);
    EmptyUses(r.heap, r.objects[|g.objects|], p);
    SameElsewhere(g, Without(r, k), p);
  }

  lemma NewSectionStaysLive(g: Gate, k: nat)
    requires Sound(g) && Live(g)
    ensures Live(WithSection(g, k))
  {
    if k !in g.inbound {
      forall p: nat | p < |g.table.peers|
        ensures Counts(g)[p] == |LiveSlots(WithSection(g, k), p)|
      {
        NewSectionCount(g, k, p);
      }
      SameCounts(WithSection(g, k), Counts(g));
    }
  }

  lemma SameElsewhere(g: Gate, r: Gate, p: PeerRef)
    requires Sound(g) && Sound(r) && r.inbound == g.inbound && r.heap == g.heap && r.clients == g.clients && g.objects <= r.objects
    ensures LiveSlots(r, p) == LiveSlots(g, p)
  {
    assert forall k | k in g.inbound :: r.objects[g.inbound[k]] == g.objects[g.inbound[k]];
  }

  lemma SpentUses(heap: seq<RouteObject>, s: Section, r: nat, prepaid: int, p: PeerRef)
    requires r < |heap|
    ensures Uses(heap[r := heap[r].(prepaid := prepaid)], s, p) == Uses(heap, s, p)
  {
    var heap' := heap[r := heap[r].(prepaid := prepaid)];
    assert forall q | 0 <= q < |heap| :: heap'[q].target == heap[q].target;
    assert RoutesTo(heap', s, p) == RoutesTo(heap, s, p);
  }

  lemma SpentStaysLive(g: Gate, ref: nat, routeId: nat, prepaid: int)
    requires Sound(g) && Live(g) && Attached(g, ref) && routeId in g.objects[ref].routes
    ensures Sound(Spent(g, ref, routeId, prepaid)) && Live(Spent(g, ref, routeId, prepaid))
  {
    var r, g' := g.objects[ref].routes[routeId], Spent(g, ref, routeId, prepaid);
    SpentIsSound(g, ref, routeId, prepaid);
    assert SectionSound(g, ref, g.objects[ref]) && RouteSound(g, ref, routeId, r);
    forall p: nat
      ensures Uses(g'.heap, g'.objects[ref], p) == Uses(g.heap, g.objects[ref], p)
    {
      SpentUses(g.heap, g.objects[ref], r, prepaid, p);
    }
    SameUsesStaysLive(g, g', ref);
  }

  lemma KilledStaysLive(g: Gate, id: Id)
    requires Sound(g) && Live(g) && Idle(g, id)
    ensures Sound(g.(table := g.table.Killed(id))) && Live(g.(table := g.table.Killed(id)))
  {
    var t := g.table.Killed(id);
    TableIsSound(g, t);
    forall p: nat | p < |t.peers|
      ensures t.PeerLive(Counts(g), p) && Counts(g)[p] == |LiveSlots(g.(table := t), p)|
    {
      assert g.table.PeerLive(Counts(g), p);
      assert g.table.PeerLive(Counts(g), g.table.active[id]);
      PeersAreNoSlots(g, t, p);
    }
    SameCounts(g.(table := t), Counts(g));
  }

  /** The tunnels of two gateways that differ in nothing else a slot depends on. */
  lemma TunnelsMove(g: Gate, g': Gate, p: PeerRef, slot: Slot)
    requires Sound(g) && Sound(g') && g'.heap == g.heap && g'.objects == g.objects && g'.inbound == g.inbound
    ensures slot in LiveSlots(g', p) <==> if slot.TunnelSlot? then slot in TunnelSlots(g', p) else slot in LiveSlots(g, p)
  {
    LiveExactly(g, p, slot);
    LiveExactly(g', p, slot);
  }

  lemma SlotsWith(was: set<Slot>, now: set<Slot>, x: Slot, before: bool, after: bool)
    requires before == (x in was) && after == (x in now) && forall y | y != x :: y in was <==> y in now
    ensures |now| == |was| - (if before then 1 else 0) + (if after then 1 else 0)
  {
    var rest := was - {x};
    assert rest == now - {x};
    assert before ==> was == rest + {x};
    assert after ==> now == rest + {x};
    assert !before ==> was == rest;
    assert !after ==> now == rest;
  }

  lemma OpenedCounts(g: Gate, tunnel: nat, adnl: Id, q: PeerRef)
    requires Sound(g) && Sound(Opened(g, tunnel, adnl, true))
    ensures |LiveSlots(Opened(g, tunnel, adnl, true), q)| == |LiveSlots(g, q)| + if g.table.PeerOf(adnl) == q then 1 else 0
  {
    var g', x := Opened(g, tunnel, adnl, true), TunnelSlot(|g.clients|);
    forall slot: Slot
      ensures slot != x ==> (slot in LiveSlots(g, q) <==> slot in LiveSlots(g', q))
      ensures x !in LiveSlots(g, q) && (x in LiveSlots(g', q) <==> g.table.PeerOf(adnl) == q)
    {
      TunnelsMove(g, g', q, slot);
      TunnelsMove(g, g', q, x);
      LiveExactly(g, q, x);
      LiveExactly(g, q, slot);
    }
    SlotsWith(LiveSlots(g, q), LiveSlots(g', q), x, false, g.table.PeerOf(adnl) == q);
  }

  lemma OpenedExactly(g: Gate, tunnel: nat, adnl: Id, ok: bool)
    requires Sound(g) && Live(g)
    ensures Sound(Opened(g, tunnel, adnl, ok)) && (Live(Opened(g, tunnel, adnl, ok)) <==> ok)
  {
    var g', p := Opened(g, tunnel, adnl, ok), g.table.PeerOf(adnl);
    OpenedIsSound(g, tunnel, adnl, ok);
    if ok {
      var c' := TakenStaysLive(g.table, adnl, Counts(g));
      forall q: nat | q < |c'|
        ensures c'[q] == |LiveSlots(g', q)|
      {
        CountOrNone(g, q);
        OpenedCounts(g, tunnel, adnl, q);
      }
      SameCounts(g', c');
    } else {
      TakenRefers(g.table, adnl);
      PeersAreNoSlots(g, g'.table, p);
      if p < |g.table.peers| {
        CountOf(g, p);
      } else {
        NobodyElse(g, p);
      }
      WrongCount(g', p);
    }
  }

  lemma StoppedCounts(g: Gate, i: nat, q: PeerRef)
    requires Sound(g) && i < |g.clients| && Sound(Stopped(g, i))
    ensures |LiveSlots(Stopped(g, i), q)| == |LiveSlots(g, q)| - if !g.clients[i].stopped && g.clients[i].peer == q then 1 else 0
  {
    var g', x := Stopped(g, i), TunnelSlot(i);
    forall slot: Slot
      ensures slot != x ==> (slot in LiveSlots(g, q) <==> slot in LiveSlots(g', q))
      ensures x !in LiveSlots(g', q) && (x in LiveSlots(g, q) <==> !g.clients[i].stopped && g.clients[i].peer == q)
    {
      TunnelsMove(g, g', q, slot);
      TunnelsMove(g, g', q, x);
      LiveExactly(g, q, x);
      LiveExactly(g, q, slot);
    }
    SlotsWith(LiveSlots(g, q), LiveSlots(g', q), x, !g.clients[i].stopped && g.clients[i].peer == q, false);
  }

  lemma StoppedExactly(g: Gate, i: nat)
    requires Sound(g) && Live(g) && i < |g.clients|
    ensures Sound(Stopped(g, i)) && (Live(Stopped(g, i)) <==> !g.clients[i].stopped)
  {
    var g', p, c := Stopped(g, i), g.clients[i].peer, Counts(g);
    StoppedIsSound(g, i);
    StoppedCounts(g, i, p);
    CountOf(g, p);
    if g.clients[i].stopped {
      WrongCount(g', p);
    } else {
      DereferencedStaysLive(g.table, p, c);
      forall q: nat | q < |c|
        ensures c[p := c[p] - 1][q] == |LiveSlots(g', q)|
      {
        StoppedCounts(g, i, q);
      }
      SameCounts(g', c[p := c[p] - 1]);
    }
  }

  /** A message in which nothing touches a reference after its section is gone; a tunnel that
      opens; a tunnel not stopped before. */
  predicate CleanOp(policy: Policy, g: Gate, op: Op)
    requires Sound(g)
  {
    match op
    case Message(k, list) =>
      var g1 := WithSection(g, k);
      |list| <= MAX_INSTRUCTIONS ==> Clean(policy, g1, g1.inbound[k], list)
    case Open(_, _, ok) => ok
    case Stop(i) => i < |g.clients| ==> !g.clients[i].stopped
    case _ => true
  }

  /** The counts are live after the operation and at every instruction of it. */
  predicate LiveOp(policy: Policy, g: Gate, op: Op)
    requires Sound(g)
  {
    && Live(Next(policy, g, op))
    && (op.Message? && |op.list| <= MAX_INSTRUCTIONS ==>
          var g1 := WithSection(g, op.k);
          LiveThroughout(policy, g1, g1.inbound[op.k], op.list))
  }

  lemma MessageOpExactly(policy: Policy, g: Gate, op: Op)
    requires Sound(g) && Live(g) && op.Message?
    ensures LiveOp(policy, g, op) <==> CleanOp(policy, g, op)
  {
    var g1 := WithSection(g, op.k);
    NewSectionStaysLive(g, op.k);
    MessageExactly(policy, g1, g1.inbound[op.k], op.list);
    if |op.list| <= MAX_INSTRUCTIONS && LiveThroughout(policy, g1, g1.inbound[op.k], op.list) {
      LiveThroughoutIsLive(policy, g1, g1.inbound[op.k], op.list);
    }
  }

  /** Operations without a condition. */
  lemma UpkeepStaysLive(policy: Policy, g: Gate, op: Op)
    requires Sound(g) && Live(g) && (op.Meet? || op.Spend? || op.Expire? || op.Kill?)
    ensures Live(Next(policy, g, op))
  {
    match op
    case Meet(id) => AddingStaysLive(g, id);
    case Spend(k, routeId, prepaid) =>
      if k in g.inbound && routeId in g.objects[g.inbound[k]].routes {
        SpentStaysLive(g, g.inbound[k], routeId, prepaid);
      }
    case Expire(k) =>
      if k in g.inbound {
        ClosedStaysLive(g, g.inbound[k]);
      }
    case Kill(id) =>
      if Idle(g, id) {
        KilledStaysLive(g, id);
      }
  }

  /** For every operation on every live gateway: the counts stay live if and only if it is clean. */
  lemma OpExactly(policy: Policy, g: Gate, op: Op)
    requires Sound(g) && Live(g)
    ensures LiveOp(policy, g, op) <==> CleanOp(policy, g, op)
  {
    match op
    case Message(_, _) => MessageOpExactly(policy, g, op);
    case Open(tunnel, adnl, ok) => OpenedExactly(g, tunnel, adnl, ok);
    case Stop(i) =>
      if i < |g.clients| {
        StoppedExactly(g, i);
      }
    case _ => UpkeepStaysLive(policy, g, op);
  }

  // ---------------------------------------------------------------------------------------
  // Every run
  // ---------------------------------------------------------------------------------------

  lemma EmptyIsLive()
    ensures Sound(EMPTY) && Live(EMPTY)
  {
  }

  /** The gateway after any operations, from its start. */
  function After(policy: Policy, ops: seq<Op>): (r: Gate)
    ensures Sound(r)
  {
    if ops == [] then
      EmptyIsLive();
      EMPTY
    else Next(policy, After(policy, ops[..|ops| - 1]), ops[|ops| - 1])
  }

  /** The counts were live at every operation and at every instruction. */
  predicate LiveRun(policy: Policy, ops: seq<Op>) {
    ops != [] ==>
      LiveRun(policy, ops[..|ops| - 1]) && LiveOp(policy, After(policy, ops[..|ops| - 1]), ops[|ops| - 1])
  }

  predicate CleanRun(policy: Policy, ops: seq<Op>) {
    ops != [] ==>
      CleanRun(policy, ops[..|ops| - 1]) && CleanOp(policy, After(policy, ops[..|ops| - 1]), ops[|ops| - 1])
  }

  lemma {:induction false} LiveRunIsLive(policy: Policy, ops: seq<Op>)
    requires LiveRun(policy, ops)
    ensures Live(After(policy, ops))
  {
    if ops == [] {
      EmptyIsLive();
    }
  }

  /** For every run from an empty gateway: every peer's references are at all times exactly the live
      routes, out ports and tunnels that lead to it, and a referenced peer is the active one of its
      id, if and only if every operation of the run is clean. */
  lemma {:induction false} CountsStayLiveExactly(policy: Policy, ops: seq<Op>)
    ensures LiveRun(policy, ops) <==> CleanRun(policy, ops)
  {
    if ops != [] {
      var past := ops[..|ops| - 1];
      CountsStayLiveExactly(policy, past);
      if LiveRun(policy, past) {
        LiveRunIsLive(policy, past);
        OpExactly(policy, After(policy, past), ops[|ops| - 1]);
      }
    }
  }

  /** The cached route action of a section and the route instruction with its id meet at one object,
      made for that section object, leading to a peer with its ADNL id. */
  predicate MeetsSlowPath(g: Gate, ref: nat, a: Action)
    requires ref < |g.objects|
  {
    a.RouteAction? ==>
      && a.route < |g.heap|
      && var obj := g.heap[a.route];
      && obj.section == ref && obj.id in g.objects[ref].routes && g.objects[ref].routes[obj.id] == a.route
      && LeadsTo(obj.target, g.table.peers)
  }

  /** In every run, clean or not, a cached packet takes the object a route instruction takes, so it
      goes to the same peer and section key and draws on the same counter. */
  lemma FastPathMeetsSlowPath(policy: Policy, ops: seq<Op>, ref: nat, i: nat)
    requires ref < |After(policy, ops).objects| && i < |After(policy, ops).objects[ref].cached|
    ensures MeetsSlowPath(After(policy, ops), ref, After(policy, ops).objects[ref].cached[i])
  {
    var g := After(policy, ops);
    var s := g.objects[ref];
    assert SectionSound(g, ref, s) && Coherent(g.heap, s, s.cached[i]);
    if s.cached[i].RouteAction? {
      var id := g.heap[s.cached[i].route].id;
      assert RouteSound(g, ref, id, s.routes[id]);
    }
  }

  /** In every clean run that peer is the active one of the route's ADNL id, so that building the
      route again with the same id keeps it. */
  lemma RouteLeadsToActivePeer(policy: Policy, ops: seq<Op>, k: nat, routeId: nat)
    requires CleanRun(policy, ops) && k in After(policy, ops).inbound
    requires routeId in After(policy, ops).objects[After(policy, ops).inbound[k]].routes
    ensures var g := After(policy, ops);
            var r := g.objects[g.inbound[k]].routes[routeId];
            r < |g.heap| && g.heap[r].target.adnl in g.table.active && g.table.active[g.heap[r].target.adnl] == g.heap[r].target.peer
  {
    var g := After(policy, ops);
    CountsStayLiveExactly(policy, ops);
    LiveRunIsLive(policy, ops);
    SameAdnlSamePeer(g, g.inbound[k], routeId);
  }
}
