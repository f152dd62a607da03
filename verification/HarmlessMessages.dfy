/** Which messages and runs keep the reference counts live, by their text alone: whatever the
    gateway they reach and its policy. */
module HarmlessMessages {
  import opened Limits
  import opened Options
  import opened Arith
  import opened PeerCounts
  import opened Relay
  import opened LiveCounts
  import opened GatewayRuns

  // ---------------------------------------------------------------------------------------
  // What the instructions of a message settle
  // ---------------------------------------------------------------------------------------

  /** What the instructions so far leave no doubt about: where the routes they built lead, and where
      the out port does. */
  datatype Known = Known(routes: map<nat, Id>, out: Option<Id>)

  const NOTHING := Known(map[], None)

  /** Fails on every gateway, and ends the message. */
  predicate Fails(k: Known, x: Instruction) {
    match x
    case Build(_, _, routeId, _) => routeId !in k.routes && |k.routes| >= MAX_ACTIVE_ROUTES_PER_SECTION
    case Bind(_, world) => !(world.hasAddress && world.keyOk)
    case Other(ok) => !ok
    case _ => false
  }

  function Settled(k: Known, x: Instruction): Known {
    match x
    case Build(adnl, _, routeId, _) => k.(routes := k.routes[routeId := adnl])
    case Bind(bind, _) => k.(out := Some(bind.adnl))
    case _ => k
  }

  /** Destroys once more, or leads a route or the out port somewhere new. */
  predicate Harms(k: Known, x: Instruction) {
    match x
    case Destroy => true
    case Build(adnl, _, routeId, _) => !Fails(k, x) && (routeId in k.routes ==> k.routes[routeId] != adnl)
    case Bind(bind, _) => !Fails(k, x) && k.out != Some(bind.adnl)
    case _ => false
  }

  /** No instruction that may execute after a destroy harms. */
  predicate Harmless(k: Known, destroyed: bool, list: seq<Instruction>)
    decreases |list|
  {
    list != [] ==>
      && (destroyed ==> !Harms(k, list[0]))
      && (!Fails(k, list[0]) ==> Harmless(Settled(k, list[0]), destroyed || list[0].Destroy?, list[1..]))
  }

  /** Where the routes of a section object lead. */
  function Adnls(g: Gate, ref: nat): map<nat, Id>
    requires Sound(g) && ref < |g.objects|
  {
    map id | id in g.objects[ref].routes :: RouteAdnl(g, ref, id)
  }

  function OutAdnl(s: Section): Option<Id> {
    if s.out.Some? then Some(s.out.value.inboundAdnl) else None
  }

  lemma AdnlsAre(g: Gate, ref: nat, adnls: map<nat, Id>)
    requires Sound(g) && ref < |g.objects| && adnls.Keys == g.objects[ref].routes.Keys
    requires forall id | id in adnls :: adnls[id] == RouteAdnl(g, ref, id)
    ensures Adnls(g, ref) == adnls
  {
  }

  lemma InstalledAdnl(g: Gate, ref: nat, x: Instruction, id: nat)
    requires Sound(g) && ref < |g.objects| && x.Build? && x.routeId !in g.objects[ref].routes
    requires Sound(Installed(g, ref, x)) && (id == x.routeId || id in g.objects[ref].routes)
    ensures RouteAdnl(Installed(g, ref, x), ref, id) == if id == x.routeId then x.adnl else RouteAdnl(g, ref, id)
  {
    assert SectionSound(g, ref, g.objects[ref]);
    if id != x.routeId {
      assert RouteSound(g, ref, id, g.objects[ref].routes[id]);
    }
  }

  lemma InstalledAdnls(g: Gate, ref: nat, x: Instruction)
    requires Sound(g) && ref < |g.objects| && x.Build? && x.routeId !in g.objects[ref].routes
    requires |g.objects[ref].routes| < MAX_ACTIVE_ROUTES_PER_SECTION
    ensures Sound(Installed(g, ref, x)) && Adnls(Installed(g, ref, x), ref) == Adnls(g, ref)[x.routeId := x.adnl]
  {
    var adnls := Adnls(g, ref)[x.routeId := x.adnl];
    InstalledIsSound(g, ref, x);
    forall id | id in adnls
      ensures adnls[id] == RouteAdnl(Installed(g, ref, x), ref, id)
    {
      InstalledAdnl(g, ref, x, id);
    }
    AdnlsAre(Installed(g, ref, x), ref, adnls);
  }

  lemma RetargetedAdnl(g: Gate, ref: nat, x: Instruction, id: nat)
    requires Sound(g) && ref < |g.objects| && x.Build? && x.routeId in g.objects[ref].routes && id in g.objects[ref].routes
    ensures Sound(Retargeted(g, ref, x)) && Retargeted(g, ref, x).objects == g.objects
    ensures RouteAdnl(Retargeted(g, ref, x), ref, id) == if id == x.routeId then x.adnl else RouteAdnl(g, ref, id)
  {
    var s := g.objects[ref];
    RetargetedIsSound(g, ref, x);
    RetargetedOnly(g, ref, x);
    assert SectionSound(g, ref, s) && RouteSound(g, ref, x.routeId, s.routes[x.routeId]) && RouteSound(g, ref, id, s.routes[id]);
  }

  lemma RetargetedAdnls(g: Gate, ref: nat, x: Instruction)
    requires Sound(g) && ref < |g.objects| && x.Build? && x.routeId in g.objects[ref].routes
    ensures Sound(Retargeted(g, ref, x)) && Adnls(Retargeted(g, ref, x), ref) == Adnls(g, ref)[x.routeId := x.adnl]
  {
    var adnls := Adnls(g, ref)[x.routeId := x.adnl];
    RetargetedAdnl(g, ref, x, x.routeId);
    forall id | id in adnls
      ensures adnls[id] == RouteAdnl(Retargeted(g, ref, x), ref, id)
    {
      RetargetedAdnl(g, ref, x, id);
    }
    AdnlsAre(Retargeted(g, ref, x), ref, adnls);
  }

  lemma SameAdnls(g: Gate, g': Gate, ref: nat)
    requires Sound(g) && Sound(g') && ref < |g.objects| && ref < |g'.objects|
    requires g'.heap == g.heap && g'.objects[ref].routes == g.objects[ref].routes
    ensures Adnls(g', ref) == Adnls(g, ref)
  {
  }

  /** What an instruction that succeeded settles is so. */
  lemma ExecuteSettles(policy: Policy, g: Gate, ref: nat, x: Instruction)
    requires Sound(g) && ref < |g.objects| && Execute(policy, g, ref, x).1
    ensures var g' := Execute(policy, g, ref, x).0;
            && Sound(g') && ref < |g'.objects|
            && Adnls(g', ref) == (if x.Build? then Adnls(g, ref)[x.routeId := x.adnl] else Adnls(g, ref))
            && OutAdnl(g'.objects[ref]) == (if x.Bind? then Some(x.bind.adnl) else OutAdnl(g.objects[ref]))
  {
    var g' := Execute(policy, g, ref, x).0;
    ExecuteIsSound(policy, g, ref, x);
    match x
    case Build(_, _, _, _) =>
      if x.routeId in g.objects[ref].routes {
        RetargetedAdnls(g, ref, x);
        RetargetedOnly(g, ref, x);
      } else {
        InstalledAdnls(g, ref, x);
      }
    case Bind(bind, _) =>
      BoundOnly(policy, g, ref, bind);
      SameAdnls(g, g', ref);
    case Cache(_, _) =>
      CacheResult(policy, g, ref, x);
      SameAdnls(g, g', ref);
    case _ => SameAdnls(g, g', ref);
  }

  // ---------------------------------------------------------------------------------------
  // Harmless messages are clean everywhere
  // ---------------------------------------------------------------------------------------

  /** The section is as the instructions so far settled it. */
  predicate Agrees(g: Gate, ref: nat, k: Known)
    requires Sound(g) && ref < |g.objects|
  {
    && (forall id | id in k.routes :: id in Adnls(g, ref) && Adnls(g, ref)[id] == k.routes[id])
    && (k.out.Some? ==> OutAdnl(g.objects[ref]) == k.out)
  }

  lemma KnownRoutesExist(g: Gate, ref: nat, k: Known)
    requires Sound(g) && ref < |g.objects| && Agrees(g, ref, k)
    ensures k.routes.Keys <= g.objects[ref].routes.Keys && |k.routes| <= |g.objects[ref].routes| <= MAX_ACTIVE_ROUTES_PER_SECTION
    ensures |k.routes| == |g.objects[ref].routes| ==> k.routes.Keys == g.objects[ref].routes.Keys
  {
    var routes := g.objects[ref].routes;
    assert SectionSound(g, ref, g.objects[ref]);
    assert forall id | id in k.routes :: id in Adnls(g, ref);
    SubsetSize(k.routes.Keys, routes.Keys);
    if |k.routes| == |routes| && k.routes.Keys != routes.Keys {
      var id :| id in routes.Keys && id !in k.routes.Keys;
      SubsetSize(k.routes.Keys, routes.Keys - {id});
    }
  }

  lemma StillAgrees(policy: Policy, g: Gate, ref: nat, k: Known, x: Instruction)
    requires Sound(g) && ref < |g.objects| && Agrees(g, ref, k) && Execute(policy, g, ref, x).1
    ensures var g' := Execute(policy, g, ref, x).0;
            Sound(g') && ref < |g'.objects| && Agrees(g', ref, Settled(k, x)) && !Fails(k, x)
  {
    KnownRoutesExist(g, ref, k);
    ExecuteSettles(policy, g, ref, x);
  }

  lemma HarmlessTouchesNothing(policy: Policy, g: Gate, ref: nat, k: Known, x: Instruction)
    requires Sound(g) && ref < |g.objects| && Agrees(g, ref, k) && !Harms(k, x)
    ensures !Touches(policy, g, ref, x)
  {
    KnownRoutesExist(g, ref, k);
    if x.Build? && x.routeId in k.routes {
      assert Adnls(g, ref)[x.routeId] == x.adnl;
    }
  }

  lemma {:induction false} HarmlessIsClean(policy: Policy, g: Gate, ref: nat, k: Known, destroyed: bool, list: seq<Instruction>)
    requires Sound(g) && Here(g, ref) && Agrees(g, ref, k) && (destroyed || Attached(g, ref)) && Harmless(k, destroyed, list)
    ensures Clean(policy, g, ref, list)
    decreases |list|
  {
    if list != [] {
      var x := list[0];
      var (g', ok) := Execute(policy, g, ref, x);
      ExecuteIsSound(policy, g, ref, x);
      StaysHere(policy, g, ref, x);
      if destroyed {
        HarmlessTouchesNothing(policy, g, ref, k, x);
      }
      if ok {
        StillAgrees(policy, g, ref, k, x);
        HarmlessIsClean(policy, g', ref, Settled(k, x), destroyed || x.Destroy?, list[1..]);
      }
    }
  }

  // ---------------------------------------------------------------------------------------
  // Every other message harms some gateway
  // ---------------------------------------------------------------------------------------

  /** A number above everything the instructions name. */
  function Above(list: seq<Instruction>): nat {
    if list == [] then 0
    else
      Above(list[1..]) +
      match list[0]
      case Bind(bind, _) => bind.adnl + 1
      case Cache(version, _) => version
      case _ => 0
  }

  const OPEN_POLICY := Policy(true, true, 0, 0, false)

  /** A section with an out port to a peer, and a cache, both numbered n. */
  function InUse(n: nat): Gate {
    Gate([], [Section(0, map[], Some(OutPort(0, n, 0, 0, 0, 0)), [], n)], map[0 := 0], Table([Peer(n, 1)], map[n := 0]), {}, [])
  }

  lemma InUseIsSound(n: nat)
    ensures Sound(InUse(n)) && Attached(InUse(n), 0)
  {
    var g := InUse(n);
    assert SectionSound(g, 0, g.objects[0]);
  }

  lemma NoneThere(g: Gate, p: PeerRef)
    requires Sound(g) && g.inbound == map[] && g.clients == []
    ensures LiveSlots(g, p) == {}
  {
  }

  lemma InUseIsLive(n: nat)
    ensures Sound(InUse(n)) && Live(InUse(n))
  {
    var g := InUse(n);
    InUseIsSound(n);
    LiveSplits(g, 0, 0);
    assert Without(g, 0).inbound == map[];
    NoneThere(Without(g, 0), 0);
    assert RoutesTo(g.heap, g.objects[0], 0) == {};
    SameCounts(g, [1]);
  }

  /** Nothing but what the instructions settled, and that cache. */
  predicate Just(g: Gate, k: Known, n: nat)
    requires Sound(g) && 0 < |g.objects|
  {
    && Adnls(g, 0) == k.routes && OutAdnl(g.objects[0]) == Some(if k.out.Some? then k.out.value else n)
    && g.objects[0].cacheVersion == n
  }

  lemma JustRoutes(g: Gate, k: Known, n: nat)
    requires Sound(g) && 0 < |g.objects| && Just(g, k, n)
    ensures g.objects[0].routes.Keys == k.routes.Keys && |g.objects[0].routes| == |k.routes| && g.objects[0].out.Some?
  {
    assert Adnls(g, 0).Keys == g.objects[0].routes.Keys;
  }

  lemma HarmsThere(g: Gate, k: Known, n: nat, x: Instruction)
    requires Sound(g) && 0 < |g.objects| && Just(g, k, n) && Harms(k, x) && (x.Bind? ==> x.bind.adnl < n)
    ensures Touches(OPEN_POLICY, g, 0, x)
  {
    JustRoutes(g, k, n);
    if x.Build? && x.routeId in k.routes {
      assert Adnls(g, 0)[x.routeId] == RouteAdnl(g, 0, x.routeId);
    }
  }

  lemma ExecuteKeepsVersion(policy: Policy, g: Gate, ref: nat, x: Instruction)
    requires Sound(g) && ref < |g.objects| && (x.Cache? ==> x.version <= g.objects[ref].cacheVersion)
    ensures var g' := Execute(policy, g, ref, x).0;
            ref < |g'.objects| && g'.objects[ref].cacheVersion == g.objects[ref].cacheVersion
  {
    match x
    case Build(_, _, _, _) =>
      if x.routeId in g.objects[ref].routes {
        RetargetedOnly(g, ref, x);
      }
    case Bind(bind, _) => BoundOnly(policy, g, ref, bind);
    case _ =>
  }

  lemma JustSettled(g: Gate, k: Known, n: nat, x: Instruction)
    requires Sound(g) && 0 < |g.objects| && Just(g, k, n) && !Fails(k, x) && (x.Cache? ==> x.version <= n)
    ensures var (g', ok) := Execute(OPEN_POLICY, g, 0, x);
            ok && Sound(g') && 0 < |g'.objects| && Just(g', Settled(k, x), n)
  {
    JustRoutes(g, k, n);
    assert Execute(OPEN_POLICY, g, 0, x).1;
    ExecuteSettles(OPEN_POLICY, g, 0, x);
    ExecuteKeepsVersion(OPEN_POLICY, g, 0, x);
  }

  lemma {:induction false} HarmfulIsNotClean(g: Gate, k: Known, n: nat, destroyed: bool, list: seq<Instruction>)
    requires Sound(g) && Here(g, 0) && Just(g, k, n) && destroyed == Detached(g, 0)
    requires Above(list) <= n && !Harmless(k, destroyed, list)
    ensures !Clean(OPEN_POLICY, g, 0, list)
    decreases |list|
  {
    var x := list[0];
    ExecuteIsSound(OPEN_POLICY, g, 0, x);
    StaysHere(OPEN_POLICY, g, 0, x);
    if destroyed && Harms(k, x) {
      HarmsThere(g, k, n, x);
    } else {
      JustSettled(g, k, n, x);
      HarmfulIsNotClean(Execute(OPEN_POLICY, g, 0, x).0, Settled(k, x), n, destroyed || x.Destroy?, list[1..]);
    }
  }

  lemma HarmfulFails(list: seq<Instruction>)
    requires !Harmless(NOTHING, false, list)
    ensures var g := InUse(Above(list));
            Sound(g) && Live(g) && Attached(g, 0) && !LiveThroughout(OPEN_POLICY, g, 0, list)
  {
    var n := Above(list);
    InUseIsSound(n);
    InUseIsLive(n);
    assert Adnls(InUse(n), 0) == map[];
    HarmfulIsNotClean(InUse(n), NOTHING, n, false, list);
    MessageExactly(OPEN_POLICY, InUse(n), 0, list);
  }

  /** For every list of instructions: on every live gateway, under every policy, the counts stay live
      at every instruction, if and only if the list is harmless. */
  lemma AlwaysLiveExactly(list: seq<Instruction>)
    ensures (forall policy: Policy, g: Gate, ref: nat | Sound(g) && Live(g) && Attached(g, ref) ::
               LiveThroughout(policy, g, ref, list)) <==> Harmless(NOTHING, false, list)
  {
    if Harmless(NOTHING, false, list) {
      forall policy: Policy, g: Gate, ref: nat | Sound(g) && Live(g) && Attached(g, ref)
        ensures LiveThroughout(policy, g, ref, list)
      {
        HarmlessIsClean(policy, g, ref, NOTHING, false, list);
        MessageExactly(policy, g, ref, list);
      }
    } else {
      HarmfulFails(list);
    }
  }

  // A destroy at the end, and whatever follows one that neither destroys nor builds nor binds.

  predicate MayTouch(x: Instruction) {
    x.Destroy? || x.Build? || x.Bind?
  }

  predicate QuietAfterDestroy(list: seq<Instruction>) {
    forall i: nat, j: nat | i < j < |list| && list[i].Destroy? :: !MayTouch(list[j])
  }

  lemma {:induction false} QuietIsHarmless(k: Known, destroyed: bool, list: seq<Instruction>)
    requires QuietAfterDestroy(list) && (destroyed ==> forall j: nat | j < |list| :: !MayTouch(list[j]))
    ensures Harmless(k, destroyed, list)
    decreases |list|
  {
    if list != [] {
      assert destroyed ==> !MayTouch(list[0]);
      assert forall j: nat | j < |list[1..]| :: list[1..][j] == list[j + 1];
      QuietIsHarmless(Settled(k, list[0]), destroyed || list[0].Destroy?, list[1..]);
    }
  }

  // ---------------------------------------------------------------------------------------
  // Runs
  // ---------------------------------------------------------------------------------------

  /** Messages are harmless, tunnels open, and none is stopped twice. */
  predicate HarmlessRun(ops: seq<Op>) {
    && (forall op | op in ops :: (op.Message? ==> Harmless(NOTHING, false, op.list)) && (op.Open? ==> op.ok))
    && (forall i: nat, j: nat | i < j < |ops| && ops[i].Stop? :: ops[i] != ops[j])
  }

  lemma ExecuteKeepsClients(policy: Policy, g: Gate, ref: nat, x: Instruction)
    requires Sound(g) && ref < |g.objects|
    ensures Execute(policy, g, ref, x).0.clients == g.clients
  {
    match x
    case Build(_, _, _, _) =>
      if x.routeId in g.objects[ref].routes {
        RetargetedOnly(g, ref, x);
      }
    case Bind(bind, _) => BoundOnly(policy, g, ref, bind);
    case _ =>
  }

  lemma {:induction false} MessageKeepsClients(policy: Policy, g: Gate, ref: nat, list: seq<Instruction>)
    requires Sound(g) && ref < |g.objects|
    ensures ExecuteAll(policy, g, ref, list).clients == g.clients
    decreases |list|
  {
    if list != [] {
      ExecuteIsSound(policy, g, ref, list[0]);
      ExecuteKeepsClients(policy, g, ref, list[0]);
      MessageKeepsClients(policy, Execute(policy, g, ref, list[0]).0, ref, list[1..]);
    }
  }

  lemma NextClients(policy: Policy, g: Gate, op: Op, i: nat)
    requires Sound(g) && i < |Next(policy, g, op).clients| && Next(policy, g, op).clients[i].stopped
    ensures op == Stop(i) || (i < |g.clients| && g.clients[i].stopped)
  {
    if op.Message? {
      var g1 := WithSection(g, op.k);
      MessageKeepsClients(policy, g1, g1.inbound[op.k], op.list);
    }
  }

  lemma {:induction false} StoppedByStop(policy: Policy, ops: seq<Op>, i: nat)
    requires i < |After(policy, ops).clients| && After(policy, ops).clients[i].stopped
    ensures Stop(i) in ops
  {
    if ops != [] {
      var past, op := ops[..|ops| - 1], ops[|ops| - 1];
      NextClients(policy, After(policy, past), op, i);
      if op != Stop(i) {
        StoppedByStop(policy, past, i);
      }
    }
  }

  lemma HarmlessOpIsClean(policy: Policy, g: Gate, op: Op)
    requires Sound(g) && (op.Message? ==> Harmless(NOTHING, false, op.list)) && (op.Open? ==> op.ok)
    requires op.Stop? && op.client < |g.clients| ==> !g.clients[op.client].stopped
    ensures CleanOp(policy, g, op)
  {
    if op.Message? {
      var g1 := WithSection(g, op.k);
      HarmlessIsClean(policy, g1, g1.inbound[op.k], NOTHING, false, op.list);
    }
  }

  /** So the counts are live in every run of harmless messages, whatever the policies and prices. */
  lemma {:induction false} HarmlessRunIsLive(policy: Policy, ops: seq<Op>)
    requires HarmlessRun(ops)
    ensures CleanRun(policy, ops) && LiveRun(policy, ops) && Live(After(policy, ops))
  {
    if ops != [] {
      var past, op := ops[..|ops| - 1], ops[|ops| - 1];
      var g := After(policy, past);
      assert op in ops && forall o | o in past :: o in ops;
      HarmlessRunIsLive(policy, past);
      if op.Stop? && op.client < |g.clients| && g.clients[op.client].stopped {
        StoppedByStop(policy, past, op.client);
      }
      HarmlessOpIsClean(policy, g, op);
    }
    CountsStayLiveExactly(policy, ops);
    LiveRunIsLive(policy, ops);
  }
}
