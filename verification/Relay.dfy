/** A relay gateway as a function of what happens to it: sections with their routes, cached actions
    and out ports, tunnels that start here, and the peers they all lead to.

    Section, route and tunnel objects are referred to by their place in sequences that only grow:
    a message executes on the section object it found, also after an instruction of its own has
    removed that section from the gateway. */
module Relay {
  import opened Limits
  import opened Options
  import opened PeerCounts

  datatype RouteTarget = RouteTarget(peer: PeerRef, adnl: Id, sectionKey: nat, price: nat)

  /** A route object, made for section object `section`. */
  datatype RouteObject = RouteObject(section: nat, id: nat, target: RouteTarget, prepaid: int)

  datatype OutPort = OutPort(
    inboundPeer: PeerRef, inboundAdnl: Id, inboundSection: nat, instructions: nat, receiver: nat, price: nat)

  datatype Action = RouteAction(route: nat) | SendOutAction | DeliverAction(from: nat)

  datatype Cacheable = CacheRoute(routeId: nat) | CacheSendOut | CacheDeliver(from: nat) | NotCacheable

  datatype Section = Section(key: nat, routes: map<nat, nat>, out: Option<OutPort>, cached: seq<Action>, cacheVersion: nat)

  /** A tunnel that starts here holds its first hop until it is stopped. */
  datatype Client = Client(peer: PeerRef, stopped: bool)

  /** What the gateway's operator allows. */
  datatype Policy = Policy(allowRouting: bool, allowOut: bool, minPriceRoute: nat, minPriceInOut: nat, paymentsOn: bool)

  datatype Gate = Gate(
    heap: seq<RouteObject>,
    objects: seq<Section>,
    inbound: map<nat, nat>,
    table: Table,
    tunnels: set<nat>,
    clients: seq<Client>)

  const EMPTY := Gate([], [], map[], Table([], map[]), {}, [])

  // ---------------------------------------------------------------------------------------
  // Instructions
  // ---------------------------------------------------------------------------------------

  /** What a bind instruction asks for. */
  datatype BindRequest = BindRequest(adnl: Id, section: nat, instructions: nat, receiver: nat, price: nat)

  /** The world while it executes. */
  datatype BindWorld = BindWorld(hasAddress: bool, keyOk: bool, portOk: bool)

  /** `Other` stands for the instructions that touch neither routes nor peers, with their outcome. */
  datatype Instruction =
    | Destroy
    | Build(adnl: Id, sectionKey: nat, routeId: nat, price: nat)
    | Bind(bind: BindRequest, world: BindWorld)
    | Cache(version: nat, list: seq<Cacheable>)
    | Other(ok: bool)

  predicate Routable(policy: Policy, s: Section, routeId: nat, price: nat) {
    && policy.allowRouting && price >= policy.minPriceRoute
    && (routeId in s.routes || |s.routes| < MAX_ACTIVE_ROUTES_PER_SECTION)
  }

  predicate Bindable(policy: Policy, s: Section, bind: BindRequest, world: BindWorld) {
    && policy.allowOut && world.hasAddress && world.keyOk
    && (policy.paymentsOn ==> policy.minPriceInOut <= bind.price)
    && (s.out.None? ==> world.portOk)
  }

  predicate Resolvable(tunnels: set<nat>, s: Section, c: Cacheable) {
    match c
    case CacheRoute(routeId) => routeId in s.routes
    case CacheSendOut => true
    case CacheDeliver(from) => from in tunnels
    case NotCacheable => false
  }

  function Resolved(tunnels: set<nat>, s: Section, c: Cacheable): Action
    requires Resolvable(tunnels, s, c)
  {
    match c
    case CacheRoute(routeId) => RouteAction(s.routes[routeId])
    case CacheSendOut => SendOutAction
    case CacheDeliver(from) => DeliverAction(from)
  }

  function Bound(policy: Policy, bind: BindRequest, p: PeerRef): OutPort {
    OutPort(p, bind.adnl, bind.section, bind.instructions, bind.receiver, if policy.paymentsOn then bind.price else 0)
  }

  function WithObject(g: Gate, ref: nat, s: Section): Gate
    requires ref < |g.objects|
  {
    g.(objects := g.objects[ref := s])
  }

  /** The peers of a route moving from one ADNL id to another: the new one is referenced first. */
  function Moved(t: Table, from: PeerRef, to: PeerRef): Table
    requires from < |t.peers| && to < |t.peers|
  {
    t.Referenced(to).Dereferenced(from)
  }

  function TargetOf(g: Gate, x: Instruction): RouteTarget
    requires x.Build?
  {
    RouteTarget(g.table.PeerOf(x.adnl), x.adnl, x.sectionKey, x.price)
  }

  /** An existing route keeps its object and its counter and only leads elsewhere. */
  function Retargeted(g: Gate, ref: nat, x: Instruction): Gate
    requires Sound(g) && ref < |g.objects| && x.Build? && x.routeId in g.objects[ref].routes
  {
    var r, target, t1 := g.objects[ref].routes[x.routeId], TargetOf(g, x), g.table.Added(x.adnl);
    assert SectionSound(g, ref, g.objects[ref]) && RouteSound(g, ref, x.routeId, r);
    var was := g.heap[r].target;
    if was == target.(peer := was.peer) then g.(table := t1)
    else
      g.(heap := g.heap[r := g.heap[r].(target := target)],
         table := if was.adnl == x.adnl then t1 else Moved(t1, was.peer, target.peer))
  }

  /** A new route is a new object. */
  function Installed(g: Gate, ref: nat, x: Instruction): Gate
    requires Sound(g) && ref < |g.objects| && x.Build?
  {
    var s, target := g.objects[ref], TargetOf(g, x);
    g.(heap := g.heap + [RouteObject(ref, x.routeId, target, 0)],
       table := g.table.Added(x.adnl).Referenced(target.peer),
       objects := g.objects[ref := s.(routes := s.routes[x.routeId := |g.heap|])])
  }

  /** `BuildRouteInstruction.Execute`, allowed and priced: the peer is added before the limit on
      routes is checked. */
  function Routed(g: Gate, ref: nat, x: Instruction): Gate
    requires Sound(g) && ref < |g.objects| && x.Build?
  {
    if x.routeId in g.objects[ref].routes then Retargeted(g, ref, x)
    else if |g.objects[ref].routes| >= MAX_ACTIVE_ROUTES_PER_SECTION then g.(table := g.table.Added(x.adnl))
    else Installed(g, ref, x)
  }

  /** The table after an out port gave up `from`, if it held anything, and took hold of an id. */
  function Rebound(t: Table, from: Option<PeerRef>, id: Id): Table
    requires t.Sound() && (from.Some? ==> from.value < |t.peers|)
  {
    var t1 := if from.Some? then t.Dereferenced(from.value) else t;
    t1.Added(id).Referenced(t1.PeerOf(id))
  }

  function BoundOut(policy: Policy, g: Gate, ref: nat, bind: BindRequest): Gate
    requires Sound(g) && ref < |g.objects|
  {
    var s, t := g.objects[ref], g.table;
    assert SectionSound(g, ref, s);
    if s.out.Some? && s.out.value.inboundAdnl == bind.adnl then
      WithObject(g, ref, s.(out := Some(Bound(policy, bind, s.out.value.inboundPeer))))
    else
      var t1 := if s.out.Some? then t.Dereferenced(s.out.value.inboundPeer) else t;
      WithObject(g.(table := Rebound(t, if s.out.Some? then Some(s.out.value.inboundPeer) else None, bind.adnl)),
                 ref, s.(out := Some(Bound(policy, bind, t1.PeerOf(bind.adnl)))))
  }

  /** The routes of a section object that lead to peer p. */
  function RoutesTo(heap: seq<RouteObject>, s: Section, p: PeerRef): set<nat> {
    set id | id in s.routes && s.routes[id] < |heap| && heap[s.routes[id]].target.peer == p
  }

  predicate OutTo(s: Section, p: PeerRef) {
    s.out.Some? && s.out.value.inboundPeer == p
  }

  /** How often a section object leads to peer p. */
  function Uses(heap: seq<RouteObject>, s: Section, p: PeerRef): nat {
    |RoutesTo(heap, s, p)| + if OutTo(s, p) then 1 else 0
  }

  function AllUses(g: Gate, s: Section): (d: seq<nat>)
    ensures |d| == |g.table.peers| && forall p: nat | p < |d| :: d[p] == Uses(g.heap, s, p)
  {
    seq(|g.table.peers|, p requires 0 <= p < |g.table.peers| => Uses(g.heap, s, p))
  }

  /** `closeIfNotLocked` and removal of the key: every route and the out port of the object give up
      their reference.  The object keeps them, so closing it again gives them up again. */
  function Closed(g: Gate, ref: nat): Gate
    requires ref < |g.objects|
  {
    g.(table := g.table.Released(AllUses(g, g.objects[ref])), inbound := g.inbound - {g.objects[ref].key})
  }

  predicate AllResolvable(tunnels: set<nat>, s: Section, list: seq<Cacheable>) {
    forall c | c in list :: Resolvable(tunnels, s, c)
  }

  function CacheActions(tunnels: set<nat>, s: Section, list: seq<Cacheable>): (actions: seq<Action>)
    requires AllResolvable(tunnels, s, list)
    ensures |actions| == |list| && forall i | 0 <= i < |list| :: actions[i] == Resolved(tunnels, s, list[i])
  {
    seq(|list|, i requires 0 <= i < |list| => Resolved(tunnels, s, list[i]))
  }

  function Recached(g: Gate, ref: nat, version: nat, list: seq<Cacheable>): Gate
    requires ref < |g.objects| && AllResolvable(g.tunnels, g.objects[ref], list)
  {
    var s := g.objects[ref];
    WithObject(g, ref, s.(cached := CacheActions(g.tunnels, s, list), cacheVersion := version))
  }

  /** One instruction on section object `ref`, and whether it succeeded. */
  function Execute(policy: Policy, g: Gate, ref: nat, x: Instruction): (Gate, bool)
    requires Sound(g) && ref < |g.objects|
  {
    var s := g.objects[ref];
    match x
    case Destroy => (Closed(g, ref), true)
    case Build(_, _, routeId, price) =>
      if !policy.allowRouting || policy.minPriceRoute > price then (g, false)
      else (Routed(g, ref, x), Routable(policy, s, routeId, price))
    case Bind(bind, world) =>
      if !Bindable(policy, s, bind, world) then (g, false) else (BoundOut(policy, g, ref, bind), true)
    case Cache(version, list) =>
      if s.cacheVersion >= version then (g, true)
      else if !AllResolvable(g.tunnels, s, list) then (g, false)
      else (Recached(g, ref, version, list), true)
    case Other(ok) => (g, ok)
  }

  // ---------------------------------------------------------------------------------------
  // Sound gates
  // ---------------------------------------------------------------------------------------

  predicate LeadsTo(t: RouteTarget, peers: seq<Peer>) {
    t.peer < |peers| && peers[t.peer].id == t.adnl
  }

  /** Route id of object `ref` is a route object made for it, leading to a peer with its ADNL id. */
  predicate RouteSound(g: Gate, ref: nat, id: nat, r: nat) {
    r < |g.heap| && g.heap[r].section == ref && g.heap[r].id == id && LeadsTo(g.heap[r].target, g.table.peers)
  }

  predicate OutSound(peers: seq<Peer>, out: Option<OutPort>) {
    out.Some? ==> out.value.inboundPeer < |peers| && peers[out.value.inboundPeer].id == out.value.inboundAdnl
  }

  /** A cached route action holds the very object the section maps its id to. */
  predicate Coherent(heap: seq<RouteObject>, s: Section, a: Action) {
    a.RouteAction? ==> a.route < |heap| && heap[a.route].id in s.routes && s.routes[heap[a.route].id] == a.route
  }

  predicate SectionSound(g: Gate, ref: nat, s: Section) {
    && |s.routes| <= MAX_ACTIVE_ROUTES_PER_SECTION
    && (forall id | id in s.routes :: RouteSound(g, ref, id, s.routes[id]))
    && OutSound(g.table.peers, s.out)
    && (forall i | 0 <= i < |s.cached| :: Coherent(g.heap, s, s.cached[i]))
  }

  /** Everything refers to something that exists; this holds whatever happens. */
  predicate Sound(g: Gate) {
    && g.table.Sound()
    && (forall ref: nat | ref < |g.objects| :: SectionSound(g, ref, g.objects[ref]))
    && (forall k | k in g.inbound :: g.inbound[k] < |g.objects| && g.objects[g.inbound[k]].key == k)
    && (forall i: nat | i < |g.clients| :: g.clients[i].peer < |g.table.peers|)
  }

  /** Peer objects keep their ids; more may exist. */
  predicate SameIds(t: Table, t': Table) {
    |t.peers| <= |t'.peers| && forall p | 0 <= p < |t.peers| :: t'.peers[p].id == t.peers[p].id
  }

  /** Route objects keep their identity and lead somewhere; more may exist. */
  predicate Extends(g: Gate, g': Gate) {
    && SameIds(g.table, g'.table) && g'.table.Sound()
    && |g.heap| <= |g'.heap|
    && (forall r | 0 <= r < |g.heap| :: StillRoute(g, g', r))
  }

  predicate StillRoute(g: Gate, g': Gate, r: nat)
    requires r < |g.heap| <= |g'.heap|
  {
    && g'.heap[r].section == g.heap[r].section && g'.heap[r].id == g.heap[r].id
    && (LeadsTo(g.heap[r].target, g.table.peers) ==> LeadsTo(g'.heap[r].target, g'.table.peers))
  }

  lemma SectionStaysSound(g: Gate, g': Gate, ref: nat, s: Section)
    requires SectionSound(g, ref, s) && Extends(g, g')
    ensures SectionSound(g', ref, s)
  {
    forall id | id in s.routes
      ensures RouteSound(g', ref, id, s.routes[id])
    {
      assert RouteSound(g, ref, id, s.routes[id]);
      assert StillRoute(g, g', s.routes[id]);
    }
    forall i | 0 <= i < |s.cached|
      ensures Coherent(g'.heap, s, s.cached[i])
    {
      assert Coherent(g.heap, s, s.cached[i]);
      if s.cached[i].RouteAction? {
        assert StillRoute(g, g', s.cached[i].route);
      }
    }
  }

  /** A gate stays sound if route objects and peers stay and at most one section object changed. */
  lemma StaysSound(g: Gate, g': Gate, ref: nat)
    requires Sound(g) && Extends(g, g') && ref < |g.objects| == |g'.objects|
    requires g'.objects[ref].key == g.objects[ref].key && g'.objects == g.objects[ref := g'.objects[ref]]
    requires SectionSound(g', ref, g'.objects[ref])
    requires forall k | k in g'.inbound :: k in g.inbound && g'.inbound[k] == g.inbound[k]
    requires g'.clients == g.clients
    ensures Sound(g')
  {
    forall q: nat | q < |g'.objects|
      ensures SectionSound(g', q, g'.objects[q])
    {
      if q != ref {
        SectionStaysSound(g, g', q, g.objects[q]);
      }
    }
  }

  lemma AddedIsSound(t: Table, id: Id)
    requires t.Sound()
    ensures t.Added(id).Sound() && SameIds(t, t.Added(id)) && t.PeerOf(id) < |t.Added(id).peers|
    ensures t.Added(id).peers[t.PeerOf(id)].id == id
  {
  }

  lemma ReferencedIsSound(t: Table, p: PeerRef)
    requires t.Sound() && p < |t.peers|
    ensures t.Referenced(p).Sound() && SameIds(t, t.Referenced(p))
  {
  }

  lemma DereferencedIsSound(t: Table, p: PeerRef)
    requires t.Sound() && p < |t.peers|
    ensures t.Dereferenced(p).Sound() && SameIds(t, t.Dereferenced(p))
  {
  }

  lemma ReleasedIsSound(t: Table, d: seq<nat>)
    requires t.Sound() && |d| == |t.peers|
    ensures t.Released(d).Sound() && SameIds(t, t.Released(d))
  {
  }

  lemma MovedIsSound(t: Table, from: PeerRef, to: PeerRef)
    requires t.Sound() && from < |t.peers| && to < |t.peers|
    ensures Moved(t, from, to).Sound() && SameIds(t, Moved(t, from, to))
  {
    ReferencedIsSound(t, to);
    DereferencedIsSound(t.Referenced(to), from);
  }

  lemma RetargetedExtends(g: Gate, ref: nat, x: Instruction)
    requires Sound(g) && ref < |g.objects| && x.Build? && x.routeId in g.objects[ref].routes
    ensures var g' := Retargeted(g, ref, x);
            Extends(g, g') && g' == g.(heap := g'.heap, table := g'.table)
  {
    var r, t1 := g.objects[ref].routes[x.routeId], g.table.Added(x.adnl);
    assert SectionSound(g, ref, g.objects[ref]) && RouteSound(g, ref, x.routeId, r);
    AddedIsSound(g.table, x.adnl);
    MovedIsSound(t1, g.heap[r].target.peer, g.table.PeerOf(x.adnl));
  }

  lemma RetargetedIsSound(g: Gate, ref: nat, x: Instruction)
    requires Sound(g) && ref < |g.objects| && x.Build? && x.routeId in g.objects[ref].routes
    ensures Sound(Retargeted(g, ref, x))
  {
    var g' := Retargeted(g, ref, x);
    RetargetedExtends(g, ref, x);
    assert SectionSound(g, ref, g.objects[ref]);
    SectionStaysSound(g, g', ref, g.objects[ref]);
    StaysSound(g, g', ref);
  }

  lemma InstalledIsSound(g: Gate, ref: nat, x: Instruction)
    requires Sound(g) && ref < |g.objects| && x.Build? && x.routeId !in g.objects[ref].routes
    requires |g.objects[ref].routes| < MAX_ACTIVE_ROUTES_PER_SECTION
    ensures Sound(Installed(g, ref, x))
  {
    var s, p, g' := g.objects[ref], g.table.PeerOf(x.adnl), Installed(g, ref, x);
    assert SectionSound(g, ref, s);
    AddedIsSound(g.table, x.adnl);
    ReferencedIsSound(g.table.Added(x.adnl), p);
    SectionStaysSound(g, g', ref, s);
    var s' := g'.objects[ref];
    forall id | id in s'.routes
      ensures RouteSound(g', ref, id, s'.routes[id])
    {
      assert id != x.routeId ==> RouteSound(g', ref, id, s.routes[id]);
    }
    forall i | 0 <= i < |s'.cached|
      ensures Coherent(g'.heap, s', s'.cached[i])
    {
      assert Coherent(g'.heap, s, s'.cached[i]);
    }
    StaysSound(g, g', ref);
  }

  lemma AddingIsSound(g: Gate, id: Id)
    requires Sound(g)
    ensures Sound(g.(table := g.table.Added(id)))
  {
    var g' := g.(table := g.table.Added(id));
    AddedIsSound(g.table, id);
    forall ref: nat | ref < |g.objects|
      ensures SectionSound(g', ref, g'.objects[ref])
    {
      SectionStaysSound(g, g', ref, g.objects[ref]);
    }
  }

  lemma RoutedIsSound(g: Gate, ref: nat, x: Instruction)
    requires Sound(g) && ref < |g.objects| && x.Build?
    ensures Sound(Routed(g, ref, x)) && SameKeys(g, Routed(g, ref, x))
  {
    if x.routeId in g.objects[ref].routes {
      RetargetedIsSound(g, ref, x);
    } else if |g.objects[ref].routes| >= MAX_ACTIVE_ROUTES_PER_SECTION {
      AddingIsSound(g, x.adnl);
    } else {
      InstalledIsSound(g, ref, x);
    }
  }

  /** The same section objects, for the same keys. */
  predicate SameKeys(g: Gate, g': Gate) {
    |g'.objects| == |g.objects| && forall ref: nat | ref < |g.objects| :: g'.objects[ref].key == g.objects[ref].key
  }

  lemma ReboundIsSound(t: Table, from: Option<PeerRef>, id: Id)
    requires t.Sound() && (from.Some? ==> from.value < |t.peers|)
    ensures var t1 := if from.Some? then t.Dereferenced(from.value) else t;
            var t', p := Rebound(t, from, id), t1.PeerOf(id);
            t'.Sound() && SameIds(t, t') && p < |t'.peers| && t'.peers[p].id == id
  {
    if from.Some? {
      DereferencedIsSound(t, from.value);
    }
    var t1 := if from.Some? then t.Dereferenced(from.value) else t;
    AddedIsSound(t1, id);
    ReferencedIsSound(t1.Added(id), t1.PeerOf(id));
  }

  /** Changing where the out port leads changes nothing about the routes. */
  lemma PortIsSound(g: Gate, g': Gate, ref: nat, s: Section, out: OutPort)
    requires SectionSound(g, ref, s) && Extends(g, g') && OutSound(g'.table.peers, Some(out))
    ensures SectionSound(g', ref, s.(out := Some(out)))
  {
    SectionStaysSound(g, g', ref, s);
    var s' := s.(out := Some(out));
    forall id | id in s'.routes
      ensures RouteSound(g', ref, id, s'.routes[id])
    {
      assert RouteSound(g', ref, id, s.routes[id]);
    }
    forall i | 0 <= i < |s'.cached|
      ensures Coherent(g'.heap, s', s'.cached[i])
    {
      assert Coherent(g'.heap, s, s.cached[i]);
    }
  }

  lemma BoundIsSound(policy: Policy, g: Gate, ref: nat, bind: BindRequest)
    requires Sound(g) && ref < |g.objects|
    ensures Sound(BoundOut(policy, g, ref, bind)) && SameKeys(g, BoundOut(policy, g, ref, bind))
  {
    var s, g' := g.objects[ref], BoundOut(policy, g, ref, bind);
    assert SectionSound(g, ref, s);
    ReboundIsSound(g.table, if s.out.Some? then Some(s.out.value.inboundPeer) else None, bind.adnl);
    PortIsSound(g, g', ref, s, g'.objects[ref].out.value);
    StaysSound(g, g', ref);
  }

  lemma CacheIsSound(g: Gate, ref: nat, version: nat, list: seq<Cacheable>)
    requires Sound(g) && ref < |g.objects| && AllResolvable(g.tunnels, g.objects[ref], list)
    ensures Sound(Recached(g, ref, version, list)) && SameKeys(g, Recached(g, ref, version, list))
  {
    var s, g' := g.objects[ref], Recached(g, ref, version, list);
    var s' := g'.objects[ref];
    assert SectionSound(g, ref, s);
    forall id | id in s'.routes
      ensures RouteSound(g', ref, id, s'.routes[id])
    {
      assert RouteSound(g, ref, id, s.routes[id]);
    }
    forall i | 0 <= i < |list|
      ensures Coherent(g'.heap, s', s'.cached[i])
    {
      assert list[i] in list && s'.cached[i] == Resolved(g.tunnels, s, list[i]);
      if list[i].CacheRoute? {
        assert RouteSound(g, ref, list[i].routeId, s.routes[list[i].routeId]);
      }
    }
    StaysSound(g, g', ref);
  }

  lemma ClosedIsSound(g: Gate, ref: nat)
    requires Sound(g) && ref < |g.objects|
    ensures Sound(Closed(g, ref)) && SameKeys(g, Closed(g, ref))
  {
    var s, g' := g.objects[ref], Closed(g, ref);
    ReleasedIsSound(g.table, AllUses(g, s));
    SectionStaysSound(g, g', ref, s);
    StaysSound(g, g', ref);
  }

  /** Every instruction, on any section object, closed or not, keeps the gate sound. */
  lemma ExecuteIsSound(policy: Policy, g: Gate, ref: nat, x: Instruction)
    requires Sound(g) && ref < |g.objects|
    ensures var g' := Execute(policy, g, ref, x).0;
            Sound(g') && SameKeys(g, g')
  {
    match x
    case Destroy => ClosedIsSound(g, ref);
    case Build(_, _, _, _) => RoutedIsSound(g, ref, x);
    case Bind(bind, _) => BoundIsSound(policy, g, ref, bind);
    case Cache(version, list) =>
      if AllResolvable(g.tunnels, g.objects[ref], list) {
        CacheIsSound(g, ref, version, list);
      }
    case Other(_) =>
  }
}
