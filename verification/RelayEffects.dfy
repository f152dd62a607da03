/** What each instruction and each operation leaves behind, in the fields of gateway, section and
    instruction alone: the reference the gateway's functions are compared with. */
module RelayEffects {
  import opened Options
  import opened PeerCounts
  import opened Relay
  import opened LiveCounts
  import opened GatewayRuns

  // ---------------------------------------------------------------------------------------
  // Routes
  // ---------------------------------------------------------------------------------------

  /** A route is built exactly when routing is allowed, the price is not too low, and the id is known
      or fewer than three routes are. */
  lemma BuildsExactly(policy: Policy, g: Gate, ref: nat, x: Instruction)
    requires Sound(g) && ref < |g.objects| && x.Build?
    ensures Execute(policy, g, ref, x).1 <==>
              && policy.allowRouting && x.price >= policy.minPriceRoute
              && (x.routeId in g.objects[ref].routes || |g.objects[ref].routes| < 3)
  {
  }

  /** What no instruction but a build touches, and a build only in one place. */
  predicate OtherRoutesStay(g: Gate, g': Gate, r: nat) {
    |g.heap| <= |g'.heap| <= |g.heap| + 1 && forall q: nat | q < |g.heap| && q != r :: g'.heap[q] == g.heap[q]
  }

  /** The route named leads to the ADNL id, section key and price asked for. */
  predicate LeadsAsAsked(obj: RouteObject, x: Instruction, ref: nat)
    requires x.Build?
  {
    && obj.section == ref && obj.id == x.routeId
    && obj.target.adnl == x.adnl && obj.target.sectionKey == x.sectionKey && obj.target.price == x.price
  }

  lemma RebuiltRoute(g: Gate, ref: nat, x: Instruction)
    requires Sound(g) && ref < |g.objects| && x.Build? && x.routeId in g.objects[ref].routes
    ensures var g', r := Retargeted(g, ref, x), g.objects[ref].routes[x.routeId];
            && g'.objects == g.objects && r < |g.heap| == |g'.heap| && OtherRoutesStay(g, g', r)
            && LeadsAsAsked(g'.heap[r], x, ref) && g'.heap[r].prepaid == g.heap[r].prepaid
  {
    assert SectionSound(g, ref, g.objects[ref]) && RouteSound(g, ref, x.routeId, g.objects[ref].routes[x.routeId]);
  }

  /** A route that was built is the one asked for: a known id keeps its object and its credit, a new
      one gets a new object without credit, and no other route and no other section changes. */
  lemma BuildStores(policy: Policy, g: Gate, ref: nat, x: Instruction)
    requires Sound(g) && ref < |g.objects| && x.Build? && Execute(policy, g, ref, x).1
    ensures var (g', s) := (Execute(policy, g, ref, x).0, g.objects[ref]);
            var known := x.routeId in s.routes;
            var r := if known then s.routes[x.routeId] else |g.heap|;
            && r < |g'.heap| && OtherRoutesStay(g, g', r)
            && LeadsAsAsked(g'.heap[r], x, ref)
            && g'.heap[r].prepaid == (if known && r < |g.heap| then g.heap[r].prepaid else 0)
            && g'.objects == g.objects[ref := s.(routes := s.routes[x.routeId := r])]
            && g'.inbound == g.inbound && g'.tunnels == g.tunnels && g'.clients == g.clients
  {
    var s := g.objects[ref];
    if x.routeId in s.routes {
      RebuiltRoute(g, ref, x);
      RetargetedOnly(g, ref, x);
      assert s.routes[x.routeId := s.routes[x.routeId]] == s.routes;
      assert g.objects[ref := s] == g.objects;
      RetargetedExtends(g, ref, x);
    }
  }

  /** A build that was refused changes no route and no section. */
  lemma RefusedBuildStoresNothing(policy: Policy, g: Gate, ref: nat, x: Instruction)
    requires Sound(g) && ref < |g.objects| && x.Build? && !Execute(policy, g, ref, x).1
    ensures var g' := Execute(policy, g, ref, x).0;
            g' == g.(table := g'.table)
  {
  }

  // ---------------------------------------------------------------------------------------
  // The out port
  // ---------------------------------------------------------------------------------------

  /** A port is bound exactly when that is allowed, there is an address and a usable key, the price
      is not too low if payments are on, and a first bind gets a port. */
  lemma BindsExactly(policy: Policy, g: Gate, ref: nat, bind: BindRequest, world: BindWorld)
    requires Sound(g) && ref < |g.objects|
    ensures Execute(policy, g, ref, Bind(bind, world)).1 <==>
              && policy.allowOut && world.hasAddress && world.keyOk
              && (policy.paymentsOn ==> bind.price >= policy.minPriceInOut)
              && (g.objects[ref].out.None? ==> world.portOk)
    ensures !Execute(policy, g, ref, Bind(bind, world)).1 ==> Execute(policy, g, ref, Bind(bind, world)).0 == g
  {
  }

  /** A bound port leads to the peer, section and instructions asked for, for the receiver asked for,
      at the price asked for, or at none without payments; nothing else of the section changes. */
  lemma BindStores(policy: Policy, g: Gate, ref: nat, bind: BindRequest, world: BindWorld)
    requires Sound(g) && ref < |g.objects| && Execute(policy, g, ref, Bind(bind, world)).1
    ensures var (g', s) := (Execute(policy, g, ref, Bind(bind, world)).0, g.objects[ref]);
            && ref < |g'.objects| && g'.objects[ref].out.Some?
            && var out := g'.objects[ref].out.value;
            && out.inboundAdnl == bind.adnl && out.inboundSection == bind.section
            && out.instructions == bind.instructions && out.receiver == bind.receiver
            && out.price == (if policy.paymentsOn then bind.price else 0)
            && out.inboundPeer < |g'.table.peers| && g'.table.peers[out.inboundPeer].id == bind.adnl
            && (s.out.Some? && s.out.value.inboundAdnl == bind.adnl ==> out.inboundPeer == s.out.value.inboundPeer && g'.table == g.table)
            && g' == g.(table := g'.table, objects := g.objects[ref := s.(out := Some(out))])
  {
    BoundIsSound(policy, g, ref, bind);
    BoundOnly(policy, g, ref, bind);
    assert SectionSound(g, ref, g.objects[ref]);
    var g' := BoundOut(policy, g, ref, bind);
    assert SectionSound(g', ref, g'.objects[ref]);
  }

  // ---------------------------------------------------------------------------------------
  // The cache
  // ---------------------------------------------------------------------------------------

  /** The action an entry of a cache list stands for, in this section now. */
  predicate StandsFor(g: Gate, s: Section, c: Cacheable, a: Action) {
    match c
    case CacheRoute(id) => id in s.routes && a == RouteAction(s.routes[id])
    case CacheSendOut => a == SendOutAction
    case CacheDeliver(from) => from in g.tunnels && a == DeliverAction(from)
    case NotCacheable => false
  }

  /** Names a route of the section, a tunnel that ends here, or sending out. */
  predicate Known(g: Gate, s: Section, c: Cacheable) {
    match c
    case CacheRoute(id) => id in s.routes
    case CacheSendOut => true
    case CacheDeliver(from) => from in g.tunnels
    case NotCacheable => false
  }

  /** A cache list takes effect exactly when it is newer and everything in it is known; then it
      replaces the whole cache, entry by entry. */
  lemma CachesExactly(policy: Policy, g: Gate, ref: nat, version: nat, list: seq<Cacheable>)
    requires Sound(g) && ref < |g.objects|
    ensures var (g', ok) := Execute(policy, g, ref, Cache(version, list));
            var s, newer, known := g.objects[ref], version > g.objects[ref].cacheVersion, forall c | c in list :: Known(g, g.objects[ref], c);
            && (ok <==> !newer || known)
            && (!(newer && known) ==> g' == g)
            && (newer && known ==>
                  && ref < |g'.objects| && |g'.objects[ref].cached| == |list|
                  && (forall i: nat | i < |list| :: StandsFor(g, s, list[i], g'.objects[ref].cached[i]))
                  && g' == g.(objects := g.objects[ref := s.(cached := g'.objects[ref].cached, cacheVersion := version)]))
  {
    var s := g.objects[ref];
    forall c | c in list
      ensures Known(g, s, c) <==> Resolvable(g.tunnels, s, c)
    {
    }
    if version > s.cacheVersion && AllResolvable(g.tunnels, s, list) {
      forall i: nat | i < |list|
        ensures StandsFor(g, s, list[i], Execute(policy, g, ref, Cache(version, list)).0.objects[ref].cached[i])
      {
        assert list[i] in list;
      }
    }
  }

  // ---------------------------------------------------------------------------------------
  // A whole message
  // ---------------------------------------------------------------------------------------

  /** Instructions execute in order on the object the message found, until one fails. */
  lemma ExecutesInOrder(policy: Policy, g: Gate, ref: nat, x: Instruction, rest: seq<Instruction>)
    requires Sound(g) && ref < |g.objects|
    ensures ExecuteAll(policy, g, ref, []) == g
    ensures var (g', ok) := Execute(policy, g, ref, x);
            && Sound(g') && SameKeys(g, g')
            && ExecuteAll(policy, g, ref, [x] + rest) == if ok then ExecuteAll(policy, g', ref, rest) else g'
  {
    ExecuteIsSound(policy, g, ref, x);
    assert ([x] + rest)[0] == x && ([x] + rest)[1..] == rest;
  }

  // ---------------------------------------------------------------------------------------
  // Operations
  // ---------------------------------------------------------------------------------------

  /** Destroying or expiring a section takes its key away, and no other, and keeps every object. */
  lemma ClosingRemovesKey(policy: Policy, g: Gate, k: nat)
    requires Sound(g) && k in g.inbound
    ensures var g' := Step(policy, g, Expire(k));
            && g' == g.(table := g'.table, inbound := g.inbound - {k})
            && Execute(policy, g, g.inbound[k], Destroy) == (g', true)
  {
    assert g.objects[g.inbound[k]].key == k;
  }

  /** An id is dropped exactly when its active peer has no references. */
  lemma DropsExactly(policy: Policy, g: Gate, id: Id)
    requires Sound(g)
    ensures var g' := Step(policy, g, Kill(id));
            && (id in g'.table.active <==> id in g.table.active && g.table.peers[g.table.active[id]].references != 0)
            && (forall j | j != id :: (j in g'.table.active <==> j in g.table.active) && (j in g.table.active ==> g'.table.active[j] == g.table.active[j]))
            && g' == g.(table := g.table.(active := g'.table.active))
  {
  }

  /** A message for an unknown key leaves a section there, and one of more than five instructions
      nothing else; a shorter one is executed on the object at its key. */
  lemma MessageIsHandled(policy: Policy, g: Gate, k: nat, list: seq<Instruction>)
    requires Sound(g)
    ensures var g1 := WithSection(g, k);
            && (k in g.inbound ==> g1 == g)
            && (k !in g.inbound ==>
                  && g1.objects == g.objects + [Section(k, map[], None, [], 0)] && g1.inbound == g.inbound[k := |g.objects|]
                  && g1 == g.(objects := g1.objects, inbound := g1.inbound))
            && Step(policy, g, Message(k, list)) == (if |list| > 5 then g1 else ExecuteAll(policy, g1, g1.inbound[k], list))
  {
  }

  /** A route's counter moves in place, and nothing else with it. */
  lemma SpendingSets(policy: Policy, g: Gate, k: nat, routeId: nat, prepaid: int)
    requires Sound(g) && k in g.inbound && routeId in g.objects[g.inbound[k]].routes
    ensures var g', r := Step(policy, g, Spend(k, routeId, prepaid)), g.objects[g.inbound[k]].routes[routeId];
            && r < |g.heap| == |g'.heap| && g'.heap[r] == g.heap[r].(prepaid := prepaid)
            && OtherRoutesStay(g, g', r) && g' == g.(heap := g'.heap)
  {
    assert SectionSound(g, g.inbound[k], g.objects[g.inbound[k]]);
    assert RouteSound(g, g.inbound[k], routeId, g.objects[g.inbound[k]].routes[routeId]);
  }

  /** A peer that connects is the active one of its id, a new one only if there was none. */
  lemma MeetingAdds(policy: Policy, g: Gate, id: Id)
    requires Sound(g)
    ensures var g' := Step(policy, g, Meet(id));
            && id in g'.table.active && g'.table.active[id] < |g'.table.peers| && g'.table.peers[g'.table.active[id]].id == id
            && (id in g.table.active ==> g' == g)
            && (id !in g.table.active ==> g'.table.peers == g.table.peers + [Peer(id, 0)] && g' == g.(table := g'.table))
  {
  }

  /** A tunnel that opens is registered and holds the active peer of its first hop. */
  lemma OpeningRegisters(policy: Policy, g: Gate, tunnel: nat, adnl: Id, ok: bool)
    requires Sound(g)
    ensures var g' := Step(policy, g, Open(tunnel, adnl, ok));
            && adnl in g'.table.active && g'.table.active[adnl] < |g'.table.peers|
            && (ok ==> g'.tunnels == g.tunnels + {tunnel} && g'.clients == g.clients + [Client(g'.table.active[adnl], false)])
            && (!ok ==> g'.tunnels == g.tunnels && g'.clients == g.clients)
            && g'.heap == g.heap && g'.objects == g.objects && g'.inbound == g.inbound
  {
    AddedIsSound(g.table, adnl);
  }
}
