/** The gateway object: its methods change peers, routes and sections step by step, and each ends in
    the state the model names. */
module Gateways {
  import opened Limits
  import opened Options
  import opened PeerCounts
  import opened Relay
  import opened LiveCounts
  import opened GatewayRuns

  /** The part of a section that is closed while the routes `todo` are not. */
  function ClosedPart(s: Section, todo: set<nat>): Section {
    Section(s.key, s.routes - todo, None, [], 0)
  }

  class Gateway {
    const policy: Policy
    const table: PeerTable
    var heap: seq<RouteObject>
    var objects: seq<Section>
    var inbound: map<nat, nat>
    var tunnels: set<nat>
    var clients: seq<Client>

    function Now(): Gate
      reads this, table
    {
      Gate(heap, objects, inbound, table.Now(), tunnels, clients)
    }

    constructor (policy: Policy)
      ensures this.policy == policy && fresh(table) && Now() == EMPTY
    {
      this.policy := policy;
      table := new PeerTable();
      heap, objects, inbound, tunnels, clients := [], [], map[], {}, [];
    }

    /** `BuildRouteInstruction.Execute`: refused when routing is not allowed, the price too low or
        the section full; otherwise a new route object, or an existing one that leads elsewhere. */
    method BuildRoute(ref: nat, x: Instruction) returns (ok: bool)
      requires Sound(Now()) && ref < |objects| && x.Build?
      modifies this`heap, this`objects, table
      ensures (Now(), ok) == Execute(policy, old(Now()), ref, x)
    {
      ghost var g := Now();
      assert SectionSound(g, ref, g.objects[ref]);
      if !policy.allowRouting || policy.minPriceRoute > x.price {
        return false;
      }
      AddedIsSound(g.table, x.adnl);
      var p := table.AddPeer(x.adnl);
      var s, target := objects[ref], RouteTarget(p, x.adnl, x.sectionKey, x.price);
      if x.routeId !in s.routes {
        if |s.routes| >= MAX_ACTIVE_ROUTES_PER_SECTION {
          return false;
        }
        table.AddReference(p);
        objects := objects[ref := s.(routes := s.routes[x.routeId := |heap|])];
        heap := heap + [RouteObject(ref, x.routeId, target, 0)];
        return true;
      }
      var r := s.routes[x.routeId];
      assert RouteSound(g, ref, x.routeId, r);
      var existing := heap[r].target;
      if existing.adnl == x.adnl && existing.sectionKey == x.sectionKey && existing.price == x.price {
        return true;
      }
      if existing.adnl != x.adnl {
        table.AddReference(p);
        table.Dereference(existing.peer);
      }
      heap := heap[r := heap[r].(target := target)];
      ok := true;
    }

    /** `BindOutInstruction.Execute`: refused when the operator does not allow it, the gate has no
        address, the receiver's key is bad, the price too low or no port can be had; otherwise the
        out port leads to the asked peer, moving the reference only with the ADNL id. */
    method BindOut(ref: nat, bind: BindRequest, world: BindWorld) returns (ok: bool)
      requires Sound(Now()) && ref < |objects|
      modifies this`objects, table
      ensures (Now(), ok) == Execute(policy, old(Now()), ref, Bind(bind, world))
    {
      ghost var g := Now();
      var s := objects[ref];
      assert SectionSound(g, ref, s);
      if !policy.allowOut || !world.hasAddress || !world.keyOk {
        return false;
      }
      if policy.paymentsOn && policy.minPriceInOut > bind.price {
        return false;
      }
      if s.out.None? && !world.portOk {
        return false;
      }
      var p;
      if s.out.Some? && s.out.value.inboundAdnl == bind.adnl {
        p := s.out.value.inboundPeer;
      } else {
        if s.out.Some? {
          DereferencedIsSound(g.table, s.out.value.inboundPeer);
          table.Dereference(s.out.value.inboundPeer);
        }
        AddedIsSound(table.Now(), bind.adnl);
        p := table.AddPeer(bind.adnl);
        table.AddReference(p);
      }
      objects := objects[ref := s.(out := Some(Bound(policy, bind, p)))];
      ok := true;
    }

    /** `CacheInstruction.Execute`: a newer version replaces the whole list, resolving every route
        id to the object it names now; an unknown route, tunnel or instruction changes nothing. */
    method UpdateCache(ref: nat, version: nat, list: seq<Cacheable>) returns (ok: bool)
      requires Sound(Now()) && ref < |objects|
      modifies this`objects
      ensures (Now(), ok) == Execute(policy, old(Now()), ref, Cache(version, list))
    {
      var s := objects[ref];
      if s.cacheVersion >= version {
        return true;
      }
      var actions: seq<Action> := [];
      for i := 0 to |list|
        invariant |actions| == i
        invariant forall j | 0 <= j < i :: Resolvable(tunnels, s, list[j]) && actions[j] == Resolved(tunnels, s, list[j])
      {
        match list[i] {
          case CacheDeliver(from) =>
            if from !in tunnels {
              assert list[i] in list && !Resolvable(tunnels, s, list[i]);
              return false;
            }
            actions := actions + [DeliverAction(from)];
          case CacheSendOut => actions := actions + [SendOutAction];
          case CacheRoute(routeId) =>
            if routeId !in s.routes {
              assert list[i] in list && !Resolvable(tunnels, s, list[i]);
              return false;
            }
            actions := actions + [RouteAction(s.routes[routeId])];
          case NotCacheable =>
            assert list[i] in list && !Resolvable(tunnels, s, list[i]);
            return false;
        }
      }
      assert AllResolvable(tunnels, s, list) && actions == CacheActions(tunnels, s, list);
      objects := objects[ref := s.(cached := actions, cacheVersion := version)];
      ok := true;
    }

    /** The routes of a section object give up their peers, in whatever order. */
    method CloseRoutes(ref: nat)
      requires Sound(Now()) && ref < |objects|
      modifies table
      ensures table.Now() == old(table.Now()).Released(AllUses(old(Now()), objects[ref].(out := None)))
    {
      ghost var g := Now();
      var s := objects[ref];
      assert SectionSound(g, ref, s);
      var todo := s.routes.Keys;
      NothingClosed(g, s);
      while todo != {}
        invariant todo <= s.routes.Keys && table.Now() == g.table.Released(AllUses(g, ClosedPart(s, todo)))
        decreases |todo|
      {
        var id :| id in todo;
        assert RouteSound(g, ref, id, s.routes[id]);
        OneRouteMore(g, s, todo, id);
        table.Dereference(heap[s.routes[id]].target.peer);
        todo := todo - {id};
      }
      AllClosed(g, s);
    }

    /** `closeIfNotLocked` and removal of the key, also when they were closed before. */
    method CloseSection(ref: nat)
      requires Sound(Now()) && ref < |objects|
      modifies this`inbound, table
      ensures Now() == Closed(old(Now()), ref)
    {
      ghost var g := Now();
      var s := objects[ref];
      assert SectionSound(g, ref, s);
      CloseRoutes(ref);
      if s.out.Some? {
        table.Dereference(s.out.value.inboundPeer);
      }
      PortReleased(g, s);
      inbound := inbound - {s.key};
    }

    /** One instruction on the section object the message found. */
    method ExecuteInstruction(ref: nat, x: Instruction) returns (ok: bool)
      requires Sound(Now()) && ref < |objects|
      modifies this`heap, this`objects, this`inbound, table
      ensures (Now(), ok) == Execute(policy, old(Now()), ref, x)
    {
      match x {
        case Destroy =>
          CloseSection(ref);
          ok := true;
        case Build(_, _, _, _) => ok := BuildRoute(ref, x);
        case Bind(bind, world) => ok := BindOut(ref, bind, world);
        case Cache(version, list) => ok := UpdateCache(ref, version, list);
        case Other(result) => ok := result;
      }
    }

    /** The instruction loop of a message. */
    method ExecuteMessage(ref: nat, list: seq<Instruction>)
      requires Sound(Now()) && ref < |objects|
      modifies this`heap, this`objects, this`inbound, table
      ensures Now() == ExecuteAll(policy, old(Now()), ref, list)
    {
      ghost var g := Now();
      for i := 0 to |list|
        invariant Sound(Now()) && ref < |objects|
        invariant ExecuteAll(policy, g, ref, list) == ExecuteAll(policy, Now(), ref, list[i..])
        invariant tunnels == g.tunnels && clients == g.clients
      {
        ghost var before := Now();
        ExecuteIsSound(policy, before, ref, list[i]);
        assert list[i..][0] == list[i] && list[i..][1..] == list[i + 1..];
        var ok := ExecuteInstruction(ref, list[i]);
        if !ok {
          return;
        }
      }
    }

    /** A message for a section key: the section is created if there is none, and at most five
        instructions execute on the object found. */
    method HandleMessage(k: nat, list: seq<Instruction>)
      requires Sound(Now())
      modifies this`heap, this`objects, this`inbound, table
      ensures Now() == Step(policy, old(Now()), Message(k, list))
    {
      ghost var g := Now();
      if k !in inbound {
        inbound := inbound[k := |objects|];
        objects := objects + [Section(k, map[], None, [], 0)];
      }
      assert Now() == WithSection(g, k);
      if |list| > MAX_INSTRUCTIONS {
        return;
      }
      ExecuteMessage(inbound[k], list);
    }

    /** `CreateRegularOutTunnel`, as far as it touches the gateway. */
    method OpenTunnel(tunnel: nat, adnl: Id, paymentsReady: bool)
      requires Sound(Now())
      modifies this`tunnels, this`clients, table
      ensures Now() == Opened(old(Now()), tunnel, adnl, paymentsReady)
    {
      AddedIsSound(table.Now(), adnl);
      var p := table.AddPeer(adnl);
      table.AddReference(p);
      if !paymentsReady {
        return;
      }
      tunnels := tunnels + {tunnel};
      clients := clients + [Client(p, false)];
    }

    /** `Stop` of a tunnel, with no memory of an earlier one. */
    method StopTunnel(i: nat)
      requires Sound(Now()) && i < |clients|
      modifies this`clients, table
      ensures Now() == Stopped(old(Now()), i)
    {
      table.Dereference(clients[i].peer);
      clients := clients[i := clients[i].(stopped := true)];
    }

    /** A route's counter, in place. */
    method SetPrepaid(ref: nat, routeId: nat, prepaid: int)
      requires Sound(Now()) && ref < |objects| && routeId in objects[ref].routes
      modifies this`heap
      ensures Now() == Spent(old(Now()), ref, routeId, prepaid)
    {
      assert SectionSound(Now(), ref, objects[ref]) && RouteSound(Now(), ref, routeId, objects[ref].routes[routeId]);
      var r := objects[ref].routes[routeId];
      heap := heap[r := heap[r].(prepaid := prepaid)];
    }

    /** The keep-alive loop drops a peer only while nothing references it. */
    method DropPeer(id: Id)
      requires Sound(Now())
      modifies table
      ensures Now() == Step(policy, old(Now()), Kill(id))
    {
      if id in table.active && table.peers[table.active[id]].references == 0 {
        table.Kill(id);
      }
    }

    method Do(op: Op)
      requires Sound(Now())
      modifies this, table
      ensures Now() == Next(policy, old(Now()), op)
    {
      match op {
        case Message(k, list) => HandleMessage(k, list);
        case Meet(id) => var _ := table.AddPeer(id);
        case Spend(k, routeId, prepaid) =>
          if k in inbound && routeId in objects[inbound[k]].routes {
            SetPrepaid(inbound[k], routeId, prepaid);
          }
        case Expire(k) =>
          if k in inbound {
            CloseSection(inbound[k]);
          }
        case Kill(id) => DropPeer(id);
        case Open(tunnel, adnl, ok) => OpenTunnel(tunnel, adnl, ok);
        case Stop(i) =>
          if i < |clients| {
            StopTunnel(i);
          }
      }
    }
  }

  lemma NothingClosed(g: Gate, s: Section)
    ensures g.table.Released(AllUses(g, ClosedPart(s, s.routes.Keys))) == g.table
  {
    var d := AllUses(g, ClosedPart(s, s.routes.Keys));
    forall p: nat | p < |d|
      ensures d[p] == 0
    {
      EmptyUses(g.heap, ClosedPart(s, s.routes.Keys), p);
    }
    NoneReleased(g.table, d);
  }

  lemma PartUses(heap: seq<RouteObject>, s: Section, todo: set<nat>, id: nat, p: PeerRef)
    requires id in todo && todo <= s.routes.Keys && s.routes[id] < |heap|
    ensures Uses(heap, ClosedPart(s, todo - {id}), p)
         == Uses(heap, ClosedPart(s, todo), p) + if heap[s.routes[id]].target.peer == p then 1 else 0
  {
    SizeWith(RoutesTo(heap, ClosedPart(s, todo), p), RoutesTo(heap, ClosedPart(s, todo - {id}), p), id,
             false, heap[s.routes[id]].target.peer == p);
  }

  lemma OneRouteMore(g: Gate, s: Section, todo: set<nat>, id: nat)
    requires id in todo && todo <= s.routes.Keys && s.routes[id] < |g.heap| && g.heap[s.routes[id]].target.peer < |g.table.peers|
    ensures g.table.Released(AllUses(g, ClosedPart(s, todo))).Dereferenced(g.heap[s.routes[id]].target.peer)
         == g.table.Released(AllUses(g, ClosedPart(s, todo - {id})))
  {
    var p, d, d' := g.heap[s.routes[id]].target.peer, AllUses(g, ClosedPart(s, todo)), AllUses(g, ClosedPart(s, todo - {id}));
    forall q: nat | q < |d|
      ensures d'[q] == d[p := d[p] + 1][q]
    {
      PartUses(g.heap, s, todo, id, q);
    }
    assert d' == d[p := d[p] + 1];
    OneMoreReleased(g.table, d, p);
  }

  lemma AllClosed(g: Gate, s: Section)
    ensures AllUses(g, ClosedPart(s, {})) == AllUses(g, s.(out := None))
  {
    assert s.routes - {} == s.routes;
    forall p: nat | p < |g.table.peers|
      ensures AllUses(g, ClosedPart(s, {}))[p] == AllUses(g, s.(out := None))[p]
    {
      assert RoutesTo(g.heap, ClosedPart(s, {}), p) == RoutesTo(g.heap, s.(out := None), p);
    }
  }

  /** The out port's reference, given up after those of the routes. */
  lemma PortReleased(g: Gate, s: Section)
    requires s.out.Some? ==> s.out.value.inboundPeer < |g.table.peers|
    ensures var t := g.table.Released(AllUses(g, s.(out := None)));
            g.table.Released(AllUses(g, s)) == if s.out.Some? then t.Dereferenced(s.out.value.inboundPeer) else t
  {
    if s.out.Some? {
      var p, d := s.out.value.inboundPeer, AllUses(g, s.(out := None));
      forall q: nat | q < |d|
        ensures AllUses(g, s)[q] == d[p := d[p] + 1][q]
      {
        PortUses(g.heap, s.(out := None), s.out.value, q);
        assert s.(out := None).(out := Some(s.out.value)) == s;
      }
      assert AllUses(g, s) == d[p := d[p] + 1];
      OneMoreReleased(g.table, d, p);
    } else {
      assert s.(out := None) == s;
    }
  }

  /** A gateway built by any operations is in the state the model names. */
  method RunGateway(policy: Policy, ops: seq<Op>) returns (gateway: Gateway)
    ensures fresh(gateway) && gateway.policy == policy && gateway.Now() == After(policy, ops)
  {
    gateway := new Gateway(policy);
    EmptyIsLive();
    for i := 0 to |ops|
      invariant fresh(gateway) && fresh(gateway.table) && gateway.policy == policy
      invariant gateway.Now() == After(policy, ops[..i])
    {
      assert ops[..i + 1][..i] == ops[..i];
      gateway.Do(ops[i]);
    }
    assert ops[..|ops|] == ops;
  }
}
