/** Configuring a tunnel: the init onion executed hop by hop around the whole circle. */
module Setup {
  import opened Arith
  import opened Limits
  import opened Options
  import opened Bytes
  import opened Codec
  import opened Onion
  import ReplayWindow

  datatype Target = Target(adnl: bytes, section: bytes, price: uint64)

  datatype BoundPort = BoundPort(adnl: bytes, section: bytes, inbound: bytes, receiver: bytes, price: uint64)

  datatype Action = ToRoute(routeId: uint32) | ToOut | ToInitiator(from: uint32, meta: Meta)

  datatype Section = Section(
    window: ReplayWindow.Window,
    routes: map<uint32, Target>,
    cached: seq<Action>,
    cacheVersion: uint64,
    out: Option<BoundPort>)

  const FRESH := Section(ReplayWindow.FRESH, map[], [], 0, None)

  /** What a gateway's operator allows, and the tunnels that end at it. */
  datatype Policy = Policy(
    allowRouting: bool,
    allowOut: bool,
    minRoute: uint64,
    minOut: uint64,
    paymentsOn: bool,
    tunnels: set<uint32>)

  /** A message sent on, or a delivery to a tunnel that ends here. */
  datatype Emission = Forward(adnl: bytes, section: bytes, instructions: bytes) | Delivered(from: uint32, meta: Meta)

  /** What is left of the section when the message was handled, and what was sent meanwhile. */
  datatype Effect = Effect(section: Section, sent: seq<Emission>, ok: bool)

  // ---------------------------------------------------------------------------------------
  // Executing instructions on a section
  // ---------------------------------------------------------------------------------------

  function ResolveOne(p: Policy, s: Section, x: Instruction): Option<Action> {
    match x
    case Route(routeId) => if routeId in s.routes then Some(ToRoute(routeId)) else None
    case SendOut => Some(ToOut)
    case DeliverInitiator(from, meta) => if from in p.tunnels then Some(ToInitiator(from, meta)) else None
    case _ => None
  }

  /** The actions a cache instruction installs; one that cannot be resolved refuses the list. */
  function Resolve(p: Policy, s: Section, list: seq<Instruction>): Option<seq<Action>> {
    if list == [] then Some([])
    else if ResolveOne(p, s, list[0]).None? || Resolve(p, s, list[1..]).None? then None
    else Some([ResolveOne(p, s, list[0]).value] + Resolve(p, s, list[1..]).value)
  }

  /** The instructions of an init message.  A route takes the packet: it is prepaid or within its
      free rate, as the first packet of a new route always is. */
  function Execute(p: Policy, s: Section, x: Instruction, rest: bytes): Effect {
    var refused := Effect(s, [], false);
    match x
    case BuildRoute(adnl, section, routeId, price) =>
      if !p.allowRouting || p.minRoute > price then refused
      else if routeId !in s.routes && |s.routes| >= MAX_ACTIVE_ROUTES_PER_SECTION then refused
      else Effect(s.(routes := s.routes[routeId := Target(adnl, section, price)]), [], true)
    case Cache(version, list) =>
      if s.cacheVersion >= version then Effect(s, [], true)
      else if Resolve(p, s, list).None? then refused
      else Effect(s.(cached := Resolve(p, s, list).value, cacheVersion := version), [], true)
    case Route(routeId) =>
      if !p.allowRouting || routeId !in s.routes then refused
      else Effect(s, [Forward(s.routes[routeId].adnl, s.routes[routeId].section, rest)], true)
    case BindOut(adnl, section, inbound, receiver, price) =>
      if !p.allowOut || (p.paymentsOn && p.minOut > price) then refused
      else
        var out := BoundPort(adnl, section, inbound, receiver, if p.paymentsOn then price else 0);
        Effect(s.(out := Some(out)), [Forward(adnl, section, inbound)], true)
    case DeliverInitiator(from, meta) =>
      if from !in p.tunnels then refused else Effect(s, [Delivered(from, meta)], true)
    case _ => refused
  }

  function Then(sent: seq<Emission>, e: Effect): Effect {
    e.(sent := sent + e.sent)
  }

  function ExecuteAll(p: Policy, s: Section, list: seq<Instruction>, rest: bytes): Effect
    decreases |list|
  {
    if list == [] then Effect(s, [], true)
    else
      var e := Execute(p, s, list[0], rest);
      if !e.ok then e else Then(e.sent, ExecuteAll(p, e.section, list[1..], rest))
  }

  /** The instruction loop of `messageHandler`: in order, until one fails; what the earlier ones
      did stays. */
  method ExecuteInOrder(p: Policy, s: Section, list: seq<Instruction>, rest: bytes) returns (e: Effect)
    ensures e == ExecuteAll(p, s, list, rest)
  {
    e := Effect(s, [], true);
    for i := 0 to |list|
      invariant e.ok && ExecuteAll(p, s, list, rest) == Then(e.sent, ExecuteAll(p, e.section, list[i..], rest))
    {
      var step := Execute(p, e.section, list[i], rest);
      ghost var tail := ExecuteAll(p, step.section, list[i + 1..], rest);
      assert list[i..][1..] == list[i + 1..];
      assert e.sent + (step.sent + tail.sent) == (e.sent + step.sent) + tail.sent;
      e := Effect(step.section, e.sent + step.sent, step.ok);
      if !step.ok {
        return;
      }
    }
    assert e.sent + [] == e.sent;
  }

  /** One received message: decrypt with the section's keys, refuse a repeated number, refuse
      more than five instructions, execute. */
  function Receive(w: Suite, k: SectionKeys, p: Policy, s: Section, data: bytes): Effect
    requires Consumes(w.tl)
  {
    match Open(w, k, data)
    case None => Effect(s, [], false)
    case Some((container, rest)) =>
      if !s.window.Accepts(container.seqno) then Effect(s, [], false)
      else
        var s' := s.(window := s.window.Next(container.seqno));
        if |container.list| > MAX_INSTRUCTIONS then Effect(s', [], false) else ExecuteAll(p, s', container.list, rest)
  }

  /** What a cache may hold: a known route, sending out, or delivery to a tunnel that ends here. */
  predicate Cacheable(p: Policy, s: Section, x: Instruction) {
    x.SendOut? || (x.Route? && x.routeId in s.routes) || (x.DeliverInitiator? && x.from in p.tunnels)
  }

  lemma {:induction false} ResolvesExactly(p: Policy, s: Section, list: seq<Instruction>)
    ensures Resolve(p, s, list).Some? <==> forall x | x in list :: Cacheable(p, s, x)
    decreases |list|
  {
    if list != [] {
      ResolvesExactly(p, s, list[1..]);
      assert forall x | x in list :: x == list[0] || x in list[1..];
      assert list[0] in list && forall x | x in list[1..] :: x in list;
    }
  }

  /** The guards of each instruction, for every policy and section; one that is refused changes
      nothing and sends nothing. */
  lemma TakenExactly(p: Policy, s: Section, x: Instruction, rest: bytes)
    ensures Execute(p, s, x, rest).ok <==>
              match x
              case BuildRoute(_, _, routeId, price) => p.allowRouting && price >= p.minRoute && (routeId in s.routes || |s.routes| < 3)
              case Cache(version, list) => version <= s.cacheVersion || forall y | y in list :: Cacheable(p, s, y)
              case Route(routeId) => p.allowRouting && routeId in s.routes
              case BindOut(_, _, _, _, price) => p.allowOut && (p.paymentsOn ==> price >= p.minOut)
              case DeliverInitiator(from, _) => from in p.tunnels
              case _ => false
    ensures !Execute(p, s, x, rest).ok ==> Execute(p, s, x, rest) == Effect(s, [], false)
  {
    if x.Cache? {
      ResolvesExactly(p, s, x.list);
    }
  }

  /** A message that does not open, repeats a number or holds more than five instructions sends
      nothing and changes nothing but the window. */
  lemma RefusedMessage(w: Suite, k: SectionKeys, p: Policy, s: Section, data: bytes)
    requires Consumes(w.tl)
    requires Open(w, k, data).None? || !s.window.Accepts(Open(w, k, data).value.0.seqno) || |Open(w, k, data).value.0.list| > 5
    ensures var e := Receive(w, k, p, s, data);
            && !e.ok && e.sent == [] && e.section == s.(window := e.section.window)
            && (Open(w, k, data).None? ==> e.section == s)
            && (Open(w, k, data).Some? && !s.window.Accepts(Open(w, k, data).value.0.seqno) ==> e.section == s)
  {
  }

  datatype Node = Node(adnl: bytes, keys: SectionKeys)

  /** What a node does with a message for its section. */
  type Handler = (Section, bytes) -> Effect

  function HandlerOf(w: Suite, k: SectionKeys, p: Policy): Handler
    requires Consumes(w.tl)
  {
    (s, data) => Receive(w, k, p, s, data)
  }

  function HandlersOf(w: Suite, nodes: seq<Node>, policies: seq<Policy>): (handlers: seq<Handler>)
    requires Consumes(w.tl) && |nodes| == |policies|
    ensures |handlers| == |nodes|
  {
    seq(|nodes|, i requires 0 <= i < |nodes| => HandlerOf(w, nodes[i].keys, policies[i]))
  }

  /** A message follows its emissions around the circle until it is delivered or lost; one that
      is not addressed to the next node of the circle counts as lost. */
  function Circulate(nodes: seq<Node>, handlers: seq<Handler>, sections: seq<Section>, at: nat, data: bytes)
    : (seq<Section>, Option<(nat, uint32, Meta)>)
    requires |nodes| == |handlers| == |sections| && at < |nodes|
    decreases |nodes| - at
  {
    var e := handlers[at](sections[at], data);
    var sections' := sections[at := e.section];
    if !e.ok || |e.sent| != 1 then (sections', None)
    else
      match e.sent[0]
      case Delivered(from, meta) => (sections', Some((at, from, meta)))
      case Forward(adnl, section, instructions) =>
        if at + 1 < |nodes| && adnl == nodes[at + 1].adnl && section == nodes[at + 1].keys.pub
        then Circulate(nodes, handlers, sections', at + 1, instructions)
        else (sections', None)
  }

  // ---------------------------------------------------------------------------------------
  // The init message
  // ---------------------------------------------------------------------------------------

  /** What `prepareInitMessage` puts together, per node: prices, cache versions (clock readings),
      container numbers and random bytes. The first `outbound` nodes are `chainTo`, the others
      `chainFrom`. */
  datatype Tunnel = Tunnel(
    nodes: seq<Node>,
    outbound: nat,
    prices: seq<uint64>,
    versions: seq<uint64>,
    seqnos: seq<uint32>,
    salts: seq<bytes>,
    localId: uint32,
    receiver: bytes,
    state: uint32)
  {
    function Size(): nat { |nodes| }

    /** At least one node out and one node back; the last is the initiator's own gateway. */
    predicate Proper() {
      && 0 < outbound < Size()
      && |prices| == |versions| == |seqnos| == |salts| == Size()
      && (forall i | 0 <= i < Size() :: |nodes[i].keys.pub| >= 4 && |salts[i]| == 8)
    }

    /** Clocks and counters have left zero. */
    predicate Started() {
      && (forall v | v in versions :: v > 0)
      && (forall n | n in seqnos :: n > 0)
    }
  }

  /** The id of the route to a node: the first four bytes of its section key. */
  function RouteId(next: Node): uint32
    requires |next.keys.pub| >= 4
  {
    FromLE4(next.keys.pub[..4])
  }

  /** The bitwise complement of an id names the system route. */
  function Complement(id: uint32): (r: uint32)
    ensures r != id && r + id == 0xFFFF_FFFF
  {
    0xFFFF_FFFF - id
  }

  /** `buildRoute` with initial set: a paid route, its cache, a system route, and on. */
  function RelayList(next: Node, id: uint32, price: uint64, version: uint64): seq<Instruction> {
    [BuildRoute(next.adnl, next.keys.pub, id, price),
     Cache(version, [Route(id)]),
     BuildRoute(next.adnl, next.keys.pub, Complement(id), price),
     Route(id)]
  }

  function GateList(next: Node, id: uint32, price: uint64, version: uint64, back: bytes, receiver: bytes): seq<Instruction> {
    [BuildRoute(next.adnl, next.keys.pub, Complement(id), price),
     BindOut(next.adnl, next.keys.pub, back, receiver, price),
     Cache(version, [SendOut])]
  }

  function InitiatorList(localId: uint32, meta: Meta, version: uint64): seq<Instruction> {
    var deliver := DeliverInitiator(localId, meta);
    [deliver, Cache(version, [deliver])]
  }

  /** The list node i finds in its layer, given the onion the out gate sends back. */
  function ListAt(t: Tunnel, back: bytes, i: nat): seq<Instruction>
    requires t.Proper() && i < t.Size()
  {
    if i + 1 == t.Size() then InitiatorList(t.localId, StateMeta(t.state), t.versions[i])
    else
      var next := t.nodes[i + 1];
      if i + 1 == t.outbound then GateList(next, RouteId(next), t.prices[i], t.versions[i], back, t.receiver)
      else RelayList(next, RouteId(next), t.prices[i], t.versions[i])
  }

  /** The layers of nodes lo up to hi. */
  function LayersOf(t: Tunnel, back: bytes, lo: nat, hi: nat): (layers: seq<Layer>)
    requires t.Proper() && lo <= hi <= t.Size()
    ensures |layers| == hi - lo
    ensures forall j | 0 <= j < |layers| ::
              layers[j] == Layer(t.nodes[lo + j].keys, t.seqnos[lo + j], t.salts[lo + j], ListAt(t, back, lo + j))
  {
    seq(hi - lo, j requires 0 <= j < hi - lo =>
      Layer(t.nodes[lo + j].keys, t.seqnos[lo + j], t.salts[lo + j], ListAt(t, back, lo + j)))
  }

  /** The layers of the onion the out gate sends back. */
  function BackLayers(t: Tunnel): seq<Layer>
    requires t.Proper()
  {
    LayersOf(t, [], t.outbound, t.Size())
  }

  function BackOnion(w: Suite, t: Tunnel): bytes
    requires t.Proper() && Sealable(w, BackLayers(t))
  {
    Wrap(w, BackLayers(t))
  }

  /** The layers of the init message itself. */
  function OutLayers(w: Suite, t: Tunnel): seq<Layer>
    requires t.Proper() && Sealable(w, BackLayers(t))
  {
    LayersOf(t, BackOnion(w, t), 0, t.outbound)
  }

  /** The codec can write every layer. */
  predicate Writable(w: Suite, t: Tunnel) {
    t.Proper() && Sealable(w, BackLayers(t)) && Sealable(w, OutLayers(w, t))
  }

  function InitMessage(w: Suite, t: Tunnel): bytes
    requires Writable(w, t)
  {
    Wrap(w, OutLayers(w, t))
  }

  /** Every operator on the way accepts what it is asked to do. */
  predicate Accepted(t: Tunnel, policies: seq<Policy>) {
    && t.Proper() && |policies| == t.Size()
    && (forall i | 0 <= i < t.Size() - 1 :: policies[i].allowRouting && policies[i].minRoute <= t.prices[i])
    && policies[t.outbound - 1].allowOut
    && (policies[t.outbound - 1].paymentsOn ==> policies[t.outbound - 1].minOut <= t.prices[t.outbound - 1])
    && t.localId in policies[t.Size() - 1].tunnels
  }

  /** The codec can write the message and nobody on the way objects. */
  ghost predicate Ready(w: Suite, t: Tunnel, policies: seq<Policy>) {
    Lawful(w.tl) && Writable(w, t) && Accepted(t, policies)
  }

  // ---------------------------------------------------------------------------------------
  // One list on a section
  // ---------------------------------------------------------------------------------------

  lemma {:induction false} ResolveSingle(p: Policy, s: Section, x: Instruction)
    requires ResolveOne(p, s, x).Some?
    ensures Resolve(p, s, [x]) == Some([ResolveOne(p, s, x).value])
  {
    var head := [ResolveOne(p, s, x).value];
    assert [x][1..] == [];
    assert head + [] == head;
  }

  lemma RunNone(p: Policy, s: Section, rest: bytes)
    ensures ExecuteAll(p, s, [], rest) == Effect(s, [], true)
  {
  }

  lemma {:induction false} RunHead(p: Policy, s: Section, list: seq<Instruction>, rest: bytes, e: Effect, f: Effect)
    requires list != [] && Execute(p, s, list[0], rest) == e && e.ok && ExecuteAll(p, e.section, list[1..], rest) == f
    ensures ExecuteAll(p, s, list, rest) == Then(e.sent, f)
  {
  }

  /** The routes of the section together with these fit the limit. */
  predicate RoomFor(s: Section, ids: set<uint32>) {
    |s.routes.Keys + ids| <= MAX_ACTIVE_ROUTES_PER_SECTION
  }

  lemma BuildExecutes(p: Policy, s: Section, next: Node, id: uint32, price: uint64, ids: set<uint32>, rest: bytes)
    requires p.allowRouting && p.minRoute <= price && RoomFor(s, ids) && id in ids
    ensures var s' := s.(routes := s.routes[id := Target(next.adnl, next.keys.pub, price)]);
            && Execute(p, s, BuildRoute(next.adnl, next.keys.pub, id, price), rest) == Effect(s', [], true)
            && RoomFor(s', ids)
  {
    var s' := s.(routes := s.routes[id := Target(next.adnl, next.keys.pub, price)]);
    assert s'.routes.Keys + ids == s.routes.Keys + ids;
    if id !in s.routes {
      SetSizes(s.routes.Keys, s.routes.Keys + ids, id);
      assert |s.routes| == |s.routes.Keys|;
    }
  }

  lemma SetSizes(a: set<uint32>, b: set<uint32>, x: uint32)
    requires a <= b && x in b && x !in a
    ensures |a| < |b|
  {
    SubsetSize(a, b - {x});
  }

  lemma RelayExecutes(p: Policy, s: Section, next: Node, id: uint32, price: uint64, version: uint64, rest: bytes)
    requires p.allowRouting && p.minRoute <= price && s.cacheVersion < version && RoomFor(s, {id, Complement(id)})
    ensures ExecuteAll(p, s, RelayList(next, id, price, version), rest)
         == Effect(AsRelay(s, next, id, price, version), [Forward(next.adnl, next.keys.pub, rest)], true)
  {
    var target, list := Target(next.adnl, next.keys.pub, price), RelayList(next, id, price, version);
    var sent, ids := [Forward(next.adnl, next.keys.pub, rest)], {id, Complement(id)};
    var s1 := s.(routes := s.routes[id := target]);
    var s2 := s1.(cached := [ToRoute(id)], cacheVersion := version);
    var s3 := AsRelay(s, next, id, price, version);
    BuildExecutes(p, s, next, id, price, ids, rest);
    assert Execute(p, s1, list[1], rest) == Effect(s2, [], true) by {
      ResolveSingle(p, s1, Route(id));
    }
    BuildExecutes(p, s2, next, Complement(id), price, ids, rest);
    assert Execute(p, s3, list[3], rest) == Effect(s3, sent, true);
    RunNone(p, s3, rest);
    RunHead(p, s3, list[3..], rest, Effect(s3, sent, true), Effect(s3, [], true));
    RunHead(p, s2, list[2..], rest, Effect(s3, [], true), Effect(s3, sent, true));
    RunHead(p, s1, list[1..], rest, Effect(s2, [], true), Effect(s3, sent, true));
    RunHead(p, s, list, rest, Effect(s1, [], true), Effect(s3, sent, true));
  }

  lemma GateExecutes(p: Policy, s: Section, next: Node, id: uint32, price: uint64, version: uint64, back: bytes,
                     receiver: bytes, rest: bytes)
    requires p.allowRouting && p.allowOut && p.minRoute <= price && (p.paymentsOn ==> p.minOut <= price)
    requires s.cacheVersion < version && RoomFor(s, {Complement(id)})
    ensures ExecuteAll(p, s, GateList(next, id, price, version, back, receiver), rest)
         == Effect(AsGate(p, s, next, id, price, version, back, receiver), [Forward(next.adnl, next.keys.pub, back)], true)
  {
    var target, list := Target(next.adnl, next.keys.pub, price), GateList(next, id, price, version, back, receiver);
    var out := BoundPort(next.adnl, next.keys.pub, back, receiver, if p.paymentsOn then price else 0);
    var sent := [Forward(next.adnl, next.keys.pub, back)];
    var s1 := s.(routes := s.routes[Complement(id) := target]);
    var s2 := s1.(out := Some(out));
    var s3 := s2.(cached := [ToOut], cacheVersion := version);
    BuildExecutes(p, s, next, Complement(id), price, {Complement(id)}, rest);
    assert Execute(p, s1, list[1], rest) == Effect(s2, sent, true);
    assert Execute(p, s2, list[2], rest) == Effect(s3, [], true) by {
      ResolveSingle(p, s2, SendOut);
    }
    RunNone(p, s3, rest);
    RunHead(p, s2, list[2..], rest, Effect(s3, [], true), Effect(s3, [], true));
    RunHead(p, s1, list[1..], rest, Effect(s2, sent, true), Effect(s3, [], true));
    RunHead(p, s, list, rest, Effect(s1, [], true), Effect(s3, sent, true));
  }

  lemma InitiatorExecutes(p: Policy, s: Section, localId: uint32, meta: Meta, version: uint64, rest: bytes)
    requires localId in p.tunnels && s.cacheVersion < version
    ensures ExecuteAll(p, s, InitiatorList(localId, meta, version), rest)
         == Effect(s.(cached := [ToInitiator(localId, meta)], cacheVersion := version), [Delivered(localId, meta)], true)
  {
    var list, sent := InitiatorList(localId, meta, version), [Delivered(localId, meta)];
    var s1 := s.(cached := [ToInitiator(localId, meta)], cacheVersion := version);
    assert Execute(p, s, list[0], rest) == Effect(s, sent, true);
    assert Execute(p, s, list[1], rest) == Effect(s1, [], true) by {
      ResolveSingle(p, s, DeliverInitiator(localId, meta));
    }
    RunNone(p, s1, rest);
    RunHead(p, s, list[1..], rest, Effect(s1, [], true), Effect(s1, [], true));
    RunHead(p, s, list, rest, Effect(s, sent, true), Effect(s1, [], true));
  }

  // ---------------------------------------------------------------------------------------
  // What the run leaves behind
  // ---------------------------------------------------------------------------------------

  /** A relay leads to the next section by two routes and has the paid one cached. */
  function AsRelay(s: Section, next: Node, id: uint32, price: uint64, version: uint64): Section {
    var target := Target(next.adnl, next.keys.pub, price);
    s.(routes := s.routes[id := target][Complement(id) := target], cached := [ToRoute(id)], cacheVersion := version)
  }

  /** The out gate leads back by its system route, is bound to the back onion and caches sending
      out. */
  function AsGate(p: Policy, s: Section, next: Node, id: uint32, price: uint64, version: uint64, back: bytes, receiver: bytes): Section {
    s.(routes := s.routes[Complement(id) := Target(next.adnl, next.keys.pub, price)],
       out := Some(BoundPort(next.adnl, next.keys.pub, back, receiver, if p.paymentsOn then price else 0)),
       cached := [ToOut],
       cacheVersion := version)
  }

  /** Section i afterwards; the initiator's section caches delivery. */
  function Configured(t: Tunnel, policies: seq<Policy>, back: bytes, s: Section, i: nat): Section
    requires t.Proper() && |policies| == t.Size() && i < t.Size()
  {
    var s' := s.(window := s.window.Next(t.seqnos[i]));
    if i + 1 == t.Size() then s'.(cached := [ToInitiator(t.localId, StateMeta(t.state))], cacheVersion := t.versions[i])
    else
      var next := t.nodes[i + 1];
      if i + 1 == t.outbound
      then AsGate(policies[i], s', next, RouteId(next), t.prices[i], t.versions[i], back, t.receiver)
      else AsRelay(s', next, RouteId(next), t.prices[i], t.versions[i])
  }

  /** The routes node i is asked for. */
  function RoutesAt(t: Tunnel, i: nat): set<uint32>
    requires t.Proper() && i < t.Size()
  {
    if i + 1 == t.Size() then {}
    else
      var id := RouteId(t.nodes[i + 1]);
      if i + 1 == t.outbound then {Complement(id)} else {id, Complement(id)}
  }

  /** A section that takes the message: its window accepts the number, its cache is older, and its
      routes, whatever they are, leave room for those asked for. */
  predicate Receptive(t: Tunnel, s: Section, i: nat)
    requires t.Proper() && i < t.Size()
  {
    && s.window.Sound() && s.window.Accepts(t.seqnos[i])
    && s.cacheVersion < t.versions[i]
    && RoomFor(s, RoutesAt(t, i))
  }

  /** Fresh sections are, once clocks and counters have left zero. */
  lemma FreshIsReceptive(t: Tunnel, i: nat)
    requires t.Proper() && i < t.Size() && t.versions[i] > 0 && t.seqnos[i] > 0
    ensures Receptive(t, FRESH, i)
  {
    if i + 1 < t.Size() {
      var id := RouteId(t.nodes[i + 1]);
      assert FRESH.routes.Keys + {id, Complement(id)} == {id, Complement(id)};
      assert FRESH.routes.Keys + {Complement(id)} == {Complement(id)};
    } else {
      assert FRESH.routes.Keys + {} == {};
    }
  }

  /** The same tunnel later on: same nodes, larger numbers without wrap, later clocks. */
  predicate Later(t: Tunnel, u: Tunnel) {
    && t.Proper() && u.Proper() && u.nodes == t.nodes && u.outbound == t.outbound
    && forall i | 0 <= i < t.Size() :: t.seqnos[i] < u.seqnos[i] && t.versions[i] < u.versions[i]
  }

  /** So are sections that an earlier message of the same tunnel configured, while the window is
      not ahead: the tunnel can be reconfigured any number of times, prices, receiver and back
      onion included. */
  lemma ConfiguredIsReceptive(t: Tunnel, u: Tunnel, policies: seq<Policy>, back: bytes, s: Section, i: nat)
    requires Later(t, u) && |policies| == t.Size() && i < t.Size()
    requires Receptive(t, s, i) && s.window.Next(t.seqnos[i]).latest < u.seqnos[i]
    ensures Receptive(u, Configured(t, policies, back, s, i), i)
  {
    ConfiguredParts(t, policies, back, s, i);
    NextIsSound(s.window, t.seqnos[i]);
    assert RoutesAt(u, i) == RoutesAt(t, i);
    var keys, ids := s.routes.Keys, RoutesAt(t, i);
    assert (keys + ids) + ids == keys + ids;
  }

  lemma NextIsSound(w: ReplayWindow.Window, n: nat)
    requires w.Sound() && w.Accepts(n)
    ensures w.Next(n).Sound()
  {
  }

  lemma ConfiguredParts(t: Tunnel, policies: seq<Policy>, back: bytes, s: Section, i: nat)
    requires t.Proper() && |policies| == t.Size() && i < t.Size()
    ensures var s' := Configured(t, policies, back, s, i);
            && s'.routes.Keys == s.routes.Keys + RoutesAt(t, i)
            && s'.window == s.window.Next(t.seqnos[i]) && s'.cacheVersion == t.versions[i]
  {
  }

  /** What node i sends: the rest of the message, the back onion, or the delivery. */
  function SentBy(t: Tunnel, back: bytes, rest: bytes, i: nat): Emission
    requires t.Proper() && i < t.Size()
  {
    if i + 1 == t.Size() then Delivered(t.localId, StateMeta(t.state))
    else Forward(t.nodes[i + 1].adnl, t.nodes[i + 1].keys.pub, if i + 1 == t.outbound then back else rest)
  }

  /** No list is too long and no section ends with too many routes. */
  lemma WithinLimits(t: Tunnel, policies: seq<Policy>, back: bytes, s: Section, i: nat)
    requires t.Proper() && |policies| == t.Size() && i < t.Size() && RoomFor(s, RoutesAt(t, i))
    ensures |ListAt(t, back, i)| <= MAX_INSTRUCTIONS
    ensures |Configured(t, policies, back, s, i).routes| <= MAX_ACTIVE_ROUTES_PER_SECTION
  {
    var routes := Configured(t, policies, back, s, i).routes;
    ConfiguredParts(t, policies, back, s, i);
    assert |routes| == |routes.Keys|;
  }

  lemma NodeExecutes(t: Tunnel, policies: seq<Policy>, back: bytes, rest: bytes, s: Section, i: nat)
    requires Accepted(t, policies) && i < t.Size() && Receptive(t, s, i)
    ensures ExecuteAll(policies[i], s.(window := s.window.Next(t.seqnos[i])), ListAt(t, back, i), rest)
         == Effect(Configured(t, policies, back, s, i), [SentBy(t, back, rest, i)], true)
  {
    var p, s' := policies[i], s.(window := s.window.Next(t.seqnos[i]));
    if i + 1 == t.Size() {
      InitiatorExecutes(p, s', t.localId, StateMeta(t.state), t.versions[i], rest);
    } else if i + 1 == t.outbound {
      GateExecutes(p, s', t.nodes[i + 1], RouteId(t.nodes[i + 1]), t.prices[i], t.versions[i], back, t.receiver, rest);
    } else {
      RelayExecutes(p, s', t.nodes[i + 1], RouteId(t.nodes[i + 1]), t.prices[i], t.versions[i], rest);
    }
  }

  /** The bytes that reach node i. */
  function MessageAt(w: Suite, t: Tunnel, i: nat): bytes
    requires Writable(w, t) && i < t.Size()
  {
    if i < t.outbound then MessageTo(w, OutLayers(w, t), i) else MessageTo(w, BackLayers(t), i - t.outbound)
  }

  /** What node i passes on if its list says so. */
  function RestAt(w: Suite, t: Tunnel, i: nat): bytes
    requires Writable(w, t) && i < t.Size()
  {
    if i < t.outbound then MessageTo(w, OutLayers(w, t), i + 1) else MessageTo(w, BackLayers(t), i - t.outbound + 1)
  }

  lemma ListsDoNotMix(t: Tunnel, back: bytes, i: nat)
    requires t.Proper() && t.outbound <= i < t.Size()
    ensures ListAt(t, [], i) == ListAt(t, back, i)
  {
  }

  lemma HopOpens(w: Suite, layers: seq<Layer>, j: nat, l: Layer, data: bytes, rest: bytes)
    requires Lawful(w.tl) && Sealable(w, layers) && j < |layers|
    requires layers[j] == l && MessageTo(w, layers, j) == data && MessageTo(w, layers, j + 1) == rest
    ensures Open(w, l.keys, data) == Some((Container(l.seqno, l.list), rest))
  {
    HopPassesOn(w, layers, j);
  }

  function LayerAt(t: Tunnel, back: bytes, i: nat): Layer
    requires t.Proper() && i < t.Size()
  {
    Layer(t.nodes[i].keys, t.seqnos[i], t.salts[i], ListAt(t, back, i))
  }

  lemma OutboundOpens(w: Suite, t: Tunnel, i: nat, l: Layer)
    requires Lawful(w.tl) && Writable(w, t) && i < t.outbound && l == LayerAt(t, BackOnion(w, t), i)
    ensures Open(w, l.keys, MessageAt(w, t, i)) == Some((Container(l.seqno, l.list), RestAt(w, t, i)))
  {
    var layers := OutLayers(w, t);
    assert layers[i] == l;
    HopOpens(w, layers, i, l, MessageTo(w, layers, i), MessageTo(w, layers, i + 1));
  }

  lemma BackLayerIs(t: Tunnel, i: nat, l: Layer)
    requires t.Proper() && t.outbound <= i < t.Size() && l == LayerAt(t, [], i)
    ensures i - t.outbound < |BackLayers(t)| && BackLayers(t)[i - t.outbound] == l
  {
  }

  lemma InboundOpens(w: Suite, t: Tunnel, i: nat, l: Layer)
    requires Lawful(w.tl) && Writable(w, t) && t.outbound <= i < t.Size() && l == LayerAt(t, [], i)
    ensures Open(w, l.keys, MessageAt(w, t, i)) == Some((Container(l.seqno, l.list), RestAt(w, t, i)))
  {
    BackLayerIs(t, i, l);
    HopOpens(w, BackLayers(t), i - t.outbound, l, MessageAt(w, t, i), RestAt(w, t, i));
  }

  /** Node i opens exactly its own list. */
  lemma NodeOpens(w: Suite, t: Tunnel, i: nat)
    requires Lawful(w.tl) && Writable(w, t) && i < t.Size()
    ensures Open(w, t.nodes[i].keys, MessageAt(w, t, i))
         == Some((Container(t.seqnos[i], ListAt(t, BackOnion(w, t), i)), RestAt(w, t, i)))
  {
    if i < t.outbound {
      OutboundOpens(w, t, i, LayerAt(t, BackOnion(w, t), i));
    } else {
      ListsDoNotMix(t, BackOnion(w, t), i);
      InboundOpens(w, t, i, LayerAt(t, [], i));
    }
  }

  lemma NextMessage(w: Suite, t: Tunnel, i: nat)
    requires Writable(w, t) && i + 1 < t.Size()
    ensures MessageAt(w, t, i + 1) == if i + 1 == t.outbound then BackOnion(w, t) else RestAt(w, t, i)
  {
    if i + 1 == t.outbound {
      assert BackLayers(t)[0..] == BackLayers(t);
    }
  }

  /** One message whose number is new. */
  lemma ReceiveNew(w: Suite, k: SectionKeys, p: Policy, s: Section, data: bytes, c: Container, rest: bytes)
    requires Consumes(w.tl) && Open(w, k, data) == Some((c, rest)) && s.window.Accepts(c.seqno) && |c.list| <= MAX_INSTRUCTIONS
    ensures Receive(w, k, p, s, data) == ExecuteAll(p, s.(window := s.window.Next(c.seqno)), c.list, rest)
  {
  }

  /** One hop of the run. */
  lemma NodeIsConfigured(w: Suite, t: Tunnel, policies: seq<Policy>, s: Section, i: nat)
    requires Ready(w, t, policies) && i < t.Size() && Receptive(t, s, i)
    ensures Receive(w, t.nodes[i].keys, policies[i], s, MessageAt(w, t, i))
         == Effect(Configured(t, policies, BackOnion(w, t), s, i), [SentBy(t, BackOnion(w, t), RestAt(w, t, i), i)], true)
  {
    var back, rest := BackOnion(w, t), RestAt(w, t, i);
    NodeOpens(w, t, i);
    WithinLimits(t, policies, back, s, i);
    ReceiveNew(w, t.nodes[i].keys, policies[i], s, MessageAt(w, t, i), Container(t.seqnos[i], ListAt(t, back, i)), rest);
    NodeExecutes(t, policies, back, rest, s, i);
  }

  // ---------------------------------------------------------------------------------------
  // The whole circle
  // ---------------------------------------------------------------------------------------

  /** Node i turns its section into the given one and sends the next node its message. */
  predicate HopDoes(nodes: seq<Node>, handlers: seq<Handler>, sections: seq<Section>, msgs: seq<bytes>, after: seq<Section>,
                    last: Emission, i: nat)
    requires |nodes| == |handlers| == |sections| == |msgs| == |after| && i < |nodes|
  {
    handlers[i](sections[i], msgs[i]) == Effect(
      after[i],
      [if i + 1 == |nodes| then last else Forward(nodes[i + 1].adnl, nodes[i + 1].keys.pub, msgs[i + 1])],
      true)
  }

  predicate EveryHopDoes(nodes: seq<Node>, handlers: seq<Handler>, sections: seq<Section>, msgs: seq<bytes>, after: seq<Section>,
                         last: Emission, from: nat)
    requires |nodes| == |handlers| == |sections| == |msgs| == |after|
  {
    forall i: nat | from <= i < |nodes| :: HopDoes(nodes, handlers, sections, msgs, after, last, i)
  }

  lemma {:induction false} CirculateFrom(nodes: seq<Node>, handlers: seq<Handler>, sections: seq<Section>, msgs: seq<bytes>,
                                         after: seq<Section>, from: uint32, meta: Meta, at: nat)
    requires |nodes| == |handlers| == |sections| == |msgs| == |after| && at < |nodes|
    requires EveryHopDoes(nodes, handlers, sections, msgs, after, Delivered(from, meta), at)
    ensures Circulate(nodes, handlers, sections, at, msgs[at]) == (sections[..at] + after[at..], Some((|nodes| - 1, from, meta)))
    decreases |nodes| - at
  {
    var sections' := sections[at := after[at]];
    assert HopDoes(nodes, handlers, sections, msgs, after, Delivered(from, meta), at);
    if at + 1 < |nodes| {
      forall i: nat | at + 1 <= i < |nodes|
        ensures HopDoes(nodes, handlers, sections', msgs, after, Delivered(from, meta), i)
      {
        assert HopDoes(nodes, handlers, sections, msgs, after, Delivered(from, meta), i);
      }
      CirculateFrom(nodes, handlers, sections', msgs, after, from, meta, at + 1);
      assert sections'[..at + 1] + after[at + 1..] == sections[..at] + after[at..];
    } else {
      assert sections' == sections[..at] + after[at..];
    }
  }

  /** The message goes round: it leaves the sections as given and arrives at the last node. */
  predicate ComesRound(nodes: seq<Node>, handlers: seq<Handler>, sections: seq<Section>, data: bytes, after: seq<Section>,
                       from: uint32, meta: Meta)
    requires |nodes| == |handlers| == |sections| > 0
  {
    Circulate(nodes, handlers, sections, 0, data) == (after, Some((|nodes| - 1, from, meta)))
  }

  lemma {:induction false} AroundTheCircle(nodes: seq<Node>, handlers: seq<Handler>, sections: seq<Section>, msgs: seq<bytes>,
                                           after: seq<Section>, from: uint32, meta: Meta)
    requires |nodes| == |handlers| == |sections| == |msgs| == |after| > 0
    requires EveryHopDoes(nodes, handlers, sections, msgs, after, Delivered(from, meta), 0)
    ensures ComesRound(nodes, handlers, sections, msgs[0], after, from, meta)
  {
    CirculateFrom(nodes, handlers, sections, msgs, after, from, meta, 0);
    assert sections[..0] + after[0..] == after;
  }

  function Messages(w: Suite, t: Tunnel): (msgs: seq<bytes>)
    requires Writable(w, t)
    ensures |msgs| == t.Size() && msgs[0] == InitMessage(w, t)
    ensures forall i: nat | i < t.Size() :: msgs[i] == MessageAt(w, t, i)
  {
    assert MessageAt(w, t, 0) == InitMessage(w, t) by {
      assert OutLayers(w, t)[0..] == OutLayers(w, t);
    }
    seq(t.Size(), i requires 0 <= i < t.Size() => MessageAt(w, t, i))
  }

  function AllConfigured(t: Tunnel, policies: seq<Policy>, back: bytes, sections: seq<Section>): (after: seq<Section>)
    requires t.Proper() && |policies| == |sections| == t.Size()
    ensures |after| == t.Size() && forall i: nat | i < t.Size() :: after[i] == Configured(t, policies, back, sections[i], i)
  {
    seq(t.Size(), i requires 0 <= i < t.Size() => Configured(t, policies, back, sections[i], i))
  }

  predicate AllReceptive(t: Tunnel, sections: seq<Section>) {
    t.Proper() && |sections| == t.Size() && forall i: nat | i < t.Size() :: Receptive(t, sections[i], i)
  }

  lemma {:induction false} HopIsDone(w: Suite, t: Tunnel, policies: seq<Policy>, sections: seq<Section>, i: nat)
    requires Ready(w, t, policies) && AllReceptive(t, sections) && i < t.Size()
    ensures HopDoes(t.nodes, HandlersOf(w, t.nodes, policies), sections, Messages(w, t),
                    AllConfigured(t, policies, BackOnion(w, t), sections), Delivered(t.localId, StateMeta(t.state)), i)
  {
    var handlers, s, data := HandlersOf(w, t.nodes, policies), sections[i], MessageAt(w, t, i);
    assert handlers[i](s, data) == Receive(w, t.nodes[i].keys, policies[i], s, data);
    NodeIsConfigured(w, t, policies, s, i);
    if i + 1 < t.Size() {
      NextMessage(w, t, i);
    }
  }

  lemma {:induction false} EveryHopIsDone(w: Suite, t: Tunnel, policies: seq<Policy>, sections: seq<Section>)
    requires Ready(w, t, policies) && AllReceptive(t, sections)
    ensures EveryHopDoes(t.nodes, HandlersOf(w, t.nodes, policies), sections, Messages(w, t),
                         AllConfigured(t, policies, BackOnion(w, t), sections), Delivered(t.localId, StateMeta(t.state)), 0)
  {
    forall i: nat | 0 <= i < t.Size()
      ensures HopDoes(t.nodes, HandlersOf(w, t.nodes, policies), sections, Messages(w, t),
                      AllConfigured(t, policies, BackOnion(w, t), sections), Delivered(t.localId, StateMeta(t.state)), i)
    {
      HopIsDone(w, t, policies, sections, i);
    }
  }

  /** For chains of any length: one init message, met by sections that take it, fresh or configured
      before, configures every section of the circle and comes back to the initiator. */
  lemma {:induction false} SetupConfiguresEveryHop(w: Suite, t: Tunnel, policies: seq<Policy>, sections: seq<Section>)
    requires Ready(w, t, policies) && AllReceptive(t, sections)
    ensures ComesRound(t.nodes, HandlersOf(w, t.nodes, policies), sections, InitMessage(w, t),
                       AllConfigured(t, policies, BackOnion(w, t), sections), t.localId, StateMeta(t.state))
  {
    var handlers, msgs := HandlersOf(w, t.nodes, policies), Messages(w, t);
    var after := AllConfigured(t, policies, BackOnion(w, t), sections);
    EveryHopIsDone(w, t, policies, sections);
    AroundTheCircle(t.nodes, handlers, sections, msgs, after, t.localId, StateMeta(t.state));
  }

  /** On a fresh circle, in particular; and then again and again: a later message of the same
      tunnel, with other prices or another receiver, configures the same circle once more. */
  lemma {:induction false} SetupAndReconfigure(w: Suite, t: Tunnel, u: Tunnel, policies: seq<Policy>)
    requires Ready(w, t, policies) && Ready(w, u, policies) && t.Started() && Later(t, u)
    ensures var fresh' := seq(t.Size(), _ => FRESH);
            var once := AllConfigured(t, policies, BackOnion(w, t), fresh');
            && ComesRound(t.nodes, HandlersOf(w, t.nodes, policies), fresh', InitMessage(w, t), once, t.localId, StateMeta(t.state))
            && ComesRound(u.nodes, HandlersOf(w, u.nodes, policies), once, InitMessage(w, u),
                          AllConfigured(u, policies, BackOnion(w, u), once), u.localId, StateMeta(u.state))
  {
    var fresh' := seq(t.Size(), _ => FRESH);
    var once := AllConfigured(t, policies, BackOnion(w, t), fresh');
    CircleIsReceptive(t, u, policies, BackOnion(w, t), fresh');
    SetupConfiguresEveryHop(w, t, policies, fresh');
    SetupConfiguresEveryHop(w, u, policies, once);
  }

  lemma {:induction false} CircleIsReceptive(t: Tunnel, u: Tunnel, policies: seq<Policy>, back: bytes, fresh': seq<Section>)
    requires t.Proper() && t.Started() && Later(t, u) && |policies| == t.Size() && fresh' == seq(t.Size(), _ => FRESH)
    ensures AllReceptive(t, fresh') && AllReceptive(u, AllConfigured(t, policies, back, fresh'))
  {
    forall i: nat | i < t.Size()
      ensures Receptive(t, fresh'[i], i) && Receptive(u, Configured(t, policies, back, fresh'[i], i), i)
    {
      assert t.versions[i] in t.versions && t.seqnos[i] in t.seqnos;
      FreshIsReceptive(t, i);
      ConfiguredIsReceptive(t, u, policies, back, FRESH, i);
    }
  }

  /** The init message delivered once more to any node, while its section lives, is refused there
      and changes nothing. */
  lemma {:induction false} RepeatIsRefused(w: Suite, t: Tunnel, policies: seq<Policy>, s: Section, i: nat)
    requires Ready(w, t, policies) && i < t.Size() && Receptive(t, s, i)
    ensures var s' := Configured(t, policies, BackOnion(w, t), s, i);
            Receive(w, t.nodes[i].keys, policies[i], s', MessageAt(w, t, i)) == Effect(s', [], false)
  {
    NodeOpens(w, t, i);
  }

  /** Where a cached packet that reaches node `at` ends up when each section runs its cached
      action: the node that does something other than pass it to the next one, and that action. */
  function FollowCached(nodes: seq<Node>, sections: seq<Section>, at: nat): Option<(nat, Action)>
    requires |nodes| == |sections| && at < |nodes|
    decreases |nodes| - at
  {
    var s := sections[at];
    if |s.cached| != 1 then None
    else if s.cached[0].ToRoute? && at + 1 < |nodes| && s.cached[0].routeId in s.routes
            && s.routes[s.cached[0].routeId].adnl == nodes[at + 1].adnl
            && s.routes[s.cached[0].routeId].section == nodes[at + 1].keys.pub
    then FollowCached(nodes, sections, at + 1)
    else Some((at, s.cached[0]))
  }

  /** After the setup, cached packets travel from any outbound node to the out port, and from any
      inbound node to the initiator. */
  lemma {:induction false} CachedPacketsArrive(t: Tunnel, policies: seq<Policy>, back: bytes, sections: seq<Section>, at: nat)
    requires t.Proper() && |policies| == |sections| == t.Size() && at < t.Size()
    ensures FollowCached(t.nodes, AllConfigured(t, policies, back, sections), at)
         == Some(if at < t.outbound then (t.outbound - 1, ToOut)
                 else (t.Size() - 1, ToInitiator(t.localId, StateMeta(t.state))))
    decreases t.Size() - at
  {
    if at + 1 < t.Size() && at + 1 != t.outbound {
      CachedPacketsArrive(t, policies, back, sections, at + 1);
    }
  }

  /** A gateway that knows only its private key and the section key of the message derives the keys
      the initiator sealed with, so the handlers above are those of real gateways. */
  lemma GatewaysDeriveTheKeys(w: Suite, ag: Agreement, sectionPrivate: bytes, gatewayPrivate: bytes, n: Node, p: Policy)
    requires Consumes(w.tl) && Symmetric(ag) && n.keys == SenderKeys(w, ag, sectionPrivate, ag.pub(gatewayPrivate))
    ensures HandlerOf(w, ReceiverKeys(w, ag, gatewayPrivate, n.keys.pub), p) == HandlerOf(w, n.keys, p)
  {
    BothEndsAgree(w, ag, sectionPrivate, gatewayPrivate);
  }

  // ---------------------------------------------------------------------------------------
  // Preparing the message
  // ---------------------------------------------------------------------------------------

  /** The bytes are what sealing these layers gives. */
  ghost predicate Sealed(w: Suite, layers: seq<Layer>, data: bytes) {
    Sealable(w, layers) ==> data == Wrap(w, layers)
  }

  lemma SealOneMore(w: Suite, l: Layer, layers: seq<Layer>, inner: bytes)
    requires |l.salt| == 8 && Sealed(w, layers, inner)
    ensures Sealed(w, [l] + layers, Seal(w, l.keys, l.seqno, l.salt, l.list, inner))
  {
    var all := [l] + layers;
    assert all[1..] == layers;
    if Sealable(w, all) {
      SealableTail(w, all, 1);
    }
  }

  function Numbered(t: Tunnel, seqnos: seq<uint32>, salts: seq<bytes>): Tunnel {
    t.(seqnos := seqnos, salts := salts)
  }

  predicate SaltsFit(t: Tunnel, salts: seq<bytes>) {
    |salts| == t.Size() && forall i | 0 <= i < |salts| :: |salts[i]| == 8
  }

  lemma ListsStay(t: Tunnel, seqnos: seq<uint32>, salts: seq<bytes>, back: bytes, i: nat)
    requires t.Proper() && Numbered(t, seqnos, salts).Proper() && i < t.Size()
    ensures ListAt(Numbered(t, seqnos, salts), back, i) == ListAt(t, back, i)
  {
  }

  lemma LayersStep(t: Tunnel, u: Tunnel, back: bytes, i: nat, hi: nat, n: uint32, salt: bytes)
    requires t.Proper() && i < hi <= t.Size() && |salt| == 8 && u == Numbered(t, t.seqnos[i := n], t.salts[i := salt])
    ensures u.Proper()
    ensures LayersOf(u, back, i, hi) == [Layer(t.nodes[i].keys, n, salt, ListAt(t, back, i))] + LayersOf(t, back, i + 1, hi)
  {
    assert u.Proper();
    var l, layers := Layer(t.nodes[i].keys, n, salt, ListAt(t, back, i)), LayersOf(t, back, i + 1, hi);
    forall j: nat | j < hi - i
      ensures LayersOf(u, back, i, hi)[j] == ([l] + layers)[j]
    {
      ListsStay(t, t.seqnos[i := n], t.salts[i := salt], back, i + j);
      if j > 0 {
        assert layers[j - 1] == Layer(t.nodes[i + j].keys, t.seqnos[i + j], t.salts[i + j], ListAt(t, back, i + j));
      }
    }
  }

  /** One more layer around what nodes i + 1 up to hi will find. */
  lemma SealStep(w: Suite, t: Tunnel, u: Tunnel, back: bytes, i: nat, hi: nat, l: Layer, inner: bytes)
    requires t.Proper() && i < hi <= t.Size() && |l.salt| == 8 && Sealed(w, LayersOf(t, back, i + 1, hi), inner)
    requires u == Numbered(t, t.seqnos[i := l.seqno], t.salts[i := l.salt])
    requires l == Layer(t.nodes[i].keys, l.seqno, l.salt, ListAt(t, back, i))
    ensures u.Proper() && Sealed(w, LayersOf(u, back, i, hi), Seal(w, l.keys, l.seqno, l.salt, l.list, inner))
  {
    LayersStep(t, u, back, i, hi, l.seqno, l.salt);
    SealOneMore(w, l, LayersOf(t, back, i + 1, hi), inner);
  }

  /** Layers depend on the numbers and random bytes of their own nodes only. */
  lemma LayersAgree(t: Tunnel, u: Tunnel, back: bytes, lo: nat, hi: nat)
    requires t.Proper() && u.Proper() && lo <= hi <= t.Size() && u == Numbered(t, u.seqnos, u.salts)
    requires forall i | lo <= i < hi :: u.seqnos[i] == t.seqnos[i] && u.salts[i] == t.salts[i]
    ensures LayersOf(u, back, lo, hi) == LayersOf(t, back, lo, hi)
  {
    forall j: nat | j < hi - lo
      ensures LayersOf(u, back, lo, hi)[j] == LayersOf(t, back, lo, hi)[j]
    {
      assert ListAt(u, back, lo + j) == ListAt(t, back, lo + j);
    }
  }

  /** The counters of the sections with those of nodes lo up to hi moved on by one. */
  function Moved(counters: seq<uint32>, lo: nat, hi: nat): (r: seq<uint32>)
    ensures |r| == |counters|
    ensures forall i | 0 <= i < |r| :: r[i] == if lo <= i < hi then Successor(counters[i]) else counters[i]
  {
    seq(|counters|, i requires 0 <= i < |counters| => if lo <= i < hi then Successor(counters[i]) else counters[i])
  }

  lemma MoveOneMore(counters: seq<uint32>, i: nat, hi: nat)
    requires i < hi <= |counters|
    ensures Moved(counters, i + 1, hi)[i := Successor(counters[i])] == Moved(counters, i, hi)
  {
  }

  /** Random bytes that differ only for nodes lo up to hi. */
  predicate DrawnFor(before: seq<bytes>, after: seq<bytes>, lo: nat, hi: nat) {
    |before| == |after| && forall i | 0 <= i < |after| && !(lo <= i < hi) :: after[i] == before[i]
  }

  lemma DrawOneMore(before: seq<bytes>, was: seq<bytes>, now: seq<bytes>, i: nat, hi: nat)
    requires i < hi <= |before| && DrawnFor(before, was, i + 1, hi) && |now| == |was| && now == was[i := now[i]]
    ensures DrawnFor(before, now, i, hi)
  {
  }

  /** The bytes the layers of nodes lo up to hi are sealed into. */
  ghost predicate SealsFor(w: Suite, t: Tunnel, back: bytes, lo: nat, hi: nat, data: bytes) {
    t.Proper() && lo <= hi <= t.Size() && Sealed(w, LayersOf(t, back, lo, hi), data)
  }

  lemma SealsNothing(w: Suite, t: Tunnel, back: bytes, hi: nat)
    requires t.Proper() && hi <= t.Size()
    ensures SealsFor(w, t, back, hi, hi, [])
  {
  }

  ghost predicate IsInitMessage(w: Suite, t: Tunnel, data: bytes) {
    Writable(w, t) ==> data == InitMessage(w, t)
  }

  lemma SealedMessage(w: Suite, t: Tunnel, back: bytes, data: bytes)
    requires t.Proper() && Sealed(w, LayersOf(t, [], t.outbound, t.Size()), back)
    requires Sealed(w, LayersOf(t, back, 0, t.outbound), data)
    ensures IsInitMessage(w, t, data)
  {
  }

  /** The initiator's side: `RegularOutTunnel` with the counters of the keys of its two chains. */
  class Initiator {
    const plan: Tunnel
    var counters: seq<uint32>

    predicate Valid()
      reads this
    {
      plan.Proper() && |counters| == plan.Size()
    }

    constructor (plan: Tunnel)
      requires plan.Proper()
      ensures Valid() && this.plan == plan && forall i | 0 <= i < |counters| :: counters[i] == 0
    {
      this.plan := plan;
      counters := seq(plan.Size(), _ => 0);
    }

    /** The tunnel as it stands, with given random bytes. */
    function Now(salts: seq<bytes>): (t: Tunnel)
      requires Valid() && SaltsFit(plan, salts)
      reads this
      ensures t.Proper()
    {
      Numbered(plan, counters, salts)
    }

    /** Seals the layer of node i around the message for node i + 1. */
    method SealNode(w: Suite, back: bytes, i: nat, ghost hi: nat, inner: Message, ghost before: seq<bytes>)
      returns (msg: Message, ghost salts: seq<bytes>)
      requires Valid() && i < hi <= plan.Size() && SaltsFit(plan, before)
      requires SealsFor(w, Now(before), back, i + 1, hi, inner.instructions)
      modifies this`counters
      ensures Valid() && counters == old(counters)[i := Successor(old(counters)[i])]
      ensures |salts| == |before| && salts == before[i := salts[i]] && SaltsFit(plan, salts)
      ensures msg.section == plan.nodes[i].keys.pub && SealsFor(w, Now(salts), back, i, hi, msg.instructions)
    {
      ghost var was := Now(before);
      var keys, list := plan.nodes[i].keys, ListAt(plan, back, i);
      var sealed, next, salt := SealNext(w, keys, counters[i], list, inner.instructions);
      salts, counters := before[i := salt], counters[i := next];
      msg := Message(keys.pub, sealed.value, inner.payload);
      SealStep(w, was, Now(salts), back, i, hi, Layer(keys, counters[i], salt, list), inner.instructions);
    }

    /** Nodes i up to hi are sealed, the counters having started at `first`. */
    ghost predicate SealedFrom(w: Suite, back: bytes, i: nat, hi: nat, first: seq<uint32>, before: seq<bytes>,
                               salts: seq<bytes>, msg: Message)
      reads this
    {
      && Valid() && i <= hi <= plan.Size() && SaltsFit(plan, salts) && |first| == plan.Size()
      && counters == Moved(first, i, hi) && DrawnFor(before, salts, i, hi)
      && (i < hi ==> msg.section == plan.nodes[i].keys.pub)
      && SealsFor(w, Now(salts), back, i, hi, msg.instructions)
    }

    /** One turn of the descending loop. */
    method SealTurn(w: Suite, back: bytes, i: nat, ghost hi: nat, inner: Message, ghost first: seq<uint32>,
                    ghost before: seq<bytes>, ghost was: seq<bytes>)
      returns (msg: Message, ghost salts: seq<bytes>)
      requires i < hi && SealedFrom(w, back, i + 1, hi, first, before, was, inner)
      modifies this`counters
      ensures SealedFrom(w, back, i, hi, first, before, salts, msg)
    {
      MoveOneMore(first, i, hi);
      msg, salts := SealNode(w, back, i, hi, inner, was);
      DrawOneMore(before, was, salts, i, hi);
    }

    /** Seals the layers of nodes lo up to hi, innermost first, each with the next number of its
        keys. */
    method SealNodes(w: Suite, back: bytes, lo: nat, hi: nat, ghost before: seq<bytes>)
      returns (msg: Message, ghost salts: seq<bytes>)
      requires Valid() && lo < hi <= plan.Size() && SaltsFit(plan, before)
      modifies this`counters
      ensures SealedFrom(w, back, lo, hi, old(counters), before, salts, msg)
    {
      msg, salts := Message([], [], []), before;
      var i := hi;
      SealsNothing(w, Now(salts), back, hi);
      assert counters == Moved(counters, hi, hi);
      while i > lo
        invariant lo <= i <= hi && SealedFrom(w, back, i, hi, old(counters), before, salts, msg)
      {
        i := i - 1;
        msg, salts := SealTurn(w, back, i, hi, msg, old(counters), before, salts);
      }
    }

    /** `prepareInitMessage` while configuring: the way back first, then the way out around it.
        Every key's counter moves by one, and its new value numbers its layer. */
    method PrepareInitMessage(w: Suite) returns (msg: Message, ghost salts: seq<bytes>)
      requires Valid()
      modifies this`counters
      ensures Valid() && SaltsFit(plan, salts) && counters == Moved(old(counters), 0, plan.Size())
      ensures msg.section == plan.nodes[0].keys.pub && IsInitMessage(w, Now(salts), msg.instructions)
    {
      var m := plan.outbound;
      var back, backSalts := SealNodes(w, [], m, plan.Size(), plan.salts);
      ghost var half := Now(backSalts);
      var front, frontSalts := SealNodes(w, back.instructions, 0, m, backSalts);
      msg, salts := front, frontSalts;
      LayersAgree(half, Now(salts), [], m, plan.Size());
      SealedMessage(w, Now(salts), back.instructions, msg.instructions);
    }
  }
}
