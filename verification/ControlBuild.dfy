/** Building one whole control message, over every hop of the circle. */
module ControlBuild {
  import opened Arith
  import opened Options
  import opened HopLedger
  import opened ControlMessage

  /** The client side of a tunnel.  `nodes` are the hops of `chainTo` and then `chainFrom`
      without the client itself, None for a hop that is not paid; `routeIds[i]` names the hop
      after i. */
  datatype Client = Client(
    chainTo: nat,
    target: nat,
    routeIds: seq<nat>,
    nodes: seq<Option<Payer>>,
    controlSeqno: nat,
    received: nat,
    paidReceived: nat,
    consumedOut: int,
    consumedIn: int,
    minPaidOut: int,
    minPaidIn: int)

  datatype Request = Request(withPayments: bool, force: bool, selfEncryptOk: bool, envs: seq<NodeEnv>)

  /** A built message: its acknowledgement number, whether it carries payments, and the payment
      instructions of each hop's layer. */
  datatype Control = Control(seqno: nat, withPayments: bool, pays: seq<seq<PaymentInstruction>>)

  predicate Shaped(c: Client) {
    0 < c.chainTo <= |c.nodes| && |c.routeIds| == |c.nodes|
  }

  predicate WellFormed(c: Client) {
    && Shaped(c)
    && forall i: nat | i < |c.nodes| && c.nodes[i].Some? :: WellPointed(c.nodes[i].value)
  }

  predicate Fitting(c: Client, r: Request) {
    WellFormed(c) && |r.envs| == |c.nodes|
  }

  function DemandAt(c: Client, r: Request, i: nat): Demand
    requires Shaped(c) && i < |c.nodes|
  {
    var purpose := if i == c.chainTo - 1 then PURPOSE_OUT * TWO_32 else PURPOSE_ROUTE * TWO_32 + c.routeIds[i];
    var consumedMax := if c.consumedOut < c.consumedIn then c.consumedIn else c.consumedOut;
    var consumed :=
      if i >= c.chainTo then c.consumedIn
      else if i == c.chainTo - 1 then consumedMax
      else c.consumedOut;
    Demand(purpose, consumed, c.target, c.paidReceived, r.withPayments, r.force)
  }

  function PlanAt(c: Client, r: Request, i: nat): (plan: Plan)
    requires Fitting(c, r) && i < |c.nodes| && c.nodes[i].Some?
    ensures plan.commit.Some? ==> plan.payer.current.Some? && plan.payer.current.value < |plan.payer.book|
  {
    PlanHop(c.nodes[i].value, DemandAt(c, r, i), r.envs[i])
  }

  /** Hop i's layer was built. */
  predicate BuiltAt(c: Client, r: Request, i: nat)
    requires Fitting(c, r) && i < |c.nodes|
  {
    if c.nodes[i].None? then r.envs[i].encryptOk else PlanAt(c, r, i).ok
  }

  function DecidedAt(c: Client, r: Request, i: nat): Option<Payer>
    requires Fitting(c, r) && i < |c.nodes|
  {
    if c.nodes[i].None? then None else Some(PlanAt(c, r, i).payer)
  }

  function CommittedAt(c: Client, r: Request, i: nat): Option<Payer>
    requires Fitting(c, r) && i < |c.nodes|
  {
    if c.nodes[i].None? then None else Some(Committed(PlanAt(c, r, i), c.controlSeqno + 1))
  }

  function PaysAt(c: Client, r: Request, i: nat): seq<PaymentInstruction>
    requires Fitting(c, r) && i < |c.nodes|
  {
    if c.nodes[i].None? then [] else PlanAt(c, r, i).pays
  }

  /** Building goes from hop n - 1 down: 0 if every layer is built, else one above the hop that failed. */
  function StoppedAbove(c: Client, r: Request, n: nat): (stop: nat)
    requires Fitting(c, r) && n <= |c.nodes|
    ensures stop <= n
  {
    if n == 0 then 0
    else if !BuiltAt(c, r, n - 1) then n
    else StoppedAbove(c, r, n - 1)
  }

  /** Smallest count of paid packets among the paid hops lo..hi. */
  function MinPaid(nodes: seq<Option<Payer>>, lo: nat, hi: nat): int
    requires lo <= hi <= |nodes|
    decreases hi - lo
  {
    if lo == hi then MAX_INT64
    else
      var m := MinPaid(nodes, lo, hi - 1);
      if nodes[hi - 1].Some? && m > nodes[hi - 1].value.paidPackets then nodes[hi - 1].value.paidPackets else m
  }

  lemma {:induction false} MinPaidIsLeast(nodes: seq<Option<Payer>>, lo: nat, hi: nat, i: nat)
    requires lo <= i < hi <= |nodes| && nodes[i].Some?
    ensures MinPaid(nodes, lo, hi) <= nodes[i].value.paidPackets
    decreases hi - lo
  {
    if i < hi - 1 {
      MinPaidIsLeast(nodes, lo, hi - 1, i);
    }
  }

  lemma {:induction false} MinPaidIsAttained(nodes: seq<Option<Payer>>, lo: nat, hi: nat)
    requires lo <= hi <= |nodes|
    ensures MinPaid(nodes, lo, hi) <= MAX_INT64
    ensures MinPaid(nodes, lo, hi) == MAX_INT64
         || exists i | lo <= i < hi :: nodes[i].Some? && nodes[i].value.paidPackets == MinPaid(nodes, lo, hi)
    decreases hi - lo
  {
    if lo < hi {
      MinPaidIsAttained(nodes, lo, hi - 1);
    }
  }

  /** What is collected for hop i. */
  function MutationAt(c: Client, r: Request, i: nat): Option<Plan>
    requires Fitting(c, r) && i < |c.nodes|
  {
    if c.nodes[i].None? then None else Some(PlanAt(c, r, i))
  }

  predicate Mutations(c: Client, r: Request, mutations: seq<Option<Plan>>)
    requires Fitting(c, r)
  {
    |mutations| == |c.nodes| && forall j: nat | j < |mutations| :: mutations[j] == MutationAt(c, r, j)
  }

  /** The hops when building got down to hop `from`: decided from there on, untouched before. */
  function DecidedNodes(c: Client, r: Request, from: nat): (nodes: seq<Option<Payer>>)
    requires Fitting(c, r) && from <= |c.nodes|
    ensures |nodes| == |c.nodes|
    ensures forall j: nat | j < |nodes| :: nodes[j] == if j < from then c.nodes[j] else DecidedAt(c, r, j)
  {
    seq(|c.nodes|, j requires 0 <= j < |c.nodes| => if j < from then c.nodes[j] else DecidedAt(c, r, j))
  }

  function CommittedNodes(c: Client, r: Request): (nodes: seq<Option<Payer>>)
    requires Fitting(c, r)
    ensures |nodes| == |c.nodes|
    ensures forall j: nat | j < |nodes| :: nodes[j] == CommittedAt(c, r, j)
  {
    seq(|c.nodes|, j requires 0 <= j < |c.nodes| => CommittedAt(c, r, j))
  }

  function AllPays(c: Client, r: Request): (pays: seq<seq<PaymentInstruction>>)
    requires Fitting(c, r)
    ensures |pays| == |c.nodes|
    ensures forall j: nat | j < |pays| :: pays[j] == PaysAt(c, r, j)
  {
    seq(|c.nodes|, j requires 0 <= j < |c.nodes| => PaysAt(c, r, j))
  }

  /** All or nothing: on success every decision is applied under one new sequence number; on a
      failure the hops from the failed one up keep only their expiries and opened channels. */
  function Build(c: Client, r: Request): (Client, Option<Control>)
    requires Fitting(c, r)
  {
    var stop := StoppedAbove(c, r, |c.nodes|);
    if !r.selfEncryptOk then
      (c, None)
    else if stop > 0 then
      (c.(nodes := DecidedNodes(c, r, stop - 1)), None)
    else
      var nodes := CommittedNodes(c, r);
      var c' := c.(
        nodes := nodes,
        controlSeqno := c.controlSeqno + 1,
        minPaidOut := MinPaid(nodes, 0, c.chainTo),
        minPaidIn := MinPaid(nodes, c.chainTo - 1, |nodes|));
      (c', Some(Control(c.controlSeqno + 1, r.withPayments, AllPays(c, r))))
  }

  /** What one build does to one payer: apply its decision, or at most decide. */
  lemma BuildAt(c: Client, r: Request, i: nat)
    requires Fitting(c, r) && i < |c.nodes|
    ensures var (c', msg) := Build(c, r);
            && |c'.nodes| == |c.nodes| && c'.nodes[i].Some? == c.nodes[i].Some?
            && (c.nodes[i].Some? && msg.None? ==>
                  c'.nodes[i] == c.nodes[i] || c'.nodes[i].value == PlanAt(c, r, i).payer)
            && (c.nodes[i].Some? && msg.Some? ==>
                  c'.nodes[i].value == Committed(PlanAt(c, r, i), c.controlSeqno + 1))
            && (msg.None? ==> c' == c.(nodes := c'.nodes))
            && (msg.Some? ==>
                  && c'.minPaidOut == MinPaid(c'.nodes, 0, c.chainTo)
                  && c'.minPaidIn == MinPaid(c'.nodes, c.chainTo - 1, |c'.nodes|)
                  && msg.value == Control(c.controlSeqno + 1, r.withPayments, msg.value.pays)
                  && |msg.value.pays| == |c.nodes| && msg.value.pays[i] == PaysAt(c, r, i))
  {
  }

  /** `prepareTunnelControlMessage` on a tunnel object: one descending loop that builds the
      layers and collects mutations, one that applies them, one that takes the minima. */
  class RegularOutTunnel {
    const chainTo: nat
    const target: nat
    const routeIds: seq<nat>
    var nodes: seq<Option<Payer>>
    var controlSeqno: nat
    var received: nat
    var paidReceived: nat
    var consumedOut: int
    var consumedIn: int
    var minPaidOut: int
    var minPaidIn: int

    function State(): Client
      reads this
    {
      Client(chainTo, target, routeIds, nodes, controlSeqno, received, paidReceived,
             consumedOut, consumedIn, minPaidOut, minPaidIn)
    }

    constructor (c: Client)
      ensures State() == c
    {
      chainTo, target, routeIds, nodes := c.chainTo, c.target, c.routeIds, c.nodes;
      controlSeqno, received, paidReceived := c.controlSeqno, c.received, c.paidReceived;
      consumedOut, consumedIn := c.consumedOut, c.consumedIn;
      minPaidOut, minPaidIn := c.minPaidOut, c.minPaidIn;
    }

    method PrepareTunnelControlMessage(r: Request) returns (msg: Option<Control>)
      requires Fitting(State(), r)
      modifies this
      ensures (State(), msg) == Build(old(State()), r)
    {
      if !r.selfEncryptOk {
        return None;
      }
      var built, pays, mutations := BuildLayers(r);
      if !built {
        return None;
      }
      controlSeqno := controlSeqno + 1;
      ApplyMutations(r, mutations, old(State()));
      minPaidIn, minPaidOut := TakeMinima();
      msg := Some(Control(controlSeqno, r.withPayments, pays));
    }

    /** The descending loop: hop by hop, expire, open a channel, decide, and collect. */
    method BuildLayers(r: Request)
      returns (built: bool, pays: seq<seq<PaymentInstruction>>, mutations: seq<Option<Plan>>)
      requires Fitting(State(), r)
      modifies this`nodes
      ensures built == (StoppedAbove(old(State()), r, |old(nodes)|) == 0)
      ensures !built ==> nodes == DecidedNodes(old(State()), r, StoppedAbove(old(State()), r, |old(nodes)|) - 1)
      ensures built ==> nodes == DecidedNodes(old(State()), r, 0) && pays == AllPays(old(State()), r)
      ensures built ==> Mutations(old(State()), r, mutations)
    {
      ghost var c := State();
      var n := |nodes|;
      pays, mutations := seq(n, _ => []), seq(n, _ => None);
      for i := n downto 0
        invariant State() == c.(nodes := nodes)
        invariant nodes == DecidedNodes(c, r, i)
        invariant |pays| == |mutations| == n
        invariant forall j: nat | i <= j < n :: pays[j] == PaysAt(c, r, j)
        invariant forall j: nat | i <= j < n :: mutations[j] == MutationAt(c, r, j)
        invariant StoppedAbove(c, r, n) == StoppedAbove(c, r, i)
      {
        var instructions, mutation, encrypted := DecideHop(r, i, c);
        if !encrypted {
          assert StoppedAbove(c, r, n) == i + 1;
          assert nodes == DecidedNodes(c, r, i);
          return false, [], [];
        }
        assert nodes == DecidedNodes(c, r, i);
        pays, mutations := pays[i := instructions], mutations[i := mutation];
      }
      assert pays == AllPays(c, r);
      built := true;
    }

    /** One turn of the descending loop. */
    method DecideHop(r: Request, i: nat, ghost c: Client)
      returns (instructions: seq<PaymentInstruction>, mutation: Option<Plan>, encrypted: bool)
      requires Fitting(c, r) && State() == c.(nodes := nodes)
      requires i < |nodes| == |c.nodes| && nodes[i] == c.nodes[i]
      modifies this`nodes
      ensures nodes == old(nodes)[i := DecidedAt(c, r, i)]
      ensures instructions == PaysAt(c, r, i) && mutation == MutationAt(c, r, i) && encrypted == BuiltAt(c, r, i)
    {
      instructions, mutation, encrypted := [], None, r.envs[i].encryptOk;
      if nodes[i].Some? {
        var plan := DecidePayment(nodes[i].value, r, i);
        assert plan == PlanAt(c, r, i);
        nodes := nodes[i := Some(plan.payer)];
        instructions, mutation, encrypted := plan.pays, Some(plan), plan.ok;
      }
    }

    /** What hop i is sent: its unacknowledged payment once more, a new one if its balance is low or
        one is forced, or none. */
    method DecidePayment(payer: Payer, r: Request, i: nat) returns (plan: Plan)
      requires Shaped(State()) && i < |nodes| == |r.envs| && WellPointed(payer)
      ensures plan == PlanHop(payer, DemandAt(State(), r, i), r.envs[i])
    {
      var p, env := payer, r.envs[i];
      if !r.withPayments || p.price == 0 {
        return Plan(p, [], None, env.encryptOk);
      }
      if p.latest.Some? && p.latestPaidOn > paidReceived {
        if p.latestDeadline > env.nowLatest {
          return Plan(p, [p.latest.value], None, env.encryptOk);
        }
        p := WrittenOff(p);
      }
      var balance := consumedOut;
      if i >= chainTo {
        balance := consumedIn;
      } else if i == chainTo - 1 && consumedOut < consumedIn {
        balance := consumedIn;
      }
      balance := p.paidPackets - balance;
      if balance > target / 2 && !r.force {
        return Plan(p, [], None, env.encryptOk);
      }
      var prepay := target - balance;
      if prepay < 0 {
        prepay := 0;
      }
      var purpose := if i == chainTo - 1 then PURPOSE_OUT * TWO_32 else PURPOSE_ROUTE * TWO_32 + routeIds[i];
      plan := MakePayment(p, prepay, purpose, r.force, env, DemandAt(State(), r, i));
    }

    /** A payment for `prepay` packets, or for what the channel can still pay. */
    method MakePayment(payer: Payer, prepay: int, purpose: nat, force: bool, env: NodeEnv, ghost d: Demand)
      returns (plan: Plan)
      requires payer.price > 0 && WellPointed(payer)
      requires prepay == Prepay(payer, d) && purpose == d.purpose && force == d.force
      ensures plan == PlanPayment(payer, d, env)
    {
      var p := WithChannel(payer, env);
      if p.current.None? {
        return Plan(p, [], None, false);
      }
      var cur := p.current.value;
      var isFinal, payFor := true, (p.book[cur].capacity - p.book[cur].lastAmount) / p.price;
      if payFor > prepay {
        isFinal, payFor := false, prepay;
      }
      if !env.cellOk || !env.resolveOk {
        return Plan(p, [], None, false);
      }
      var ins := PaymentInstruction(cur, p.book[cur].lastAmount + payFor * p.price, purpose, isFinal);
      var attached := [];
      if force && p.latest.Some? && p.latestDeadline > env.nowAttach && p.latestDeadline != p.book[cur].safeDeadline {
        attached := [p.latest.value];
      }
      plan := Plan(p, attached + [ins], Some(Commit(ins, payFor)), env.encryptOk);
    }

    /** The collected mutations, run in the order they were collected. */
    method ApplyMutations(r: Request, mutations: seq<Option<Plan>>, ghost c: Client)
      requires Fitting(c, r) && controlSeqno == c.controlSeqno + 1
      requires nodes == DecidedNodes(c, r, 0) && Mutations(c, r, mutations)
      modifies this`nodes
      ensures nodes == CommittedNodes(c, r)
    {
      for i := |nodes| downto 0
        invariant |nodes| == |c.nodes|
        invariant forall j: nat | j < i :: nodes[j] == DecidedAt(c, r, j)
        invariant forall j: nat | i <= j < |nodes| :: nodes[j] == CommittedAt(c, r, j)
      {
        assert mutations[i] == MutationAt(c, r, i);
        if mutations[i].Some? {
          nodes := nodes[i := Some(Committed(mutations[i].value, controlSeqno))];
        }
      }
    }

    method TakeMinima() returns (minIn: int, minOut: int)
      requires 0 < chainTo <= |nodes|
      ensures minIn == MinPaid(nodes, chainTo - 1, |nodes|)
      ensures minOut == MinPaid(nodes, 0, chainTo)
    {
      minIn, minOut := MAX_INT64, MAX_INT64;
      for i := 0 to |nodes|
        invariant minOut == MinPaid(nodes, 0, if i < chainTo then i else chainTo)
        invariant minIn == if i < chainTo then MAX_INT64 else MinPaid(nodes, chainTo - 1, i)
      {
        if nodes[i].Some? {
          var paid := nodes[i].value.paidPackets;
          if i >= chainTo {
            if minIn > paid {
              minIn := paid;
            }
          } else if i == chainTo - 1 {
            if minOut > paid {
              minOut := paid;
            }
            if minIn > paid {
              minIn := paid;
            }
          } else {
            if minOut > paid {
              minOut := paid;
            }
          }
        }
      }
    }
  }
}
