/** Two questions about the size of one payment: can it exceed what was asked of the payment
    chain, and can it be nothing at all. */
module PaymentSize {
  import opened Options
  import opened Arith
  import opened HopLedger
  import opened ControlMessage
  import opened ControlBuild
  import FeeSolver
  import Settlement

  // ---------------------------------------------------------------------------------------
  // The solver's answer is within the request
  // ---------------------------------------------------------------------------------------

  /** The channel `openVirtualChannel` returns for a chain the solver built. */
  function OpenedChannel(parts: seq<FeeSolver.Part>, hopTtl: int): VirtualChannel
    requires parts != []
  {
    var last := parts[|parts| - 1];
    VirtualChannel(0, last.capacity, last.deadline - hopTtl, 0)
  }

  /** A channel opened through any chain of payment hops holds between nothing and the request,
      converged or not: what the payer's ledger takes for granted about opening channels. */
  lemma OpenedWithinRequest(hops: seq<FeeSolver.Section>, p: Payer, target: nat, base: int, hopTtl: int, env: NodeEnv)
    requires hops != []
    requires var want := RequestedCapacity(p.price, target);
             FeeSolver.Iterate(hops, want, FeeSolver.MAX_ITER) >= 0 &&
             (env.newChannel.Some? ==>
                env.newChannel.value == OpenedChannel(
                  FeeSolver.ChainFor(hops, FeeSolver.Iterate(hops, want, FeeSolver.MAX_ITER - 1),
                                     FeeSolver.Iterate(hops, want, FeeSolver.MAX_ITER), base, hopTtl), hopTtl))
    ensures EnvOk(p, target, env)
  {
    FeeSolver.SolverSafety(hops, RequestedCapacity(p.price, target), base, hopTtl, |hops| - 1);
  }

  // ---------------------------------------------------------------------------------------
  // In every run a payment is small
  // ---------------------------------------------------------------------------------------

  predicate NodeWithinRequest(c: Client, i: nat)
    requires i < |c.nodes|
  {
    c.nodes[i].Some? ==> WithinRequest(c.nodes[i].value, RequestedCapacity(c.nodes[i].value.price, c.target))
  }

  lemma BuildKeepsBound(c: Client, r: Request, i: nat)
    requires Fitting(c, r) && i < |c.nodes| && NodeWithinRequest(c, i)
    requires c.nodes[i].Some? ==> PayerInv(c.nodes[i].value) && EnvOk(c.nodes[i].value, c.target, r.envs[i])
    ensures |Build(c, r).0.nodes| == |c.nodes| && NodeWithinRequest(Build(c, r).0, i)
  {
    BuildAt(c, r, i);
    if c.nodes[i].Some? {
      var p, d := c.nodes[i].value, DemandAt(c, r, i);
      RequestBoundKept(p, d, r.envs[i], c.controlSeqno + 1, RequestedCapacity(p.price, c.target));
      PlanHoldsBack(p, d, r.envs[i]);
      CommitAdvances(p, d, r.envs[i], c.controlSeqno + 1);
    }
  }

  lemma StepKeepsBound(deadlines: seq<Deadlines>, s: Settlement.System, step: Settlement.Step, i: nat)
    requires Settlement.Inv(deadlines, s) && Settlement.Enabled(deadlines, s, step)
    requires i < |s.client.nodes| && NodeWithinRequest(s.client, i)
    ensures var s' := Settlement.Next(deadlines, s, step);
            i < |s'.client.nodes| && NodeWithinRequest(s'.client, i)
  {
    if step.BuildControl? {
      assert Settlement.NodeInv(s, i);
      BuildKeepsBound(s.client, step.r, i);
    }
  }

  /** In every run, no channel of any payer exceeds the capacity asked for. */
  lemma {:induction false} ChannelsWithinRequest(deadlines: seq<Deadlines>, trace: seq<Settlement.System>, k: nat, i: nat)
    requires Settlement.Run(deadlines, trace) && k < |trace| && i < |trace[k].client.nodes|
    ensures NodeWithinRequest(trace[k].client, i)
  {
    if k > 0 {
      var s := trace[k - 1];
      Settlement.RunInv(deadlines, trace, k - 1);
      assert Settlement.Follows(deadlines, trace[k - 1], trace[k - 1 + 1]);
      var step :| Settlement.Enabled(deadlines, s, step) && trace[k] == Settlement.Next(deadlines, s, step);
      NodesStay(deadlines, s, step);
      ChannelsWithinRequest(deadlines, trace, k - 1, i);
      StepKeepsBound(deadlines, s, step, i);
    }
  }

  lemma NodesStay(deadlines: seq<Deadlines>, s: Settlement.System, step: Settlement.Step)
    requires Settlement.Enabled(deadlines, s, step)
    ensures |Settlement.Next(deadlines, s, step).client.nodes| == |s.client.nodes|
  {
  }

  const PACKETS_TO_PREPAY: nat := 200000

  /** In every run, at every build that may follow and at every hop: the quotient turned into an
      int64 is at most 30 prepayments, so is the payment, and at the target of the source both
      are far below 2^63, so the conversion loses nothing. */
  lemma PaymentIsSmall(deadlines: seq<Deadlines>, trace: seq<Settlement.System>, k: nat, r: Request, i: nat)
    requires Settlement.Run(deadlines, trace) && k < |trace|
    requires Settlement.Enabled(deadlines, trace[k], Settlement.BuildControl(r))
    requires i < |trace[k].client.nodes| && trace[k].client.nodes[i].Some?
    requires PlanAt(trace[k].client, r, i).commit.Some?
    ensures var c, plan := trace[k].client, PlanAt(trace[k].client, r, i);
            && plan.payer.price > 0
            && 0 <= plan.commit.value.packets <= Affordable(plan.payer) <= c.target * 30
            && (c.target == PACKETS_TO_PREPAY ==> Affordable(plan.payer) <= MAX_INT64)
  {
    var c := trace[k].client;
    var p, d, plan := c.nodes[i].value, DemandAt(c, r, i), PlanAt(c, r, i);
    Settlement.RunInv(deadlines, trace, k);
    assert Settlement.NodeInv(trace[k], i);
    ChannelsWithinRequest(deadlines, trace, k, i);
    RequestBoundKept(p, d, r.envs[i], 0, RequestedCapacity(p.price, c.target));
    PlanHoldsBack(p, d, r.envs[i]);
    PlanPaysLatest(p, d, r.envs[i]);
    AffordableIsSmall(plan.payer, c.target);
  }

  // ---------------------------------------------------------------------------------------
  // Payments of nothing
  // ---------------------------------------------------------------------------------------

  lemma WorthSomething(packets: int, price: nat)
    requires packets >= 0 && price > 0
    ensures packets * price > 0 <==> packets > 0
  {
  }

  /** A decided payment is of a positive amount exactly when its channel already carries
      something, or something is due and the channel can pay for a packet. */
  lemma PositiveExactlyWhen(p: Payer, d: Demand, env: NodeEnv)
    requires PayerInv(p) && p.price > 0 && EnvOk(p, d.target, env) && PlanPayment(p, d, env).commit.Some?
    ensures var p' := WithChannel(p, env);
            PlanPayment(p, d, env).commit.value.ins.amount > 0
            <==> (p'.book[p'.current.value].lastAmount > 0 || (Prepay(p, d) > 0 && Affordable(p') > 0))
  {
    PlannedPaymentFits(p, d, env);
    ChannelKeepsBooks(p, d.target, env);
    var p' := WithChannel(p, env);
    var ch, packets := p'.book[p'.current.value], PlanPayment(p, d, env).commit.value.packets;
    assert ch in p'.book;
    WorthSomething(packets, p'.price);
  }

  /** A hop lets a message pass only if every payment in its layer is of a positive amount. */
  lemma {:induction false} PassedMeansPositive(h: Hop, pays: seq<PaymentInstruction>, envs: seq<Env>)
    requires |pays| == |envs| && Settlement.PayAll(h, pays, envs).1
    ensures forall ins | ins in pays :: ins.amount > 0
    decreases |pays|
  {
    if pays != [] {
      var (h', outcome) := Pay(h, pays[0], envs[0]);
      PassedMeansPositive(h', pays[1..], envs[1..]);
      assert forall ins | ins in pays :: ins == pays[0] || ins in pays[1..];
    }
  }

  /** While a payment of nothing is the latest, not acknowledged and not expired, every message
      with payments carries it and no hop lets any of them pass. */
  lemma StuckBehindNothing(p: Payer, d: Demand, env: NodeEnv, h: Hop, envs: seq<Env>)
    requires WellPointed(p) && p.price > 0 && d.withPayments && Unacknowledged(p, d)
    requires p.latest.value.amount <= 0 && p.latestDeadline > env.nowLatest
    requires |envs| == |PlanHop(p, d, env).pays|
    ensures !Settlement.PayAll(h, PlanHop(p, d, env).pays, envs).1
  {
    var pays, latest := PlanHop(p, d, env).pays, p.latest.value;
    assert latest in pays;
    if Settlement.PayAll(h, pays, envs).1 {
      PassedMeansPositive(h, pays, envs);
    }
  }

  // ---------------------------------------------------------------------------------------
  // It does happen
  // ---------------------------------------------------------------------------------------

  /** A client with one hop, an out gate at price 1. */
  const DEADLINE: int := 100000
  const OPENED := VirtualChannel(0, PACKETS_TO_PREPAY, DEADLINE, 0)
  const FIRST := PaymentInstruction(0, PACKETS_TO_PREPAY, PURPOSE_OUT * TWO_32, true)
  const NOTHING := PaymentInstruction(1, 0, PURPOSE_OUT * TWO_32, false)
  const UNPAID := Payer(1, 0, [], None, None, 0, 0, 0, [])
  const PAID := Payer(1, PACKETS_TO_PREPAY, [OPENED.(lastAmount := PACKETS_TO_PREPAY)], None, Some(FIRST), 1, DEADLINE,
                      PACKETS_TO_PREPAY, [Payment(PACKETS_TO_PREPAY, false)])
  const CLIENT := Client(1, PACKETS_TO_PREPAY, [0], [Some(UNPAID)], 0, 0, 0, 0, 0, 0, 0)
  const NODE_ENV := NodeEnv(0, 0, 0, Some(OPENED), true, true, true)
  const FORCED := Request(true, true, true, [NODE_ENV])
  const HOP := Hop(Section(map[], map[], Some(PaidPort(1, 0, 0))), map[], map[], false)
  const HOP_ENV := Env(true, true, true, true, Some(Meta(Some(Incoming(PACKETS_TO_PREPAY, DEADLINE)), false, true, None)), 0, true)

  lemma FirstPlan(c: Client)
    requires c == CLIENT.(nodes := c.nodes) && c.nodes == [Some(UNPAID)]
    ensures Fitting(c, FORCED) && EnvOk(UNPAID, c.target, NODE_ENV)
    ensures var (c', msg) := Build(c, FORCED);
            && c' == c.(nodes := [Some(PAID)], controlSeqno := 1, minPaidOut := PACKETS_TO_PREPAY, minPaidIn := PACKETS_TO_PREPAY)
            && msg == Some(Control(1, true, [[FIRST]]))
  {
    assert Fitting(c, FORCED);
    var d := DemandAt(c, FORCED, 0);
    var p := WithChannel(UNPAID, NODE_ENV);
    assert p.book == [OPENED] && p.current == Some(0);
    assert Prepay(UNPAID, d) == PACKETS_TO_PREPAY && Affordable(p) == PACKETS_TO_PREPAY;
    assert PlanAt(c, FORCED, 0) == Plan(p, [FIRST], Some(Commit(FIRST, PACKETS_TO_PREPAY)), true);
    assert Committed(PlanAt(c, FORCED, 0), 1) == PAID;
    assert StoppedAbove(c, FORCED, 1) == 0 by {
      assert BuiltAt(c, FORCED, 0);
    }
    assert CommittedNodes(c, FORCED) == [Some(PAID)] && AllPays(c, FORCED) == [[FIRST]];
  }

  lemma FirstIsAccepted()
    ensures var (h, outcome) := Pay(HOP, FIRST, HOP_ENV);
            outcome.Ok() && HonestService(HOP, (_: nat) => DEADLINE, 0, FIRST.key, HOP_ENV)
  {
    assert FIRST.purpose / TWO_32 == PURPOSE_OUT;
    var v := Channel(true, DEADLINE, PACKETS_TO_PREPAY, None, FIRST.purpose);
    assert LoadedChannel(FIRST, HOP_ENV) == Some(v);
    assert Purchase(HOP.section.(payments := map[0 := v]), v, FIRST.amount, FIRST.amount) == Accepted(Credit(FIRST.amount, 1));
  }

  lemma SecondPlan(c: Client)
    requires c == CLIENT.(nodes := [Some(PAID)], controlSeqno := 1, received := 1, paidReceived := 1,
                          minPaidOut := PACKETS_TO_PREPAY, minPaidIn := PACKETS_TO_PREPAY)
    ensures Fitting(c, FORCED) && EnvOk(PAID, c.target, NODE_ENV)
    ensures var (c', msg) := Build(c, FORCED);
            && c'.nodes[0].Some? && c'.nodes[0].value.latest == Some(NOTHING) && c'.nodes[0].value.latestPaidOn == 2
            && msg == Some(Control(2, true, [[NOTHING]]))
  {
    assert Fitting(c, FORCED);
    var d := DemandAt(c, FORCED, 0);
    var p := WithChannel(PAID, NODE_ENV);
    assert p.book == [PAID.book[0], OPENED] && p.current == Some(1);
    assert Prepay(PAID, d) == 0 && Affordable(p) == PACKETS_TO_PREPAY;
    assert PlanAt(c, FORCED, 0) == Plan(p, [NOTHING], Some(Commit(NOTHING, 0)), true);
    assert StoppedAbove(c, FORCED, 1) == 0 by {
      assert BuiltAt(c, FORCED, 0);
    }
    assert AllPays(c, FORCED) == [[NOTHING]];
  }

  function Terms(): seq<Deadlines> {
    [(_: nat) => DEADLINE]
  }

  const CLIENT_PAID := CLIENT.(nodes := [Some(PAID)], controlSeqno := 1, minPaidOut := PACKETS_TO_PREPAY, minPaidIn := PACKETS_TO_PREPAY)
  const MESSAGE := Control(1, true, [[FIRST]])
  const START := Settlement.System(CLIENT, [HOP], {}, 0)
  const BUILT := Settlement.System(CLIENT_PAID, [HOP], {Settlement.Packet(0, MESSAGE)}, 0)

  lemma BuildFirst()
    ensures Settlement.Follows(Terms(), START, BUILT)
  {
    var step := Settlement.BuildControl(FORCED);
    FirstPlan(CLIENT);
    assert Settlement.Enabled(Terms(), START, step) && BUILT == Settlement.Next(Terms(), START, step);
  }

  lemma DeliverFirst() returns (s: Settlement.System)
    ensures Settlement.Follows(Terms(), BUILT, s) && s.client == CLIENT_PAID && |s.hops| == 1 && Settlement.Packet(1, MESSAGE) in s.net
  {
    var step := Settlement.Deliver(Settlement.Packet(0, MESSAGE), [HOP_ENV]);
    FirstIsAccepted();
    assert [FIRST][1..] == [] && [HOP_ENV][1..] == [];
    assert Settlement.PayAll(HOP, [FIRST], [HOP_ENV]).1;
    s := Settlement.Next(Terms(), BUILT, step);
    assert Settlement.Enabled(Terms(), BUILT, step);
  }

  lemma AcknowledgeFirst(s: Settlement.System) returns (s': Settlement.System)
    requires s.client == CLIENT_PAID && |s.hops| == 1 && Settlement.Packet(1, MESSAGE) in s.net
    ensures Settlement.Follows(Terms(), s, s') && s' == s.(client := CLIENT_PAID.(received := 1, paidReceived := 1))
  {
    var step := Settlement.Acknowledge(Settlement.Packet(1, MESSAGE));
    s' := Settlement.Next(Terms(), s, step);
    assert Settlement.Enabled(Terms(), s, step);
  }

  lemma BuildNothing(s: Settlement.System) returns (s': Settlement.System)
    requires s.client == CLIENT_PAID.(received := 1, paidReceived := 1) && |s.hops| == 1
    ensures Settlement.Follows(Terms(), s, s') && |s'.client.nodes| == 1 && s'.client.nodes[0].Some?
    ensures var p := s'.client.nodes[0].value;
            && p.latest == Some(NOTHING) && p.latestPaidOn > s'.client.paidReceived
            && Settlement.Packet(0, Control(2, true, [[NOTHING]])) in s'.net
  {
    var step := Settlement.BuildControl(FORCED);
    SecondPlan(s.client);
    s' := Settlement.Next(Terms(), s, step);
    assert Settlement.Enabled(Terms(), s, step);
    BuildAt(s.client, FORCED, 0);
  }

  lemma Starts()
    ensures Settlement.Init(START)
  {
  }

  lemma FourSteps(deadlines: seq<Deadlines>, s0: Settlement.System, s1: Settlement.System, s2: Settlement.System,
                  s3: Settlement.System, s4: Settlement.System)
    requires Settlement.Init(s0) && |deadlines| == |s0.hops|
    requires Settlement.Follows(deadlines, s0, s1) && Settlement.Follows(deadlines, s1, s2)
    requires Settlement.Follows(deadlines, s2, s3) && Settlement.Follows(deadlines, s3, s4)
    ensures Settlement.Run(deadlines, [s0, s1, s2, s3, s4])
  {
  }

  /** A run that ends in it: the first message pays the full prepayment, which uses up the channel
      the service opened; it is delivered and acknowledged; before any packet is sent, the next
      forced message, as sent when the tunnel is reconfigured, signs 0 on a new channel. */
  lemma ForcedToPayNothing() returns (deadlines: seq<Deadlines>, trace: seq<Settlement.System>)
    ensures Settlement.Run(deadlines, trace) && |trace| == 5 && |trace[4].client.nodes| == 1
    ensures trace[4].client.nodes[0].Some?
    ensures var p := trace[4].client.nodes[0].value;
            && p.latest.Some? && p.latest.value.amount == 0 && p.latestPaidOn > trace[4].client.paidReceived
            && Settlement.Packet(0, Control(2, true, [[p.latest.value]])) in trace[4].net
  {
    BuildFirst();
    var s2 := DeliverFirst();
    var s3 := AcknowledgeFirst(s2);
    var s4 := BuildNothing(s3);
    deadlines, trace := Terms(), [START, BUILT, s2, s3, s4];
    Starts();
    FourSteps(deadlines, START, BUILT, s2, s3, s4);
  }
}
