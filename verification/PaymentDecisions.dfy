/** What a control message decides for each hop, in the fields of the client alone: who is paid, how
    much, for what, and what is published afterwards. */
module PaymentDecisions {
  import opened Options
  import opened Arith
  import opened HopLedger
  import opened ControlMessage
  import opened ControlBuild

  // ---------------------------------------------------------------------------------------
  // The reference
  // ---------------------------------------------------------------------------------------

  /** The packets that count against hop i: those sent out for a hop before the gate, those received
      for one behind it, and whichever are more for the gate, the last hop of `chainTo`. */
  function UsedAt(c: Client, i: nat): int {
    if i + 1 < c.chainTo then c.consumedOut
    else if i + 1 > c.chainTo then c.consumedIn
    else if c.consumedIn > c.consumedOut then c.consumedIn
    else c.consumedOut
  }

  /** The purpose word for hop i: the out port at the gate, the route to the next hop elsewhere. */
  function PurposeAt(c: Client, i: nat): nat
    requires i < |c.routeIds|
  {
    if i + 1 == c.chainTo then 2 * 0x1_0000_0000 else 0x1_0000_0000 + c.routeIds[i]
  }

  predicate Waits(c: Client, p: Payer) {
    p.latest.Some? && p.latestPaidOn > c.paidReceived
  }

  /** What stays paid once an expired payment is given up. */
  function StillPaid(c: Client, p: Payer): int {
    if Waits(c, p) then p.paidPackets - p.latestPackets else p.paidPackets
  }

  function BalanceAt(c: Client, p: Payer, i: nat): int {
    StillPaid(c, p) - UsedAt(c, i)
  }

  /** Half the target or less is left, or a payment is forced. */
  predicate Due(c: Client, r: Request, p: Payer, i: nat) {
    r.force || 2 * BalanceAt(c, p, i) <= c.target
  }

  /** What tops the balance up. */
  function Missing(c: Client, p: Payer, i: nat): nat {
    if BalanceAt(c, p, i) >= c.target then 0 else c.target - BalanceAt(c, p, i)
  }

  predicate KeepsChannel(p: Payer, env: NodeEnv) {
    p.current.Some? && p.current.value < |p.book| && p.book[p.current.value].safeDeadline >= env.nowChannel
  }

  /** The channel a payment is made on: the current one, or one just opened. */
  function ChannelOf(p: Payer, env: NodeEnv): (nat, VirtualChannel)
    requires KeepsChannel(p, env) || env.newChannel.Some?
  {
    if KeepsChannel(p, env) then (p.current.value, p.book[p.current.value])
    else (|p.book|, env.newChannel.value.(lastAmount := 0, lost := 0))
  }

  predicate Paying(c: Client, r: Request, i: nat) {
    Fitting(c, r) && i < |c.nodes| && c.nodes[i].Some? && c.nodes[i].value.price > 0 && r.withPayments
  }

  /** Hop i's unacknowledged payment is still good. */
  predicate Resends(c: Client, r: Request, i: nat)
    requires Paying(c, r, i)
  {
    Waits(c, c.nodes[i].value) && c.nodes[i].value.latestDeadline > r.envs[i].nowLatest
  }

  /** Hop i gets a new payment. */
  predicate PaysNow(c: Client, r: Request, i: nat)
    requires Paying(c, r, i)
  {
    !Resends(c, r, i) && Due(c, r, c.nodes[i].value, i)
  }

  /** Hop i's layer can be written. */
  predicate Writable(c: Client, r: Request, i: nat)
    requires Fitting(c, r) && i < |c.nodes|
  {
    && r.envs[i].encryptOk
    && (Paying(c, r, i) && PaysNow(c, r, i) ==>
          && (KeepsChannel(c.nodes[i].value, r.envs[i]) || r.envs[i].newChannel.Some?)
          && r.envs[i].cellOk && r.envs[i].resolveOk)
  }

  // ---------------------------------------------------------------------------------------
  // One payer
  // ---------------------------------------------------------------------------------------

  /** What is asked of hop i. */
  lemma DemandIs(c: Client, r: Request, i: nat)
    requires Shaped(c) && i < |c.nodes|
    ensures DemandAt(c, r, i) == Demand(PurposeAt(c, i), UsedAt(c, i), c.target, c.paidReceived, r.withPayments, r.force)
  {
  }

  /** Which payer, if any, a new payment starts from. */
  predicate Considers(p: Payer, d: Demand, env: NodeEnv) {
    d.withPayments && p.price > 0 && !(Unacknowledged(p, d) && p.latestDeadline > env.nowLatest)
  }

  lemma PlanIs(p: Payer, d: Demand, env: NodeEnv)
    requires WellPointed(p) && Considers(p, d, env)
    ensures var p1, plan := Undecided(p, d), PlanHop(p, d, env);
            && WellPointed(p1) && p1.price == p.price && |p1.log| == |p.log|
            && (WantsPayment(p1, d) ==> plan == PlanPayment(p1, d, env))
            && (!WantsPayment(p1, d) ==> plan == Plan(p1, [], None, env.encryptOk))
  {
  }

  lemma PaymentParts(p: Payer, d: Demand, env: NodeEnv)
    requires p.price > 0 && WellPointed(p)
    ensures var plan, p1 := PlanPayment(p, d, env), WithChannel(p, env);
            && plan.payer == p1 && |p1.log| == |p.log|
            && (plan.commit.Some? <==> p1.current.Some? && env.cellOk && env.resolveOk)
            && (plan.ok <==> plan.commit.Some? && env.encryptOk)
  {
  }

  lemma CommittedLog(plan: Plan, seqno: nat)
    requires plan.commit.Some? ==> plan.payer.current.Some? && plan.payer.current.value < |plan.payer.book|
    ensures |Committed(plan, seqno).log| == |plan.payer.log| + if plan.commit.Some? then 1 else 0
    ensures plan.commit.None? ==> Committed(plan, seqno) == plan.payer
  {
  }

  lemma LogGrows(p: Payer, d: Demand, env: NodeEnv, seqno: nat)
    requires WellPointed(p) && Considers(p, d, env) && PlanHop(p, d, env).ok
    ensures var p1, plan := Undecided(p, d), PlanHop(p, d, env);
            && (plan.commit.Some? <==> WantsPayment(p1, d))
            && |Committed(plan, seqno).log| == |p.log| + (if WantsPayment(p1, d) then 1 else 0)
            && (!WantsPayment(p1, d) ==> plan.pays == [] && Committed(plan, seqno) == p1)
  {
    var p1 := Undecided(p, d);
    PlanIs(p, d, env);
    CommittedLog(PlanHop(p, d, env), seqno);
    if WantsPayment(p1, d) {
      PaymentParts(p1, d, env);
    }
  }

  // ---------------------------------------------------------------------------------------
  // Who is built, resent, paid
  // ---------------------------------------------------------------------------------------

  lemma DueIs(c: Client, r: Request, i: nat)
    requires Paying(c, r, i)
    ensures var p, d := c.nodes[i].value, DemandAt(c, r, i);
            && WellPointed(p) && (Unacknowledged(p, d) <==> Waits(c, p))
            && (Considers(p, d, r.envs[i]) <==> !Resends(c, r, i))
            && Undecided(p, d).paidPackets == StillPaid(c, p)
            && (WantsPayment(Undecided(p, d), d) <==> Due(c, r, p, i))
            && Prepay(Undecided(p, d), d) == Missing(c, p, i)
  {
    DemandIs(c, r, i);
  }

  lemma ChannelIs(p: Payer, d: Demand, env: NodeEnv)
    requires WellPointed(p)
    ensures WellPointed(Undecided(p, d))
    ensures var p2 := WithChannel(Undecided(p, d), env);
            && (p2.current.Some? <==> KeepsChannel(p, env) || env.newChannel.Some?)
            && (p2.current.Some? ==>
                  && p2.current.value == ChannelOf(p, env).0 < |p2.book|
                  && p2.book[p2.current.value].(lost := 0) == ChannelOf(p, env).1.(lost := 0))
  {
  }

  lemma WritableIsBuilt(c: Client, r: Request, i: nat)
    requires Fitting(c, r) && i < |c.nodes|
    ensures Writable(c, r, i) <==> BuiltAt(c, r, i)
  {
    if Paying(c, r, i) {
      var p, d, env := c.nodes[i].value, DemandAt(c, r, i), r.envs[i];
      DueIs(c, r, i);
      if !Resends(c, r, i) {
        PlanIs(p, d, env);
        PaymentParts(Undecided(p, d), d, env);
        ChannelIs(p, d, env);
      }
    }
  }

  lemma {:induction false} StopsAtNone(c: Client, r: Request, n: nat)
    requires Fitting(c, r) && n <= |c.nodes|
    ensures StoppedAbove(c, r, n) == 0 <==> forall i: nat | i < n :: BuiltAt(c, r, i)
  {
    if n > 0 {
      StopsAtNone(c, r, n - 1);
    }
  }

  /** A message is built exactly when the initiator's own layer and every hop's can be written; it
      bears the next number. */
  lemma BuiltExactly(c: Client, r: Request)
    requires Fitting(c, r)
    ensures var (c', msg) := Build(c, r);
            && (msg.Some? <==> r.selfEncryptOk && forall i: nat | i < |c.nodes| :: Writable(c, r, i))
            && (msg.Some? ==> msg.value.seqno == c'.controlSeqno == c.controlSeqno + 1 && msg.value.withPayments == r.withPayments)
  {
    StopsAtNone(c, r, |c.nodes|);
    forall i: nat | i < |c.nodes|
      ensures Writable(c, r, i) <==> BuiltAt(c, r, i)
    {
      WritableIsBuilt(c, r, i);
    }
  }

  /** An unacknowledged payment that is still good goes again, alone, and nothing changes. */
  lemma UnacknowledgedIsResent(c: Client, r: Request, i: nat)
    requires Paying(c, r, i) && Build(c, r).1.Some? && Resends(c, r, i)
    ensures var (c', msg) := Build(c, r);
            && i < |c'.nodes| == |msg.value.pays| && c'.nodes[i] == c.nodes[i]
            && msg.value.pays[i] == [c.nodes[i].value.latest.value]
  {
    BuildAt(c, r, i);
  }

  /** A hop is paid if and only if it has no such payment, and half the target or less is left or a
      payment is forced: its log of payments grows exactly then. */
  lemma PaidExactlyWhenDue(c: Client, r: Request, i: nat)
    requires Paying(c, r, i) && Build(c, r).1.Some?
    ensures var (c', msg) := Build(c, r);
            && i < |c'.nodes| == |msg.value.pays| && c'.nodes[i].Some?
            && |c'.nodes[i].value.log| == |c.nodes[i].value.log| + (if PaysNow(c, r, i) then 1 else 0)
            && (!PaysNow(c, r, i) && !Resends(c, r, i) ==>
                  msg.value.pays[i] == [] && c'.nodes[i].value.paidPackets == StillPaid(c, c.nodes[i].value))
  {
    BuildAt(c, r, i);
    DueIs(c, r, i);
    BuiltExactly(c, r);
    WritableIsBuilt(c, r, i);
    if !Resends(c, r, i) {
      LogGrows(c.nodes[i].value, DemandAt(c, r, i), r.envs[i], c.controlSeqno + 1);
    }
  }

  /** Nobody is paid by a message without payments, and nobody without a price. */
  lemma OthersAreNotPaid(c: Client, r: Request, i: nat)
    requires Fitting(c, r) && i < |c.nodes| && Build(c, r).1.Some? && !Paying(c, r, i)
    ensures var (c', msg) := Build(c, r);
            i < |c'.nodes| == |msg.value.pays| && c'.nodes[i] == c.nodes[i] && msg.value.pays[i] == []
  {
    BuildAt(c, r, i);
  }

  // ---------------------------------------------------------------------------------------
  // How much, and for what
  // ---------------------------------------------------------------------------------------

  /** A payment on a channel: as many packets as are missing, or as the channel can pay for if it
      cannot pay for more than that, which makes it final. */
  predicate PaysFor(ins: PaymentInstruction, packets: int, ch: VirtualChannel, price: nat, missing: nat) {
    var left := ch.capacity - ch.lastAmount;
    && ins.amount == ch.lastAmount + packets * price
    && (ins.final <==> left < (missing + 1) * price)
    && (!ins.final ==> packets == missing)
    && (ins.final ==> packets <= missing && packets * price <= left < (packets + 1) * price)
  }

  lemma DivExactly(left: int, missing: nat, price: nat)
    requires price > 0
    ensures left / price <= missing <==> left < (missing + 1) * price
    ensures left / price * price <= left < (left / price + 1) * price
  {
    var q := left / price;
    assert q * price <= left < q * price + price;
    assert (q + 1) * price == q * price + price;
    if q <= missing {
      assert (q + 1) * price <= (missing + 1) * price;
    } else {
      assert (missing + 1) * price <= q * price;
    }
  }

  lemma PaymentFills(p: Payer, d: Demand, env: NodeEnv, cur: nat, ch: VirtualChannel)
    requires p.price > 0 && WellPointed(p) && PlanPayment(p, d, env).commit.Some? && Prepay(p, d) >= 0
    requires var p1 := WithChannel(p, env);
             p1.current == Some(cur) && p1.book[cur] == ch
    ensures var plan := PlanPayment(p, d, env);
            var ins, again := plan.commit.value.ins, d.force && p.latest.Some? && p.latestDeadline > env.nowAttach && p.latestDeadline != ch.safeDeadline;
            && ins.key == cur && ins.purpose == d.purpose
            && PaysFor(ins, plan.commit.value.packets, ch, p.price, Prepay(p, d))
            && plan.pays == (if again then [p.latest.value] else []) + [ins]
  {
    DivExactly(ch.capacity - ch.lastAmount, Prepay(p, d), p.price);
  }

  /** What the payer notes of a payment on channel `key`, at its number. */
  predicate Noted(p': Payer, paid: int, key: nat, ch: VirtualChannel, seqno: nat) {
    && p'.latest.Some? && p'.latest.value.key == key
    && p'.paidPackets == paid + p'.latestPackets
    && p'.latestPaidOn == seqno && p'.latestDeadline == ch.safeDeadline
    && p'.current == (if p'.latest.value.final then None else Some(key))
    && key < |p'.book| && p'.book[key].lastAmount == p'.latest.value.amount && p'.book[key].capacity == ch.capacity
  }

  lemma CommitIsNoted(plan: Plan, seqno: nat, ch: VirtualChannel)
    requires plan.commit.Some? && plan.payer.current == Some(plan.commit.value.ins.key)
    requires plan.commit.value.ins.key < |plan.payer.book| && plan.payer.book[plan.commit.value.ins.key].(lost := 0) == ch.(lost := 0)
    ensures var p' := Committed(plan, seqno);
            && Noted(p', plan.payer.paidPackets, plan.commit.value.ins.key, ch, seqno)
            && p'.latest == Some(plan.commit.value.ins) && p'.latestPackets == plan.commit.value.packets
  {
  }

  /** What a hop that is paid gets, and what the payer notes. */
  ghost predicate PaidAt(c: Client, r: Request, i: nat, p': Payer, pays: seq<PaymentInstruction>)
    requires Paying(c, r, i) && i < |c.routeIds|
  {
    var p, env := c.nodes[i].value, r.envs[i];
    && (KeepsChannel(p, env) || env.newChannel.Some?)
    && var (key, ch) := ChannelOf(p, env);
    && Noted(p', StillPaid(c, p), key, ch, c.controlSeqno + 1)
    && PaysFor(p'.latest.value, p'.latestPackets, ch, p.price, Missing(c, p, i))
    && p'.latest.value.purpose == PurposeAt(c, i)
    && var again := r.force && p.latest.Some? && !Waits(c, p) && p.latestDeadline > env.nowAttach && p.latestDeadline != ch.safeDeadline;
    pays == (if again then [p.latest.value] else []) + [p'.latest.value]
  }

  lemma SameChannelPays(ins: PaymentInstruction, packets: int, ch: VirtualChannel, ch': VirtualChannel, price: nat, missing: nat)
    requires ch.(lost := 0) == ch'.(lost := 0) && PaysFor(ins, packets, ch, price, missing)
    ensures PaysFor(ins, packets, ch', price, missing)
  {
  }

  /** Everything about the new payment of hop i. */
  lemma PaymentIs(c: Client, r: Request, i: nat)
    requires Paying(c, r, i) && Build(c, r).1.Some? && PaysNow(c, r, i)
    ensures var (c', msg) := Build(c, r);
            i < |c'.nodes| == |msg.value.pays| && c'.nodes[i].Some? && PaidAt(c, r, i, c'.nodes[i].value, msg.value.pays[i])
  {
    var p, d, env := c.nodes[i].value, DemandAt(c, r, i), r.envs[i];
    var p1, plan := Undecided(p, d), PlanHop(p, d, env);
    BuildAt(c, r, i);
    DemandIs(c, r, i);
    DueIs(c, r, i);
    BuiltExactly(c, r);
    assert Writable(c, r, i);
    WritableIsBuilt(c, r, i);
    PlanIs(p, d, env);
    PaymentParts(p1, d, env);
    ChannelIs(p, d, env);
    var cur, ch := plan.payer.current.value, plan.payer.book[plan.payer.current.value];
    PaymentFills(p1, d, env, cur, ch);
    SameChannelPays(plan.commit.value.ins, plan.commit.value.packets, ch, ChannelOf(p, env).1, p.price, Missing(c, p, i));
    CommitIsNoted(plan, c.controlSeqno + 1, ChannelOf(p, env).1);
  }

  lemma RoomForAll(ins: PaymentInstruction, packets: int, ch: VirtualChannel, price: nat, missing: nat)
    requires price > 0 && PaysFor(ins, packets, ch, price, missing) && ch.capacity - ch.lastAmount >= missing * price
    ensures packets == missing
  {
    if ins.final {
      Cancel(price, missing, packets + 1);
    }
  }

  /** The channel of hop i's payment can pay for all that is missing. */
  predicate HasRoom(c: Client, r: Request, i: nat)
    requires Paying(c, r, i)
  {
    var p, env := c.nodes[i].value, r.envs[i];
    && (KeepsChannel(p, env) || env.newChannel.Some?)
    && var ch := ChannelOf(p, env).1;
    ch.capacity - ch.lastAmount >= Missing(c, p, i) * p.price
  }

  lemma BuildKeepsCounters(c: Client, r: Request, i: nat)
    requires Fitting(c, r)
    ensures UsedAt(Build(c, r).0, i) == UsedAt(c, i)
  {
  }

  /** With room on the channel, a payment that was due tops the balance up to the target. */
  lemma TopsUp(c: Client, r: Request, i: nat)
    requires Paying(c, r, i) && Build(c, r).1.Some? && PaysNow(c, r, i) && HasRoom(c, r, i)
    requires BalanceAt(c, c.nodes[i].value, i) <= c.target
    ensures var c' := Build(c, r).0;
            i < |c'.nodes| && c'.nodes[i].Some? && c'.nodes[i].value.paidPackets - UsedAt(c', i) == c.target
  {
    PaymentIs(c, r, i);
    BuildKeepsCounters(c, r, i);
    var p, p' := c.nodes[i].value, Build(c, r).0.nodes[i].value;
    RoomForAll(p'.latest.value, p'.latestPackets, ChannelOf(p, r.envs[i]).1, p.price, Missing(c, p, i));
  }

  // ---------------------------------------------------------------------------------------
  // What is published
  // ---------------------------------------------------------------------------------------

  /** m is the least count of paid packets among the hops lo..hi, or the largest int64 if none is paid. */
  ghost predicate LeastPaid(nodes: seq<Option<Payer>>, lo: nat, hi: nat, m: int)
    requires lo <= hi <= |nodes|
  {
    && (forall i: nat | lo <= i < hi && nodes[i].Some? :: m <= nodes[i].value.paidPackets)
    && (m == MAX_INT64 || exists i: nat :: lo <= i < hi && nodes[i].Some? && nodes[i].value.paidPackets == m)
  }

  lemma MinPaidIs(nodes: seq<Option<Payer>>, lo: nat, hi: nat)
    requires lo <= hi <= |nodes|
    ensures LeastPaid(nodes, lo, hi, MinPaid(nodes, lo, hi))
  {
    forall i: nat | lo <= i < hi && nodes[i].Some?
      ensures MinPaid(nodes, lo, hi) <= nodes[i].value.paidPackets
    {
      MinPaidIsLeast(nodes, lo, hi, i);
    }
    MinPaidIsAttained(nodes, lo, hi);
  }

  /** The counts published are the least any hop of the direction was paid, the gate in both. */
  lemma PublishedIsLeast(c: Client, r: Request)
    requires Fitting(c, r) && Build(c, r).1.Some?
    ensures var c' := Build(c, r).0;
            && |c'.nodes| == |c.nodes|
            && LeastPaid(c'.nodes, 0, c.chainTo, c'.minPaidOut)
            && LeastPaid(c'.nodes, c.chainTo - 1, |c'.nodes|, c'.minPaidIn)
  {
    var c' := Build(c, r).0;
    BuildAt(c, r, 0);
    MinPaidIs(c'.nodes, 0, c.chainTo);
    MinPaidIs(c'.nodes, c.chainTo - 1, |c'.nodes|);
  }
}
