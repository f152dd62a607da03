/** The paying end: `prepareTunnelControlMessage` decides, hop by hop from the far end, which
    payment to attach, and applies what it decided only when the whole message is built. */
module ControlMessage {
  import opened Options
  import opened Arith
  import opened HopLedger

  const CHANNEL_CAPACITY_FOR_NUM_PAYMENTS: nat := 30

  /** `lost` is the audit: packets paid on this channel and written off. */
  datatype VirtualChannel = VirtualChannel(lastAmount: int, capacity: int, safeDeadline: int, lost: int)

  /** One committed payment; `writtenOff` once it was given up as expired. */
  datatype Payment = Payment(packets: int, writtenOff: bool)

  /** `book` holds every channel this payer opened, a channel's key being its place in it, and
      `current` points into it.  `log` is the audit of committed payments. */
  datatype Payer = Payer(
    price: nat,
    paidPackets: int,
    book: seq<VirtualChannel>,
    current: Option<nat>,
    latest: Option<PaymentInstruction>,
    latestPaidOn: nat,
    latestDeadline: int,
    latestPackets: int,
    log: seq<Payment>)

  /** The world while one hop's layer is built: the three readings of the clock, the channel
      opening (None when it fails), and the fallible calls. */
  datatype NodeEnv = NodeEnv(
    nowLatest: int,
    nowChannel: int,
    nowAttach: int,
    newChannel: Option<VirtualChannel>,
    cellOk: bool,
    resolveOk: bool,
    encryptOk: bool)

  /** What to decide for one hop: its purpose word, the packets consumed on it, the prepay
      target, the last paid acknowledgement, and the two flags. */
  datatype Demand = Demand(
    purpose: nat,
    consumed: int,
    target: nat,
    paidReceived: nat,
    withPayments: bool,
    force: bool)

  /** A decided payment, applied only if the whole message is built. */
  datatype Commit = Commit(ins: PaymentInstruction, packets: int)

  datatype Plan = Plan(payer: Payer, pays: seq<PaymentInstruction>, commit: Option<Commit>, ok: bool)

  // ---------------------------------------------------------------------------------------
  // One hop
  // ---------------------------------------------------------------------------------------

  predicate Unacknowledged(p: Payer, d: Demand) {
    p.latest.Some? && p.latestPaidOn > d.paidReceived
  }

  /** An unacknowledged payment whose channel expired is given up. */
  function WrittenOff(p: Payer): Payer
    requires WellPointed(p) && p.latest.Some?
  {
    var last, key := |p.log| - 1, p.latest.value.key;
    p.(latest := None,
       paidPackets := p.paidPackets - p.latestPackets,
       book := p.book[key := p.book[key].(lost := p.book[key].lost + p.latestPackets)],
       log := p.log[last := p.log[last].(writtenOff := true)])
  }

  /** The pointers of a payer point somewhere. */
  predicate WellPointed(p: Payer) {
    && (p.current.Some? ==> p.current.value < |p.book|)
    && (p.latest.Some? ==> p.log != [] && p.latest.value.key < |p.book|)
  }

  predicate NeedsChannel(p: Payer, env: NodeEnv)
    requires WellPointed(p)
  {
    p.current.None? || p.book[p.current.value].safeDeadline < env.nowChannel
  }

  function WithChannel(p: Payer, env: NodeEnv): (r: Payer)
    requires WellPointed(p)
    ensures WellPointed(r)
  {
    if !NeedsChannel(p, env) then p
    else if env.newChannel.None? then p.(current := None)
    else p.(book := p.book + [env.newChannel.value.(lastAmount := 0, lost := 0)], current := Some(|p.book|))
  }

  function Prepay(p: Payer, d: Demand): int {
    var prepay := d.target - (p.paidPackets - d.consumed);
    if prepay < 0 then 0 else prepay
  }

  predicate WantsPayment(p: Payer, d: Demand) {
    p.paidPackets - d.consumed <= d.target / 2 || d.force
  }

  /** Packets the current channel can still pay for. */
  function Affordable(p: Payer): int
    requires p.price > 0 && p.current.Some? && p.current.value < |p.book|
  {
    (p.book[p.current.value].capacity - p.book[p.current.value].lastAmount) / p.price
  }

  function PlanPayment(p: Payer, d: Demand, env: NodeEnv): (plan: Plan)
    requires p.price > 0 && WellPointed(p)
    ensures plan.commit.Some? ==> plan.payer.current.Some? && plan.payer.current.value < |plan.payer.book|
  {
    var p' := WithChannel(p, env);
    if p'.current.None? then
      Plan(p', [], None, false)
    else
      var cur := p'.current.value;
      var prepay := Prepay(p, d);
      var isFinal := Affordable(p') <= prepay;
      var payFor := if isFinal then Affordable(p') else prepay;
      var ins := PaymentInstruction(cur, p'.book[cur].lastAmount + payFor * p'.price, d.purpose, isFinal);
      if !env.cellOk || !env.resolveOk then
        Plan(p', [], None, false)
      else
        var previous :=
          if d.force && p'.latest.Some? && p'.latestDeadline > env.nowAttach && p'.latestDeadline != p'.book[cur].safeDeadline
          then [p'.latest.value] else [];
        Plan(p', previous + [ins], Some(Commit(ins, payFor)), env.encryptOk)
  }

  function PlanHop(p: Payer, d: Demand, env: NodeEnv): (plan: Plan)
    requires WellPointed(p)
    ensures plan.commit.Some? ==> plan.payer.current.Some? && plan.payer.current.value < |plan.payer.book|
  {
    if !d.withPayments || p.price == 0 then
      Plan(p, [], None, env.encryptOk)
    else if Unacknowledged(p, d) && p.latestDeadline > env.nowLatest then
      Plan(p, [p.latest.value], None, env.encryptOk)
    else
      var p' := if Unacknowledged(p, d) then WrittenOff(p) else p;
      if WantsPayment(p', d) then PlanPayment(p', d, env) else Plan(p', [], None, env.encryptOk)
  }

  /** The mutation of a decided payment, run after `controlSeqno` was incremented to seqno. */
  function Committed(plan: Plan, seqno: nat): Payer
    requires plan.commit.Some? ==> plan.payer.current.Some? && plan.payer.current.value < |plan.payer.book|
  {
    match plan.commit
    case None => plan.payer
    case Some(Commit(ins, packets)) =>
      var p := plan.payer;
      var cur := p.current.value;
      p.(paidPackets := p.paidPackets + packets,
         latestPackets := packets,
         latest := Some(ins),
         latestDeadline := p.book[cur].safeDeadline,
         latestPaidOn := seqno,
         book := p.book[cur := p.book[cur].(lastAmount := ins.amount)],
         current := if ins.final then None else p.current,
         log := p.log + [Payment(packets, false)])
  }

  // ---------------------------------------------------------------------------------------
  // The payer's own ledger
  // ---------------------------------------------------------------------------------------

  function Amounts(book: seq<VirtualChannel>): int {
    if book == [] then 0 else Amounts(book[..|book| - 1]) + book[|book| - 1].lastAmount
  }

  function Losses(book: seq<VirtualChannel>): int {
    if book == [] then 0 else Losses(book[..|book| - 1]) + book[|book| - 1].lost
  }

  function Paid(log: seq<Payment>): int {
    if log == [] then 0 else Paid(log[..|log| - 1]) + log[|log| - 1].packets
  }

  function Lost(log: seq<Payment>): int {
    if log == [] then 0
    else Lost(log[..|log| - 1]) + if log[|log| - 1].writtenOff then log[|log| - 1].packets else 0
  }

  predicate SoundChannel(ch: VirtualChannel, price: nat) {
    && 0 <= ch.lastAmount <= ch.capacity
    && (price > 0 ==> ch.lastAmount % price == 0)
    && (price == 0 ==> ch.lastAmount == 0)
    && ch.lost >= 0
  }

  predicate SoundInstruction(p: Payer, ins: PaymentInstruction) {
    && p.price > 0
    && ins.key < |p.book|
    && 0 <= ins.amount <= p.book[ins.key].lastAmount
    && ins.amount % p.price == 0
  }

  predicate PayerInv(p: Payer) {
    && (forall ch | ch in p.book :: SoundChannel(ch, p.price))
    && (p.current.Some? ==> p.current.value < |p.book|)
    && (forall e | e in p.log :: e.packets >= 0)
    && p.paidPackets == Paid(p.log) - Lost(p.log)
    && p.price * Paid(p.log) == Amounts(p.book)
    && Losses(p.book) == Lost(p.log)
    && (p.latest.Some? ==>
          && SoundInstruction(p, p.latest.value)
          && p.latest.value.amount == p.book[p.latest.value.key].lastAmount
          && p.log != []
          && p.log[|p.log| - 1] == Payment(p.latestPackets, false))
  }

  /** Nothing paid and nothing opened yet. */
  predicate FreshPayer(p: Payer) {
    p.paidPackets == 0 && p.book == [] && p.current.None? && p.latest.None? && p.log == []
  }

  /** A channel that opens holds between nothing and what was asked for: 30 full prepayments. */
  predicate EnvOk(p: Payer, target: nat, env: NodeEnv) {
    env.newChannel.Some? ==> 0 <= env.newChannel.value.capacity <= RequestedCapacity(p.price, target)
  }

  function RequestedCapacity(price: nat, target: nat): int {
    target * price * CHANNEL_CAPACITY_FOR_NUM_PAYMENTS
  }

  lemma {:induction false} LostIsPartOfPaid(log: seq<Payment>)
    requires forall e | e in log :: e.packets >= 0
    ensures 0 <= Lost(log) <= Paid(log)
  {
    if log != [] {
      assert log[|log| - 1] in log;
      LostIsPartOfPaid(log[..|log| - 1]);
    }
  }

  /** For every payer whose books are in order: what it counts as paid is the value signed on
      all its channels less what it wrote off, and is never negative. */
  lemma PaidPacketsAreAccountedFor(p: Payer)
    requires PayerInv(p)
    ensures p.price * p.paidPackets == Amounts(p.book) - p.price * Lost(p.log)
    ensures p.paidPackets >= 0
  {
    LostIsPartOfPaid(p.log);
    assert p.price * (Paid(p.log) - Lost(p.log)) == p.price * Paid(p.log) - p.price * Lost(p.log);
  }

  lemma {:induction false} AmountsAfterUpdate(book: seq<VirtualChannel>, i: nat, ch: VirtualChannel)
    requires i < |book|
    ensures Amounts(book[i := ch]) == Amounts(book) - book[i].lastAmount + ch.lastAmount
    ensures Losses(book[i := ch]) == Losses(book) - book[i].lost + ch.lost
  {
    var last := |book| - 1;
    var book' := book[i := ch];
    if i < last {
      assert book'[..last] == book[..last][i := ch];
      AmountsAfterUpdate(book[..last], i, ch);
    } else {
      assert book'[..last] == book[..last];
    }
  }

  lemma AmountsAfterOpening(book: seq<VirtualChannel>, ch: VirtualChannel)
    ensures Amounts(book + [ch]) == Amounts(book) + ch.lastAmount
    ensures Losses(book + [ch]) == Losses(book) + ch.lost
  {
    assert (book + [ch])[..|book|] == book;
  }

  lemma LogAfterPayment(log: seq<Payment>, packets: int)
    ensures Paid(log + [Payment(packets, false)]) == Paid(log) + packets
    ensures Lost(log + [Payment(packets, false)]) == Lost(log)
  {
    assert (log + [Payment(packets, false)])[..|log|] == log;
  }

  lemma WriteOffKeepsLog(log: seq<Payment>)
    requires log != [] && !log[|log| - 1].writtenOff && forall e | e in log :: e.packets >= 0
    ensures var last := |log| - 1;
            var log' := log[last := log[last].(writtenOff := true)];
            && Paid(log') == Paid(log) && Lost(log') == Lost(log) + log[last].packets
            && log[last].packets >= 0
            && forall e | e in log' :: e.packets >= 0
  {
    var last := |log| - 1;
    var log' := log[last := log[last].(writtenOff := true)];
    assert log'[..last] == log[..last];
    assert log[last] in log;
    forall e | e in log'
      ensures e.packets >= 0
    {
      var i :| 0 <= i < |log'| && log'[i] == e;
      assert log[i] in log;
    }
  }

  lemma WriteOffKeepsBooks(p: Payer)
    requires PayerInv(p) && p.latest.Some?
    ensures PayerInv(WrittenOff(p))
    ensures p.latestPackets >= 0
    ensures Paid(WrittenOff(p).log) == Paid(p.log)
  {
    var key := p.latest.value.key;
    var book' := WrittenOff(p).book;
    WriteOffKeepsLog(p.log);
    AmountsAfterUpdate(p.book, key, book'[key]);
    forall ch | ch in book'
      ensures SoundChannel(ch, p.price)
    {
      var i :| 0 <= i < |book'| && book'[i] == ch;
      assert p.book[i] in p.book;
    }
  }

  lemma OpeningKeepsBooks(p: Payer, env: NodeEnv)
    requires PayerInv(p) && (env.newChannel.Some? ==> env.newChannel.value.capacity >= 0)
    ensures PayerInv(WithChannel(p, env))
  {
    if NeedsChannel(p, env) && env.newChannel.Some? {
      var ch := env.newChannel.value.(lastAmount := 0, lost := 0);
      AmountsAfterOpening(p.book, ch);
      assert SoundChannel(ch, p.price);
      assert forall c | c in p.book + [ch] :: c in p.book || c == ch;
    }
  }

  lemma ChannelKeepsBooks(p: Payer, target: nat, env: NodeEnv)
    requires PayerInv(p) && EnvOk(p, target, env)
    ensures PayerInv(WithChannel(p, env))
  {
    OpeningKeepsBooks(p, env);
  }

  /** What a decided payment amounts to: a whole number of packets the channel can pay. */
  lemma PlannedPaymentFits(p: Payer, d: Demand, env: NodeEnv)
    requires PayerInv(p) && p.price > 0 && EnvOk(p, d.target, env)
    requires PlanPayment(p, d, env).commit.Some?
    ensures FittingCommit(PlanPayment(p, d, env)) && PlanPayment(p, d, env).payer.price == p.price
  {
    ChannelKeepsBooks(p, d.target, env);
    var p' := WithChannel(p, env);
    var cur := p'.current.value;
    var ch := p'.book[cur];
    var packets := PlanPayment(p, d, env).commit.value.packets;
    assert ch in p'.book;
    var left := ch.capacity - ch.lastAmount;
    assert 0 <= packets <= left / p.price;
    Affords(left, packets, p.price);
    MultiplePlus(ch.lastAmount, packets, p.price);
  }

  lemma Affords(left: int, packets: int, price: nat)
    requires price > 0 && 0 <= packets <= left / price
    ensures 0 <= packets * price <= left
  {
    assert packets * price <= left / price * price;
  }

  /** p' is p with its books in order, nothing more counted as paid and no more signed. */
  predicate HeldBack(p: Payer, p': Payer) {
    && PayerInv(p')
    && p'.price == p.price
    && p'.paidPackets <= p.paidPackets
    && |p.book| <= |p'.book|
    && (forall c: nat | c < |p.book| :: SameSigned(p.book[c], p'.book[c]))
    && (forall c: nat | |p.book| <= c < |p'.book| :: p'.book[c].lastAmount == 0)
    && Paid(p'.log) == Paid(p.log)
    && p'.latestPaidOn == p.latestPaidOn
    && (p'.latest == p.latest || p'.latest.None?)
  }

  predicate SameSigned(ch: VirtualChannel, ch': VirtualChannel) {
    ch' == ch.(lost := ch'.lost)
  }

  lemma HeldBackTransitive(p: Payer, q: Payer, r: Payer)
    requires HeldBack(p, q) && HeldBack(q, r)
    ensures HeldBack(p, r)
  {
    assert forall c: nat | c < |q.book| :: SameSigned(q.book[c], r.book[c]);
    assert forall c: nat | c < |p.book| :: SameSigned(p.book[c], q.book[c]);
  }

  lemma WriteOffHoldsBack(p: Payer)
    requires PayerInv(p) && p.latest.Some?
    ensures HeldBack(p, WrittenOff(p))
  {
    WriteOffKeepsBooks(p);
  }

  lemma ChannelHoldsBack(p: Payer, target: nat, env: NodeEnv)
    requires PayerInv(p) && EnvOk(p, target, env)
    ensures HeldBack(p, WithChannel(p, env))
  {
    ChannelKeepsBooks(p, target, env);
  }

  /** Deciding keeps the books in order whether or not the message is ever built, and never
      raises what is counted as paid nor the amount signed on any channel. */
  lemma PlanHoldsBack(p: Payer, d: Demand, env: NodeEnv)
    requires PayerInv(p) && EnvOk(p, d.target, env)
    ensures HeldBack(p, PlanHop(p, d, env).payer)
  {
    if d.withPayments && p.price > 0 && !(Unacknowledged(p, d) && p.latestDeadline > env.nowLatest) {
      var p1 := Undecided(p, d);
      UndecidedHoldsBack(p, d);
      if WantsPayment(p1, d) {
        ChannelHoldsBack(p1, d.target, env);
        assert PlanHop(p, d, env).payer == WithChannel(p1, env);
        HeldBackTransitive(p, p1, WithChannel(p1, env));
      }
    }
  }

  /** The payer when a new payment is considered. */
  function Undecided(p: Payer, d: Demand): Payer
    requires WellPointed(p)
  {
    if Unacknowledged(p, d) then WrittenOff(p) else p
  }

  lemma UndecidedHoldsBack(p: Payer, d: Demand)
    requires PayerInv(p)
    ensures HeldBack(p, Undecided(p, d))
  {
    if Unacknowledged(p, d) {
      WriteOffHoldsBack(p);
    }
  }

  /** p' is p after one more payment, or none: the books are in order, amounts and the packets
      ever paid only grow. */
  predicate Advanced(p: Payer, p': Payer) {
    && PayerInv(p')
    && p'.price == p.price
    && |p.book| <= |p'.book|
    && (forall c: nat | c < |p.book| :: p.book[c].lastAmount <= p'.book[c].lastAmount)
    && Paid(p.log) <= Paid(p'.log)
  }

  lemma SoundAfterAdvance(p: Payer, p': Payer, ins: PaymentInstruction)
    requires Advanced(p, p') && SoundInstruction(p, ins)
    ensures SoundInstruction(p', ins)
  {
  }

  /** Applying what was decided keeps the books in order: one channel's amount grows, by price
      times the packets added, and every attached instruction is covered by the books. */
  lemma CommitAdvances(p: Payer, d: Demand, env: NodeEnv, seqno: nat)
    requires PayerInv(p) && EnvOk(p, d.target, env)
    ensures var plan := PlanHop(p, d, env);
            && Advanced(p, Committed(plan, seqno))
            && forall ins | ins in plan.pays :: SoundInstruction(Committed(plan, seqno), ins)
  {
    var plan := PlanHop(p, d, env);
    PlanHoldsBack(p, d, env);
    HeldBackAdvances(p, plan.payer);
    PlanPaysLatest(p, d, env);
    if plan.commit.Some? {
      UndecidedHoldsBack(p, d);
      PlannedPaymentFits(Undecided(p, d), d, env);
      var p' := Committed(plan, seqno);
      CommitAddsUp(plan, seqno);
      AdvancedTransitive(p, plan.payer, p');
      forall ins | ins in plan.pays
        ensures SoundInstruction(p', ins)
      {
        if ins != plan.commit.value.ins {
          SoundAfterAdvance(plan.payer, p', ins);
        }
      }
    }
  }

  lemma HeldBackAdvances(p: Payer, p': Payer)
    requires PayerInv(p) && HeldBack(p, p')
    ensures Advanced(p, p')
  {
    assert forall c: nat | c < |p.book| :: SameSigned(p.book[c], p'.book[c]);
  }

  lemma AdvancedTransitive(p: Payer, q: Payer, r: Payer)
    requires Advanced(p, q) && Advanced(q, r)
    ensures Advanced(p, r)
  {
    assert forall c: nat | c < |p.book| :: p.book[c].lastAmount <= q.book[c].lastAmount;
  }

  /** A message carries nothing for a hop but its latest payment and the one just decided. */
  lemma PlanPaysLatest(p: Payer, d: Demand, env: NodeEnv)
    requires WellPointed(p)
    ensures var plan := PlanHop(p, d, env);
            && (plan.commit.Some? ==> p.price > 0 && plan == PlanPayment(Undecided(p, d), d, env))
            && forall ins | ins in plan.pays ::
                 (plan.commit.Some? && ins == plan.commit.value.ins) || Some(ins) == plan.payer.latest
  {
  }

  /** A decided payment as `PlannedPaymentFits` leaves it. */
  predicate FittingCommit(plan: Plan) {
    && plan.commit.Some? && PayerInv(plan.payer) && plan.payer.price > 0
    && plan.payer.current == Some(plan.commit.value.ins.key)
    && var p, ins, packets := plan.payer, plan.commit.value.ins, plan.commit.value.packets;
    && packets >= 0
    && p.book[ins.key].lastAmount <= ins.amount == p.book[ins.key].lastAmount + packets * p.price
    && ins.amount <= p.book[ins.key].capacity
    && ins.amount % p.price == 0
  }

  lemma CommitBalances(plan: Plan, seqno: nat)
    requires FittingCommit(plan)
    ensures var p, p' := plan.payer, Committed(plan, seqno);
            && p.price * Paid(p'.log) == Amounts(p'.book)
            && Paid(p'.log) == Paid(p.log) + plan.commit.value.packets
            && Lost(p'.log) == Lost(p.log)
            && Losses(p'.book) == Losses(p.book)
            && (forall ch | ch in p'.book :: SoundChannel(ch, p.price))
  {
    var p, ins, packets := plan.payer, plan.commit.value.ins, plan.commit.value.packets;
    BookAfterPayment(p.book, p.price, ins.key, ins.amount);
    LogAfterPayment(p.log, packets);
    assert p.price * (Paid(p.log) + packets) == p.price * Paid(p.log) + packets * p.price;
  }

  lemma CommitAddsUp(plan: Plan, seqno: nat)
    requires FittingCommit(plan)
    ensures Advanced(plan.payer, Committed(plan, seqno))
    ensures SoundInstruction(Committed(plan, seqno), plan.commit.value.ins)
  {
    var p, ins, packets := plan.payer, plan.commit.value.ins, plan.commit.value.packets;
    var p' := Committed(plan, seqno);
    CommitBalances(plan, seqno);
    assert forall e | e in p'.log :: e in p.log || e == Payment(packets, false);
    assert p.book[ins.key] in p.book;
  }

  lemma BookAfterPayment(book: seq<VirtualChannel>, price: nat, key: nat, amount: int)
    requires price > 0 && key < |book| && (forall ch | ch in book :: SoundChannel(ch, price))
    requires book[key].lastAmount <= amount <= book[key].capacity && amount % price == 0
    ensures var book' := book[key := book[key].(lastAmount := amount)];
            && (forall ch | ch in book' :: SoundChannel(ch, price))
            && Amounts(book') == Amounts(book) + (amount - book[key].lastAmount)
            && Losses(book') == Losses(book)
  {
    var book' := book[key := book[key].(lastAmount := amount)];
    AmountsAfterUpdate(book, key, book'[key]);
    assert book[key] in book;
    forall ch | ch in book'
      ensures SoundChannel(ch, price)
    {
      var i :| 0 <= i < |book'| && book'[i] == ch;
      assert book[i] in book;
    }
  }

  // ---------------------------------------------------------------------------------------
  // The size of a payment
  // ---------------------------------------------------------------------------------------

  /** Every channel was opened with at most the capacity asked for. */
  predicate WithinRequest(p: Payer, limit: int) {
    forall ch | ch in p.book :: ch.capacity <= limit
  }

  lemma PlanOpensAtMostOne(p: Payer, d: Demand, env: NodeEnv)
    requires WellPointed(p)
    ensures var book, before := PlanHop(p, d, env).payer.book, Undecided(p, d).book;
            || book == p.book
            || book == before
            || (env.newChannel.Some? && book == before + [env.newChannel.value.(lastAmount := 0, lost := 0)])
    ensures |Undecided(p, d).book| == |p.book|
    ensures forall c: nat | c < |p.book| :: SameSigned(p.book[c], Undecided(p, d).book[c])
  {
  }

  lemma RequestBoundKept(p: Payer, d: Demand, env: NodeEnv, seqno: nat, limit: int)
    requires WellPointed(p) && WithinRequest(p, limit)
    requires env.newChannel.Some? ==> env.newChannel.value.capacity <= limit
    ensures WithinRequest(PlanHop(p, d, env).payer, limit)
    ensures WithinRequest(Committed(PlanHop(p, d, env), seqno), limit)
  {
    var plan := PlanHop(p, d, env);
    PlanOpensAtMostOne(p, d, env);
    forall ch | ch in Undecided(p, d).book
      ensures ch.capacity <= limit
    {
      var i: nat :| i < |p.book| && Undecided(p, d).book[i] == ch;
      assert p.book[i] in p.book && SameSigned(p.book[i], ch);
    }
    CommitKeepsCapacities(plan, seqno, limit);
  }

  lemma CommitKeepsCapacities(plan: Plan, seqno: nat, limit: int)
    requires plan.commit.Some? ==> plan.payer.current.Some? && plan.payer.current.value < |plan.payer.book|
    requires WithinRequest(plan.payer, limit)
    ensures WithinRequest(Committed(plan, seqno), limit)
  {
    var p' := Committed(plan, seqno);
    forall ch | ch in p'.book
      ensures ch.capacity <= limit
    {
      var i :| 0 <= i < |p'.book| && p'.book[i] == ch;
      assert plan.payer.book[i] in plan.payer.book;
    }
  }

  /** The quotient converted with `Int64()` is small, so the conversion loses nothing. */
  lemma AffordableIsSmall(p: Payer, target: nat)
    requires PayerInv(p) && p.price > 0 && p.current.Some?
    requires WithinRequest(p, RequestedCapacity(p.price, target))
    ensures 0 <= Affordable(p) <= target * CHANNEL_CAPACITY_FOR_NUM_PAYMENTS
  {
    var ch := p.book[p.current.value];
    assert ch in p.book;
    var left, most := ch.capacity - ch.lastAmount, target * CHANNEL_CAPACITY_FOR_NUM_PAYMENTS;
    assert left <= most * p.price by {
      assert target * p.price * CHANNEL_CAPACITY_FOR_NUM_PAYMENTS == most * p.price;
    }
    DivAtMost(left, most, p.price);
  }
}
