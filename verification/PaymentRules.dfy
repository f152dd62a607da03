/** What one payment buys at a hop and when it is taken, in the fields of section, instruction and
    environment alone: the reference `PaymentInstruction.Execute` is compared with. */
module PaymentRules {
  import opened Options
  import opened Arith
  import opened HopLedger
  import PrepaidGate

  /** The price in force for what a purpose names: the out port, or the route in its low 32 bits. */
  function PriceFor(s: Section, purpose: nat): nat {
    if purpose / 0x1_0000_0000 == 2 then (if s.out.Some? then s.out.value.price else 0)
    else if purpose / 0x1_0000_0000 == 1 then
      var id := purpose % 0x1_0000_0000;
      if id in s.routes then s.routes[id].price else 0
    else 0
  }

  /** The service is on, the state is signed for a positive amount, and the channel has an entry or
      the service knows it as one that only comes in. */
  predicate Presented(s: Section, ins: PaymentInstruction, env: Env) {
    && env.allowRouting && env.serviceOn && env.stateParses && env.stateVerifies && ins.amount > 0
    && (ins.key in s.payments || (env.meta.Some? && env.meta.value.incoming.Some? && !env.meta.value.hasOutgoing))
  }

  /** The channel's entry, or the one its first state makes. */
  function EntryFor(s: Section, ins: PaymentInstruction, env: Env): Channel
    requires Presented(s, ins, env)
  {
    if ins.key in s.payments then s.payments[ins.key]
    else
      var m := env.meta.value;
      var deadline := m.incoming.value.safeDeadline;
      Channel(m.active && deadline - env.now >= 300, deadline, m.incoming.value.capacity, m.last, ins.purpose)
  }

  /** What the section counted for this channel before. */
  function Before(s: Section, ins: PaymentInstruction, env: Env): int
    requires Presented(s, ins, env)
  {
    var e := EntryFor(s, ins, env);
    if e.latest.None? || (ins.key !in s.payments && e.deadline - env.now >= 300) then 0 else e.latest.value
  }

  /** A newer state, of the purpose its channel has, 300 s or more before a deadline; a known channel
      must still be active. */
  predicate Newer(s: Section, ins: PaymentInstruction, env: Env) {
    && Presented(s, ins, env)
    && var e := EntryFor(s, ins, env);
    && e.purpose == ins.purpose && ins.amount > Before(s, ins, env)
    && (ins.key in s.payments ==> e.active) && e.deadline - env.now >= 300 && env.resolveOk
  }

  /** The purpose names the out port, or a priced route; a first state needs capacity for 10000
      packets out, or for 1000 packets of the route. */
  predicate Buys(s: Section, e: Channel, purpose: nat) {
    var price, kind := PriceFor(s, purpose), purpose / 0x1_0000_0000;
    || (kind == 2 && s.out.Some? && (e.latest.None? ==> e.capacity >= 10000 * price))
    || (kind == 1 && price > 0 && (e.latest.None? ==> e.capacity >= 1000 * price))
  }

  /** The verdict on every instruction, for every section and environment. */
  lemma VerdictExactly(s: Section, ins: PaymentInstruction, env: Env)
    ensures var (verdict, price) := (Execute(s, ins, env).1, PriceFor(s, ins.purpose));
            && (verdict.Accepted? <==> Newer(s, ins, env) && Buys(s, EntryFor(s, ins, env), ins.purpose) && price > 0)
            && (verdict.Panicked? <==> Newer(s, ins, env) && Buys(s, EntryFor(s, ins, env), ins.purpose) && price == 0)
            && (verdict.AlreadyProcessed? <==>
                  Presented(s, ins, env) && EntryFor(s, ins, env).purpose == ins.purpose && ins.amount <= Before(s, ins, env))
  {
  }

  /** The credit reported is the difference, at the price in force. */
  lemma CreditIsAtPrice(s: Section, ins: PaymentInstruction, env: Env)
    requires Execute(s, ins, env).1.Accepted?
    ensures Presented(s, ins, env)
    ensures Execute(s, ins, env).1.credit == Credit(ins.amount - Before(s, ins, env), PriceFor(s, ins.purpose))
    ensures PriceFor(s, ins.purpose) > 0 && ins.amount > Before(s, ins, env)
  {
  }

  /** A payment for a route adds the difference over the route's price to that route's counter. */
  lemma RoutePaymentBuys(s: Section, ins: PaymentInstruction, env: Env, routeId: nat)
    requires routeId < 0x1_0000_0000 && ins.purpose == 0x1_0000_0000 + routeId && Execute(s, ins, env).1.Accepted?
    ensures Presented(s, ins, env) && routeId in s.routes && s.routes[routeId].price > 0
    ensures var s', r := Execute(s, ins, env).0, s.routes[routeId];
            var num := (ins.amount - Before(s, ins, env)) / r.price;
            && s'.routes == s.routes[routeId := PaidRoute(r.price, true, PrepaidGate.AddPrepaid(r.prepaid, num))]
            && s'.out == s.out
  {
    assert ins.purpose / TWO_32 == 1 && ins.purpose % TWO_32 == routeId;
  }

  /** A payment for the out port adds it to both of its counters. */
  lemma OutPaymentBuys(s: Section, ins: PaymentInstruction, env: Env)
    requires ins.purpose / 0x1_0000_0000 == 2 && Execute(s, ins, env).1.Accepted?
    ensures Presented(s, ins, env) && s.out.Some? && s.out.value.price > 0
    ensures var s', o := Execute(s, ins, env).0, s.out.value;
            var num := (ins.amount - Before(s, ins, env)) / o.price;
            && s'.out == Some(PaidPort(o.price, PrepaidGate.AddPrepaid(o.prepaidOut, num), PrepaidGate.AddPrepaid(o.prepaidIn, num)))
            && s'.routes == s.routes
  {
  }

  /** The entries after any execution: a first state leaves one, and an accepted one is noted. */
  lemma EntriesAfter(s: Section, ins: PaymentInstruction, env: Env)
    ensures var (s', verdict) := Execute(s, ins, env);
            && (!Presented(s, ins, env) ==> s' == s)
            && (Presented(s, ins, env) ==>
                  var e := EntryFor(s, ins, env);
                  s'.payments == s.payments[ins.key := if verdict.Accepted? then e.(latest := Some(ins.amount)) else e])
            && (!verdict.Accepted? ==> s'.routes == s.routes && s'.out == s.out)
  {
  }

  /** No payment changes a price. */
  lemma PricesStay(s: Section, ins: PaymentInstruction, env: Env, purpose: nat)
    ensures PriceFor(Execute(s, ins, env).0, purpose) == PriceFor(s, purpose)
  {
  }

  /** A state no larger than what the service holds is credited once more exactly when the section
      has no entry for its channel, or an entry for less that is still active, at least 300 s are
      left and it buys something; only a section that was lost before has that. */
  lemma CreditedAgainExactly(h: Hop, deadlineOf: Deadlines, now: int, ins: PaymentInstruction, env: Env)
    requires HopInv(h, deadlineOf, now) && HonestService(h, deadlineOf, now, ins.key, env)
    requires 0 < ins.amount <= h.Recorded(ins.key)
    ensures Pay(h, ins, env).1.Accepted? <==>
            && Presented(h.section, ins, env) && env.resolveOk
            && deadlineOf(ins.key) - now >= 300
            && var e := EntryFor(h.section, ins, env);
            && (ins.key in h.section.payments ==> e.active && EntryAmount(e) < ins.amount)
            && e.purpose == ins.purpose && Buys(h.section, e, ins.purpose) && PriceFor(h.section, ins.purpose) > 0
    ensures Pay(h, ins, env).1.Accepted? ==>
              && h.reborn
              && Pay(h, ins, env).1.credit == Credit(ins.amount - Counted(h, ins.key), PriceFor(h.section, ins.purpose))
  {
    assert KeyInv(h, deadlineOf, now, ins.key);
    VerdictExactly(h.section, ins, env);
    if Pay(h, ins, env).1.Accepted? {
      CreditIsAtPrice(h.section, ins, env);
    }
  }
}
