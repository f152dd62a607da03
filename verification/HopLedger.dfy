/** The receiving end of a payment: `PaymentInstruction.Execute` on one section, and the ledger
    it keeps of what a channel has paid and what was credited for it. */
module HopLedger {
  import opened Options
  import opened Arith
  import PrepaidGate

  const MIN_CHANNEL_TIMEOUT_SEC: int := 300
  const PURPOSE_ROUTE: nat := 1
  const PURPOSE_OUT: nat := 2

  /** A signed channel state for `amount`; `key` names the channel. */
  datatype PaymentInstruction = PaymentInstruction(key: nat, amount: int, purpose: nat, final: bool)

  datatype Channel = Channel(active: bool, deadline: int, capacity: int, latest: Option<int>, purpose: nat)

  datatype PaidRoute = PaidRoute(price: nat, paymentReceived: bool, prepaid: int)

  datatype PaidPort = PaidPort(price: nat, prepaidOut: int, prepaidIn: int)

  datatype Section = Section(payments: map<nat, Channel>, routes: map<nat, PaidRoute>, out: Option<PaidPort>)

  /** What the hop's payment service answers about a channel. */
  datatype Meta = Meta(incoming: Option<Incoming>, hasOutgoing: bool, active: bool, last: Option<int>)

  datatype Incoming = Incoming(capacity: int, safeDeadline: int)

  /** The world during one execution: configuration, signature and cell checks, the payment
      service's answers and the clock in seconds. */
  datatype Env = Env(
    allowRouting: bool,
    serviceOn: bool,
    stateParses: bool,
    stateVerifies: bool,
    meta: Option<Meta>,
    now: int,
    resolveOk: bool)

  /** Value `delta` accepted at `price` a packet. */
  datatype Credit = Credit(delta: int, price: nat) {
    function Packets(): int
      requires price > 0
    {
      delta / price
    }
  }

  datatype Outcome = Accepted(credit: Credit) | AlreadyProcessed | Refused | Panicked {
    /** `Execute` returned nil, so the instruction loop goes on to the next instruction. */
    predicate Ok() {
      Accepted? || AlreadyProcessed?
    }
  }

  // ---------------------------------------------------------------------------------------
  // Specification of one execution
  // ---------------------------------------------------------------------------------------

  /** A channel's entry as the service reports it, when it reports a usable one. */
  function LoadedChannel(ins: PaymentInstruction, env: Env): Option<Channel> {
    match env.meta
    case Some(Meta(Some(Incoming(capacity, deadline)), false, active, last)) =>
      Some(Channel(active && Countable(env, deadline), deadline, capacity, last, ins.purpose))
    case _ => None
  }

  predicate Countable(env: Env, deadline: int) {
    deadline - env.now >= MIN_CHANNEL_TIMEOUT_SEC
  }

  /** What the payment buys, given the channel entry: a credit at the price in force, or why not. */
  function Purchase(s: Section, v: Channel, amount: int, delta: int): Outcome {
    var kind, routeId := v.purpose / TWO_32, v.purpose % TWO_32;
    if kind == PURPOSE_OUT then
      match s.out
      case None => Refused
      case Some(o) =>
        if v.latest.None? && v.capacity < o.price * 10000 then Refused
        else if o.price == 0 then Panicked
        else Accepted(Credit(delta, o.price))
    else if kind == PURPOSE_ROUTE then
      if routeId !in s.routes || s.routes[routeId].price == 0 then Refused
      else if v.latest.None? && v.capacity < s.routes[routeId].price * 1000 then Refused
      else Accepted(Credit(delta, s.routes[routeId].price))
    else Refused
  }

  /** Verdict on an instruction against an entry; `justLoaded` marks a first countable load. */
  function Judge(s: Section, v: Channel, justLoaded: bool, ins: PaymentInstruction, env: Env): Outcome {
    var lastAmount := if v.latest.Some? && !justLoaded then v.latest.value else 0;
    var delta := ins.amount - lastAmount;
    if v.purpose != ins.purpose then Refused
    else if delta <= 0 then AlreadyProcessed
    else if !v.active && !justLoaded then Refused
    else if v.deadline - env.now < MIN_CHANNEL_TIMEOUT_SEC then Refused
    else
      var bought := Purchase(s, v, ins.amount, delta);
      if bought.Refused? || !env.resolveOk then Refused else bought
  }

  /** The counters and the entry after an accepted payment. */
  function Credited(s: Section, v: Channel, ins: PaymentInstruction, credit: Credit): Section
    requires Purchase(s, v, ins.amount, credit.delta) == Accepted(credit)
  {
    var num := credit.Packets();
    var s' := s.(payments := s.payments[ins.key := v.(latest := Some(ins.amount))]);
    var routeId := v.purpose % TWO_32;
    if v.purpose / TWO_32 == PURPOSE_OUT then
      var o := s.out.value;
      s'.(out := Some(o.(prepaidOut := PrepaidGate.AddPrepaid(o.prepaidOut, num), prepaidIn := PrepaidGate.AddPrepaid(o.prepaidIn, num))))
    else
      var r := s.routes[routeId];
      s'.(routes := s.routes[routeId := PaidRoute(r.price, true, PrepaidGate.AddPrepaid(r.prepaid, num))])
  }

  function Execute(s: Section, ins: PaymentInstruction, env: Env): (Section, Outcome) {
    if !env.allowRouting || !env.serviceOn || !env.stateParses || ins.amount <= 0 || !env.stateVerifies then
      (s, Refused)
    else if ins.key in s.payments then
      Settle(s, s.payments[ins.key], false, ins, env)
    else
      match LoadedChannel(ins, env)
      case None => (s, Refused)
      case Some(v) => Settle(s.(payments := s.payments[ins.key := v]), v, Countable(env, v.deadline), ins, env)
  }

  function Settle(s: Section, v: Channel, justLoaded: bool, ins: PaymentInstruction, env: Env): (Section, Outcome) {
    var verdict := Judge(s, v, justLoaded, ins, env);
    if verdict.Accepted? then (Credited(s, v, ins, verdict.credit), verdict) else (s, verdict)
  }

  /** The statements of `PaymentInstruction.Execute` in the source's order, on a section object. */
  class PaymentSection {
    var payments: map<nat, Channel>
    var routes: map<nat, PaidRoute>
    var out: Option<PaidPort>

    ghost function State(): Section
      reads this
    {
      Section(payments, routes, out)
    }

    constructor (s: Section)
      ensures State() == s
    {
      payments, routes, out := s.payments, s.routes, s.out;
    }

    method ExecutePayment(ins: PaymentInstruction, env: Env) returns (r: Outcome)
      modifies this
      ensures (State(), r) == Execute(old(State()), ins, env)
    {
      if !env.allowRouting || !env.serviceOn || !env.stateParses {
        return Refused;
      }
      if ins.amount <= 0 {
        return Refused;
      }
      if !env.stateVerifies {
        return Refused;
      }
      var v: Channel;
      var justLoadedAndCountable := false;
      if ins.key in payments {
        v := payments[ins.key];
      } else {
        if env.meta.None? {
          return Refused;
        }
        var vc := env.meta.value;
        if vc.incoming.None? {
          return Refused;
        }
        if vc.hasOutgoing {
          return Refused;
        }
        var deadline := vc.incoming.value.safeDeadline;
        justLoadedAndCountable := deadline - env.now >= MIN_CHANNEL_TIMEOUT_SEC;
        v := Channel(vc.active && justLoadedAndCountable, deadline, vc.incoming.value.capacity, vc.last, ins.purpose);
        payments := payments[ins.key := v];
      }
      if v.purpose != ins.purpose {
        return Refused;
      }
      var lastAmt := 0;
      if v.latest.Some? && !justLoadedAndCountable {
        lastAmt := v.latest.value;
      }
      var amt := ins.amount - lastAmt;
      if amt <= 0 {
        return AlreadyProcessed;
      }
      if !v.active && !justLoadedAndCountable {
        return Refused;
      }
      if v.deadline - env.now < MIN_CHANNEL_TIMEOUT_SEC {
        return Refused;
      }
      var kind, routeId := v.purpose / TWO_32, v.purpose % TWO_32;
      if kind == PURPOSE_OUT {
        if out.None? {
          return Refused;
        }
        var o := out.value;
        if v.latest.None? && v.capacity < o.price * 10000 {
          return Refused;
        }
        if !env.resolveOk {
          return Refused;
        }
        if o.price == 0 {
          return Panicked; // division by zero, after the payment service recorded the state
        }
        var num := amt / o.price;
        out := Some(o.(prepaidOut := PrepaidGate.AddPrepaid(o.prepaidOut, num), prepaidIn := PrepaidGate.AddPrepaid(o.prepaidIn, num)));
        r := Accepted(Credit(amt, o.price));
      } else if kind == PURPOSE_ROUTE {
        if routeId !in routes {
          return Refused;
        }
        var route := routes[routeId];
        if route.price == 0 {
          return Refused;
        }
        if v.latest.None? && v.capacity < route.price * 1000 {
          return Refused;
        }
        if !env.resolveOk {
          return Refused;
        }
        var num := amt / route.price;
        routes := routes[routeId := PaidRoute(route.price, true, PrepaidGate.AddPrepaid(route.prepaid, num))];
        r := Accepted(Credit(amt, route.price));
      } else {
        return Refused;
      }
      payments := payments[ins.key := v.(latest := Some(ins.amount))];
    }
  }

  /** No payment makes the section divide by zero exactly when its out port, if any, is priced. */
  lemma NeverPanicsExactlyWhenPriced(s: Section)
    ensures (forall ins, env :: !Execute(s, ins, env).1.Panicked?) <==> (s.out.Some? ==> s.out.value.price > 0)
  {
    if s.out.Some? && s.out.value.price == 0 {
      var key := UnusedKey(s.payments.Keys);
      var ins := PaymentInstruction(key, 1, PURPOSE_OUT * TWO_32, false);
      var env := Env(true, true, true, true, Some(Meta(Some(Incoming(0, 300)), false, true, None)), 0, true);
      var v := Channel(true, 300, 0, None, ins.purpose);
      assert LoadedChannel(ins, env) == Some(v);
      assert Judge(s.(payments := s.payments[key := v]), v, true, ins, env).Panicked?;
      assert Execute(s, ins, env).1.Panicked?;
    }
  }

  lemma {:induction false} UnusedKey(keys: set<nat>) returns (key: nat)
    ensures forall k | k in keys :: k < key
  {
    if keys == {} {
      key := 0;
    } else {
      var k :| k in keys;
      var above := UnusedKey(keys - {k});
      assert forall j | j in keys :: j == k || j in keys - {k};
      key := if k < above then above else k + 1;
    }
  }

  /** What the hop counts new states of this channel from. */
  function EntryAmount(v: Channel): int {
    if v.latest.Some? then v.latest.value else 0
  }

  /** The amount a new state is compared with: nothing on a first countable load. */
  function Baseline(s: Section, ins: PaymentInstruction, env: Env): int {
    if ins.key in s.payments then
      EntryAmount(s.payments[ins.key])
    else
      match LoadedChannel(ins, env)
      case None => 0
      case Some(v) => if v.latest.Some? && !Countable(env, v.deadline) then v.latest.value else 0
  }

  /** What one execution does to the channel entries and reports as credit. */
  predicate Shape(s: Section, s': Section, outcome: Outcome, ins: PaymentInstruction, env: Env) {
    && s'.payments.Keys <= s.payments.Keys + {ins.key} && s.payments.Keys <= s'.payments.Keys
    && (forall key | key in s.payments && key != ins.key :: s'.payments[key] == s.payments[key])
    && (ins.key in s.payments ==> s'.payments[ins.key].deadline == s.payments[ins.key].deadline)
    && (ins.key !in s.payments && ins.key in s'.payments ==>
          LoadedChannel(ins, env).Some? && s'.payments[ins.key].deadline == LoadedChannel(ins, env).value.deadline)
    && (outcome.Accepted? ==>
          && ins.key in s'.payments && s'.payments[ins.key].latest == Some(ins.amount)
          && (ins.key !in s.payments ==> Countable(env, LoadedChannel(ins, env).value.deadline))
          && ins.amount > 0 && outcome.credit.price > 0
          && outcome.credit.delta == ins.amount - Baseline(s, ins, env) > 0)
    && (!outcome.Accepted? && ins.key in s.payments ==> s'.payments[ins.key] == s.payments[ins.key])
    && (!outcome.Accepted? && ins.key !in s.payments && ins.key in s'.payments ==>
          s'.payments[ins.key].latest == LoadedChannel(ins, env).value.latest)
    && (outcome.AlreadyProcessed? ==> ins.key in s'.payments && ins.amount <= Baseline(s, ins, env))
    && (ins.amount <= Baseline(s, ins, env) ==> !outcome.Accepted?)
    && (outcome.Panicked? ==> ins.amount > 0)
  }

  lemma ExecuteHasShape(s: Section, ins: PaymentInstruction, env: Env)
    ensures Shape(s, Execute(s, ins, env).0, Execute(s, ins, env).1, ins, env)
  {
  }

  // ---------------------------------------------------------------------------------------
  // A hop over time
  // ---------------------------------------------------------------------------------------

  /** `resolved` is the record of the hop's payment service: the largest state it was given for
      each channel.  `ledger` is the audit of every credit in this life of the section, and
      `reborn` tells that the section was lost at least once, by expiry, on request or by a
      restart of the hop. */
  datatype Hop = Hop(section: Section, resolved: map<nat, int>, ledger: map<nat, seq<Credit>>, reborn: bool) {
    function Recorded(key: nat): int {
      if key in resolved then resolved[key] else 0
    }

    function Credits(key: nat): seq<Credit> {
      if key in ledger then ledger[key] else []
    }

    function Last(key: nat): Option<int> {
      if key in resolved then Some(resolved[key]) else None
    }
  }

  function Pay(h: Hop, ins: PaymentInstruction, env: Env): (Hop, Outcome) {
    var (section, outcome) := Execute(h.section, ins, env);
    (Booked(h, section, outcome, ins), outcome)
  }

  function TotalDelta(credits: seq<Credit>): int {
    if credits == [] then 0 else TotalDelta(credits[..|credits| - 1]) + credits[|credits| - 1].delta
  }

  predicate ProperCredits(credits: seq<Credit>) {
    forall c | c in credits :: c.delta > 0 && c.price > 0
  }

  function TotalPackets(credits: seq<Credit>): int
    requires ProperCredits(credits)
  {
    if credits == [] then 0
    else
      assert credits[|credits| - 1] in credits;
      TotalPackets(credits[..|credits| - 1]) + credits[|credits| - 1].Packets()
  }

  /** Value of the packets credited, each at the price in force when it was credited. */
  function TotalValue(credits: seq<Credit>): int
    requires ProperCredits(credits)
  {
    if credits == [] then 0
    else
      assert credits[|credits| - 1] in credits;
      TotalValue(credits[..|credits| - 1]) + credits[|credits| - 1].Packets() * credits[|credits| - 1].price
  }

  /** Deadline of each channel: fixed when the channel is opened. */
  type Deadlines = nat -> int

  /** An entry is what was credited in this life, or more, and what the service holds, or less. */
  ghost predicate EntryInv(h: Hop, deadlineOf: Deadlines, key: nat, v: Channel) {
    && v.deadline == deadlineOf(key)
    && (v.latest.Some? ==> 0 < v.latest.value)
    && TotalDelta(h.Credits(key)) <= EntryAmount(v) <= h.Recorded(key)
    && (!h.reborn ==> v.latest == h.Last(key))
  }

  /** In a section that was never lost, entry, record and credits agree. */
  ghost predicate KeyInv(h: Hop, deadlineOf: Deadlines, now: int, key: nat) {
    && (key in h.section.payments ==> EntryInv(h, deadlineOf, key, h.section.payments[key]))
    && (key !in h.section.payments ==> h.Credits(key) == [] || deadlineOf(key) < now)
    && (!h.reborn && key in h.resolved && key !in h.section.payments ==> deadlineOf(key) < now)
    && (key in h.resolved ==> h.resolved[key] > 0)
    && ProperCredits(h.Credits(key))
    && TotalDelta(h.Credits(key)) <= h.Recorded(key)
    && (!h.reborn ==> TotalDelta(h.Credits(key)) == h.Recorded(key))
  }

  ghost predicate HopInv(h: Hop, deadlineOf: Deadlines, now: int) {
    forall key: nat :: KeyInv(h, deadlineOf, now, key)
  }

  /** The payment service answers with the channel's own deadline and the state it was last given. */
  ghost predicate HonestService(h: Hop, deadlineOf: Deadlines, now: int, key: nat, env: Env) {
    && env.now == now
    && (env.meta.Some? ==> env.meta.value.last == h.Last(key))
    && (env.meta.Some? && env.meta.value.incoming.Some? ==>
          env.meta.value.incoming.value.safeDeadline == deadlineOf(key))
  }

  lemma AppendTotals(credits: seq<Credit>, c: Credit)
    ensures TotalDelta(credits + [c]) == TotalDelta(credits) + c.delta
  {
    assert (credits + [c])[..|credits|] == credits;
  }

  lemma BaselineIsRecorded(h: Hop, deadlineOf: Deadlines, now: int, ins: PaymentInstruction, env: Env)
    requires KeyInv(h, deadlineOf, now, ins.key) && HonestService(h, deadlineOf, now, ins.key, env)
    requires ins.key in h.section.payments || LoadedChannel(ins, env).Some?
    ensures Baseline(h.section, ins, env) <= h.Recorded(ins.key)
    ensures !h.reborn ==> Baseline(h.section, ins, env) == h.Recorded(ins.key)
  {
  }

  /** The section is lost: closed, or gone with a restart of the hop.  Entries, routes and credits
      go, the payment service keeps its record. */
  function Reborn(h: Hop, routes: map<nat, PaidRoute>, out: Option<PaidPort>): Hop {
    Hop(Section(map[], routes, out), h.resolved, map[], true)
  }

  /** The service keeps the larger of the states it was given. */
  function Resolved(h: Hop, ins: PaymentInstruction): Hop {
    h.(resolved := h.resolved[ins.key := if h.Recorded(ins.key) < ins.amount then ins.amount else h.Recorded(ins.key)])
  }

  /** The hop after an execution that left `section` and reported `outcome`.  The division by zero
      comes after the state was given to the service, and ends the process. */
  function Booked(h: Hop, section: Section, outcome: Outcome, ins: PaymentInstruction): Hop {
    match outcome
    case Accepted(credit) =>
      Resolved(h, ins).(section := section, ledger := h.ledger[ins.key := h.Credits(ins.key) + [credit]])
    case Panicked => Reborn(Resolved(h, ins), map[], None)
    case _ => h.(section := section)
  }

  /** What this life of the section counts new states of a channel from. */
  function Counted(h: Hop, key: nat): int {
    if key in h.section.payments then EntryAmount(h.section.payments[key]) else 0
  }

  ghost predicate BooksKept(h: Hop, h': Hop, outcome: Outcome, deadlineOf: Deadlines, now: int, ins: PaymentInstruction) {
    && HopInv(h', deadlineOf, now) && h'.reborn == (h.reborn || outcome.Panicked?)
    && (outcome.Accepted? || outcome.Panicked? ==> h'.resolved == Resolved(h, ins).resolved)
    && (outcome.Refused? || outcome.AlreadyProcessed? ==> h'.resolved == h.resolved && h'.ledger == h.ledger)
    && (outcome.Ok() ==> h'.Recorded(ins.key) >= ins.amount)
    && (outcome.Accepted? ==>
          && h'.Credits(ins.key) == h.Credits(ins.key) + [outcome.credit]
          && Counted(h', ins.key) == ins.amount && outcome.credit.delta == ins.amount - Counted(h, ins.key) > 0)
    && (!outcome.Accepted? ==> Counted(h', ins.key) in {0, Counted(h, ins.key), h.Recorded(ins.key)})
    && (outcome.Accepted? && !h.reborn ==> outcome.credit.delta == ins.amount - h.Recorded(ins.key))
    && (!h.reborn && ins.amount <= h.Recorded(ins.key) && !outcome.Panicked? ==> h'.resolved == h.resolved && h'.ledger == h.ledger)
    && (forall key: nat | key != ins.key || outcome.Panicked? ::
          && (h'.Credits(key) == h.Credits(key) || h'.Credits(key) == [])
          && Counted(h', key) in {0, Counted(h, key)})
  }

  lemma OtherKeysKept(h: Hop, section: Section, outcome: Outcome, deadlineOf: Deadlines, now: int,
                      ins: PaymentInstruction, env: Env, key: nat)
    requires KeyInv(h, deadlineOf, now, key) && key != ins.key
    requires Shape(h.section, section, outcome, ins, env)
    ensures KeyInv(Booked(h, section, outcome, ins), deadlineOf, now, key)
  {
  }

  lemma AcceptedKeyKept(h: Hop, section: Section, outcome: Outcome, deadlineOf: Deadlines, now: int,
                        ins: PaymentInstruction, env: Env)
    requires KeyInv(h, deadlineOf, now, ins.key) && HonestService(h, deadlineOf, now, ins.key, env)
    requires Shape(h.section, section, outcome, ins, env) && outcome.Accepted?
    ensures KeyInv(Booked(h, section, outcome, ins), deadlineOf, now, ins.key)
    ensures outcome.credit.delta == ins.amount - Counted(h, ins.key)
    ensures !h.reborn ==> h.Recorded(ins.key) < ins.amount && outcome.credit.delta == ins.amount - h.Recorded(ins.key)
  {
    BaselineIsRecorded(h, deadlineOf, now, ins, env);
    AppendTotals(h.Credits(ins.key), outcome.credit);
  }

  lemma RefusedKeyKept(h: Hop, section: Section, outcome: Outcome, deadlineOf: Deadlines, now: int,
                       ins: PaymentInstruction, env: Env)
    requires KeyInv(h, deadlineOf, now, ins.key) && HonestService(h, deadlineOf, now, ins.key, env)
    requires Shape(h.section, section, outcome, ins, env) && !outcome.Accepted? && !outcome.Panicked?
    ensures KeyInv(Booked(h, section, outcome, ins), deadlineOf, now, ins.key)
    ensures outcome.AlreadyProcessed? ==> ins.amount <= h.Recorded(ins.key)
  {
    if ins.key in h.section.payments || LoadedChannel(ins, env).Some? {
      BaselineIsRecorded(h, deadlineOf, now, ins, env);
    }
  }

  lemma ShapeKeepsBooks(h: Hop, section: Section, outcome: Outcome, deadlineOf: Deadlines, now: int,
                        ins: PaymentInstruction, env: Env)
    requires HopInv(h, deadlineOf, now) && HonestService(h, deadlineOf, now, ins.key, env)
    requires Shape(h.section, section, outcome, ins, env)
    ensures BooksKept(h, Booked(h, section, outcome, ins), outcome, deadlineOf, now, ins)
  {
    assert KeyInv(h, deadlineOf, now, ins.key);
    if outcome.Accepted? {
      AcceptedKeyKept(h, section, outcome, deadlineOf, now, ins, env);
    } else if !outcome.Panicked? {
      RefusedKeyKept(h, section, outcome, deadlineOf, now, ins, env);
    }
    forall key: nat
      ensures KeyInv(Booked(h, section, outcome, ins), deadlineOf, now, key)
    {
      assert KeyInv(h, deadlineOf, now, key);
      if key != ins.key {
        OtherKeysKept(h, section, outcome, deadlineOf, now, ins, env, key);
      }
    }
  }

  /** One execution on a hop: the books stay in order, recorded amounts never fall, and success
      means the hop now holds at least the instruction's amount.  If its section was never lost,
      an older or redelivered state changes no amount and no credit, and a newer one is credited
      exactly the difference. */
  lemma PayKeepsBooks(h: Hop, deadlineOf: Deadlines, now: int, ins: PaymentInstruction, env: Env)
    requires HopInv(h, deadlineOf, now) && HonestService(h, deadlineOf, now, ins.key, env)
    ensures BooksKept(h, Pay(h, ins, env).0, Pay(h, ins, env).1, deadlineOf, now, ins)
  {
    ExecuteHasShape(h.section, ins, env);
    var (section, outcome) := Execute(h.section, ins, env);
    ShapeKeepsBooks(h, section, outcome, deadlineOf, now, ins, env);
  }

  // ---------------------------------------------------------------------------------------
  // What was credited, against what was paid
  // ---------------------------------------------------------------------------------------

  /** The packets credited are never worth more than the channel paid. */
  lemma {:induction false} CreditedValueIsPaid(credits: seq<Credit>)
    requires ProperCredits(credits)
    ensures 0 <= TotalValue(credits) <= TotalDelta(credits)
  {
    if credits != [] {
      var c := credits[|credits| - 1];
      assert c in credits;
      CreditedValueIsPaid(credits[..|credits| - 1]);
      WholePackets(c.delta, c.price);
    }
  }

  lemma WholePackets(delta: int, price: nat)
    requires delta > 0 && price > 0
    ensures 0 <= delta / price * price <= delta
  {
  }

  predicate AtConstantPrice(credits: seq<Credit>, price: nat)
    requires price > 0
  {
    forall c | c in credits :: c.price == price && c.delta % price == 0
  }

  /** At one price, with every state a whole number of packets, nothing is lost to rounding. */
  lemma {:induction false} CreditedExactly(credits: seq<Credit>, price: nat)
    requires price > 0 && ProperCredits(credits) && AtConstantPrice(credits, price)
    ensures TotalPackets(credits) * price == TotalDelta(credits)
    ensures TotalPackets(credits) == TotalDelta(credits) / price
  {
    if credits != [] {
      var last := |credits| - 1;
      var c := credits[last];
      assert c in credits;
      CreditedExactly(credits[..last], price);
      assert c.Packets() * price == c.delta;
      assert TotalPackets(credits) * price == TotalPackets(credits[..last]) * price + c.Packets() * price;
    }
    DivExact(TotalPackets(credits), price);
  }

  /** What the hop holds on the first n channels. */
  function HeldTotal(h: Hop, n: nat): int {
    if n == 0 then 0 else HeldTotal(h, n - 1) + h.Recorded(n - 1)
  }
}
