/** One counter of a hop from both sides: the payments that fill it and the packets that draw on it,
    in one step system over one life of the section. */
module CounterAccount {
  import opened Options
  import opened Arith
  import opened HopLedger
  import opened PaymentRules
  import PrepaidGate

  /** A route's counter, and the two of an out port: for packets that leave through it, and for
      packets its listener passes back. */
  datatype Counter = RouteCounter(routeId: nat) | SendCounter | ListenCounter {
    predicate In(s: Section) {
      if RouteCounter? then routeId in s.routes else s.out.Some?
    }

    function Of(s: Section): int
      requires In(s)
    {
      match this
      case RouteCounter(id) => s.routes[id].prepaid
      case SendCounter => s.out.value.prepaidOut
      case ListenCounter => s.out.value.prepaidIn
    }

    function Set(s: Section, prepaid: int): Section
      requires In(s)
    {
      match this
      case RouteCounter(id) => s.(routes := s.routes[id := s.routes[id].(prepaid := prepaid)])
      case SendCounter => s.(out := Some(s.out.value.(prepaidOut := prepaid)))
      case ListenCounter => s.(out := Some(s.out.value.(prepaidIn := prepaid)))
    }

    /** The price a packet of it has now. */
    function Price(s: Section): nat
      requires In(s)
    {
      if RouteCounter? then s.routes[routeId].price else s.out.value.price
    }

    /** The purposes of the payments that fill it; those for the out port fill both of its. */
    predicate FilledBy(purpose: nat) {
      if RouteCounter? then purpose == PURPOSE_ROUTE * TWO_32 + routeId else purpose / TWO_32 == PURPOSE_OUT
    }
  }

  /** A credit to this counter, and the channel that paid it. */
  datatype Entry = Entry(key: nat, credit: Credit)

  /** `gate` is the view of the workers that draw on the counter; the entries are the audit. */
  datatype Account = Account(hop: Hop, gate: PrepaidGate.State, entries: seq<Entry>, now: int)

  /** `Reconfigure` is everything else that happens to the section's routes and out port: prices
      set, routes built, other counters moved. */
  datatype Step =
    | Work(step: PrepaidGate.Step)
    | Receive(ins: PaymentInstruction, env: Env)
    | Reconfigure(section: Section)
    | CloseChannel(key: nat)
    | ExpireChannel(key: nat)
    | Tick(now: int)

  /** The counter, the workers that draw on it and the deadlines of all channels. */
  datatype Setting = Setting(counter: Counter, workers: set<PrepaidGate.Worker>, deadlineOf: Deadlines) {
    function Gate(): PrepaidGate.Config {
      match counter
      case RouteCounter(_) => PrepaidGate.Config(workers, PrepaidGate.LOSS_ACCEPTABLE_STARTUP, true)
      case SendCounter => PrepaidGate.Config(workers, 0, false)
      case ListenCounter => PrepaidGate.Config(workers, PrepaidGate.LOSS_ACCEPTABLE_STARTUP, false)
    }

    predicate Proper() {
      (counter.RouteCounter? ==> counter.routeId < TWO_32) && Gate().Proper()
    }

    /** What may be sent beyond what was credited. */
    function Overdraft(): int {
      Gate().allowance + if Gate().recheck then 0 else |workers| - 1
    }
  }

  ghost predicate Enabled(c: Setting, a: Account, step: Step) {
    && c.counter.In(a.hop.section)
    && match step
       case Work(w) => !w.Credit? && PrepaidGate.Enabled(c.Gate(), a.gate, w)
       case Receive(ins, env) =>
         HonestService(a.hop, c.deadlineOf, a.now, ins.key, env) && !Pay(a.hop, ins, env).1.Panicked?
       case Reconfigure(section) =>
         section.payments == a.hop.section.payments && c.counter.In(section) && c.counter.Of(section) == c.counter.Of(a.hop.section)
       case CloseChannel(key) => key in a.hop.section.payments
       case ExpireChannel(key) =>
         key in a.hop.section.payments && !a.hop.section.payments[key].active && a.hop.section.payments[key].deadline < a.now
       case Tick(now) => a.now <= now
  }

  ghost function Next(c: Setting, a: Account, step: Step): Account
    requires Enabled(c, a, step)
  {
    var h := a.hop;
    match step
    case Work(w) =>
      var gate := PrepaidGate.Next(c.Gate(), a.gate, w);
      a.(gate := gate, hop := h.(section := c.counter.Set(h.section, gate.counter)))
    case Receive(ins, env) =>
      var (hop, outcome) := Pay(h, ins, env);
      var bought := Credit(ins.amount - Counted(h, ins.key), c.counter.Price(h.section));
      if outcome.Accepted? && c.counter.FilledBy(ins.purpose) && bought.price > 0 && bought.Packets() >= 0 then
        a.(hop := hop,
           gate := PrepaidGate.Next(c.Gate(), a.gate, PrepaidGate.Credit(bought.Packets())),
           entries := a.entries + [Entry(ins.key, bought)])
      else a.(hop := hop)
    case Reconfigure(section) => a.(hop := h.(section := section))
    case CloseChannel(key) =>
      var v := h.section.payments[key];
      a.(hop := h.(section := h.section.(payments := h.section.payments[key := v.(active := false)])))
    case ExpireChannel(key) => a.(hop := h.(section := h.section.(payments := h.section.payments - {key})))
    case Tick(now) => a.(now := now)
  }

  // ---------------------------------------------------------------------------------------
  // The entries
  // ---------------------------------------------------------------------------------------

  function Credits(entries: seq<Entry>): (credits: seq<Credit>)
    ensures |credits| == |entries| && forall i | 0 <= i < |entries| :: credits[i] == entries[i].credit
  {
    seq(|entries|, i requires 0 <= i < |entries| => entries[i].credit)
  }

  /** What channel `key` paid for this counter. */
  function PaidBy(entries: seq<Entry>, key: nat): int {
    if entries == [] then 0
    else
      var last := entries[|entries| - 1];
      PaidBy(entries[..|entries| - 1], key) + if last.key == key then last.credit.delta else 0
  }

  function PaidByFirst(entries: seq<Entry>, n: nat): int {
    if n == 0 then 0 else PaidByFirst(entries, n - 1) + PaidBy(entries, n - 1)
  }

  lemma {:induction false} OneMoreEntry(entries: seq<Entry>, e: Entry, n: nat)
    ensures PaidByFirst(entries + [e], n) == PaidByFirst(entries, n) + if e.key < n then e.credit.delta else 0
  {
    assert (entries + [e])[..|entries|] == entries;
    if n > 0 {
      OneMoreEntry(entries, e, n - 1);
    }
  }

  lemma {:induction false} NothingPaid(n: nat)
    ensures PaidByFirst([], n) == 0
  {
    if n > 0 {
      NothingPaid(n - 1);
    }
  }

  /** Summed over channels or over time, it is the same. */
  lemma {:induction false} AllIsPaidBySome(entries: seq<Entry>, n: nat)
    requires forall e | e in entries :: e.key < n
    ensures TotalDelta(Credits(entries)) == PaidByFirst(entries, n)
  {
    if entries == [] {
      NothingPaid(n);
    } else {
      var past, e := entries[..|entries| - 1], entries[|entries| - 1];
      assert e in entries && forall x | x in past :: x in entries;
      AllIsPaidBySome(past, n);
      OneMoreEntry(past, e, n);
      assert entries == past + [e];
      assert Credits(entries)[..|past|] == Credits(past);
    }
  }

  // ---------------------------------------------------------------------------------------
  // The invariant
  // ---------------------------------------------------------------------------------------

  /** The workers see the section's counter; what was credited to it is what the entries bought; and
      the entries of a channel are part of what it was credited for. */
  ghost predicate Inv(c: Setting, a: Account) {
    && HopInv(a.hop, c.deadlineOf, a.now)
    && c.counter.In(a.hop.section) && c.counter.Of(a.hop.section) == a.gate.counter
    && PrepaidGate.Inv(c.Gate(), a.gate)
    && ProperCredits(Credits(a.entries)) && a.gate.credited == TotalPackets(Credits(a.entries))
    && forall key: nat :: PaidBy(a.entries, key) <= TotalDelta(a.hop.Credits(key))
  }

  /** An accepted payment for a counter adds the new value over the price in force to it; nothing
      else an execution does touches it. */
  lemma PaymentFillsCounter(h: Hop, ins: PaymentInstruction, env: Env, counter: Counter)
    requires counter.In(h.section) && (counter.RouteCounter? ==> counter.routeId < TWO_32) && !Pay(h, ins, env).1.Panicked?
    ensures var (h', outcome) := Pay(h, ins, env);
            && counter.In(h'.section)
            && (outcome.Accepted? && counter.FilledBy(ins.purpose) ==>
                  && counter.Price(h.section) > 0 && ins.amount > Counted(h, ins.key)
                  && outcome.credit == Credit(ins.amount - Counted(h, ins.key), counter.Price(h.section))
                  && counter.Of(h'.section) ==
                       PrepaidGate.AddPrepaid(counter.Of(h.section), (ins.amount - Counted(h, ins.key)) / counter.Price(h.section)))
            && (!(outcome.Accepted? && counter.FilledBy(ins.purpose)) ==> counter.Of(h'.section) == counter.Of(h.section))
  {
    EntriesAfter(h.section, ins, env);
    if Pay(h, ins, env).1.Accepted? {
      CreditIsAtPrice(h.section, ins, env);
      VerdictExactly(h.section, ins, env);
      if ins.purpose / TWO_32 == 2 {
        OutPaymentBuys(h.section, ins, env);
      } else {
        RoutePaymentBuys(h.section, ins, env, ins.purpose % TWO_32);
      }
    }
  }

  lemma PaymentKeepsEntries(h: Hop, h': Hop, entries: seq<Entry>, e: Entry)
    requires forall key: nat :: PaidBy(entries, key) <= TotalDelta(h.Credits(key))
    requires forall key: nat :: h'.Credits(key) == if key == e.key then h.Credits(key) + [e.credit] else h.Credits(key)
    requires e.credit.delta > 0
    ensures forall key: nat :: PaidBy(entries + [e], key) <= TotalDelta(h'.Credits(key)) && PaidBy(entries, key) <= TotalDelta(h'.Credits(key))
  {
    assert (entries + [e])[..|entries|] == entries;
    AppendTotals(h.Credits(e.key), e.credit);
  }

  lemma EntriesAppend(entries: seq<Entry>, e: Entry)
    requires ProperCredits(Credits(entries)) && e.credit.delta > 0 && e.credit.price > 0
    ensures ProperCredits(Credits(entries + [e]))
    ensures TotalPackets(Credits(entries + [e])) == TotalPackets(Credits(entries)) + e.credit.Packets()
  {
    var credits := Credits(entries + [e]);
    assert credits == Credits(entries) + [e.credit];
    assert credits[..|entries|] == Credits(entries);
  }

  lemma ReceiveKeepsInv(c: Setting, a: Account, step: Step)
    requires c.Proper() && Inv(c, a) && step.Receive? && Enabled(c, a, step)
    ensures Inv(c, Next(c, a, step))
  {
    var ins, env := step.ins, step.env;
    var (h', outcome) := Pay(a.hop, ins, env);
    PaymentFillsCounter(a.hop, ins, env, c.counter);
    PayKeepsBooks(a.hop, c.deadlineOf, a.now, ins, env);
    ExecuteHasShape(a.hop.section, ins, env);
    if outcome.Accepted? {
      var e := Entry(ins.key, outcome.credit);
      DivMonotone(0, e.credit.delta, e.credit.price);
      PaymentKeepsEntries(a.hop, h', a.entries, e);
      EntriesAppend(a.entries, e);
      PrepaidGate.StepKeepsInv(c.Gate(), a.gate, PrepaidGate.Credit(outcome.credit.Packets()));
    }
  }

  lemma WorkKeepsInv(c: Setting, a: Account, step: Step)
    requires c.Proper() && Inv(c, a) && step.Work? && Enabled(c, a, step)
    ensures Inv(c, Next(c, a, step))
  {
    PrepaidGate.StepKeepsInv(c.Gate(), a.gate, step.step);
    var h' := Next(c, a, step).hop;
    assert forall key: nat :: KeyInv(a.hop, c.deadlineOf, a.now, key) ==> KeyInv(h', c.deadlineOf, a.now, key);
  }

  lemma StepKeepsInv(c: Setting, a: Account, step: Step)
    requires c.Proper() && Inv(c, a) && Enabled(c, a, step)
    ensures Inv(c, Next(c, a, step))
  {
    match step
    case Work(_) => WorkKeepsInv(c, a, step);
    case Receive(_, _) => ReceiveKeepsInv(c, a, step);
    case _ => UpkeepKeepsInv(c, a, Next(c, a, step));
  }

  /** Steps that touch neither the counter nor any amount. */
  lemma UpkeepKeepsInv(c: Setting, a: Account, a': Account)
    requires Inv(c, a) && a'.gate == a.gate && a'.entries == a.entries && a'.hop.ledger == a.hop.ledger
    requires c.counter.In(a'.hop.section) && c.counter.Of(a'.hop.section) == c.counter.Of(a.hop.section)
    requires forall key: nat :: KeyInv(a.hop, c.deadlineOf, a.now, key) ==> KeyInv(a'.hop, c.deadlineOf, a'.now, key)
    ensures Inv(c, a')
  {
  }

  // ---------------------------------------------------------------------------------------
  // Every run
  // ---------------------------------------------------------------------------------------

  /** A new route or out port in a section without channels; the service may hold states from earlier lives. */
  ghost predicate Init(c: Setting, a: Account) {
    && HopInv(a.hop, c.deadlineOf, a.now) && a.hop.section.payments == map[] && a.hop.ledger == map[]
    && c.counter.In(a.hop.section) && c.counter.Of(a.hop.section) == 0
    && a.gate == PrepaidGate.START && a.entries == []
  }

  ghost predicate Follows(c: Setting, a: Account, a': Account) {
    exists step :: Enabled(c, a, step) && a' == Next(c, a, step)
  }

  ghost predicate Run(c: Setting, trace: seq<Account>) {
    && |trace| > 0 && Init(c, trace[0])
    && forall i: nat | i + 1 < |trace| :: Follows(c, trace[i], trace[i + 1])
  }

  lemma {:induction false} RunInv(c: Setting, trace: seq<Account>, i: nat)
    requires c.Proper() && Run(c, trace) && i < |trace|
    ensures Inv(c, trace[i])
  {
    if i > 0 {
      RunInv(c, trace, i - 1);
      assert Follows(c, trace[i - 1], trace[i - 1 + 1]);
      var step :| Enabled(c, trace[i - 1], step) && trace[i] == Next(c, trace[i - 1], step);
      StepKeepsInv(c, trace[i - 1], step);
    }
  }

  lemma {:induction false} PaidIsRecorded(c: Setting, a: Account, n: nat)
    requires Inv(c, a)
    ensures PaidByFirst(a.entries, n) <= HeldTotal(a.hop, n)
  {
    if n > 0 {
      PaidIsRecorded(c, a, n - 1);
      assert KeyInv(a.hop, c.deadlineOf, a.now, n - 1);
    }
  }

  lemma CreditedIsHeld(c: Setting, a: Account, n: nat)
    requires Inv(c, a) && forall e | e in a.entries :: e.key < n
    ensures TotalValue(Credits(a.entries)) <= HeldTotal(a.hop, n)
  {
    CreditedValueIsPaid(Credits(a.entries));
    AllIsPaidBySome(a.entries, n);
    PaidIsRecorded(c, a, n);
  }

  /** End to end, in every interleaving of payments, packets and new prices: a counter lets through
      as paid at most the packets its entries bought, beyond the overdraft, and those, each at the
      price when it was bought, are worth at most the amounts the hop holds on the channels that
      paid. */
  lemma SentIsPaidFor(c: Setting, trace: seq<Account>, i: nat, n: nat)
    requires c.Proper() && Run(c, trace) && i < |trace| && forall e | e in trace[i].entries :: e.key < n
    ensures ProperCredits(Credits(trace[i].entries))
    ensures trace[i].gate.sent <= TotalPackets(Credits(trace[i].entries)) + c.Overdraft()
    ensures TotalValue(Credits(trace[i].entries)) <= HeldTotal(trace[i].hop, n)
  {
    RunInv(c, trace, i);
    CreditedIsHeld(c, trace[i], n);
  }

  /** For a route that is 20000 packets, for the eight workers that listen on an out port 20007, and
      for n senders through it n - 1. */
  lemma OverdraftOf(c: Setting)
    ensures c.counter.RouteCounter? ==> c.Overdraft() == 20000
    ensures c.counter.ListenCounter? && |c.workers| == PrepaidGate.LISTENER_THREADS ==> c.Overdraft() == 20007
    ensures c.counter.SendCounter? ==> c.Overdraft() == |c.workers| - 1
  {
  }

  lemma {:induction false} PacketsAtPrice(credits: seq<Credit>, price: nat)
    requires ProperCredits(credits) && forall e | e in credits :: e.price == price
    ensures TotalPackets(credits) * price == TotalValue(credits)
  {
    if credits != [] {
      var past, last := credits[..|credits| - 1], credits[|credits| - 1];
      assert last in credits && forall e | e in past :: e in credits;
      PacketsAtPrice(past, price);
      assert (TotalPackets(past) + last.Packets()) * price == TotalPackets(past) * price + last.Packets() * price;
    }
  }

  lemma WorthAtMost(sent: nat, bought: int, overdraft: int, price: nat)
    requires sent <= bought + overdraft
    ensures sent * price <= bought * price + overdraft * price
  {
    var room := bought + overdraft - sent;
    assert (sent + room) * price == sent * price + room * price;
    assert (bought + overdraft) * price == bought * price + overdraft * price;
    assert room * price >= 0;
  }

  /** An entry carries the price its counter had when it was paid. */
  lemma {:induction false} EntriesAtPrice(c: Setting, trace: seq<Account>, i: nat, price: nat)
    requires Run(c, trace) && i < |trace|
    requires forall j: nat | j < i && c.counter.In(trace[j].hop.section) :: c.counter.Price(trace[j].hop.section) in {0, price}
    ensures forall e | e in trace[i].entries :: e.credit.price == price
  {
    if i > 0 {
      EntriesAtPrice(c, trace, i - 1, price);
      assert Follows(c, trace[i - 1], trace[i - 1 + 1]);
      var step :| Enabled(c, trace[i - 1], step) && trace[i] == Next(c, trace[i - 1], step);
    }
  }

  /** At one price, as far back as the run goes: what was let through as paid is worth at most what
      the hop holds, plus the overdraft. */
  lemma SentAtOnePrice(c: Setting, trace: seq<Account>, i: nat, price: nat, n: nat)
    requires c.Proper() && Run(c, trace) && i < |trace|
    requires forall e | e in trace[i].entries :: e.key < n
    requires forall j: nat | j < i && c.counter.In(trace[j].hop.section) :: c.counter.Price(trace[j].hop.section) in {0, price}
    ensures trace[i].gate.sent * price <= HeldTotal(trace[i].hop, n) + c.Overdraft() * price
  {
    var credits := Credits(trace[i].entries);
    SentIsPaidFor(c, trace, i, n);
    EntriesAtPrice(c, trace, i, price);
    forall e | e in credits
      ensures e.price == price
    {
      var j :| 0 <= j < |credits| && credits[j] == e;
      assert trace[i].entries[j] in trace[i].entries;
    }
    PacketsAtPrice(credits, price);
    WorthAtMost(trace[i].gate.sent, TotalPackets(credits), c.Overdraft(), price);
  }
}
