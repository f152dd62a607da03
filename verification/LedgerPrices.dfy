/** The prices in the ledger, over whole runs: what a payer's messages ask of a hop, and what the hop
    charges for it. */
module LedgerPrices {
  import opened HopLedger
  import opened PaymentRules
  import opened ControlMessage
  import opened ControlBuild
  import opened PaymentDecisions
  import opened Settlement

  // ---------------------------------------------------------------------------------------
  // Every payment names what its hop does
  // ---------------------------------------------------------------------------------------

  predicate AllFor(pays: seq<PaymentInstruction>, purpose: nat) {
    forall ins | ins in pays :: ins.purpose == purpose
  }

  predicate LatestFor(p: Payer, purpose: nat) {
    p.latest.Some? ==> p.latest.value.purpose == purpose
  }

  lemma PlanIsFor(p: Payer, d: Demand, env: NodeEnv, seqno: nat)
    requires WellPointed(p) && LatestFor(p, d.purpose)
    ensures var plan := PlanHop(p, d, env);
            AllFor(plan.pays, d.purpose) && LatestFor(plan.payer, d.purpose) && LatestFor(Committed(plan, seqno), d.purpose)
  {
  }

  /** All messages for hop i, and its payer's latest payment, are for what hop i does. */
  ghost predicate NamesHop(s: System, i: nat) {
    && i < |s.client.nodes| && Shaped(s.client)
    && (s.client.nodes[i].Some? ==> LatestFor(s.client.nodes[i].value, PurposeAt(s.client, i)))
    && forall p | p in s.net :: i < |p.msg.pays| && AllFor(p.msg.pays[i], PurposeAt(s.client, i))
  }

  predicate SameTunnel(c: Client, c': Client) {
    c'.chainTo == c.chainTo && c'.routeIds == c.routeIds && |c'.nodes| == |c.nodes|
  }

  lemma StepKeepsTunnel(deadlines: seq<Deadlines>, s: System, step: Step)
    requires Enabled(deadlines, s, step)
    ensures SameTunnel(s.client, Next(deadlines, s, step).client)
  {
  }

  lemma BuildNamesHop(deadlines: seq<Deadlines>, s: System, r: Request, i: nat)
    requires Enabled(deadlines, s, BuildControl(r)) && NamesHop(s, i)
    ensures NamesHop(Next(deadlines, s, BuildControl(r)), i)
  {
    BuildAt(s.client, r, i);
    DemandIs(s.client, r, i);
    if s.client.nodes[i].Some? {
      assert WellPointed(s.client.nodes[i].value);
      PlanIsFor(s.client.nodes[i].value, DemandAt(s.client, r, i), r.envs[i], s.client.controlSeqno + 1);
    }
  }

  lemma StepNamesHop(deadlines: seq<Deadlines>, s: System, step: Step, i: nat)
    requires Enabled(deadlines, s, step) && NamesHop(s, i)
    ensures NamesHop(Next(deadlines, s, step), i)
  {
    if step.BuildControl? {
      BuildNamesHop(deadlines, s, step.r, i);
    }
  }

  /** In every run, every payment ever sent to hop i is for its out port at the gate, and for the
      route to the next hop elsewhere. */
  lemma {:induction false} PaymentsNameTheirHop(deadlines: seq<Deadlines>, trace: seq<System>, k: nat, i: nat)
    requires Run(deadlines, trace) && k < |trace| && i < |trace[0].client.nodes|
    ensures SameTunnel(trace[0].client, trace[k].client) && NamesHop(trace[k], i)
  {
    if k > 0 {
      PaymentsNameTheirHop(deadlines, trace, k - 1, i);
      assert Follows(deadlines, trace[k - 1], trace[k - 1 + 1]);
      var step :| Enabled(deadlines, trace[k - 1], step) && trace[k] == Next(deadlines, trace[k - 1], step);
      StepKeepsTunnel(deadlines, trace[k - 1], step);
      StepNamesHop(deadlines, trace[k - 1], step, i);
    } else if trace[0].client.nodes[i].Some? {
      assert FreshPayer(trace[0].client.nodes[i].value);
    }
  }

  // ---------------------------------------------------------------------------------------
  // Every credit carries the price of its time
  // ---------------------------------------------------------------------------------------

  /** What h' credited, h did, or it is new and at this price. */
  ghost predicate CreditsAt(h: Hop, h': Hop, price: nat) {
    forall key: nat, e | e in h'.Credits(key) :: e in h.Credits(key) || e.price == price
  }

  lemma PayCreditsAt(h: Hop, ins: PaymentInstruction, env: Env)
    ensures CreditsAt(h, Pay(h, ins, env).0, PriceFor(h.section, ins.purpose))
  {
    if Pay(h, ins, env).1.Accepted? {
      CreditIsAtPrice(h.section, ins, env);
    }
  }

  lemma {:induction false} PayAllCreditsAt(h: Hop, pays: seq<PaymentInstruction>, envs: seq<Env>, purpose: nat)
    requires |pays| == |envs| && AllFor(pays, purpose)
    ensures CreditsAt(h, PayAll(h, pays, envs).0, PriceFor(h.section, purpose))
    decreases |pays|
  {
    if pays != [] {
      var (h1, outcome) := Pay(h, pays[0], envs[0]);
      assert pays[0] in pays;
      PayCreditsAt(h, pays[0], envs[0]);
      if outcome.Ok() {
        assert forall ins | ins in pays[1..] :: ins in pays;
        PricesStay(h.section, pays[0], envs[0], purpose);
        PayAllCreditsAt(h1, pays[1..], envs[1..], purpose);
      }
    }
  }

  lemma StepCreditsAt(deadlines: seq<Deadlines>, s: System, step: Step, i: nat)
    requires Enabled(deadlines, s, step) && NamesHop(s, i)
    ensures CreditsAt(s.hops[i], Next(deadlines, s, step).hops[i], PriceFor(s.hops[i].section, PurposeAt(s.client, i)))
  {
    if step.Deliver? && step.p.at == i {
      PayAllCreditsAt(s.hops[i], step.p.msg.pays[i], step.envs, PurposeAt(s.client, i));
    }
  }

  lemma FollowsCreditsAt(deadlines: seq<Deadlines>, s: System, s': System, i: nat)
    requires Follows(deadlines, s, s') && NamesHop(s, i)
    ensures i < |s.hops| == |s'.hops|
    ensures CreditsAt(s.hops[i], s'.hops[i], PriceFor(s.hops[i].section, PurposeAt(s.client, i)))
  {
    var step :| Enabled(deadlines, s, step) && s' == Next(deadlines, s, step);
    StepCreditsAt(deadlines, s, step, i);
  }

  /** What hop i charges: the price of its out port at the gate, of the route to the next hop elsewhere. */
  function Charged(s: System, i: nat): nat
    requires i < |s.hops| && i < |s.client.routeIds|
  {
    PriceFor(s.hops[i].section, PurposeAt(s.client, i))
  }

  ghost predicate ChargedBefore(trace: seq<System>, k: nat, i: nat, price: nat)
    requires k < |trace|
  {
    exists j: nat :: j < k && i < |trace[j].hops| && i < |trace[j].client.routeIds| && Charged(trace[j], i) == price
  }

  ghost predicate CreditsWereCharged(trace: seq<System>, k: nat, i: nat)
    requires k < |trace|
  {
    i < |trace[k].hops| && forall key: nat, e | e in trace[k].hops[i].Credits(key) :: ChargedBefore(trace, k, i, e.price)
  }

  lemma ChargedStays(trace: seq<System>, k: nat, i: nat, price: nat)
    requires k + 1 < |trace| && ChargedBefore(trace, k, i, price)
    ensures ChargedBefore(trace, k + 1, i, price)
  {
  }

  lemma MoreWereCharged(deadlines: seq<Deadlines>, trace: seq<System>, k: nat, i: nat)
    requires k + 1 < |trace| && Follows(deadlines, trace[k], trace[k + 1]) && NamesHop(trace[k], i) && CreditsWereCharged(trace, k, i)
    ensures CreditsWereCharged(trace, k + 1, i)
  {
    FollowsCreditsAt(deadlines, trace[k], trace[k + 1], i);
    var h, h' := trace[k].hops[i], trace[k + 1].hops[i];
    forall key: nat, e | e in h'.Credits(key)
      ensures ChargedBefore(trace, k + 1, i, e.price)
    {
      if e in h.Credits(key) {
        ChargedStays(trace, k, i, e.price);
      } else {
        assert Charged(trace[k], i) == e.price;
      }
    }
  }

  /** In every run, every credit a hop holds in its ledger is at the price its out port or its route
      to the next hop had at some earlier moment of the run. */
  lemma {:induction false} CreditsCarryPrices(deadlines: seq<Deadlines>, trace: seq<System>, k: nat, i: nat)
    requires Run(deadlines, trace) && k < |trace| && i < |trace[0].client.nodes|
    ensures CreditsWereCharged(trace, k, i)
  {
    if k == 0 {
      assert FreshHop(trace[0].hops[i]);
    } else {
      var j := k - 1;
      CreditsCarryPrices(deadlines, trace, j, i);
      PaymentsNameTheirHop(deadlines, trace, j, i);
      assert Follows(deadlines, trace[j], trace[j + 1]);
      MoreWereCharged(deadlines, trace, j, i);
    }
  }

  /** Hop i charged this price, or had none yet, at every earlier moment. */
  ghost predicate OnePrice(trace: seq<System>, k: nat, i: nat, price: nat)
    requires k < |trace|
  {
    forall j: nat | j < k && i < |trace[j].hops| && i < |trace[j].client.routeIds| :: Charged(trace[j], i) in {0, price}
  }

  /** The ledger at one price: for every channel, the packets the hop credited in this life of its
      section are at most what it holds over the price, and exactly that if the section was never
      lost. */
  lemma LedgerAtOnePrice(deadlines: seq<Deadlines>, trace: seq<System>, k: nat, i: nat, key: nat)
    requires Run(deadlines, trace) && k < |trace| && i < |trace[k].client.nodes| && trace[k].client.nodes[i].Some?
    requires key < |trace[k].client.nodes[i].value.book| && trace[k].client.nodes[i].value.price > 0
    requires OnePrice(trace, k, i, trace[k].client.nodes[i].value.price)
    ensures |trace[k].hops| == |trace[k].client.nodes|
    ensures var h, price := trace[k].hops[i], trace[k].client.nodes[i].value.price;
            && ProperCredits(h.Credits(key))
            && TotalPackets(h.Credits(key)) <= h.Recorded(key) / price
            && (!h.reborn ==> TotalPackets(h.Credits(key)) == h.Recorded(key) / price)
  {
    TwoPartyLedger(deadlines, trace, k, i, key);
    var h, price := trace[k].hops[i], trace[k].client.nodes[i].value.price;
    TunnelStays(deadlines, trace, k);
    CreditsCarryPrices(deadlines, trace, k, i);
    forall e | e in h.Credits(key)
      ensures e.price == price
    {
      assert ChargedBefore(trace, k, i, e.price);
    }
  }

  lemma {:induction false} TunnelStays(deadlines: seq<Deadlines>, trace: seq<System>, k: nat)
    requires Run(deadlines, trace) && k < |trace|
    ensures SameTunnel(trace[0].client, trace[k].client)
  {
    if k > 0 {
      TunnelStays(deadlines, trace, k - 1);
      assert Follows(deadlines, trace[k - 1], trace[k - 1 + 1]);
      var step :| Enabled(deadlines, trace[k - 1], step) && trace[k] == Next(deadlines, trace[k - 1], step);
      StepKeepsTunnel(deadlines, trace[k - 1], step);
    }
  }
}
