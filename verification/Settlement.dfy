/** Both ends of the payment protocol as one step system.  The client builds control messages
    that travel the circle of hops; the network may lose, duplicate and reorder them; every hop
    executes its payments and passes the message on only if all succeeded. */
module Settlement {
  import opened Options
  import opened Arith
  import opened HopLedger
  import opened ControlMessage
  import opened ControlBuild
  import PaymentDecisions

  /** A message that has passed `at` hops; at the number of hops it is back at the client. */
  datatype Packet = Packet(at: nat, msg: Control)

  /** `net` holds every copy ever in flight: a delivered packet stays deliverable (duplication),
      any packet may be delivered next (reordering) or never (loss). */
  datatype System = System(client: Client, hops: seq<Hop>, net: set<Packet>, now: int)

  datatype Step =
    | BuildControl(r: Request)
    | Deliver(p: Packet, envs: seq<Env>)
    | Acknowledge(p: Packet)
    | Traffic(consumedOut: int, consumedIn: int)
    | Reconfigure(hop: nat, routes: map<nat, PaidRoute>, out: Option<PaidPort>)
    | CloseChannel(hop: nat, key: nat)
    | ExpireChannel(hop: nat, key: nat)
    | LoseSection(hop: nat, routes: map<nat, PaidRoute>, out: Option<PaidPort>)
    | Tick(now: int)

  /** A hop executes the payments of one layer in order, stopping at the first failure. */
  function PayAll(h: Hop, pays: seq<PaymentInstruction>, envs: seq<Env>): (Hop, bool)
    requires |pays| == |envs|
    decreases |pays|
  {
    if pays == [] then (h, true)
    else
      var (h', outcome) := Pay(h, pays[0], envs[0]);
      if outcome.Ok() then PayAll(h', pays[1..], envs[1..]) else (h', false)
  }

  /** Every execution sees an honest payment service. */
  ghost predicate HonestRun(h: Hop, deadlineOf: Deadlines, now: int, pays: seq<PaymentInstruction>, envs: seq<Env>)
    requires |pays| == |envs|
    decreases |pays|
  {
    pays != [] ==>
      && HonestService(h, deadlineOf, now, pays[0].key, envs[0])
      && (Pay(h, pays[0], envs[0]).1.Ok() ==>
            HonestRun(Pay(h, pays[0], envs[0]).0, deadlineOf, now, pays[1..], envs[1..]))
  }

  /** `Process` of a ping: only a number above every earlier one counts. */
  function Acknowledged(c: Client, msg: Control): Client {
    if c.received < msg.seqno then
      c.(received := msg.seqno, paidReceived := if msg.withPayments then msg.seqno else c.paidReceived)
    else c
  }

  function Closed(s: Section, key: nat): Section
    requires key in s.payments
  {
    s.(payments := s.payments[key := s.payments[key].(active := false)])
  }

  ghost predicate Enabled(deadlines: seq<Deadlines>, s: System, step: Step) {
    && |deadlines| == |s.hops| == |s.client.nodes|
    && match step
       case BuildControl(r) =>
         && Fitting(s.client, r)
         && forall i: nat | i < |s.client.nodes| && s.client.nodes[i].Some? ::
              EnvOk(s.client.nodes[i].value, s.client.target, r.envs[i])
       case Deliver(p, envs) =>
         && p in s.net && p.at < |s.hops| && p.at < |p.msg.pays| && |p.msg.pays[p.at]| == |envs|
         && HonestRun(s.hops[p.at], deadlines[p.at], s.now, p.msg.pays[p.at], envs)
       case Acknowledge(p) => p in s.net && p.at == |s.hops|
       case Traffic(_, _) => true
       case Reconfigure(i, _, _) => i < |s.hops|
       case CloseChannel(i, key) => i < |s.hops| && key in s.hops[i].section.payments
       case ExpireChannel(i, key) =>
         && i < |s.hops| && key in s.hops[i].section.payments
         && !s.hops[i].section.payments[key].active && s.hops[i].section.payments[key].deadline < s.now
       case LoseSection(i, _, _) => i < |s.hops|
       case Tick(now) => s.now <= now
  }

  ghost function Next(deadlines: seq<Deadlines>, s: System, step: Step): System
    requires Enabled(deadlines, s, step)
  {
    match step
    case BuildControl(r) =>
      var (client, msg) := Build(s.client, r);
      s.(client := client, net := if msg.Some? then s.net + {Packet(0, msg.value)} else s.net)
    case Deliver(p, envs) =>
      var (hop, ok) := PayAll(s.hops[p.at], p.msg.pays[p.at], envs);
      s.(hops := s.hops[p.at := hop], net := if ok then s.net + {Packet(p.at + 1, p.msg)} else s.net)
    case Acknowledge(p) => s.(client := Acknowledged(s.client, p.msg))
    case Traffic(out, inn) => s.(client := s.client.(consumedOut := out, consumedIn := inn))
    case Reconfigure(i, routes, out) =>
      var h := s.hops[i];
      s.(hops := s.hops[i := h.(section := h.section.(routes := routes, out := out))])
    case CloseChannel(i, key) =>
      var h := s.hops[i];
      s.(hops := s.hops[i := h.(section := Closed(h.section, key))])
    case ExpireChannel(i, key) =>
      var h := s.hops[i];
      s.(hops := s.hops[i := h.(section := h.section.(payments := h.section.payments - {key}))])
    case LoseSection(i, routes, out) => s.(hops := s.hops[i := Reborn(s.hops[i], routes, out)])
    case Tick(now) => s.(now := now)
  }

  /** A layer's payments execute in order, and the message passes if none fails. */
  lemma PaysInOrder(h: Hop, ins: PaymentInstruction, env: Env, pays: seq<PaymentInstruction>, envs: seq<Env>)
    requires |pays| == |envs|
    ensures PayAll(h, [], []) == (h, true)
    ensures var (h', outcome) := Pay(h, ins, env);
            PayAll(h, [ins] + pays, [env] + envs) ==
              if outcome.Accepted? || outcome.AlreadyProcessed? then PayAll(h', pays, envs) else (h', false)
  {
    assert ([ins] + pays)[1..] == pays && ([env] + envs)[1..] == envs;
  }

  /** A first acknowledgement of a paid message releases every payment up to its number, so that the
      hop can be paid again; a late or repeated one changes nothing. */
  lemma AcknowledgementReleases(deadlines: seq<Deadlines>, s: System, p: Packet, payer: Payer)
    requires Enabled(deadlines, s, Acknowledge(p))
    ensures var s' := Next(deadlines, s, Acknowledge(p));
            && (p.msg.seqno > s.client.received && p.msg.withPayments && payer.latestPaidOn <= p.msg.seqno ==>
                  !PaymentDecisions.Waits(s'.client, payer))
            && (p.msg.seqno > s.client.received ==> s'.client.received == p.msg.seqno)
            && (p.msg.seqno <= s.client.received ==> s' == s)
            && (!p.msg.withPayments ==> s'.client.paidReceived == s.client.paidReceived)
            && s' == s.(client := s.client.(received := s'.client.received, paidReceived := s'.client.paidReceived))
  {
  }

  // ---------------------------------------------------------------------------------------
  // The invariant
  // ---------------------------------------------------------------------------------------

  /** Hop and payer agree on every channel: the hop holds at most what the payer signed, and
      everything was paid in whole packets. */
  ghost predicate Backed(h: Hop, payer: Option<Payer>) {
    forall key: nat | h.Recorded(key) != 0 :: BackedKey(h, payer, key)
  }

  predicate BackedKey(h: Hop, payer: Option<Payer>, key: nat) {
    && payer.Some?
    && payer.value.price > 0
    && key < |payer.value.book|
    && h.Recorded(key) <= payer.value.book[key].lastAmount
    && h.Recorded(key) % payer.value.price == 0
    && Counted(h, key) % payer.value.price == 0
    && forall c | c in h.Credits(key) :: c.delta % payer.value.price == 0
  }

  predicate Held(h: Hop, ins: PaymentInstruction) {
    ins.amount <= h.Recorded(ins.key)
  }

  predicate PacketInv(s: System, p: Packet)
    requires |s.hops| == |s.client.nodes|
  {
    && p.at <= |s.hops| == |p.msg.pays|
    && 1 <= p.msg.seqno <= s.client.controlSeqno
    && (forall i: nat | i < |s.hops| :: LayerInv(s.client.nodes[i], p.msg.pays[i]))
    && (forall i: nat | i < p.at :: PassedInv(s.hops[i], p.msg.pays[i]))
  }

  /** Everything the layer carries is covered by the payer's books. */
  predicate LayerInv(payer: Option<Payer>, pays: seq<PaymentInstruction>) {
    forall ins | ins in pays :: payer.Some? && SoundInstruction(payer.value, ins)
  }

  /** A hop that passed a message on holds everything its layer carried. */
  predicate PassedInv(h: Hop, pays: seq<PaymentInstruction>) {
    forall ins | ins in pays :: Held(h, ins)
  }

  /** Every with-payments message since the latest payment carries it. */
  predicate Carries(p: Packet, i: nat, payer: Payer) {
    p.msg.withPayments && p.msg.seqno >= payer.latestPaidOn && i < |p.msg.pays| && payer.latest.Some? ==>
      payer.latest.value in p.msg.pays[i]
  }

  /** Value of the latest payment while the hop does not hold it. */
  function Outstanding(h: Hop, p: Payer, c: nat): int {
    if p.latest.Some? && p.latest.value.key == c && !Held(h, p.latest.value) then p.price * p.latestPackets else 0
  }

  /** What is signed on a channel and not held by the hop is at most the latest payment, apart
      from what was written off. */
  predicate FundedKey(h: Hop, p: Payer, c: nat)
    requires c < |p.book|
  {
    p.book[c].lastAmount - h.Recorded(c) <= p.price * p.book[c].lost + Outstanding(h, p, c)
  }

  predicate Funded(h: Hop, p: Payer) {
    forall c: nat | c < |p.book| :: FundedKey(h, p, c)
  }

  ghost predicate NodeInv(s: System, i: nat)
    requires i < |s.client.nodes| == |s.hops|
  {
    s.client.nodes[i].Some? ==>
      var payer := s.client.nodes[i].value;
      && PayerInv(payer)
      && Funded(s.hops[i], payer)
      && (payer.latest.Some? ==>
            && 1 <= payer.latestPaidOn <= s.client.controlSeqno
            && (Held(s.hops[i], payer.latest.value) || forall p | p in s.net :: Carries(p, i, payer)))
  }

  predicate Returned(s: System, p: Packet) {
    p.at == |s.hops| && p.msg.withPayments && p.msg.seqno == s.client.paidReceived
  }

  ghost predicate Inv(deadlines: seq<Deadlines>, s: System) {
    && |deadlines| == |s.hops| == |s.client.nodes| && Shaped(s.client)
    && (forall i: nat | i < |s.hops| ::
          HopInv(s.hops[i], deadlines[i], s.now) && Backed(s.hops[i], s.client.nodes[i]))
    && (forall i: nat | i < |s.hops| :: NodeInv(s, i))
    && (forall p | p in s.net :: PacketInv(s, p))
    && (s.client.paidReceived == 0 || exists p :: p in s.net && Returned(s, p))
  }

  /** Settlement: once a payment is acknowledged, the hop holds it. */
  lemma AcknowledgedIsHeld(deadlines: seq<Deadlines>, s: System, i: nat)
    requires Inv(deadlines, s) && i < |s.client.nodes| && s.client.nodes[i].Some?
    requires var payer := s.client.nodes[i].value;
             payer.latest.Some? && payer.latestPaidOn <= s.client.paidReceived
    ensures Held(s.hops[i], s.client.nodes[i].value.latest.value)
  {
    var payer := s.client.nodes[i].value;
    assert NodeInv(s, i);
    var p :| p in s.net && Returned(s, p);
    assert PacketInv(s, p);
    assert PassedInv(s.hops[i], p.msg.pays[i]);
    assert Held(s.hops[i], payer.latest.value) || Carries(p, i, payer);
  }

  // ---------------------------------------------------------------------------------------
  // Steps at a hop
  // ---------------------------------------------------------------------------------------

  /** Recorded amounts never fall. */
  ghost predicate Grows(h: Hop, h': Hop) {
    forall key: nat :: h.Recorded(key) <= h'.Recorded(key)
  }

  lemma GrowthKeepsFunding(h: Hop, h': Hop, p: Payer)
    requires Grows(h, h') && PayerInv(p) && Funded(h, p)
    ensures Funded(h', p)
  {
    forall c: nat | c < |p.book|
      ensures FundedKey(h', p, c)
    {
      assert FundedKey(h, p, c);
      assert p.book[c] in p.book;
      assert p.price * p.book[c].lost >= 0;
    }
  }

  lemma PayKeepsBacking(h: Hop, h': Hop, outcome: Outcome, deadlineOf: Deadlines, now: int,
                        ins: PaymentInstruction, payer: Payer)
    requires BooksKept(h, h', outcome, deadlineOf, now, ins)
    requires Backed(h, Some(payer)) && SoundInstruction(payer, ins)
    requires HopInv(h, deadlineOf, now)
    ensures Backed(h', Some(payer)) && Grows(h, h')
  {
    forall key: nat
      ensures h.Recorded(key) <= h'.Recorded(key)
      ensures h'.Recorded(key) != 0 ==> BackedKey(h', Some(payer), key)
    {
      assert KeyInv(h, deadlineOf, now, key);
      WholeBefore(h, deadlineOf, now, payer, key);
      if key == ins.key && outcome.Accepted? {
        AcceptedKeyBacked(h, h', outcome, deadlineOf, now, ins, payer);
      } else {
        OtherKeyBacked(h, h', outcome, deadlineOf, now, ins, payer, key);
      }
    }
  }

  lemma AcceptedKeyBacked(h: Hop, h': Hop, outcome: Outcome, deadlineOf: Deadlines, now: int,
                          ins: PaymentInstruction, payer: Payer)
    requires BooksKept(h, h', outcome, deadlineOf, now, ins) && outcome.Accepted? && SoundInstruction(payer, ins)
    requires h.Recorded(ins.key) % payer.price == 0 && Counted(h, ins.key) % payer.price == 0
    requires forall c | c in h.Credits(ins.key) :: c.delta % payer.price == 0
    requires h.Recorded(ins.key) != 0 ==> h.Recorded(ins.key) <= payer.book[ins.key].lastAmount
    ensures h.Recorded(ins.key) <= h'.Recorded(ins.key) && BackedKey(h', Some(payer), ins.key)
  {
    MultipleMinus(ins.amount, Counted(h, ins.key), payer.price);
  }

  lemma OtherKeyBacked(h: Hop, h': Hop, outcome: Outcome, deadlineOf: Deadlines, now: int,
                       ins: PaymentInstruction, payer: Payer, key: nat)
    requires BooksKept(h, h', outcome, deadlineOf, now, ins) && (key != ins.key || !outcome.Accepted?) && SoundInstruction(payer, ins)
    requires h.Recorded(key) % payer.price == 0 && Counted(h, key) % payer.price == 0
    requires forall c | c in h.Credits(key) :: c.delta % payer.price == 0
    requires h.Recorded(key) != 0 ==> key < |payer.book| && h.Recorded(key) <= payer.book[key].lastAmount
    ensures h.Recorded(key) <= h'.Recorded(key)
    ensures h'.Recorded(key) != 0 ==> BackedKey(h', Some(payer), key)
  {
  }

  /** Whether or not a hop holds something on a key: it counts and credited whole packets. */
  lemma WholeBefore(h: Hop, deadlineOf: Deadlines, now: int, payer: Payer, key: nat)
    requires KeyInv(h, deadlineOf, now, key) && Backed(h, Some(payer)) && payer.price > 0
    ensures h.Recorded(key) % payer.price == 0 && Counted(h, key) % payer.price == 0
    ensures forall c | c in h.Credits(key) :: c.delta % payer.price == 0
    ensures h.Recorded(key) != 0 ==> key < |payer.book| && h.Recorded(key) <= payer.book[key].lastAmount
    ensures h.Recorded(key) == 0 ==> Counted(h, key) == 0 && h.Credits(key) == []
  {
    if h.Recorded(key) != 0 {
      assert BackedKey(h, Some(payer), key);
    } else {
      NothingRecordedNothingCredited(h.Credits(key));
      assert Counted(h, key) == 0;
    }
  }

  lemma {:induction false} NothingRecordedNothingCredited(credits: seq<Credit>)
    requires ProperCredits(credits)
    ensures TotalDelta(credits) >= |credits|
  {
    if credits != [] {
      assert credits[|credits| - 1] in credits;
      NothingRecordedNothingCredited(credits[..|credits| - 1]);
    }
  }

  lemma {:induction false} PayAllKeeps(h: Hop, deadlineOf: Deadlines, now: int, payer: Option<Payer>,
                                       pays: seq<PaymentInstruction>, envs: seq<Env>)
    requires |pays| == |envs| && HopInv(h, deadlineOf, now) && Backed(h, payer)
    requires LayerInv(payer, pays) && HonestRun(h, deadlineOf, now, pays, envs)
    ensures var (h', ok) := PayAll(h, pays, envs);
            && HopInv(h', deadlineOf, now) && Backed(h', payer) && Grows(h, h')
            && (ok ==> PassedInv(h', pays))
    decreases |pays|
  {
    if pays != [] {
      var ins := pays[0];
      assert ins in pays;
      var (h1, outcome) := Pay(h, ins, envs[0]);
      PayKeepsBooks(h, deadlineOf, now, ins, envs[0]);
      PayKeepsBacking(h, h1, outcome, deadlineOf, now, ins, payer.value);
      if outcome.Ok() {
        assert forall x | x in pays[1..] :: x in pays;
        PayAllKeeps(h1, deadlineOf, now, payer, pays[1..], envs[1..]);
        assert forall x | x in pays :: x == ins || x in pays[1..];
      }
    }
  }

  /** Changing one hop's books forward keeps the invariant. */
  lemma HopUpdateKeepsInv(deadlines: seq<Deadlines>, s: System, i: nat, h': Hop)
    requires Inv(deadlines, s) && i < |s.hops|
    requires HopInv(h', deadlines[i], s.now) && Backed(h', s.client.nodes[i]) && Grows(s.hops[i], h')
    ensures Inv(deadlines, s.(hops := s.hops[i := h']))
  {
    var s' := s.(hops := s.hops[i := h']);
    forall j: nat | j < |s'.hops|
      ensures NodeInv(s', j)
    {
      assert NodeInv(s, j);
      if s.client.nodes[j].Some? {
        GrowthKeepsFunding(s.hops[j], s'.hops[j], s.client.nodes[j].value);
      }
    }
    forall p | p in s'.net
      ensures PacketInv(s', p)
    {
      assert PacketInv(s, p);
      forall j: nat | j < p.at
        ensures PassedInv(s'.hops[j], p.msg.pays[j])
      {
        assert PassedInv(s.hops[j], p.msg.pays[j]);
      }
    }
    if s.client.paidReceived != 0 {
      var p :| p in s.net && Returned(s, p);
      assert Returned(s', p);
    }
  }

  /** Another copy of a message in flight. */
  lemma CopyKeepsInv(deadlines: seq<Deadlines>, s: System, from: Packet, p: Packet)
    requires Inv(deadlines, s) && from in s.net && p.msg == from.msg && PacketInv(s, p)
    ensures Inv(deadlines, s.(net := s.net + {p}))
  {
    var s' := s.(net := s.net + {p});
    forall j: nat | j < |s'.hops|
      ensures NodeInv(s', j)
    {
      assert NodeInv(s, j);
      if s.client.nodes[j].Some? {
        var payer := s.client.nodes[j].value;
        assert Carries(from, j, payer) ==> Carries(p, j, payer);
      }
    }
    forall q | q in s'.net
      ensures PacketInv(s', q)
    {
      assert PacketInv(s, q);
    }
    if s.client.paidReceived != 0 {
      var q :| q in s.net && Returned(s, q);
      assert q in s'.net && Returned(s', q);
    }
  }

  lemma DeliverKeepsInv(deadlines: seq<Deadlines>, s: System, step: Step)
    requires Inv(deadlines, s) && step.Deliver? && Enabled(deadlines, s, step)
    ensures Inv(deadlines, Next(deadlines, s, step))
  {
    var p, envs := step.p, step.envs;
    assert PacketInv(s, p);
    var (h', ok) := PayAll(s.hops[p.at], p.msg.pays[p.at], envs);
    var s1 := s.(hops := s.hops[p.at := h']);
    assert Next(deadlines, s, step) == if ok then s1.(net := s1.net + {Packet(p.at + 1, p.msg)}) else s1;
    DeliveredKeepsInv(deadlines, s, p, envs);
  }

  lemma DeliveredKeepsInv(deadlines: seq<Deadlines>, s: System, p: Packet, envs: seq<Env>)
    requires Inv(deadlines, s) && p in s.net && p.at < |s.hops| && |p.msg.pays| == |s.hops|
    requires |p.msg.pays[p.at]| == |envs|
    requires HonestRun(s.hops[p.at], deadlines[p.at], s.now, p.msg.pays[p.at], envs)
    ensures var (h', ok) := PayAll(s.hops[p.at], p.msg.pays[p.at], envs);
            var s1 := s.(hops := s.hops[p.at := h']);
            Inv(deadlines, if ok then s1.(net := s1.net + {Packet(p.at + 1, p.msg)}) else s1)
  {
    var pays := p.msg.pays[p.at];
    assert PacketInv(s, p);
    PayAllKeeps(s.hops[p.at], deadlines[p.at], s.now, s.client.nodes[p.at], pays, envs);
    var (h', ok) := PayAll(s.hops[p.at], pays, envs);
    HopUpdateKeepsInv(deadlines, s, p.at, h');
    var s1 := s.(hops := s.hops[p.at := h']);
    if ok {
      assert PacketInv(s1, p);
      CopyKeepsInv(deadlines, s1, p, Packet(p.at + 1, p.msg));
    }
  }

  /** A hop that changed nothing but its section still has its books in order. */
  lemma HousekeepingAtHop(deadlines: seq<Deadlines>, s: System, i: nat, h': Hop)
    requires Inv(deadlines, s) && i < |s.hops| && h'.resolved == s.hops[i].resolved
    requires forall key: nat :: KeyInv(s.hops[i], deadlines[i], s.now, key) ==> KeyInv(h', deadlines[i], s.now, key)
    requires forall key: nat :: Counted(h', key) == Counted(s.hops[i], key) || Counted(h', key) == 0
    requires forall key: nat :: h'.Credits(key) == s.hops[i].Credits(key) || h'.Credits(key) == []
    ensures Inv(deadlines, s.(hops := s.hops[i := h']))
  {
    var h := s.hops[i];
    assert HopInv(h, deadlines[i], s.now);
    forall key: nat | h'.Recorded(key) != 0
      ensures BackedKey(h', s.client.nodes[i], key)
    {
      assert BackedKey(h, s.client.nodes[i], key);
    }
    HopUpdateKeepsInv(deadlines, s, i, h');
  }

  /** Expiry, closing and reconfiguration leave amounts and credits alone, and so does the loss of
      the section, except that its credits go with it. */
  lemma HousekeepingKeepsInv(deadlines: seq<Deadlines>, s: System, step: Step)
    requires Inv(deadlines, s) && Enabled(deadlines, s, step)
    requires step.Reconfigure? || step.CloseChannel? || step.ExpireChannel? || step.LoseSection?
    ensures Inv(deadlines, Next(deadlines, s, step))
  {
    HousekeepingAtHop(deadlines, s, step.hop, Next(deadlines, s, step).hops[step.hop]);
  }

  lemma TickKeepsInv(deadlines: seq<Deadlines>, s: System, step: Step)
    requires Inv(deadlines, s) && step.Tick? && Enabled(deadlines, s, step)
    ensures Inv(deadlines, Next(deadlines, s, step))
  {
    var s' := Next(deadlines, s, step);
    forall i: nat | i < |s.hops|
      ensures HopInv(s'.hops[i], deadlines[i], s'.now) && NodeInv(s', i)
    {
      assert NodeInv(s, i);
      forall key: nat
        ensures KeyInv(s'.hops[i], deadlines[i], s'.now, key)
      {
        assert KeyInv(s.hops[i], deadlines[i], s.now, key);
      }
    }
    forall p | p in s'.net
      ensures PacketInv(s', p)
    {
      assert PacketInv(s, p);
    }
    if s.client.paidReceived != 0 {
      var p :| p in s.net && Returned(s, p);
      assert Returned(s', p);
    }
  }

  // ---------------------------------------------------------------------------------------
  // Steps at the client
  // ---------------------------------------------------------------------------------------

  /** Acknowledgements and traffic counters touch no payer. */
  lemma CounterKeepsInv(deadlines: seq<Deadlines>, s: System, step: Step)
    requires Inv(deadlines, s) && Enabled(deadlines, s, step) && (step.Acknowledge? || step.Traffic?)
    ensures Inv(deadlines, Next(deadlines, s, step))
  {
    var s' := Next(deadlines, s, step);
    forall i: nat | i < |s.hops|
      ensures NodeInv(s', i)
    {
      assert NodeInv(s, i);
    }
    forall p | p in s'.net
      ensures PacketInv(s', p)
    {
      assert PacketInv(s, p);
    }
    if s'.client.paidReceived != 0 {
      if s'.client.paidReceived == s.client.paidReceived {
        var p :| p in s.net && Returned(s, p);
        assert Returned(s', p);
      } else {
        assert Returned(s', step.p);
      }
    }
  }

  /** The payers may move forward, keeping or dropping their latest payment. */
  ghost predicate Forward(s: System, s': System, i: nat)
    requires i < |s.client.nodes| == |s'.client.nodes|
  {
    && s'.client.nodes[i].Some? == s.client.nodes[i].Some?
    && (s.client.nodes[i].Some? ==> Advanced(s.client.nodes[i].value, s'.client.nodes[i].value))
  }

  lemma BackingKept(h: Hop, p: Payer, p': Payer)
    requires Backed(h, Some(p)) && Advanced(p, p')
    ensures Backed(h, Some(p'))
  {
    forall key: nat | h.Recorded(key) != 0
      ensures BackedKey(h, Some(p'), key)
    {
      assert BackedKey(h, Some(p), key);
    }
  }

  lemma ForwardKeepsBooks(deadlines: seq<Deadlines>, s: System, s': System)
    requires Inv(deadlines, s)
    requires |s'.client.nodes| == |s.client.nodes| && s'.hops == s.hops && s'.now == s.now
    requires s.client.controlSeqno <= s'.client.controlSeqno
    requires forall i: nat | i < |s.client.nodes| :: Forward(s, s', i)
    ensures forall i: nat | i < |s'.hops| ::
              HopInv(s'.hops[i], deadlines[i], s'.now) && Backed(s'.hops[i], s'.client.nodes[i])
    ensures forall p | p in s.net :: PacketInv(s', p)
  {
    forall i: nat | i < |s'.hops|
      ensures HopInv(s'.hops[i], deadlines[i], s'.now) && Backed(s'.hops[i], s'.client.nodes[i])
    {
      assert Forward(s, s', i);
      if s.client.nodes[i].Some? {
        BackingKept(s.hops[i], s.client.nodes[i].value, s'.client.nodes[i].value);
      }
    }
    forall p | p in s.net
      ensures PacketInv(s', p)
    {
      assert PacketInv(s, p);
      forall i: nat | i < |s'.hops|
        ensures LayerInv(s'.client.nodes[i], p.msg.pays[i])
      {
        assert LayerInv(s.client.nodes[i], p.msg.pays[i]);
        assert Forward(s, s', i);
      }
    }
  }

  /** What a plan leaves as the latest payment: the new one, in the message; or the old one,
      again in the message if it is unacknowledged. */
  lemma PlanAttachesLatest(p: Payer, d: Demand, env: NodeEnv, seqno: nat)
    requires PayerInv(p) && EnvOk(p, d.target, env)
    ensures var plan := PlanHop(p, d, env);
            var p' := Committed(plan, seqno);
            p'.latest.Some? ==>
            || (p'.latest.value in plan.pays && p'.latestPaidOn == seqno)
            || (&& p'.latest == p.latest && p'.latestPaidOn == p.latestPaidOn
                && (d.withPayments && Unacknowledged(p, d) ==> p'.latest.value in plan.pays))
  {
  }

  lemma FailedBuildKeepsInv(deadlines: seq<Deadlines>, s: System, step: Step)
    requires Inv(deadlines, s) && step.BuildControl? && Enabled(deadlines, s, step)
    requires Build(s.client, step.r).1.None?
    ensures Inv(deadlines, Next(deadlines, s, step))
  {
    var r := step.r;
    var s' := Next(deadlines, s, step);
    assert |s'.client.nodes| == |s.client.nodes|;
    forall i: nat | i < |s.client.nodes|
      ensures Forward(s, s', i) && NodeInv(s', i)
    {
      assert NodeInv(s, i);
      if s.client.nodes[i].Some? {
        var p, p' := s.client.nodes[i].value, s'.client.nodes[i].value;
        PlanHoldsBack(p, DemandAt(s.client, r, i), r.envs[i]);
        PlanKeepsFunding(deadlines, s, r, i);
        assert p' == p || p' == PlanAt(s.client, r, i).payer;
        if p' != p {
          HeldBackAdvances(p, p');
        }
        assert forall q | q in s.net :: Carries(q, i, p) ==> Carries(q, i, p');
      }
    }
    ForwardKeepsBooks(deadlines, s, s');
    if s.client.paidReceived != 0 {
      var q :| q in s.net && Returned(s, q);
      assert Returned(s', q);
    }
  }

  // ---------------------------------------------------------------------------------------
  // Funding across a build
  // ---------------------------------------------------------------------------------------

  lemma WriteOffKeepsFunding(h: Hop, p: Payer)
    requires PayerInv(p) && p.latest.Some? && Funded(h, p)
    ensures Funded(h, WrittenOff(p))
  {
    var p' := WrittenOff(p);
    WriteOffKeepsBooks(p);
    forall c: nat | c < |p'.book|
      ensures FundedKey(h, p', c)
    {
      assert FundedKey(h, p, c);
      if c == p.latest.value.key {
        assert p.price * (p.book[c].lost + p.latestPackets) == p.price * p.book[c].lost + p.price * p.latestPackets;
        assert p.price * p.latestPackets >= 0;
      }
    }
  }

  ghost predicate NonNegative(h: Hop) {
    forall key: nat :: h.Recorded(key) >= 0
  }

  lemma ChannelKeepsFunding(h: Hop, p: Payer, env: NodeEnv)
    requires PayerInv(p) && Funded(h, p) && NonNegative(h)
    ensures Funded(h, WithChannel(p, env))
  {
    var p' := WithChannel(p, env);
    forall c: nat | c < |p'.book|
      ensures FundedKey(h, p', c)
    {
      if c < |p.book| {
        assert FundedKey(h, p, c);
      } else {
        assert h.Recorded(c) >= 0;
        assert p'.book[c].lastAmount == 0 && p'.book[c].lost == 0;
        assert p.latest.Some? ==> p.latest.value.key != c;
      }
    }
  }

  /** A new payment is decided only when the hop holds all earlier ones. */
  lemma CommitKeepsFunding(h: Hop, plan: Plan, seqno: nat)
    requires FittingCommit(plan) && Funded(h, plan.payer)
    requires plan.payer.latest.Some? ==> Held(h, plan.payer.latest.value)
    ensures Funded(h, Committed(plan, seqno))
  {
    var p, p' := plan.payer, Committed(plan, seqno);
    var ins, packets := plan.commit.value.ins, plan.commit.value.packets;
    forall c: nat | c < |p'.book|
      ensures FundedKey(h, p', c)
    {
      assert FundedKey(h, p, c);
      assert p.book[c] in p.book;
      assert p.price * p.book[c].lost >= 0;
      assert packets * p.price == p.price * packets;
    }
  }

  lemma PlanKeepsFundingOf(h: Hop, p: Payer, d: Demand, env: NodeEnv, seqno: nat)
    requires PayerInv(p) && EnvOk(p, d.target, env) && Funded(h, p) && NonNegative(h)
    requires p.latest.Some? && p.latestPaidOn <= d.paidReceived ==> Held(h, p.latest.value)
    ensures Funded(h, PlanHop(p, d, env).payer)
    ensures Funded(h, Committed(PlanHop(p, d, env), seqno))
  {
    var plan, p1 := PlanHop(p, d, env), Undecided(p, d);
    UndecidedHoldsBack(p, d);
    if Unacknowledged(p, d) {
      WriteOffKeepsFunding(h, p);
    }
    ChannelKeepsFunding(h, p1, env);
    PlanPayers(p, d, env);
    PlanPaysLatest(p, d, env);
    if plan.commit.Some? {
      PlannedPaymentFits(p1, d, env);
      CommitKeepsFunding(h, plan, seqno);
    }
  }

  lemma PlanPayers(p: Payer, d: Demand, env: NodeEnv)
    requires WellPointed(p)
    ensures var plan, p1 := PlanHop(p, d, env), Undecided(p, d);
            && (plan.payer == p || plan.payer == p1 || plan.payer == WithChannel(p1, env))
            && (plan.commit.Some? ==> plan.payer == WithChannel(p1, env))
  {
  }

  lemma PlanKeepsFunding(deadlines: seq<Deadlines>, s: System, r: Request, i: nat)
    requires Inv(deadlines, s) && Enabled(deadlines, s, BuildControl(r))
    requires i < |s.client.nodes| && s.client.nodes[i].Some?
    ensures Funded(s.hops[i], PlanAt(s.client, r, i).payer)
    ensures Funded(s.hops[i], Committed(PlanAt(s.client, r, i), s.client.controlSeqno + 1))
  {
    var h, p, d := s.hops[i], s.client.nodes[i].value, DemandAt(s.client, r, i);
    assert NodeInv(s, i);
    assert HopInv(h, deadlines[i], s.now);
    forall key: nat
      ensures h.Recorded(key) >= 0
    {
      assert KeyInv(h, deadlines[i], s.now, key);
    }
    if p.latest.Some? && p.latestPaidOn <= s.client.paidReceived {
      AcknowledgedIsHeld(deadlines, s, i);
    }
    PlanKeepsFundingOf(h, p, d, r.envs[i], s.client.controlSeqno + 1);
  }

  /** The message a successful build sends. */
  function SentMessage(c: Client, r: Request): Control
    requires Fitting(c, r)
  {
    Control(c.controlSeqno + 1, r.withPayments, AllPays(c, r))
  }

  /** s' is s after a successful build. */
  ghost predicate Sent(s: System, s': System, r: Request) {
    && Fitting(s.client, r)
    && s'.client.nodes == CommittedNodes(s.client, r)
    && s'.client.controlSeqno == s.client.controlSeqno + 1
    && s'.client.paidReceived == s.client.paidReceived
    && s'.hops == s.hops && s'.now == s.now
    && s'.net == s.net + {Packet(0, SentMessage(s.client, r))}
  }

  lemma SentGoesForward(deadlines: seq<Deadlines>, s: System, s': System, r: Request, i: nat)
    requires Inv(deadlines, s) && Sent(s, s', r) && i < |s.client.nodes|
    requires s.client.nodes[i].Some? ==> EnvOk(s.client.nodes[i].value, s.client.target, r.envs[i])
    ensures Forward(s, s', i)
    ensures LayerInv(s'.client.nodes[i], SentMessage(s.client, r).pays[i])
  {
    assert NodeInv(s, i);
    assert s'.client.nodes[i] == CommittedAt(s.client, r, i);
    assert SentMessage(s.client, r).pays[i] == PaysAt(s.client, r, i);
    if s.client.nodes[i].Some? {
      CommitAdvances(s.client.nodes[i].value, DemandAt(s.client, r, i), r.envs[i], s.client.controlSeqno + 1);
    }
  }

  lemma SentNodeInv(deadlines: seq<Deadlines>, s: System, s': System, r: Request, i: nat)
    requires Inv(deadlines, s) && Enabled(deadlines, s, BuildControl(r)) && Sent(s, s', r)
    requires i < |s.client.nodes|
    ensures NodeInv(s', i)
  {
    SentGoesForward(deadlines, s, s', r, i);
    assert s'.client.nodes[i] == CommittedAt(s.client, r, i);
    if s.client.nodes[i].Some? {
      PlanKeepsFunding(deadlines, s, r, i);
      SentIsCarried(deadlines, s, s', r, i);
    }
  }

  /** After a build, every message that matters carries the hop's latest unheld payment. */
  lemma SentIsCarried(deadlines: seq<Deadlines>, s: System, s': System, r: Request, i: nat)
    requires Inv(deadlines, s) && Sent(s, s', r)
    requires i < |s.client.nodes| && s.client.nodes[i].Some?
    requires EnvOk(s.client.nodes[i].value, s.client.target, r.envs[i])
    ensures var p' := Committed(PlanAt(s.client, r, i), s.client.controlSeqno + 1);
            p'.latest.Some? ==>
              && 1 <= p'.latestPaidOn <= s'.client.controlSeqno
              && (Held(s.hops[i], p'.latest.value) || forall q | q in s'.net :: Carries(q, i, p'))
  {
    var p, d, seqno := s.client.nodes[i].value, DemandAt(s.client, r, i), s.client.controlSeqno + 1;
    var p' := Committed(PlanAt(s.client, r, i), seqno);
    var msg := SentMessage(s.client, r);
    assert NodeInv(s, i);
    assert msg.pays[i] == PaysAt(s.client, r, i);
    PlanAttachesLatest(p, d, r.envs[i], seqno);
    if p'.latest.Some? && !Held(s.hops[i], p'.latest.value) {
      if p'.latestPaidOn != seqno && p.latestPaidOn <= s.client.paidReceived {
        AcknowledgedIsHeld(deadlines, s, i);
      }
      forall q | q in s'.net
        ensures Carries(q, i, p')
      {
        if q in s.net {
          assert PacketInv(s, q);
          assert p'.latestPaidOn != seqno ==> Carries(q, i, p);
        }
      }
    }
  }

  lemma SentKeepsInv(deadlines: seq<Deadlines>, s: System, s': System, r: Request)
    requires Inv(deadlines, s) && Enabled(deadlines, s, BuildControl(r)) && Sent(s, s', r)
    requires Shaped(s'.client)
    ensures Inv(deadlines, s')
  {
    var p' := Packet(0, SentMessage(s.client, r));
    forall i: nat | i < |s.client.nodes|
      ensures Forward(s, s', i) && NodeInv(s', i) && LayerInv(s'.client.nodes[i], p'.msg.pays[i])
    {
      SentGoesForward(deadlines, s, s', r, i);
      SentNodeInv(deadlines, s, s', r, i);
    }
    ForwardKeepsBooks(deadlines, s, s');
    assert PacketInv(s', p');
    if s.client.paidReceived != 0 {
      var q :| q in s.net && Returned(s, q);
      assert q in s'.net && Returned(s', q);
    }
  }

  lemma BuildKeepsInv(deadlines: seq<Deadlines>, s: System, step: Step)
    requires Inv(deadlines, s) && step.BuildControl? && Enabled(deadlines, s, step)
    ensures Inv(deadlines, Next(deadlines, s, step))
  {
    if Build(s.client, step.r).1.Some? {
      SentKeepsInv(deadlines, s, Next(deadlines, s, step), step.r);
    } else {
      FailedBuildKeepsInv(deadlines, s, step);
    }
  }

  lemma StepKeepsInv(deadlines: seq<Deadlines>, s: System, step: Step)
    requires Inv(deadlines, s) && Enabled(deadlines, s, step)
    ensures Inv(deadlines, Next(deadlines, s, step))
  {
    match step
    case BuildControl(_) => BuildKeepsInv(deadlines, s, step);
    case Deliver(_, _) => DeliverKeepsInv(deadlines, s, step);
    case Acknowledge(_) => CounterKeepsInv(deadlines, s, step);
    case Traffic(_, _) => CounterKeepsInv(deadlines, s, step);
    case Reconfigure(_, _, _) => HousekeepingKeepsInv(deadlines, s, step);
    case CloseChannel(_, _) => HousekeepingKeepsInv(deadlines, s, step);
    case ExpireChannel(_, _) => HousekeepingKeepsInv(deadlines, s, step);
    case LoseSection(_, _, _) => HousekeepingKeepsInv(deadlines, s, step);
    case Tick(_) => TickKeepsInv(deadlines, s, step);
  }

  // ---------------------------------------------------------------------------------------
  // Every run
  // ---------------------------------------------------------------------------------------

  predicate FreshHop(h: Hop) {
    h.section.payments == map[] && h.resolved == map[] && h.ledger == map[] && !h.reborn
  }

  /** Nothing paid, nothing recorded, nothing in flight. */
  predicate Init(s: System) {
    && |s.hops| == |s.client.nodes| && Shaped(s.client)
    && (forall i: nat | i < |s.hops| :: FreshHop(s.hops[i]))
    && (forall i: nat | i < |s.client.nodes| && s.client.nodes[i].Some? :: FreshPayer(s.client.nodes[i].value))
    && s.net == {} && s.client.paidReceived == 0
  }

  ghost predicate Follows(deadlines: seq<Deadlines>, s: System, s': System) {
    exists step :: Enabled(deadlines, s, step) && s' == Next(deadlines, s, step)
  }

  ghost predicate Run(deadlines: seq<Deadlines>, trace: seq<System>) {
    && |trace| > 0 && Init(trace[0]) && |deadlines| == |trace[0].hops|
    && forall k: nat | k + 1 < |trace| :: Follows(deadlines, trace[k], trace[k + 1])
  }

  lemma InitInv(deadlines: seq<Deadlines>, s: System)
    requires Init(s) && |deadlines| == |s.hops|
    ensures Inv(deadlines, s)
  {
    forall i: nat | i < |s.hops|
      ensures NodeInv(s, i) && HopInv(s.hops[i], deadlines[i], s.now) && Backed(s.hops[i], s.client.nodes[i])
    {
      assert FreshHop(s.hops[i]);
      if s.client.nodes[i].Some? {
        assert FreshPayer(s.client.nodes[i].value);
      }
    }
  }

  lemma {:induction false} RunInv(deadlines: seq<Deadlines>, trace: seq<System>, k: nat)
    requires Run(deadlines, trace) && k < |trace|
    ensures Inv(deadlines, trace[k])
  {
    if k == 0 {
      InitInv(deadlines, trace[0]);
    } else {
      var j := k - 1;
      RunInv(deadlines, trace, j);
      assert Follows(deadlines, trace[j], trace[j + 1]);
      FollowsKeepsInv(deadlines, trace[j], trace[j + 1]);
    }
  }

  lemma FollowsKeepsInv(deadlines: seq<Deadlines>, s: System, s': System)
    requires Inv(deadlines, s) && Follows(deadlines, s, s')
    ensures Inv(deadlines, s')
  {
    var step :| Enabled(deadlines, s, step) && s' == Next(deadlines, s, step);
    StepKeepsInv(deadlines, s, step);
  }

  /** Settlement.  In every run, whatever is lost, duplicated or reordered: when the client has
      seen a paid acknowledgement at or after the number of a hop's latest payment, that hop
      holds a state of at least that payment's amount. */
  lemma SettlementHolds(deadlines: seq<Deadlines>, trace: seq<System>, k: nat, i: nat)
    requires Run(deadlines, trace) && k < |trace|
    requires i < |trace[k].client.nodes| && trace[k].client.nodes[i].Some?
    requires var payer := trace[k].client.nodes[i].value;
             payer.latest.Some? && payer.latestPaidOn <= trace[k].client.paidReceived
    ensures |trace[k].hops| == |trace[k].client.nodes|
    ensures Held(trace[k].hops[i], trace[k].client.nodes[i].value.latest.value)
  {
    RunInv(deadlines, trace, k);
    AcknowledgedIsHeld(deadlines, trace[k], i);
  }

  /** Two-party ledger.  In every run, sections lost and hops restarted included, and for every
      channel of the payer, seen by the hop or not: the hop holds at most what the payer signed,
      which fits the channel; the packets it credited in this life of its section are worth at
      most what it holds; and if its price was the payer's at every credit and the section was
      never lost, they are exactly what it holds over the price. */
  lemma TwoPartyLedger(deadlines: seq<Deadlines>, trace: seq<System>, k: nat, i: nat, key: nat)
    requires Run(deadlines, trace) && k < |trace| && i < |trace[k].client.nodes| && trace[k].client.nodes[i].Some?
    requires key < |trace[k].client.nodes[i].value.book|
    ensures |trace[k].hops| == |trace[k].client.nodes|
    ensures var h, payer := trace[k].hops[i], trace[k].client.nodes[i].value;
            && 0 <= h.Recorded(key) <= payer.book[key].lastAmount <= payer.book[key].capacity
            && ProperCredits(h.Credits(key))
            && TotalValue(h.Credits(key)) <= h.Recorded(key)
            && (payer.price > 0 && (forall c | c in h.Credits(key) :: c.price == payer.price) ==>
                  && TotalPackets(h.Credits(key)) <= h.Recorded(key) / payer.price
                  && (!h.reborn ==> TotalPackets(h.Credits(key)) == h.Recorded(key) / payer.price))
  {
    var s := trace[k];
    RunInv(deadlines, trace, k);
    var h, payer := s.hops[i], s.client.nodes[i].value;
    assert NodeInv(s, i) && HopInv(h, deadlines[i], s.now) && Backed(h, s.client.nodes[i]);
    assert KeyInv(h, deadlines[i], s.now, key);
    assert payer.book[key] in payer.book;
    CreditedValueIsPaid(h.Credits(key));
    if payer.price > 0 && forall c | c in h.Credits(key) :: c.price == payer.price {
      CreditsAreWhole(h, s.client.nodes[i], deadlines[i], s.now, key);
      CreditedExactly(h.Credits(key), payer.price);
      DivMonotone(TotalDelta(h.Credits(key)), h.Recorded(key), payer.price);
    }
  }

  lemma CreditsAreWhole(h: Hop, payer: Option<Payer>, deadlineOf: Deadlines, now: int, key: nat)
    requires Backed(h, payer) && KeyInv(h, deadlineOf, now, key) && payer.Some? && payer.value.price > 0
    ensures forall c | c in h.Credits(key) :: c.delta % payer.value.price == 0
  {
    if h.Recorded(key) != 0 {
      assert BackedKey(h, payer, key);
    } else {
      NothingRecordedNothingCredited(h.Credits(key));
    }
  }

  /** And a hop holds nothing on any other key. */
  lemma HeldIsSigned(deadlines: seq<Deadlines>, trace: seq<System>, k: nat, i: nat, key: nat)
    requires Run(deadlines, trace) && k < |trace| && i < |trace[k].hops| && trace[k].hops[i].Recorded(key) != 0
    ensures |trace[k].hops| == |trace[k].client.nodes| && trace[k].client.nodes[i].Some?
    ensures key < |trace[k].client.nodes[i].value.book|
  {
    RunInv(deadlines, trace, k);
    assert BackedKey(trace[k].hops[i], trace[k].client.nodes[i], key);
  }

  lemma {:induction false} FundingAddsUp(h: Hop, p: Payer, n: nat)
    requires PayerInv(p) && Funded(h, p) && n <= |p.book|
    ensures Amounts(p.book[..n]) - HeldTotal(h, n) <= p.price * Losses(p.book[..n]) +
              if p.latest.Some? && p.latest.value.key < n then Outstanding(h, p, p.latest.value.key) else 0
  {
    if n > 0 {
      FundingAddsUp(h, p, n - 1);
      assert FundedKey(h, p, n - 1);
      assert p.book[..n][..n - 1] == p.book[..n - 1];
      assert p.price * (Losses(p.book[..n - 1]) + p.book[n - 1].lost)
          == p.price * Losses(p.book[..n - 1]) + p.price * p.book[n - 1].lost;
    }
  }

  /** Exposure.  In every run, whatever a payer counts as paid to a hop is held by that hop,
      except at most its one latest payment, and not even that once the hop holds it. */
  lemma PaidIsHeld(deadlines: seq<Deadlines>, trace: seq<System>, k: nat, i: nat)
    requires Run(deadlines, trace) && k < |trace|
    requires i < |trace[k].client.nodes| && trace[k].client.nodes[i].Some?
    ensures |trace[k].hops| == |trace[k].client.nodes|
    ensures var h, p := trace[k].hops[i], trace[k].client.nodes[i].value;
            p.price * p.paidPackets <= HeldTotal(h, |p.book|) +
              if p.latest.Some? then Outstanding(h, p, p.latest.value.key) else 0
  {
    RunInv(deadlines, trace, k);
    assert NodeInv(trace[k], i);
    var h, p := trace[k].hops[i], trace[k].client.nodes[i].value;
    FundingAddsUp(h, p, |p.book|);
    assert p.book[..|p.book|] == p.book;
    PaidPacketsAreAccountedFor(p);
  }

  /** The payer's books in every run, failed builds and expired channels included. */
  lemma PayerLedger(deadlines: seq<Deadlines>, trace: seq<System>, k: nat, i: nat)
    requires Run(deadlines, trace) && k < |trace|
    requires i < |trace[k].client.nodes| && trace[k].client.nodes[i].Some?
    ensures var p := trace[k].client.nodes[i].value;
            && p.price * p.paidPackets == Amounts(p.book) - p.price * Lost(p.log)
            && p.paidPackets >= 0
            && p.paidPackets == Paid(p.log) - Lost(p.log)
  {
    RunInv(deadlines, trace, k);
    assert NodeInv(trace[k], i);
    PaidPacketsAreAccountedFor(trace[k].client.nodes[i].value);
  }

  /** A build that fails at any hop raises neither a count of paid packets nor a signed amount. */
  lemma FailedBuildRaisesNothing(deadlines: seq<Deadlines>, s: System, r: Request, i: nat)
    requires Inv(deadlines, s) && Enabled(deadlines, s, BuildControl(r)) && Build(s.client, r).1.None?
    requires i < |s.client.nodes| && s.client.nodes[i].Some?
    ensures var nodes' := Build(s.client, r).0.nodes;
            && |nodes'| == |s.client.nodes| && nodes'[i].Some?
            && var p, p' := s.client.nodes[i].value, nodes'[i].value;
            && p'.paidPackets <= p.paidPackets
            && |p.book| <= |p'.book|
            && (forall c: nat | c < |p.book| :: p'.book[c].lastAmount == p.book[c].lastAmount)
            && (forall c: nat | |p.book| <= c < |p'.book| :: p'.book[c].lastAmount == 0)
  {
    assert NodeInv(s, i);
    var p := s.client.nodes[i].value;
    PlanHoldsBack(p, DemandAt(s.client, r, i), r.envs[i]);
    assert forall c: nat | c < |p.book| :: SameSigned(p.book[c], PlanAt(s.client, r, i).payer.book[c]);
  }
}
