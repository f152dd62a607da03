/** The client's own gate on sending: `WriteTo` compares what was paid with what was consumed,
    in separate steps that interleave with control-message builds and with other writers. */
module SendGate {
  import opened ControlMessage
  import opened ControlBuild
  import PaymentDecisions
  import Arith

  type Writer(==) = nat

  /** `loaded` writers have read the paid count, `passed` ones have compared and will count
      their packet. */
  datatype State = State(client: Client, loaded: map<Writer, int>, passed: set<Writer>)

  datatype Step =
    | BuildControl(r: Request)
    | LoadPaid(w: Writer)
    | Compare(w: Writer)
    | Count(w: Writer)
    | Receive(packets: nat)
    | Acknowledge(received: nat, paidReceived: nat)

  ghost predicate Enabled(writers: set<Writer>, s: State, step: Step) {
    match step
    case BuildControl(r) =>
      && Fitting(s.client, r)
      && forall i: nat | i < |s.client.nodes| && s.client.nodes[i].Some? ::
           EnvOk(s.client.nodes[i].value, s.client.target, r.envs[i])
    case LoadPaid(w) => w in writers && w !in s.loaded && w !in s.passed
    case Compare(w) => w in s.loaded
    case Count(w) => w in s.passed
    case Receive(_) => true
    case Acknowledge(_, _) => true
  }

  ghost function Next(writers: set<Writer>, s: State, step: Step): State
    requires Enabled(writers, s, step)
  {
    match step
    case BuildControl(r) => s.(client := Build(s.client, r).0)
    case LoadPaid(w) => s.(loaded := s.loaded[w := s.client.minPaidOut])
    case Compare(w) =>
      var s' := s.(loaded := s.loaded - {w});
      if s.loaded[w] < s.client.consumedOut then s' else s'.(passed := s.passed + {w})
    case Count(w) =>
      s.(passed := s.passed - {w}, client := s.client.(consumedOut := s.client.consumedOut + 1))
    case Receive(packets) => s.(client := s.client.(consumedIn := s.client.consumedIn + packets))
    case Acknowledge(received, paidReceived) =>
      s.(client := s.client.(received := received, paidReceived := paidReceived))
  }

  predicate Init(s: State) {
    && Shaped(s.client)
    && (forall i: nat | i < |s.client.nodes| && s.client.nodes[i].Some? :: FreshPayer(s.client.nodes[i].value))
    && s.client.minPaidOut == 0 && s.client.consumedOut == 0
    && s.loaded == map[] && s.passed == {}
  }

  ghost predicate Follows(writers: set<Writer>, s: State, s': State) {
    exists step :: Enabled(writers, s, step) && s' == Next(writers, s, step)
  }

  ghost predicate Run(writers: set<Writer>, trace: seq<State>) {
    && |trace| > 0 && Init(trace[0])
    && forall k: nat | k + 1 < |trace| :: Follows(writers, trace[k], trace[k + 1])
  }

  /** Every count a writer may rely on was covered by payments to the outbound hop. */
  predicate HopInv(s: State, writers: set<Writer>, i: nat)
    requires i < |s.client.nodes|
  {
    s.client.nodes[i].Some? ==>
      var p := s.client.nodes[i].value;
      && PayerInv(p)
      && (i < s.client.chainTo ==>
            && s.client.minPaidOut <= Paid(p.log)
            && (forall w | w in s.loaded :: s.loaded[w] <= Paid(p.log))
            && s.client.consumedOut + |s.passed| <= Paid(p.log) + |writers|)
  }

  predicate Inv(s: State, writers: set<Writer>) {
    && Shaped(s.client)
    && s.passed <= writers && s.loaded.Keys <= writers && s.passed !! s.loaded.Keys
    && forall i: nat | i < |s.client.nodes| :: HopInv(s, writers, i)
  }

  /** A build touches no writer, moves payments forward, and publishes a count they cover. */
  ghost predicate Covers(c: Client, c': Client, i: nat) {
    && i < |c.nodes| == |c'.nodes| && c'.nodes[i].Some? == c.nodes[i].Some?
    && c'.chainTo == c.chainTo && c'.consumedOut == c.consumedOut
    && (c.nodes[i].Some? ==>
          && PayerInv(c'.nodes[i].value)
          && Paid(c.nodes[i].value.log) <= Paid(c'.nodes[i].value.log)
          && (i < c.chainTo && c.minPaidOut <= Paid(c.nodes[i].value.log) ==>
                c'.minPaidOut <= Paid(c'.nodes[i].value.log)))
  }

  lemma BuildCovers(c: Client, r: Request, i: nat)
    requires Fitting(c, r) && i < |c.nodes|
    requires c.nodes[i].Some? ==> PayerInv(c.nodes[i].value) && EnvOk(c.nodes[i].value, c.target, r.envs[i])
    ensures Covers(c, Build(c, r).0, i) && Shaped(Build(c, r).0)
  {
    var (c', msg) := Build(c, r);
    BuildAt(c, r, i);
    if c.nodes[i].Some? {
      PaidGrows(c.nodes[i].value, DemandAt(c, r, i), r.envs[i], c.controlSeqno + 1);
      if i < c.chainTo && msg.Some? {
        MinPaidIsLeast(c'.nodes, 0, c.chainTo, i);
      }
    }
  }

  lemma CoveredKeepsHopInv(s: State, c': Client, writers: set<Writer>, i: nat)
    requires i < |s.client.nodes| && HopInv(s, writers, i) && Covers(s.client, c', i)
    ensures HopInv(s.(client := c'), writers, i)
  {
  }

  lemma BuildKeepsSize(c: Client, r: Request)
    requires Fitting(c, r)
    ensures |Build(c, r).0.nodes| == |c.nodes| && Shaped(Build(c, r).0)
  {
  }

  lemma PaidGrows(p: Payer, d: Demand, env: NodeEnv, seqno: nat)
    requires PayerInv(p) && EnvOk(p, d.target, env)
    ensures var decided, committed := PlanHop(p, d, env).payer, Committed(PlanHop(p, d, env), seqno);
            && PayerInv(decided) && Paid(decided.log) == Paid(p.log)
            && PayerInv(committed) && Paid(p.log) <= Paid(committed.log)
            && committed.paidPackets <= Paid(committed.log)
  {
    PlanHoldsBack(p, d, env);
    CommitAdvances(p, d, env, seqno);
    LostIsPartOfPaid(Committed(PlanHop(p, d, env), seqno).log);
  }

  lemma StepKeepsInv(writers: set<Writer>, s: State, step: Step)
    requires Inv(s, writers) && Enabled(writers, s, step)
    ensures Inv(Next(writers, s, step), writers)
  {
    var s' := Next(writers, s, step);
    if step.BuildControl? {
      BuildKeepsSize(s.client, step.r);
    }
    if step.Compare? {
      Arith.SubsetSize(s.passed + {step.w}, writers);
    }
    forall i: nat | i < |s'.client.nodes|
      ensures HopInv(s', writers, i)
    {
      if step.BuildControl? {
        assert HopInv(s, writers, i);
        BuildCovers(s.client, step.r, i);
        CoveredKeepsHopInv(s, s'.client, writers, i);
      } else {
        assert HopInv(s, writers, i);
      }
    }
  }

  lemma FollowsKeepsInv(writers: set<Writer>, s: State, s': State)
    requires Inv(s, writers) && Follows(writers, s, s')
    ensures Inv(s', writers)
  {
    var step :| Enabled(writers, s, step) && s' == Next(writers, s, step);
    StepKeepsInv(writers, s, step);
  }

  lemma {:induction false} RunInv(writers: set<Writer>, trace: seq<State>, k: nat)
    requires Run(writers, trace) && k < |trace|
    ensures Inv(trace[k], writers)
  {
    if k > 0 {
      var j := k - 1;
      RunInv(writers, trace, j);
      assert Follows(writers, trace[j], trace[j + 1]);
      FollowsKeepsInv(writers, trace[j], trace[j + 1]);
    } else {
      forall i: nat | i < |trace[0].client.nodes|
        ensures HopInv(trace[0], writers, i)
      {
        if trace[0].client.nodes[i].Some? {
          assert FreshPayer(trace[0].client.nodes[i].value);
        }
      }
    }
  }

  /** In every interleaving of N writers and any builds, successful or failed: the packets
      consumed outbound exceed what an outbound hop was paid, written-off payments included, by
      at most N. */
  lemma ConsumedIsPaidFor(writers: set<Writer>, trace: seq<State>, k: nat, i: nat)
    requires Run(writers, trace) && k < |trace|
    requires i < trace[k].client.chainTo && i < |trace[k].client.nodes| && trace[k].client.nodes[i].Some?
    ensures var p := trace[k].client.nodes[i].value;
            trace[k].client.consumedOut <= p.paidPackets + Lost(p.log) + |writers|
  {
    RunInv(writers, trace, k);
    assert HopInv(trace[k], writers, i);
  }

  /** One writer, nothing written off: never more than one packet ahead. */
  lemma OneWriterOneAhead(w: Writer, trace: seq<State>, k: nat, i: nat)
    requires Run({w}, trace) && k < |trace|
    requires i < trace[k].client.chainTo && i < |trace[k].client.nodes| && trace[k].client.nodes[i].Some?
    requires forall e | e in trace[k].client.nodes[i].value.log :: !e.writtenOff
    ensures trace[k].client.consumedOut <= trace[k].client.nodes[i].value.paidPackets + 1
  {
    ConsumedIsPaidFor({w}, trace, k, i);
    NothingLost(trace[k].client.nodes[i].value.log);
  }

  lemma {:induction false} NothingLost(log: seq<Payment>)
    requires forall e | e in log :: !e.writtenOff
    ensures Lost(log) == 0
  {
    if log != [] {
      assert log[|log| - 1] in log;
      NothingLost(log[..|log| - 1]);
    }
  }

  /** That one packet is reached: before anything is paid, one write passes. */
  lemma OneAheadIsReached(w: Writer, s: State)
    requires Init(s)
    ensures var trace := [s, s.(loaded := map[w := 0]), s.(passed := {w}), s.(client := s.client.(consumedOut := 1))];
            Run({w}, trace) && trace[3].client.consumedOut == 1
  {
    var s1, s2, s3 := s.(loaded := map[w := 0]), s.(passed := {w}), s.(client := s.client.(consumedOut := 1));
    assert Enabled({w}, s, LoadPaid(w)) && s1 == Next({w}, s, LoadPaid(w));
    assert Follows({w}, s, s1);
    assert s2.loaded == s1.loaded - {w};
    assert Enabled({w}, s1, Compare(w)) && s2 == Next({w}, s1, Compare(w));
    assert Follows({w}, s1, s2);
    assert s3.passed == s2.passed - {w};
    assert Enabled({w}, s2, Count(w)) && s3 == Next({w}, s2, Count(w));
    assert Follows({w}, s2, s3);
  }

  // ---------------------------------------------------------------------------------------
  // What is paid can be sent
  // ---------------------------------------------------------------------------------------

  /** A writer passes if and only if the count it loaded is at least what was consumed. */
  lemma PassesExactly(writers: set<Writer>, s: State, w: Writer)
    requires Enabled(writers, s, Compare(w)) && w !in s.passed
    ensures var s' := Next(writers, s, Compare(w));
            && (w in s'.passed <==> s.loaded[w] >= s.client.consumedOut)
            && s'.client == s.client && s'.passed - {w} == s.passed && s'.loaded == s.loaded - {w}
  {
  }

  /** One write on its own: load, compare, and count if it passed. */
  ghost function Write(s: State, w: Writer): State
    requires w !in s.loaded && w !in s.passed
  {
    var s2 := Next({w}, Next({w}, s, LoadPaid(w)), Compare(w));
    if w in s2.passed then Next({w}, s2, Count(w)) else s2
  }

  lemma WriteIs(s: State, w: Writer)
    requires w !in s.loaded && w !in s.passed
    ensures var c := s.client;
            Write(s, w) == s.(client := c.(consumedOut := c.consumedOut + if c.minPaidOut >= c.consumedOut then 1 else 0))
  {
    var s1 := Next({w}, s, LoadPaid(w));
    PassesExactly({w}, s1, w);
    assert s1.loaded - {w} == s.loaded;
  }

  ghost function Writes(s: State, w: Writer, n: nat): (r: State)
    requires w !in s.loaded && w !in s.passed
    ensures w !in r.loaded && w !in r.passed
  {
    if n == 0 then s
    else
      var s' := Writes(s, w, n - 1);
      WriteIs(s', w);
      Write(s', w)
  }

  /** Of any number of writes, one after the other, exactly as many pass as reach one beyond the
      published count. */
  lemma {:induction false} WritesPassExactly(s: State, w: Writer, n: nat)
    requires w !in s.loaded && w !in s.passed
    ensures var c := s.client;
            var room := if c.minPaidOut >= c.consumedOut then c.minPaidOut - c.consumedOut + 1 else 0;
            Writes(s, w, n) == s.(client := c.(consumedOut := c.consumedOut + if n <= room then n else room))
  {
    if n > 0 {
      WritesPassExactly(s, w, n - 1);
      WriteIs(Writes(s, w, n - 1), w);
    }
  }

  /** After a build that left every outbound hop paid for n packets more than were consumed, the next
      n packets pass. */
  lemma PaidPacketsPass(s: State, r: Request, w: Writer, n: nat)
    requires w !in s.loaded && w !in s.passed && Fitting(s.client, r) && Build(s.client, r).1.Some?
    requires var c' := Build(s.client, r).0;
             forall i: nat | i < s.client.chainTo && i < |c'.nodes| && c'.nodes[i].Some? ::
               c'.nodes[i].value.paidPackets >= s.client.consumedOut + n
    requires s.client.consumedOut + n <= Arith.MAX_INT64
    ensures var s' := s.(client := Build(s.client, r).0);
            Writes(s', w, n).client.consumedOut == s.client.consumedOut + n
  {
    PaymentDecisions.PublishedIsLeast(s.client, r);
    BuildAt(s.client, r, 0);
    WritesPassExactly(s.(client := Build(s.client, r).0), w, n);
  }
}
