/** Spending prepaid packets concurrently.

    `Route.Route`, `Out.Listen` and `Out.Send` all draw on an atomic counter in separate steps:
    load it, compare with a floor, decrement it, perhaps compare again, send, perhaps refund.
    The steps of any number of workers interleave freely. */
module PrepaidGate {
  import opened Arith

  const LOSS_ACCEPTABLE_STARTUP: int := 20000
  const LISTENER_THREADS: nat := 8

  /** The value an `AddInt64` leaves. */
  function Wrap64(n: int): int {
    if -TWO_63 <= n < TWO_63 then n else (n + TWO_63) % TWO_64 - TWO_63
  }

  /** `addPrepaid`: a sum of 64 or more bits is stored as the largest int64. */
  function AddPrepaid(at: int, num: int): int {
    if num + at >= TWO_63 || num + at <= -TWO_63 then MAX_INT64 else Wrap64(at + num)
  }

  /** A credit never lowers the counter, however large. */
  lemma AddPrepaidNeverLowers(at: int, num: nat)
    requires -TWO_63 < at < TWO_63
    ensures at <= AddPrepaid(at, num) < TWO_63
    ensures at + num < TWO_63 ==> AddPrepaid(at, num) == at + num
  {
  }

  type Worker(==) = nat

  /** `allowance` packets may be drawn below zero; `recheck` is the second comparison, made by
      `Route.Route` only. */
  datatype Config = Config(workers: set<Worker>, allowance: int, recheck: bool) {
    predicate Proper() {
      |workers| > 0 && 0 <= allowance && allowance + |workers| < TWO_63
    }
  }

  /** `loaded` workers have passed the first comparison, `paid` ones hold a packet to send.
      The last three fields are the audit: packets credited, sent as paid and not refunded,
      and drawn by a worker that then failed the second comparison. */
  datatype State = State(
    counter: int,
    loaded: set<Worker>,
    paid: set<Worker>,
    credited: nat,
    sent: nat,
    wasted: nat)

  datatype Step =
    | Load(w: Worker)
    | Draw(w: Worker)
    | Send(w: Worker)
    | Refund(w: Worker)
    | Credit(num: nat)

  predicate Enabled(c: Config, s: State, step: Step) {
    match step
    case Load(w) => w in c.workers && w !in s.loaded && w !in s.paid && s.counter > -c.allowance
    case Draw(w) => w in s.loaded
    case Send(w) => w in s.paid
    case Refund(w) => w in s.paid
    case Credit(num) => true
  }

  function Next(c: Config, s: State, step: Step): State
    requires Enabled(c, s, step)
  {
    match step
    case Load(w) => s.(loaded := s.loaded + {w})
    case Draw(w) =>
      var left := Wrap64(s.counter - 1);
      var s' := s.(counter := left, loaded := s.loaded - {w});
      if c.recheck && left < -c.allowance then s'.(wasted := s.wasted + 1)
      else s'.(paid := s.paid + {w})
    case Send(w) => s.(paid := s.paid - {w}, sent := s.sent + 1)
    case Refund(w) => s.(paid := s.paid - {w}, counter := Wrap64(s.counter + 1))
    case Credit(num) => s.(counter := AddPrepaid(s.counter, num), credited := s.credited + num)
  }

  const START := State(0, {}, {}, 0, 0, 0)

  /** A run: each state follows from the one before by an enabled step of some worker. */
  ghost predicate Run(c: Config, trace: seq<State>) {
    && |trace| > 0
    && trace[0] == START
    && forall i: nat | i + 1 < |trace| :: Follows(c, trace[i], trace[i + 1])
  }

  ghost predicate Follows(c: Config, s: State, s': State) {
    exists step :: Enabled(c, s, step) && s' == Next(c, s, step)
  }

  /** What the counter would be without overflow: credit less everything drawn and kept. */
  function Balance(s: State): int {
    s.credited - s.sent - |s.paid| - s.wasted
  }

  function Floor(c: Config): int {
    -c.allowance - (|c.workers| - 1)
  }

  /** The counter never shows more than the balance, and the balance leaves room for every draw
      already decided.  So does the counter, unless it fell behind by a whole turn of int64. */
  predicate Inv(c: Config, s: State) {
    && s.loaded <= c.workers && s.paid <= c.workers && s.loaded !! s.paid
    && -TWO_63 <= s.counter < TWO_63
    && s.counter <= Balance(s)
    && Balance(s) - |s.loaded| >= Floor(c)
    && (Balance(s) - s.counter >= TWO_64 || s.counter - |s.loaded| >= Floor(c))
    && (c.recheck ==> s.sent + |s.paid| <= s.credited + c.allowance)
  }

  lemma DrawKeepsInv(c: Config, s: State, w: Worker)
    requires c.Proper() && Inv(c, s) && Enabled(c, s, Draw(w))
    ensures Inv(c, Next(c, s, Draw(w)))
  {
    SubsetSize(s.loaded, c.workers);
    assert Wrap64(s.counter - 1) == if s.counter == -TWO_63 then MAX_INT64 else s.counter - 1;
  }

  lemma RefundKeepsInv(c: Config, s: State, w: Worker)
    requires c.Proper() && Inv(c, s) && Enabled(c, s, Refund(w))
    ensures Inv(c, Next(c, s, Refund(w)))
  {
    assert Wrap64(s.counter + 1) == if s.counter == MAX_INT64 then -TWO_63 else s.counter + 1;
  }

  lemma CreditKeepsInv(c: Config, s: State, num: nat)
    requires c.Proper() && Inv(c, s)
    ensures Inv(c, Next(c, s, Credit(num)))
  {
    SubsetSize(s.loaded, c.workers);
    assert AddPrepaid(s.counter, num) == MAX_INT64 || AddPrepaid(s.counter, num) == s.counter + num;
  }

  /** Every step keeps it: saturating credits and wrapping additions included. */
  lemma StepKeepsInv(c: Config, s: State, step: Step)
    requires c.Proper() && Inv(c, s) && Enabled(c, s, step)
    ensures Inv(c, Next(c, s, step))
  {
    match step
    case Load(w) => SubsetSize(s.loaded + {w}, c.workers);
    case Draw(w) => DrawKeepsInv(c, s, w);
    case Send(w) =>
    case Refund(w) => RefundKeepsInv(c, s, w);
    case Credit(num) => CreditKeepsInv(c, s, num);
  }

  lemma {:induction false} RunKeepsInv(c: Config, trace: seq<State>, i: nat)
    requires c.Proper() && Run(c, trace) && i < |trace|
    ensures Inv(c, trace[i])
    decreases i
  {
    if i > 0 {
      RunKeepsInv(c, trace, i - 1);
      var step := StepTo(c, trace, i);
      StepKeepsInv(c, trace[i - 1], step);
    }
  }

  lemma StepTo(c: Config, trace: seq<State>, i: nat) returns (step: Step)
    requires Run(c, trace) && 0 < i < |trace|
    ensures Enabled(c, trace[i - 1], step) && trace[i] == Next(c, trace[i - 1], step)
  {
    assert Follows(c, trace[i - 1], trace[i - 1 + 1]);
    step :| Enabled(c, trace[i - 1], step) && trace[i] == Next(c, trace[i - 1], step);
  }

  /** In every interleaving and however much is credited: with the second comparison, packets
      sent as paid never exceed the credit plus the allowance; without it, by at most one more
      for each further worker. */
  lemma CreditBound(c: Config, trace: seq<State>, i: nat)
    requires c.Proper() && Run(c, trace) && i < |trace|
    ensures trace[i].sent <= trace[i].credited + c.allowance + (if c.recheck then 0 else |c.workers| - 1)
  {
    RunKeepsInv(c, trace, i);
  }

  /** N interleaved `Route.Route` calls. */
  lemma RouteOverdraft(workers: set<Worker>, trace: seq<State>, i: nat)
    requires 0 < |workers| < TWO_63 - 20000 && i < |trace|
    requires Run(Config(workers, LOSS_ACCEPTABLE_STARTUP, true), trace)
    ensures trace[i].sent <= trace[i].credited + 20000
  {
    CreditBound(Config(workers, LOSS_ACCEPTABLE_STARTUP, true), trace, i);
  }

  /** The eight listener workers of one out port. */
  lemma ListenOverdraft(workers: set<Worker>, trace: seq<State>, i: nat)
    requires |workers| == LISTENER_THREADS && i < |trace|
    requires Run(Config(workers, LOSS_ACCEPTABLE_STARTUP, false), trace)
    ensures trace[i].sent <= trace[i].credited + 20007
  {
    CreditBound(Config(workers, LOSS_ACCEPTABLE_STARTUP, false), trace, i);
  }

  /** `Out.Send` draws only above zero: its overdraft is one packet per further sender. */
  lemma SendOverdraft(workers: set<Worker>, trace: seq<State>, i: nat)
    requires 0 < |workers| < TWO_63 && i < |trace|
    requires Run(Config(workers, 0, false), trace)
    ensures trace[i].sent <= trace[i].credited + (|workers| - 1)
  {
    CreditBound(Config(workers, 0, false), trace, i);
  }

  // ---------------------------------------------------------------------------------------
  // The bound is reached
  // ---------------------------------------------------------------------------------------

  ghost predicate Reachable(c: Config, s: State) {
    exists trace :: Run(c, trace) && trace[|trace| - 1] == s
  }

  lemma OneMoreStep(c: Config, s: State, step: Step)
    requires Reachable(c, s) && Enabled(c, s, step)
    ensures Reachable(c, Next(c, s, step))
  {
    var trace :| Run(c, trace) && trace[|trace| - 1] == s;
    var longer := trace + [Next(c, s, step)];
    forall i: nat | i + 1 < |longer|
      ensures Follows(c, longer[i], longer[i + 1])
    {
      assert i + 1 < |trace| ==> Follows(c, trace[i], trace[i + 1]);
    }
    assert Run(c, longer);
  }

  /** A worker that finds the counter above the floor draws and sends one packet. */
  lemma SendsOne(c: Config, s: State, w: Worker)
    requires c.Proper() && Reachable(c, s) && w in c.workers && s.loaded == {} && s.paid == {}
    requires -c.allowance < s.counter < TWO_63
    ensures Reachable(c, s.(counter := s.counter - 1, sent := s.sent + 1))
  {
    OneMoreStep(c, s, Load(w));
    var s1 := Next(c, s, Load(w));
    OneMoreStep(c, s1, Draw(w));
    var s2 := Next(c, s1, Draw(w));
    assert s2 == s.(counter := s.counter - 1, paid := {w}, loaded := {});
    OneMoreStep(c, s2, Send(w));
    assert s2.paid - {w} == {};
  }

  lemma {:induction false} SendsMany(c: Config, n: nat, k: nat)
    requires c.Proper() && n < TWO_63 && k <= n + c.allowance
    ensures Reachable(c, State(n - k, {}, {}, n, k, 0))
  {
    var w :| w in c.workers;
    if k == 0 {
      assert Run(c, [START]) && [START][0] == START;
      OneMoreStep(c, START, Credit(n));
    } else {
      SendsMany(c, n, k - 1);
      SendsOne(c, State(n - (k - 1), {}, {}, n, k - 1, 0), w);
    }
  }

  lemma {:induction false} AllLoad(c: Config, s: State, ws: set<Worker>)
    requires Reachable(c, s) && s.loaded == {} && s.paid == {} && s.counter > -c.allowance && ws <= c.workers
    ensures Reachable(c, s.(loaded := ws))
    decreases |ws|
  {
    if ws == {} {
      assert s.(loaded := ws) == s;
    } else {
      var w :| w in ws;
      AllLoad(c, s, ws - {w});
      OneMoreStep(c, s.(loaded := ws - {w}), Load(w));
      assert ws - {w} + {w} == ws;
    }
  }

  lemma {:induction false} AllSend(c: Config, s: State, ws: set<Worker>)
    requires c.Proper() && !c.recheck && ws <= c.workers && Reachable(c, s) && s.loaded == ws && s.paid == {}
    requires -TWO_63 + |ws| <= s.counter < TWO_63
    ensures Reachable(c, s.(counter := s.counter - |ws|, loaded := {}, sent := s.sent + |ws|))
    decreases |ws|
  {
    if ws == {} {
      assert s.(counter := s.counter - |ws|, loaded := {}, sent := s.sent + |ws|) == s;
    } else {
      var w :| w in ws;
      OneMoreStep(c, s, Draw(w));
      var s1 := Next(c, s, Draw(w));
      assert s1 == s.(counter := s.counter - 1, loaded := ws - {w}, paid := {w});
      OneMoreStep(c, s1, Send(w));
      var s2 := Next(c, s1, Send(w));
      assert s2 == s.(counter := s.counter - 1, loaded := ws - {w}, sent := s.sent + 1) by {
        assert s1.paid - {w} == {};
      }
      AllSend(c, s2, ws - {w});
    }
  }

  /** The bound cannot be lowered: whatever was credited, if anything may be drawn at all there is an
      interleaving that sends as much beyond it as the bound allows. */
  lemma OverdraftIsReached(c: Config, n: nat) returns (s: State)
    requires c.Proper() && n + c.allowance > 0 && n < TWO_63
    ensures Reachable(c, s) && s.credited == n
    ensures s.sent == n + c.allowance + (if c.recheck then 0 else |c.workers| - 1)
  {
    var before := n + c.allowance - 1;
    if c.recheck {
      SendsMany(c, n, before + 1);
      return State(n - (before + 1), {}, {}, n, before + 1, 0);
    }
    SendsMany(c, n, before);
    var s0 := State(n - before, {}, {}, n, before, 0);
    AllLoad(c, s0, c.workers);
    AllSend(c, s0.(loaded := c.workers), c.workers);
    s := s0.(counter := s0.counter - |c.workers|, loaded := {}, sent := s0.sent + |c.workers|);
  }

  // ---------------------------------------------------------------------------------------
  // The counter itself
  // ---------------------------------------------------------------------------------------

  lemma StepIsExact(c: Config, s: State, step: Step)
    requires c.Proper() && Inv(c, s) && Enabled(c, s, step)
    requires s.counter == Balance(s) && Next(c, s, step).credited < TWO_63
    ensures Next(c, s, step).counter == Balance(Next(c, s, step))
  {
    match step
    case Draw(w) =>
      SubsetSize(s.loaded, c.workers);
    case _ =>
  }

  /** While fewer than 2^63 packets are credited the counter is the balance, so it never falls
      further below the allowance than one packet for each further worker. */
  lemma {:induction false} CounterIsBalance(c: Config, trace: seq<State>, i: nat)
    requires c.Proper() && Run(c, trace) && i < |trace| && trace[i].credited < TWO_63
    ensures trace[i].counter == Balance(trace[i]) && trace[i].counter >= Floor(c)
    decreases i
  {
    RunKeepsInv(c, trace, i);
    if i > 0 {
      var step := StepTo(c, trace, i);
      CounterIsBalance(c, trace, i - 1);
      RunKeepsInv(c, trace, i - 1);
      StepIsExact(c, trace[i - 1], step);
    }
  }

  ghost predicate KeepsFloor(c: Config, bound: nat) {
    forall trace: seq<State>, i: nat | Run(c, trace) && i < |trace| && trace[i].credited < bound ::
      trace[i].counter >= Floor(c)
  }

  /** Credit up to the largest int64 while one packet is out, refund it, and the counter wraps to
      the smallest. */
  lemma RefundWraps(c: Config) returns (trace: seq<State>)
    requires c.Proper()
    ensures Run(c, trace) && |trace| == 6
    ensures trace[5].credited == TWO_63 && trace[5].counter == -TWO_63
  {
    var w :| w in c.workers;
    var steps := [Credit(1), Load(w), Draw(w), Credit(MAX_INT64), Refund(w)];
    var s1 := Next(c, START, steps[0]);
    var s2 := Next(c, s1, steps[1]);
    var s3 := Next(c, s2, steps[2]);
    var s4 := Next(c, s3, steps[3]);
    var s5 := Next(c, s4, steps[4]);
    trace := [START, s1, s2, s3, s4, s5];
    forall i: nat | i + 1 < |trace|
      ensures Follows(c, trace[i], trace[i + 1])
    {
      assert Enabled(c, trace[i], steps[i]) && trace[i + 1] == Next(c, trace[i], steps[i]);
    }
  }

  /** Exactly that range: the floor holds of every run that credits fewer than `bound` packets if
      and only if `bound` is at most 2^63. */
  lemma FloorExactly(c: Config, bound: nat)
    requires c.Proper()
    ensures KeepsFloor(c, bound) <==> bound <= TWO_63
  {
    if bound <= TWO_63 {
      forall trace: seq<State>, i: nat | Run(c, trace) && i < |trace| && trace[i].credited < bound
        ensures trace[i].counter >= Floor(c)
      {
        CounterIsBalance(c, trace, i);
      }
    } else {
      var trace := RefundWraps(c);
      assert trace[5].credited < bound && trace[5].counter < Floor(c);
    }
  }

  // ---------------------------------------------------------------------------------------
  // One call at a time
  // ---------------------------------------------------------------------------------------

  datatype Outcome = Routed(paid: bool) | RateLimited | SendFailed(wasPaid: bool)

  class Route {
    var pricePerPacket: nat
    var paymentReceived: bool
    var prepaidPackets: int
    var packetsRouted: nat

    constructor (price: nat)
      ensures pricePerPacket == price && !paymentReceived && prepaidPackets == 0 && packetsRouted == 0
    {
      pricePerPacket, paymentReceived, prepaidPackets, packetsRouted := price, false, 0, 0;
    }

    /** `freeAllowed` is the leaky bucket's answer, `sendOk` the peer connection's.  Run alone,
        a call spends exactly one prepaid packet when it routes as paid and none otherwise:
        the refund makes a failed send free, and no packet is drawn in vain. */
    method Forward(freeAllowed: bool, sendOk: bool) returns (r: Outcome)
      requires -TWO_63 < prepaidPackets < TWO_63
      modifies this`prepaidPackets, this`packetsRouted
      ensures var pays := pricePerPacket > 0 && paymentReceived && old(prepaidPackets) > -LOSS_ACCEPTABLE_STARTUP;
              r == if pricePerPacket > 0 && !pays && !freeAllowed then RateLimited
                   else if sendOk then Routed(pays) else SendFailed(pays)
      ensures prepaidPackets == old(prepaidPackets) - (if r == Routed(true) then 1 else 0)
      ensures packetsRouted == old(packetsRouted) + (if r.Routed? then 1 else 0)
    {
      var paid := false;
      if pricePerPacket > 0 {
        if paymentReceived {
          var maxLoss := -LOSS_ACCEPTABLE_STARTUP;
          if prepaidPackets > maxLoss {
            prepaidPackets := Wrap64(prepaidPackets - 1);
            paid := prepaidPackets >= maxLoss;
          }
        }
        if !paid && !freeAllowed {
          return RateLimited;
        }
      }
      if !sendOk {
        if paid {
          prepaidPackets := Wrap64(prepaidPackets + 1);
        }
        return SendFailed(paid);
      }
      packetsRouted := packetsRouted + 1;
      return Routed(paid);
    }
  }
}
