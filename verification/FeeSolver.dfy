/** The fee and capacity solver of `buildTunnelPaymentsChain`: a bounded fixed-point iteration
    over per-hop minimum fee, percent fee and capacity limit. */
module FeeSolver {
  import opened Arith

  /** `percentOf` is the hop's percent fee on the amount passing through it, after rounding and
      truncation.  The safety results hold for any function, the order results for any
      monotone one, whatever the precision of the floating-point product. */
  datatype Section = Section(minFee: int, percentOf: int -> int, maxCapacity: int)

  ghost predicate Monotone(f: int -> int) {
    forall a, b :: a <= b ==> f(a) <= f(b)
  }

  ghost predicate MonotoneFees(hops: seq<Section>) {
    forall i | 0 <= i < |hops| :: Monotone(hops[i].percentOf)
  }

  function FeeOn(hop: Section, through: int): int {
    var candidate := hop.percentOf(through);
    if candidate > hop.minFee then candidate else hop.minFee
  }

  /** Fees of the hops from i on, when x is delivered at the end. */
  function FeesFrom(hops: seq<Section>, i: nat, x: int): int
    requires i <= |hops|
    decreases |hops| - i
  {
    if i == |hops| then 0
    else var rest := FeesFrom(hops, i + 1, x); FeeOn(hops[i], x + rest) + rest
  }

  /** y plus the fees due downstream of hop i when x is delivered fits hop i. */
  predicate Fits(hops: seq<Section>, i: nat, x: int, y: int)
    requires i < |hops|
  {
    y + FeesFrom(hops, i + 1, x) <= hops[i].maxCapacity
  }

  /** y fits every hop at the fees it causes itself. */
  predicate Feasible(hops: seq<Section>, want: int, y: int) {
    && y <= want
    && forall i: nat | i < |hops| :: Fits(hops, i, y, y)
  }

  function AllowedBy(hops: seq<Section>, want: int, n: nat, x: int): int
    requires n <= |hops|
  {
    if n == 0 then want
    else
      var before, allowed := AllowedBy(hops, want, n - 1, x), hops[n - 1].maxCapacity - FeesFrom(hops, n, x);
      if allowed < before then allowed else before
  }

  /** One round: the capacity that fits if fees stay what they are at x. */
  function Step(hops: seq<Section>, want: int, x: int): int {
    AllowedBy(hops, want, |hops|, x)
  }

  function Iterate(hops: seq<Section>, want: int, k: nat): int {
    if k == 0 then want else Step(hops, want, Iterate(hops, want, k - 1))
  }

  // ---------------------------------------------------------------------------------------
  // The solver
  // ---------------------------------------------------------------------------------------

  const MAX_ITER: nat := 10

  datatype Part = Part(capacity: int, fee: int, deadline: int)

  datatype Result = EmptyTunnel | CannotCoverFees | Chain(parts: seq<Part>)

  /** What the solver returns for capacity x with fees taken at `at`. */
  function ChainFor(hops: seq<Section>, at: int, x: int, base: int, hopTtl: int): (r: seq<Part>)
    ensures |r| == |hops|
  {
    seq(|hops|, i requires 0 <= i < |hops| =>
      Part(x + FeesFrom(hops, i + 1, at), FeesFrom(hops, i, at), base + (|hops| - i) * hopTtl))
  }

  /** What the solver returns when the tenth iterate is not negative. */
  function Solved(hops: seq<Section>, want: int, base: int, hopTtl: int): (parts: seq<Part>)
    ensures |parts| == |hops|
  {
    ChainFor(hops, Iterate(hops, want, MAX_ITER - 1), Iterate(hops, want, MAX_ITER), base, hopTtl)
  }

  /** The early exit changes nothing: the result is always that of ten full rounds, the fees
      being those of the ninth iterate. */
  method BuildTunnelPaymentsChain(hops: seq<Section>, want: int, base: int, hopTtl: int) returns (r: Result)
    ensures hops == [] <==> r == EmptyTunnel
    ensures hops != [] ==>
              r == if Iterate(hops, want, MAX_ITER) < 0 then CannotCoverFees else Chain(Solved(hops, want, base, hopTtl))
  {
    var n := |hops|;
    if n == 0 {
      return EmptyTunnel;
    }
    var cumulativeFees := new int[n + 1](_ => 0);
    var x := want;
    var iter := 0;
    ghost var at := want;
    while iter < MAX_ITER
      invariant 0 <= iter <= MAX_ITER
      invariant x == Iterate(hops, want, iter)
      invariant iter > 0 ==> at == Iterate(hops, want, iter - 1)
      invariant iter > 0 ==> forall i {:trigger cumulativeFees[i]} | 0 <= i <= n :: cumulativeFees[i] == FeesFrom(hops, i, at)
      decreases MAX_ITER - iter
    {
      at := x;
      ComputeFees(hops, x, cumulativeFees);
      var newX := LimitCapacity(hops, want, x, cumulativeFees);
      if newX == x {
        FixedPointStays(hops, want, iter, MAX_ITER - 1);
        FixedPointStays(hops, want, iter, MAX_ITER);
        break;
      }
      x := newX;
      iter := iter + 1;
    }
    if x < 0 {
      return CannotCoverFees;
    }
    var parts := AssembleChain(hops, at, x, base, hopTtl, cumulativeFees);
    r := Chain(parts);
  }

  /** The descending loop of one round: every hop's fee on what passes through it. */
  method ComputeFees(hops: seq<Section>, x: int, cumulativeFees: array<int>)
    requires cumulativeFees.Length == |hops| + 1
    modifies cumulativeFees
    ensures forall i {:trigger cumulativeFees[i]} | 0 <= i <= |hops| :: cumulativeFees[i] == FeesFrom(hops, i, x)
  {
    var n := |hops|;
    cumulativeFees[n] := 0;
    for i := n downto 0
      invariant forall j {:trigger cumulativeFees[j]} | i <= j <= n :: cumulativeFees[j] == FeesFrom(hops, j, x)
    {
      var passing := x + cumulativeFees[i + 1];
      var feeI := hops[i].minFee;
      var percentFee := hops[i].percentOf(passing);
      if percentFee > feeI {
        feeI := percentFee;
      }
      cumulativeFees[i] := feeI + cumulativeFees[i + 1];
    }
  }

  /** The ascending loop: the requested capacity cut down to every hop's limit. */
  method LimitCapacity(hops: seq<Section>, want: int, x: int, cumulativeFees: array<int>) returns (newX: int)
    requires cumulativeFees.Length == |hops| + 1
    requires forall i {:trigger cumulativeFees[i]} | 0 <= i <= |hops| :: cumulativeFees[i] == FeesFrom(hops, i, x)
    ensures newX == Step(hops, want, x)
  {
    newX := want;
    for i := 0 to |hops|
      invariant newX == AllowedBy(hops, want, i, x)
    {
      var allowed := hops[i].maxCapacity - cumulativeFees[i + 1];
      if allowed < newX {
        newX := allowed;
      }
    }
  }

  method AssembleChain(hops: seq<Section>, ghost at: int, x: int, base: int, hopTtl: int, cumulativeFees: array<int>)
    returns (parts: seq<Part>)
    requires cumulativeFees.Length == |hops| + 1
    requires forall i {:trigger cumulativeFees[i]} | 0 <= i <= |hops| :: cumulativeFees[i] == FeesFrom(hops, i, at)
    ensures parts == ChainFor(hops, at, x, base, hopTtl)
  {
    parts := [];
    for i := 0 to |hops|
      invariant parts == ChainFor(hops, at, x, base, hopTtl)[..i]
    {
      parts := parts + [Part(x + cumulativeFees[i + 1], cumulativeFees[i], base + (|hops| - i) * hopTtl)];
    }
  }

  lemma {:induction false} FixedPointStays(hops: seq<Section>, want: int, k: nat, m: nat)
    requires k <= m && Step(hops, want, Iterate(hops, want, k)) == Iterate(hops, want, k)
    ensures Iterate(hops, want, m) == Iterate(hops, want, k)
  {
    if k < m {
      FixedPointStays(hops, want, k, m - 1);
    }
  }

  // ---------------------------------------------------------------------------------------
  // Safety, for every input
  // ---------------------------------------------------------------------------------------

  lemma {:induction false} AllowedIsBelow(hops: seq<Section>, want: int, n: nat, x: int)
    requires n <= |hops|
    ensures AllowedBy(hops, want, n, x) <= want
    ensures forall i: nat | i < n :: Fits(hops, i, x, AllowedBy(hops, want, n, x))
  {
    if n > 0 {
      AllowedIsBelow(hops, want, n - 1, x);
      forall i: nat | i < n
        ensures Fits(hops, i, x, AllowedBy(hops, want, n, x))
      {
        assert i < n - 1 ==> Fits(hops, i, x, AllowedBy(hops, want, n - 1, x));
      }
    }
  }

  /** `Step` is the largest value within `want` and every limit, at the fees of x. */
  lemma {:induction false} AllowedIsLargest(hops: seq<Section>, want: int, n: nat, x: int, y: int)
    requires n <= |hops| && y <= want
    requires forall i: nat | i < n :: Fits(hops, i, x, y)
    ensures y <= AllowedBy(hops, want, n, x)
  {
    if n > 0 {
      AllowedIsLargest(hops, want, n - 1, x, y);
      assert Fits(hops, n - 1, x, y);
    }
  }

  lemma ChainDeadlines(hops: seq<Section>, at: int, x: int, base: int, hopTtl: int, i: nat)
    requires i < |hops|
    ensures var parts := ChainFor(hops, at, x, base, hopTtl);
            && (i > 0 ==> parts[i - 1].deadline == parts[i].deadline + hopTtl)
            && parts[|hops| - 1].deadline == base + hopTtl
  {
    assert (|hops| - i) * hopTtl + hopTtl == (|hops| - (i - 1)) * hopTtl;
  }

  /** Whatever the inputs and whether or not the rounds converged: no hop is asked for more
      than it allows, between 0 and the requested capacity is delivered, each hop passes on
      its capacity less its own fee, and a hop's quoted fee is what all hops from it on keep. */
  lemma SolverSafety(hops: seq<Section>, want: int, base: int, hopTtl: int, i: nat)
    requires i < |hops| && Iterate(hops, want, MAX_ITER) >= 0
    ensures var parts := ChainFor(hops, Iterate(hops, want, MAX_ITER - 1), Iterate(hops, want, MAX_ITER), base, hopTtl);
            && parts[i].capacity <= hops[i].maxCapacity
            && 0 <= parts[|hops| - 1].capacity <= want
            && (i > 0 ==> parts[i - 1].capacity == parts[i].capacity + (parts[i].fee - NextFee(parts, i)))
            && parts[i].capacity == parts[|hops| - 1].capacity + NextFee(parts, i)
            && (i > 0 ==> parts[i - 1].deadline == parts[i].deadline + hopTtl)
            && parts[|hops| - 1].deadline == base + hopTtl
            && parts[i].fee - NextFee(parts, i) >= hops[i].minFee
  {
    AllowedIsBelow(hops, want, |hops|, Iterate(hops, want, MAX_ITER - 1));
    assert Fits(hops, i, Iterate(hops, want, MAX_ITER - 1), Iterate(hops, want, MAX_ITER));
    ChainDeadlines(hops, Iterate(hops, want, MAX_ITER - 1), Iterate(hops, want, MAX_ITER), base, hopTtl, i);
  }

  /** The fee quoted by the following part, 0 after the last. */
  function NextFee(parts: seq<Part>, i: nat): int
    requires i < |parts|
  {
    if i + 1 < |parts| then parts[i + 1].fee else 0
  }

  /** Hop i is quoted exactly what it charges on the amount that passes through it: at least its
      minimum, at least its percentage, and one of the two. */
  predicate QuotedExactly(hops: seq<Section>, parts: seq<Part>, i: nat)
    requires |parts| == |hops| && i < |hops|
  {
    var fee, least, percent := parts[i].fee - NextFee(parts, i), hops[i].minFee, hops[i].percentOf(parts[i].capacity);
    fee >= least && fee >= percent && (fee == least || fee == percent)
  }

  // ---------------------------------------------------------------------------------------
  // Order: fees rise with the capacity, so the round is antitone
  // ---------------------------------------------------------------------------------------

  lemma {:induction false} FeesRise(hops: seq<Section>, i: nat, a: int, b: int)
    requires MonotoneFees(hops) && i <= |hops| && a <= b
    ensures FeesFrom(hops, i, a) <= FeesFrom(hops, i, b)
    decreases |hops| - i
  {
    if i < |hops| {
      FeesRise(hops, i + 1, a, b);
      var lo, hi := a + FeesFrom(hops, i + 1, a), b + FeesFrom(hops, i + 1, b);
      assert hops[i].percentOf(lo) <= hops[i].percentOf(hi);
    }
  }

  lemma StepFalls(hops: seq<Section>, want: int, a: int, b: int)
    requires MonotoneFees(hops) && a <= b
    ensures Step(hops, want, b) <= Step(hops, want, a)
  {
    AllowedIsBelow(hops, want, |hops|, b);
    forall i: nat | i < |hops|
      ensures Fits(hops, i, a, Step(hops, want, b))
    {
      assert Fits(hops, i, b, Step(hops, want, b));
      FeesRise(hops, i + 1, a, b);
    }
    AllowedIsLargest(hops, want, |hops|, a, Step(hops, want, b));
  }

  /** Feasible means: still allowed at its own fees. */
  lemma FeasibleIsBelowStep(hops: seq<Section>, want: int, y: int)
    ensures Feasible(hops, want, y) <==> y <= Step(hops, want, y)
  {
    AllowedIsBelow(hops, want, |hops|, y);
    if Feasible(hops, want, y) {
      AllowedIsLargest(hops, want, |hops|, y, y);
    }
    if y <= Step(hops, want, y) {
      forall i: nat | i < |hops|
        ensures Fits(hops, i, y, y)
      {
        assert Fits(hops, i, y, Step(hops, want, y));
      }
    }
  }

  /** Bracketing: x1 <= x3 <= ... <= x4 <= x2 <= x0, consecutive iterates enclosing all later ones. */
  lemma {:induction false} Bracketing(hops: seq<Section>, want: int, k: nat)
    requires MonotoneFees(hops)
    ensures var lo, hi := Iterate(hops, want, 2 * k + 1), Iterate(hops, want, 2 * k);
            && lo <= hi
            && lo <= Iterate(hops, want, 2 * k + 3) <= Iterate(hops, want, 2 * k + 2) <= hi
  {
    var x0, x1 := Iterate(hops, want, 2 * k), Iterate(hops, want, 2 * k + 1);
    var x2, x3 := Iterate(hops, want, 2 * k + 2), Iterate(hops, want, 2 * k + 3);
    AllowedIsBelow(hops, want, |hops|, x0);
    AllowedIsBelow(hops, want, |hops|, x1);
    if k > 0 {
      Bracketing(hops, want, k - 1);
      StepFalls(hops, want, Iterate(hops, want, 2 * k - 1), x1);
    }
    StepFalls(hops, want, x1, x0);
    StepFalls(hops, want, x2, x0);
    StepFalls(hops, want, x1, x2);
  }

  /** Every odd iterate is feasible. */
  lemma OddIsFeasible(hops: seq<Section>, want: int, k: nat)
    requires MonotoneFees(hops)
    ensures Feasible(hops, want, Iterate(hops, want, 2 * k + 1))
  {
    var x := Iterate(hops, want, 2 * k + 1);
    Bracketing(hops, want, k);
    StepFalls(hops, want, x, Iterate(hops, want, 2 * k));
    FeasibleIsBelowStep(hops, want, x);
  }

  /** Every feasible capacity is at most every even iterate. */
  lemma {:induction false} FeasibleBelowEven(hops: seq<Section>, want: int, y: int, k: nat)
    requires MonotoneFees(hops) && Feasible(hops, want, y)
    ensures y <= Iterate(hops, want, 2 * k)
  {
    if k > 0 {
      FeasibleBelowEven(hops, want, y, k - 1);
      var odd := Iterate(hops, want, 2 * k - 1);
      if y <= odd {
        Bracketing(hops, want, k - 1);
      } else {
        StepFalls(hops, want, odd, y);
        FeasibleIsBelowStep(hops, want, y);
      }
    }
  }

  // ---------------------------------------------------------------------------------------
  // Optimality at a fixed point, and what ten rounds give without one
  // ---------------------------------------------------------------------------------------

  /** A fixed point is the largest feasible capacity, and there is at most one. */
  lemma FixedPointIsOptimal(hops: seq<Section>, want: int, x: int)
    requires MonotoneFees(hops) && Step(hops, want, x) == x
    ensures Feasible(hops, want, x)
    ensures forall y | Feasible(hops, want, y) :: y <= x
    ensures forall y | Step(hops, want, y) == y :: y == x
  {
    FeasibleIsBelowStep(hops, want, x);
    forall y | Feasible(hops, want, y)
      ensures y <= x
    {
      FeasibleIsBelowStep(hops, want, y);
      if y > x {
        StepFalls(hops, want, x, y);
      }
    }
    forall y | Step(hops, want, y) == y
      ensures y == x
    {
      if x < y {
        StepFalls(hops, want, x, y);
      } else if y < x {
        StepFalls(hops, want, y, x);
      }
    }
  }

  /** When the rounds converge: the chain delivers the optimum, and every hop's fee is exactly
      the larger of its minimum and its percentage of what passes through. */
  lemma ConvergedIsOptimalAndExact(hops: seq<Section>, want: int, base: int, hopTtl: int, i: nat)
    requires MonotoneFees(hops) && i < |hops|
    requires Iterate(hops, want, MAX_ITER) == Iterate(hops, want, MAX_ITER - 1)
    ensures var x := Iterate(hops, want, MAX_ITER);
            var parts := ChainFor(hops, Iterate(hops, want, MAX_ITER - 1), x, base, hopTtl);
            && parts[|hops| - 1].capacity == x
            && Feasible(hops, want, x)
            && (forall y | Feasible(hops, want, y) :: y <= x)
            && QuotedExactly(hops, parts, i)
  {
    FixedPointIsOptimal(hops, want, Iterate(hops, want, MAX_ITER));
  }

  /** In every case: the capacity returned bounds every feasible one from above, it is feasible
      at its own fees exactly when it is the fixed point, and the fees quoted never exceed the
      fees due on it. */
  lemma TenRounds(hops: seq<Section>, want: int, i: nat)
    requires MonotoneFees(hops) && i <= |hops|
    ensures var x := Iterate(hops, want, MAX_ITER);
            && (forall y | Feasible(hops, want, y) :: y <= x)
            && (Feasible(hops, want, x) <==> Step(hops, want, x) == x)
            && FeesFrom(hops, i, Iterate(hops, want, MAX_ITER - 1)) <= FeesFrom(hops, i, x)
  {
    var x := Iterate(hops, want, MAX_ITER);
    forall y | Feasible(hops, want, y)
      ensures y <= x
    {
      FeasibleBelowEven(hops, want, y, 5);
    }
    Bracketing(hops, want, 4);
    Bracketing(hops, want, 5);
    FeasibleIsBelowStep(hops, want, x);
    FeesRise(hops, i, Iterate(hops, want, MAX_ITER - 1), x);
  }

  predicate AllQuotedExactly(hops: seq<Section>, parts: seq<Part>)
    requires |parts| == |hops|
  {
    forall i: nat | i < |hops| :: QuotedExactly(hops, parts, i)
  }

  lemma QuoteOf(hops: seq<Section>, at: int, x: int, base: int, hopTtl: int, i: nat)
    requires i < |hops|
    ensures var rest := FeesFrom(hops, i + 1, at);
            QuotedExactly(hops, ChainFor(hops, at, x, base, hopTtl), i) <==> FeeOn(hops[i], at + rest) == FeeOn(hops[i], x + rest)
  {
    var parts := ChainFor(hops, at, x, base, hopTtl);
    assert parts[i].fee == FeesFrom(hops, i, at) && parts[i].capacity == x + FeesFrom(hops, i + 1, at);
    assert NextFee(parts, i) == FeesFrom(hops, i + 1, at);
  }

  /** Exact quotes are fees taken at the capacity itself. */
  lemma {:induction false} ExactQuotesAgree(hops: seq<Section>, parts: seq<Part>, at: int, x: int, base: int, hopTtl: int, i: nat)
    requires parts == ChainFor(hops, at, x, base, hopTtl) && AllQuotedExactly(hops, parts) && i <= |hops|
    ensures FeesFrom(hops, i, at) == FeesFrom(hops, i, x)
    decreases |hops| - i
  {
    if i < |hops| {
      ExactQuotesAgree(hops, parts, at, x, base, hopTtl, i + 1);
      assert QuotedExactly(hops, parts, i);
      QuoteOf(hops, at, x, base, hopTtl, i);
    }
  }

  lemma {:induction false} SameFeesSameStep(hops: seq<Section>, want: int, n: nat, a: int, b: int)
    requires n <= |hops| && forall i: nat | i <= |hops| :: FeesFrom(hops, i, a) == FeesFrom(hops, i, b)
    ensures AllowedBy(hops, want, n, a) == AllowedBy(hops, want, n, b)
  {
    if n > 0 {
      SameFeesSameStep(hops, want, n - 1, a, b);
    }
  }

  /** Whatever the fee functions: a chain quoted exactly is one whose capacity is a fixed point. */
  lemma ExactQuotesMeanFixedPoint(hops: seq<Section>, want: int, base: int, hopTtl: int)
    requires AllQuotedExactly(hops, Solved(hops, want, base, hopTtl))
    ensures Step(hops, want, Iterate(hops, want, MAX_ITER)) == Iterate(hops, want, MAX_ITER)
  {
    var at, x, parts := Iterate(hops, want, MAX_ITER - 1), Iterate(hops, want, MAX_ITER), Solved(hops, want, base, hopTtl);
    forall i: nat | i <= |hops|
      ensures FeesFrom(hops, i, at) == FeesFrom(hops, i, x)
    {
      ExactQuotesAgree(hops, parts, at, x, base, hopTtl, i);
    }
    SameFeesSameStep(hops, want, |hops|, at, x);
  }

  lemma FeasibleIsFixed(hops: seq<Section>, want: int)
    ensures Feasible(hops, want, want) <==> Step(hops, want, want) == want
  {
    FeasibleIsBelowStep(hops, want, want);
    AllowedIsBelow(hops, want, |hops|, want);
  }

  lemma FixedIsQuotedExactly(hops: seq<Section>, x: int, base: int, hopTtl: int)
    ensures AllQuotedExactly(hops, ChainFor(hops, x, x, base, hopTtl))
  {
    forall i: nat | i < |hops|
      ensures QuotedExactly(hops, ChainFor(hops, x, x, base, hopTtl), i)
    {
      QuoteOf(hops, x, x, base, hopTtl, i);
    }
  }

  lemma DeliveredIsTenth(hops: seq<Section>, want: int, base: int, hopTtl: int)
    requires hops != []
    ensures Solved(hops, want, base, hopTtl)[|hops| - 1].capacity == Iterate(hops, want, MAX_ITER)
  {
  }

  /** The caller gets all it asked for at exact quotes if and only if what it asks for fits every
      hop at the fees it causes. */
  lemma FullAndExactExactly(hops: seq<Section>, want: int, base: int, hopTtl: int)
    requires hops != []
    ensures var parts := Solved(hops, want, base, hopTtl);
            parts[|hops| - 1].capacity == want && AllQuotedExactly(hops, parts) <==> Feasible(hops, want, want)
  {
    FeasibleIsFixed(hops, want);
    DeliveredIsTenth(hops, want, base, hopTtl);
    if Feasible(hops, want, want) {
      FixedPointStays(hops, want, 0, MAX_ITER - 1);
      FixedPointStays(hops, want, 0, MAX_ITER);
      FixedIsQuotedExactly(hops, want, base, hopTtl);
    }
    if Iterate(hops, want, MAX_ITER) == want && AllQuotedExactly(hops, Solved(hops, want, base, hopTtl)) {
      ExactQuotesMeanFixedPoint(hops, want, base, hopTtl);
    }
  }

  // ---------------------------------------------------------------------------------------
  // The best chain
  // ---------------------------------------------------------------------------------------

  /** Hop i passes no more than it allows, is quoted exactly, and passes on its capacity less the
      fees quoted behind it. */
  predicate PayableAt(hops: seq<Section>, parts: seq<Part>, i: nat)
    requires |parts| == |hops| && i < |hops|
  {
    && parts[i].capacity <= hops[i].maxCapacity && QuotedExactly(hops, parts, i)
    && parts[i].capacity == parts[|hops| - 1].capacity + NextFee(parts, i)
  }

  /** A chain a caller could ask for, whoever computed it. */
  predicate Payable(hops: seq<Section>, want: int, parts: seq<Part>) {
    && |parts| == |hops| > 0 && parts[|hops| - 1].capacity <= want
    && forall i: nat | i < |hops| :: PayableAt(hops, parts, i)
  }

  lemma OnlyFee(hop: Section, fee: int, through: int)
    requires fee >= hop.minFee && fee >= hop.percentOf(through) && (fee == hop.minFee || fee == hop.percentOf(through))
    ensures fee == FeeOn(hop, through)
  {
  }

  lemma PayableFee(hops: seq<Section>, parts: seq<Part>, i: nat, x: int)
    requires |parts| == |hops| && i < |hops| && PayableAt(hops, parts, i) && parts[|hops| - 1].capacity == x
    requires NextFee(parts, i) == FeesFrom(hops, i + 1, x)
    ensures parts[i].fee == FeesFrom(hops, i, x)
  {
    OnlyFee(hops[i], parts[i].fee - NextFee(parts, i), parts[i].capacity);
  }

  /** The quotes of a payable chain are the fees due on what it delivers. */
  lemma {:induction false} PayableFees(hops: seq<Section>, want: int, parts: seq<Part>, x: int, i: nat)
    requires Payable(hops, want, parts) && i < |hops| && x == parts[|hops| - 1].capacity
    ensures parts[i].fee == FeesFrom(hops, i, x)
    ensures NextFee(parts, i) == FeesFrom(hops, i + 1, x)
    decreases |hops| - i
  {
    if i + 1 < |hops| {
      PayableFees(hops, want, parts, x, i + 1);
    }
    assert PayableAt(hops, parts, i);
    PayableFee(hops, parts, i, x);
  }

  lemma FeasibleIsPayable(hops: seq<Section>, want: int, y: int, base: int, hopTtl: int)
    requires hops != [] && Feasible(hops, want, y)
    ensures Payable(hops, want, ChainFor(hops, y, y, base, hopTtl))
  {
    var parts := ChainFor(hops, y, y, base, hopTtl);
    FixedIsQuotedExactly(hops, y, base, hopTtl);
    forall i: nat | i < |hops|
      ensures PayableAt(hops, parts, i)
    {
      assert Fits(hops, i, y, y);
      assert QuotedExactly(hops, parts, i);
    }
  }

  /** What fits every hop at the fees it causes is exactly what a payable chain can deliver. */
  lemma FeasibleExactly(hops: seq<Section>, want: int, y: int)
    requires hops != []
    ensures Feasible(hops, want, y) <==> exists parts: seq<Part> :: Payable(hops, want, parts) && parts[|hops| - 1].capacity == y
  {
    if Feasible(hops, want, y) {
      FeasibleIsPayable(hops, want, y, 0, 0);
      var parts := ChainFor(hops, y, y, 0, 0);
      assert Payable(hops, want, parts) && parts[|hops| - 1].capacity == y;
    }
    if exists parts: seq<Part> :: Payable(hops, want, parts) && parts[|hops| - 1].capacity == y {
      var parts: seq<Part> :| Payable(hops, want, parts) && parts[|hops| - 1].capacity == y;
      forall i: nat | i < |hops|
        ensures Fits(hops, i, y, y)
      {
        PayableFees(hops, want, parts, y, i);
        assert PayableAt(hops, parts, i);
      }
    }
  }

  /** When the rounds converge, the solver's chain is payable and none delivers more. */
  lemma BestChain(hops: seq<Section>, want: int, base: int, hopTtl: int, other: seq<Part>)
    requires MonotoneFees(hops) && hops != []
    requires Iterate(hops, want, MAX_ITER) == Iterate(hops, want, MAX_ITER - 1)
    ensures Payable(hops, want, Solved(hops, want, base, hopTtl))
    ensures Payable(hops, want, other) ==> other[|hops| - 1].capacity <= Solved(hops, want, base, hopTtl)[|hops| - 1].capacity
  {
    var x := Iterate(hops, want, MAX_ITER);
    FixedPointIsOptimal(hops, want, x);
    FeasibleIsPayable(hops, want, x, base, hopTtl);
    if Payable(hops, want, other) {
      FeasibleExactly(hops, want, other[|hops| - 1].capacity);
    }
  }

  /** Every chain that could be paid delivers at most what the solver returns, converged or not. */
  lemma NoneDeliversMore(hops: seq<Section>, want: int, base: int, hopTtl: int, other: seq<Part>)
    requires MonotoneFees(hops) && Payable(hops, want, other)
    ensures other[|hops| - 1].capacity <= Solved(hops, want, base, hopTtl)[|hops| - 1].capacity
  {
    FeasibleExactly(hops, want, other[|hops| - 1].capacity);
    TenRounds(hops, want, 0);
  }

  /** The caller gets a payable chain for all it asked for if and only if there is one. */
  lemma FullExactly(hops: seq<Section>, want: int, base: int, hopTtl: int)
    requires hops != []
    ensures var parts := Solved(hops, want, base, hopTtl);
            Payable(hops, want, parts) && parts[|hops| - 1].capacity == want
            <==> exists other: seq<Part> :: Payable(hops, want, other) && other[|hops| - 1].capacity == want
  {
    FeasibleExactly(hops, want, want);
    if Feasible(hops, want, want) {
      FeasibleIsFixed(hops, want);
      FixedPointStays(hops, want, 0, MAX_ITER - 1);
      FixedPointStays(hops, want, 0, MAX_ITER);
      FeasibleIsPayable(hops, want, want, base, hopTtl);
    }
  }

  // ---------------------------------------------------------------------------------------
  // Where the rounds lead
  // ---------------------------------------------------------------------------------------

  lemma {:induction false} SameAgain(hops: seq<Section>, want: int, k: nat, m: nat)
    requires k <= m && Iterate(hops, want, k + 2) == Iterate(hops, want, k)
    ensures Iterate(hops, want, m + 2) == Iterate(hops, want, m)
  {
    if k < m {
      SameAgain(hops, want, k, m - 1);
    }
  }

  /** Even iterates fall and stay above the first odd one, so they become constant. */
  lemma {:induction false} EvenSettle(hops: seq<Section>, want: int, k: nat) returns (m: nat)
    requires MonotoneFees(hops)
    ensures Iterate(hops, want, m + 2) == Iterate(hops, want, m)
    decreases Iterate(hops, want, 2 * k) - Iterate(hops, want, 1)
  {
    Bracketing(hops, want, k);
    OddIsFeasible(hops, want, 0);
    FeasibleBelowEven(hops, want, Iterate(hops, want, 1), k);
    FeasibleBelowEven(hops, want, Iterate(hops, want, 1), k + 1);
    if Iterate(hops, want, 2 * k + 2) == Iterate(hops, want, 2 * k) {
      return 2 * k;
    }
    m := EvenSettle(hops, want, k + 1);
  }

  /** For every chain the rounds end in two values they alternate between for ever: the larger
      bounds every feasible capacity and the smaller is feasible.  They are one value, the
      optimum, or a cycle around it. */
  lemma RoundsSettle(hops: seq<Section>, want: int) returns (m: nat, lo: int, hi: int)
    requires MonotoneFees(hops)
    ensures forall k: nat | k >= m :: Iterate(hops, want, 2 * k) == hi && Iterate(hops, want, 2 * k + 1) == lo
    ensures Step(hops, want, hi) == lo && Step(hops, want, lo) == hi && lo <= hi
    ensures Feasible(hops, want, lo) && forall y | Feasible(hops, want, y) :: y <= hi
  {
    m := EvenSettle(hops, want, 0);
    lo, hi := Iterate(hops, want, 2 * m + 1), Iterate(hops, want, 2 * m);
    forall k: nat | k >= m
      ensures Iterate(hops, want, 2 * k) == hi && Iterate(hops, want, 2 * k + 1) == lo
    {
      SettledFrom(hops, want, m, k);
    }
    SameAgain(hops, want, m, 2 * m);
    Bracketing(hops, want, m);
    OddIsFeasible(hops, want, m);
    forall y | Feasible(hops, want, y)
      ensures y <= hi
    {
      FeasibleBelowEven(hops, want, y, m);
    }
  }

  lemma {:induction false} SettledFrom(hops: seq<Section>, want: int, m: nat, k: nat)
    requires k >= m && Iterate(hops, want, m + 2) == Iterate(hops, want, m)
    ensures Iterate(hops, want, 2 * k) == Iterate(hops, want, 2 * m)
    ensures Iterate(hops, want, 2 * k + 1) == Iterate(hops, want, 2 * m + 1)
  {
    if k > m {
      SettledFrom(hops, want, m, k - 1);
      SameAgain(hops, want, m, 2 * (k - 1));
    }
  }

  // ---------------------------------------------------------------------------------------
  // The percent fee as an exact rational
  // ---------------------------------------------------------------------------------------

  /** Division truncating toward zero, as `big.Float.Int` does. */
  function TruncDiv(a: int, b: int): int
    requires b > 0
  {
    if a >= 0 then a / b else -((-a) / b)
  }

  /** num/den percent of an amount. */
  function PercentOf(num: nat, den: nat): int -> int
    requires den > 0
  {
    amount => TruncDiv(num * amount, 100 * den)
  }

  lemma TruncDivMonotone(a: int, b: int, d: int)
    requires d > 0 && a <= b
    ensures TruncDiv(a, d) <= TruncDiv(b, d)
  {
    if a >= 0 {
      DivMonotone(a, b, d);
    } else if b >= 0 {
      DivMonotone(0, -a, d);
      DivMonotone(0, b, d);
    } else {
      DivMonotone(-b, -a, d);
    }
  }

  lemma PercentIsMonotone(num: nat, den: nat)
    requires den > 0
    ensures Monotone(PercentOf(num, den))
  {
    forall a, b | a <= b
      ensures PercentOf(num, den)(a) <= PercentOf(num, den)(b)
    {
      assert num * a <= num * b;
      TruncDivMonotone(num * a, num * b, 100 * den);
    }
  }

  /** Convergence is not guaranteed: a first hop limited to m before a hop that keeps 100% sends
      the iterates to and fro between m and 0. */
  lemma {:induction false} RoundsMayOscillate(m: nat, k: nat)
    requires m > 0
    ensures var hops := [Section(0, PercentOf(0, 1), m), Section(0, PercentOf(100, 1), m)];
            && MonotoneFees(hops)
            && Iterate(hops, m, 2 * k) == m
            && Iterate(hops, m, 2 * k + 1) == 0
  {
    var hops := [Section(0, PercentOf(0, 1), m), Section(0, PercentOf(100, 1), m)];
    PercentIsMonotone(0, 1);
    PercentIsMonotone(100, 1);
    assert forall x | 0 <= x <= m :: Step(hops, m, x) == m - x by {
      forall x | 0 <= x <= m
        ensures Step(hops, m, x) == m - x
      {
        assert FeesFrom(hops, 2, x) == 0;
        assert FeesFrom(hops, 1, x) == FeeOn(hops[1], x) == x;
        assert AllowedBy(hops, m, 1, x) == m - x;
      }
    }
    if k > 0 {
      RoundsMayOscillate(m, k - 1);
    }
  }
}
