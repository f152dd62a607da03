/** Copies of a sender's containers at one section key, handled at the same time.  Looking the
    section up, storing a new one and checking a number are steps of their own: only the check
    holds the window's lock, and storing does not look again. */
module Handlers {
  import opened Options
  import opened ReplayWindow
  import opened Delivery

  /** Container k at the section object found or made for it. */
  datatype Job = Job(k: nat, ref: nat)

  datatype Handler = Missed(k: nat) | Found(job: Job)

  /** Handler h takes container k and looks its key up; stores a new section if it found none;
      checks the container's number on its section object.  The section may be closed meanwhile. */
  datatype Step = Lookup(h: nat, k: nat) | Create(h: nat) | Check(h: nat) | Close

  /** Every section object ever made for the key, each by the numbers checked on it, the one stored
      under the key, and what each busy handler holds. */
  datatype State = State(objects: seq<seq<nat>>, inbound: Option<nat>, handlers: map<nat, Handler>) {
    predicate Enabled(s: Step) {
      match s
      case Lookup(h, _) => h !in handlers
      case Create(h) => h in handlers && handlers[h].Missed?
      case Check(h) => h in handlers && handlers[h].Found? && handlers[h].job.ref < |objects|
      case Close => true
    }

    function Next(s: Step): State {
      if !Enabled(s) then this
      else
        match s
        case Lookup(h, k) =>
          this.(handlers := handlers[h := if inbound.Some? then Found(Job(k, inbound.value)) else Missed(k)])
        case Create(h) =>
          State(objects + [[]], Some(|objects|), handlers[h := Found(Job(handlers[h].k, |objects|))])
        case Check(h) =>
          var job := handlers[h].job;
          this.(objects := objects[job.ref := objects[job.ref] + [Number(job.k)]], handlers := handlers - {h})
        case Close => this.(inbound := None)
    }

    /** The job whose number this step checks. */
    function Checked(s: Step): Option<Job> {
      if s.Check? && Enabled(s) then Some(handlers[s.h].job) else None
    }

    predicate Passes(s: Step) {
      Checked(s).Some? && After(objects[Checked(s).value.ref]).Accepts(Number(Checked(s).value.k))
    }

    /** The wrap branch of one object's window. */
    predicate Resets(s: Step, ref: nat) {
      Checked(s).Some? && Checked(s).value.ref == ref && After(objects[ref]).Wraps(Number(Checked(s).value.k))
    }

    /** A new section is stored over one that is there. */
    predicate Overwrites(s: Step) {
      s.Create? && Enabled(s) && inbound.Some?
    }
  }

  const NOBODY := State([], None, map[])

  function Now(run: seq<Step>): State {
    if run == [] then NOBODY else Now(run[..|run| - 1]).Next(run[|run| - 1])
  }

  function CheckedAt(run: seq<Step>, i: nat): Option<Job>
    requires i < |run|
  {
    Now(run[..i]).Checked(run[i])
  }

  predicate PassesAt(run: seq<Step>, i: nat)
    requires i < |run|
  {
    Now(run[..i]).Passes(run[i])
  }

  predicate ResetsAt(run: seq<Step>, i: nat, ref: nat)
    requires i < |run|
  {
    Now(run[..i]).Resets(run[i], ref)
  }

  predicate OverwritesAt(run: seq<Step>, i: nat)
    requires i < |run|
  {
    Now(run[..i]).Overwrites(run[i])
  }

  lemma NowNext(run: seq<Step>, i: nat)
    requires i < |run|
    ensures Now(run[..i + 1]) == Now(run[..i]).Next(run[i])
  {
    assert run[..i + 1][..i] == run[..i];
  }

  // ---------------------------------------------------------------------------------------
  // One section object
  // ---------------------------------------------------------------------------------------

  lemma NextGrows(s: State, step: Step, ref: nat)
    requires ref < |s.objects|
    ensures ref < |s.Next(step).objects|
    ensures s.Next(step).objects[ref] ==
              if s.Checked(step).Some? && s.Checked(step).value.ref == ref
              then s.objects[ref] + [Number(s.Checked(step).value.k)] else s.objects[ref]
  {
  }

  lemma {:induction false} HistoryGrows(run: seq<Step>, i: nat, j: nat, ref: nat)
    requires i <= j <= |run| && ref < |Now(run[..i]).objects|
    ensures ref < |Now(run[..j]).objects| && Now(run[..i]).objects[ref] <= Now(run[..j]).objects[ref]
  {
    if i < j {
      HistoryGrows(run, i, j - 1, ref);
      NowNext(run, j - 1);
      NextGrows(Now(run[..j - 1]), run[j - 1], ref);
    }
  }

  /** The step behind the m-th number checked on an object. */
  lemma {:induction false} CheckStep(run: seq<Step>, i: nat, j: nat, ref: nat, m: nat) returns (k: nat)
    requires i <= j <= |run| && ref < |Now(run[..i]).objects| && ref < |Now(run[..j]).objects|
    requires |Now(run[..i]).objects[ref]| <= m < |Now(run[..j]).objects[ref]|
    ensures i <= k < j && CheckedAt(run, k).Some? && CheckedAt(run, k).value.ref == ref < |Now(run[..k]).objects|
    ensures Number(CheckedAt(run, k).value.k) == Now(run[..j]).objects[ref][m]
    ensures Now(run[..k]).objects[ref] == Now(run[..j]).objects[ref][..m]
    decreases j
  {
    assert i < j;
    HistoryGrows(run, i, j - 1, ref);
    NowNext(run, j - 1);
    NextGrows(Now(run[..j - 1]), run[j - 1], ref);
    if m < |Now(run[..j - 1]).objects[ref]| {
      k := CheckStep(run, i, j - 1, ref, m);
    } else {
      k := j - 1;
    }
  }

  /** In every interleaving, closing and all: on one section object, a container passes twice only
      if that object's window wrapped in between. */
  lemma TwiceOnOneObject(run: seq<Step>, i: nat, j: nat)
    requires i < j < |run| && PassesAt(run, i) && PassesAt(run, j) && CheckedAt(run, i) == CheckedAt(run, j)
    ensures exists k: nat :: i < k <= j && ResetsAt(run, k, CheckedAt(run, i).value.ref)
  {
    var ref, n := CheckedAt(run, i).value.ref, Number(CheckedAt(run, i).value.k);
    var first, second := Now(run[..i]).objects[ref], Now(run[..j]).objects[ref];
    NowNext(run, i);
    NextGrows(Now(run[..i]), run[i], ref);
    HistoryGrows(run, i + 1, j, ref);
    var calls := second + [n];
    assert first + [n] <= second;
    assert calls[..|first|] == first && calls[..|second|] == second && calls[|first|] == second[|first|];
    TwiceOnlyAcrossReset(calls, |first|, |second|);
    var m: nat :| |first| < m <= |second| && WrapsAt(calls, m);
    if m == |second| {
      assert ResetsAt(run, j, ref);
    } else {
      var k := CheckStep(run, i + 1, j, ref, m);
      assert calls[..m] == second[..m] && calls[m] == second[m];
      assert ResetsAt(run, k, ref);
    }
  }

  // ---------------------------------------------------------------------------------------
  // One section key
  // ---------------------------------------------------------------------------------------

  /** While no section was closed or stored over, there is one object at most. */
  predicate OneObject(s: State) {
    |s.objects| <= 1 && s.inbound == (if s.objects == [] then None else Some(0))
  }

  lemma {:induction false} OneObjectOtherwise(run: seq<Step>)
    requires forall k: nat | k < |run| :: !run[k].Close? && !OverwritesAt(run, k)
    ensures OneObject(Now(run))
  {
    if run != [] {
      var past := run[..|run| - 1];
      forall k: nat | k < |past|
        ensures !past[k].Close? && !OverwritesAt(past, k)
      {
        assert past[..k] == run[..k];
        assert !OverwritesAt(run, k);
      }
      OneObjectOtherwise(past);
      assert !OverwritesAt(run, |run| - 1);
    }
  }

  /** In every interleaving: a container passes twice only if a window wrapped, the section was
      closed, or a handler that had missed it stored a new one over it. */
  lemma TwiceOnlyByWrapClosingOrRace(run: seq<Step>, i: nat, j: nat)
    requires i < j < |run| && PassesAt(run, i) && PassesAt(run, j) && CheckedAt(run, i).value.k == CheckedAt(run, j).value.k
    ensures || (exists k: nat :: i < k <= j && ResetsAt(run, k, CheckedAt(run, i).value.ref))
            || (exists k: nat :: k < j && (run[k].Close? || OverwritesAt(run, k)))
  {
    if forall k: nat | k < j :: !run[k].Close? && !OverwritesAt(run, k) {
      forall m: nat | m <= j
        ensures OneObject(Now(run[..m]))
      {
        forall k: nat | k < m
          ensures !run[..m][k].Close? && !OverwritesAt(run[..m], k)
        {
          assert run[..m][..k] == run[..k];
          assert !OverwritesAt(run, k);
        }
        OneObjectOtherwise(run[..m]);
      }
      assert OneObject(Now(run[..i])) && OneObject(Now(run[..j]));
      TwiceOnOneObject(run, i, j);
    }
  }

  // ---------------------------------------------------------------------------------------
  // How a section is stored over another
  // ---------------------------------------------------------------------------------------

  /** Handler h has held the same miss since step a. */
  predicate MissedSince(run: seq<Step>, h: nat, a: nat)
    requires a < |run|
  {
    && run[a].Lookup? && run[a].h == h && Now(run[..a]).inbound.None?
    && (forall m: nat | a < m <= |run| :: Misses(Now(run[..m]), h))
  }

  predicate Misses(s: State, h: nat) {
    h in s.handlers && s.handlers[h].Missed?
  }

  lemma {:induction false} LastMiss(run: seq<Step>, h: nat) returns (a: nat)
    requires Misses(Now(run), h)
    ensures a < |run| && MissedSince(run, h, a)
  {
    var past, last := run[..|run| - 1], |run| - 1;
    assert run[..|run|] == run;
    if Misses(Now(past), h) {
      a := LastMiss(past, h);
      assert past[..a] == run[..a];
      forall m: nat | a < m <= |run|
        ensures Misses(Now(run[..m]), h)
      {
        if m < |run| {
          assert past[..m] == run[..m];
        }
      }
    } else {
      a := last;
    }
  }

  /** Somebody stored the section that is there, since any moment when none was. */
  lemma {:induction false} StoredSince(run: seq<Step>, a: nat) returns (b: nat)
    requires a <= |run| && Now(run[..a]).inbound.None? && Now(run).inbound.Some?
    ensures a <= b < |run| && run[b].Create? && Now(run[..b]).Enabled(run[b])
  {
    assert run[..|run|] == run;
    var last := |run| - 1;
    if Now(run[..last]).inbound.Some? {
      assert run[..last][..a] == run[..a];
      b := StoredSince(run[..last], a);
      assert run[..last][..b] == run[..b];
    } else {
      b := last;
    }
  }

  /** A section is stored over another only if two handlers had both missed it: one stored its own
      while the other still held its miss. */
  lemma OverwrittenByTwoMisses(run: seq<Step>, c: nat) returns (a: nat, b: nat)
    requires c < |run| && OverwritesAt(run, c)
    ensures a < b < c && run[a].Lookup? && run[a].h == run[c].h && Now(run[..a]).inbound.None?
    ensures run[b].Create? && run[b].h != run[c].h && Misses(Now(run[..b]), run[b].h) && Misses(Now(run[..b]), run[c].h)
  {
    var past, h := run[..c], run[c].h;
    a := LastMiss(past, h);
    assert past[..a] == run[..a] && past[..a + 1] == run[..a + 1];
    NowNext(run, a);
    b := StoredSince(past, a + 1);
    assert past[..b] == run[..b] && past[..b + 1] == run[..b + 1];
    NowNext(run, b);
    assert Misses(Now(past[..b]), h) && Misses(Now(past[..b + 1]), h);
  }

  // ---------------------------------------------------------------------------------------
  // Exactly when every container passes at most once
  // ---------------------------------------------------------------------------------------

  /** Only these handlers, and only the sender's first containers. */
  predicate Within(run: seq<Step>, handlers: nat, count: nat) {
    forall s | s in run :: !s.Close? && s.h < handlers && (s.Lookup? ==> s.k < count)
  }

  /** No container passes twice. */
  predicate Once(run: seq<Step>) {
    forall i: nat, j: nat | i < j < |run| && PassesAt(run, i) && PassesAt(run, j) ::
      CheckedAt(run, i).value.k != CheckedAt(run, j).value.k
  }

  predicate HandlerWithin(s: State, h: nat, count: nat)
    requires h in s.handlers
  {
    match s.handlers[h]
    case Missed(k) => k < count
    case Found(job) => job.k < count
  }

  predicate NumbersOf(calls: seq<nat>, count: nat) {
    forall m: nat | m < |calls| :: exists k: nat :: k < count && calls[m] == Number(k)
  }

  predicate StateWithin(s: State, handlers: nat, count: nat) {
    && (forall h | h in s.handlers :: h < handlers && HandlerWithin(s, h, count))
    && (forall ref: nat | ref < |s.objects| :: NumbersOf(s.objects[ref], count))
  }

  lemma NextWithin(s: State, step: Step, handlers: nat, count: nat)
    requires StateWithin(s, handlers, count) && !step.Close? && step.h < handlers && (step.Lookup? ==> step.k < count)
    ensures StateWithin(s.Next(step), handlers, count)
  {
    var s' := s.Next(step);
    forall ref: nat | ref < |s'.objects|
      ensures NumbersOf(s'.objects[ref], count)
    {
      if ref < |s.objects| {
        NextGrows(s, step, ref);
        assert NumbersOf(s.objects[ref], count);
        if s.Checked(step).Some? {
          assert HandlerWithin(s, step.h, count);
        }
      }
    }
    forall h | h in s'.handlers
      ensures h < handlers && HandlerWithin(s', h, count)
    {
      assert h in s.handlers ==> HandlerWithin(s, h, count);
    }
  }

  lemma {:induction false} NowWithin(run: seq<Step>, handlers: nat, count: nat)
    requires Within(run, handlers, count)
    ensures StateWithin(Now(run), handlers, count)
  {
    if run != [] {
      var past := run[..|run| - 1];
      assert run[|run| - 1] in run && forall s | s in past :: s in run;
      NowWithin(past, handlers, count);
      NextWithin(Now(past), run[|run| - 1], handlers, count);
    }
  }

  lemma PrefixWithin(run: seq<Step>, i: nat, handlers: nat, count: nat)
    requires Within(run, handlers, count) && i < |run|
    ensures StateWithin(Now(run[..i]), handlers, count) && !run[i].Close? && run[i].h < handlers
  {
    assert run[i] in run && forall s | s in run[..i] :: s in run;
    NowWithin(run[..i], handlers, count);
  }

  /** One handler never stores a section over another. */
  lemma AloneNeverOverwrites(run: seq<Step>, count: nat, c: nat)
    requires Within(run, 1, count) && c < |run|
    ensures !OverwritesAt(run, c)
  {
    if OverwritesAt(run, c) {
      var _, b := OverwrittenByTwoMisses(run, c);
    }
  }

  /** The sender's first 2^31 + 1 containers never wrap a window. */
  lemma FewNeverReset(run: seq<Step>, handlers: nat, k: nat, ref: nat)
    requires Within(run, handlers, HALF_RANGE + 1) && k < |run|
    ensures !ResetsAt(run, k, ref)
  {
    PrefixWithin(run, k, handlers, HALF_RANGE + 1);
    var s := Now(run[..k]);
    if s.Resets(run[k], ref) {
      assert HandlerWithin(s, run[k].h, HALF_RANGE + 1) && NumbersOf(s.objects[ref], HALF_RANGE + 1);
      var calls := s.objects[ref] + [Number(s.Checked(run[k]).value.k)];
      assert calls[..|calls| - 1] == s.objects[ref];
      assert NumbersOf(calls, HALF_RANGE + 1) && WrapsAt(calls, |calls| - 1);
      NoWrapInHalfRange(calls);
    }
  }

  lemma AloneOnce(run: seq<Step>)
    requires Within(run, 1, HALF_RANGE + 1)
    ensures Once(run)
  {
    forall i: nat, j: nat | i < j < |run| && PassesAt(run, i) && PassesAt(run, j)
      ensures CheckedAt(run, i).value.k != CheckedAt(run, j).value.k
    {
      if CheckedAt(run, i).value.k == CheckedAt(run, j).value.k {
        TwiceOnlyByWrapClosingOrRace(run, i, j);
        forall k: nat | k <= j
          ensures !ResetsAt(run, k, CheckedAt(run, i).value.ref) && !run[k].Close? && !OverwritesAt(run, k)
        {
          FewNeverReset(run, 1, k, CheckedAt(run, i).value.ref);
          PrefixWithin(run, k, 1, HALF_RANGE + 1);
          AloneNeverOverwrites(run, HALF_RANGE + 1, k);
        }
      }
    }
  }

  lemma FewerWithin(run: seq<Step>, handlers: nat, count: nat, handlers': nat, count': nat)
    requires Within(run, handlers, count) && handlers <= handlers' && count <= count'
    ensures Within(run, handlers', count')
  {
  }

  lemma NothingPasses(run: seq<Step>, handlers: nat, count: nat)
    requires Within(run, handlers, count) && (handlers == 0 || count == 0)
    ensures Once(run)
  {
    forall i: nat | i < |run|
      ensures !PassesAt(run, i)
    {
      PrefixWithin(run, i, handlers, count);
      assert forall h | h in Now(run[..i]).handlers :: HandlerWithin(Now(run[..i]), h, count);
    }
  }

  lemma OneMoreStep(run: seq<Step>, s: Step)
    ensures Now(run + [s]) == Now(run).Next(s)
  {
    assert (run + [s])[..|run|] == run;
  }

  const RACE: seq<Step> := [Lookup(0, 0), Lookup(1, 0), Create(0), Create(1), Check(0), Check(1)]

  const BOTH_MISSED := State([], None, map[0 := Missed(0), 1 := Missed(0)])
  const ONE_STORED := State([[]], Some(0), map[0 := Found(Job(0, 0)), 1 := Missed(0)])
  const BOTH_STORED := State([[], []], Some(1), map[0 := Found(Job(0, 0)), 1 := Found(Job(0, 1))])
  const ONE_CHECKED := State([[1], []], Some(1), map[1 := Found(Job(0, 1))])

  lemma FirstChecked()
    ensures BOTH_STORED.Next(Check(0)) == ONE_CHECKED
  {
    var s := BOTH_STORED.Next(Check(0));
    assert BOTH_STORED.objects[0] + [Number(0)] == [1];
    assert s.objects == ONE_CHECKED.objects;
    assert s.handlers == map[1 := Found(Job(0, 1))];
  }

  lemma RaceSteps()
    ensures Now(RACE[..2]) == BOTH_MISSED && Now(RACE[..3]) == ONE_STORED && Now(RACE[..4]) == BOTH_STORED && Now(RACE[..5]) == ONE_CHECKED
  {
    assert RACE[..0] == [];
    NowNext(RACE, 0);
    NowNext(RACE, 1);
    NowNext(RACE, 2);
    NowNext(RACE, 3);
    NowNext(RACE, 4);
    assert BOTH_MISSED.Next(Create(0)) == ONE_STORED;
    assert ONE_STORED.Next(Create(1)) == BOTH_STORED;
    FirstChecked();
  }

  /** Two copies of a sender's first container that arrive before the section exists: both handlers
      miss, each stores a section, and both copies pass. */
  lemma RaceExecutesTwice()
    ensures Within(RACE, 2, 1) && PassesAt(RACE, 4) && PassesAt(RACE, 5)
    ensures CheckedAt(RACE, 4) == Some(Job(0, 0)) && CheckedAt(RACE, 5) == Some(Job(0, 1))
    ensures OverwritesAt(RACE, 3) && !Once(RACE)
  {
    RaceSteps();
    assert ONE_STORED.Overwrites(Create(1)) && BOTH_STORED.Passes(Check(0)) && ONE_CHECKED.Passes(Check(1));
  }

  // ---------------------------------------------------------------------------------------
  // One handler, one container at a time
  // ---------------------------------------------------------------------------------------

  function Served(e: Event): seq<Step> {
    match e
    case Container(k) => [Lookup(0, k), Create(0), Check(0)]
    case Closed => [Close]
    case _ => []
  }

  function Serial(events: seq<Event>): seq<Step> {
    if events == [] then [] else Serial(events[..|events| - 1]) + Served(events[|events| - 1])
  }

  /** The life of the section, as its one object sees it. */
  predicate Lives(s: State, events: seq<Event>) {
    && s.handlers == map[] && s.inbound.Some? == LifeAfter(events).present
    && (s.inbound.Some? ==> s.inbound.value < |s.objects| && s.objects[s.inbound.value] == ContainersSince(events))
    && (s.inbound.None? ==> ContainersSince(events) == [])
  }

  /** What the handler holds before its check, and the gateway after it. */
  lemma ServedState(s: State, events: seq<Event>, k: nat)
    requires Lives(s, events)
    ensures var s2 := s.Next(Lookup(0, k)).Next(Create(0));
            && Lives(s2.Next(Check(0)), events + [Container(k)])
            && s2.Checked(Check(0)).Some? && s2.Checked(Check(0)).value.k == k
            && s2.objects[s2.Checked(Check(0)).value.ref] == ContainersSince(events)
  {
    assert (events + [Container(k)])[..|events|] == events;
    var s2 := s.Next(Lookup(0, k)).Next(Create(0));
    var ref := if s.inbound.Some? then s.inbound.value else |s.objects|;
    assert s2.handlers == map[0 := Found(Job(k, ref))] && s2.inbound == Some(ref) && s2.objects[ref] == ContainersSince(events);
    assert s2.handlers - {0} == map[];
  }

  lemma ServedContainer(run: seq<Step>, events: seq<Event>, k: nat)
    requires Lives(Now(run), events)
    ensures var run' := run + Served(Container(k));
            && Lives(Now(run'), events + [Container(k)])
            && CheckedAt(run', |run| + 2).Some? && CheckedAt(run', |run| + 2).value.k == k
            && (PassesAt(run', |run| + 2) <==> LifeAfter(events).Passes(Container(k)))
  {
    var run' := run + Served(Container(k));
    assert run'[..|run|] == run && run'[..|run| + 3] == run';
    NowNext(run', |run|);
    NowNext(run', |run| + 1);
    NowNext(run', |run| + 2);
    ServedState(Now(run), events, k);
    LifeIsFreshRuns(events);
  }

  lemma {:induction false} SerialLives(events: seq<Event>)
    ensures Lives(Now(Serial(events)), events)
  {
    if events != [] {
      var past, e := events[..|events| - 1], events[|events| - 1];
      SerialLives(past);
      assert past + [e] == events;
      match e
      case Container(k) => ServedContainer(Serial(past), past, k);
      case Closed => OneMoreStep(Serial(past), Close);
      case _ => assert Serial(past) + [] == Serial(past);
    }
  }

  lemma {:induction false} SerialGrows(events: seq<Event>, i: nat)
    requires i <= |events|
    ensures Serial(events[..i]) <= Serial(events)
    decreases |events| - i
  {
    if i == |events| {
      assert events[..i] == events;
    } else {
      assert events[..i + 1][..i] == events[..i];
      SerialGrows(events, i + 1);
    }
  }

  lemma SamePast(run: seq<Step>, longer: seq<Step>, m: nat)
    requires run <= longer && m < |run|
    ensures CheckedAt(longer, m) == CheckedAt(run, m) && PassesAt(longer, m) == PassesAt(run, m)
  {
    assert longer[..m] == run[..m];
  }

  lemma SerialStep(events: seq<Event>, i: nat)
    requires i < |events| && events[i].Container?
    ensures Serial(events[..i]) + Served(events[i]) <= Serial(events)
  {
    assert events[..i + 1][..i] == events[..i];
    SerialGrows(events, i + 1);
  }

  /** Handled one at a time, containers pass exactly as the section's life says. */
  lemma SerialIsLife(events: seq<Event>, i: nat)
    requires i < |events| && events[i].Container?
    ensures var run, m := Serial(events), |Serial(events[..i])| + 2;
            && m < |run| && CheckedAt(run, m).Some? && CheckedAt(run, m).value.k == events[i].k
            && (PassesAt(run, m) <==> Delivery.PassesAt(events, i))
  {
    var past := Serial(events[..i]);
    SerialLives(events[..i]);
    ServedContainer(past, events[..i], events[i].k);
    SerialStep(events, i);
    SamePast(past + Served(events[i]), Serial(events), |past| + 2);
  }

  /** The run in which the numbers wrap, handled by one handler. */
  lemma WrapExecutesTwice(count: nat)
    requires count > HALF_RANGE + 1
    ensures var events := [Container(0), Container(HALF_RANGE + 1), Container(0)];
            Within(Serial(events), 1, count) && !Once(Serial(events))
  {
    var events := [Container(0), Container(HALF_RANGE + 1), Container(0)];
    WrapPassesTwice();
    SerialIsLife(events, 0);
    SerialIsLife(events, 2);
    SerialWithin(events, count);
    SerialGrows(events[..2], 0);
    assert events[..2][..0] == events[..0] && events[..1][..0] == events[..0] && events[..2][..1] == events[..1];
    assert |Serial(events[..0])| < |Serial(events[..2])|;
  }

  lemma {:induction false} SerialWithin(events: seq<Event>, count: nat)
    requires FirstContainers(events, count) && forall e | e in events :: !e.Closed?
    ensures Within(Serial(events), 1, count)
  {
    if events != [] {
      var past, e := events[..|events| - 1], events[|events| - 1];
      assert e in events && forall x | x in past :: x in events;
      SerialWithin(past, count);
    }
  }

  /** In every interleaving without a closing, every container passes at most once, if and only if
      there is nothing to handle, or one handler and at most 2^31 + 1 containers. */
  lemma AtMostOnceExactly(handlers: nat, count: nat)
    ensures (forall run: seq<Step> | Within(run, handlers, count) :: Once(run)) <==>
              handlers == 0 || count == 0 || (handlers == 1 && count <= HALF_RANGE + 1)
  {
    if handlers == 0 || count == 0 || (handlers == 1 && count <= HALF_RANGE + 1) {
      forall run: seq<Step> | Within(run, handlers, count)
        ensures Once(run)
      {
        if handlers == 0 || count == 0 {
          NothingPasses(run, handlers, count);
        } else {
          FewerWithin(run, handlers, count, 1, HALF_RANGE + 1);
          AloneOnce(run);
        }
      }
    } else if handlers >= 2 {
      RaceExecutesTwice();
      FewerWithin(RACE, 2, 1, handlers, count);
    } else {
      WrapExecutesTwice(count);
    }
  }
}
