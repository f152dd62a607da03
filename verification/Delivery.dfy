/** Whole runs of the replay window: which deliveries of a sender's numbered containers are
    executed, how the cached fast path resets its window with every cache version, and what
    closing and re-creating the section forgets. */
module Delivery {
  import opened Arith
  import opened ReplayWindow
  import Onion

  // ---------------------------------------------------------------------------------------
  // Any run of calls on a fresh window
  // ---------------------------------------------------------------------------------------

  function After(calls: seq<nat>): Window {
    if calls == [] then FRESH else After(calls[..|calls| - 1]).Next(calls[|calls| - 1])
  }

  predicate AcceptedAt(calls: seq<nat>, i: nat)
    requires i < |calls|
  {
    After(calls[..i]).Accepts(calls[i])
  }

  predicate WrapsAt(calls: seq<nat>, i: nat)
    requires i < |calls|
  {
    After(calls[..i]).Wraps(calls[i])
  }

  /** Index of the last call that took the wrap branch, 0 when none did. */
  function LastReset(calls: seq<nat>): (r: nat)
    ensures r <= |calls|
  {
    if calls == [] then 0
    else if WrapsAt(calls, |calls| - 1) then |calls| - 1
    else LastReset(calls[..|calls| - 1])
  }

  lemma PrefixOfPrefix(calls: seq<nat>, m: nat, i: nat)
    requires i <= m <= |calls|
    ensures calls[..m][..i] == calls[..i]
  {
  }

  lemma {:induction false} AfterIsSound(calls: seq<nat>)
    ensures After(calls).Sound()
  {
    if calls != [] {
      AfterIsSound(calls[..|calls| - 1]);
    }
  }

  ghost predicate AcceptedSinceReset(calls: seq<nat>, n: nat) {
    exists i: nat :: LastReset(calls) <= i < |calls| && calls[i] == n && AcceptedAt(calls, i)
  }

  /** The set the window stands for is the history: exactly the numbers accepted since the
      last wrap reset. */
  lemma {:induction false} AcceptedIsHistory(calls: seq<nat>, n: nat)
    ensures n in After(calls).accepted <==> AcceptedSinceReset(calls, n)
  {
    if calls != [] {
      var last := |calls| - 1;
      var past := calls[..last];
      AcceptedIsHistory(past, n);
      AfterIsSound(past);
      forall i: nat | i < last
        ensures AcceptedAt(past, i) <==> AcceptedAt(calls, i)
      {
        PrefixOfPrefix(calls, last, i);
      }
      if n in After(calls).accepted {
        if n == calls[last] && AcceptedAt(calls, last) {
          assert AcceptedSinceReset(calls, n);
        } else {
          assert AcceptedSinceReset(past, n);
          var i: nat :| LastReset(past) <= i < last && past[i] == n && AcceptedAt(past, i);
          assert calls[i] == n && AcceptedAt(calls, i);
        }
      }
      if AcceptedSinceReset(calls, n) {
        var i: nat :| LastReset(calls) <= i < |calls| && calls[i] == n && AcceptedAt(calls, i);
        if i < last {
          assert past[i] == n && AcceptedAt(past, i);
        }
      }
    }
  }

  /** The verdict on call j, from the history alone: a new maximum, or a number fewer than 512
      behind it that was not accepted since the last reset; anything else only by a reset. */
  lemma VerdictByHistory(calls: seq<nat>, j: nat)
    requires j < |calls|
    ensures var latest := After(calls[..j]).latest;
            AcceptedAt(calls, j) <==>
            || WrapsAt(calls, j)
            || calls[j] > latest
            || (latest - WINDOW_BITS < calls[j] < latest && !AcceptedSinceReset(calls[..j], calls[j]))
  {
    AcceptedIsHistory(calls[..j], calls[j]);
  }

  lemma {:induction false} Remembered(calls: seq<nat>, i: nat, m: nat)
    requires i < m <= |calls| && AcceptedAt(calls, i)
    requires forall k: nat | i < k < m :: !WrapsAt(calls, k)
    ensures calls[i] in After(calls[..m]).accepted
  {
    var last := m - 1;
    assert calls[..m][..last] == calls[..last] && calls[..m][last] == calls[last];
    if i < last {
      Remembered(calls, i, last);
      assert !WrapsAt(calls, last);
    }
  }

  /** A number accepted twice was accepted across a wrap reset. */
  lemma TwiceOnlyAcrossReset(calls: seq<nat>, i: nat, j: nat)
    requires i < j < |calls| && calls[i] == calls[j]
    requires AcceptedAt(calls, i) && AcceptedAt(calls, j)
    ensures exists k: nat :: i < k <= j && WrapsAt(calls, k)
  {
    if WrapsAt(calls, j) {
      return;
    }
    AfterIsSound(calls[..j]);
    if forall k: nat | i < k < j :: !WrapsAt(calls, k) {
      Remembered(calls, i, j);
    }
  }

  // ---------------------------------------------------------------------------------------
  // The numbers of one sender's containers
  // ---------------------------------------------------------------------------------------

  /** The number the k-th `EncryptInstructionsMessage` of one `EncryptionKeys` puts in its
      container, k counted from 0: the counter is incremented before use and wraps at 2^32. */
  function Number(k: nat): nat {
    (k + 1) % TWO_32
  }

  /** These are the numbers a new sender's counter goes through, from 0. */
  lemma NumbersAreIssued(k: nat)
    ensures Number(0) == Onion.Successor(0) && Number(k + 1) == Onion.Successor(Number(k))
  {
  }

  /** The numbers of a sender's first 2^31 + 1 containers. */
  predicate InHalfRange(calls: seq<nat>) {
    forall n | n in calls :: 1 <= n <= HALF_RANGE + 1
  }

  /** Among them the wrap branch cannot fire. */
  lemma {:induction false} NoWrapInHalfRange(calls: seq<nat>)
    requires InHalfRange(calls)
    ensures var w := After(calls);
            && w.latest <= HALF_RANGE + 1
            && (forall i: nat | i < |calls| :: !WrapsAt(calls, i))
            && (forall n | n in calls :: n <= w.latest)
            && (calls != [] ==> w.latest in calls)
            && (calls == [] ==> w.latest == 0)
  {
    if calls != [] {
      var last := |calls| - 1;
      var past := calls[..last];
      assert forall n | n in past :: n in calls;
      NoWrapInHalfRange(past);
      assert calls == past + [calls[last]];
      assert calls[last] in calls;
      forall i: nat | i < |calls|
        ensures !WrapsAt(calls, i)
      {
        if i < last {
          PrefixOfPrefix(calls, last, i);
          assert !WrapsAt(past, i);
        }
      }
      if past == [] {
        assert After(calls).latest == calls[last];
      }
    }
  }

  lemma FirstNumberPasses(calls: seq<nat>, j: nat)
    requires j < |calls| && calls[j] >= 1
    requires InHalfRange(calls[..j])
    requires calls[j] !in calls[..j]
    requires forall n | n in calls[..j] :: n - calls[j] < WINDOW_BITS
    ensures AcceptedAt(calls, j)
  {
    NoWrapInHalfRange(calls[..j]);
    AcceptedIsHistory(calls[..j], calls[j]);
  }

  // ---------------------------------------------------------------------------------------
  // A section's life: two windows, cache versions, closing and re-creation
  // ---------------------------------------------------------------------------------------

  /** What reaches one section key: the k-th container of its sender, a cached packet, a cache
      update executed by some container, or the removal of the section, by expiry or on request. */
  datatype Event = Container(k: nat) | Packet(seqno: nat) | CacheUpdate(version: nat) | Closed

  /** The first container for an unknown key creates the section; a cached packet does not. */
  datatype Life = Life(present: bool, window: Window, version: nat, cached: Window) {
    predicate Passes(e: Event) {
      match e
      case Container(k) => window.Accepts(Number(k))
      case Packet(seqno) => present && cached.Accepts(seqno)
      case _ => false
    }

    /** An update with a version not above the current one changes nothing. */
    predicate Updates(e: Event) {
      e.CacheUpdate? && present && version < e.version
    }

    function Next(e: Event): Life {
      match e
      case Container(k) => this.(present := true, window := window.Next(Number(k)))
      case Packet(seqno) => if present then this.(cached := cached.Next(seqno)) else this
      case CacheUpdate(v) => if Updates(e) then this.(version := v, cached := FRESH) else this
      case Closed => UNBORN
    }
  }

  const UNBORN := Life(false, FRESH, 0, FRESH)

  function LifeAfter(events: seq<Event>): Life {
    if events == [] then UNBORN else LifeAfter(events[..|events| - 1]).Next(events[|events| - 1])
  }

  predicate PassesAt(events: seq<Event>, i: nat)
    requires i < |events|
  {
    LifeAfter(events[..i]).Passes(events[i])
  }

  /** Which life of the section it is. */
  function Lifetime(events: seq<Event>): nat {
    if events == [] then 0
    else Lifetime(events[..|events| - 1]) + if events[|events| - 1].Closed? then 1 else 0
  }

  /** The container numbers of this life. */
  function ContainersSince(events: seq<Event>): seq<nat> {
    if events == [] then []
    else
      var past := ContainersSince(events[..|events| - 1]);
      match events[|events| - 1]
      case Container(k) => past + [Number(k)]
      case Closed => []
      case _ => past
  }

  /** The packet numbers since this life's last update that took effect. */
  function PacketsSince(events: seq<Event>): seq<nat> {
    if events == [] then []
    else
      var past, e := events[..|events| - 1], events[|events| - 1];
      if e.Closed? || LifeAfter(past).Updates(e) then []
      else if e.Packet? && LifeAfter(past).present then PacketsSince(past) + [e.seqno]
      else PacketsSince(past)
  }

  /** Each life starts a fresh run of the window, each cache version in it one of the cached
      window, so every theorem on runs above holds within them. */
  lemma {:induction false} LifeIsFreshRuns(events: seq<Event>)
    ensures LifeAfter(events).window == After(ContainersSince(events))
    ensures LifeAfter(events).cached == After(PacketsSince(events))
  {
    if events != [] {
      var past := events[..|events| - 1];
      LifeIsFreshRuns(past);
      if |ContainersSince(events)| == |ContainersSince(past)| + 1 {
        AfterOneMore(ContainersSince(past), ContainersSince(events));
      }
      if |PacketsSince(events)| == |PacketsSince(past)| + 1 {
        AfterOneMore(PacketsSince(past), PacketsSince(events));
      }
    }
  }

  lemma AfterOneMore(past: seq<nat>, calls: seq<nat>)
    requires |calls| == |past| + 1 && calls[..|past|] == past
    ensures After(calls) == After(past).Next(calls[|past|])
  {
  }

  /** Within one life: containers only accumulate, versions never go back, and as long as one
      lasts its packets only accumulate.  A version goes back only by closing the section. */
  lemma {:induction false} LifeGrows(events: seq<Event>, i: nat, m: nat)
    requires i <= m <= |events|
    ensures Lifetime(events[..i]) <= Lifetime(events[..m])
    ensures Lifetime(events[..i]) == Lifetime(events[..m]) ==>
              && ContainersSince(events[..i]) <= ContainersSince(events[..m])
              && LifeAfter(events[..i]).version <= LifeAfter(events[..m]).version
              && (LifeAfter(events[..i]).version == LifeAfter(events[..m]).version ==>
                    PacketsSince(events[..i]) <= PacketsSince(events[..m]))
  {
    if i < m {
      assert events[..m][..m - 1] == events[..m - 1];
      LifeGrows(events, i, m - 1);
    }
  }

  lemma {:induction false} SameLifeExactly(events: seq<Event>, i: nat, m: nat)
    requires i <= m <= |events|
    ensures Lifetime(events[..i]) == Lifetime(events[..m]) <==> forall k: nat | i <= k < m :: !events[k].Closed?
  {
    if i < m {
      assert events[..m][..m - 1] == events[..m - 1];
      LifeGrows(events, i, m - 1);
      SameLifeExactly(events, i, m - 1);
    }
  }

  // ---------------------------------------------------------------------------------------
  // Containers over all lives
  // ---------------------------------------------------------------------------------------

  /** The event by which the window forgets: the section goes, or its number wraps. */
  predicate Forgets(events: seq<Event>, k: nat)
    requires k < |events|
  {
    events[k].Closed? || (events[k].Container? && LifeAfter(events[..k]).window.Wraps(Number(events[k].k)))
  }

  /** The event behind the m-th container number of this life. */
  lemma {:induction false} ContainerEvent(events: seq<Event>, i: nat, j: nat, m: nat) returns (k: nat)
    requires i <= j <= |events| && Lifetime(events[..i]) == Lifetime(events[..j])
    requires |ContainersSince(events[..i])| <= m < |ContainersSince(events[..j])|
    ensures i <= k < j && events[k].Container? && Number(events[k].k) == ContainersSince(events[..j])[m]
    ensures ContainersSince(events[..k]) == ContainersSince(events[..j])[..m]
    decreases j
  {
    assert i < j;
    assert events[..j][..j - 1] == events[..j - 1];
    LifeGrows(events, i, j - 1);
    LifeGrows(events, j - 1, j);
    if m < |ContainersSince(events[..j - 1])| {
      k := ContainerEvent(events, i, j - 1, m);
    } else {
      k := j - 1;
    }
  }

  /** A container that passed is in its life's run from then on. */
  lemma PassedIsRemembered(events: seq<Event>, i: nat, j: nat)
    requires i < j <= |events| && events[i].Container? && Lifetime(events[..i]) == Lifetime(events[..j])
    ensures ContainersSince(events[..i]) + [Number(events[i].k)] <= ContainersSince(events[..j])
  {
    assert events[..i + 1][..i] == events[..i];
    LifeGrows(events, i, i + 1);
    LifeGrows(events, i + 1, j);
  }

  /** For any events, handled one at a time: a container is executed twice only if the section was
      closed or the numbers wrapped in between. */
  lemma ContainerTwiceOnlyAcrossForgetting(events: seq<Event>, i: nat, j: nat)
    requires i < j < |events| && events[i].Container? && events[i] == events[j]
    requires PassesAt(events, i) && PassesAt(events, j)
    ensures exists k: nat :: i < k <= j && Forgets(events, k)
  {
    SameLifeExactly(events, i, j);
    if Lifetime(events[..i]) != Lifetime(events[..j]) {
      var k: nat :| i <= k < j && events[k].Closed?;
      assert i < k <= j && Forgets(events, k);
    } else {
      var n, first, second := Number(events[i].k), ContainersSince(events[..i]), ContainersSince(events[..j]);
      var calls := second + [n];
      PassedIsRemembered(events, i, j);
      LifeIsFreshRuns(events[..i]);
      LifeIsFreshRuns(events[..j]);
      assert calls[..|first|] == first && calls[..|second|] == second && calls[|first|] == second[|first|];
      TwiceOnlyAcrossReset(calls, |first|, |second|);
      var m: nat :| |first| < m <= |second| && WrapsAt(calls, m);
      if m == |second| {
        assert Forgets(events, j);
      } else {
        assert events[..i + 1][..i] == events[..i];
        SameLifeExactly(events, i, i + 1);
        SameLifeExactly(events, i + 1, j);
        var k := ContainerEvent(events, i + 1, j, m);
        assert calls[..m] == second[..m] && calls[m] == second[m];
        LifeIsFreshRuns(events[..k]);
        assert Forgets(events, k);
      }
    }
  }

  /** Only the first `count` containers of the sender arrive. */
  predicate FirstContainers(events: seq<Event>, count: nat) {
    forall e | e in events && e.Container? :: e.k < count
  }

  /** No container is executed twice in one life of the section. */
  predicate OncePerLife(events: seq<Event>) {
    forall i: nat, j: nat | i < j < |events| && events[i] == events[j] && events[i].Container? ::
      PassesAt(events, i) && PassesAt(events, j) ==> Lifetime(events[..i]) != Lifetime(events[..j])
  }

  lemma {:induction false} ContainersInHalfRange(events: seq<Event>)
    requires FirstContainers(events, HALF_RANGE + 1)
    ensures InHalfRange(ContainersSince(events))
  {
    if events != [] {
      var past, e := events[..|events| - 1], events[|events| - 1];
      assert e in events;
      ContainersInHalfRange(past);
    }
  }

  /** Half the range past it, a container's number is forgotten. */
  lemma WrapPassesTwice()
    ensures var events := [Container(0), Container(HALF_RANGE + 1), Container(0)];
            PassesAt(events, 0) && PassesAt(events, 2)
  {
    var events := [Container(0), Container(HALF_RANGE + 1), Container(0)];
    assert LifeAfter([]) == UNBORN;
    assert events[..0] == [] && events[..1] == [Container(0)] && events[..1][..0] == [];
    assert LifeAfter(events[..1]).window == Window(1, {1});
    assert events[..2] == [Container(0), Container(HALF_RANGE + 1)] && events[..2][..1] == events[..1];
    assert LifeAfter(events[..2]).window.latest == HALF_RANGE + 2;
  }

  /** Handled one at a time, every container is executed at most once per life of the section,
      whatever else arrives, if and only if the sender built at most 2^31 + 1 containers. */
  lemma AtMostOnceExactly(count: nat)
    ensures (forall events: seq<Event> | FirstContainers(events, count) :: OncePerLife(events)) <==> count <= HALF_RANGE + 1
  {
    if count <= HALF_RANGE + 1 {
      forall events: seq<Event> | FirstContainers(events, count)
        ensures OncePerLife(events)
      {
        FewContainersOnce(events);
      }
    } else {
      var events := [Container(0), Container(HALF_RANGE + 1), Container(0)];
      WrapPassesTwice();
      SameLifeExactly(events, 0, 2);
      assert FirstContainers(events, count) && !OncePerLife(events);
    }
  }

  lemma FewNeverWrap(events: seq<Event>, k: nat)
    requires FirstContainers(events, HALF_RANGE + 1) && k < |events|
    ensures Forgets(events, k) <==> events[k].Closed?
  {
    if events[k].Container? {
      var calls := ContainersSince(events[..k]) + [Number(events[k].k)];
      assert events[k] in events && forall e | e in events[..k] :: e in events;
      ContainersInHalfRange(events[..k]);
      LifeIsFreshRuns(events[..k]);
      assert calls[..|calls| - 1] == ContainersSince(events[..k]);
      NoWrapInHalfRange(calls);
      assert !WrapsAt(calls, |calls| - 1);
    }
  }

  lemma FewContainersOnce(events: seq<Event>)
    requires FirstContainers(events, HALF_RANGE + 1)
    ensures OncePerLife(events)
  {
    forall i: nat, j: nat | i < j < |events| && events[i] == events[j] && events[i].Container? && PassesAt(events, i) && PassesAt(events, j)
      ensures Lifetime(events[..i]) != Lifetime(events[..j])
    {
      ContainerTwiceOnlyAcrossForgetting(events, i, j);
      var k: nat :| i < k <= j && Forgets(events, k);
      FewNeverWrap(events, k);
      SameLifeExactly(events, i, j);
    }
  }

  /** A first arrival in a life passes unless 512 or more behind the furthest one. */
  lemma FirstArrivalPasses(events: seq<Event>, j: nat)
    requires FirstContainers(events, HALF_RANGE + 1) && j < |events| && events[j].Container?
    requires Number(events[j].k) !in ContainersSince(events[..j])
    requires forall n | n in ContainersSince(events[..j]) :: n - Number(events[j].k) < WINDOW_BITS
    ensures PassesAt(events, j)
  {
    assert events[j] in events && forall e | e in events[..j] :: e in events;
    ContainersInHalfRange(events[..j]);
    var past := ContainersSince(events[..j]);
    var calls := past + [Number(events[j].k)];
    assert calls[..|past|] == past;
    LifeIsFreshRuns(events[..j]);
    FirstNumberPasses(calls, |past|);
  }

  /** Closing forgets everything: whatever happened before, every container passes again, except
      one whose number wrapped to 0, and the first cache version, however old, takes effect. */
  lemma ClosedForgetsAll(events: seq<Event>, e: Event)
    ensures var life := LifeAfter(events + [Closed]);
            && life == UNBORN
            && (e.Container? ==> (life.Passes(e) <==> Number(e.k) != 0))
            && (e.CacheUpdate? && e.version > 0 ==> life.Next(Container(0)).Updates(e))
  {
    assert (events + [Closed])[..|events|] == events;
  }

  /** So a container that was executed is executed again after the section was closed: one
      container suffices. */
  lemma ReplayAfterClosing()
    ensures var events := [Container(0), Closed, Container(0)];
            PassesAt(events, 0) && PassesAt(events, 2) && FirstContainers(events, 1)
  {
    var events := [Container(0), Closed, Container(0)];
    assert events[..0] == [] && LifeAfter([]) == UNBORN;
    assert events[..2] == [Container(0)] + [Closed];
    ClosedForgetsAll([Container(0)], Container(0));
  }

  /** Over all lives, at most once ever holds of no sender that built anything. */
  lemma OnceEverExactly(count: nat)
    ensures (forall events: seq<Event> | FirstContainers(events, count) :: OnceEver(events)) <==> count == 0
  {
    if count > 0 {
      ReplayAfterClosing();
      var events := [Container(0), Closed, Container(0)];
      assert FirstContainers(events, count) && events[0] == events[2];
      assert !OnceEver(events);
    } else {
      forall events: seq<Event> | FirstContainers(events, 0)
        ensures OnceEver(events)
      {
        assert forall i: nat | i < |events| :: events[i] in events;
      }
    }
  }

  predicate OnceEver(events: seq<Event>) {
    forall i: nat, j: nat | i < j < |events| && events[i] == events[j] && events[i].Container? ::
      !(PassesAt(events, i) && PassesAt(events, j))
  }

  // ---------------------------------------------------------------------------------------
  // The cached fast path
  // ---------------------------------------------------------------------------------------

  /** The same life of the section and the same cache version. */
  predicate SameVersion(events: seq<Event>, i: nat, j: nat)
    requires i <= j <= |events|
  {
    Lifetime(events[..i]) == Lifetime(events[..j]) && LifeAfter(events[..i]).version == LifeAfter(events[..j]).version
  }

  /** The event by which the cached window forgets: the section goes, a newer cache takes effect,
      or its number wraps. */
  predicate CacheForgets(events: seq<Event>, k: nat)
    requires k < |events|
  {
    var life := LifeAfter(events[..k]);
    events[k].Closed? || life.Updates(events[k]) || (events[k].Packet? && life.present && life.cached.Wraps(events[k].seqno))
  }

  lemma {:induction false} SameVersionOtherwise(events: seq<Event>, i: nat, j: nat)
    requires i <= j <= |events| && forall k: nat | i <= k < j :: !CacheForgets(events, k)
    ensures SameVersion(events, i, j)
  {
    if i < j {
      assert events[..j][..j - 1] == events[..j - 1];
      SameVersionOtherwise(events, i, j - 1);
      assert !CacheForgets(events, j - 1);
    }
  }

  /** The event behind the m-th packet number of this version. */
  lemma {:induction false} PacketEvent(events: seq<Event>, i: nat, j: nat, m: nat) returns (k: nat)
    requires i <= j <= |events| && SameVersion(events, i, j)
    requires |PacketsSince(events[..i])| <= m < |PacketsSince(events[..j])|
    ensures i <= k < j && events[k].Packet? && events[k].seqno == PacketsSince(events[..j])[m] && LifeAfter(events[..k]).present
    ensures PacketsSince(events[..k]) == PacketsSince(events[..j])[..m]
    decreases j
  {
    assert i < j;
    assert events[..j][..j - 1] == events[..j - 1];
    LifeGrows(events, i, j - 1);
    LifeGrows(events, j - 1, j);
    if m < |PacketsSince(events[..j - 1])| {
      k := PacketEvent(events, i, j - 1, m);
    } else {
      k := j - 1;
    }
  }

  lemma PassedPacketIsRemembered(events: seq<Event>, i: nat, j: nat)
    requires i < j <= |events| && events[i].Packet? && LifeAfter(events[..i]).present && SameVersion(events, i, j)
    ensures SameVersion(events, i, i + 1) && SameVersion(events, i + 1, j)
    ensures PacketsSince(events[..i + 1]) == PacketsSince(events[..i]) + [events[i].seqno] <= PacketsSince(events[..j])
  {
    assert events[..i + 1][..i] == events[..i];
    LifeGrows(events, i, i + 1);
    LifeGrows(events, i + 1, j);
  }

  /** For any events at all: a cached packet passes twice only if the section was closed, a newer
      cache took effect or the numbers wrapped in between. */
  lemma PacketTwiceOnlyAcrossForgetting(events: seq<Event>, i: nat, j: nat)
    requires i < j < |events| && events[i].Packet? && events[i] == events[j]
    requires PassesAt(events, i) && PassesAt(events, j)
    ensures exists k: nat :: i <= k <= j && CacheForgets(events, k)
  {
    if forall k: nat | i <= k < j :: !CacheForgets(events, k) {
      SameVersionOtherwise(events, i, j);
      var n, first, second := events[i].seqno, PacketsSince(events[..i]), PacketsSince(events[..j]);
      var calls := second + [n];
      PassedPacketIsRemembered(events, i, j);
      LifeIsFreshRuns(events[..i]);
      LifeIsFreshRuns(events[..j]);
      assert calls[..|first|] == first && calls[..|second|] == second && calls[|first|] == second[|first|];
      TwiceOnlyAcrossReset(calls, |first|, |second|);
      var m: nat :| |first| < m <= |second| && WrapsAt(calls, m);
      if m < |second| {
        var k := PacketEvent(events, i + 1, j, m);
        assert calls[..m] == second[..m] && calls[m] == second[m];
        LifeIsFreshRuns(events[..k]);
        assert CacheForgets(events, k);
      } else {
        assert CacheForgets(events, j);
      }
    }
  }

  /** Per cache version in one life of the section, a packet number passes at most once. */
  lemma CachedAtMostOncePerVersion(events: seq<Event>, i: nat, j: nat)
    requires i < j < |events| && events[i].Packet? && events[i] == events[j]
    requires SameVersion(events, i, j) && InHalfRange(PacketsSince(events[..j]))
    ensures !(PassesAt(events, i) && PassesAt(events, j))
  {
    if PassesAt(events, i) && PassesAt(events, j) {
      var first, second := PacketsSince(events[..i]), PacketsSince(events[..j]);
      var calls := second + [events[i].seqno];
      PassedPacketIsRemembered(events, i, j);
      LifeIsFreshRuns(events[..i]);
      LifeIsFreshRuns(events[..j]);
      assert second[|first|] == calls[|first|] && second[|first|] in second;
      assert calls[..|first|] == first && calls[..|second|] == second;
      TwiceOnlyAcrossReset(calls, |first|, |second|);
      NoWrapInHalfRange(calls);
    }
  }

  /** And the first packet with its number in a version passes, unless 512 or more behind. */
  lemma CachedFirstArrivalPasses(events: seq<Event>, j: nat)
    requires j < |events| && events[j].Packet? && events[j].seqno >= 1 && LifeAfter(events[..j]).present
    requires InHalfRange(PacketsSince(events[..j]))
    requires events[j].seqno !in PacketsSince(events[..j])
    requires forall n | n in PacketsSince(events[..j]) :: n - events[j].seqno < WINDOW_BITS
    ensures PassesAt(events, j)
  {
    var past := PacketsSince(events[..j]);
    var calls := past + [events[j].seqno];
    assert calls[..|past|] == past;
    LifeIsFreshRuns(events[..j]);
    FirstNumberPasses(calls, |past|);
  }
}
