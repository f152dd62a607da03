/** Runs of a gateway that are not clean, and what they leave behind. */
module GatewayLeaks {
  import opened Options
  import opened PeerCounts
  import opened Relay
  import opened GatewayRuns
  import opened HarmlessMessages

  lemma OneMore(ops: seq<Op>, g: Gate, op: Op, g': Gate)
    requires After(OPEN_POLICY, ops) == g && Sound(g) && Step(OPEN_POLICY, g, op) == g'
    ensures After(OPEN_POLICY, ops + [op]) == g'
  {
    assert (ops + [op])[..|ops|] == ops;
  }

  lemma ExecuteOne(g: Gate, ref: nat, x: Instruction)
    requires Sound(g) && ref < |g.objects|
    ensures ExecuteAll(OPEN_POLICY, g, ref, [x]) == Execute(OPEN_POLICY, g, ref, x).0
  {
    ExecuteIsSound(OPEN_POLICY, g, ref, x);
    assert [x][1..] == [];
  }

  lemma ExecuteTwo(g: Gate, ref: nat, x: Instruction, y: Instruction, g': Gate)
    requires Sound(g) && ref < |g.objects| && Execute(OPEN_POLICY, g, ref, x) == (g', true)
    ensures Sound(g') && ref < |g'.objects|
    ensures ExecuteAll(OPEN_POLICY, g, ref, [x, y]) == Execute(OPEN_POLICY, g', ref, y).0
  {
    ExecuteIsSound(OPEN_POLICY, g, ref, x);
    assert [x, y][1..] == [y];
    ExecuteOne(g', ref, y);
  }

  // ---------------------------------------------------------------------------------------
  // Two sections with a route to the same peer
  // ---------------------------------------------------------------------------------------

  const TO_NINE := Build(9, 0, 5, 0)
  const ROUTE_A := RouteObject(0, 5, RouteTarget(0, 9, 0, 0), 0)
  const ROUTE_B := RouteObject(1, 5, RouteTarget(0, 9, 0, 0), 0)
  const SECTION_A := Section(0, map[5 := 0], None, [], 0)
  const SECTION_B := Section(1, map[5 := 1], None, [], 0)
  const NEW_A := Gate([], [Section(0, map[], None, [], 0)], map[0 := 0], Table([], map[]), {}, [])
  const ONE := Gate([ROUTE_A], [SECTION_A], map[0 := 0], Table([Peer(9, 1)], map[9 := 0]), {}, [])
  const NEW_B := ONE.(objects := [SECTION_A, Section(1, map[], None, [], 0)], inbound := map[0 := 0, 1 := 1])
  const TWO := Gate([ROUTE_A, ROUTE_B], [SECTION_A, SECTION_B], map[0 := 0, 1 := 1], Table([Peer(9, 2)], map[9 := 0]), {}, [])

  const FIRST := Message(0, [TO_NINE])
  const SECOND := Message(1, [TO_NINE])

  lemma NewA()
    ensures Sound(EMPTY) && WithSection(EMPTY, 0) == NEW_A && Sound(NEW_A)
  {
    EmptyIsLive();
  }

  lemma BuildsOne()
    ensures Sound(EMPTY) && Step(OPEN_POLICY, EMPTY, FIRST) == ONE && Sound(ONE)
  {
    NewA();
    NextIsSound(OPEN_POLICY, EMPTY, FIRST);
    ExecuteOne(NEW_A, 0, TO_NINE);
    assert Installed(NEW_A, 0, TO_NINE) == ONE;
  }

  lemma NewB()
    ensures Sound(ONE) && WithSection(ONE, 1) == NEW_B && Sound(NEW_B)
  {
    BuildsOne();
    assert WithSection(ONE, 1).inbound == NEW_B.inbound;
  }

  lemma InstallsTwo()
    requires Sound(NEW_B)
    ensures Execute(OPEN_POLICY, NEW_B, 1, TO_NINE).0 == TWO
  {
    assert Installed(NEW_B, 1, TO_NINE) == TWO;
  }

  lemma BuildsTwo()
    ensures Sound(ONE) && Step(OPEN_POLICY, ONE, SECOND) == TWO && Sound(TWO)
  {
    NewB();
    InstallsTwo();
    ExecuteIsSound(OPEN_POLICY, NEW_B, 1, TO_NINE);
    ExecuteOne(NEW_B, 1, TO_NINE);
  }

  // ---------------------------------------------------------------------------------------
  // Destroyed twice
  // ---------------------------------------------------------------------------------------

  const THREE := TWO.(inbound := map[1 := 1], table := Table([Peer(9, 1)], map[9 := 0]))
  const FOUR := THREE.(table := Table([Peer(9, 0)], map[]))

  lemma UsesOfA(g: Gate)
    requires g.heap == TWO.heap && |g.table.peers| == 1
    ensures AllUses(g, SECTION_A) == [1]
  {
    assert RoutesTo(g.heap, SECTION_A, 0) == {5};
  }

  lemma LastReleased(id: Id)
    ensures Table([Peer(id, 1)], map[id := 0]).Released([1]) == Table([Peer(id, 0)], map[])
  {
    var t, d: seq<nat> := Table([Peer(id, 1)], map[id := 0]), [1];
    assert d[0] > 0 && t.peers[0].references - d[0] <= 0;
    assert t.peers[0].id in t.Gone(d);
    assert t.Released(d).peers == [Peer(id, 0)];
    assert map[id := 0] - t.Gone(d) == map[];
  }

  lemma ClosesOnce()
    ensures Closed(TWO, 0) == THREE
  {
    UsesOfA(TWO);
    assert TWO.table.Gone([1]) == {};
    assert TWO.table.Released([1]).peers == [Peer(9, 1)];
    assert TWO.inbound - {0} == map[1 := 1];
  }

  lemma ClosesAgain()
    ensures Closed(THREE, 0) == FOUR
  {
    UsesOfA(THREE);
    LastReleased(9);
    assert map[1 := 1] - {0} == map[1 := 1];
  }

  /** Two destroys in one message: the peer of another section's live route is left without
      references and is no longer active. */
  lemma DestroyedTwice()
    ensures After(OPEN_POLICY, [] + [FIRST] + [SECOND] + [Message(0, [Destroy, Destroy])]) == FOUR
    ensures FOUR.inbound == map[1 := 1] && FOUR.heap[FOUR.objects[1].routes[5]].target.peer == 0
    ensures FOUR.table == Table([Peer(9, 0)], map[])
  {
    BuildsOne();
    BuildsTwo();
    ClosesOnce();
    ClosesAgain();
    ExecuteTwo(TWO, 0, Destroy, Destroy, THREE);
    OneMore([], EMPTY, FIRST, ONE);
    OneMore([] + [FIRST], ONE, SECOND, TWO);
    OneMore([] + [FIRST] + [SECOND], TWO, Message(0, [Destroy, Destroy]), FOUR);
  }

  // ---------------------------------------------------------------------------------------
  // Built after the destroy
  // ---------------------------------------------------------------------------------------

  const GONE_A := NEW_A.(inbound := map[])
  const LEAKED := Gate([ROUTE_A], [SECTION_A], map[], Table([Peer(9, 1)], map[9 := 0]), {}, [])

  lemma ClosesNew()
    ensures Closed(NEW_A, 0) == GONE_A
  {
    assert NEW_A.table.Released([]) == Table([], map[]);
    assert AllUses(NEW_A, NEW_A.objects[0]) == [];
    assert map[0 := 0] - {0} == map[];
  }

  /** A route built after the destroy: its peer keeps a reference that nothing live holds. */
  lemma BuiltAfterDestroy()
    ensures After(OPEN_POLICY, [] + [Message(0, [Destroy, TO_NINE])]) == LEAKED
  {
    NewA();
    ClosesNew();
    ExecuteTwo(NEW_A, 0, Destroy, TO_NINE, GONE_A);
    assert Installed(GONE_A, 0, TO_NINE) == LEAKED;
    OneMore([], EMPTY, Message(0, [Destroy, TO_NINE]), LEAKED);
  }

  // ---------------------------------------------------------------------------------------
  // Tunnels
  // ---------------------------------------------------------------------------------------

  const OPENED := ONE.(table := Table([Peer(9, 2)], map[9 := 0]), tunnels := {7}, clients := [Client(0, false)])
  const STOPPED := OPENED.(table := Table([Peer(9, 1)], map[9 := 0]), clients := [Client(0, true)])
  const STOPPED_AGAIN := STOPPED.(table := Table([Peer(9, 0)], map[]))

  lemma Opens()
    ensures Sound(ONE) && Step(OPEN_POLICY, ONE, Open(7, 9, true)) == OPENED && Sound(OPENED)
  {
    BuildsOne();
    assert Opened(ONE, 7, 9, true) == OPENED;
    OpenedIsSound(ONE, 7, 9, true);
  }

  lemma Stops()
    requires Sound(OPENED)
    ensures Step(OPEN_POLICY, OPENED, Stop(0)) == STOPPED && Sound(STOPPED)
  {
    assert Stopped(OPENED, 0) == STOPPED;
    StoppedIsSound(OPENED, 0);
  }

  lemma StopsAgain()
    requires Sound(STOPPED)
    ensures Step(OPEN_POLICY, STOPPED, Stop(0)) == STOPPED_AGAIN
  {
    assert map[9 := 0] - {9} == map[];
    assert Stopped(STOPPED, 0) == STOPPED_AGAIN;
  }

  /** A tunnel stopped twice: a live route leads to a peer without references. */
  lemma StoppedTwice()
    ensures After(OPEN_POLICY, [] + [FIRST] + [Open(7, 9, true)] + [Stop(0)] + [Stop(0)]) == STOPPED_AGAIN
    ensures STOPPED_AGAIN.inbound == map[0 := 0] && STOPPED_AGAIN.table == Table([Peer(9, 0)], map[])
  {
    BuildsOne();
    Opens();
    Stops();
    StopsAgain();
    OneMore([], EMPTY, FIRST, ONE);
    OneMore([] + [FIRST], ONE, Open(7, 9, true), OPENED);
    OneMore([] + [FIRST] + [Open(7, 9, true)], OPENED, Stop(0), STOPPED);
    OneMore([] + [FIRST] + [Open(7, 9, true)] + [Stop(0)], STOPPED, Stop(0), STOPPED_AGAIN);
  }

  /** A tunnel that failed to open: its first hop keeps a reference that nobody can give up. */
  lemma FailedToOpen()
    ensures After(OPEN_POLICY, [] + [Open(7, 9, false)]) == EMPTY.(table := Table([Peer(9, 1)], map[9 := 0]))
  {
    EmptyIsLive();
    OneMore([], EMPTY, Open(7, 9, false), EMPTY.(table := Table([Peer(9, 1)], map[9 := 0])));
  }
}
