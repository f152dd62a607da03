/** A gateway's peers and their reference counts: `addPeer`, `AddReference`, `Dereference` and
    `kill` over every peer object ever created. */
module PeerCounts {

  type Id(==) = nat
  type PeerRef = nat

  datatype Peer = Peer(id: Id, references: int)

  /** Peer objects, referred to by their place, and the active one for each id.  Nothing here asks
      whether a reference that is given up was ever taken. */
  datatype Table = Table(peers: seq<Peer>, active: map<Id, PeerRef>) {
    /** Every active entry is a peer with that id. */
    predicate Sound() {
      forall id | id in active :: active[id] < |peers| && peers[active[id]].id == id
    }

    /** The active peer for this id, or the one `addPeer` is about to create. */
    function PeerOf(id: Id): PeerRef {
      if id in active then active[id] else |peers|
    }

    function Added(id: Id): Table {
      if id in active then this else Table(peers + [Peer(id, 0)], active[id := |peers|])
    }

    function Referenced(p: PeerRef): Table
      requires p < |peers|
    {
      this.(peers := peers[p := peers[p].(references := peers[p].references + 1)])
    }

    /** A peer left without references loses its id's active entry, whosever it is. */
    function Dereferenced(p: PeerRef): Table
      requires p < |peers|
    {
      var left := peers[p].references - 1;
      Table(peers[p := peers[p].(references := left)], if left <= 0 then active - {peers[p].id} else active)
    }

    function Killed(id: Id): Table {
      this.(active := active - {id})
    }

    /** The ids whose peer is left without references when each peer p loses d[p]. */
    function Gone(d: seq<nat>): set<Id>
      requires |d| == |peers|
    {
      set p | 0 <= p < |peers| && d[p] > 0 && peers[p].references - d[p] <= 0 :: peers[p].id
    }

    /** Each peer p dereferenced d[p] times, in whatever order. */
    function Released(d: seq<nat>): Table
      requires |d| == |peers|
    {
      Table(seq(|peers|, p requires 0 <= p < |peers| => peers[p].(references := peers[p].references - d[p])), active - Gone(d))
    }

    /** The counts are c, and a referenced peer is the active one for its id. */
    predicate Live(c: seq<nat>) {
      |c| == |peers| && forall p: nat | p < |peers| :: PeerLive(c, p)
    }

    predicate PeerLive(c: seq<nat>, p: nat)
      requires |c| == |peers| && p < |peers|
    {
      peers[p].references == c[p] && (c[p] > 0 ==> peers[p].id in active && active[peers[p].id] == p)
    }
  }

  // ---------------------------------------------------------------------------------------
  // Live counts stay live
  // ---------------------------------------------------------------------------------------

  lemma AddedStaysLive(t: Table, id: Id, c: seq<nat>)
    requires t.Sound() && t.Live(c)
    ensures var t', p := t.Added(id), t.PeerOf(id);
            && t'.Sound() && p < |t'.peers| && t'.peers[p].id == id && id in t'.active && t'.active[id] == p
            && t'.Live(if id in t.active then c else c + [0])
  {
    var t' := t.Added(id);
    if id !in t.active {
      forall q: nat | q < |t'.peers|
        ensures t'.PeerLive(c + [0], q)
      {
        assert q < |t.peers| ==> t.PeerLive(c, q);
      }
    }
  }

  lemma ReferencedStaysLive(t: Table, p: PeerRef, c: seq<nat>)
    requires t.Live(c) && p < |t.peers| && t.peers[p].id in t.active && t.active[t.peers[p].id] == p
    ensures t.Referenced(p).Live(c[p := c[p] + 1])
  {
    var t', c' := t.Referenced(p), c[p := c[p] + 1];
    forall q: nat | q < |t'.peers|
      ensures t'.PeerLive(c', q)
    {
      assert t.PeerLive(c, q);
    }
  }

  lemma DereferencedStaysLive(t: Table, p: PeerRef, c: seq<nat>)
    requires t.Live(c) && p < |t.peers| && c[p] > 0
    ensures t.Dereferenced(p).Live(c[p := c[p] - 1])
  {
    var t', c' := t.Dereferenced(p), c[p := c[p] - 1];
    assert t.PeerLive(c, p);
    forall q: nat | q < |t'.peers|
      ensures t'.PeerLive(c', q)
    {
      assert t.PeerLive(c, q);
    }
  }

  function Less(c: seq<nat>, d: seq<nat>): (r: seq<nat>)
    requires |c| == |d| && forall p: nat | p < |c| :: d[p] <= c[p]
    ensures |r| == |c| && forall p: nat | p < |c| :: r[p] == c[p] - d[p]
  {
    seq(|c|, p requires 0 <= p < |c| => c[p] - d[p])
  }

  lemma ReleasedStaysLive(t: Table, c: seq<nat>, d: seq<nat>)
    requires t.Live(c) && |d| == |c| && forall p: nat | p < |c| :: d[p] <= c[p]
    ensures t.Released(d).Live(Less(c, d))
  {
    var t', c' := t.Released(d), Less(c, d);
    forall q: nat | q < |t'.peers|
      ensures t'.PeerLive(c', q)
    {
      assert t.PeerLive(c, q);
      forall p: nat | p < |t.peers| && d[p] > 0 && t.peers[p].references - d[p] <= 0
        ensures c'[q] > 0 ==> t.peers[p].id != t.peers[q].id
      {
        assert t.PeerLive(c, p);
      }
    }
  }

  /** Dereferencing one by one is releasing them all. */
  lemma OneMoreReleased(t: Table, d: seq<nat>, p: PeerRef)
    requires |d| == |t.peers| && p < |d|
    ensures t.Released(d).Dereferenced(p) == t.Released(d[p := d[p] + 1])
  {
    var d' := d[p := d[p] + 1];
    var one, all := t.Released(d).Dereferenced(p), t.Released(d');
    assert one.peers == all.peers;
    var last := if t.peers[p].references - d[p] - 1 <= 0 then {t.peers[p].id} else {};
    assert t.Gone(d') == t.Gone(d) + last;
    assert one.active == all.active;
  }

  lemma NoneReleased(t: Table, d: seq<nat>)
    requires |d| == |t.peers| && forall p: nat | p < |d| :: d[p] == 0
    ensures t.Released(d) == t
  {
    assert t.Released(d).peers == t.peers && t.Gone(d) == {};
  }

  // ---------------------------------------------------------------------------------------
  // The object
  // ---------------------------------------------------------------------------------------

  class PeerTable {
    var peers: seq<Peer>
    var active: map<Id, PeerRef>

    function Now(): Table
      reads this
    {
      Table(peers, active)
    }

    constructor ()
      ensures Now() == Table([], map[])
    {
      peers, active := [], map[];
    }

    /** The active peer for this id, created if there is none. */
    method AddPeer(id: Id) returns (p: PeerRef)
      modifies this
      ensures p == old(Now()).PeerOf(id) && Now() == old(Now()).Added(id)
    {
      if id in active {
        return active[id];
      }
      p := |peers|;
      peers, active := peers + [Peer(id, 0)], active[id := p];
    }

    method AddReference(p: PeerRef)
      requires p < |peers|
      modifies this`peers
      ensures Now() == old(Now()).Referenced(p)
    {
      peers := peers[p := peers[p].(references := peers[p].references + 1)];
    }

    /** A peer whose last reference goes is closed and its id taken out of the active map. */
    method Dereference(p: PeerRef)
      requires p < |peers|
      modifies this
      ensures Now() == old(Now()).Dereferenced(p)
    {
      peers := peers[p := peers[p].(references := peers[p].references - 1)];
      if peers[p].references <= 0 {
        active := active - {peers[p].id};
      }
    }

    method Kill(id: Id)
      modifies this`active
      ensures Now() == old(Now()).Killed(id)
    {
      active := active - {id};
    }
  }
}
