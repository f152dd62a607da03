/** The replay window of tunnel/seqno.go: 512 bits in eight words, shifted in place, shown to
    be the plain set of numbers accepted since the last wrap reset. */
module ReplayWindow {
  import opened Arith
  import opened Word64

  const WORDS: nat := 8
  const WINDOW_BITS: nat := 512
  const HALF_RANGE: nat := 0x8000_0000

  /** Bit d of the window stands for the number d below `latest`; bit 0 is the top bit of word 0. */
  predicate WindowBit(window: seq<uint64>, d: nat)
    requires |window| == WORDS && d < WINDOW_BITS
  {
    Bit(window[d / 64], 63 - d % 64)
  }

  /** Word i of the window after a shift by diff, from the words before it. */
  function ShiftedWord(window: seq<uint64>, i: nat, diff: nat): uint64
    requires |window| == WORDS && i < WORDS && diff < WINDOW_BITS
  {
    var wordShift, bitShift := diff / 64, diff % 64;
    if i < wordShift then
      0
    else if bitShift > 0 && i > wordShift then
      Or(Shr(window[i - wordShift], bitShift), Shl(window[i - wordShift - 1], 64 - bitShift))
    else
      Shr(window[i - wordShift], bitShift)
  }

  lemma DistanceSplit(d: nat, diff: nat)
    requires diff <= d < WINDOW_BITS
    ensures d % 64 >= diff % 64 ==> (d - diff) / 64 == d / 64 - diff / 64
    ensures d % 64 >= diff % 64 ==> (d - diff) % 64 == d % 64 - diff % 64
    ensures d % 64 < diff % 64 ==> (d - diff) / 64 == d / 64 - diff / 64 - 1
    ensures d % 64 < diff % 64 ==> (d - diff) % 64 == 64 + d % 64 - diff % 64
  {
  }

  /** Word by word, the shift moves every bit of the 512-bit row by exactly diff. */
  lemma ShiftedWordBit(window: seq<uint64>, diff: nat, d: nat)
    requires |window| == WORDS && diff < WINDOW_BITS && d < WINDOW_BITS
    ensures Bit(ShiftedWord(window, d / 64, diff), 63 - d % 64)
            <==> d >= diff && WindowBit(window, d - diff)
  {
    var i, k := d / 64, 63 - d % 64;
    var wordShift, bitShift := diff / 64, diff % 64;
    if d >= diff {
      DistanceSplit(d, diff);
    }
    if i < wordShift {
      BitZero(k);
    } else if bitShift > 0 && i > wordShift {
      BitShiftPair(window[i - wordShift], window[i - wordShift - 1], bitShift, k);
    } else {
      BitShiftTop(window[i - wordShift], bitShift, k);
    }
  }

  /** The multiword shift, in place and from the last word down, so that every word is read
      before it is overwritten. */
  method ShiftRightInPlace(window: array<uint64>, diff: uint32)
    requires window.Length == WORDS
    modifies window
    ensures forall d: nat | d < WINDOW_BITS ::
              WindowBit(window[..], d) <==> d >= diff && WindowBit(old(window[..]), d - diff)
  {
    if diff >= WINDOW_BITS {
      ClearWindow(window);
      return;
    }
    var wordShift, bitShift := diff / 64, diff % 64;
    ghost var was := window[..];
    for i := WORDS downto 0
      invariant window.Length == WORDS
      invariant forall j | 0 <= j < i :: window[j] == was[j]
      invariant forall j | i <= j < WORDS :: window[j] == ShiftedWord(was, j, diff)
    {
      var srcIndex := i - wordShift;
      if srcIndex < 0 {
        window[i] := 0;
        continue;
      }
      var newVal := Shr(window[srcIndex], bitShift);
      if bitShift > 0 && srcIndex > 0 {
        newVal := Or(newVal, Shl(window[srcIndex - 1], 64 - bitShift));
      }
      window[i] := newVal;
    }
    forall d: nat | d < WINDOW_BITS
      ensures WindowBit(window[..], d) <==> d >= diff && WindowBit(was, d - diff)
    {
      ShiftedWordBit(was, diff, d);
    }
  }

  method ClearWindow(window: array<uint64>)
    requires window.Length == WORDS
    modifies window
    ensures forall d: nat | d < WINDOW_BITS :: !WindowBit(window[..], d)
    ensures forall i | 0 <= i < WORDS :: window[i] == 0
  {
    for i := 0 to WORDS
      invariant forall j | 0 <= j < i :: window[j] == 0
    {
      window[i] := 0;
    }
    forall d: nat | d < WINDOW_BITS
      ensures !WindowBit(window[..], d)
    {
      BitZero(63 - d % 64);
    }
  }

  /** Setting one bit of one word sets one bit of the row. */
  lemma SetBit(was: seq<uint64>, now: seq<uint64>, at: nat)
    requires |was| == WORDS && at < WINDOW_BITS
    requires now == was[at / 64 := Or(was[at / 64], Shl(1, 63 - at % 64))]
    ensures forall d: nat | d < WINDOW_BITS :: WindowBit(now, d) <==> d == at || WindowBit(was, d)
  {
    forall d: nat | d < WINDOW_BITS
      ensures WindowBit(now, d) <==> d == at || WindowBit(was, d)
    {
      if d / 64 == at / 64 {
        BitSet(was[at / 64], 63 - at % 64, 63 - d % 64);
      }
    }
  }

  // ---------------------------------------------------------------------------------------
  // The reference: a number and a set
  // ---------------------------------------------------------------------------------------

  /** What the 512 bits stand for: the largest number and every number accepted since the
      last wrap reset. */
  datatype Window = Window(latest: nat, accepted: set<nat>) {
    predicate Sound() {
      && (forall n | n in accepted :: n <= latest)
      && (latest in accepted || (latest == 0 && accepted == {}))
    }

    predicate Wraps(seqno: nat) {
      seqno < latest && latest - seqno > HALF_RANGE
    }

    predicate Accepts(seqno: nat) {
      || Wraps(seqno)
      || seqno > latest
      || (seqno < latest && latest - seqno < WINDOW_BITS && seqno !in accepted)
    }

    function Next(seqno: nat): Window {
      if Wraps(seqno) then Window(seqno, {seqno})
      else if !Accepts(seqno) then this
      else Window(if seqno > latest then seqno else latest, accepted + {seqno})
    }
  }

  const FRESH := Window(0, {})

  /** The words of the window say exactly which numbers behind `latest` were accepted. */
  ghost predicate Records(window: seq<uint64>, w: Window)
    requires |window| == WORDS
  {
    forall d: nat | d < WINDOW_BITS :: WindowBit(window, d) <==> w.latest - d in w.accepted
  }

  ghost predicate MovedOn(was: seq<uint64>, now: seq<uint64>, diff: nat)
    requires |was| == |now| == WORDS
  {
    forall d: nat | d < WINDOW_BITS :: WindowBit(now, d) <==> d == 0 || (d >= diff && WindowBit(was, d - diff))
  }

  lemma AdvanceRecords(was: seq<uint64>, now: seq<uint64>, w: Window, seqno: nat)
    requires |was| == |now| == WORDS && w.Sound() && Records(was, w) && seqno > w.latest && MovedOn(was, now, seqno - w.latest)
    ensures Records(now, w.Next(seqno))
  {
    var diff := seqno - w.latest;
    forall d: nat | d < WINDOW_BITS
      ensures WindowBit(now, d) <==> seqno - d in w.accepted + {seqno}
    {
      if d >= diff {
        assert WindowBit(was, d - diff) <==> w.latest - (d - diff) in w.accepted;
      }
    }
  }

  lemma FillRecords(was: seq<uint64>, now: seq<uint64>, w: Window, at: nat)
    requires |was| == |now| == WORDS && w.Sound() && Records(was, w) && at < WINDOW_BITS && 0 < at <= w.latest
    requires !WindowBit(was, at)
    requires forall d: nat | d < WINDOW_BITS :: WindowBit(now, d) <==> d == at || WindowBit(was, d)
    ensures w.Accepts(w.latest - at)
    ensures Records(now, w.Next(w.latest - at))
  {
  }

  class SeqnoWindow {
    var latest: uint32
    const window: array<uint64>
    ghost var accepted: set<nat>

    ghost predicate Valid()
      reads this, window
    {
      && window.Length == WORDS
      && Model().Sound()
      && Records(window[..], Model())
    }

    ghost function Model(): Window
      reads this
    {
      Window(latest, accepted)
    }

    constructor ()
      ensures Valid() && Model() == FRESH && fresh(window)
    {
      latest, accepted := 0, {};
      window := new uint64[WORDS];
      new;
      ClearWindow(window);
    }

    /** The reset on a cache update. */
    method Reset()
      requires Valid()
      modifies this, window
      ensures Valid() && Model() == FRESH
    {
      latest, accepted := 0, {};
      ClearWindow(window);
    }

    method CheckSeqno(seqno: uint32) returns (ok: bool)
      requires Valid()
      modifies this, window
      ensures Valid()
      ensures ok == old(Model()).Accepts(seqno)
      ensures Model() == old(Model()).Next(seqno)
    {
      if seqno < latest && latest - seqno > HALF_RANGE {
        StartAt();
        latest, accepted := seqno, {seqno};
        return true;
      }
      if seqno > latest {
        Advance(seqno);
        return true;
      }
      if seqno == latest {
        return false;
      }
      var diff := latest - seqno;
      if diff >= WINDOW_BITS {
        return false;
      }
      ok := Fill(diff);
    }

    /** The branch for a new maximum. */
    method Advance(seqno: uint32)
      requires Valid() && seqno > latest
      modifies this, window
      ensures Valid() && Model() == old(Model()).Next(seqno)
    {
      ghost var was, w := window[..], Model();
      MoveOn(seqno - latest);
      AdvanceRecords(was, window[..], w, seqno);
      latest, accepted := seqno, accepted + {seqno};
    }

    /** Every bit moves by the distance and the first one is set. */
    method MoveOn(diff: uint32)
      requires window.Length == WORDS && diff > 0
      modifies window
      ensures MovedOn(old(window[..]), window[..], diff)
    {
      if diff >= WINDOW_BITS {
        StartAt();
        return;
      }
      ShiftRightInPlace(window, diff);
      ghost var shifted := window[..];
      SetBitAt(0);
      assert forall d: nat | d < WINDOW_BITS :: WindowBit(window[..], d) <==> d == 0 || WindowBit(shifted, d);
    }

    /** The branch for a number inside the window. */
    method Fill(diff: nat) returns (ok: bool)
      requires Valid() && 0 < diff < WINDOW_BITS && diff <= latest
      modifies this, window
      ensures Valid()
      ensures ok == old(Model()).Accepts(old(latest) - diff)
      ensures Model() == old(Model()).Next(old(latest) - diff)
    {
      ghost var was, w := window[..], Model();
      if Bit(window[diff / 64], 63 - diff % 64) {
        assert WindowBit(was, diff);
        return false;
      }
      assert !WindowBit(was, diff);
      SetBitAt(diff);
      FillRecords(was, window[..], w, diff);
      accepted := accepted + {latest - diff};
      return true;
    }

    /** `window[w] |= 1 << b` for the word and bit of distance d. */
    method SetBitAt(d: nat)
      requires window.Length == WORDS && d < WINDOW_BITS
      modifies window
      ensures forall e: nat | e < WINDOW_BITS ::
                WindowBit(window[..], e) <==> e == d || WindowBit(old(window[..]), e)
    {
      window[d / 64] := Or(window[d / 64], Shl(1, 63 - d % 64));
      SetBit(old(window[..]), window[..], d);
    }

    /** All zeros, then `window[0] = 1 << 63`. */
    method StartAt()
      requires window.Length == WORDS
      modifies window
      ensures forall e: nat | e < WINDOW_BITS :: WindowBit(window[..], e) <==> e == 0
    {
      ClearWindow(window);
      SetBitAt(0);
    }
  }
}
