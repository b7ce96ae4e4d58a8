/** The PPU scroll register at 0x2005 (code/ch6.4/src/ppu/registers/scroll.rs): two one-byte
    writes share one port, and a latch says whether the next byte is the horizontal or the
    vertical offset. */
module Scroll {

  /** The three fields of a `ScrollRegister`, as a value. */
  datatype ScrollState = ScrollState(scrollX: bv8, scrollY: bv8, latch: bool)

  /** The state of `ScrollRegister::new`. */
  const Initial := ScrollState(0, 0, false)

  /** The state after `write(data)`: the first byte of a pair sets X, the second sets Y, and the
      latch flips every time. */
  function AfterWrite(s: ScrollState, data: bv8): (t: ScrollState)
    ensures !s.latch ==> t.scrollX == data && t.scrollY == s.scrollY
    ensures s.latch ==> t.scrollY == data && t.scrollX == s.scrollX
    ensures t.latch == !s.latch
  {
    if !s.latch then ScrollState(data, s.scrollY, !s.latch)
    else ScrollState(s.scrollX, data, !s.latch)
  }

  /** The state after writing `ws` in order. */
  function AfterWrites(s: ScrollState, ws: seq<bv8>): ScrollState
    decreases |ws|
  {
    if |ws| == 0 then s else AfterWrites(AfterWrite(s, ws[0]), ws[1..])
  }

  /** The latch records the parity of the number of bytes written. */
  lemma {:induction false} LatchParity(s: ScrollState, ws: seq<bv8>)
    ensures AfterWrites(s, ws).latch == (s.latch != (|ws| % 2 == 1))
    decreases |ws|
  {
    if |ws| > 0 {
      LatchParity(AfterWrite(s, ws[0]), ws[1..]);
    }
  }

  /** Starting from a clear latch, a stream of an even, nonzero number of bytes leaves the last
      pair in place: the next-to-last byte is X, the last is Y, and the latch is clear again. */
  lemma {:induction false} LastPairWins(s: ScrollState, ws: seq<bv8>)
    requires !s.latch
    requires |ws| >= 2 && |ws| % 2 == 0
    ensures AfterWrites(s, ws) == ScrollState(ws[|ws| - 2], ws[|ws| - 1], false)
    decreases |ws|
  {
    var t := AfterWrite(AfterWrite(s, ws[0]), ws[1]);
    assert AfterWrites(s, ws) == AfterWrites(t, ws[2..]) by {
      assert ws[1..][1..] == ws[2..];
      assert ws[1..][0] == ws[1];
    }
    if |ws| > 2 {
      LastPairWins(t, ws[2..]);
    } else {
      assert ws[2..] == [];
    }
  }

  /** The scroll register, updated in place by CPU writes to 0x2005. */
  class ScrollRegister {
    var scrollX: bv8
    var scrollY: bv8
    var latch: bool

    function State(): ScrollState
      reads this
    {
      ScrollState(scrollX, scrollY, latch)
    }

    /** `ScrollRegister::new`: both offsets 0, latch clear. */
    constructor ()
      ensures State() == Initial
    {
      scrollX := 0;
      scrollY := 0;
      latch := false;
    }

    /** `write`: store `data` in X or Y according to the latch and flip it. */
    method Write(data: bv8)
      modifies this
      ensures State() == AfterWrite(old(State()), data)
    {
      if !latch {
        scrollX := data;
      } else {
        scrollY := data;
      }
      latch := !latch;
    }

    /** `reset_latch`: clear the latch; both offsets stay. */
    method ResetLatch()
      modifies this
      ensures State() == old(State()).(latch := false)
    {
      latch := false;
    }
  }
}
