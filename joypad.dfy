/** The NES standard controller as a serial shift register (code/ch7/src/joypad.rs).
    Writing 1 to the port turns strobe on and rewinds the register to the first button; with
    strobe off every read reports the next button, one bit per read, and once all eight have been
    reported every further read returns 1. */
module Joypad {

  /** The bits of `JoypadButton`. */
  const Right: bv8 := 0x80
  const Left: bv8 := 0x40
  const Down: bv8 := 0x20
  const Up: bv8 := 0x10
  const Start: bv8 := 0x08
  const Select: bv8 := 0x04
  const ButtonB: bv8 := 0x02
  const ButtonA: bv8 := 0x01

  /** The order in which successive reads report the buttons. */
  const SerialOrder: seq<bv8> := [ButtonA, ButtonB, Select, Start, Up, Down, Left, Right]

  /** `JoypadButton::contains`: every bit of `button` is set in `status`. */
  predicate Pressed(status: bv8, button: bv8) {
    status & button == button
  }

  /** The byte `read` returns when the register points at `index`. */
  function Response(status: bv8, index: nat): (r: bv8)
    ensures r == 0 || r == 1
    ensures index > 7 ==> r == 1
    ensures index <= 7 ==> (r == 1 <==> Pressed(status, SerialOrder[index]))
  {
    if index > 7 then 1 else (ButtonBit(status, index); (status & (1 << index)) >> index)
  }

  /** Bit `i` of the status, moved down to bit 0, is 0 or 1, and 1 exactly when the `i`-th
      button of the serial order is pressed. */
  lemma ButtonBit(status: bv8, i: nat)
    requires i <= 7
    ensures var b := (status & (1 << i)) >> i; (b == 0 || b == 1) && (b == 1 <==> Pressed(status, SerialOrder[i]))
  {
    if i == 0 { assert SerialOrder[i] == 1; }
    else if i == 1 { assert SerialOrder[i] == 2; }
    else if i == 2 { assert SerialOrder[i] == 4; }
    else if i == 3 { assert SerialOrder[i] == 8; }
    else if i == 4 { assert SerialOrder[i] == 0x10; }
    else if i == 5 { assert SerialOrder[i] == 0x20; }
    else if i == 6 { assert SerialOrder[i] == 0x40; }
    else { assert SerialOrder[i] == 0x80; }
  }

  /** `JoypadButton::set(button, pressed)`: the bits of `button` become all set or all clear. */
  function WithButton(status: bv8, button: bv8, pressed: bool): (r: bv8)
    ensures r & !button == status & !button
    ensures r & button == (if pressed then button else 0)
  {
    if pressed then status | button else status & !button
  }

  /** The three fields of a `Joypad`, as a value. */
  datatype PadState = PadState(strobe: bool, index: nat, status: bv8)

  /** The index never passes 8 (the source keeps it in a `u8`, which therefore never wraps). */
  predicate Wf(s: PadState) {
    s.index <= 8
  }

  /** The state after `write(data)`. */
  function AfterWrite(s: PadState, data: bv8): (t: PadState)
    ensures t.strobe == (data & 1 == 1)
    ensures t.strobe ==> t.index == 0
    ensures !t.strobe ==> t.index == s.index
    ensures t.status == s.status
    ensures Wf(s) ==> Wf(t)
  {
    var strobe := data & 1 == 1;
    PadState(strobe, if strobe then 0 else s.index, s.status)
  }

  /** The state after one `read`. */
  function AfterRead(s: PadState): (t: PadState)
    ensures t.strobe == s.strobe && t.status == s.status
    ensures s.index > 7 || s.strobe ==> t.index == s.index
    ensures s.index <= 7 && !s.strobe ==> t.index == s.index + 1
    ensures Wf(s) ==> Wf(t)
  {
    if s.index > 7 then s
    else if !s.strobe && s.index <= 7 then s.(index := s.index + 1)
    else s
  }

  /** The bytes returned by `n` successive reads from `s`. */
  function Reads(s: PadState, n: nat): (r: seq<bv8>)
    ensures |r| == n
    decreases n
  {
    if n == 0 then [] else [Response(s.status, s.index)] + Reads(AfterRead(s), n - 1)
  }

  /** The state after `n` successive reads from `s`. */
  function AfterReads(s: PadState, n: nat): PadState
    decreases n
  {
    if n == 0 then s else AfterReads(AfterRead(s), n - 1)
  }

  /** With strobe on, the register never advances: every read reports the same bit. */
  lemma {:induction false} StrobeOnRepeats(s: PadState, n: nat)
    requires s.strobe
    ensures forall k | 0 <= k < n :: Reads(s, n)[k] == Response(s.status, s.index)
    ensures AfterReads(s, n) == s
    decreases n
  {
    if n > 0 {
      StrobeOnRepeats(AfterRead(s), n - 1);
    }
  }

  /** The register index after `i` steps, which stops at 8. */
  function Capped(i: nat): (c: nat)
    ensures c <= 8 && (i <= 8 ==> c == i)
  {
    if i >= 8 then 8 else i
  }

  /** Read `k + 1` from `s` is read `k` from the state after the first read. */
  lemma ReadsTail(s: PadState, n: nat, k: nat)
    requires k + 1 < n
    ensures Reads(s, n)[k + 1] == Reads(AfterRead(s), n - 1)[k]
  {
  }

  /** With strobe off, read `k` reports the button at index `index + k`, saturating at 8, where
      every read answers 1. */
  lemma {:induction false} StrobeOffShifts(s: PadState, n: nat)
    requires !s.strobe && Wf(s)
    ensures forall k | 0 <= k < n :: Reads(s, n)[k] == Response(s.status, Capped(s.index + k))
    ensures AfterReads(s, n).index == Capped(s.index + n)
    ensures AfterReads(s, n).strobe == s.strobe && AfterReads(s, n).status == s.status
    decreases n
  {
    if n > 0 {
      var t := AfterRead(s);
      StrobeOffShifts(t, n - 1);
      assert Capped(t.index + (n - 1)) == Capped(s.index + n);
      forall k | 0 <= k < n
        ensures Reads(s, n)[k] == Response(s.status, Capped(s.index + k))
      {
        if k > 0 {
          assert Capped(t.index + (k - 1)) == Capped(s.index + k);
          ReadsTail(s, n, k - 1);
        }
      }
    }
  }

  /** After strobing (`write(1)` then `write(0)`), eight reads report A, B, SELECT, START, UP,
      DOWN, LEFT, RIGHT in that order and every later read returns 1. */
  lemma SerialReport(s: PadState, n: nat)
    requires Wf(s)
    ensures var t := AfterWrite(AfterWrite(s, 1), 0);
      && (forall k | 0 <= k < n && k < 8 :: (Reads(t, n)[k] == 1 <==> Pressed(s.status, SerialOrder[k])))
      && (forall k | 8 <= k < n :: Reads(t, n)[k] == 1)
  {
    var t := AfterWrite(AfterWrite(s, 1), 0);
    StrobeOffShifts(t, n);
  }

  /** The state `Joypad::new` starts in: strobe off, index 0, no button held. */
  const NewPad := PadState(false, 0, 0)

  /** `set_button_pressed_status(button, true)` on a state value. */
  function Held(s: PadState, button: bv8): PadState {
    s.(status := WithButton(s.status, button, true))
  }

  /** The sequence pinned by `test_strobe_mode_on_off`: with RIGHT, LEFT, SELECT and B held,
      eight reads give 0,1,1,0,0,0,1,1, ten more give 1, and strobing again returns the
      register to where it started. */
  lemma StrobeOnOffVector()
    ensures var s := Held(Held(Held(Held(AfterWrite(NewPad, 0), Right), Left), Select), ButtonB);
      && Reads(s, 18) == [0, 1, 1, 0, 0, 0, 1, 1] + seq(10, _ => 1)
      && AfterWrite(AfterWrite(AfterReads(s, 18), 1), 0) == s
  {
    var s := PadState(false, 0, Right | Left | Select | ButtonB);
    assert Held(Held(Held(Held(AfterWrite(NewPad, 0), Right), Left), Select), ButtonB) == s;
    StrobeOffShifts(s, 18);
    var expected: seq<bv8> := [0, 1, 1, 0, 0, 0, 1, 1] + seq(10, _ => 1);
    assert forall k | 0 <= k < 18 :: Reads(s, 18)[k] == expected[k];
  }

  /** The sequence pinned by `test_strobe_mode`: with strobe on and A held, every read gives 1. */
  lemma StrobeModeVector(n: nat)
    ensures forall k | 0 <= k < n :: Reads(Held(AfterWrite(NewPad, 1), ButtonA), n)[k] == 1
  {
    StrobeOnRepeats(Held(AfterWrite(NewPad, 1), ButtonA), n);
  }

  /** A controller port, updated in place by the CPU's accesses at 0x4016. */
  class Joypad {
    var strobe: bool
    var buttonIndex: nat
    var buttonStatus: bv8

    function State(): PadState
      reads this
    {
      PadState(strobe, buttonIndex, buttonStatus)
    }

    ghost predicate Valid()
      reads this
    {
      Wf(State())
    }

    /** `Joypad::new`: strobe off, index 0, no button pressed. */
    constructor ()
      ensures Valid()
      ensures !strobe && buttonIndex == 0 && buttonStatus == 0
    {
      strobe := false;
      buttonIndex := 0;
      buttonStatus := 0;
    }

    /** `write`: strobe follows bit 0 of `data`; turning it on rewinds the index. */
    method Write(data: bv8)
      requires Valid()
      modifies this
      ensures Valid()
      ensures State() == AfterWrite(old(State()), data)
      ensures strobe == (data & 1 == 1)
      ensures buttonIndex == if strobe then 0 else old(buttonIndex)
      ensures buttonStatus == old(buttonStatus)
    {
      strobe := data & 1 == 1;
      if strobe {
        buttonIndex := 0;
      }
    }

    /** `read`: report the bit under the index, and advance it unless strobe is on or all eight
        buttons have been reported. */
    method Read() returns (r: bv8)
      requires Valid()
      modifies this
      ensures Valid()
      ensures r == Response(old(buttonStatus), old(buttonIndex))
      ensures State() == AfterRead(old(State()))
      ensures old(buttonIndex) > 7 ==> r == 1 && State() == old(State())
    {
      if buttonIndex > 7 {
        return 1;
      }
      r := (buttonStatus & (1 << buttonIndex)) >> buttonIndex;
      if !strobe && buttonIndex <= 7 {
        buttonIndex := buttonIndex + 1;
      }
    }

    /** `set_button_pressed_status`: only the bits of `button` change; strobe and index stay. */
    method SetButtonPressedStatus(button: bv8, pressed: bool)
      requires Valid()
      modifies this
      ensures Valid()
      ensures buttonStatus == WithButton(old(buttonStatus), button, pressed)
      ensures strobe == old(strobe) && buttonIndex == old(buttonIndex)
    {
      if pressed {
        buttonStatus := buttonStatus | button;
      } else {
        buttonStatus := buttonStatus & !button;
      }
    }
  }
}
