/** The keyboard-matrix decoder (gw_readB, gw_readBA, gw_readK): turns the
    host's flat button mask into what the CPU reads back on its B, BA and K
    inputs. Each entry of the keyboard table packs four 8-bit button masks,
    one per K line; a multikey entry describes a joystick. */
module Keyboard {
  import opened Common

  /** gw_keyboard (packed words) and gw_keyboard_multikey. Entries 0..7 are
      the S lines, entry 8 the BA key and entry 9 the B key. */
  datatype KeyboardTable = KeyboardTable(words: seq<Word>, multikey: seq<bool>)

  predicate ValidTable(t: KeyboardTable)
  {
    |t.words| >= 10 && |t.multikey| >= 8
  }

  /** Only the eight low button bits are used; pause and power are ignored. */
  function PressedKeys(buttons: Word): (k: Word)
    ensures k <= 0xFF
  {
    buttons & 0xFF
  }

  /** Truncation of an `unsigned int` to an `unsigned char`. */
  function Low(x: Word): Byte
  {
    (x & 0xFF) as Byte
  }

  /** Bit i of a K value (K has four lines). */
  predicate Bit(x: Byte, i: nat)
    requires i < 4
  {
    if i == 0 then (x & 1) != 0
    else if i == 1 then (x & 2) != 0
    else if i == 2 then (x & 4) != 0
    else (x & 8) != 0
  }

  /** Byte i of a packed table word: the button mask of K line i. */
  function Lane(w: Word, i: nat): Word
    requires i < 4
  {
    if i == 0 then w & 0xFF
    else if i == 1 then (w >> 8) & 0xFF
    else if i == 2 then (w >> 16) & 0xFF
    else (w >> 24) & 0xFF
  }

  // ---------------------------------------------------------------------
  // B and BA: single dedicated keys, pulled up

  /** Reads 0 exactly when the pressed mask equals the table word, 1 otherwise. */
  function PullUpProbe(word: Word, buttons: Word): Byte
  {
    var keys := PressedKeys(buttons);
    if keys == 0 then 1
    else if word == keys then 0
    else 1
  }

  /** gw_readB: the key at table entry 9. */
  function ReadB(t: KeyboardTable, buttons: Word): (r: Byte)
    requires |t.words| > 9
    ensures r == 0 || r == 1
    ensures PressedKeys(buttons) == 0 ==> r == 1
    ensures r == 0 <==> PressedKeys(buttons) != 0 && t.words[9] == PressedKeys(buttons)
  {
    PullUpProbe(t.words[9], buttons)
  }

  /** gw_readBA: the key at table entry 8. */
  function ReadBA(t: KeyboardTable, buttons: Word): (r: Byte)
    requires |t.words| > 8
    ensures r == 0 || r == 1
    ensures PressedKeys(buttons) == 0 ==> r == 1
    ensures r == 0 <==> PressedKeys(buttons) != 0 && t.words[8] == PressedKeys(buttons)
  {
    PullUpProbe(t.words[8], buttons)
  }

  /** The probes compare the whole word: an entry with a bit above the low byte
      never reads as pressed. */
  lemma PullUpWideEntryNeverPressed(word: Word, buttons: Word)
    requires word > 0xFF
    ensures PullUpProbe(word, buttons) == 1
  {
  }

  /** Pause and power (bits 8 and 9) do not affect the probes. */
  lemma PullUpIgnoresHighButtons(word: Word, buttons: Word)
    ensures PullUpProbe(word, buttons) == PullUpProbe(word, buttons & 0xFF)
  {
  }

  // ---------------------------------------------------------------------
  // K lines: the per-line tests

  /** The four bytes of a word OR-ed together: the buttons a line uses. */
  function JoystickDir(w: Word): Word
  {
    (w & 0xFF) | ((w >> 8) & 0xFF) | ((w >> 16) & 0xFF) | ((w >> 24) & 0xFF)
  }

  /** Multikey test, as written: byte i of the entry equals the pressed mask. */
  function MultiKeyBits(w: Word, keys: Word): Byte
  {
    (if (w & 0x0000_00FF) == keys then 1 else 0) |
    (if (w & 0x0000_FF00) == (keys << 8) then 2 else 0) |
    (if (w & 0x00FF_0000) == (keys << 16) then 4 else 0) |
    (if (w & 0xFF00_0000) == (keys << 24) then 8 else 0)
  }

  /** Single-key test, as written: byte i of the entry shares a bit with the pressed mask. */
  function SingleKeyBits(w: Word, keys: Word): Byte
  {
    (if ((w & 0x0000_00FF) & keys) != 0 then 1 else 0) |
    (if ((w & 0x0000_FF00) & (keys << 8)) != 0 then 2 else 0) |
    (if ((w & 0x00FF_0000) & (keys << 16)) != 0 then 4 else 0) |
    (if ((w & 0xFF00_0000) & (keys << 24)) != 0 then 8 else 0)
  }

  /** Joystick arbitration, as written: four tests in a row against the
      latched last direction. */
  function Resolve(keys: Word, last: Byte): Word
  {
    var k1 := if keys == ButtonLeft then ((last as Word) & (0xFF - ButtonRight)) | ButtonLeft else keys;
    var k2 := if k1 == ButtonRight then ((last as Word) & (0xFF - ButtonLeft)) | ButtonRight else k1;
    var k3 := if k2 == ButtonDown then ((last as Word) & (0xFF - ButtonUp)) | ButtonDown else k2;
    if k3 == ButtonUp then ((last as Word) & (0xFF - ButtonDown)) | ButtonUp else k3
  }

  /** Scan line sx is driven by the S output. */
  predicate Selected(ioS: Byte, sx: nat)
    requires sx < 8
  {
    ((ioS >> sx) & 1) != 0
  }

  /** A multikey line whose four masks together use all four directions. */
  predicate IsJoystickLine(t: KeyboardTable, sx: nat)
    requires ValidTable(t) && sx < 8
  {
    t.multikey[sx] && JoystickDir(t.words[sx]) == AllDirections
  }

  /** The local state of gw_readK's loop, with the latch. */
  datatype ScanState = ScanState(ioK: Byte, keys: Word, last: Byte)

  /** The K bits one line sets for the pressed mask `keys`. */
  function LineBits(t: KeyboardTable, sx: nat, keys: Word): Byte
    requires ValidTable(t) && sx < 8
  {
    if t.multikey[sx] then MultiKeyBits(t.words[sx], keys) else SingleKeyBits(t.words[sx], keys)
  }

  /** The pressed mask after line sx: resolved on a joystick line. */
  function LineKeys(t: KeyboardTable, sx: nat, st: ScanState): Word
    requires ValidTable(t) && sx < 8
  {
    if IsJoystickLine(t, sx) then Resolve(st.keys, st.last) else st.keys
  }

  /** One iteration of gw_readK's loop over the S lines. */
  function LineStep(t: KeyboardTable, ioS: Byte, sx: nat, st: ScanState): ScanState
    requires ValidTable(t) && sx < 8
  {
    if !Selected(ioS, sx) then st
    else
      var keys := LineKeys(t, sx, st);
      var last := if IsJoystickLine(t, sx) then Low(keys) else st.last;
      ScanState(st.ioK | LineBits(t, sx, keys), keys, last)
  }

  /** The loop from line sx to line 7. */
  function ScanFrom(t: KeyboardTable, ioS: Byte, sx: nat, st: ScanState): ScanState
    requires ValidTable(t) && sx <= 8
    decreases 8 - sx
  {
    if sx == 8 then st else ScanFrom(t, ioS, sx + 1, LineStep(t, ioS, sx, st))
  }

  /** gw_readK as a function of the S output, the buttons and the latch:
      the K value and the new latch. */
  function ReadKSpec(t: KeyboardTable, ioS: Byte, buttons: Word, last: Byte): (Byte, Byte)
    requires ValidTable(t)
  {
    var keys := PressedKeys(buttons);
    if keys == 0 then (0, last)
    else
      var st := ScanFrom(t, ioS, 0, ScanState(0, keys, last));
      var ioK := if ioS == 0 then st.ioK | SingleKeyBits(t.words[1], st.keys) else st.ioK;
      ((ioK & 0xF), st.last)
  }

  // ---------------------------------------------------------------------
  // The per-line tests in terms of the four masks

  lemma BitOr(a: Byte, b: Byte, i: nat)
    requires i < 4
    ensures Bit(a | b, i) <==> Bit(a, i) || Bit(b, i)
  {
  }

  /** The shifted 32-bit comparison is a comparison of byte i with the mask. */
  lemma MultiKeyBitLane(w: Word, keys: Word, i: nat)
    requires keys <= 0xFF && i < 4
    ensures Bit(MultiKeyBits(w, keys), i) <==> Lane(w, i) == keys
  {
    if i == 0 {
      MultiKeyLane0(w, keys, i);
    } else if i == 1 {
      MultiKeyLane1(w, keys, i);
    } else if i == 2 {
      MultiKeyLane2(w, keys, i);
    } else {
      MultiKeyLane3(w, keys, i);
    }
  }

  lemma MultiKeyLane0(w: Word, keys: Word, i: nat)
    requires keys <= 0xFF && i == 0
    ensures Bit(MultiKeyBits(w, keys), i) <==> Lane(w, i) == keys
  {
    assert Lane(w, 0) == w & 0xFF;
    assert Bit(MultiKeyBits(w, keys), 0) <==> (w & 0x0000_00FF) == keys;
  }

  lemma MultiKeyLane1(w: Word, keys: Word, i: nat)
    requires keys <= 0xFF && i == 1
    ensures Bit(MultiKeyBits(w, keys), i) <==> Lane(w, i) == keys
  {
    assert Lane(w, 1) == (w >> 8) & 0xFF;
    assert Bit(MultiKeyBits(w, keys), 1) <==> (w & 0x0000_FF00) == (keys << 8);
  }

  lemma MultiKeyLane2(w: Word, keys: Word, i: nat)
    requires keys <= 0xFF && i == 2
    ensures Bit(MultiKeyBits(w, keys), i) <==> Lane(w, i) == keys
  {
    assert Lane(w, 2) == (w >> 16) & 0xFF;
    assert Bit(MultiKeyBits(w, keys), 2) <==> (w & 0x00FF_0000) == (keys << 16);
  }

  lemma MultiKeyLane3(w: Word, keys: Word, i: nat)
    requires keys <= 0xFF && i == 3
    ensures Bit(MultiKeyBits(w, keys), i) <==> Lane(w, i) == keys
  {
    assert Lane(w, 3) == (w >> 24) & 0xFF;
    assert Bit(MultiKeyBits(w, keys), 3) <==> (w & 0xFF00_0000) == (keys << 24);
  }

  /** The shifted 32-bit AND is an AND of byte i with the mask. */
  lemma SingleKeyBitLane(w: Word, keys: Word, i: nat)
    requires keys <= 0xFF && i < 4
    ensures Bit(SingleKeyBits(w, keys), i) <==> (Lane(w, i) & keys) != 0
  {
    if i == 0 {
      SingleKeyLane0(w, keys, i);
    } else if i == 1 {
      SingleKeyLane1(w, keys, i);
    } else if i == 2 {
      SingleKeyLane2(w, keys, i);
    } else {
      SingleKeyLane3(w, keys, i);
    }
  }

  lemma SingleKeyLane0(w: Word, keys: Word, i: nat)
    requires keys <= 0xFF && i == 0
    ensures Bit(SingleKeyBits(w, keys), i) <==> (Lane(w, i) & keys) != 0
  {
    assert Lane(w, 0) == w & 0xFF;
    assert Bit(SingleKeyBits(w, keys), 0) <==> ((w & 0x0000_00FF) & keys) != 0;
  }

  lemma SingleKeyLane1(w: Word, keys: Word, i: nat)
    requires keys <= 0xFF && i == 1
    ensures Bit(SingleKeyBits(w, keys), i) <==> (Lane(w, i) & keys) != 0
  {
    assert Lane(w, 1) == (w >> 8) & 0xFF;
    assert Bit(SingleKeyBits(w, keys), 1) <==> ((w & 0x0000_FF00) & (keys << 8)) != 0;
  }

  lemma SingleKeyLane2(w: Word, keys: Word, i: nat)
    requires keys <= 0xFF && i == 2
    ensures Bit(SingleKeyBits(w, keys), i) <==> (Lane(w, i) & keys) != 0
  {
    assert Lane(w, 2) == (w >> 16) & 0xFF;
    assert Bit(SingleKeyBits(w, keys), 2) <==> ((w & 0x00FF_0000) & (keys << 16)) != 0;
  }

  lemma SingleKeyLane3(w: Word, keys: Word, i: nat)
    requires keys <= 0xFF && i == 3
    ensures Bit(SingleKeyBits(w, keys), i) <==> (Lane(w, i) & keys) != 0
  {
    assert Lane(w, 3) == (w >> 24) & 0xFF;
    assert Bit(SingleKeyBits(w, keys), 3) <==> ((w & 0xFF00_0000) & (keys << 24)) != 0;
  }

  /** OR-ing in a multikey line's test result sets bit i exactly when byte i equals the mask. */
  lemma OrMultiKeyBit(io: Byte, w: Word, keys: Word, i: nat)
    requires keys <= 0xFF && i < 4
    ensures Bit(io | MultiKeyBits(w, keys), i) <==> Bit(io, i) || Lane(w, i) == keys
  {
    MultiKeyBitLane(w, keys, i);
    BitOr(io, MultiKeyBits(w, keys), i);
  }

  /** OR-ing in a single-key line's test result sets bit i exactly when byte i meets the mask. */
  lemma OrSingleKeyBit(io: Byte, w: Word, keys: Word, i: nat)
    requires keys <= 0xFF && i < 4
    ensures Bit(io | SingleKeyBits(w, keys), i) <==> Bit(io, i) || (Lane(w, i) & keys) != 0
  {
    SingleKeyBitLane(w, keys, i);
    BitOr(io, SingleKeyBits(w, keys), i);
  }

  // ---------------------------------------------------------------------
  // Joystick arbitration

  /** The four tests never chain: one pressed direction is resolved against the
      latch, keeping the latched bit of the other axis and dropping the opposite
      direction; any other mask is left alone. */
  lemma ResolveCases(keys: Word, last: Byte)
    ensures Resolve(keys, last) ==
      if keys == ButtonLeft then ((last as Word) & !ButtonRight) | ButtonLeft
      else if keys == ButtonRight then ((last as Word) & !ButtonLeft) | ButtonRight
      else if keys == ButtonDown then ((last as Word) & !ButtonUp) | ButtonDown
      else if keys == ButtonUp then ((last as Word) & !ButtonDown) | ButtonUp
      else keys
  {
  }

  /** A resolved mask stays a byte and still contains the pressed direction. */
  lemma ResolveInByte(keys: Word, last: Byte)
    requires keys <= 0xFF
    ensures Resolve(keys, last) <= 0xFF
    ensures (Resolve(keys, last) & keys) == keys
  {
  }

  /** A mask resolved against itself is unchanged. */
  lemma ResolveFixpoint(x: Word)
    requires x <= 0xFF
    ensures Resolve(x, Low(x)) == x
  {
  }

  /** Resolving again against the latch just written gives the same mask. */
  lemma ResolveLatchIdempotent(keys: Word, last: Byte)
    requires keys <= 0xFF
    ensures Resolve(keys, Low(Resolve(keys, last))) == Resolve(keys, last)
  {
  }

  // ---------------------------------------------------------------------
  // What gw_readK computes

  /** Some selected joystick line lies below line n. */
  predicate JoyBefore(t: KeyboardTable, ioS: Byte, n: nat)
    requires ValidTable(t) && n <= 8
  {
    exists j :: 0 <= j < n && Selected(ioS, j) && IsJoystickLine(t, j)
  }

  /** The pressed mask that line j is tested against: the raw mask until the
      first selected joystick line, the resolved mask from that line on. */
  function EffKeys(t: KeyboardTable, ioS: Byte, keys: Word, last: Byte, j: nat): Word
    requires ValidTable(t) && j < 8
  {
    if JoyBefore(t, ioS, j + 1) then Resolve(keys, last) else keys
  }

  /** Line j contributes to K bit i for the mask `keys`: equality on a
      multikey line, a common bit on a single-key line. */
  predicate Contributes(t: KeyboardTable, j: nat, keys: Word, i: nat)
    requires ValidTable(t) && j < 8 && i < 4
  {
    if t.multikey[j] then Lane(t.words[j], i) == keys else (Lane(t.words[j], i) & keys) != 0
  }

  /** One line's test sets bit i exactly when the line contributes to it. */
  lemma OrLineBit(io: Byte, t: KeyboardTable, sx: nat, keys: Word, i: nat)
    requires ValidTable(t) && sx < 8 && keys <= 0xFF && i < 4
    ensures Bit(io | LineBits(t, sx, keys), i) <==> Bit(io, i) || Contributes(t, sx, keys, i)
  {
    var w := t.words[sx];
    if t.multikey[sx] {
      assert LineBits(t, sx, keys) == MultiKeyBits(w, keys);
      OrMultiKeyBit(io, w, keys, i);
    } else {
      assert LineBits(t, sx, keys) == SingleKeyBits(w, keys);
      OrSingleKeyBit(io, w, keys, i);
    }
  }

  lemma JoyBeforeStep(t: KeyboardTable, ioS: Byte, n: nat)
    requires ValidTable(t) && n < 8
    ensures JoyBefore(t, ioS, n + 1) <==> JoyBefore(t, ioS, n) || (Selected(ioS, n) && IsJoystickLine(t, n))
  {
    if JoyBefore(t, ioS, n + 1) && !(Selected(ioS, n) && IsJoystickLine(t, n)) {
      var j :| 0 <= j < n + 1 && Selected(ioS, j) && IsJoystickLine(t, j);
      assert j < n;
    }
    if Selected(ioS, n) && IsJoystickLine(t, n) {
      assert 0 <= n < n + 1 && Selected(ioS, n) && IsJoystickLine(t, n);
    }
  }

  /** Loop state of gw_readK before line sx, for raw mask k and initial latch last0. */
  predicate ScanInvariant(t: KeyboardTable, ioS: Byte, k: Word, last0: Byte, sx: nat, st: ScanState)
    requires ValidTable(t) && sx <= 8
  {
    var joy := JoyBefore(t, ioS, sx);
    && k <= 0xFF
    && st.ioK <= 15
    && st.keys == (if joy then Resolve(k, last0) else k)
    && st.last == (if joy then Low(Resolve(k, last0)) else last0)
  }

  lemma LineStepIoKBound(t: KeyboardTable, ioS: Byte, sx: nat, st: ScanState)
    requires ValidTable(t) && sx < 8 && st.ioK <= 15
    ensures LineStep(t, ioS, sx, st).ioK <= 15
  {
  }

  /** One line keeps the loop state as described. */
  lemma LineStepKeepsInvariant(t: KeyboardTable, ioS: Byte, k: Word, last0: Byte, sx: nat, st: ScanState)
    requires ValidTable(t) && sx < 8
    requires ScanInvariant(t, ioS, k, last0, sx, st)
    ensures Selected(ioS, sx) ==> LineStep(t, ioS, sx, st).keys == EffKeys(t, ioS, k, last0, sx)
    ensures ScanInvariant(t, ioS, k, last0, sx + 1, LineStep(t, ioS, sx, st))
  {
    JoyBeforeStep(t, ioS, sx);
    ResolveInByte(k, last0);
    if Selected(ioS, sx) && IsJoystickLine(t, sx) && JoyBefore(t, ioS, sx) {
      ResolveFixpoint(Resolve(k, last0));
    }
    LineStepIoKBound(t, ioS, sx, st);
  }

  /** One line keeps the loop state as described and adds that line's contribution. */
  lemma LineStepChar(t: KeyboardTable, ioS: Byte, k: Word, last0: Byte, sx: nat, st: ScanState)
    requires ValidTable(t) && sx < 8
    requires ScanInvariant(t, ioS, k, last0, sx, st)
    ensures ScanInvariant(t, ioS, k, last0, sx + 1, LineStep(t, ioS, sx, st))
    ensures forall i :: 0 <= i < 4 ==>
              (Bit(LineStep(t, ioS, sx, st).ioK, i) <==>
                 Bit(st.ioK, i) || (Selected(ioS, sx) && Contributes(t, sx, EffKeys(t, ioS, k, last0, sx), i)))
  {
    LineStepKeepsInvariant(t, ioS, k, last0, sx, st);
    ResolveInByte(k, last0);
    forall i | 0 <= i < 4
      ensures Bit(LineStep(t, ioS, sx, st).ioK, i) <==>
                Bit(st.ioK, i) || (Selected(ioS, sx) && Contributes(t, sx, EffKeys(t, ioS, k, last0, sx), i))
    {
      if Selected(ioS, sx) {
        OrLineBit(st.ioK, t, sx, EffKeys(t, ioS, k, last0, sx), i);
      }
    }
  }

  /** The loop from line sx on: the K bits are the OR of every selected
      line's contribution, and the latch ends as the invariant says. */
  lemma {:induction false} ScanFromChar(t: KeyboardTable, ioS: Byte, k: Word, last0: Byte, sx: nat, st: ScanState)
    requires ValidTable(t) && sx <= 8
    requires ScanInvariant(t, ioS, k, last0, sx, st)
    ensures ScanInvariant(t, ioS, k, last0, 8, ScanFrom(t, ioS, sx, st))
    ensures forall i :: 0 <= i < 4 ==>
              (Bit(ScanFrom(t, ioS, sx, st).ioK, i) <==>
                 Bit(st.ioK, i) ||
                 exists j :: sx <= j < 8 && Selected(ioS, j) && Contributes(t, j, EffKeys(t, ioS, k, last0, j), i))
    decreases 8 - sx
  {
    if sx < 8 {
      var st' := LineStep(t, ioS, sx, st);
      LineStepChar(t, ioS, k, last0, sx, st);
      ScanFromChar(t, ioS, k, last0, sx + 1, st');
      forall i | 0 <= i < 4
        ensures (exists j :: sx <= j < 8 && Selected(ioS, j) && Contributes(t, j, EffKeys(t, ioS, k, last0, j), i))
                <==> (Selected(ioS, sx) && Contributes(t, sx, EffKeys(t, ioS, k, last0, sx), i)) ||
                     (exists j :: sx + 1 <= j < 8 && Selected(ioS, j) && Contributes(t, j, EffKeys(t, ioS, k, last0, j), i))
      {
      }
    }
  }

  /** The low 4 bits of (x & 0xF) are those of x, and nothing above is set. */
  lemma MaskLowNibble(x: Byte, i: nat)
    requires i < 4
    ensures (x & 0xF) <= 15
    ensures Bit(x & 0xF, i) <==> Bit(x, i)
  {
    if i == 0 {
    } else if i == 1 {
    } else if i == 2 {
    } else {
    }
  }

  /** gw_readK's result is a 4-bit value, 0 when no button is pressed; the latch
      becomes the resolved mask exactly when a selected joystick line exists,
      whatever the pressed mask, and is left alone otherwise. */
  lemma ReadKLatch(t: KeyboardTable, ioS: Byte, buttons: Word, last: Byte)
    requires ValidTable(t)
    ensures var k := PressedKeys(buttons);
            var r := ReadKSpec(t, ioS, buttons, last);
            && r.0 <= 15
            && (k == 0 ==> r.0 == 0)
            && r.1 == (if k != 0 && JoyBefore(t, ioS, 8) then Low(Resolve(k, last)) else last)
  {
    var k := PressedKeys(buttons);
    if k != 0 {
      var st0 := ScanState(0, k, last);
      assert !JoyBefore(t, ioS, 0);
      ScanFromChar(t, ioS, k, last, 0, st0);
      var st := ScanFrom(t, ioS, 0, st0);
      var ioK := if ioS == 0 then st.ioK | SingleKeyBits(t.words[1], st.keys) else st.ioK;
      MaskLowNibble(ioK, 0);
    }
  }

  /** gw_readK's result bit i: set exactly when some selected line contributes
      to it (equality for multikey lines, a shared bit otherwise, each tested
      against the mask as resolved so far) or, with no S line selected, entry 1
      shares a bit with the pressed mask. */
  lemma ReadKBits(t: KeyboardTable, ioS: Byte, buttons: Word, last: Byte, i: nat)
    requires ValidTable(t) && i < 4
    ensures var k := PressedKeys(buttons);
            Bit(ReadKSpec(t, ioS, buttons, last).0, i) <==>
              k != 0 &&
              ((exists j :: 0 <= j < 8 && Selected(ioS, j) && Contributes(t, j, EffKeys(t, ioS, k, last, j), i)) ||
               (ioS == 0 && (Lane(t.words[1], i) & k) != 0))
  {
    var k := PressedKeys(buttons);
    if k != 0 {
      var st0 := ScanState(0, k, last);
      assert !JoyBefore(t, ioS, 0);
      ScanFromChar(t, ioS, k, last, 0, st0);
      var st := ScanFrom(t, ioS, 0, st0);
      var ioK := if ioS == 0 then st.ioK | SingleKeyBits(t.words[1], st.keys) else st.ioK;
      MaskLowNibble(ioK, i);
      if ioS == 0 {
        assert !JoyBefore(t, ioS, 8);
        OrSingleKeyBit(st.ioK, t.words[1], k, i);
      }
    }
  }

  /** Two runs of the loop whose latches resolve the pressed mask alike end in
      the same state, once a selected joystick line exists. */
  lemma {:induction false} ScanFromSameResolution(t: KeyboardTable, ioS: Byte, k: Word, l1: Byte, l2: Byte,
                                                  sx: nat, st1: ScanState, st2: ScanState)
    requires ValidTable(t) && sx <= 8 && JoyBefore(t, ioS, 8)
    requires ScanInvariant(t, ioS, k, l1, sx, st1) && ScanInvariant(t, ioS, k, l2, sx, st2)
    requires st1.ioK == st2.ioK && Resolve(k, l1) == Resolve(k, l2)
    ensures ScanFrom(t, ioS, sx, st1) == ScanFrom(t, ioS, sx, st2)
    decreases 8 - sx
  {
    if sx < 8 && st1 != st2 {
      LineStepKeepsInvariant(t, ioS, k, l1, sx, st1);
      LineStepKeepsInvariant(t, ioS, k, l2, sx, st2);
      ScanFromSameResolution(t, ioS, k, l1, l2, sx + 1, LineStep(t, ioS, sx, st1), LineStep(t, ioS, sx, st2));
    }
  }

  /** Polling twice with the same S output and the same buttons reads the same
      K value and leaves the same latch: the latch never drifts. */
  lemma ReadKIdempotent(t: KeyboardTable, ioS: Byte, buttons: Word, last: Byte)
    requires ValidTable(t)
    ensures var first := ReadKSpec(t, ioS, buttons, last);
            ReadKSpec(t, ioS, buttons, first.1) == first
  {
    var k := PressedKeys(buttons);
    var first := ReadKSpec(t, ioS, buttons, last);
    ReadKLatch(t, ioS, buttons, last);
    if k != 0 && JoyBefore(t, ioS, 8) {
      ResolveLatchIdempotent(k, last);
      assert !JoyBefore(t, ioS, 0);
      ScanFromSameResolution(t, ioS, k, last, first.1, 0, ScanState(0, k, last), ScanState(0, k, first.1));
    }
  }

  lemma JoyBeforeMonotone(t: KeyboardTable, ioS: Byte, m: nat, n: nat)
    requires ValidTable(t) && m <= n <= 8
    ensures JoyBefore(t, ioS, m) ==> JoyBefore(t, ioS, n)
  {
    if JoyBefore(t, ioS, m) {
      var j :| 0 <= j < m && Selected(ioS, j) && IsJoystickLine(t, j);
      assert 0 <= j < n && Selected(ioS, j) && IsJoystickLine(t, j);
    }
  }

  /** Without a selected joystick line, no line sees a resolved mask. */
  lemma NoJoystickRawKeys(t: KeyboardTable, ioS: Byte, k: Word, last: Byte, j: nat)
    requires ValidTable(t) && j < 8 && !JoyBefore(t, ioS, 8)
    ensures EffKeys(t, ioS, k, last, j) == k
  {
    JoyBeforeMonotone(t, ioS, j + 1, 8);
  }

  /** With no multikey line selected there is no selected joystick line. */
  lemma NoMultiKeyNoJoystick(t: KeyboardTable, ioS: Byte)
    requires ValidTable(t)
    requires forall j :: 0 <= j < 8 && Selected(ioS, j) ==> !t.multikey[j]
    ensures !JoyBefore(t, ioS, 8)
  {
  }

  /** A selected single-key line contributes against the raw mask. */
  lemma SingleKeyContribution(t: KeyboardTable, ioS: Byte, k: Word, last: Byte, i: nat, j: nat)
    requires ValidTable(t) && i < 4 && j < 8 && !t.multikey[j] && !JoyBefore(t, ioS, 8)
    ensures Contributes(t, j, EffKeys(t, ioS, k, last, j), i) <==> (Lane(t.words[j], i) & k) != 0
  {
    NoJoystickRawKeys(t, ioS, k, last, j);
    assert Contributes(t, j, k, i) <==> (Lane(t.words[j], i) & k) != 0;
  }

  /** With no multikey line selected, the contributing lines are those whose
      byte i shares a bit with the raw mask. */
  lemma NoJoystickContributions(t: KeyboardTable, ioS: Byte, k: Word, last: Byte, i: nat)
    requires ValidTable(t) && i < 4
    requires forall j :: 0 <= j < 8 && Selected(ioS, j) ==> !t.multikey[j]
    ensures !JoyBefore(t, ioS, 8)
    ensures (exists j :: 0 <= j < 8 && Selected(ioS, j) && Contributes(t, j, EffKeys(t, ioS, k, last, j), i)) <==>
            (exists j :: 0 <= j < 8 && Selected(ioS, j) && (Lane(t.words[j], i) & k) != 0)
  {
    NoMultiKeyNoJoystick(t, ioS);
    if j :| 0 <= j < 8 && Selected(ioS, j) && Contributes(t, j, EffKeys(t, ioS, k, last, j), i) {
      SingleKeyContribution(t, ioS, k, last, i, j);
    }
    if j :| 0 <= j < 8 && Selected(ioS, j) && (Lane(t.words[j], i) & k) != 0 {
      SingleKeyContribution(t, ioS, k, last, i, j);
    }
  }

  /** With no multikey line selected, gw_readK leaves the latch alone and its
      bit i is a plain OR of AND tests. */
  lemma ReadKWithoutJoystick(t: KeyboardTable, ioS: Byte, buttons: Word, last: Byte, i: nat)
    requires ValidTable(t) && i < 4
    requires forall j :: 0 <= j < 8 && Selected(ioS, j) ==> !t.multikey[j]
    ensures ReadKSpec(t, ioS, buttons, last).1 == last
    ensures Bit(ReadKSpec(t, ioS, buttons, last).0, i) <==>
              PressedKeys(buttons) != 0 &&
              ((exists j :: 0 <= j < 8 && Selected(ioS, j) && (Lane(t.words[j], i) & PressedKeys(buttons)) != 0) ||
               (ioS == 0 && (Lane(t.words[1], i) & PressedKeys(buttons)) != 0))
  {
    NoJoystickContributions(t, ioS, PressedKeys(buttons), last, i);
    ReadKLatch(t, ioS, buttons, last);
    ReadKBits(t, ioS, buttons, last, i);
  }

  /** The four-corner joystick, as on games whose character stands in one of
      four corners: line 0 is a multikey line whose entries are the diagonals
      up-left, up-right, down-left, down-right. */
  function CornerTable(): (t: KeyboardTable)
    ensures ValidTable(t)
  {
    KeyboardTable([0x0C09_0603, 0, 0, 0, 0, 0, 0, 0, 0, 0],
                  [true, false, false, false, false, false, false, false])
  }

  /** On the corner joystick, LEFT alone from a clear latch reads nothing but
      latches LEFT. */
  lemma CornerLeftFromClear()
    ensures ReadKSpec(CornerTable(), 1, ButtonLeft, 0) == (0, 0x01)
  {
  }

  /** UP after LEFT reads the up-left corner. */
  lemma CornerUpAfterLeft()
    ensures ReadKSpec(CornerTable(), 1, ButtonUp, 0x01) == (1, 0x03)
  {
  }

  /** RIGHT from up-left reads up-right: only the horizontal axis moves. */
  lemma CornerRightAfterUpLeft()
    ensures ReadKSpec(CornerTable(), 1, ButtonRight, 0x03) == (2, 0x06)
  {
  }

  /** DOWN from up-right reads down-right: only the vertical axis moves. */
  lemma CornerDownAfterUpRight()
    ensures ReadKSpec(CornerTable(), 1, ButtonDown, 0x06) == (8, 0x0C)
  {
  }

  /** All four K bits of a multikey line's test OR-ed into io, and the 4-bit bound. */
  lemma OrMultiKeyLanes(io: Byte, w: Word, keys: Word)
    ensures keys <= 0xFF ==> forall i :: 0 <= i < 4 ==> (Bit(io | MultiKeyBits(w, keys), i) <==> Bit(io, i) || Lane(w, i) == keys)
    ensures io <= 15 ==> (io | MultiKeyBits(w, keys)) <= 15
  {
    if keys <= 0xFF {
      forall i | 0 <= i < 4
        ensures Bit(io | MultiKeyBits(w, keys), i) <==> Bit(io, i) || Lane(w, i) == keys
      {
        OrMultiKeyBit(io, w, keys, i);
      }
    }
  }

  /** All four K bits of a single-key line's test OR-ed into io, and the 4-bit bound. */
  lemma OrSingleKeyLanes(io: Byte, w: Word, keys: Word)
    ensures keys <= 0xFF ==> forall i :: 0 <= i < 4 ==> (Bit(io | SingleKeyBits(w, keys), i) <==> Bit(io, i) || (Lane(w, i) & keys) != 0)
    ensures io <= 15 ==> (io | SingleKeyBits(w, keys)) <= 15
  {
    if keys <= 0xFF {
      forall i | 0 <= i < 4
        ensures Bit(io | SingleKeyBits(w, keys), i) <==> Bit(io, i) || (Lane(w, i) & keys) != 0
      {
        OrSingleKeyBit(io, w, keys, i);
      }
    }
  }

  /** gw_readK's multikey test for one line, OR-ed into ioK. */
  method MultiKeyTest(w: Word, keys: Word, ioK: Byte) returns (io: Byte)
    ensures io == ioK | MultiKeyBits(w, keys)
    ensures keys <= 0xFF ==> forall i :: 0 <= i < 4 ==> (Bit(io, i) <==> Bit(ioK, i) || Lane(w, i) == keys)
    ensures ioK <= 15 ==> io <= 15
  {
    OrMultiKeyLanes(ioK, w, keys);
    io := ioK;
    if (w & 0x0000_00FF) == keys { io := io | 1; }
    if (w & 0x0000_FF00) == (keys << 8) { io := io | 2; }
    if (w & 0x00FF_0000) == (keys << 16) { io := io | 4; }
    if (w & 0xFF00_0000) == (keys << 24) { io := io | 8; }
    assert io == ioK | MultiKeyBits(w, keys);
  }

  /** gw_readK's single-key test for one line, OR-ed into ioK. */
  method SingleKeyTest(w: Word, keys: Word, ioK: Byte) returns (io: Byte)
    ensures io == ioK | SingleKeyBits(w, keys)
    ensures keys <= 0xFF ==> forall i :: 0 <= i < 4 ==> (Bit(io, i) <==> Bit(ioK, i) || (Lane(w, i) & keys) != 0)
    ensures ioK <= 15 ==> io <= 15
  {
    OrSingleKeyLanes(ioK, w, keys);
    io := ioK;
    if ((w & 0x0000_00FF) & keys) != 0 { io := io | 1; }
    if ((w & 0x0000_FF00) & (keys << 8)) != 0 { io := io | 2; }
    if ((w & 0x00FF_0000) & (keys << 16)) != 0 { io := io | 4; }
    if ((w & 0xFF00_0000) & (keys << 24)) != 0 { io := io | 8; }
    assert io == ioK | SingleKeyBits(w, keys);
  }

  /** The latched button state of the decoder. */
  class Keypad {
    const table: KeyboardTable
    var lastJoystick: Byte

    /** The latch is a static variable, so it starts at 0. */
    constructor (table: KeyboardTable)
      ensures this.table == table && lastJoystick == 0
    {
      this.table := table;
      lastJoystick := 0;
    }

    /** gw_readK for the S output ioS and the host's button mask. */
    method ReadK(ioS: Byte, buttons: Word) returns (ioK: Byte)
      requires ValidTable(table)
      modifies this
      ensures (ioK, lastJoystick) == ReadKSpec(table, ioS, buttons, old(lastJoystick))
    {
      ioK := 0;
      var keys := buttons & 0xFF;
      if keys == 0 {
        return 0;
      }

      for sx := 0 to 8
        invariant ScanFrom(table, ioS, sx, ScanState(ioK, keys, lastJoystick))
                  == ScanFrom(table, ioS, 0, ScanState(0, buttons & 0xFF, old(lastJoystick)))
      {
        ioK, keys := ScanLine(ioS, sx, ioK, keys);
      }

      // no S line drives the matrix: poll entry 1
      if ioS == 0 {
        ioK := SingleKeyTest(table.words[1], keys, ioK);
      }

      ioK := ioK & 0xF;
    }

    /** One pass of gw_readK's loop: test line sx if the S output drives it. */
    method ScanLine(ioS: Byte, sx: nat, ioK: Byte, keys: Word) returns (io: Byte, keys': Word)
      requires ValidTable(table) && sx < 8
      modifies this
      ensures ScanState(io, keys', lastJoystick) == LineStep(table, ioS, sx, ScanState(ioK, keys, old(lastJoystick)))
    {
      io, keys' := ioK, keys;
      if ((ioS >> sx) & 1) != 0 {
        assert Selected(ioS, sx);
        if table.multikey[sx] {
          io, keys' := MultiKeyLine(sx, ioK, keys);
        } else {
          // single key mode
          io := SingleKeyTest(table.words[sx], keys, ioK);
        }
      } else {
        assert !Selected(ioS, sx);
      }
    }

    /** A selected multikey line: arbitrate first if the line is the joystick. */
    method MultiKeyLine(sx: nat, ioK: Byte, keys: Word) returns (io: Byte, keys': Word)
      requires ValidTable(table) && sx < 8 && table.multikey[sx]
      modifies this
      ensures keys' == LineKeys(table, sx, ScanState(ioK, keys, old(lastJoystick)))
      ensures lastJoystick == (if IsJoystickLine(table, sx) then Low(keys') else old(lastJoystick))
      ensures io == ioK | LineBits(table, sx, keys')
    {
      var w := table.words[sx];
      keys' := keys;
      // joystick case
      var dir := (w & 0xFF) | ((w >> 8) & 0xFF) | ((w >> 16) & 0xFF) | ((w >> 24) & 0xFF);
      if dir == ButtonUp | ButtonDown | ButtonRight | ButtonLeft {
        assert IsJoystickLine(table, sx);
        keys' := Arbitrate(keys');
      } else {
        assert !IsJoystickLine(table, sx);
      }
      io := MultiKeyTest(w, keys', ioK);
    }

    /** The joystick arbitration of gw_readK: resolve a single pressed
        direction against the latch, then latch the result. */
    method Arbitrate(keys: Word) returns (resolved: Word)
      modifies this
      ensures resolved == Resolve(keys, old(lastJoystick))
      ensures lastJoystick == Low(resolved)
    {
      resolved := keys;
      if resolved == ButtonLeft {
        resolved := ((lastJoystick as Word) & (0xFF - ButtonRight)) | ButtonLeft;
      }
      if resolved == ButtonRight {
        resolved := ((lastJoystick as Word) & (0xFF - ButtonLeft)) | ButtonRight;
      }
      if resolved == ButtonDown {
        resolved := ((lastJoystick as Word) & (0xFF - ButtonUp)) | ButtonDown;
      }
      if resolved == ButtonUp {
        resolved := ((lastJoystick as Word) & (0xFF - ButtonDown)) | ButtonUp;
      }
      lastJoystick := (resolved & 0xFF) as Byte;
    }
  }
}
