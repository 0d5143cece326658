/** The Space Invaders cabinet's port logic: a 16-bit shift register the
    game loads a byte at a time through output port 4, whose read window is
    chosen through output port 2 (a 3-bit offset) and which is read back
    through input port 3. Every other port reads 0 and ignores writes. */
module SpaceInvadersPorts {
  import opened Bits

  /** (shift >> 8) | (data << 8): the old high byte moves down and the new
      byte becomes the high byte. */
  function ShiftIn(shift: Word, data: Byte): (r: Word)
    ensures r / 0x100 == data && r % 0x100 == shift / 0x100
  {
    Pow2Values();
    OrOfDisjointFields(shift / 0x100, data, 8, 16);
    DivisionUnique(data * 0x100 + shift / 0x100, 0x100, data, shift / 0x100);
    Bitwise(OrOp, shift / 0x100, data * 0x100, 16)
  }

  /** (uint8_t)(shift >> (8 - offset)): the eight bits of the register that
      start offset bits below its high byte. */
  function ShiftWindow(shift: Word, offset: Byte): (r: Byte)
    requires offset < 8
    ensures forall k :: 0 <= k < 8 ==> Bit(r, k) == Bit(shift, k + 8 - offset)
  {
    var m := 8 - offset;
    Pow2Values();
    forall k | 0 <= k < 8
      ensures Bit(Shr(shift, m) % 0x100, k) == Bit(shift, k + m)
    {
      BitOfResidue(Shr(shift, m), 8, k);
      BitOfShift(shift, m, k);
    }
    Shr(shift, m) % 0x100
  }

  /** The shift-register state of a SpaceInvaders machine. */
  class SpaceInvaders {
    var shiftOffset: Byte
    var shiftValue: Word

    /** The offset is only ever set from three bits. */
    ghost predicate Valid()
      reads this
    {
      shiftOffset < 8
    }

    constructor ()
      ensures Valid()
      ensures shiftOffset == 0 && shiftValue == 0
    {
      shiftOffset := 0;
      shiftValue := 0;
    }

    /** inputOperation: port 3 reads the window the offset selects, bit by
        bit; every other port reads 0. Reading changes nothing. */
    function InputOperation(port: Byte): (r: Byte)
      reads this
      requires Valid()
      ensures port == 3 ==> forall k :: 0 <= k < 8 ==> Bit(r, k) == Bit(shiftValue, k + 8 - shiftOffset)
      ensures port != 3 ==> r == 0
    {
      if port == 3 then ShiftWindow(shiftValue, shiftOffset) else 0
    }

    /** outputOperation: port 2 sets the offset to the low three bits of the
        value, port 4 shifts the value in as the new high byte, and every
        other port is ignored. */
    method OutputOperation(port: Byte, data: Byte)
      requires Valid()
      modifies this
      ensures Valid()
      ensures port == 2 ==> shiftOffset == data % 8 && shiftValue == old(shiftValue)
      ensures port == 4 ==> shiftOffset == old(shiftOffset)
      ensures port == 4 ==> shiftValue / 0x100 == data && shiftValue % 0x100 == old(shiftValue) / 0x100
      ensures port != 2 && port != 4 ==> shiftOffset == old(shiftOffset) && shiftValue == old(shiftValue)
    {
      if port == 2 {
        shiftOffset := data % 8;
      } else if port == 4 {
        shiftValue := ShiftIn(shiftValue, data);
      }
    }
  }

  /** Two loads leave exactly the two bytes loaded, the later one high,
      whatever the register held before. */
  lemma ShiftInTwice(shift: Word, first: Byte, second: Byte)
    ensures ShiftIn(ShiftIn(shift, first), second) == second * 0x100 + first
  {
    var r := ShiftIn(ShiftIn(shift, first), second);
    assert r == 0x100 * (r / 0x100) + r % 0x100;
  }

  /** With offset 0 the window is the high byte. */
  lemma WindowAtOffsetZero(shift: Word)
    ensures ShiftWindow(shift, 0) == shift / 0x100
  {
    Pow2Values();
    ShrIsDivision(shift, 8);
  }

  /** The window over a register holding high byte `high` and low byte
      `low`: bits at or above the offset come from high, the rest from the
      top of low. */
  lemma {:induction false} WindowOverBytes(w: Word, high: Byte, low: Byte, offset: Byte, k: nat)
    requires offset < 8 && k < 8
    requires w / 0x100 == high && w % 0x100 == low
    ensures Bit(ShiftWindow(w, offset), k)
         == if k >= offset then Bit(high, k - offset) else Bit(low, k + 8 - offset)
  {
    var j := k + 8 - offset;
    if k >= offset {
      HighByteBit(w, j - 8);
    } else {
      LowByteBit(w, j);
    }
  }

  /** After loading first then second and choosing offset o, the byte read
      is second shifted left by o with the top o bits of first shifted in
      below it: the shift the game asks the hardware to do. */
  lemma WindowAfterTwoLoads(shift: Word, first: Byte, second: Byte, offset: Byte, k: nat)
    requires offset < 8 && k < 8
    ensures Bit(ShiftWindow(ShiftIn(ShiftIn(shift, first), second), offset), k)
         == if k >= offset then Bit(second, k - offset) else Bit(first, k + 8 - offset)
  {
    WindowOverBytes(ShiftIn(ShiftIn(shift, first), second), second, first, offset, k);
  }
}
