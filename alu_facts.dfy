/** What the flag unit's results mean: carries and borrows as exact
    equations, the add-with-carry and subtract-with-borrow paths as the
    source computes them and where they part from the 8080's definitions,
    the auxiliary carry as the carry out of the low nibble, the status byte
    round trip and the rotations. */
module AluFacts {
  import opened Bits
  import opened Alu

  /** The flags the rotations leave alone. */
  const RotationKeeps: set<Flag> := {Zero, Sign, Parity, AuxCarry}

  /** Addition without carry-in: Carry is the bit that falls out of the
      width, so value and Carry together are the exact sum. */
  lemma AdditionCarriesOut(f: Flags, a: nat, b: nat, w: Width, exclude: set<Flag>)
    requires Fits(a, w) && Fits(b, w) && Carry !in exclude
    ensures var r := Operate(f, a, b, Addition, w, exclude, false);
      r.value + (if r.flags.carry then w.Modulus() else 0) == a + b
  {
    var c := AddAndCarry(f, a, b, w, exclude, false);
    assert c.flags.carry <==> a + b > w.Max();
  }

  /** Subtraction without borrow-in: Carry is the borrow, so the value is
      the exact difference plus the modulus when Carry is set. */
  lemma SubtractionBorrows(f: Flags, a: nat, b: nat, w: Width, exclude: set<Flag>)
    requires Fits(a, w) && Fits(b, w) && Carry !in exclude
    ensures var r := Operate(f, a, b, Subtraction, w, exclude, false);
      r.value == a - b + (if r.flags.carry then w.Modulus() else 0)
  {
    var c := SubtractAndBorrow(f, a, b, w, exclude, false);
    assert c.flags.carry <==> b > a;
  }

  /** Add with carry as written: Carry is the carry out of a + b + Carry,
      but the sum adds the Carry flag as it stands after that update. */
  lemma AddWithCarryAsWritten(f: Flags, a: nat, b: nat, w: Width, exclude: set<Flag>)
    requires Fits(a, w) && Fits(b, w) && Carry !in exclude
    ensures var r := Operate(f, a, b, Addition, w, exclude, true);
      && (r.flags.carry <==> a + b + CarryIn(f) > w.Max())
      && r.value == (a + b + CarryIn(r.flags)) % w.Modulus()
  {
    var c := AddAndCarry(f, a, b, w, exclude, true);
    assert c.flags.carry <==> a + b + CarryIn(f) > w.Max();
  }

  /** So the sum is the 8080's a + b + CY exactly when the instruction
      leaves Carry as it found it. */
  lemma {:induction false} AddWithCarrySumIsIntendedIffCarryKept(f: Flags, a: nat, b: nat, w: Width, exclude: set<Flag>)
    requires Fits(a, w) && Fits(b, w) && Carry !in exclude
    ensures var r := Operate(f, a, b, Addition, w, exclude, true);
      r.value == (a + b + CarryIn(f)) % w.Modulus() <==> r.flags.carry == f.carry
  {
    var r := Operate(f, a, b, Addition, w, exclude, true);
    AddWithCarryAsWritten(f, a, b, w, exclude);
    if r.flags.carry != f.carry {
      ConsecutiveResiduesDiffer(a + b, w.Modulus());
    }
  }

  /** With Carry set and a + b + 1 within range, ADC stores a + b. */
  lemma AddWithCarryDropsCarryIn(f: Flags, a: nat, b: nat)
    requires Fits(a, W8) && Fits(b, W8) && f.carry && a + b + 1 <= 0xFF
    ensures Operate(f, a, b, Addition, W8, {}, true).value == a + b
    ensures !Operate(f, a, b, Addition, W8, {}, true).flags.carry
  {
    AddWithCarryAsWritten(f, a, b, W8, {});
  }

  /** Subtract with borrow as written: the borrow test is
      Carry > b || b - Carry > a, and the difference subtracts the Carry
      flag as it stands after that update. */
  lemma SubtractWithBorrowAsWritten(f: Flags, a: nat, b: nat, w: Width, exclude: set<Flag>)
    requires Fits(a, w) && Fits(b, w) && Carry !in exclude
    ensures var r := Operate(f, a, b, Subtraction, w, exclude, true);
      && (r.flags.carry <==> CarryIn(f) > b || b - CarryIn(f) > a)
      && r.value == (a - b - CarryIn(r.flags)) % w.Modulus()
  {
    var c := SubtractAndBorrow(f, a, b, w, exclude, true);
    assert c.flags.carry <==> CarryIn(f) > b || b - CarryIn(f) > a;
  }

  /** That borrow test is not b + Carry > a. With a borrow-in the two
      disagree when the operand is zero and the accumulator is not (a
      borrow is reported that does not occur) and when the operand equals
      the accumulator or exceeds it by one (a borrow occurs and is not
      reported); everywhere else they agree. */
  lemma {:induction false} BorrowTestDisagreements(f: Flags, a: nat, b: nat, w: Width, exclude: set<Flag>)
    requires Fits(a, w) && Fits(b, w) && Carry !in exclude
    ensures var r := Operate(f, a, b, Subtraction, w, exclude, true);
      (r.flags.carry <==> b + CarryIn(f) > a)
        <==> !(f.carry && ((b == 0 && a > 0) || (b > 0 && (b == a || b == a + 1))))
  {
    SubtractWithBorrowAsWritten(f, a, b, w, exclude);
  }

  /** The inputs that show it: 5 - 0 with a borrow-in reports a borrow
      though 5 - 0 - 1 does not borrow, and 5 - 5 with a borrow-in reports
      none though 5 - 5 - 1 does. */
  lemma BorrowTestCounterexamples()
    ensures Operate(Cleared.(carry := true), 5, 0, Subtraction, W8, {}, true).flags.carry
    ensures !Operate(Cleared.(carry := true), 5, 5, Subtraction, W8, {}, true).flags.carry
  {
    SubtractWithBorrowAsWritten(Cleared.(carry := true), 5, 0, W8, {});
    SubtractWithBorrowAsWritten(Cleared.(carry := true), 5, 5, W8, {});
  }

  /** The difference is the 8080's a - b - CY exactly when the instruction
      leaves Carry as it found it. */
  lemma {:induction false} SubtractWithBorrowIsIntendedIffCarryKept(f: Flags, a: nat, b: nat, w: Width, exclude: set<Flag>)
    requires Fits(a, w) && Fits(b, w) && Carry !in exclude
    ensures var r := Operate(f, a, b, Subtraction, w, exclude, true);
      r.value == (a - b - CarryIn(f)) % w.Modulus() <==> r.flags.carry == f.carry
  {
    var r := Operate(f, a, b, Subtraction, w, exclude, true);
    SubtractWithBorrowAsWritten(f, a, b, w, exclude);
    if r.flags.carry != f.carry {
      ConsecutiveResiduesDiffer(a - b - 1, w.Modulus());
    }
  }

  /** Bit 4 of x is the low bit of x / 16. */
  lemma BitFour(x: nat)
    ensures Bit(x, 4) == (x / 0x10) % 2
  {
    BitAsDivision(x, 4);
    Pow2Values();
  }

  /** The auxiliary-carry formula reads the parity of the three operands'
      bit 4. */
  lemma AuxCarryIsBitFourParity(result: Byte, first: Byte, second: Byte)
    ensures AuxCarryOf(result, first, second, W8) <==> (result / 0x10 + first / 0x10 + second / 0x10) % 2 == 1
  {
    var x := Bitwise(XorOp, result, first, 8);
    var y := Bitwise(XorOp, x, second, 8);
    assert AuxCarryOf(result, first, second, W8) <==> Bit(y, 4) == 1;
    BitwiseBit(XorOp, x, second, 8, 4);
    BitwiseBit(XorOp, result, first, 8, 4);
    BitFour(result);
    BitFour(first);
    BitFour(second);
    XorOfParities(result / 0x10, first / 0x10, second / 0x10);
  }

  /** Exclusive or of three low bits is the low bit of the sum. */
  lemma XorOfParities(a: nat, b: nat, c: nat)
    ensures ApplyBit(XorOp, ApplyBit(XorOp, a % 2, b % 2), c % 2) == (a + b + c) % 2
  {
    DivisionUnique(a + b + c, 2, a / 2 + b / 2 + c / 2 + (a % 2 + b % 2 + c % 2) / 2,
                   (a % 2 + b % 2 + c % 2) % 2);
  }

  /** Bit 4 of a value reduced to a byte is bit 4 of the value. */
  lemma {:induction false} ByteResidueKeepsBitFour(s: int)
    ensures ((s % 0x100) / 0x10) % 2 == (s / 0x10) % 2
  {
    var q, r := s / 0x100, s % 0x100;
    DivisionUnique(s, 0x10, 0x10 * q + r / 0x10, r % 0x10);
    DivisionUnique(0x10 * q + r / 0x10, 2, 8 * q + (r / 0x10) / 2, (r / 0x10) % 2);
  }

  /** The high-nibble parity of a + b + c against those of a and b is
      the carry out of the low nibble. */
  lemma {:induction false} NibbleCarryParity(a: Byte, b: Byte, c: nat)
    requires c <= 1
    ensures ((a + b + c) / 0x10 + a / 0x10 + b / 0x10) % 2 == if a % 0x10 + b % 0x10 + c > 0xF then 1 else 0
  {
    var low := a % 0x10 + b % 0x10 + c;
    var carry := if low > 0xF then 1 else 0;
    DivisionUnique(a + b + c, 0x10, a / 0x10 + b / 0x10 + carry, low - 0x10 * carry);
  }

  /** The same for a - b - c: the parity is the borrow into the low nibble. */
  lemma {:induction false} NibbleBorrowParity(a: Byte, b: Byte, c: nat)
    requires c <= 1
    ensures ((a - b - c) / 0x10 + a / 0x10 + b / 0x10) % 2 == if a % 0x10 < b % 0x10 + c then 1 else 0
  {
    var low := a % 0x10 - b % 0x10 - c;
    var borrow := if low < 0 then 1 else 0;
    DivisionUnique(a - b - c, 0x10, a / 0x10 - b / 0x10 - borrow, low + 0x10 * borrow);
  }

  lemma SameParityAfterAdding(x: int, y: int, u: int)
    requires x % 2 == y % 2
    ensures (x + u) % 2 == (y + u) % 2
  {
  }

  /** After an 8-bit addition of a, b and a carry c, the auxiliary carry
      is the carry out of the low nibble. */
  lemma AuxCarryOfSum(a: Byte, b: Byte, c: nat)
    requires c <= 1
    ensures AuxCarryOf((a + b + c) % 0x100, a, b, W8) <==> a % 0x10 + b % 0x10 + c > 0xF
  {
    var s := a + b + c;
    var r: Byte := s % 0x100;
    var u := a / 0x10 + b / 0x10;
    assert (r / 0x10 + u) % 2 == if a % 0x10 + b % 0x10 + c > 0xF then 1 else 0 by {
      ByteResidueKeepsBitFour(s);
      SameParityAfterAdding(r / 0x10, s / 0x10, u);
      NibbleCarryParity(a, b, c);
    }
    AuxCarryIsBitFourParity(r, a, b);
  }

  /** After an 8-bit subtraction of b and a borrow c from a, the auxiliary
      carry is the borrow into the low nibble. */
  lemma AuxCarryOfDifference(a: Byte, b: Byte, c: nat)
    requires c <= 1
    ensures AuxCarryOf((a - b - c) % 0x100, a, b, W8) <==> a % 0x10 < b % 0x10 + c
  {
    var s := a - b - c;
    var r: Byte := s % 0x100;
    var u := a / 0x10 + b / 0x10;
    assert (r / 0x10 + u) % 2 == if a % 0x10 < b % 0x10 + c then 1 else 0 by {
      ByteResidueKeepsBitFour(s);
      SameParityAfterAdding(r / 0x10, s / 0x10, u);
      NibbleBorrowParity(a, b, c);
    }
    AuxCarryIsBitFourParity(r, a, b);
  }

  /** The flags every 8-bit addition without carry-in reports (ADD, ADI,
      INR): Zero, Sign, Parity of the sum and AuxCarry as the nibble carry. */
  lemma AdditionFlags(f: Flags, a: Byte, b: Byte, exclude: set<Flag>)
    requires AuxCarry !in exclude
    ensures Operate(f, a, b, Addition, W8, exclude, false).value == (a + b) % 0x100
    ensures Operate(f, a, b, Addition, W8, exclude, false).flags.auxCarry <==> a % 0x10 + b % 0x10 > 0xF
  {
    AuxCarryOfSum(a, b, 0);
  }

  /** The same for 8-bit subtraction without borrow-in (SUB, SUI, CMP, DCR):
      AuxCarry is the borrow into the low nibble. */
  lemma SubtractionFlags(f: Flags, a: Byte, b: Byte, exclude: set<Flag>)
    requires AuxCarry !in exclude
    ensures Operate(f, a, b, Subtraction, W8, exclude, false).value == (a - b) % 0x100
    ensures Operate(f, a, b, Subtraction, W8, exclude, false).flags.auxCarry <==> a % 0x10 < b % 0x10
  {
    AuxCarryOfDifference(a, b, 0);
  }

  /** Bit 7 and bit 0 of a byte as division. */
  lemma EndBits(a: Byte)
    ensures Bit(a, 7) == a / 0x80 && Bit(a, 0) == a % 2
  {
    BitAsDivision(a, 7);
    Pow2Values();
  }

  /** RLC and RAL: the value shifted left, bit 7 into Carry, and into bit 0
      either bit 7 (RLC) or the old Carry (RAL); nothing but Carry changes. */
  lemma RotateLeftMeaning(f: Flags, a: Byte, throughCarry: bool)
    ensures var r := Operate(f, a, 0, RotateLeft, W8, RotationKeeps, throughCarry);
      && r.value == (2 * a) % 0x100 + (if throughCarry then CarryIn(f) else a / 0x80)
      && (r.flags.carry <==> a >= 0x80)
      && r.flags == f.(carry := r.flags.carry)
  {
    EndBits(a);
  }

  /** RRC and RAR: the value shifted right, bit 0 into Carry, and into bit 7
      either bit 0 (RRC) or the old Carry (RAR); nothing but Carry changes. */
  lemma RotateRightMeaning(f: Flags, a: Byte, throughCarry: bool)
    ensures var r := Operate(f, a, 0, RotateRight, W8, RotationKeeps, throughCarry);
      && r.value == a / 2 + 0x80 * (if throughCarry then CarryIn(f) else a % 2)
      && (r.flags.carry <==> a % 2 == 1)
      && r.flags == f.(carry := r.flags.carry)
  {
    EndBits(a);
  }

  /** A right rotation undoes a left rotation of the same kind: RRC after
      RLC restores the value, and RAR after RAL restores the value and Carry. */
  lemma {:induction false} RotateRightUndoesRotateLeft(f: Flags, a: Byte, throughCarry: bool)
    ensures var l := Operate(f, a, 0, RotateLeft, W8, RotationKeeps, throughCarry);
      var r := Operate(l.flags, l.value, 0, RotateRight, W8, RotationKeeps, throughCarry);
      && r.value == a
      && r.flags == (if throughCarry then f else f.(carry := a >= 0x80))
  {
    var l := Operate(f, a, 0, RotateLeft, W8, RotationKeeps, throughCarry);
    RotateLeftMeaning(f, a, throughCarry);
    var v: Byte := l.value;
    RotateRightMeaning(l.flags, v, throughCarry);
    var fill := if throughCarry then CarryIn(f) else a / 0x80;
    DivisionUnique(2 * a, 0x100, a / 0x80, 2 * (a % 0x80));
    DivisionUnique(v, 2, a % 0x80, fill);
  }

  /** The constructor's self-test: 0xFF + 0xFF sets Carry. */
  lemma CarrySelfTest(f: Flags)
    ensures CarryOnly(f, 0xFF, 0xFF, true, W8).flags.carry
    ensures CarryOnly(f, 0xFF, 0xFF, true, W8).value == 0xFE
  {
  }
}
