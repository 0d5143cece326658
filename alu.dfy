/** The flag-computing arithmetic/logic unit: five condition flags and the
    operation that computes an 8- or 16-bit result together with them,
    with a set of flags the caller asks to leave alone. */
module Alu {
  import opened Bits

  /** The five condition flags (ALU::Flag without None). */
  datatype Flag = Zero | Sign | Parity | Carry | AuxCarry

  /** The flag register: five independent booleans. */
  datatype Flags = Flags(zero: bool, sign: bool, parity: bool, carry: bool, auxCarry: bool)
  {
    /** getFlag */
    function Get(f: Flag): bool
    {
      match f
      case Zero => zero
      case Sign => sign
      case Parity => parity
      case Carry => carry
      case AuxCarry => auxCarry
    }

    /** setFlag: afterwards f reads v and the other four flags are unchanged. */
    function Set(f: Flag, v: bool): (r: Flags)
      ensures r.Get(f) == v
      ensures forall g :: g != f ==> r.Get(g) == Get(g)
    {
      match f
      case Zero => this.(zero := v)
      case Sign => this.(sign := v)
      case Parity => this.(parity := v)
      case Carry => this.(carry := v)
      case AuxCarry => this.(auxCarry := v)
    }
  }

  /** All flags clear, the state of a freshly constructed std::bitset<5>. */
  const Cleared := Flags(false, false, false, false, false)

  /** The mask the CPU passes for the logical operations: Carry and AuxCarry. */
  const CarryFlags: set<Flag> := {Carry, AuxCarry}

  /** What operateAndSetFlags is asked to do. */
  datatype Operation = Addition | Subtraction | And | Or | Xor | RotateLeft | RotateRight

  /** The unsigned operand type: uint8_t or uint16_t (the latter only for DAD). */
  datatype Width = W8 | W16
  {
    function Bits(): nat
    {
      if W8? then 8 else 16
    }

    function Modulus(): (m: nat)
      ensures m == Pow2(Bits())
    {
      Pow2Values();
      if W8? then 0x100 else 0x1_0000
    }

    /** std::numeric_limits<IntType>::max() */
    function Max(): nat
    {
      Modulus() - 1
    }
  }

  /** x is a value of the given width. */
  predicate Fits(x: int, w: Width)
  {
    0 <= x < w.Modulus()
  }

  datatype OpResult = OpResult(value: nat, flags: Flags)

  function CarryIn(f: Flags): nat
  {
    if f.carry then 1 else 0
  }

  /** The value and the Carry flag, before the flags common to every
      operation are computed. The logical operators never touch Carry. */
  function ValueAndCarry(f: Flags, first: nat, second: nat, op: Operation, w: Width,
                         exclude: set<Flag>, useCarry: bool): (r: OpResult)
    requires Fits(first, w) && Fits(second, w)
    ensures Fits(r.value, w)
    ensures r.flags == f.(carry := r.flags.carry)
    ensures Carry in exclude || op in {And, Or, Xor} ==> r.flags == f
  {
    match op
    case Addition => AddAndCarry(f, first, second, w, exclude, useCarry)
    case Subtraction => SubtractAndBorrow(f, first, second, w, exclude, useCarry)
    case And => OpResult(Bitwise(AndOp, first, second, w.Bits()), f)
    case Or => OpResult(Bitwise(OrOp, first, second, w.Bits()), f)
    case Xor => OpResult(Bitwise(XorOp, first, second, w.Bits()), f)
    case RotateLeft => RotateLeftAndCarry(f, first, w, exclude, useCarry)
    case RotateRight => RotateRightAndCarry(f, first, w, exclude, useCarry)
  }

  /** Addition: Carry is computed with the incoming Carry as carry-in, and
      the sum then adds the Carry flag AS JUST WRITTEN, not the incoming one. */
  function AddAndCarry(f: Flags, first: nat, second: nat, w: Width,
                       exclude: set<Flag>, useCarry: bool): (r: OpResult)
    requires Fits(first, w) && Fits(second, w)
    ensures Fits(r.value, w)
    ensures r.flags == f.(carry := r.flags.carry)
    ensures Carry in exclude ==> r.flags == f
  {
    var cin := CarryIn(f);
    var f1 := if Carry in exclude then f
              else f.Set(Carry, first + second + (if useCarry then cin else 0) > w.Max());
    OpResult((first + second + (if useCarry then CarryIn(f1) else 0)) % w.Modulus(), f1)
  }

  /** Subtraction: with a borrow-in, Carry becomes cin > second or
      second - cin > first, and the difference then subtracts the Carry
      flag AS JUST WRITTEN; without one, Carry becomes second > first. */
  function SubtractAndBorrow(f: Flags, first: nat, second: nat, w: Width,
                             exclude: set<Flag>, useCarry: bool): (r: OpResult)
    requires Fits(first, w) && Fits(second, w)
    ensures Fits(r.value, w)
    ensures r.flags == f.(carry := r.flags.carry)
    ensures Carry in exclude ==> r.flags == f
  {
    var cin := CarryIn(f);
    if useCarry then
      var f1 := if Carry in exclude then f
                else f.Set(Carry, cin > second || second - cin > first);
      OpResult((first - second - CarryIn(f1)) % w.Modulus(), f1)
    else
      var f1 := if Carry in exclude then f else f.Set(Carry, second > first);
      OpResult((first - second) % w.Modulus(), f1)
  }

  /** Rotation left by one: the top bit falls out into Carry; the vacated
      bottom bit takes the incoming Carry (through carry) or the bit that
      fell out. */
  function RotateLeftAndCarry(f: Flags, first: nat, w: Width, exclude: set<Flag>, useCarry: bool): (r: OpResult)
    requires Fits(first, w)
    ensures Fits(r.value, w)
    ensures r.flags == f.(carry := r.flags.carry)
    ensures Carry in exclude ==> r.flags == f
  {
    var out := Bit(first, w.Bits() - 1);
    var fill := if useCarry then CarryIn(f) else out;
    OpResult((first * 2) % w.Modulus() + fill,
             if Carry in exclude then f else f.Set(Carry, out == 1))
  }

  /** Rotation right by one: the bottom bit falls out into Carry; the
      vacated top bit takes the incoming Carry (through carry) or the bit
      that fell out. */
  function RotateRightAndCarry(f: Flags, first: nat, w: Width, exclude: set<Flag>, useCarry: bool): (r: OpResult)
    requires Fits(first, w)
    ensures Fits(r.value, w)
    ensures r.flags == f.(carry := r.flags.carry)
    ensures Carry in exclude ==> r.flags == f
  {
    var out := Bit(first, 0);
    var fill := if useCarry then CarryIn(f) else out;
    OpResult(first / 2 + fill * (w.Modulus() / 2),
             if Carry in exclude then f else f.Set(Carry, out == 1))
  }

  /** Auxiliary carry: bit 4 of result ^ first ^ second. */
  predicate AuxCarryOf(result: nat, first: nat, second: nat, w: Width)
  {
    Bit(Bitwise(XorOp, Bitwise(XorOp, result, first, w.Bits()), second, w.Bits()), 4) == 1
  }

  /** The flags every operation sets from its result, each unless excluded:
      AuxCarry, then Zero, Sign and Parity. */
  function ResultFlags(f: Flags, result: nat, first: nat, second: nat, w: Width,
                       exclude: set<Flag>): (r: Flags)
    ensures r.carry == f.carry
    ensures Zero in exclude ==> r.zero == f.zero
    ensures Sign in exclude ==> r.sign == f.sign
    ensures Parity in exclude ==> r.parity == f.parity
    ensures AuxCarry in exclude ==> r.auxCarry == f.auxCarry
    ensures Zero !in exclude ==> (r.zero <==> result == 0)
    ensures Sign !in exclude ==> (r.sign <==> Bit(result, w.Bits() - 1) == 1)
    ensures Parity !in exclude ==> (r.parity <==> EvenParity(result, w.Bits()))
    ensures AuxCarry !in exclude ==> (r.auxCarry <==> AuxCarryOf(result, first, second, w))
  {
    var f1 := if AuxCarry in exclude then f else f.Set(AuxCarry, AuxCarryOf(result, first, second, w));
    var f2 := if Zero in exclude then f1 else f1.Set(Zero, result == 0);
    var f3 := if Sign in exclude then f2 else f2.Set(Sign, Bit(result, w.Bits() - 1) == 1);
    if Parity in exclude then f3 else f3.Set(Parity, EvenParity(result, w.Bits()))
  }

  /** operateAndSetFlags: the result of the operation and the new flags. */
  function Operate(f: Flags, first: nat, second: nat, op: Operation, w: Width,
                   exclude: set<Flag>, useCarry: bool): (r: OpResult)
    requires Fits(first, w) && Fits(second, w)
    ensures Fits(r.value, w)
    ensures forall g :: g in exclude ==> r.flags.Get(g) == f.Get(g)
    ensures Zero !in exclude ==> (r.flags.zero <==> r.value == 0)
    ensures Sign !in exclude ==> (r.flags.sign <==> Bit(r.value, w.Bits() - 1) == 1)
    ensures Parity !in exclude ==> (r.flags.parity <==> EvenParity(r.value, w.Bits()))
    ensures AuxCarry !in exclude ==> (r.flags.auxCarry <==> AuxCarryOf(r.value, first, second, w))
    ensures op in {And, Or, Xor} ==> r.flags.carry == f.carry
  {
    var c := ValueAndCarry(f, first, second, op, w, exclude, useCarry);
    OpResult(c.value, ResultFlags(c.flags, c.value, first, second, w, exclude))
  }

  /** setFlagsBasedOnValue: Zero, Sign and Parity from val; Carry and
      AuxCarry untouched. */
  function FlagsFromValue(f: Flags, val: nat, w: Width): (r: Flags)
    requires Fits(val, w)
    ensures r.zero <==> val == 0
    ensures r.sign <==> Bit(val, w.Bits() - 1) == 1
    ensures r.parity <==> EvenParity(val, w.Bits())
    ensures r.carry == f.carry && r.auxCarry == f.auxCarry
  {
    f.Set(Zero, val == 0).Set(Sign, Bit(val, w.Bits() - 1) == 1).Set(Parity, EvenParity(val, w.Bits()))
  }

  /** operateAndSetCarryFlag: add or subtract, setting only Carry. */
  function CarryOnly(f: Flags, first: nat, second: nat, add: bool, w: Width): (r: OpResult)
    requires Fits(first, w) && Fits(second, w)
    ensures Fits(r.value, w)
    ensures add ==> (r.flags.carry <==> first + second > w.Max())
    ensures add ==> r.value == (first + second) % w.Modulus()
    ensures !add ==> (r.flags.carry <==> second > first)
    ensures !add ==> r.value == (first - second) % w.Modulus()
    ensures r.flags == f.Set(Carry, r.flags.carry)
  {
    if add then OpResult((first + second) % w.Modulus(), f.Set(Carry, first + second > w.Max()))
    else OpResult((first - second) % w.Modulus(), f.Set(Carry, second > first))
  }

  /** The processor status word pushed by PUSH PSW: S Z 0 AC 0 P 1 CY. */
  function StatusByte(f: Flags): Byte
  {
    (if f.sign then 0x80 else 0) + (if f.zero then 0x40 else 0) + (if f.auxCarry then 0x10 else 0)
    + (if f.parity then 0x04 else 0) + 0x02 + (if f.carry then 0x01 else 0)
  }

  /** The flags restored by POP PSW from a status byte. */
  function FlagsFromStatusByte(b: Byte): Flags
  {
    Flags(zero := Bit(b, 6) == 1, sign := Bit(b, 7) == 1, parity := Bit(b, 2) == 1,
          carry := Bit(b, 0) == 1, auxCarry := Bit(b, 4) == 1)
  }

  /** The status byte keeps every flag in its own bit, with bit 1 set and
      bits 3 and 5 clear, and reading it back restores the flags. */
  lemma StatusByteRoundTrip(f: Flags)
    ensures FlagsFromStatusByte(StatusByte(f)) == f
    ensures Bit(StatusByte(f), 1) == 1 && Bit(StatusByte(f), 3) == 0 && Bit(StatusByte(f), 5) == 0
  {
    StatusByteLowBits(f);
    StatusByteHighBits(f);
  }

  /** The bits of a flag as a number. */
  function BitOf(v: bool): nat
  {
    if v then 1 else 0
  }

  lemma StatusByteLowBits(f: Flags)
    ensures Bit(StatusByte(f), 0) == BitOf(f.carry) && Bit(StatusByte(f), 1) == 1
    ensures Bit(StatusByte(f), 2) == BitOf(f.parity) && Bit(StatusByte(f), 3) == 0
  {
    StatusBitsZeroOne(f);
    StatusBitsTwoThree(f);
  }

  lemma StatusByteHighBits(f: Flags)
    ensures Bit(StatusByte(f), 4) == BitOf(f.auxCarry) && Bit(StatusByte(f), 5) == 0
    ensures Bit(StatusByte(f), 6) == BitOf(f.zero) && Bit(StatusByte(f), 7) == BitOf(f.sign)
  {
    StatusBitsFourFive(f);
    StatusBitsSixSeven(f);
  }

  /** The status byte as a sum of flag bits. */
  lemma StatusByteSum(f: Flags)
    ensures StatusByte(f) == 0x80 * BitOf(f.sign) + 0x40 * BitOf(f.zero) + 0x10 * BitOf(f.auxCarry)
      + 4 * BitOf(f.parity) + 2 + BitOf(f.carry)
  {
  }

  lemma StatusBitsZeroOne(f: Flags)
    ensures Bit(StatusByte(f), 0) == BitOf(f.carry) && Bit(StatusByte(f), 1) == 1
  {
    var hi := 0x08 * BitOf(f.sign) + 0x04 * BitOf(f.zero) + BitOf(f.auxCarry);
    var p, c := BitOf(f.parity), BitOf(f.carry);
    StatusByteSum(f);
    Pow2Values();
    BitOfComposite(StatusByte(f), 8 * hi + 2 * p + 1, c, 0, 0, 1);
    BitOfComposite(StatusByte(f), 4 * hi + p, 1, c, 1, 2);
  }

  lemma StatusBitsTwoThree(f: Flags)
    ensures Bit(StatusByte(f), 2) == BitOf(f.parity) && Bit(StatusByte(f), 3) == 0
  {
    var hi := 0x08 * BitOf(f.sign) + 0x04 * BitOf(f.zero) + BitOf(f.auxCarry);
    var p, c := BitOf(f.parity), BitOf(f.carry);
    StatusByteSum(f);
    Pow2Values();
    BitOfComposite(StatusByte(f), 2 * hi, p, 2 + c, 2, 4);
    BitOfComposite(StatusByte(f), hi, 0, 4 * p + 2 + c, 3, 8);
  }

  lemma StatusBitsFourFive(f: Flags)
    ensures Bit(StatusByte(f), 4) == BitOf(f.auxCarry) && Bit(StatusByte(f), 5) == 0
  {
    var lo := 4 * BitOf(f.parity) + 2 + BitOf(f.carry);
    var s, z, h := BitOf(f.sign), BitOf(f.zero), BitOf(f.auxCarry);
    StatusByteSum(f);
    Pow2Values();
    BitOfComposite(StatusByte(f), 4 * s + 2 * z, h, lo, 4, 0x10);
    BitOfComposite(StatusByte(f), 2 * s + z, 0, 0x10 * h + lo, 5, 0x20);
  }

  lemma StatusBitsSixSeven(f: Flags)
    ensures Bit(StatusByte(f), 6) == BitOf(f.zero) && Bit(StatusByte(f), 7) == BitOf(f.sign)
  {
    var lo := 4 * BitOf(f.parity) + 2 + BitOf(f.carry);
    var s, z, h := BitOf(f.sign), BitOf(f.zero), BitOf(f.auxCarry);
    StatusByteSum(f);
    Pow2Values();
    BitOfComposite(StatusByte(f), s, z, 0x10 * h + lo, 6, 0x40);
    BitOfComposite(StatusByte(f), 0, s, 0x40 * z + 0x10 * h + lo, 7, 0x80);
  }

  /** The flag unit as the CPU owns it: the five flags, updated in place. */
  class Alu {
    var flags: Flags

    /** The constructor runs the carry self-test, which leaves every flag clear. */
    constructor ()
      ensures flags == Cleared
    {
      flags := Cleared;
      new;
      CheckCarryCheck();
    }

    function GetFlag(f: Flag): bool
      reads this
    {
      flags.Get(f)
    }

    method SetFlag(f: Flag, v: bool)
      modifies this
      ensures flags == old(flags).Set(f, v)
    {
      flags := flags.Set(f, v);
    }

    /** The self-test: 0xFF + 0xFF must set Carry; Carry is then cleared.
        The assertion that would abort construction is proved to hold. */
    method CheckCarryCheck()
      modifies this
      ensures flags == old(flags).Set(Carry, false)
    {
      var _ := OperateAndSetCarryFlag(0xFF, 0xFF, true, W8);
      assert GetFlag(Carry);
      SetFlag(Carry, false);
    }

    method SetFlagsBasedOnValue(val: nat, w: Width)
      requires Fits(val, w)
      modifies this
      ensures flags == FlagsFromValue(old(flags), val, w)
    {
      SetFlag(Zero, val == 0);
      SetFlag(Sign, Bit(val, w.Bits() - 1) == 1);
      SetFlag(Parity, EvenParity(val, w.Bits()));
    }

    method OperateAndSetCarryFlag(first: nat, second: nat, add: bool, w: Width) returns (result: nat)
      requires Fits(first, w) && Fits(second, w)
      modifies this
      ensures OpResult(result, flags) == CarryOnly(old(flags), first, second, add, w)
    {
      if add {
        SetFlag(Carry, first + second > w.Max());
        return (first + second) % w.Modulus();
      }
      SetFlag(Carry, second > first);
      return (first - second) % w.Modulus();
    }

    /** operateAndSetFlags, one setFlag at a time: later steps read the
        flags earlier steps wrote. */
    method OperateAndSetFlags(first: nat, second: nat, op: Operation, w: Width,
                              exclude: set<Flag>, useCarry: bool) returns (result: nat)
      requires Fits(first, w) && Fits(second, w)
      modifies this
      ensures OpResult(result, flags) == Operate(old(flags), first, second, op, w, exclude, useCarry)
    {
      result := ComputeValueAndCarry(first, second, op, w, exclude, useCarry);
      if AuxCarry !in exclude {
        SetFlag(AuxCarry, AuxCarryOf(result, first, second, w));
      }
      if Zero !in exclude {
        SetFlag(Zero, result == 0);
      }
      if Sign !in exclude {
        SetFlag(Sign, Bit(result, w.Bits() - 1) == 1);
      }
      if Parity !in exclude {
        SetFlag(Parity, EvenParity(result, w.Bits()));
      }
    }

    /** The first half of operateAndSetFlags: the value, and Carry unless excluded. */
    method ComputeValueAndCarry(first: nat, second: nat, op: Operation, w: Width,
                                exclude: set<Flag>, useCarry: bool) returns (result: nat)
      requires Fits(first, w) && Fits(second, w)
      modifies this
      ensures OpResult(result, flags) == ValueAndCarry(old(flags), first, second, op, w, exclude, useCarry)
    {
      var cin := if GetFlag(Carry) then 1 else 0;
      match op {
        case Addition =>
          if Carry !in exclude {
            SetFlag(Carry, first + second + (if useCarry then cin else 0) > w.Max());
          }
          result := (first + second + (if useCarry then CarryIn(flags) else 0)) % w.Modulus();
        case Subtraction =>
          if useCarry {
            if Carry !in exclude {
              SetFlag(Carry, CarryIn(flags) > second || second - CarryIn(flags) > first);
            }
            result := (first - second - CarryIn(flags)) % w.Modulus();
          } else {
            if Carry !in exclude {
              SetFlag(Carry, second > first);
            }
            result := (first - second) % w.Modulus();
          }
        case And =>
          result := Bitwise(AndOp, first, second, w.Bits());
        case Or =>
          result := Bitwise(OrOp, first, second, w.Bits());
        case Xor =>
          result := Bitwise(XorOp, first, second, w.Bits());
        case RotateLeft =>
          var out := Bit(first, w.Bits() - 1);
          result := (first * 2) % w.Modulus() + (if useCarry then cin else out);
          if Carry !in exclude {
            SetFlag(Carry, out == 1);
          }
        case RotateRight =>
          var out := Bit(first, 0);
          result := first / 2 + (if useCarry then cin else out) * (w.Modulus() / 2);
          if Carry !in exclude {
            SetFlag(Carry, out == 1);
          }
      }
    }

    /** The PSW byte PUSH PSW stores: every flag in its own bit, bit 1
        set, bits 3 and 5 clear, and reading it back gives the flags. */
    function CreateStatusByte(): (b: Byte)
      reads this
      ensures FlagsFromStatusByte(b) == flags
      ensures Bit(b, 1) == 1 && Bit(b, 3) == 0 && Bit(b, 5) == 0
    {
      StatusByteRoundTrip(flags);
      StatusByte(flags)
    }

    method SetFromStatusByte(b: Byte)
      modifies this
      ensures flags == FlagsFromStatusByte(b)
    {
      flags := FlagsFromStatusByte(b);
    }
  }
}
