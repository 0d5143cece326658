/** The register file: nine 8-bit registers (B C D E H L W Z A, in that
    order), a separate 16-bit stack pointer, the register pairs BC, DE and
    HL built from them, and the two tables that decode opcode bit fields
    into registers and pairs. */
module Registers {
  import opened Bits

  datatype Option<T> = None | Some(value: T)

  /** The registers in declaration order; W and Z are never named by an opcode. */
  datatype Reg = B | C | D | E | H | L | W | Z | A
  {
    /** The enumerator's integer value, which is also its cell in the register array. */
    function Index(): (i: nat)
      ensures i < 9
    {
      match this
      case B => 0
      case C => 1
      case D => 2
      case E => 3
      case H => 4
      case L => 5
      case W => 6
      case Z => 7
      case A => 8
    }
  }

  /** The enumerator with the given integer value (static_cast<Register>). */
  function RegOfIndex(i: nat): (r: Reg)
    requires i < 9
    ensures r.Index() == i
  {
    [B, C, D, E, H, L, W, Z, A][i]
  }

  /** The register pairs; SP stands for the separate stack pointer. */
  datatype Pair = BC | DE | HL | SP

  /** getRegFromEncodedValue: the low three bits select B, C, D, E, H, L
      (the registers whose enumerator value they are) or, for 7, A; the
      value 6, which the processor uses for memory, has no register. */
  function RegFromEncoded(value: bv8): Option<Reg>
  {
    var index := value & 0x7;
    if index == 0 then Some(B)
    else if index == 1 then Some(C)
    else if index == 2 then Some(D)
    else if index == 3 then Some(E)
    else if index == 4 then Some(H)
    else if index == 5 then Some(L)
    else if index == 0x7 then Some(A)
    else None
  }

  /** getPairFromEncodedValue: the low two bits select SP for 3 and
      otherwise the pair whose enumerator value they are. */
  function PairFromEncoded(value: bv8): Pair
  {
    var index := value & 0x3;
    if index == 3 then SP
    else if index == 0 then BC
    else if index == 1 then DE
    else HL
  }

  /** The three-bit field an 8080 opcode uses for a register (the
      processor's manual: B=000, C=001, D=010, E=011, H=100, L=101, A=111). */
  function FieldOfReg(r: Reg): (v: bv8)
    requires r != W && r != Z
    ensures v <= 7 && v != 6
  {
    match r
    case B => 0
    case C => 1
    case D => 2
    case E => 3
    case H => 4
    case L => 5
    case A => 7
  }

  /** The two-bit field an 8080 opcode uses for a register pair. */
  function FieldOfPair(p: Pair): (v: bv8)
    ensures v <= 3
  {
    match p
    case BC => 0
    case DE => 1
    case HL => 2
    case SP => 3
  }

  /** The register decoder agrees with the processor's register encoding,
      in both directions, and looks only at the low three bits. */
  lemma RegDecoderMatchesEncoding(value: bv8)
    ensures RegFromEncoded(value).None? <==> value & 7 == 6
    ensures RegFromEncoded(value).Some? ==> FieldOfReg(RegFromEncoded(value).value) == value & 7
    ensures RegFromEncoded(value) == RegFromEncoded(value & 7)
  {
  }

  lemma RegDecoderInvertsEncoding(r: Reg)
    requires r != W && r != Z
    ensures RegFromEncoded(FieldOfReg(r)) == Some(r)
  {
  }

  /** The pair decoder agrees with the processor's pair encoding, in both
      directions, and looks only at the low two bits. */
  lemma PairDecoderMatchesEncoding(value: bv8, p: Pair)
    ensures FieldOfPair(PairFromEncoded(value)) == value & 3
    ensures PairFromEncoded(FieldOfPair(p)) == p
  {
  }

  /** regFromPair: the first-named register of BC, DE or HL. SP has none. */
  function RegFromPair(p: Pair): (r: Reg)
    requires p != SP
    ensures r.Index() == 2 * FieldOfPair(p) as nat
  {
    match p
    case BC => B
    case DE => D
    case HL => H
  }

  /** nextReg: the register declared after r. A is the last and has none. */
  function NextReg(r: Reg): (n: Reg)
    requires r != A
    ensures n.Index() == r.Index() + 1
  {
    RegOfIndex(r.Index() + 1)
  }

  /** The contents of the nine register cells. */
  type Cells = s: seq<Byte> | |s| == 9 witness [0, 0, 0, 0, 0, 0, 0, 0, 0]

  /** The state of a RegisterManager as a value. */
  datatype RegisterFile = RegisterFile(cells: Cells, sp: Word)
  {
    function Get(r: Reg): Byte
    {
      cells[r.Index()]
    }

    /** setRegisterValue: r reads v afterwards; every other register and SP are kept. */
    function Set(r: Reg, v: Byte): (f: RegisterFile)
      ensures f.Get(r) == v
      ensures f.sp == sp
    {
      RegisterFile(cells[r.Index() := v], sp)
    }

    /** getValueFromRegisterPair: SP as stored, otherwise the first-named
        register as the high byte and the next one as the low byte. */
    function GetPair(p: Pair): (v: Word)
    {
      if p == SP then sp
      else
        var first := RegFromPair(p);
        Get(first) * 0x100 + Get(NextReg(first))
    }

    /** setRegisterPair(pair, value): the pair reads v afterwards, and only
        its two cells (or only SP) change. */
    function SetPair(p: Pair, v: Word): (f: RegisterFile)
      ensures p == SP ==> f.cells == cells
      ensures p != SP ==> f.sp == sp
    {
      if p == SP then this.(sp := v)
      else
        var first := RegFromPair(p);
        Set(first, v / 0x100).Set(NextReg(first), v % 0x100)
    }

    /** setRegisterPair(pair, high, low). */
    function SetPairBytes(p: Pair, high: Byte, low: Byte): (f: RegisterFile)
      ensures f.GetPair(p) == high * 0x100 + low
    {
      SetPair(p, high * 0x100 + low)
    }
  }

  /** The power-on state: every register zero and SP zero. */
  const InitialRegisters := RegisterFile([0, 0, 0, 0, 0, 0, 0, 0, 0], 0)

  /** Setting a pair to bytes high and low puts high in the first-named
      register and low in the next one. */
  lemma {:induction false} SetPairBytesCells(f: RegisterFile, p: Pair, high: Byte, low: Byte)
    requires p != SP
    ensures f.SetPairBytes(p, high, low).Get(RegFromPair(p)) == high
    ensures f.SetPairBytes(p, high, low).Get(NextReg(RegFromPair(p))) == low
  {
    var v := high as int * 0x100 + low;
    assert v / 0x100 == high && v % 0x100 == low;
  }

  /** Setting a pair to the value it already holds changes nothing. */
  lemma {:induction false} SetPairToOwnValue(f: RegisterFile, p: Pair)
    ensures f.SetPair(p, f.GetPair(p)) == f
  {
    if p != SP {
      var first := RegFromPair(p);
      var v := f.GetPair(p);
      assert v / 0x100 == f.Get(first) && v % 0x100 == f.Get(NextReg(first));
      var g := f.SetPair(p, v);
      assert g.cells == f.cells by {
        forall i | 0 <= i < 9
          ensures g.cells[i] == f.cells[i]
        {
          assert g.Get(RegOfIndex(i)) == f.Get(RegOfIndex(i));
        }
      }
    }
  }

  /** Two register files that agree on every register and on SP are equal. */
  lemma {:induction false} RegisterFilesEqual(f: RegisterFile, g: RegisterFile)
    requires forall r :: f.Get(r) == g.Get(r)
    requires f.sp == g.sp
    ensures f == g
  {
    forall i | 0 <= i < 9
      ensures f.cells[i] == g.cells[i]
    {
      assert f.Get(RegOfIndex(i)) == g.Get(RegOfIndex(i));
    }
  }

  /** Writing a register's own value back changes nothing. */
  lemma SetToOwnValue(f: RegisterFile, r: Reg)
    ensures f.Set(r, f.Get(r)) == f
  {
    RegisterFilesEqual(f.Set(r, f.Get(r)), f);
  }

  /** A pair's value splits back into its two registers. */
  lemma {:induction false} PairBytes(f: RegisterFile, p: Pair)
    requires p != SP
    ensures f.GetPair(p) / 0x100 == f.Get(RegFromPair(p))
    ensures f.GetPair(p) % 0x100 == f.Get(NextReg(RegFromPair(p)))
  {
    var first := RegFromPair(p);
    DivisionUnique(f.GetPair(p), 0x100, f.Get(first), f.Get(NextReg(first)));
  }

  /** Setting a register leaves every other register. */
  lemma SetKeepsOthers(f: RegisterFile, r: Reg, v: Byte)
    ensures forall q :: q != r ==> f.Set(r, v).Get(q) == f.Get(q)
  {
  }

  /** A pair reads back the value it was set to. */
  lemma {:induction false} SetPairReadsBack(f: RegisterFile, p: Pair, v: Word)
    ensures f.SetPair(p, v).GetPair(p) == v
  {
    if p != SP {
      DivisionUnique(v, 0x100, v / 0x100, v % 0x100);
    }
  }

  /** The pairs do not overlap: setting one leaves every other pair's value. */
  lemma SetPairKeepsOtherPairs(f: RegisterFile, p: Pair, q: Pair, v: Word)
    requires p != q
    ensures f.SetPair(p, v).GetPair(q) == f.GetPair(q)
  {
  }

  /** Moving SP, writing a pair's own value back into it and then putting
      SP back where it was leaves the register file as it was. */
  lemma {:induction false} PairSurvivesStackPointerMove(f: RegisterFile, p: Pair, x: Word)
    requires p != SP
    ensures f.SetPair(SP, x).SetPair(p, f.GetPair(p)).SetPair(SP, f.sp) == f
  {
    var g := f.SetPair(SP, x);
    SetPairKeepsOtherPairs(f, SP, p, x);
    SetPairToOwnValue(g, p);
  }

  /** The register file as the CPU owns it: a fixed array of nine cells,
      written in place, and the stack pointer. */
  class RegisterManager {
    const registers: array<Byte>
    var stackPointer: Word

    ghost predicate Valid()
      reads this
    {
      registers.Length == 9
    }

    /** The state as a RegisterFile value. */
    ghost function Model(): RegisterFile
      reads this, registers
      requires Valid()
    {
      RegisterFile(registers[..], stackPointer)
    }

    constructor ()
      ensures Valid() && fresh(registers)
      ensures Model() == InitialRegisters
    {
      registers := new Byte[9](_ => 0);
      stackPointer := 0;
    }

    method GetRegisterValue(r: Reg) returns (v: Byte)
      requires Valid()
      ensures v == Model().Get(r)
    {
      v := registers[r.Index()];
    }

    method SetRegisterValue(r: Reg, v: Byte)
      requires Valid()
      modifies registers
      ensures Valid()
      ensures Model() == old(Model()).Set(r, v)
    {
      registers[r.Index()] := v;
    }

    method GetValueFromRegisterPair(p: Pair) returns (v: Word)
      requires Valid()
      ensures v == Model().GetPair(p)
    {
      if p == SP {
        return stackPointer;
      }
      var first := RegFromPair(p);
      var second := NextReg(first);
      var high := GetRegisterValue(first);
      var low := GetRegisterValue(second);
      v := high as int * 0x100 + low;
    }

    method SetRegisterPair(p: Pair, v: Word)
      requires Valid()
      modifies this, registers
      ensures Valid()
      ensures Model() == old(Model()).SetPair(p, v)
    {
      if p == SP {
        stackPointer := v;
        return;
      }
      var first := RegFromPair(p);
      var second := NextReg(first);
      SetRegisterValue(first, v / 0x100);
      SetRegisterValue(second, v % 0x100);
    }

    method SetRegisterPairBytes(p: Pair, high: Byte, low: Byte)
      requires Valid()
      modifies this, registers
      ensures Valid()
      ensures Model() == old(Model()).SetPairBytes(p, high, low)
    {
      SetRegisterPair(p, high * 0x100 + low);
    }
  }
}
