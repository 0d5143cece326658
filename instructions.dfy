/** Instruction decoding: the opcode's bit fields, and the nested switches
    on masks of the opcode that select what to execute. A full-byte case
    is tried before the masked cases of the same quadrant, so it shadows
    them. */
module Instructions {
  import opened Registers

  /** The eight branch conditions, in the order of the opcode's CCC field. */
  datatype Condition = IfNotZero | IfZero | IfNoCarry | IfCarry | IfParityOdd | IfParityEven | IfPlus | IfMinus

  /** The eight accumulator operations, in the order of the opcode's operation field. */
  datatype AluOp = Add | Adc | Sub | Sbb | Ana | Xra | Ora | Cmp

  /** Where the second operand of an accumulator operation comes from:
      the byte HL addresses, a register, or the byte after the opcode. */
  datatype Operand = FromMemory | FromRegister(src: Option<Reg>) | FromImmediate

  /** What decodeAndExecute selects for an opcode. Register operands are
      what getFirstRegister/getSecondRegister find, None where they would
      fail; pair operands are what getRegisterPair finds. */
  datatype Instr =
    | MviM | Lda | Sta | Lhld | Shld | InrM | DcrM | Daa
    | Rlc | Rrc | Ral | Rar | Cma | Cmc | Stc | Nop
    | Lxi(rp: Pair) | Ldax(rp: Pair) | Stax(rp: Pair) | Inx(rp: Pair) | Dcx(rp: Pair) | Dad(rp: Pair)
    | Mvi(dst: Option<Reg>) | Inr(dst: Option<Reg>) | Dcr(dst: Option<Reg>)
    | Hlt(dst: Option<Reg>)
    | MovFromMemory(dst: Option<Reg>) | MovToMemory(src: Option<Reg>) | Mov(dst: Option<Reg>, src: Option<Reg>)
    | Arith(op: AluOp, operand: Operand)
    | Xchg | Jmp | Call | Ret | Pchl | PushPsw | PopPsw | Xthl | Sphl | In | Out | Ei | Di
    | Jcc(cond: Condition) | Ccc(cond: Condition) | Rcc(cond: Condition) | Rst(n: bv8)
    | Push(rp: Pair) | Pop(rp: Pair)
    | Unmatched

  /** getFirstRegister: bits 5..3 of the opcode. */
  function FirstRegister(op: bv8): Option<Reg>
  {
    RegFromEncoded((op & 0x38) >> 3)
  }

  /** getSecondRegister: bits 2..0 of the opcode. */
  function SecondRegister(op: bv8): Option<Reg>
  {
    RegFromEncoded(op & 0x7)
  }

  /** getRegisterPair: bits 5..4 of the opcode. */
  function PairField(op: bv8): Pair
  {
    PairFromEncoded((op & 0x30) >> 4)
  }

  /** The condition checkCurrentCondition switches on: bits 5..3 of the opcode. */
  function ConditionField(op: bv8): Condition
  {
    var index := ((op & 0x38) >> 3) & 0x7;
    if index == 0 then IfNotZero
    else if index == 1 then IfZero
    else if index == 2 then IfNoCarry
    else if index == 3 then IfCarry
    else if index == 4 then IfParityOdd
    else if index == 5 then IfParityEven
    else if index == 6 then IfPlus
    else IfMinus
  }

  /** The restart number of RST: bits 5..3 of the opcode. */
  function RestartNumber(op: bv8): (n: bv8)
    ensures n <= 7
  {
    (op & 0x38) >> 3
  }

  /** decodeAndExecute's selection: first on the top two bits. */
  function Decode(op: bv8): Instr
  {
    var quadrant := op & 0xC0;
    if quadrant == 0x00 then DecodeQuadrant00(op)
    else if quadrant == 0x40 then DecodeQuadrant01(op)
    else if quadrant == 0x80 then DecodeQuadrant10(op)
    else DecodeQuadrant11(op)
  }

  /** 00xxxxxx: full-byte cases, then the cases on op & 0xCF, then on op & 0xC7. */
  function DecodeQuadrant00(op: bv8): Instr
  {
    if op == 0x36 then MviM
    else if op == 0x3A then Lda
    else if op == 0x32 then Sta
    else if op == 0x2A then Lhld
    else if op == 0x22 then Shld
    else if op == 0x34 then InrM
    else if op == 0x35 then DcrM
    else if op == 0x27 then Daa
    else if op == 0x07 then Rlc
    else if op == 0x0F then Rrc
    else if op == 0x17 then Ral
    else if op == 0x1F then Rar
    else if op == 0x2F then Cma
    else if op == 0x3F then Cmc
    else if op == 0x37 then Stc
    else if op == 0x00 then Nop
    else if op & 0xCF == 0x01 then Lxi(PairField(op))
    else if op & 0xCF == 0x0A then Ldax(PairField(op))
    else if op & 0xCF == 0x02 then Stax(PairField(op))
    else if op & 0xCF == 0x03 then Inx(PairField(op))
    else if op & 0xCF == 0x0B then Dcx(PairField(op))
    else if op & 0xCF == 0x09 then Dad(PairField(op))
    else if op & 0xC7 == 0x06 then Mvi(FirstRegister(op))
    else if op & 0xC7 == 0x04 then Inr(FirstRegister(op))
    else if op & 0xC7 == 0x05 then Dcr(FirstRegister(op))
    else Unmatched
  }

  /** 01xxxxxx: HLT, move from memory, move to memory, move register. */
  function DecodeQuadrant01(op: bv8): Instr
  {
    if op == 0x76 then Hlt(FirstRegister(op))
    else if op & 0x7 == 0x6 then MovFromMemory(FirstRegister(op))
    else if op & 0xF8 == 0x70 then MovToMemory(SecondRegister(op))
    else Mov(FirstRegister(op), SecondRegister(op))
  }

  /** 10xxxxxx: the memory operand forms by full byte, then op & 0xF8. */
  function DecodeQuadrant10(op: bv8): Instr
  {
    if op == 0x86 then Arith(Add, FromMemory)
    else if op == 0x8E then Arith(Adc, FromMemory)
    else if op == 0x96 then Arith(Sub, FromMemory)
    else if op == 0x9E then Arith(Sbb, FromMemory)
    else if op == 0xA6 then Arith(Ana, FromMemory)
    else if op == 0xAE then Arith(Xra, FromMemory)
    else if op == 0xB6 then Arith(Ora, FromMemory)
    else if op == 0xBE then Arith(Cmp, FromMemory)
    else if op & 0xF8 == 0x80 then Arith(Add, FromRegister(SecondRegister(op)))
    else if op & 0xF8 == 0x88 then Arith(Adc, FromRegister(SecondRegister(op)))
    else if op & 0xF8 == 0x90 then Arith(Sub, FromRegister(SecondRegister(op)))
    else if op & 0xF8 == 0x98 then Arith(Sbb, FromRegister(SecondRegister(op)))
    else if op & 0xF8 == 0xA0 then Arith(Ana, FromRegister(SecondRegister(op)))
    else if op & 0xF8 == 0xA8 then Arith(Xra, FromRegister(SecondRegister(op)))
    else if op & 0xF8 == 0xB0 then Arith(Ora, FromRegister(SecondRegister(op)))
    else if op & 0xF8 == 0xB8 then Arith(Cmp, FromRegister(SecondRegister(op)))
    else Unmatched
  }

  /** 11xxxxxx: full-byte cases, then op & 0x7, then op & 0xF. */
  function DecodeQuadrant11(op: bv8): Instr
  {
    if op == 0xC6 then Arith(Add, FromImmediate)
    else if op == 0xCE then Arith(Adc, FromImmediate)
    else if op == 0xEB then Xchg
    else if op == 0xD6 then Arith(Sub, FromImmediate)
    else if op == 0xDE then Arith(Sbb, FromImmediate)
    else if op == 0xE6 then Arith(Ana, FromImmediate)
    else if op == 0xEE then Arith(Xra, FromImmediate)
    else if op == 0xF6 then Arith(Ora, FromImmediate)
    else if op == 0xFE then Arith(Cmp, FromImmediate)
    else if op == 0xC3 then Jmp
    else if op == 0xCD then Call
    else if op == 0xC9 then Ret
    else if op == 0xE9 then Pchl
    else if op == 0xF5 then PushPsw
    else if op == 0xF1 then PopPsw
    else if op == 0xE3 then Xthl
    else if op == 0xF9 then Sphl
    else if op == 0xDB then In
    else if op == 0xD3 then Out
    else if op == 0xFB then Ei
    else if op == 0xF3 then Di
    else if op & 0x7 == 0x2 then Jcc(ConditionField(op))
    else if op & 0x7 == 0x4 then Ccc(ConditionField(op))
    else if op & 0x7 == 0x0 then Rcc(ConditionField(op))
    else if op & 0x7 == 0x7 then Rst(RestartNumber(op))
    else if op & 0xF == 0x5 then Push(PairField(op))
    else if op & 0xF == 0x1 then Pop(PairField(op))
    else Unmatched
  }

  // ----- The 8080's own opcode table, as an independent reference -----

  function AluField(op: AluOp): (v: bv8)
    ensures v <= 7
  {
    match op
    case Add => 0
    case Adc => 1
    case Sub => 2
    case Sbb => 3
    case Ana => 4
    case Xra => 5
    case Ora => 6
    case Cmp => 7
  }

  function ConditionCode(c: Condition): (v: bv8)
    ensures v <= 7
  {
    match c
    case IfNotZero => 0
    case IfZero => 1
    case IfNoCarry => 2
    case IfCarry => 3
    case IfParityOdd => 4
    case IfParityEven => 5
    case IfPlus => 6
    case IfMinus => 7
  }

  /** A register operand an opcode can name: present, and neither W nor Z. */
  predicate Named(r: Option<Reg>)
  {
    r.Some? && r.value != W && r.value != Z
  }

  /** The instructions the 8080 opcode table gives an encoding for, with
      the operands that table allows. HLT carries the absent register its
      opcode's DDD field (110) decodes to. */
  predicate WellFormed(i: Instr)
  {
    match i
    case Ldax(rp) => rp == BC || rp == DE
    case Stax(rp) => rp == BC || rp == DE
    case Mvi(dst) => Named(dst)
    case Inr(dst) => Named(dst)
    case Dcr(dst) => Named(dst)
    case Hlt(dst) => dst.None?
    case MovFromMemory(dst) => Named(dst)
    case MovToMemory(src) => Named(src)
    case Mov(dst, src) => Named(dst) && Named(src)
    case Arith(_, operand) => operand.FromRegister? ==> Named(operand.src)
    case Rst(n) => n <= 7
    case Push(rp) => rp != SP
    case Pop(rp) => rp != SP
    case Unmatched => false
    case _ => true
  }

  /** The opcode the 8080 manual assigns to an instruction. */
  function Encode(i: Instr): bv8
    requires WellFormed(i)
  {
    match i
    case MviM => 0x36
    case Lda => 0x3A
    case Sta => 0x32
    case Lhld => 0x2A
    case Shld => 0x22
    case InrM => 0x34
    case DcrM => 0x35
    case Daa => 0x27
    case Rlc => 0x07
    case Rrc => 0x0F
    case Ral => 0x17
    case Rar => 0x1F
    case Cma => 0x2F
    case Cmc => 0x3F
    case Stc => 0x37
    case Nop => 0x00
    case Lxi(rp) => 0x01 | (FieldOfPair(rp) << 4)
    case Ldax(rp) => 0x0A | (FieldOfPair(rp) << 4)
    case Stax(rp) => 0x02 | (FieldOfPair(rp) << 4)
    case Inx(rp) => 0x03 | (FieldOfPair(rp) << 4)
    case Dcx(rp) => 0x0B | (FieldOfPair(rp) << 4)
    case Dad(rp) => 0x09 | (FieldOfPair(rp) << 4)
    case Mvi(dst) => 0x06 | (FieldOfReg(dst.value) << 3)
    case Inr(dst) => 0x04 | (FieldOfReg(dst.value) << 3)
    case Dcr(dst) => 0x05 | (FieldOfReg(dst.value) << 3)
    case Hlt(_) => 0x76
    case MovFromMemory(dst) => 0x46 | (FieldOfReg(dst.value) << 3)
    case MovToMemory(src) => 0x70 | FieldOfReg(src.value)
    case Mov(dst, src) => 0x40 | (FieldOfReg(dst.value) << 3) | FieldOfReg(src.value)
    case Arith(op, operand) =>
      (match operand
       case FromMemory => 0x86
       case FromRegister(src) => 0x80 | FieldOfReg(src.value)
       case FromImmediate => 0xC6) | (AluField(op) << 3)
    case Xchg => 0xEB
    case Jmp => 0xC3
    case Call => 0xCD
    case Ret => 0xC9
    case Pchl => 0xE9
    case PushPsw => 0xF5
    case PopPsw => 0xF1
    case Xthl => 0xE3
    case Sphl => 0xF9
    case In => 0xDB
    case Out => 0xD3
    case Ei => 0xFB
    case Di => 0xF3
    case Jcc(c) => 0xC2 | (ConditionCode(c) << 3)
    case Ccc(c) => 0xC4 | (ConditionCode(c) << 3)
    case Rcc(c) => 0xC0 | (ConditionCode(c) << 3)
    case Rst(n) => 0xC7 | (n << 3)
    case Push(rp) => 0xC5 | (FieldOfPair(rp) << 4)
    case Pop(rp) => 0xC1 | (FieldOfPair(rp) << 4)
  }
}
