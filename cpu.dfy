/** The processor as a value: memory, registers, flags, program counter,
    the opcode being executed and the halt flag, and what one instruction
    cycle does to them. This is the specification the Intel8080 class is
    proved against. */
module Cpu {
  import opened Bits
  import opened Alu
  import opened Registers
  import opened Instructions

  /** The 8080's 64 KiB address space. */
  type Memory = s: seq<Byte> | |s| == 0x1_0000 witness seq(0x1_0000, _ => 0)

  /** Everything an instruction can read or change. */
  datatype State = State(mem: Memory, regs: RegisterFile, flags: Flags, pc: Word, opcode: bv8, halted: bool)

  /** How an instruction cycle ended: normally; at an assert(false) in the
      source (the process would abort); or with an opcode no case matches,
      which does nothing. */
  datatype Outcome = Ok | Fatal | Unrecognised

  datatype Transition = Transition(outcome: Outcome, next: State)

  /** A memory access at an address computed in int (pc + 1, sp + 1, ...),
      taken modulo 2^16. */
  function ReadByte(mem: Memory, address: int): Byte
  {
    mem[Wrap16(address)]
  }

  function WriteByte(mem: Memory, address: int, v: Byte): (m: Memory)
    ensures m[Wrap16(address)] == v
    ensures forall a :: 0 <= a < 0x1_0000 && a != Wrap16(address) ==> m[a] == mem[a]
  {
    mem[Wrap16(address) := v]
  }

  function Done(s: State): Transition
  {
    Transition(Ok, s)
  }

  /** programCounter += n, in uint16_t. */
  function Advance(s: State, n: nat): State
  {
    s.(pc := Wrap16(s.pc + n))
  }

  function Accumulator(s: State): Byte
  {
    s.regs.Get(A)
  }

  function SetAccumulator(s: State, v: Byte): State
  {
    s.(regs := s.regs.Set(A, v))
  }

  function HLValue(s: State): Word
  {
    s.regs.GetPair(HL)
  }

  /** getAddressInDataBytes: the two bytes after the opcode, low byte first. */
  function AddressInDataBytes(s: State): Word
  {
    ReadByte(s.mem, s.pc + 2) * 0x100 + ReadByte(s.mem, s.pc + 1)
  }

  /** checkCurrentCondition, on the condition the opcode names. */
  predicate ConditionHolds(c: Condition, f: Flags)
  {
    match c
    case IfNotZero => !f.zero
    case IfZero => f.zero
    case IfNoCarry => !f.carry
    case IfCarry => f.carry
    case IfParityOdd => !f.parity
    case IfParityEven => f.parity
    case IfPlus => !f.sign
    case IfMinus => f.sign
  }

  /** Two pre-decrements of sp: the high byte of v below the stack
      pointer, then the low byte below that; SP drops by two. */
  function PushWord(s: State, v: Word): State
  {
    var sp := s.regs.sp;
    s.(mem := WriteByte(WriteByte(s.mem, sp - 1, v / 0x100), sp - 2, v % 0x100),
       regs := s.regs.SetPair(SP, Wrap16(sp - 2)))
  }

  /** call: push the address of the next instruction, then jump to the
      address after the opcode, read once the stack writes are done. */
  function CallSpec(s: State): State
  {
    var pushed := PushWord(s, Wrap16(s.pc + 3));
    pushed.(pc := AddressInDataBytes(pushed))
  }

  /** ret: pop the program counter, low byte at SP, high byte above it. */
  function RetSpec(s: State): State
  {
    var sp := s.regs.sp;
    s.(pc := ReadByte(s.mem, sp + 1) * 0x100 + s.mem[sp],
       regs := s.regs.SetPair(SP, Wrap16(sp + 2)))
  }

  /** The four flags the rotations and DAD ask the flag unit to leave alone. */
  const AllButCarry: set<Flag> := {Zero, Sign, Parity, AuxCarry}

  /** ADD, ADC, SUB, SBB: one flag-unit call that sets every flag. ADD and
      ADC pass (A, memory) for the memory operand and (operand, A)
      otherwise; SUB and SBB always pass (A, operand). */
  function AddOrSubtract(op: AluOp, operand: Operand, f: Flags, acc: Byte, x: Byte): (r: OpResult)
    requires op in {Add, Adc, Sub, Sbb}
    ensures r.value < 0x100
    ensures op == Add ==> r.value == (acc + x) % 0x100 && (r.flags.carry <==> acc + x > 0xFF)
    ensures op == Sub ==> r.value == (acc - x) % 0x100 && (r.flags.carry <==> x > acc)
    ensures r.flags.zero <==> r.value == 0
    ensures r.flags.sign <==> Bit(r.value, 7) == 1
    ensures r.flags.parity <==> EvenParity(r.value, 8)
  {
    match op
    case Add =>
      if operand.FromMemory? then Operate(f, acc, x, Addition, W8, {}, false)
      else Operate(f, x, acc, Addition, W8, {}, false)
    case Adc =>
      if operand.FromMemory? then Operate(f, acc, x, Addition, W8, {}, true)
      else Operate(f, x, acc, Addition, W8, {}, true)
    case Sub => Operate(f, acc, x, Subtraction, W8, {}, false)
    case Sbb => Operate(f, acc, x, Subtraction, W8, {}, true)
  }

  /** ANA, XRA, ORA: the flag unit leaves Carry (ANA on a register or
      memory) or Carry and AuxCarry alone, and the CPU then clears them. */
  function Logical(op: AluOp, operand: Operand, f: Flags, acc: Byte, x: Byte): (r: OpResult)
    requires op in {Ana, Xra, Ora}
    ensures r.value < 0x100
    ensures op == Ana ==> r.value == Bitwise(AndOp, acc, x, 8)
    ensures op == Xra ==> r.value == Bitwise(XorOp, acc, x, 8)
    ensures op == Ora ==> r.value == Bitwise(OrOp, acc, x, 8)
    ensures !r.flags.carry
    ensures op != Ana || operand.FromImmediate? ==> !r.flags.auxCarry
    ensures r.flags.zero <==> r.value == 0
    ensures r.flags.sign <==> Bit(r.value, 7) == 1
    ensures r.flags.parity <==> EvenParity(r.value, 8)
  {
    var aluOp := if op == Ana then And else if op == Xra then Xor else Or;
    if op == Ana && !operand.FromImmediate? then
      var r := Operate(f, acc, x, aluOp, W8, {Carry}, false);
      OpResult(r.value, r.flags.Set(Carry, false))
    else
      var r := Operate(f, acc, x, aluOp, W8, CarryFlags, false);
      OpResult(r.value, r.flags.Set(Carry, false).Set(AuxCarry, false))
  }

  /** CMP: a subtraction that may not touch Zero or Carry, followed by
      Zero := A == operand and Carry := A < operand. */
  function Compare(f: Flags, acc: Byte, x: Byte): (r: OpResult)
    ensures r.value == acc
    ensures r.flags.zero <==> acc == x
    ensures r.flags.carry <==> acc < x
    ensures r.flags.sign <==> Bit((acc - x) % 0x100, 7) == 1
    ensures r.flags.parity <==> EvenParity((acc - x) % 0x100, 8)
  {
    var r := Operate(f, acc, x, Subtraction, W8, {Zero, Carry}, false);
    assert r.value == (acc - x) % 0x100;
    OpResult(acc, r.flags.Set(Zero, acc == x).Set(Carry, acc < x))
  }

  /** The accumulator operations: the flag-unit call each one makes and the
      flag writes that follow it. The value is the new accumulator; CMP
      leaves the accumulator as it is. */
  function Accumulate(op: AluOp, operand: Operand, f: Flags, acc: Byte, x: Byte): OpResult
  {
    if op in {Add, Adc, Sub, Sbb} then AddOrSubtract(op, operand, f, acc, x)
    else if op in {Ana, Xra, Ora} then Logical(op, operand, f, acc, x)
    else Compare(f, acc, x)
  }

  /** DAA as the source writes it: add 6 when the low digit exceeds 9 or
      AuxCarry is set, then 0x60 when the high digit of that exceeds 9 or
      Carry is set, each in uint8_t. No flag changes. */
  function DecimalAdjust(acc: Byte, f: Flags): Byte
  {
    var low := if acc % 0x10 > 9 || f.auxCarry then (acc + 6) % 0x100 else acc;
    if low / 0x10 > 9 || f.carry then (low + 0x60) % 0x100 else low
  }

  // ----- One function per instruction (or per family sharing a body) -----

  /** MVI M: the byte after the opcode into the byte HL addresses. */
  function MoveImmediateToMemory(s: State): State
  {
    Advance(s.(mem := s.mem[HLValue(s) := ReadByte(s.mem, s.pc + 1)]), 2)
  }

  /** LDA: the byte at the direct address into A. */
  function LoadAccumulatorDirect(s: State): State
  {
    Advance(SetAccumulator(s, s.mem[AddressInDataBytes(s)]), 3)
  }

  /** STA: A into the byte at the direct address. */
  function StoreAccumulatorDirect(s: State): State
  {
    Advance(s.(mem := s.mem[AddressInDataBytes(s) := Accumulator(s)]), 3)
  }

  /** LHLD: L from the direct address, H from the byte after it. */
  function LoadHLDirect(s: State): State
  {
    var a := AddressInDataBytes(s);
    Advance(s.(regs := s.regs.Set(L, s.mem[a]).Set(H, ReadByte(s.mem, a + 1))), 3)
  }

  /** SHLD: L to the direct address, H to the byte after it. */
  function StoreHLDirect(s: State): State
  {
    var a := AddressInDataBytes(s);
    Advance(s.(mem := WriteByte(s.mem[a := s.regs.Get(L)], a + 1, s.regs.Get(H))), 3)
  }

  /** INR M and DCR M: the byte HL addresses plus or minus one, Carry kept. */
  function CountMemory(s: State, up: bool): State
  {
    var a := HLValue(s);
    var r := Operate(s.flags, s.mem[a], 1, if up then Addition else Subtraction, W8, {Carry}, false);
    Advance(s.(mem := s.mem[a := r.value], flags := r.flags), 1)
  }

  /** RLC, RRC, RAL, RAR: only Carry may change. */
  function Rotate(s: State, op: Operation, throughCarry: bool): State
    requires op == RotateLeft || op == RotateRight
  {
    var r := Operate(s.flags, Accumulator(s), 0, op, W8, AllButCarry, throughCarry);
    Advance(SetAccumulator(s.(flags := r.flags), r.value), 1)
  }

  /** LXI: the two bytes after the opcode into the pair, low byte first. */
  function LoadPairImmediate(s: State, rp: Pair): State
  {
    Advance(s.(regs := s.regs.SetPairBytes(rp, ReadByte(s.mem, s.pc + 2), ReadByte(s.mem, s.pc + 1))), 3)
  }

  /** LDAX: A from the byte BC or DE addresses; any other pair fails. */
  function LoadAccumulatorIndirect(s: State, rp: Pair): Transition
  {
    if rp != BC && rp != DE then Transition(Fatal, s)
    else Done(Advance(SetAccumulator(s, s.mem[s.regs.GetPair(rp)]), 1))
  }

  /** STAX: A into the byte BC or DE addresses; any other pair fails. */
  function StoreAccumulatorIndirect(s: State, rp: Pair): Transition
  {
    if rp != BC && rp != DE then Transition(Fatal, s)
    else Done(Advance(s.(mem := s.mem[s.regs.GetPair(rp) := Accumulator(s)]), 1))
  }

  /** INX and DCX: the pair plus or minus one in uint16_t, no flags. */
  function CountPair(s: State, rp: Pair, up: bool): State
  {
    var v := s.regs.GetPair(rp);
    Advance(s.(regs := s.regs.SetPair(rp, Wrap16(if up then v + 1 else v - 1))), 1)
  }

  /** DAD: HL plus the pair as a 16-bit addition that may set only Carry. */
  function AddPairToHL(s: State, rp: Pair): State
  {
    var r := Operate(s.flags, HLValue(s), s.regs.GetPair(rp), Addition, W16, AllButCarry, false);
    Advance(s.(regs := s.regs.SetPair(HL, r.value), flags := r.flags), 1)
  }

  /** MVI r: the byte after the opcode into r. */
  function MoveImmediate(s: State, dst: Option<Reg>): Transition
  {
    if dst.None? then Transition(Fatal, s)
    else Done(Advance(s.(regs := s.regs.Set(dst.value, ReadByte(s.mem, s.pc + 1))), 2))
  }

  /** INR r and DCR r: r plus or minus one, Carry kept. */
  function CountRegister(s: State, dst: Option<Reg>, up: bool): Transition
  {
    if dst.None? then Transition(Fatal, s)
    else
      var r := Operate(s.flags, s.regs.Get(dst.value), 1, if up then Addition else Subtraction, W8, {Carry}, false);
      Done(Advance(s.(regs := s.regs.Set(dst.value, r.value), flags := r.flags), 1))
  }

  /** MOV r,M: the byte HL addresses into r. */
  function MoveFromMemory(s: State, dst: Option<Reg>): Transition
  {
    if dst.None? then Transition(Fatal, s)
    else Done(Advance(s.(regs := s.regs.Set(dst.value, s.mem[HLValue(s)])), 1))
  }

  /** MOV M,r: r into the byte HL addresses. */
  function MoveToMemory(s: State, src: Option<Reg>): Transition
  {
    if src.None? then Transition(Fatal, s)
    else Done(Advance(s.(mem := s.mem[HLValue(s) := s.regs.Get(src.value)]), 1))
  }

  /** MOV r1,r2. */
  function MoveRegister(s: State, dst: Option<Reg>, src: Option<Reg>): Transition
  {
    if dst.None? || src.None? then Transition(Fatal, s)
    else Done(Advance(s.(regs := s.regs.Set(dst.value, s.regs.Get(src.value))), 1))
  }

  /** The operand byte of an accumulator operation, None for a register
      operand the opcode does not name. */
  function OperandValue(s: State, operand: Operand): Option<Byte>
  {
    match operand
    case FromMemory => Some(s.mem[HLValue(s)])
    case FromRegister(src) => if src.None? then None else Some(s.regs.Get(src.value))
    case FromImmediate => Some(ReadByte(s.mem, s.pc + 1))
  }

  /** The eight accumulator operations on memory, a register or an
      immediate byte; the immediate forms are two bytes long. */
  function AccumulatorOperation(s: State, op: AluOp, operand: Operand): Transition
  {
    var x := OperandValue(s, operand);
    if x.None? then Transition(Fatal, s)
    else
      var r := Accumulate(op, operand, s.flags, Accumulator(s), x.value);
      assert r.value < 0x100;
      var s1 := if op == Cmp then s.(flags := r.flags) else SetAccumulator(s.(flags := r.flags), r.value);
      Done(Advance(s1, if operand.FromImmediate? then 2 else 1))
  }

  /** The register-file half of XCHG: DE takes HL's value and HL takes DE's. */
  function SwapDEAndHL(f: RegisterFile): RegisterFile
  {
    f.SetPair(DE, f.GetPair(HL)).SetPair(HL, f.GetPair(DE))
  }

  /** XCHG. */
  function ExchangeDEWithHL(s: State): State
  {
    Advance(s.(regs := SwapDEAndHL(s.regs)), 1)
  }

  /** PUSH PSW: A at SP - 1, the status byte at SP - 2. */
  function PushStatus(s: State): State
  {
    var sp := s.regs.sp;
    Advance(s.(mem := WriteByte(WriteByte(s.mem, sp - 1, Accumulator(s)), sp - 2, StatusByte(s.flags)),
               regs := s.regs.SetPair(SP, Wrap16(sp - 2))), 1)
  }

  /** POP PSW: the flags from the byte at SP, A from the one above. */
  function PopStatus(s: State): State
  {
    var sp := s.regs.sp;
    Advance(s.(flags := FlagsFromStatusByte(s.mem[sp]),
               regs := s.regs.Set(A, ReadByte(s.mem, sp + 1)).SetPair(SP, Wrap16(sp + 2))), 1)
  }

  /** XTHL as written: SP takes HL's value, and HL the one byte SP addressed. */
  function ExchangeStackTop(s: State): State
  {
    var top := s.mem[s.regs.sp];
    Advance(s.(regs := s.regs.SetPair(SP, HLValue(s)).SetPair(HL, top)), 1)
  }

  /** RST n: push the current PC (not the next instruction's) and jump to 8n. */
  function Restart(s: State, n: bv8): State
  {
    var pushed := PushWord(s, s.pc);
    pushed.(pc := (n as int) * 8 % 0x1_0000)
  }

  /** PUSH rp: the pair's high byte at SP - 1, its low byte at SP - 2. */
  function PushPair(s: State, rp: Pair): State
  {
    Advance(PushWord(s, s.regs.GetPair(rp)), 1)
  }

  /** POP rp: the pair from the byte above SP (high) and the byte at SP (low). */
  function PopPair(s: State, rp: Pair): State
  {
    var sp := s.regs.sp;
    Advance(s.(regs := s.regs.SetPairBytes(rp, ReadByte(s.mem, sp + 1), s.mem[sp]).SetPair(SP, Wrap16(sp + 2))), 1)
  }

  /** DAA: the accumulator decimal-adjusted; the flags are left alone. */
  function DecimalAdjustAccumulator(s: State): State
  {
    Advance(SetAccumulator(s, DecimalAdjust(Accumulator(s), s.flags)), 1)
  }

  /** CMA: A := 0xFF - A. */
  function ComplementAccumulator(s: State): State
  {
    Advance(SetAccumulator(s, 0xFF - Accumulator(s)), 1)
  }

  /** CMC: the carry flag inverted. */
  function ComplementCarry(s: State): State
  {
    Advance(s.(flags := s.flags.Set(Carry, !s.flags.carry)), 1)
  }

  /** STC: the carry flag set. */
  function SetCarry(s: State): State
  {
    Advance(s.(flags := s.flags.Set(Carry, true)), 1)
  }

  /** JMP: to the address after the opcode. */
  function Jump(s: State): State
  {
    s.(pc := AddressInDataBytes(s))
  }

  /** PCHL: to the address in HL. */
  function JumpToHL(s: State): State
  {
    s.(pc := HLValue(s))
  }

  /** SPHL: SP := HL. */
  function LoadSPFromHL(s: State): State
  {
    Advance(s.(regs := s.regs.SetPair(SP, HLValue(s))), 1)
  }

  /** Jcc, Ccc and Rcc: the unconditional instruction when the condition
      holds, otherwise a step over the instruction's bytes. */
  function JumpIf(s: State, c: Condition): State
  {
    if ConditionHolds(c, s.flags) then Jump(s) else Advance(s, 3)
  }

  function CallIf(s: State, c: Condition): State
  {
    if ConditionHolds(c, s.flags) then CallSpec(s) else Advance(s, 3)
  }

  function ReturnIf(s: State, c: Condition): State
  {
    if ConditionHolds(c, s.flags) then RetSpec(s) else Advance(s, 1)
  }

  /** What decodeAndExecute does for the selected instruction. */
  function Step(s: State, i: Instr): Transition
  {
    match i
    case MviM => Done(MoveImmediateToMemory(s))
    case Lda => Done(LoadAccumulatorDirect(s))
    case Sta => Done(StoreAccumulatorDirect(s))
    case Lhld => Done(LoadHLDirect(s))
    case Shld => Done(StoreHLDirect(s))
    case InrM => Done(CountMemory(s, true))
    case DcrM => Done(CountMemory(s, false))
    case Daa => Done(DecimalAdjustAccumulator(s))
    case Rlc => Done(Rotate(s, RotateLeft, false))
    case Rrc => Done(Rotate(s, RotateRight, false))
    case Ral => Done(Rotate(s, RotateLeft, true))
    case Rar => Done(Rotate(s, RotateRight, true))
    case Cma => Done(ComplementAccumulator(s))
    case Cmc => Done(ComplementCarry(s))
    case Stc => Done(SetCarry(s))
    case Nop => Done(Advance(s, 1))
    case Lxi(rp) => Done(LoadPairImmediate(s, rp))
    case Ldax(rp) => LoadAccumulatorIndirect(s, rp)
    case Stax(rp) => StoreAccumulatorIndirect(s, rp)
    case Inx(rp) => Done(CountPair(s, rp, true))
    case Dcx(rp) => Done(CountPair(s, rp, false))
    case Dad(rp) => Done(AddPairToHL(s, rp))
    case Mvi(dst) => MoveImmediate(s, dst)
    case Inr(dst) => CountRegister(s, dst, true)
    case Dcr(dst) => CountRegister(s, dst, false)
    case Hlt(dst) => MoveFromMemory(s.(halted := true), dst)
    case MovFromMemory(dst) => MoveFromMemory(s, dst)
    case MovToMemory(src) => MoveToMemory(s, src)
    case Mov(dst, src) => MoveRegister(s, dst, src)
    case Arith(op, operand) => AccumulatorOperation(s, op, operand)
    case Xchg => Done(ExchangeDEWithHL(s))
    case Jmp => Done(Jump(s))
    case Call => Done(CallSpec(s))
    case Ret => Done(RetSpec(s))
    case Pchl => Done(JumpToHL(s))
    case PushPsw => Done(PushStatus(s))
    case PopPsw => Done(PopStatus(s))
    case Xthl => Done(ExchangeStackTop(s))
    case Sphl => Done(LoadSPFromHL(s))
    case In => Transition(Fatal, s)
    case Out => Transition(Fatal, s)
    case Ei => Transition(Fatal, s)
    case Di => Transition(Fatal, s)
    case Jcc(c) => Done(JumpIf(s, c))
    case Ccc(c) => Done(CallIf(s, c))
    case Rcc(c) => Done(ReturnIf(s, c))
    case Rst(n) => Done(Restart(s, n))
    case Push(rp) => Done(PushPair(s, rp))
    case Pop(rp) => Done(PopPair(s, rp))
    case Unmatched => Transition(Unrecognised, s)
  }

  /** fetch: the byte at the program counter becomes the current opcode. */
  function Fetch(s: State): State
  {
    s.(opcode := s.mem[s.pc] as bv8)
  }

  /** decodeAndExecute on the current opcode. */
  function Execute(s: State): Transition
  {
    Step(s, Decode(s.opcode))
  }

  /** runCycle: nothing once halted; otherwise fetch, decode and execute. */
  function RunCycle(s: State): Transition
  {
    if s.halted then Done(s) else Execute(Fetch(s))
  }
}
