/** Properties of the instruction cycle: the stack round trips, what each
    group of instructions may change, the accumulator and counter
    operations' meanings, branching, and which opcodes end a cycle
    abnormally. */
module CpuFacts {
  import opened Bits
  import opened Alu
  import opened AluFacts
  import opened Registers
  import opened Instructions
  import opened Decoding
  import opened Cpu

  /** Two decrements of a 16-bit stack pointer are undone by two increments. */
  lemma StackPointerArithmetic(sp: Word)
    ensures Wrap16(Wrap16(sp - 2) + 2) == sp
    ensures Wrap16(Wrap16(sp - 2) + 1) == Wrap16(sp - 1)
    ensures Wrap16(sp - 1) != Wrap16(sp - 2)
  {
  }

  /** PushWord puts the high byte at SP - 1 and the low byte at SP - 2, and
      reading the two back, low byte first, gives the word. */
  lemma {:induction false} PushWordContents(s: State, v: Word)
    ensures var t := PushWord(s, v);
      && t.mem[Wrap16(s.regs.sp - 1)] == v / 0x100
      && t.mem[Wrap16(s.regs.sp - 2)] == v % 0x100
      && t.regs == s.regs.SetPair(SP, Wrap16(s.regs.sp - 2))
      && ReadByte(t.mem, t.regs.sp + 1) * 0x100 + t.mem[t.regs.sp] == v
  {
    StackPointerArithmetic(s.regs.sp);
  }

  /** CALL pushes the address of the next instruction, high byte at SP - 1
      and low byte at SP - 2, and RET then resumes there with SP, the other
      registers and the flags as before the call. */
  lemma {:induction false} CallThenReturn(s: State)
    ensures var c := CallSpec(s);
      var r := RetSpec(c);
      && c.mem[Wrap16(s.regs.sp - 1)] == Wrap16(s.pc + 3) / 0x100
      && c.mem[Wrap16(s.regs.sp - 2)] == Wrap16(s.pc + 3) % 0x100
      && c.regs.sp == Wrap16(s.regs.sp - 2)
      && r.pc == Wrap16(s.pc + 3)
      && r.regs == s.regs
      && r.flags == s.flags
  {
    PushWordContents(s, Wrap16(s.pc + 3));
    StackPointerArithmetic(s.regs.sp);
  }

  /** When the two stack bytes it writes are not its own address bytes,
      CALL jumps to the address after the opcode. */
  lemma CallJumpsToOperand(s: State)
    requires Wrap16(s.regs.sp - 1) != Wrap16(s.pc + 1) && Wrap16(s.regs.sp - 1) != Wrap16(s.pc + 2)
    requires Wrap16(s.regs.sp - 2) != Wrap16(s.pc + 1) && Wrap16(s.regs.sp - 2) != Wrap16(s.pc + 2)
    ensures CallSpec(s).pc == AddressInDataBytes(s)
  {
  }

  /** RST n jumps to 8n after pushing the current PC, and RET comes back to it. */
  lemma {:induction false} RestartThenReturn(s: State, n: bv8)
    requires n <= 7
    ensures Restart(s, n).pc == 8 * n as int
    ensures RetSpec(Restart(s, n)).pc == s.pc
    ensures RetSpec(Restart(s, n)).regs == s.regs
  {
    PushWordContents(s, s.pc);
    StackPointerArithmetic(s.regs.sp);
  }

  /** PUSH rp then POP rp restores every register, SP included, and the
      flags; the stack holds the pair's high byte at SP - 1 and its low
      byte at SP - 2. */
  lemma {:induction false} PushThenPop(s: State, rp: Pair)
    requires rp != SP
    ensures var p := PushPair(s, rp);
      var q := PopPair(p, rp);
      && p.mem[Wrap16(s.regs.sp - 1)] == s.regs.GetPair(rp) / 0x100
      && p.mem[Wrap16(s.regs.sp - 2)] == s.regs.GetPair(rp) % 0x100
      && q.regs == s.regs && q.flags == s.flags && q.mem == p.mem
      && q.pc == Wrap16(Wrap16(s.pc + 1) + 1)
  {
    var v := s.regs.GetPair(rp);
    PushWordContents(s, v);
    StackPointerArithmetic(s.regs.sp);
    var p := PushPair(s, rp);
    var sp: int := p.regs.sp;
    assert p.regs == s.regs.SetPair(SP, sp);
    assert ReadByte(p.mem, sp + 1) * 0x100 + p.mem[sp] == v;
    assert p.regs.SetPairBytes(rp, ReadByte(p.mem, sp + 1), p.mem[sp]) == p.regs.SetPair(rp, v);
    PairSurvivesStackPointerMove(s.regs, rp, sp);
  }

  /** PUSH PSW then POP PSW restores the accumulator, SP and every flag. */
  lemma {:induction false} PushThenPopStatus(s: State)
    ensures var p := PushStatus(s);
      var q := PopStatus(p);
      && p.mem[Wrap16(s.regs.sp - 1)] == s.regs.Get(A)
      && p.mem[Wrap16(s.regs.sp - 2)] == StatusByte(s.flags)
      && q.regs == s.regs && q.flags == s.flags && q.mem == p.mem
  {
    StackPointerArithmetic(s.regs.sp);
    StatusByteRoundTrip(s.flags);
    var p := PushStatus(s);
    SetToOwnValue(p.regs, A);
  }

  /** SHLD stores L at the address and H after it; an LHLD that later
      reads the same address from that memory loads HL back. */
  lemma {:induction false} StoreThenLoadHL(s: State, t: State)
    requires t.mem == StoreHLDirect(s).mem
    requires AddressInDataBytes(t) == AddressInDataBytes(s)
    ensures t.mem[AddressInDataBytes(s)] == s.regs.Get(L)
    ensures ReadByte(t.mem, AddressInDataBytes(s) + 1) == s.regs.Get(H)
    ensures LoadHLDirect(t).regs.GetPair(HL) == s.regs.GetPair(HL)
  {
    var a: int := AddressInDataBytes(s);
    assert Wrap16(a + 1) != a;
  }

  /** LXI: afterwards the pair holds the address the two data bytes
      spell, high byte from the third byte of the instruction. */
  lemma LxiLoadsOperand(s: State, rp: Pair)
    ensures LoadPairImmediate(s, rp).regs.GetPair(rp) == AddressInDataBytes(s)
  {
  }

  /** XCHG swaps DE and HL and keeps BC and SP; doing it twice restores
      every register. */
  lemma {:induction false} ExchangeTwice(s: State)
    ensures var x := ExchangeDEWithHL(s);
      && x.regs.GetPair(DE) == s.regs.GetPair(HL) && x.regs.GetPair(HL) == s.regs.GetPair(DE)
      && x.regs.GetPair(BC) == s.regs.GetPair(BC) && x.regs.sp == s.regs.sp
      && ExchangeDEWithHL(x).regs == s.regs
  {
    var x := ExchangeDEWithHL(s);
    SwapExchangesPairs(s.regs);
    SwapExchangesPairs(x.regs);
    SwapTwiceRestores(s.regs);
  }

  lemma SwapExchangesPairs(f: RegisterFile)
    ensures SwapDEAndHL(f).GetPair(DE) == f.GetPair(HL) && SwapDEAndHL(f).GetPair(HL) == f.GetPair(DE)
    ensures SwapDEAndHL(f).GetPair(BC) == f.GetPair(BC) && SwapDEAndHL(f).sp == f.sp
  {
    SetPairKeepsOtherPairs(f.SetPair(DE, f.GetPair(HL)), HL, DE, f.GetPair(DE));
  }

  lemma SwapTwiceRestores(f: RegisterFile)
    ensures SwapDEAndHL(SwapDEAndHL(f)) == f
  {
    var x := SwapDEAndHL(f);
    SwapExchangesPairs(f);
    var y := SwapDEAndHL(x);
    PairBytes(f, DE);
    PairBytes(f, HL);
    forall r
      ensures y.Get(r) == f.Get(r)
    {
    }
    RegisterFilesEqual(y, f);
  }

  // ----- Flag footprints -----

  /** INR and DCR, on a register or on memory, never change Carry. */
  lemma CountersKeepCarry(s: State, dst: Option<Reg>, up: bool)
    ensures CountMemory(s, up).flags.carry == s.flags.carry
    ensures CountRegister(s, dst, up).next.flags.carry == s.flags.carry
  {
  }

  /** The rotations and DAD change Carry and no other flag. */
  lemma RotationsAndDadChangeOnlyCarry(s: State, op: Operation, throughCarry: bool, rp: Pair)
    requires op == RotateLeft || op == RotateRight
    ensures Rotate(s, op, throughCarry).flags == s.flags.(carry := Rotate(s, op, throughCarry).flags.carry)
    ensures AddPairToHL(s, rp).flags == s.flags.(carry := AddPairToHL(s, rp).flags.carry)
  {
  }

  /** The data transfers, HLT and XCHG leave every flag. */
  lemma TransfersKeepFlags(s: State, i: Instr)
    requires || i.MviM? || i.Lda? || i.Sta? || i.Lhld? || i.Shld? || i.Lxi? || i.Ldax? || i.Stax?
             || i.Mvi? || i.Hlt? || i.MovFromMemory? || i.MovToMemory? || i.Mov? || i.Xchg?
    ensures Step(s, i).next.flags == s.flags
  {
  }

  /** DAA, CMA, NOP, INX and DCX leave every flag. */
  lemma AdjustmentsKeepFlags(s: State, i: Instr)
    requires i.Daa? || i.Cma? || i.Nop? || i.Inx? || i.Dcx?
    ensures Step(s, i).next.flags == s.flags
  {
  }

  /** Jumps, calls, returns and restarts leave every flag. */
  lemma BranchesKeepFlags(s: State, i: Instr)
    requires i.Jmp? || i.Call? || i.Ret? || i.Pchl? || i.Rst?
    ensures Step(s, i).next.flags == s.flags
  {
  }

  /** So do the conditional ones, taken or not. */
  lemma ConditionalBranchesKeepFlags(s: State, i: Instr)
    requires i.Jcc? || i.Ccc? || i.Rcc?
    ensures Step(s, i).next.flags == s.flags
  {
  }

  /** PUSH PSW and XTHL leave every flag. */
  lemma StackOperationsKeepFlags(s: State, i: Instr)
    requires i.PushPsw? || i.Xthl?
    ensures Step(s, i).next.flags == s.flags
  {
  }

  /** So do SPHL, PUSH and POP of a register pair. */
  lemma PairStackOperationsKeepFlags(s: State, i: Instr)
    requires i.Sphl? || i.Push? || i.Pop?
    ensures Step(s, i).next.flags == s.flags
  {
  }

  /** MOV r1,r2 copies r2 into r1, advances PC by one, and changes nothing else. */
  lemma MoveChangesOnlyDestination(s: State, dst: Reg, src: Reg)
    ensures var t := MoveRegister(s, Some(dst), Some(src));
      && t.outcome == Ok
      && t.next.regs.Get(dst) == s.regs.Get(src)
      && (forall r :: r != dst ==> t.next.regs.Get(r) == s.regs.Get(r))
      && t.next.regs.sp == s.regs.sp
      && t.next == s.(regs := t.next.regs, pc := Wrap16(s.pc + 1))
  {
  }

  // ----- Meanings of the arithmetic instructions -----

  /** INR r and DCR r: the register steps by one modulo 256, Zero, Sign
      and Parity describe the result, and AuxCarry is the carry out of (or
      the borrow into) the low nibble. */
  lemma {:induction false} IncrementMeaning(s: State, r: Reg)
    ensures var x := s.regs.Get(r);
      var inr := CountRegister(s, Some(r), true).next;
      && inr.regs.Get(r) == (x + 1) % 0x100
      && (inr.flags.zero <==> inr.regs.Get(r) == 0)
      && (inr.flags.sign <==> Bit(inr.regs.Get(r), 7) == 1)
      && (inr.flags.parity <==> EvenParity(inr.regs.Get(r), 8))
      && (inr.flags.auxCarry <==> x % 0x10 == 0xF)
  {
    var x := s.regs.Get(r);
    var o := Operate(s.flags, x, 1, Addition, W8, {Carry}, false);
    AdditionFlags(s.flags, x, 1, {Carry});
    NibbleOfOne(x);
    assert CountRegister(s, Some(r), true).next == Advance(s.(regs := s.regs.Set(r, o.value), flags := o.flags), 1);
  }

  /** The low-nibble carry and borrow tests for an operand of one. */
  lemma NibbleOfOne(x: Byte)
    ensures x % 0x10 + 1 % 0x10 > 0xF <==> x % 0x10 == 0xF
    ensures x % 0x10 < 1 % 0x10 <==> x % 0x10 == 0
  {
  }

  /** The DCR half of the same. */
  lemma {:induction false} DecrementMeaning(s: State, r: Reg)
    ensures var x := s.regs.Get(r);
      var dcr := CountRegister(s, Some(r), false).next;
      && dcr.regs.Get(r) == (x - 1) % 0x100
      && (dcr.flags.zero <==> dcr.regs.Get(r) == 0)
      && (dcr.flags.sign <==> Bit(dcr.regs.Get(r), 7) == 1)
      && (dcr.flags.parity <==> EvenParity(dcr.regs.Get(r), 8))
      && (dcr.flags.auxCarry <==> x % 0x10 == 0)
  {
    var x := s.regs.Get(r);
    var o := Operate(s.flags, x, 1, Subtraction, W8, {Carry}, false);
    SubtractionFlags(s.flags, x, 1, {Carry});
    NibbleOfOne(x);
    assert CountRegister(s, Some(r), false).next == Advance(s.(regs := s.regs.Set(r, o.value), flags := o.flags), 1);
  }

  /** The accumulator instructions write the accumulator (CMP writes back
      the value it had) and the flags the operation computes, move PC past
      the instruction, and change no other register and no memory. */
  lemma {:induction false} AccumulatorOperationEffect(s: State, op: AluOp, operand: Operand, x: Byte)
    requires OperandValue(s, operand) == Some(x)
    ensures var r := Accumulate(op, operand, s.flags, Accumulator(s), x);
      var t := AccumulatorOperation(s, op, operand);
      && t.outcome == Ok
      && t.next.regs.Get(A) == r.value
      && t.next.flags == r.flags
      && (forall q :: q != A ==> t.next.regs.Get(q) == s.regs.Get(q))
      && t.next.regs.sp == s.regs.sp && t.next.mem == s.mem
      && t.next.pc == Wrap16(s.pc + if operand.FromImmediate? then 2 else 1)
  {
    var r := Accumulate(op, operand, s.flags, Accumulator(s), x);
    AccumulatorOperationIs(s, op, operand, r);
    CommitAccumulator(s, op == Cmp, r, if operand.FromImmediate? then 2 else 1);
  }

  /** The accumulator operation once its operand is known: the flag
      unit's result goes to A unless the operation is CMP. */
  lemma AccumulatorOperationIs(s: State, op: AluOp, operand: Operand, r: OpResult)
    requires OperandValue(s, operand).Some?
    requires r == Accumulate(op, operand, s.flags, Accumulator(s), OperandValue(s, operand).value)
    ensures r.value < 0x100
    ensures op == Cmp ==> r.value == Accumulator(s)
    ensures AccumulatorOperation(s, op, operand) ==
      Done(Advance(if op == Cmp then s.(flags := r.flags) else SetAccumulator(s.(flags := r.flags), r.value),
                   if operand.FromImmediate? then 2 else 1))
  {
  }

  /** Writing a flag-unit result back: A (unless CMP, which already holds
      it) and the flags take the result, PC moves on n bytes, and nothing
      else changes. */
  lemma CommitAccumulator(s: State, cmp: bool, r: OpResult, n: nat)
    requires r.value < 0x100
    requires cmp ==> r.value == Accumulator(s)
    ensures var t := Advance(if cmp then s.(flags := r.flags) else SetAccumulator(s.(flags := r.flags), r.value), n);
      && t.regs.Get(A) == r.value
      && t.flags == r.flags
      && (forall q :: q != A ==> t.regs.Get(q) == s.regs.Get(q))
      && t.regs.sp == s.regs.sp && t.mem == s.mem
      && t.pc == Wrap16(s.pc + n)
  {
    if !cmp {
      SetKeepsOthers(s.regs, A, r.value);
    }
  }

  /** ADD: the new accumulator and Carry together are the exact sum, and
      AuxCarry is the carry out of the low nibble, whichever operand order
      the instruction hands the flag unit. */
  lemma {:induction false} AddMeaning(operand: Operand, f: Flags, acc: Byte, x: Byte)
    ensures var r := AddOrSubtract(Add, operand, f, acc, x);
      && r.value + (if r.flags.carry then 0x100 else 0) == acc + x
      && (r.flags.auxCarry <==> acc % 0x10 + x % 0x10 > 0xF)
      && (r.flags.zero <==> r.value == 0)
  {
    if operand.FromMemory? {
      AdditionFlags(f, acc, x, {});
    } else {
      AdditionFlags(f, x, acc, {});
    }
    ByteSumAndCarry(acc, x);
  }

  /** A byte sum splits into its low byte and the carry out of bit 7, and a
      byte difference into its low byte and the borrow. */
  lemma ByteSumAndCarry(a: Byte, b: Byte)
    ensures (a + b) % 0x100 + (if a + b > 0xFF then 0x100 else 0) == a + b
    ensures (a - b) % 0x100 == a - b + (if b > a then 0x100 else 0)
    ensures a % 0x10 + b % 0x10 > 0xF <==> b % 0x10 + a % 0x10 > 0xF
  {
  }

  /** SUB: the new accumulator is the difference, Carry the borrow out of
      bit 7 and AuxCarry the borrow into the low nibble. */
  lemma {:induction false} SubtractMeaning(operand: Operand, f: Flags, acc: Byte, x: Byte)
    ensures var r := AddOrSubtract(Sub, operand, f, acc, x);
      && r.value == acc - x + (if r.flags.carry then 0x100 else 0)
      && (r.flags.carry <==> acc < x)
      && (r.flags.auxCarry <==> acc % 0x10 < x % 0x10)
  {
    SubtractionFlags(f, acc, x, {});
    ByteSumAndCarry(acc, x);
  }

  /** CMP leaves the accumulator, sets Zero iff it equals the operand and
      Carry iff it is below it. */
  lemma CompareMeaning(s: State, operand: Operand)
    requires OperandValue(s, operand).Some?
    ensures var x := OperandValue(s, operand).value;
      var t := AccumulatorOperation(s, Cmp, operand).next;
      && t.regs == s.regs && t.mem == s.mem
      && (t.flags.zero <==> s.regs.Get(A) == x)
      && (t.flags.carry <==> s.regs.Get(A) < x)
  {
    SetToOwnValue(s.regs, A);
  }

  /** DAD: the new HL and Carry together are the exact 17-bit sum. */
  lemma {:induction false} DadMeaning(s: State, rp: Pair)
    ensures var t := AddPairToHL(s, rp);
      t.regs.GetPair(HL) + (if t.flags.carry then 0x1_0000 else 0) == s.regs.GetPair(HL) + s.regs.GetPair(rp)
  {
    AdditionCarriesOut(s.flags, s.regs.GetPair(HL), s.regs.GetPair(rp), W16, AllButCarry);
  }

  /** RAR after RAL returns to the same state two bytes on: the rotation
      through carry is undone, Carry included. */
  lemma {:induction false} RotateThroughCarryUndone(s: State)
    ensures Rotate(Rotate(s, RotateLeft, true), RotateRight, true) == s.(pc := Wrap16(Wrap16(s.pc + 1) + 1))
  {
    RotateRightUndoesRotateLeft(s.flags, s.regs.Get(A), true);
    SetToOwnValue(s.regs, A);
  }

  // ----- Branches -----

  /** A conditional jump whose condition holds does what JMP does;
      otherwise it only moves PC past its three bytes. */
  lemma ConditionalJump(s: State, c: Condition)
    ensures Step(s, Jcc(c)) == if ConditionHolds(c, s.flags) then Step(s, Jmp) else Done(Advance(s, 3))
  {
  }

  /** A conditional call whose condition holds does what CALL does. */
  lemma ConditionalCall(s: State, c: Condition)
    ensures Step(s, Ccc(c)) == if ConditionHolds(c, s.flags) then Step(s, Call) else Done(Advance(s, 3))
  {
  }

  /** A conditional return whose condition holds does what RET does. */
  lemma ConditionalReturn(s: State, c: Condition)
    ensures Step(s, Rcc(c)) == if ConditionHolds(c, s.flags) then Step(s, Ret) else Done(Advance(s, 1))
  {
  }

  /** The 8080's own reading of a conditional opcode: bits 5..4 pick the
      flag (zero, carry, parity, sign) and bit 3 is the value it must have. */
  predicate OpcodeCondition(op: bv8, f: Flags)
  {
    var tested := if op & 0x30 == 0x00 then f.zero
                  else if op & 0x30 == 0x10 then f.carry
                  else if op & 0x30 == 0x20 then f.parity
                  else f.sign;
    tested == (op & 0x08 != 0)
  }

  /** checkCurrentCondition on bits 5..3 agrees with that reading. */
  lemma ConditionFieldTestsFlag(op: bv8, f: Flags)
    ensures ConditionHolds(ConditionField(op), f) == OpcodeCondition(op, f)
  {
  }

  /** Jcc as a byte: PC goes to the two data bytes' address when the flag
      named by bits 5..4 has the value of bit 3, past the three bytes
      otherwise; nothing else changes. */
  lemma ConditionalJumpOpcode(s: State)
    requires s.opcode & 0xC7 == 0xC2
    ensures Execute(s) == Done(s.(pc := if OpcodeCondition(s.opcode, s.flags)
                                         then AddressInDataBytes(s) else Wrap16(s.pc + 3)))
  {
    DecodesJccMasked(s.opcode);
    ConditionFieldTestsFlag(s.opcode, s.flags);
  }

  /** Ccc as a byte: when the tested flag has the value of bit 3, the
      return address PC + 3 is pushed and PC goes to the data bytes'
      address; otherwise PC only moves past the three bytes. */
  lemma ConditionalCallOpcode(s: State)
    requires s.opcode & 0xC7 == 0xC4
    ensures Execute(s) == Done(if OpcodeCondition(s.opcode, s.flags)
                               then CallSpec(s) else s.(pc := Wrap16(s.pc + 3)))
  {
    DecodesCccMasked(s.opcode);
    ConditionFieldTestsFlag(s.opcode, s.flags);
  }

  /** Rcc as a byte: when the tested flag has the value of bit 3, PC is
      popped from the stack; otherwise PC moves past the one byte. */
  lemma ConditionalReturnOpcode(s: State)
    requires s.opcode & 0xC7 == 0xC0
    ensures Execute(s) == Done(if OpcodeCondition(s.opcode, s.flags)
                               then RetSpec(s) else s.(pc := Wrap16(s.pc + 1)))
  {
    DecodesRccMasked(s.opcode);
    ConditionFieldTestsFlag(s.opcode, s.flags);
  }

  /** Opcodes that differ only in bit 3 test opposite conditions: NZ/Z,
      NC/C, PO/PE, P/M. */
  lemma {:induction false} ConditionsComeInOppositePairs(c: Condition, f: Flags)
    ensures var partner := ConditionField(Encode(Jcc(c)) ^ 0x08);
      ConditionHolds(partner, f) == !ConditionHolds(c, f)
  {
    var partner := match c
      case IfNotZero => IfZero case IfZero => IfNotZero
      case IfNoCarry => IfCarry case IfCarry => IfNoCarry
      case IfParityOdd => IfParityEven case IfParityEven => IfParityOdd
      case IfPlus => IfMinus case IfMinus => IfPlus;
    assert ConditionCode(partner) == ConditionCode(c) ^ 1;
    ConditionFieldOf(0xC2, partner);
    assert Encode(Jcc(c)) ^ 0x08 == 0xC2 | (ConditionCode(partner) << 3);
  }

  // ----- Outcomes -----

  /** The instructions whose case ends in assert(false): HLT, IN, OUT, EI, DI. */
  predicate Stops(i: Instr)
  {
    i == Hlt(None) || i.In? || i.Out? || i.Ei? || i.Di?
  }

  /** A stopping instruction fails; only HLT leaves a mark, the halt flag. */
  lemma StoppingStep(s: State, i: Instr)
    requires Stops(i)
    ensures Step(s, i) == Transition(Fatal, s.(halted := s.halted || i.Hlt?))
  {
  }

  /** The one-byte, immediate, direct-address and pair instructions of the
      first quadrant all complete normally when the opcode table defines them. */
  lemma FirstQuadrantCompletes(s: State, i: Instr)
    requires WellFormed(i)
    requires || i.MviM? || i.Lda? || i.Sta? || i.Lhld? || i.Shld? || i.InrM? || i.DcrM? || i.Daa?
             || i.Rlc? || i.Rrc? || i.Ral? || i.Rar? || i.Cma? || i.Cmc? || i.Stc? || i.Nop?
             || i.Lxi? || i.Ldax? || i.Stax? || i.Inx? || i.Dcx? || i.Dad?
    ensures Step(s, i).outcome == Ok
  {
  }

  /** The instructions naming registers in the opcode (MVI, INR, DCR, MOV
      and the accumulator group) complete normally when both are named. */
  lemma RegisterInstructionsComplete(s: State, i: Instr)
    requires WellFormed(i)
    requires || i.Mvi? || i.Inr? || i.Dcr? || i.MovFromMemory? || i.MovToMemory? || i.Mov? || i.Arith?
    ensures Step(s, i).outcome == Ok
  {
  }

  /** Jumps, calls, returns and restarts complete normally. */
  lemma BranchesComplete(s: State, i: Instr)
    requires WellFormed(i)
    requires i.Jmp? || i.Call? || i.Ret? || i.Pchl? || i.Rst?
    ensures Step(s, i).outcome == Ok
  {
  }

  /** So do the conditional ones, taken or not. */
  lemma ConditionalBranchesComplete(s: State, i: Instr)
    requires WellFormed(i)
    requires i.Jcc? || i.Ccc? || i.Rcc?
    ensures Step(s, i).outcome == Ok
  {
  }

  /** The exchanges and the status-word stack operations complete normally. */
  lemma StackOperationsComplete(s: State, i: Instr)
    requires WellFormed(i)
    requires i.Xchg? || i.PushPsw? || i.PopPsw? || i.Xthl?
    ensures Step(s, i).outcome == Ok
  {
  }

  /** So do SPHL and the pair stack operations. */
  lemma PairStackOperationsComplete(s: State, i: Instr)
    requires WellFormed(i)
    requires i.Sphl? || i.Push? || i.Pop?
    ensures Step(s, i).outcome == Ok
  {
  }

  /** Every instruction the opcode table defines completes normally, except
      HLT, IN, OUT, EI and DI. */
  lemma {:induction false} StepOkUnlessStopped(s: State, i: Instr)
    requires WellFormed(i)
    requires !Stops(i)
    ensures Step(s, i).outcome == Ok
  {
    if i.Mvi? || i.Inr? || i.Dcr? || i.MovFromMemory? || i.MovToMemory? || i.Mov? || i.Arith? {
      RegisterInstructionsComplete(s, i);
    } else if i.Jmp? || i.Call? || i.Ret? || i.Pchl? || i.Rst? {
      BranchesComplete(s, i);
    } else if i.Jcc? || i.Ccc? || i.Rcc? {
      ConditionalBranchesComplete(s, i);
    } else if i.Xchg? || i.PushPsw? || i.PopPsw? || i.Xthl? {
      StackOperationsComplete(s, i);
    } else if i.Sphl? || i.Push? || i.Pop? {
      PairStackOperationsComplete(s, i);
    } else {
      FirstQuadrantCompletes(s, i);
    }
  }

  /** The five opcodes that reach an assert(false) are what they seem. */
  lemma StoppingOpcodes()
    ensures Decode(0x76) == Hlt(None)
    ensures Decode(0xDB) == In && Decode(0xD3) == Out
    ensures Decode(0xFB) == Ei && Decode(0xF3) == Di
  {
  }

  /** No other opcode decodes to a stopping instruction. */
  lemma {:induction false} StoppingOpcodesExactly(op: bv8)
    ensures Stops(Decode(op)) <==> op in {0x76, 0xDB, 0xD3, 0xFB, 0xF3}
  {
    StoppingOpcodes();
    if Stops(Decode(op)) {
      EncodeDecode(op);
    }
  }

  /** A cycle ends at an assert(false) exactly for HLT, IN, OUT, EI and
      DI, and of those only HLT changes anything: it sets the halt flag. */
  lemma {:induction false} ExecuteFails(s: State)
    ensures Execute(s).outcome == Fatal <==> s.opcode in {0x76, 0xDB, 0xD3, 0xFB, 0xF3}
    ensures Execute(s).outcome == Fatal ==> Execute(s).next == s.(halted := s.halted || s.opcode == 0x76)
  {
    var i := Decode(s.opcode);
    StoppingOpcodesExactly(s.opcode);
    if Stops(i) {
      StoppingStep(s, i);
      StoppingOpcodes();
    } else if !i.Unmatched? {
      DecodedWellFormed(s.opcode);
      StepOkUnlessStopped(s, i);
    }
  }

  /** A cycle matches no case exactly for the twelve opcodes the 8080 leaves
      undefined, and then nothing changes. */
  lemma {:induction false} ExecuteUnrecognised(s: State)
    ensures Execute(s).outcome == Unrecognised
      <==> s.opcode in {0x08, 0x10, 0x18, 0x20, 0x28, 0x30, 0x38, 0xCB, 0xD9, 0xDD, 0xED, 0xFD}
    ensures Execute(s).outcome == Unrecognised ==> Execute(s).next == s
  {
    var i := Decode(s.opcode);
    UnrecognisedOpcodes(s.opcode);
    if Stops(i) {
      StoppingStep(s, i);
    } else if !i.Unmatched? {
      DecodedWellFormed(s.opcode);
      StepOkUnlessStopped(s, i);
    }
  }

  /** A halted processor's cycle does nothing. */
  lemma HaltedCycleChangesNothing(s: State)
    requires s.halted
    ensures RunCycle(s) == Transition(Ok, s)
  {
  }

  /** HLT sets the halt flag and the cycle then ends at the register check
      with PC unchanged; every later cycle does nothing. */
  lemma {:induction false} HaltStops(s: State)
    requires !s.halted && s.mem[s.pc] == 0x76
    ensures RunCycle(s) == Transition(Fatal, Fetch(s).(halted := true))
    ensures RunCycle(s).next.halted && RunCycle(s).next.pc == s.pc
  {
    var f := Fetch(s);
    assert f.opcode == 0x76;
    assert Decode(0x76) == Hlt(None);
    assert Execute(f) == Step(f, Hlt(None));
    StoppingStep(f, Hlt(None));
  }
}
