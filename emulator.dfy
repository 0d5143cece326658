/** The processor as the source builds it: a 64 KiB memory array, the
    register manager and the flag unit, the program counter, the current
    opcode and the halt flag, all updated in place. Every method is proved
    to do to the abstract State what the Cpu module says. */
module Emulator {
  import opened Bits
  import opened Alu
  import opened Registers
  import opened Instructions
  import opened Cpu
  import Decoding
  import CpuFacts

  /** The instructions of the first three quadrants of the opcode map
      (loads, stores, counters, rotations, moves, accumulator operations). */
  predicate IsDataInstruction(i: Instr)
  {
    || i.MviM? || i.Lda? || i.Sta? || i.Lhld? || i.Shld? || i.InrM? || i.DcrM?
    || i.Daa? || i.Cma? || i.Cmc? || i.Stc? || i.Nop?
    || i.Rlc? || i.Rrc? || i.Ral? || i.Rar?
    || i.Lxi? || i.Ldax? || i.Stax? || i.Inx? || i.Dcx? || i.Dad?
    || i.Mvi? || i.Inr? || i.Dcr? || i.Hlt? || i.MovFromMemory? || i.MovToMemory? || i.Mov?
    || i.Arith?
  }

  class Intel8080 {
    const memory: array<Byte>
    const registers: RegisterManager
    const alu: Alu
    var programCounter: Word
    var currentOpcode: bv8
    var haltFlag: bool

    ghost predicate Valid()
      reads this, registers
    {
      && memory.Length == 0x1_0000
      && registers.Valid()
      && memory != registers.registers
    }

    /** The whole processor state as a value. */
    ghost function Abstract(): State
      reads this, memory, registers, registers.registers, alu
      requires Valid()
    {
      State(memory[..], registers.Model(), alu.flags, programCounter, currentOpcode, haltFlag)
    }

    /** A processor whose memory holds the given image (loading it is the
        machine's business), with every register zero, every flag clear
        and the program counter at 0. */
    constructor (image: seq<Byte>)
      requires |image| == 0x1_0000
      ensures Valid()
      ensures Abstract() == State(image, InitialRegisters, Cleared, 0, 0, false)
    {
      memory := new Byte[0x1_0000](i requires 0 <= i < 0x1_0000 => image[i]);
      registers := new RegisterManager();
      alu := new Alu();
      programCounter := 0;
      currentOpcode := 0;
      haltFlag := false;
      new;
      assert memory[..] == image;
    }

    /** The byte at an address computed in int, taken modulo 2^16. */
    function ReadMemory(address: int): (v: Byte)
      reads this, memory
      requires memory.Length == 0x1_0000
      ensures v == ReadByte(memory[..], address)
    {
      memory[Wrap16(address)]
    }

    method Fetch()
      requires Valid()
      modifies this
      ensures Valid()
      ensures Abstract() == Cpu.Fetch(old(Abstract()))
    {
      currentOpcode := memory[programCounter] as bv8;
    }

    method GetAddressInDataBytes() returns (address: Word)
      requires Valid()
      ensures address == AddressInDataBytes(Abstract())
    {
      var low := ReadMemory(programCounter + 1);
      var high: int := ReadMemory(programCounter + 2);
      address := high * 0x100 + low;
    }

    method CheckCurrentCondition() returns (holds: bool)
      requires Valid()
      ensures holds == ConditionHolds(ConditionField(currentOpcode), alu.flags)
    {
      match ConditionField(currentOpcode)
      case IfNotZero => holds := !alu.GetFlag(Zero);
      case IfZero => holds := alu.GetFlag(Zero);
      case IfNoCarry => holds := !alu.GetFlag(Carry);
      case IfCarry => holds := alu.GetFlag(Carry);
      case IfParityOdd => holds := !alu.GetFlag(Parity);
      case IfParityEven => holds := alu.GetFlag(Parity);
      case IfPlus => holds := !alu.GetFlag(Sign);
      case IfMinus => holds := alu.GetFlag(Sign);
    }

    /** Two pre-decrements of the stack pointer, storing v's high byte and
        then its low byte. */
    method PushWord(v: Word)
      requires Valid()
      modifies memory, registers, registers.registers
      ensures Valid()
      ensures Abstract() == Cpu.PushWord(old(Abstract()), v)
    {
      var sp: int := registers.GetValueFromRegisterPair(SP);
      Wrap16Twice(sp);
      sp := Wrap16(sp - 1);
      memory[sp] := v / 0x100;
      sp := Wrap16(sp - 1);
      memory[sp] := v % 0x100;
      registers.SetRegisterPair(SP, sp);
    }

    method Call()
      requires Valid()
      modifies this, memory, registers, registers.registers
      ensures Valid()
      ensures Abstract() == CallSpec(old(Abstract()))
    {
      var nextInstructionPos := Wrap16(programCounter + 3);
      PushWord(nextInstructionPos);
      programCounter := GetAddressInDataBytes();
    }

    method Ret()
      requires Valid()
      modifies this, registers, registers.registers
      ensures Valid()
      ensures Abstract() == RetSpec(old(Abstract()))
    {
      var sp: int := registers.GetValueFromRegisterPair(SP);
      var high: int := ReadMemory(sp + 1);
      programCounter := high * 0x100 + memory[sp];
      registers.SetRegisterPair(SP, Wrap16(sp + 2));
    }
  
    // ----- The instructions, one method per Cpu function -----

    method MoveImmediateToMemory()
      requires Valid()
      modifies this, memory
      ensures Valid()
      ensures Abstract() == Cpu.MoveImmediateToMemory(old(Abstract()))
    {
      var destMemLocation := registers.GetValueFromRegisterPair(HL);
      var dataByte := ReadMemory(programCounter + 1);
      memory[destMemLocation] := dataByte;
      programCounter := Wrap16(programCounter + 2);
    }

    method LoadAccumulatorDirect()
      requires Valid()
      modifies this, registers.registers
      ensures Valid()
      ensures Abstract() == Cpu.LoadAccumulatorDirect(old(Abstract()))
    {
      var address := GetAddressInDataBytes();
      registers.SetRegisterValue(A, memory[address]);
      programCounter := Wrap16(programCounter + 3);
    }

    method StoreAccumulatorDirect()
      requires Valid()
      modifies this, memory
      ensures Valid()
      ensures Abstract() == Cpu.StoreAccumulatorDirect(old(Abstract()))
    {
      var data := registers.GetRegisterValue(A);
      var address := GetAddressInDataBytes();
      memory[address] := data;
      programCounter := Wrap16(programCounter + 3);
    }

    method LoadHLDirect()
      requires Valid()
      modifies this, registers.registers
      ensures Valid()
      ensures Abstract() == Cpu.LoadHLDirect(old(Abstract()))
    {
      var address: int := GetAddressInDataBytes();
      registers.SetRegisterValue(L, memory[address]);
      registers.SetRegisterValue(H, ReadMemory(address + 1));
      programCounter := Wrap16(programCounter + 3);
    }

    method StoreHLDirect()
      requires Valid()
      modifies this, memory
      ensures Valid()
      ensures Abstract() == Cpu.StoreHLDirect(old(Abstract()))
    {
      var address: int := GetAddressInDataBytes();
      var low := registers.GetRegisterValue(L);
      memory[address] := low;
      var high := registers.GetRegisterValue(H);
      memory[Wrap16(address + 1)] := high;
      programCounter := Wrap16(programCounter + 3);
    }

    method CountMemory(up: bool)
      requires Valid()
      modifies this, memory, alu
      ensures Valid()
      ensures Abstract() == Cpu.CountMemory(old(Abstract()), up)
    {
      var address := registers.GetValueFromRegisterPair(HL);
      var result := alu.OperateAndSetFlags(memory[address], 1, if up then Addition else Subtraction, W8, {Carry}, false);
      memory[address] := result;
      programCounter := Wrap16(programCounter + 1);
    }

    method Rotate(op: Operation, throughCarry: bool)
      requires Valid()
      requires op == RotateLeft || op == RotateRight
      modifies this, registers.registers, alu
      ensures Valid()
      ensures Abstract() == Cpu.Rotate(old(Abstract()), op, throughCarry)
    {
      var acc := registers.GetRegisterValue(A);
      var result := alu.OperateAndSetFlags(acc, 0, op, W8, AllButCarry, throughCarry);
      registers.SetRegisterValue(A, result);
      programCounter := Wrap16(programCounter + 1);
    }

    method LoadPairImmediate(rp: Pair)
      requires Valid()
      modifies this, registers, registers.registers
      ensures Valid()
      ensures Abstract() == Cpu.LoadPairImmediate(old(Abstract()), rp)
    {
      var lowOrderByte := ReadMemory(programCounter + 1);
      var highOrderByte := ReadMemory(programCounter + 2);
      registers.SetRegisterPairBytes(rp, highOrderByte, lowOrderByte);
      programCounter := Wrap16(programCounter + 3);
    }

    method LoadAccumulatorIndirect(rp: Pair) returns (outcome: Outcome)
      requires Valid()
      modifies this, registers.registers
      ensures Valid()
      ensures Transition(outcome, Abstract()) == Cpu.LoadAccumulatorIndirect(old(Abstract()), rp)
    {
      if rp != BC && rp != DE {
        return Fatal;
      }
      var address := registers.GetValueFromRegisterPair(rp);
      registers.SetRegisterValue(A, memory[address]);
      programCounter := Wrap16(programCounter + 1);
      outcome := Ok;
    }

    method StoreAccumulatorIndirect(rp: Pair) returns (outcome: Outcome)
      requires Valid()
      modifies this, memory
      ensures Valid()
      ensures Transition(outcome, Abstract()) == Cpu.StoreAccumulatorIndirect(old(Abstract()), rp)
    {
      if rp != BC && rp != DE {
        return Fatal;
      }
      var address := registers.GetValueFromRegisterPair(rp);
      var acc := registers.GetRegisterValue(A);
      memory[address] := acc;
      programCounter := Wrap16(programCounter + 1);
      outcome := Ok;
    }

    method CountPair(rp: Pair, up: bool)
      requires Valid()
      modifies this, registers, registers.registers
      ensures Valid()
      ensures Abstract() == Cpu.CountPair(old(Abstract()), rp, up)
    {
      var v: int := registers.GetValueFromRegisterPair(rp);
      registers.SetRegisterPair(rp, Wrap16(if up then v + 1 else v - 1));
      programCounter := Wrap16(programCounter + 1);
    }

    method AddPairToHL(rp: Pair)
      requires Valid()
      modifies this, registers, registers.registers, alu
      ensures Valid()
      ensures Abstract() == Cpu.AddPairToHL(old(Abstract()), rp)
    {
      var hl := registers.GetValueFromRegisterPair(HL);
      var other := registers.GetValueFromRegisterPair(rp);
      var result := alu.OperateAndSetFlags(hl, other, Addition, W16, AllButCarry, false);
      registers.SetRegisterPair(HL, result);
      programCounter := Wrap16(programCounter + 1);
    }

    method MoveImmediate(dst: Option<Reg>) returns (outcome: Outcome)
      requires Valid()
      modifies this, registers.registers
      ensures Valid()
      ensures Transition(outcome, Abstract()) == Cpu.MoveImmediate(old(Abstract()), dst)
    {
      if dst.None? {
        return Fatal;
      }
      var dataByte := ReadMemory(programCounter + 1);
      registers.SetRegisterValue(dst.value, dataByte);
      programCounter := Wrap16(programCounter + 2);
      outcome := Ok;
    }

    method CountRegister(dst: Option<Reg>, up: bool) returns (outcome: Outcome)
      requires Valid()
      modifies this, registers.registers, alu
      ensures Valid()
      ensures Transition(outcome, Abstract()) == Cpu.CountRegister(old(Abstract()), dst, up)
    {
      if dst.None? {
        return Fatal;
      }
      var v := registers.GetRegisterValue(dst.value);
      var result := alu.OperateAndSetFlags(v, 1, if up then Addition else Subtraction, W8, {Carry}, false);
      registers.SetRegisterValue(dst.value, result);
      programCounter := Wrap16(programCounter + 1);
      outcome := Ok;
    }

    method MoveFromMemory(dst: Option<Reg>) returns (outcome: Outcome)
      requires Valid()
      modifies this, registers.registers
      ensures Valid()
      ensures Transition(outcome, Abstract()) == Cpu.MoveFromMemory(old(Abstract()), dst)
    {
      var address := registers.GetValueFromRegisterPair(HL);
      if dst.None? {
        return Fatal;
      }
      registers.SetRegisterValue(dst.value, memory[address]);
      programCounter := Wrap16(programCounter + 1);
      outcome := Ok;
    }

    method MoveToMemory(src: Option<Reg>) returns (outcome: Outcome)
      requires Valid()
      modifies this, memory
      ensures Valid()
      ensures Transition(outcome, Abstract()) == Cpu.MoveToMemory(old(Abstract()), src)
    {
      var address := registers.GetValueFromRegisterPair(HL);
      if src.None? {
        return Fatal;
      }
      var v := registers.GetRegisterValue(src.value);
      memory[address] := v;
      programCounter := Wrap16(programCounter + 1);
      outcome := Ok;
    }

    method MoveRegister(dst: Option<Reg>, src: Option<Reg>) returns (outcome: Outcome)
      requires Valid()
      modifies this, registers.registers
      ensures Valid()
      ensures Transition(outcome, Abstract()) == Cpu.MoveRegister(old(Abstract()), dst, src)
    {
      if dst.None? || src.None? {
        return Fatal;
      }
      var v := registers.GetRegisterValue(src.value);
      registers.SetRegisterValue(dst.value, v);
      programCounter := Wrap16(programCounter + 1);
      outcome := Ok;
    }

    /** The flag-unit calls of the eight accumulator operations, and the
        flag writes after them. */
    method Accumulate(op: AluOp, operand: Operand, acc: Byte, x: Byte) returns (value: nat)
      modifies alu
      ensures value < 0x100
      ensures OpResult(value, alu.flags) == Cpu.Accumulate(op, operand, old(alu.flags), acc, x)
    {
      match op
      case Add =>
        if operand.FromMemory? {
          value := alu.OperateAndSetFlags(acc, x, Addition, W8, {}, false);
        } else {
          value := alu.OperateAndSetFlags(x, acc, Addition, W8, {}, false);
        }
      case Adc =>
        if operand.FromMemory? {
          value := alu.OperateAndSetFlags(acc, x, Addition, W8, {}, true);
        } else {
          value := alu.OperateAndSetFlags(x, acc, Addition, W8, {}, true);
        }
      case Sub =>
        value := alu.OperateAndSetFlags(acc, x, Subtraction, W8, {}, false);
      case Sbb =>
        value := alu.OperateAndSetFlags(acc, x, Subtraction, W8, {}, true);
      case Ana =>
        if operand.FromImmediate? {
          value := alu.OperateAndSetFlags(acc, x, And, W8, CarryFlags, false);
          alu.SetFlag(Carry, false);
          alu.SetFlag(AuxCarry, false);
        } else {
          value := alu.OperateAndSetFlags(acc, x, And, W8, {Carry}, false);
          alu.SetFlag(Carry, false);
        }
      case Xra =>
        value := alu.OperateAndSetFlags(acc, x, Xor, W8, CarryFlags, false);
        alu.SetFlag(Carry, false);
        alu.SetFlag(AuxCarry, false);
      case Ora =>
        value := alu.OperateAndSetFlags(acc, x, Or, W8, CarryFlags, false);
        alu.SetFlag(Carry, false);
        alu.SetFlag(AuxCarry, false);
      case Cmp =>
        var _ := alu.OperateAndSetFlags(acc, x, Subtraction, W8, {Zero, Carry}, false);
        alu.SetFlag(Zero, acc == x);
        alu.SetFlag(Carry, acc < x);
        value := acc;
    }

    /** The operand byte: memory at HL, a register, or the byte after the
        opcode; None for a register field that names no register. */
    method OperandValue(operand: Operand) returns (x: Option<Byte>)
      requires Valid()
      ensures x == Cpu.OperandValue(Abstract(), operand)
    {
      match operand {
        case FromMemory =>
          var address := registers.GetValueFromRegisterPair(HL);
          x := Some(memory[address]);
        case FromRegister(src) =>
          if src.None? {
            return None;
          }
          var v := registers.GetRegisterValue(src.value);
          x := Some(v);
        case FromImmediate =>
          x := Some(ReadMemory(programCounter + 1));
      }
    }

    method AccumulatorOperation(op: AluOp, operand: Operand) returns (outcome: Outcome)
      requires Valid()
      modifies this, registers.registers, alu
      ensures Valid()
      ensures Transition(outcome, Abstract()) == Cpu.AccumulatorOperation(old(Abstract()), op, operand)
    {
      ghost var s0 := Abstract();
      var x := OperandValue(operand);
      if x.None? {
        return Fatal;
      }
      var acc := registers.GetRegisterValue(A);
      var result := Accumulate(op, operand, acc, x.value);
      CpuFacts.AccumulatorOperationIs(s0, op, operand, OpResult(result, alu.flags));
      StoreAccumulatorResult(op != Cmp, result, if operand.FromImmediate? then 2 else 1);
      outcome := Ok;
    }

    /** Every accumulator operation but CMP writes its result to A; all of
        them then step over the instruction. */
    method StoreAccumulatorResult(store: bool, result: Byte, length: nat)
      requires Valid()
      modifies this, registers.registers
      ensures Valid()
      ensures Abstract() == Advance(if store then SetAccumulator(old(Abstract()), result) else old(Abstract()), length)
    {
      if store {
        registers.SetRegisterValue(A, result);
      }
      programCounter := Wrap16(programCounter + length);
    }

    method ExchangeDEWithHL()
      requires Valid()
      modifies this, registers, registers.registers
      ensures Valid()
      ensures Abstract() == Cpu.ExchangeDEWithHL(old(Abstract()))
    {
      var hlVal := registers.GetValueFromRegisterPair(HL);
      var deVal := registers.GetValueFromRegisterPair(DE);
      registers.SetRegisterPair(DE, hlVal);
      registers.SetRegisterPair(HL, deVal);
      programCounter := Wrap16(programCounter + 1);
    }

    method PushStatus()
      requires Valid()
      modifies this, memory, registers, registers.registers
      ensures Valid()
      ensures Abstract() == Cpu.PushStatus(old(Abstract()))
    {
      var sp: int := registers.GetValueFromRegisterPair(SP);
      Wrap16Twice(sp);
      sp := Wrap16(sp - 1);
      var acc := registers.GetRegisterValue(A);
      memory[sp] := acc;
      sp := Wrap16(sp - 1);
      memory[sp] := alu.CreateStatusByte();
      registers.SetRegisterPair(SP, sp);
      programCounter := Wrap16(programCounter + 1);
    }

    method PopStatus()
      requires Valid()
      modifies this, registers, registers.registers, alu
      ensures Valid()
      ensures Abstract() == Cpu.PopStatus(old(Abstract()))
    {
      var sp: int := registers.GetValueFromRegisterPair(SP);
      Wrap16Twice(sp);
      alu.SetFromStatusByte(memory[sp]);
      sp := Wrap16(sp + 1);
      registers.SetRegisterValue(A, memory[sp]);
      sp := Wrap16(sp + 1);
      registers.SetRegisterPair(SP, sp);
      programCounter := Wrap16(programCounter + 1);
    }

    method ExchangeStackTop()
      requires Valid()
      modifies this, registers, registers.registers
      ensures Valid()
      ensures Abstract() == Cpu.ExchangeStackTop(old(Abstract()))
    {
      var sp := registers.GetValueFromRegisterPair(SP);
      var oldStackVal := memory[sp];
      var hlRegVal := registers.GetValueFromRegisterPair(HL);
      registers.SetRegisterPair(SP, hlRegVal);
      registers.SetRegisterPair(HL, oldStackVal);
      programCounter := Wrap16(programCounter + 1);
    }

    method Restart(n: bv8)
      requires Valid()
      modifies this, memory, registers, registers.registers
      ensures Valid()
      ensures Abstract() == Cpu.Restart(old(Abstract()), n)
    {
      PushWord(programCounter);
      programCounter := Wrap16(n as int * 8);
    }

    method PushPair(rp: Pair)
      requires Valid()
      modifies this, memory, registers, registers.registers
      ensures Valid()
      ensures Abstract() == Cpu.PushPair(old(Abstract()), rp)
    {
      var val := registers.GetValueFromRegisterPair(rp);
      PushWord(val);
      programCounter := Wrap16(programCounter + 1);
    }

    method PopPair(rp: Pair)
      requires Valid()
      modifies this, registers, registers.registers
      ensures Valid()
      ensures Abstract() == Cpu.PopPair(old(Abstract()), rp)
    {
      var sp: int := registers.GetValueFromRegisterPair(SP);
      var high := ReadMemory(sp + 1);
      registers.SetRegisterPairBytes(rp, high, memory[sp]);
      registers.SetRegisterPair(SP, Wrap16(sp + 2));
      programCounter := Wrap16(programCounter + 1);
    }
  
    method DecimalAdjustAccumulator()
      requires Valid()
      modifies this, registers.registers
      ensures Valid()
      ensures Abstract() == Cpu.DecimalAdjustAccumulator(old(Abstract()))
    {
      var acc := registers.GetRegisterValue(A);
      registers.SetRegisterValue(A, Cpu.DecimalAdjust(acc, alu.flags));
      programCounter := Wrap16(programCounter + 1);
    }

    method ComplementAccumulator()
      requires Valid()
      modifies this, registers.registers
      ensures Valid()
      ensures Abstract() == Cpu.ComplementAccumulator(old(Abstract()))
    {
      var acc := registers.GetRegisterValue(A);
      registers.SetRegisterValue(A, 0xFF - acc);
      programCounter := Wrap16(programCounter + 1);
    }

    method ComplementCarry()
      requires Valid()
      modifies this, alu
      ensures Valid()
      ensures Abstract() == Cpu.ComplementCarry(old(Abstract()))
    {
      alu.SetFlag(Carry, !alu.GetFlag(Carry));
      programCounter := Wrap16(programCounter + 1);
    }

    method SetCarry()
      requires Valid()
      modifies this, alu
      ensures Valid()
      ensures Abstract() == Cpu.SetCarry(old(Abstract()))
    {
      alu.SetFlag(Carry, true);
      programCounter := Wrap16(programCounter + 1);
    }

    method Jump()
      requires Valid()
      modifies this
      ensures Valid()
      ensures Abstract() == Cpu.Jump(old(Abstract()))
    {
      programCounter := GetAddressInDataBytes();
    }

    method JumpToHL()
      requires Valid()
      modifies this
      ensures Valid()
      ensures Abstract() == Cpu.JumpToHL(old(Abstract()))
    {
      programCounter := registers.GetValueFromRegisterPair(HL);
    }

    method LoadSPFromHL()
      requires Valid()
      modifies this, registers, registers.registers
      ensures Valid()
      ensures Abstract() == Cpu.LoadSPFromHL(old(Abstract()))
    {
      var hl := registers.GetValueFromRegisterPair(HL);
      registers.SetRegisterPair(SP, hl);
      programCounter := Wrap16(programCounter + 1);
    }

    /** The conditional instructions test the condition in the current
        opcode, so c must be the one decoded from it. */
    method JumpIf(c: Condition)
      requires Valid()
      requires c == ConditionField(currentOpcode)
      modifies this
      ensures Valid()
      ensures Abstract() == Cpu.JumpIf(old(Abstract()), c)
    {
      var holds := CheckCurrentCondition();
      if holds {
        programCounter := GetAddressInDataBytes();
      } else {
        programCounter := Wrap16(programCounter + 3);
      }
    }

    method CallIf(c: Condition)
      requires Valid()
      requires c == ConditionField(currentOpcode)
      modifies this, memory, registers, registers.registers
      ensures Valid()
      ensures Abstract() == Cpu.CallIf(old(Abstract()), c)
    {
      var holds := CheckCurrentCondition();
      if holds {
        Call();
      } else {
        programCounter := Wrap16(programCounter + 3);
      }
    }

    method ReturnIf(c: Condition)
      requires Valid()
      requires c == ConditionField(currentOpcode)
      modifies this, registers, registers.registers
      ensures Valid()
      ensures Abstract() == Cpu.ReturnIf(old(Abstract()), c)
    {
      var holds := CheckCurrentCondition();
      if holds {
        Ret();
      } else {
        programCounter := Wrap16(programCounter + 1);
      }
    }

    // ----- Decoding and the instruction cycle -----

    /** HLT sets the halt flag before it goes on as MOV M,M would. */
    method Halt()
      requires Valid()
      modifies this
      ensures Valid()
      ensures Abstract() == old(Abstract()).(halted := true)
    {
      haltFlag := true;
    }

    // ----- decodeAndExecute, family by family -----

    /** Instructions that address memory directly or through HL. */
    method ExecuteMemoryAccess(i: Instr) returns (outcome: Outcome)
      requires Valid()
      requires i.MviM? || i.Lda? || i.Sta? || i.Lhld? || i.Shld? || i.InrM? || i.DcrM?
      modifies this, memory, registers.registers, alu
      ensures Valid()
      ensures Transition(outcome, Abstract()) == Step(old(Abstract()), i)
    {
      outcome := Ok;
      match i {
        case MviM => MoveImmediateToMemory();
        case Lda => LoadAccumulatorDirect();
        case Sta => StoreAccumulatorDirect();
        case Lhld => LoadHLDirect();
        case Shld => StoreHLDirect();
        case InrM => CountMemory(true);
        case DcrM => CountMemory(false);
      }
    }

    /** DAA, CMA, CMC, STC and NOP. */
    method ExecuteAccumulatorMisc(i: Instr) returns (outcome: Outcome)
      requires Valid()
      requires i.Daa? || i.Cma? || i.Cmc? || i.Stc? || i.Nop?
      modifies this, registers.registers, alu
      ensures Valid()
      ensures Transition(outcome, Abstract()) == Step(old(Abstract()), i)
    {
      outcome := Ok;
      match i {
        case Daa => DecimalAdjustAccumulator();
        case Cma => ComplementAccumulator();
        case Cmc => ComplementCarry();
        case Stc => SetCarry();
        case Nop =>
          programCounter := Wrap16(programCounter + 1);
      }
    }

    /** The four accumulator rotations. */
    method ExecuteRotate(i: Instr) returns (outcome: Outcome)
      requires Valid()
      requires i.Rlc? || i.Rrc? || i.Ral? || i.Rar?
      modifies this, registers.registers, alu
      ensures Valid()
      ensures Transition(outcome, Abstract()) == Step(old(Abstract()), i)
    {
      outcome := Ok;
      match i {
        case Rlc => Rotate(RotateLeft, false);
        case Rrc => Rotate(RotateRight, false);
        case Ral => Rotate(RotateLeft, true);
        case Rar => Rotate(RotateRight, true);
      }
    }

    /** LXI, LDAX, STAX, INX and DCX. */
    method ExecutePairTransfer(i: Instr) returns (outcome: Outcome)
      requires Valid()
      requires i.Lxi? || i.Ldax? || i.Stax? || i.Inx? || i.Dcx?
      modifies this, memory, registers, registers.registers
      ensures Valid()
      ensures Transition(outcome, Abstract()) == Step(old(Abstract()), i)
    {
      outcome := Ok;
      match i {
        case Lxi(rp) => LoadPairImmediate(rp);
        case Ldax(rp) => outcome := LoadAccumulatorIndirect(rp);
        case Stax(rp) => outcome := StoreAccumulatorIndirect(rp);
        case Inx(rp) => CountPair(rp, true);
        case Dcx(rp) => CountPair(rp, false);
      }
    }

    /** MVI, INR, DCR and HLT, which write the register in the DDD field. */
    method ExecuteRegisterUpdate(i: Instr) returns (outcome: Outcome)
      requires Valid()
      requires i.Mvi? || i.Inr? || i.Dcr? || i.Hlt?
      modifies this, memory, registers.registers, alu
      ensures Valid()
      ensures Transition(outcome, Abstract()) == Step(old(Abstract()), i)
    {
      match i {
        case Mvi(dst) => outcome := MoveImmediate(dst);
        case Inr(dst) => outcome := CountRegister(dst, true);
        case Dcr(dst) => outcome := CountRegister(dst, false);
        case Hlt(dst) =>
          Halt();
          outcome := MoveFromMemory(dst);
      }
    }

    /** The three shapes of MOV. */
    method ExecuteMove(i: Instr) returns (outcome: Outcome)
      requires Valid()
      requires i.MovFromMemory? || i.MovToMemory? || i.Mov?
      modifies this, memory, registers.registers
      ensures Valid()
      ensures Transition(outcome, Abstract()) == Step(old(Abstract()), i)
    {
      match i {
        case MovFromMemory(dst) => outcome := MoveFromMemory(dst);
        case MovToMemory(src) => outcome := MoveToMemory(src);
        case Mov(dst, src) => outcome := MoveRegister(dst, src);
      }
    }

    /** JMP and PCHL. */
    method ExecuteJump(i: Instr) returns (outcome: Outcome)
      requires Valid()
      requires i.Jmp? || i.Pchl?
      modifies this
      ensures Valid()
      ensures Transition(outcome, Abstract()) == Step(old(Abstract()), i)
    {
      outcome := Ok;
      match i {
        case Jmp => Jump();
        case Pchl => JumpToHL();
      }
    }

    /** The conditional jumps. */
    method ExecuteConditionalJump(i: Instr) returns (outcome: Outcome)
      requires Valid()
      requires i.Jcc? && i.cond == ConditionField(currentOpcode)
      modifies this
      ensures Valid()
      ensures Transition(outcome, Abstract()) == Step(old(Abstract()), i)
    {
      outcome := Ok;
      JumpIf(i.cond);
    }

    /** RST. */
    method ExecuteRestart(i: Instr) returns (outcome: Outcome)
      requires Valid()
      requires i.Rst?
      modifies this, memory, registers, registers.registers
      ensures Valid()
      ensures Transition(outcome, Abstract()) == Step(old(Abstract()), i)
    {
      outcome := Ok;
      Restart(i.n);
    }

    /** CALL and the conditional calls. */
    method ExecuteCall(i: Instr) returns (outcome: Outcome)
      requires Valid()
      requires i.Call? || i.Ccc?
      requires i.Ccc? ==> i.cond == ConditionField(currentOpcode)
      modifies this, memory, registers, registers.registers
      ensures Valid()
      ensures Transition(outcome, Abstract()) == Step(old(Abstract()), i)
    {
      outcome := Ok;
      match i {
        case Call => Call();
        case Ccc(c) => CallIf(c);
      }
    }

    /** RET and the conditional returns. */
    method ExecuteReturn(i: Instr) returns (outcome: Outcome)
      requires Valid()
      requires i.Ret? || i.Rcc?
      requires i.Rcc? ==> i.cond == ConditionField(currentOpcode)
      modifies this, registers, registers.registers
      ensures Valid()
      ensures Transition(outcome, Abstract()) == Step(old(Abstract()), i)
    {
      outcome := Ok;
      match i {
        case Ret => Ret();
        case Rcc(c) => ReturnIf(c);
      }
    }

    /** XTHL and SPHL. */
    method ExecuteStackPointer(i: Instr) returns (outcome: Outcome)
      requires Valid()
      requires i.Xthl? || i.Sphl?
      modifies this, registers, registers.registers
      ensures Valid()
      ensures Transition(outcome, Abstract()) == Step(old(Abstract()), i)
    {
      outcome := Ok;
      match i {
        case Xthl => ExchangeStackTop();
        case Sphl => LoadSPFromHL();
      }
    }

    /** PUSH PSW and POP PSW. */
    method ExecuteStatus(i: Instr) returns (outcome: Outcome)
      requires Valid()
      requires i.PushPsw? || i.PopPsw?
      modifies this, memory, registers, registers.registers, alu
      ensures Valid()
      ensures Transition(outcome, Abstract()) == Step(old(Abstract()), i)
    {
      outcome := Ok;
      match i {
        case PushPsw => PushStatus();
        case PopPsw => PopStatus();
      }
    }

    /** DAD. */
    method ExecuteAddPair(i: Instr) returns (outcome: Outcome)
      requires Valid()
      requires i.Dad?
      modifies this, registers, registers.registers, alu
      ensures Valid()
      ensures Transition(outcome, Abstract()) == Step(old(Abstract()), i)
    {
      outcome := Ok;
      AddPairToHL(i.rp);
    }

    /** XCHG. */
    method ExecuteExchange(i: Instr) returns (outcome: Outcome)
      requires Valid()
      requires i.Xchg?
      modifies this, registers, registers.registers
      ensures Valid()
      ensures Transition(outcome, Abstract()) == Step(old(Abstract()), i)
    {
      outcome := Ok;
      ExchangeDEWithHL();
    }

    /** PUSH. */
    method ExecutePush(i: Instr) returns (outcome: Outcome)
      requires Valid()
      requires i.Push?
      modifies this, memory, registers, registers.registers
      ensures Valid()
      ensures Transition(outcome, Abstract()) == Step(old(Abstract()), i)
    {
      outcome := Ok;
      PushPair(i.rp);
    }

    /** POP. */
    method ExecutePop(i: Instr) returns (outcome: Outcome)
      requires Valid()
      requires i.Pop?
      modifies this, registers, registers.registers
      ensures Valid()
      ensures Transition(outcome, Abstract()) == Step(old(Abstract()), i)
    {
      outcome := Ok;
      PopPair(i.rp);
    }

    /** The eight accumulator operations. */
    method ExecuteArithmetic(i: Instr) returns (outcome: Outcome)
      requires Valid()
      requires i.Arith?
      modifies this, registers.registers, alu
      ensures Valid()
      ensures Transition(outcome, Abstract()) == Step(old(Abstract()), i)
    {
      outcome := AccumulatorOperation(i.op, i.operand);
    }

    /** The data-moving and arithmetic families. */
    method ExecuteData(i: Instr) returns (outcome: Outcome)
      requires Valid()
      requires IsDataInstruction(i)
      modifies this, memory, registers, registers.registers, alu
      ensures Valid()
      ensures Transition(outcome, Abstract()) == Step(old(Abstract()), i)
    {
      if i.MviM? || i.Lda? || i.Sta? || i.Lhld? || i.Shld? || i.InrM? || i.DcrM? {
        outcome := ExecuteMemoryAccess(i);
      } else if i.Daa? || i.Cma? || i.Cmc? || i.Stc? || i.Nop? {
        outcome := ExecuteAccumulatorMisc(i);
      } else if i.Rlc? || i.Rrc? || i.Ral? || i.Rar? {
        outcome := ExecuteRotate(i);
      } else if i.Lxi? || i.Ldax? || i.Stax? || i.Inx? || i.Dcx? {
        outcome := ExecutePairTransfer(i);
      } else if i.Dad? {
        outcome := ExecuteAddPair(i);
      } else if i.Mvi? || i.Inr? || i.Dcr? || i.Hlt? {
        outcome := ExecuteRegisterUpdate(i);
      } else if i.MovFromMemory? || i.MovToMemory? || i.Mov? {
        outcome := ExecuteMove(i);
      } else {
        outcome := ExecuteArithmetic(i);
      }
    }

    /** The branch and stack families, the stopping instructions and an
        opcode no case matches. */
    method ExecuteControl(i: Instr) returns (outcome: Outcome)
      requires Valid()
      requires !IsDataInstruction(i)
      requires i.Jcc? || i.Ccc? || i.Rcc? ==> i.cond == ConditionField(currentOpcode)
      modifies this, memory, registers, registers.registers, alu
      ensures Valid()
      ensures Transition(outcome, Abstract()) == Step(old(Abstract()), i)
    {
      if i.Jmp? || i.Pchl? {
        outcome := ExecuteJump(i);
      } else if i.Jcc? {
        outcome := ExecuteConditionalJump(i);
      } else if i.Call? || i.Ccc? {
        outcome := ExecuteCall(i);
      } else if i.Ret? || i.Rcc? {
        outcome := ExecuteReturn(i);
      } else if i.Rst? {
        outcome := ExecuteRestart(i);
      } else if i.Xchg? {
        outcome := ExecuteExchange(i);
      } else if i.Xthl? || i.Sphl? {
        outcome := ExecuteStackPointer(i);
      } else if i.PushPsw? || i.PopPsw? {
        outcome := ExecuteStatus(i);
      } else if i.Push? {
        outcome := ExecutePush(i);
      } else if i.Pop? {
        outcome := ExecutePop(i);
      } else if i.Unmatched? {
        outcome := Unrecognised;
      } else {
        outcome := Fatal;
      }
    }

    /** decodeAndExecute's switch: IN, OUT, EI and DI stop the machine and
        an opcode no case matches is reported. */
    method ExecuteInstruction(i: Instr) returns (outcome: Outcome)
      requires Valid()
      requires i.Jcc? || i.Ccc? || i.Rcc? ==> i.cond == ConditionField(currentOpcode)
      modifies this, memory, registers, registers.registers, alu
      ensures Valid()
      ensures Transition(outcome, Abstract()) == Step(old(Abstract()), i)
    {
      if IsDataInstruction(i) {
        outcome := ExecuteData(i);
      } else {
        outcome := ExecuteControl(i);
      }
    }

    /** decodeAndExecute: the instruction the current opcode encodes. */
    method DecodeAndExecute() returns (outcome: Outcome)
      requires Valid()
      modifies this, memory, registers, registers.registers, alu
      ensures Valid()
      ensures Transition(outcome, Abstract()) == Execute(old(Abstract()))
    {
      Decoding.DecodedCondition(currentOpcode);
      outcome := ExecuteInstruction(Decode(currentOpcode));
    }

    /** runCycle: nothing while halted, otherwise fetch and then decode and
        execute. */
    method RunCycle() returns (outcome: Outcome)
      requires Valid()
      modifies this, memory, registers, registers.registers, alu
      ensures Valid()
      ensures Transition(outcome, Abstract()) == Cpu.RunCycle(old(Abstract()))
    {
      if haltFlag {
        return Ok;
      }
      Fetch();
      outcome := DecodeAndExecute();
    }
  }
}
