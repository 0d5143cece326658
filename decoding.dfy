/** The decoder against the 8080's own opcode table: decoding the
    manual's encoding of an instruction gives that instruction back, and
    every opcode the decoder recognises is the manual's encoding of what
    it decodes to. Consequences: the full-byte cases shadow the masked ones
    so that LDAX/STAX only ever see BC or DE, PUSH/POP never see SP, and a
    register field of 110 reaches the register decoders only through HLT. */
module Decoding {
  import opened Registers
  import opened Instructions

  lemma FirstRegisterField(base: bv8, r: Reg)
    requires r != W && r != Z && base & 0x38 == 0
    ensures FirstRegister(base | (FieldOfReg(r) << 3)) == Some(r)
  {
    match r
    case B => case C => case D => case E => case H => case L => case A =>
  }

  lemma SecondRegisterField(base: bv8, r: Reg)
    requires r != W && r != Z && base & 0x07 == 0
    ensures SecondRegister(base | FieldOfReg(r)) == Some(r)
  {
    match r
    case B => case C => case D => case E => case H => case L => case A =>
  }

  lemma PairFieldOf(base: bv8, p: Pair)
    requires base & 0x30 == 0
    ensures PairField(base | (FieldOfPair(p) << 4)) == p
  {
    match p
    case BC => case DE => case HL => case SP =>
  }

  lemma ConditionFieldOf(base: bv8, c: Condition)
    requires base & 0x38 == 0
    ensures ConditionField(base | (ConditionCode(c) << 3)) == c
  {
    match c
    case IfNotZero => case IfZero => case IfNoCarry => case IfCarry =>
    case IfParityOdd => case IfParityEven => case IfPlus => case IfMinus =>
  }

  lemma DecodesLxi(rp: Pair)
    ensures Decode(Encode(Lxi(rp))) == Lxi(rp)
  {
    PairFieldOf(0x01, rp);
  }

  lemma DecodesLdax(rp: Pair)
    requires rp == BC || rp == DE
    ensures Decode(Encode(Ldax(rp))) == Ldax(rp)
  {
    PairFieldOf(0x0A, rp);
  }

  lemma DecodesStax(rp: Pair)
    requires rp == BC || rp == DE
    ensures Decode(Encode(Stax(rp))) == Stax(rp)
  {
    PairFieldOf(0x02, rp);
  }

  lemma DecodesInx(rp: Pair)
    ensures Decode(Encode(Inx(rp))) == Inx(rp)
  {
    var op := Encode(Inx(rp));
    PairFieldOf(0x03, rp);
    assert op & 0xCF == 0x03;
    DecodesInxMasked(op);
  }

  lemma DecodesInxMasked(op: bv8)
    requires op & 0xCF == 0x03
    ensures Decode(op) == Inx(PairField(op))
  {
  }

  lemma DecodesDcx(rp: Pair)
    ensures Decode(Encode(Dcx(rp))) == Dcx(rp)
  {
    var op := Encode(Dcx(rp));
    PairFieldOf(0x0B, rp);
    assert op & 0xCF == 0x0B;
    DecodesDcxMasked(op);
  }

  lemma DecodesDcxMasked(op: bv8)
    requires op & 0xCF == 0x0B
    ensures Decode(op) == Dcx(PairField(op))
  {
  }

  lemma DecodesDad(rp: Pair)
    ensures Decode(Encode(Dad(rp))) == Dad(rp)
  {
    PairFieldOf(0x09, rp);
  }

  lemma DecodesPush(rp: Pair)
    requires rp != SP
    ensures Decode(Encode(Push(rp))) == Push(rp)
  {
    var op := Encode(Push(rp));
    PairFieldOf(0xC5, rp);
    assert op & 0xCF == 0xC5 && op != 0xF5;
    DecodesPushMasked(op);
  }

  lemma DecodesPushMasked(op: bv8)
    requires op & 0xCF == 0xC5 && op != 0xF5
    ensures Decode(op) == Push(PairField(op))
  {
  }

  lemma DecodesPop(rp: Pair)
    requires rp != SP
    ensures Decode(Encode(Pop(rp))) == Pop(rp)
  {
    var op := Encode(Pop(rp));
    PairFieldOf(0xC1, rp);
    assert op & 0xCF == 0xC1 && op != 0xF1;
    DecodesPopMasked(op);
  }

  lemma DecodesPopMasked(op: bv8)
    requires op & 0xCF == 0xC1 && op != 0xF1
    ensures Decode(op) == Pop(PairField(op))
  {
  }

  lemma DecodesMvi(r: Option<Reg>)
    requires Named(r)
    ensures Decode(Encode(Mvi(r))) == Mvi(r)
  {
    var op := Encode(Mvi(r));
    FirstRegisterField(0x06, r.value);
    assert op & 0xC7 == 0x06 && op != 0x36;
    DecodesMviMasked(op);
  }

  lemma DecodesMviMasked(op: bv8)
    requires op & 0xC7 == 0x06 && op != 0x36
    ensures Decode(op) == Mvi(FirstRegister(op))
  {
  }

  lemma DecodesInr(r: Option<Reg>)
    requires Named(r)
    ensures Decode(Encode(Inr(r))) == Inr(r)
  {
    var op := Encode(Inr(r));
    FirstRegisterField(0x04, r.value);
    assert op & 0xC7 == 0x04 && op != 0x34;
    DecodesInrMasked(op);
  }

  lemma DecodesInrMasked(op: bv8)
    requires op & 0xC7 == 0x04 && op != 0x34
    ensures Decode(op) == Inr(FirstRegister(op))
  {
  }

  lemma DecodesDcr(r: Option<Reg>)
    requires Named(r)
    ensures Decode(Encode(Dcr(r))) == Dcr(r)
  {
    var op := Encode(Dcr(r));
    FirstRegisterField(0x05, r.value);
    assert op & 0xC7 == 0x05 && op != 0x35;
    DecodesDcrMasked(op);
  }

  lemma DecodesDcrMasked(op: bv8)
    requires op & 0xC7 == 0x05 && op != 0x35
    ensures Decode(op) == Dcr(FirstRegister(op))
  {
  }

  lemma DecodesMovFromMemory(r: Option<Reg>)
    requires Named(r)
    ensures Decode(Encode(MovFromMemory(r))) == MovFromMemory(r)
  {
    var op := Encode(MovFromMemory(r));
    FirstRegisterField(0x46, r.value);
    assert op & 0xC7 == 0x46 && op != 0x76;
    DecodesMovFromMemoryMasked(op);
  }

  lemma DecodesMovFromMemoryMasked(op: bv8)
    requires op & 0xC7 == 0x46 && op != 0x76
    ensures Decode(op) == MovFromMemory(FirstRegister(op))
  {
  }

  lemma DecodesMovToMemory(r: Option<Reg>)
    requires Named(r)
    ensures Decode(Encode(MovToMemory(r))) == MovToMemory(r)
  {
    var op := Encode(MovToMemory(r));
    SecondRegisterField(0x70, r.value);
    assert op & 0xF8 == 0x70 && op != 0x76;
    DecodesMovToMemoryMasked(op);
  }

  lemma DecodesMovToMemoryMasked(op: bv8)
    requires op & 0xF8 == 0x70 && op != 0x76
    ensures Decode(op) == MovToMemory(SecondRegister(op))
  {
  }

  lemma DecodesMov(dst: Option<Reg>, src: Option<Reg>)
    requires Named(dst) && Named(src)
    ensures Decode(Encode(Mov(dst, src))) == Mov(dst, src)
  {
    var op := Encode(Mov(dst, src));
    FirstRegisterField(0x40 | FieldOfReg(src.value), dst.value);
    SecondRegisterField(0x40 | (FieldOfReg(dst.value) << 3), src.value);
    assert op & 0xC0 == 0x40 && op & 0x38 != 0x30 && op & 0x07 != 0x06;
    DecodesMovMasked(op);
  }

  lemma DecodesMovMasked(op: bv8)
    requires op & 0xC0 == 0x40 && op & 0x38 != 0x30 && op & 0x07 != 0x06
    ensures Decode(op) == Mov(FirstRegister(op), SecondRegister(op))
  {
  }

  /** The accumulator operation an opcode's bits 5..3 select. */
  function AluOpOf(field: bv8): (op: AluOp)
    requires field <= 7
    ensures AluField(op) == field
  {
    if field == 0 then Add
    else if field == 1 then Adc
    else if field == 2 then Sub
    else if field == 3 then Sbb
    else if field == 4 then Ana
    else if field == 5 then Xra
    else if field == 6 then Ora
    else Cmp
  }

  lemma AluOpOfField(op: AluOp)
    ensures AluOpOf(AluField(op)) == op
  {
  }

  lemma DecodesArith(op: AluOp, operand: Operand)
    requires WellFormed(Arith(op, operand))
    ensures Decode(Encode(Arith(op, operand))) == Arith(op, operand)
  {
    var o := Encode(Arith(op, operand));
    AluOpOfField(op);
    match operand
    case FromMemory =>
      assert o & 0xC7 == 0x86 && (o >> 3) & 7 == AluField(op);
      DecodesArithMemoryMasked(o);
    case FromRegister(src) =>
      SecondRegisterField(0x80 | (AluField(op) << 3), src.value);
      assert o & 0xC0 == 0x80 && o & 7 != 6 && (o >> 3) & 7 == AluField(op);
      DecodesArithRegisterMasked(o);
    case FromImmediate =>
      assert o & 0xC7 == 0xC6 && (o >> 3) & 7 == AluField(op);
      DecodesArithImmediateMasked(o);
  }

  lemma DecodesArithMemoryMasked(o: bv8)
    requires o & 0xC7 == 0x86
    ensures Decode(o) == Arith(AluOpOf((o >> 3) & 7), FromMemory)
  {
  }

  lemma DecodesArithRegisterMasked(o: bv8)
    requires o & 0xC0 == 0x80 && o & 7 != 6
    ensures Decode(o) == Arith(AluOpOf((o >> 3) & 7), FromRegister(SecondRegister(o)))
  {
  }

  lemma DecodesArithImmediateMasked(o: bv8)
    requires o & 0xC7 == 0xC6
    ensures Decode(o) == Arith(AluOpOf((o >> 3) & 7), FromImmediate)
  {
  }

  lemma DecodesJcc(c: Condition)
    ensures Decode(Encode(Jcc(c))) == Jcc(c)
  {
    var op := Encode(Jcc(c));
    ConditionFieldOf(0xC2, c);
    assert op & 0xC7 == 0xC2;
    DecodesJccMasked(op);
  }

  lemma DecodesJccMasked(op: bv8)
    requires op & 0xC7 == 0xC2
    ensures Decode(op) == Jcc(ConditionField(op))
  {
  }

  lemma DecodesCcc(c: Condition)
    ensures Decode(Encode(Ccc(c))) == Ccc(c)
  {
    var op := Encode(Ccc(c));
    ConditionFieldOf(0xC4, c);
    assert op & 0xC7 == 0xC4;
    DecodesCccMasked(op);
  }

  lemma DecodesCccMasked(op: bv8)
    requires op & 0xC7 == 0xC4
    ensures Decode(op) == Ccc(ConditionField(op))
  {
  }

  lemma DecodesRcc(c: Condition)
    ensures Decode(Encode(Rcc(c))) == Rcc(c)
  {
    var op := Encode(Rcc(c));
    ConditionFieldOf(0xC0, c);
    assert op & 0xC7 == 0xC0;
    DecodesRccMasked(op);
  }

  lemma DecodesRccMasked(op: bv8)
    requires op & 0xC7 == 0xC0
    ensures Decode(op) == Rcc(ConditionField(op))
  {
  }

  lemma DecodesFixedLoadsAndStores(i: Instr)
    requires i.MviM? || i.Lda? || i.Sta? || i.Lhld? || i.Shld? || i.InrM? || i.DcrM? || i.Daa?
    ensures Decode(Encode(i)) == i
  {
    match i
    case MviM =>
    case Lda =>
    case Sta =>
    case Lhld =>
    case Shld =>
    case InrM =>
    case DcrM =>
    case Daa =>
  }

  lemma DecodesFixedAccumulatorOps(i: Instr)
    requires i.Rlc? || i.Rrc? || i.Ral? || i.Rar? || i.Cma? || i.Cmc? || i.Stc? || i.Nop?
    ensures Decode(Encode(i)) == i
  {
    match i
    case Rlc =>
    case Rrc =>
    case Ral =>
    case Rar =>
    case Cma =>
    case Cmc =>
    case Stc =>
    case Nop =>
  }

  lemma DecodesFixedControl(i: Instr)
    requires i.Xchg? || i.Jmp? || i.Call? || i.Ret?
    ensures Decode(Encode(i)) == i
  {
    match i
    case Xchg =>
    case Jmp =>
    case Call =>
    case Ret =>
  }

  lemma DecodesFixedStatus(i: Instr)
    requires i.Pchl? || i.PushPsw? || i.PopPsw?
    ensures Decode(Encode(i)) == i
  {
    match i
    case Pchl =>
    case PushPsw =>
    case PopPsw =>
  }

  lemma DecodesFixedStack(i: Instr)
    requires i.Xthl? || i.Sphl?
    ensures Decode(Encode(i)) == i
  {
    match i
    case Xthl =>
    case Sphl =>
  }

  lemma DecodesFixedPorts(i: Instr)
    requires i.In? || i.Out?
    ensures Decode(Encode(i)) == i
  {
    match i
    case In =>
    case Out =>
  }

  lemma DecodesFixedInterrupts(i: Instr)
    requires i.Ei? || i.Di?
    ensures Decode(Encode(i)) == i
  {
    match i
    case Ei =>
    case Di =>
  }

  lemma DecodesHlt(dst: Option<Reg>)
    requires dst.None?
    ensures Decode(Encode(Hlt(dst))) == Hlt(dst)
  {
  }

  lemma DecodesRst(n: bv8)
    requires n <= 7
    ensures Decode(Encode(Rst(n))) == Rst(n)
  {
  }

  /** Decoding the 8080 manual's encoding of a well-formed instruction gives it back. */
  lemma DecodeEncode(i: Instr)
    requires WellFormed(i)
    ensures Decode(Encode(i)) == i
  {
    match i
    case Lxi(rp) => DecodesLxi(rp);
    case Ldax(rp) => DecodesLdax(rp);
    case Stax(rp) => DecodesStax(rp);
    case Inx(rp) => DecodesInx(rp);
    case Dcx(rp) => DecodesDcx(rp);
    case Dad(rp) => DecodesDad(rp);
    case Push(rp) => DecodesPush(rp);
    case Pop(rp) => DecodesPop(rp);
    case Mvi(dst) => DecodesMvi(dst);
    case Inr(dst) => DecodesInr(dst);
    case Dcr(dst) => DecodesDcr(dst);
    case MovFromMemory(dst) => DecodesMovFromMemory(dst);
    case MovToMemory(src) => DecodesMovToMemory(src);
    case Mov(dst, src) => DecodesMov(dst, src);
    case Arith(op, operand) => DecodesArith(op, operand);
    case Jcc(c) => DecodesJcc(c);
    case Ccc(c) => DecodesCcc(c);
    case Rcc(c) => DecodesRcc(c);
    case Hlt(dst) => DecodesHlt(dst);
    case Rst(n) => DecodesRst(n);
    case _ => DecodesFixed(i);
  }

  lemma DecodesFixed(i: Instr)
    requires i.MviM? || i.Lda? || i.Sta? || i.Lhld? || i.Shld? || i.InrM? || i.DcrM? || i.Daa?
          || i.Rlc? || i.Rrc? || i.Ral? || i.Rar? || i.Cma? || i.Cmc? || i.Stc? || i.Nop?
          || i.Xchg? || i.Jmp? || i.Call? || i.Ret? || i.Pchl? || i.PushPsw? || i.PopPsw?
          || i.Xthl? || i.Sphl? || i.In? || i.Out? || i.Ei? || i.Di?
    ensures Decode(Encode(i)) == i
  {
    if i.MviM? || i.Lda? || i.Sta? || i.Lhld? || i.Shld? || i.InrM? || i.DcrM? || i.Daa? {
      DecodesFixedLoadsAndStores(i);
    } else if i.Rlc? || i.Rrc? || i.Ral? || i.Rar? || i.Cma? || i.Cmc? || i.Stc? || i.Nop? {
      DecodesFixedAccumulatorOps(i);
    } else if i.Xchg? || i.Jmp? || i.Call? || i.Ret? {
      DecodesFixedControl(i);
    } else if i.Pchl? || i.PushPsw? || i.PopPsw? {
      DecodesFixedStatus(i);
    } else if i.Xthl? || i.Sphl? {
      DecodesFixedStack(i);
    } else if i.In? || i.Out? {
      DecodesFixedPorts(i);
    } else {
      DecodesFixedInterrupts(i);
    }
  }

  lemma Quadrant00Column0Table(op: bv8)
    requires op & 0xC7 == 0x00 && !Decode(op).Unmatched?
    ensures WellFormed(Decode(op)) && Encode(Decode(op)) == op
  {
  }

  lemma Quadrant00Column1Table(op: bv8)
    requires op & 0xC7 == 0x01 && !Decode(op).Unmatched?
    ensures WellFormed(Decode(op)) && Encode(Decode(op)) == op
  {
  }

  lemma Quadrant00Column2Table(op: bv8)
    requires op & 0xC7 == 0x02 && !Decode(op).Unmatched?
    ensures WellFormed(Decode(op)) && Encode(Decode(op)) == op
  {
  }

  lemma Quadrant00Column3Table(op: bv8)
    requires op & 0xC7 == 0x03 && !Decode(op).Unmatched?
    ensures WellFormed(Decode(op)) && Encode(Decode(op)) == op
  {
    var rp := (op & 0x30) >> 4;
    PairDecoderMatchesEncoding(rp, BC);
    if op & 0x08 == 0 {
      DecodesInxMasked(op);
      assert op == 0x03 | (rp << 4);
    } else {
      DecodesDcxMasked(op);
      assert op == 0x0B | (rp << 4);
    }
  }

  lemma Quadrant00Column4Table(op: bv8)
    requires op & 0xC7 == 0x04 && !Decode(op).Unmatched?
    ensures WellFormed(Decode(op)) && Encode(Decode(op)) == op
  {
    if op != 0x34 {
      var dst := (op & 0x38) >> 3;
      RegDecoderMatchesEncoding(dst);
      DecodesInrMasked(op);
      assert op == 0x04 | (dst << 3);
    }
  }

  lemma Quadrant00Column5Table(op: bv8)
    requires op & 0xC7 == 0x05 && !Decode(op).Unmatched?
    ensures WellFormed(Decode(op)) && Encode(Decode(op)) == op
  {
    if op != 0x35 {
      var dst := (op & 0x38) >> 3;
      RegDecoderMatchesEncoding(dst);
      DecodesDcrMasked(op);
      assert op == 0x05 | (dst << 3);
    }
  }

  lemma Quadrant00Column6Table(op: bv8)
    requires op & 0xC7 == 0x06 && !Decode(op).Unmatched?
    ensures WellFormed(Decode(op)) && Encode(Decode(op)) == op
  {
    if op != 0x36 {
      var dst := (op & 0x38) >> 3;
      RegDecoderMatchesEncoding(dst);
      DecodesMviMasked(op);
      assert op == 0x06 | (dst << 3);
    }
  }

  lemma Quadrant00Column7Table(op: bv8)
    requires op & 0xC7 == 0x07 && !Decode(op).Unmatched?
    ensures WellFormed(Decode(op)) && Encode(Decode(op)) == op
  {
  }

  lemma Quadrant01Table(op: bv8)
    requires op & 0xC0 == 0x40
    ensures WellFormed(Decode(op)) && Encode(Decode(op)) == op
  {
    if op & 0x38 == 0x30 || op & 0x07 == 0x06 {
      Quadrant01MemoryTable(op);
    } else {
      var dst := (op & 0x38) >> 3;
      var src := op & 7;
      RegDecoderMatchesEncoding(dst);
      RegDecoderMatchesEncoding(src);
      DecodesMovMasked(op);
      assert op == 0x40 | (dst << 3) | src;
    }
  }

  lemma Quadrant01MemoryTable(op: bv8)
    requires op & 0xC0 == 0x40 && (op & 0x38 == 0x30 || op & 0x07 == 0x06)
    ensures WellFormed(Decode(op)) && Encode(Decode(op)) == op
  {
    var dst := (op & 0x38) >> 3;
    var src := op & 7;
    if op == 0x76 {
      assert Decode(op) == Hlt(None);
    } else if src == 6 {
      RegDecoderMatchesEncoding(dst);
      DecodesMovFromMemoryMasked(op);
      assert op == 0x46 | (dst << 3);
    } else {
      RegDecoderMatchesEncoding(src);
      DecodesMovToMemoryMasked(op);
      assert op == 0x70 | src;
    }
  }

  lemma Quadrant10Table(op: bv8)
    requires op & 0xC0 == 0x80
    ensures WellFormed(Decode(op)) && Encode(Decode(op)) == op
  {
    var field := (op >> 3) & 7;
    if op & 7 == 6 {
      DecodesArithMemoryMasked(op);
      assert op == 0x86 | (field << 3);
    } else {
      DecodesArithRegisterMasked(op);
      RegDecoderMatchesEncoding(op);
      assert op == 0x80 | (op & 7) | (field << 3);
    }
  }

  lemma Quadrant11Column0Table(op: bv8)
    requires op & 0xC7 == 0xC0 && !Decode(op).Unmatched?
    ensures WellFormed(Decode(op)) && Encode(Decode(op)) == op
  {
  }

  lemma Quadrant11Column1Table(op: bv8)
    requires op & 0xC7 == 0xC1 && !Decode(op).Unmatched?
    ensures WellFormed(Decode(op)) && Encode(Decode(op)) == op
  {
    if op & 0x08 == 0 && op != 0xF1 {
      var rp := (op & 0x30) >> 4;
      PairDecoderMatchesEncoding(rp, BC);
      DecodesPopMasked(op);
      assert op == 0xC1 | (rp << 4);
    }
  }

  lemma Quadrant11Column2Table(op: bv8)
    requires op & 0xC7 == 0xC2 && !Decode(op).Unmatched?
    ensures WellFormed(Decode(op)) && Encode(Decode(op)) == op
  {
  }

  lemma Quadrant11Column3Table(op: bv8)
    requires op & 0xC7 == 0xC3 && !Decode(op).Unmatched?
    ensures WellFormed(Decode(op)) && Encode(Decode(op)) == op
  {
    if op & 0x20 == 0 {
      Quadrant11Column3LowTable(op);
    } else {
      Quadrant11Column3HighTable(op);
    }
  }

  lemma Quadrant11Column3LowTable(op: bv8)
    requires op & 0xE7 == 0xC3 && !Decode(op).Unmatched?
    ensures WellFormed(Decode(op)) && Encode(Decode(op)) == op
  {
    if op == 0xC3 {
      assert Decode(op) == Jmp;
    } else if op == 0xD3 {
      assert Decode(op) == Out;
    } else {
      assert op == 0xDB by { assert Decode(0xCB).Unmatched?; }
      assert Decode(op) == In;
    }
  }

  lemma Quadrant11Column3HighTable(op: bv8)
    requires op & 0xE7 == 0xE3
    ensures WellFormed(Decode(op)) && Encode(Decode(op)) == op
  {
  }

  lemma Quadrant11Column4Table(op: bv8)
    requires op & 0xC7 == 0xC4 && !Decode(op).Unmatched?
    ensures WellFormed(Decode(op)) && Encode(Decode(op)) == op
  {
  }

  lemma Quadrant11Column5Table(op: bv8)
    requires op & 0xC7 == 0xC5 && !Decode(op).Unmatched?
    ensures WellFormed(Decode(op)) && Encode(Decode(op)) == op
  {
  }

  lemma Quadrant11Column6Table(op: bv8)
    requires op & 0xC7 == 0xC6 && !Decode(op).Unmatched?
    ensures WellFormed(Decode(op)) && Encode(Decode(op)) == op
  {
  }

  lemma Quadrant11Column7Table(op: bv8)
    requires op & 0xC7 == 0xC7 && !Decode(op).Unmatched?
    ensures WellFormed(Decode(op)) && Encode(Decode(op)) == op
  {
  }

  /** Every opcode the decoder recognises is the 8080 manual's encoding of
      the well-formed instruction it decodes to. */
  lemma EncodeDecode(op: bv8)
    requires !Decode(op).Unmatched?
    ensures WellFormed(Decode(op)) && Encode(Decode(op)) == op
  {
    var quadrant := op & 0xC0;
    if quadrant == 0x00 {
      var column := op & 0x7;
      if column == 0 {
        Quadrant00Column0Table(op);
      } else if column == 1 {
        Quadrant00Column1Table(op);
      } else if column == 2 {
        Quadrant00Column2Table(op);
      } else if column == 3 {
        Quadrant00Column3Table(op);
      } else if column == 4 {
        Quadrant00Column4Table(op);
      } else if column == 5 {
        Quadrant00Column5Table(op);
      } else if column == 6 {
        Quadrant00Column6Table(op);
      } else {
        Quadrant00Column7Table(op);
      }
    } else if quadrant == 0x40 {
      Quadrant01Table(op);
    } else if quadrant == 0x80 {
      Quadrant10Table(op);
    } else {
      var column := op & 0x7;
      if column == 0 {
        Quadrant11Column0Table(op);
      } else if column == 1 {
        Quadrant11Column1Table(op);
      } else if column == 2 {
        Quadrant11Column2Table(op);
      } else if column == 3 {
        Quadrant11Column3Table(op);
      } else if column == 4 {
        Quadrant11Column4Table(op);
      } else if column == 5 {
        Quadrant11Column5Table(op);
      } else if column == 6 {
        Quadrant11Column6Table(op);
      } else {
        Quadrant11Column7Table(op);
      }
    }
  }

  /** Whatever the decoder recognises is a well-formed instruction. */
  lemma DecodedWellFormed(op: bv8)
    requires !Decode(op).Unmatched?
    ensures WellFormed(Decode(op))
  {
    EncodeDecode(op);
  }

  /** A conditional instruction carries the condition field of its own
      opcode, the field checkCurrentCondition reads. */
  lemma DecodedCondition(op: bv8)
    ensures Decode(op).Jcc? || Decode(op).Ccc? || Decode(op).Rcc? ==> Decode(op).cond == ConditionField(op)
  {
    if op & 0xC7 == 0xC2 {
      DecodesJccMasked(op);
    } else if op & 0xC7 == 0xC4 {
      DecodesCccMasked(op);
    } else if op & 0xC7 == 0xC0 {
      DecodesRccMasked(op);
    } else if op & 0xC0 == 0xC0 {
      UnconditionalInQuadrant11(op);
    } else {
      UnconditionalOutsideQuadrant11(op);
    }
  }

  lemma UnconditionalInQuadrant11(op: bv8)
    requires op & 0xC0 == 0xC0 && op & 0xC7 != 0xC2 && op & 0xC7 != 0xC4 && op & 0xC7 != 0xC0
    ensures !Decode(op).Jcc? && !Decode(op).Ccc? && !Decode(op).Rcc?
  {
  }

  lemma UnconditionalOutsideQuadrant11(op: bv8)
    requires op & 0xC0 != 0xC0
    ensures !Decode(op).Jcc? && !Decode(op).Ccc? && !Decode(op).Rcc?
  {
  }

  /** The opcodes no case of decodeAndExecute matches. */
  lemma UnrecognisedOpcodes(op: bv8)
    ensures Decode(op).Unmatched? <==> op in {0x08, 0x10, 0x18, 0x20, 0x28, 0x30, 0x38, 0xCB, 0xD9, 0xDD, 0xED, 0xFD}
  {
  }
}
