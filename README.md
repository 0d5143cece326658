# Intel 8080 emulator core, modelled in Dafny

This project models the processor core of a C++ Intel 8080 emulator that runs
Space Invaders. It has four parts.

- **Flag ALU** (`Alu`, `AluFacts`). `operateAndSetFlags` does addition,
  subtraction and borrow modulo 2^W, with W = 8, or 16 for DAD. It takes an
  optional carry-in and a set of flags to leave untouched, and then sets
  AuxCarry, Zero, Sign and Parity from the result. The 8080 manual supplies
  the logical operations and rotations the callers ask for but the header
  does not define. `operateAndSetCarryFlag` is the carry-only variant.
  `setFlagsBasedOnValue` sets Zero, Sign and Parity. The processor status
  word uses the manual's `S Z 0 AC 0 P 1 CY` layout.
- **Register file** (`Registers`). It holds nine byte cells, B C D E H L W Z A,
  and a separate 16-bit stack pointer. BC, DE and HL are read and written
  with the first register as the high byte. Two decoders map opcode bit
  fields to registers and to pairs.
- **CPU step**:
  - `Instructions` and `Decoding` model the nested mask switches of
    `decodeAndExecute`, including the full-byte cases that shadow masked
    ones. They check the decoder against the 8080 opcode table in both
    directions.
  - `Cpu` gives the processor as a value: 64 KiB of memory, registers,
    flags, PC, current opcode and halt flag. `Step` states what each
    instruction does. A cycle ends `Ok`, `Fatal` (the C++ reaches an
    `assert(false)`) or `Unrecognised` (no case matches).
  - `Emulator.Intel8080` is the emulator class. Its fields are updated in
    place, and each method is proved to move the abstract state as the
    matching `Cpu` function does.
  - `CpuFacts` proves the round trips and flag footprints of the
    instructions.
- **Space Invaders ports** (`SpaceInvadersPorts`). This is the cabinet's
  16-bit shift register, loaded through output port 4. Port 2 selects a
  3-bit read offset, and the window is read back on input port 3.

The C++ computes addresses such as `pc + 1`, `sp + 1` and a direct
address `+ 1` in `int`, so at 0xFFFF they index past the array; the model
takes them modulo 2^16. Both the register and the memory are 16
bits wide. Memory has 65536 cells because it is indexed by 16-bit values.

## Model

| member | source | states |
|---|---|---|
| Alu.Flags.Set | Intel_8080_Emulator/ALU.cpp:15-23 | setting one flag gives that flag the new value and leaves the other four |
| Alu.Alu.SetFlag | Intel_8080_Emulator/ALU.cpp:15-18 | the flag register becomes the old one with that single flag replaced |
| Alu.ValueAndCarry | Intel_8080_Emulator/ALU.hpp:63-94 | the value stays in the width; only Carry may change, and not when Carry is excluded or for AND/OR/XOR |
| Alu.AddAndCarry | Intel_8080_Emulator/ALU.hpp:63-72 | the sum stays in the width; Carry is the only flag it can change, and not when excluded |
| Alu.SubtractAndBorrow | Intel_8080_Emulator/ALU.hpp:76-93 | the difference stays in the width; Carry is the only flag it can change, and not when excluded |
| Alu.RotateLeftAndCarry | Intel_8080_Emulator/Intel_8080_Emulator.cpp:176-213 | a left rotation (RLC, RAL) stays in the width and changes at most Carry |
| Alu.RotateRightAndCarry | Intel_8080_Emulator/Intel_8080_Emulator.cpp:189-226 | a right rotation (RRC, RAR) stays in the width and changes at most Carry |
| Alu.ResultFlags | Intel_8080_Emulator/ALU.hpp:96-125 | each flag not excluded is set from the result (AuxCarry from bit 4 of result^first^second, Zero iff zero, Sign from the top bit, Parity iff even popcount); each excluded flag and Carry keep their values |
| Alu.Operate | Intel_8080_Emulator/ALU.hpp:58-128 | the result fits the width, excluded flags keep their values, Zero/Sign/Parity/AuxCarry describe the result, logical operations keep Carry |
| Alu.Alu.OperateAndSetFlags | Intel_8080_Emulator/ALU.hpp:58-128 | the step-by-step flag updates give exactly the value and flags of `Operate` |
| Alu.Alu.ComputeValueAndCarry | Intel_8080_Emulator/ALU.hpp:61-94 | the carry and value phase, with Carry read after it is overwritten, gives exactly `ValueAndCarry` |
| Alu.FlagsFromValue | Intel_8080_Emulator/ALU.cpp:25-38 | Zero iff the value is 0, Sign is its top bit, Parity iff its popcount is even; Carry and AuxCarry unchanged |
| Alu.Alu.SetFlagsBasedOnValue | Intel_8080_Emulator/ALU.cpp:25-38 | the flag register becomes `FlagsFromValue` of the old flags |
| Alu.CarryOnly | Intel_8080_Emulator/ALU.cpp:40-52 | addition: Carry iff first+second exceeds the width's maximum and the value is the sum modulo 2^W; subtraction: Carry iff second > first and the value is the difference modulo 2^W; no other flag changes |
| Alu.Alu.OperateAndSetCarryFlag | Intel_8080_Emulator/ALU.cpp:40-52 | returns the value and leaves the flags of `CarryOnly` |
| Alu.Alu.constructor | Intel_8080_Emulator/ALU.cpp:10-13 | after construction and the self-test every flag is clear |
| Alu.Alu.CheckCarryCheck | Intel_8080_Emulator/ALU.cpp:63-74 | the self-test leaves the flags as they were except Carry, which ends false |
| AluFacts.CarrySelfTest | Intel_8080_Emulator/ALU.cpp:63-71 | 0xFF + 0xFF on 8 bits sets Carry and gives 0xFE, so the self-test's assert holds |
| Alu.Alu.SetFromStatusByte | Intel_8080_Emulator/Intel_8080_Emulator.cpp:875-886 | the flags become those the PSW byte encodes |
| Alu.Alu.CreateStatusByte | Intel_8080_Emulator/Intel_8080_Emulator.cpp:862-873 | the PSW byte PUSH PSW stores reads back as the current flags, with bit 1 set and bits 3 and 5 clear |
| Alu.StatusByteRoundTrip | Intel_8080_Emulator/Intel_8080_Emulator.cpp:862-886 | decoding the PSW byte of a flag set gives back that flag set; bit 1 is 1 and bits 3 and 5 are 0 |
| AluFacts.AdditionCarriesOut | Intel_8080_Emulator/ALU.hpp:63-72 | addition without carry-in: the value plus Carry·2^W is the exact sum |
| AluFacts.SubtractionBorrows | Intel_8080_Emulator/ALU.hpp:85-93 | subtraction without borrow: the value is first − second + Carry·2^W, so Carry is the borrow |
| AluFacts.AdditionFlags | Intel_8080_Emulator/ALU.hpp:63-105 | 8-bit addition gives (a+b) mod 256, and AuxCarry iff the low nibbles carry |
| AluFacts.SubtractionFlags | Intel_8080_Emulator/ALU.hpp:85-105 | 8-bit subtraction gives (a−b) mod 256, and AuxCarry iff the low nibble borrows |
| AluFacts.AuxCarryIsBitFourParity | Intel_8080_Emulator/ALU.hpp:96-105 | AuxCarry is the parity of bit 4 of result, first and second |
| AluFacts.AuxCarryOfSum | Intel_8080_Emulator/ALU.hpp:96-105 | for a sum with carry-in c, AuxCarry iff the low nibbles plus c exceed 0xF |
| AluFacts.AuxCarryOfDifference | Intel_8080_Emulator/ALU.hpp:96-105 | for a difference with borrow c, AuxCarry iff the low nibble of first is less than that of second plus c |
| AluFacts.AddWithCarryAsWritten | Intel_8080_Emulator/ALU.hpp:65-71 | ADC as written: Carry iff first+second+old Carry exceeds the maximum; the value then adds the new Carry |
| AluFacts.AddWithCarrySumIsIntendedIffCarryKept | Intel_8080_Emulator/ALU.hpp:68-71 | the ADC value equals first+second+incoming carry exactly when the Carry update left Carry unchanged |
| AluFacts.AddWithCarryDropsCarryIn | Intel_8080_Emulator/ALU.hpp:68-71 | with Carry set and no carry out, ADC as written returns first+second, dropping the carry-in, and clears Carry |
| AluFacts.SubtractWithBorrowAsWritten | Intel_8080_Emulator/ALU.hpp:76-84 | SBB as written: Carry iff old Carry > second or second − old Carry > first; the value subtracts the new Carry |
| AluFacts.BorrowTestDisagreements | Intel_8080_Emulator/ALU.hpp:80 | the written borrow test agrees with "second + carry > first" except exactly when Carry is set and second = 0 < first, or second ∈ {first, first+1} |
| AluFacts.BorrowTestCounterexamples | Intel_8080_Emulator/ALU.hpp:80 | 5 − 0 with borrow sets Carry and 5 − 5 with borrow clears it, so the written test is not "second + carry > first" |
| AluFacts.SubtractWithBorrowIsIntendedIffCarryKept | Intel_8080_Emulator/ALU.hpp:80-83 | the SBB value equals first − second − incoming borrow exactly when the update left Carry unchanged |
| AluFacts.RotateLeftMeaning | Intel_8080_Emulator/Intel_8080_Emulator.cpp:176-213 | RLC/RAL: the value is 2a mod 256 plus bit 7 (RLC) or old Carry (RAL); Carry is bit 7; no other flag changes |
| AluFacts.RotateRightMeaning | Intel_8080_Emulator/Intel_8080_Emulator.cpp:189-226 | RRC/RAR: the value is a/2 plus 0x80 times bit 0 (RRC) or old Carry (RAR); Carry is bit 0; no other flag changes |
| AluFacts.RotateRightUndoesRotateLeft | Intel_8080_Emulator/Intel_8080_Emulator.cpp:176-226 | a right rotation after a left one restores the byte; through Carry it also restores every flag |
| Bits.ParityOfZero | Intel_8080_Emulator/ALU.cpp:54-61 | 0 has no set bits, so its parity is even |
| Bits.FlipBitFlipsParity | Intel_8080_Emulator/ALU.cpp:54-61 | flipping one bit inside the width changes the popcount by one and flips the parity answer |
| Registers.Reg.Index | Intel_8080_Emulator/RegisterManager.hpp:18-29 | the register indices are B=0 … L=5, W=6, Z=7, A=8, all below 9 |
| Registers.RegOfIndex | Intel_8080_Emulator/RegisterManager.hpp:18-29 | every index below 9 names the register with that index |
| Registers.RegDecoderMatchesEncoding | Intel_8080_Emulator/RegisterManager.cpp:63-77 | the register decoder looks only at the low three bits, returns none exactly for 6, and otherwise returns the register whose field is those bits |
| Registers.RegDecoderInvertsEncoding | Intel_8080_Emulator/RegisterManager.cpp:63-77 | decoding the field of any nameable register gives that register |
| Registers.PairDecoderMatchesEncoding | Intel_8080_Emulator/RegisterManager.cpp:79-89 | the pair decoder looks only at the low two bits, maps 0,1,2,3 to BC,DE,HL,SP, and inverts the pair's field |
| Registers.RegFromPair | Intel_8080_Emulator/RegisterManager.cpp:91-108 | for BC, DE, HL the register index is twice the pair number (B, D, H) |
| Registers.NextReg | Intel_8080_Emulator/RegisterManager.cpp:110-119 | the next register has the next index, so B→C, D→E, H→L |
| Registers.RegisterFile.Set | Intel_8080_Emulator/RegisterManager.cpp:20-25 | the register written reads back the value, and SP is unchanged |
| Registers.SetKeepsOthers | Intel_8080_Emulator/RegisterManager.cpp:20-25 | writing one register leaves every other register |
| Registers.PairBytes | Intel_8080_Emulator/RegisterManager.cpp:27-41 | a pair's value divided by 256 is its first register and its remainder is the next register |
| Registers.RegisterFile.SetPair | Intel_8080_Emulator/RegisterManager.cpp:48-61 | writing SP changes no byte register; writing BC, DE or HL leaves SP |
| Registers.SetPairReadsBack | Intel_8080_Emulator/RegisterManager.cpp:27-61 | a pair written with any 16-bit value reads back that value (SP included) |
| Registers.SetPairKeepsOtherPairs | Intel_8080_Emulator/RegisterManager.cpp:48-61 | writing one pair leaves every other pair's value |
| Registers.SetPairToOwnValue | Intel_8080_Emulator/RegisterManager.cpp:27-61 | writing a pair with its own value changes nothing |
| Registers.RegisterFile.SetPairBytes | Intel_8080_Emulator/RegisterManager.cpp:43-46 | setting a pair from high and low bytes gives the pair value high·256 + low |
| Registers.SetPairBytesCells | Intel_8080_Emulator/RegisterManager.cpp:43-61 | after setting from bytes, the first register holds the high byte and the next register the low byte |
| Registers.RegisterManager.constructor | Intel_8080_Emulator/RegisterManager.cpp:10-13 | a new register manager holds the initial register file |
| Registers.RegisterManager.GetRegisterValue | Intel_8080_Emulator/RegisterManager.cpp:15-18 | returns the register's cell of the modelled register file |
| Registers.RegisterManager.SetRegisterValue | Intel_8080_Emulator/RegisterManager.cpp:20-25 | the array write makes the modelled file the old file with that register set |
| Registers.RegisterManager.GetValueFromRegisterPair | Intel_8080_Emulator/RegisterManager.cpp:27-41 | returns SP, or the two cells combined high byte first |
| Registers.RegisterManager.SetRegisterPair | Intel_8080_Emulator/RegisterManager.cpp:48-61 | the array or SP write makes the modelled file the old file with that pair set |
| Registers.RegisterManager.SetRegisterPairBytes | Intel_8080_Emulator/RegisterManager.cpp:43-46 | the two cell writes make the modelled file the old file with that pair set from the bytes |
| Instructions.RestartNumber | Intel_8080_Emulator/Intel_8080_Emulator.cpp:990-1007 | the RST number is bits 5..3 of the opcode, at most 7 |
| Decoding.FirstRegisterField | Intel_8080_Emulator/Intel_8080_Emulator.cpp:1045-1056 | getFirstRegister on bits 5..3 gives back any named register placed there by its three-bit code |
| Decoding.SecondRegisterField | Intel_8080_Emulator/Intel_8080_Emulator.cpp:1058-1069 | getSecondRegister on bits 2..0 gives back any named register placed there by its three-bit code |
| Decoding.PairFieldOf | Intel_8080_Emulator/Intel_8080_Emulator.cpp:1071-1076 | getRegisterPair on bits 5..4 gives back any pair placed there by its two-bit code |
| Decoding.ConditionFieldOf | Intel_8080_Emulator/Intel_8080_Emulator.cpp:1086-1117 | the condition checkCurrentCondition reads from bits 5..3 is the one whose code was placed there |
| Decoding.DecodesLdax | Intel_8080_Emulator/Intel_8080_Emulator.cpp:279-296 | LDAX B and LDAX D decode to LDAX with that pair |
| Decoding.DecodesStax | Intel_8080_Emulator/Intel_8080_Emulator.cpp:298-315 | STAX B and STAX D decode to STAX with that pair |
| Decoding.DecodesMov | Intel_8080_Emulator/Intel_8080_Emulator.cpp:424-434 | MOV r1,r2 between named registers decodes to that move |
| Decoding.DecodesArith | Intel_8080_Emulator/Intel_8080_Emulator.cpp:443-797 | each accumulator operation, on memory, a named register or an immediate byte, decodes to itself |
| Decoding.DecodesHlt | Intel_8080_Emulator/Intel_8080_Emulator.cpp:389-396 | 0x76 decodes to HLT with the absent register that its DDD field gives |
| Decoding.DecodeEncode | Intel_8080_Emulator/Intel_8080_Emulator.cpp:62-1043 | every instruction the 8080 opcode table defines, encoded, is decoded back to the same instruction with the same operands, whatever the case order |
| Decoding.EncodeDecode | Intel_8080_Emulator/Intel_8080_Emulator.cpp:62-1043 | every opcode that some case matches decodes to a well-formed instruction whose table encoding is that opcode |
| Decoding.DecodedWellFormed | Intel_8080_Emulator/Intel_8080_Emulator.cpp:259-315 | a matched opcode never yields LDAX/STAX with HL or SP, PUSH/POP with SP, or register field 6 except in HLT, so those asserts cannot be reached |
| Decoding.DecodedCondition | Intel_8080_Emulator/Intel_8080_Emulator.cpp:943-989 | a conditional jump, call or return tests the condition in the opcode's CCC field |
| Decoding.UnrecognisedOpcodes | Intel_8080_Emulator/Intel_8080_Emulator.cpp:62-1043 | exactly twelve opcodes match no case: 0x08, 0x10, 0x18, 0x20, 0x28, 0x30, 0x38, 0xCB, 0xD9, 0xDD, 0xED, 0xFD |
| Cpu.WriteByte | Intel_8080_Emulator/Intel_8080_Emulator.cpp:116-126 | a memory write changes the addressed cell (taken modulo 2^16) and no other |
| Cpu.AddOrSubtract | Intel_8080_Emulator/Intel_8080_Emulator.cpp:443-494 | ADD gives (A+x) mod 256 with Carry iff the sum exceeds 0xFF; SUB gives (A−x) mod 256 with Carry iff x > A; Zero, Sign and Parity describe the result |
| Cpu.Logical | Intel_8080_Emulator/Intel_8080_Emulator.cpp:495-542 | ANA, XRA and ORA give the bitwise and, xor and or; Carry ends clear; AuxCarry also ends clear except for ANA on a register or memory; Zero, Sign and Parity describe the result |
| Cpu.Compare | Intel_8080_Emulator/Intel_8080_Emulator.cpp:543-559 | CMP keeps A, sets Zero iff A equals the operand and Carry iff A is less; Sign and Parity come from A − operand |
| Emulator.Intel8080.constructor | Intel_8080_Emulator/Intel_8080_Emulator.cpp:12-15 | the machine starts with the given memory image, initial registers, clear flags, PC 0, not halted |
| Emulator.Intel8080.ReadMemory | Intel_8080_Emulator/Intel_8080_Emulator.hpp:38 | the `memory[...]` read every instruction shares: it returns the cell at the address taken modulo 2^16 |
| Emulator.Intel8080.Fetch | Intel_8080_Emulator/Intel_8080_Emulator.cpp:57-60 | the byte at PC becomes the current opcode and nothing else changes |
| Emulator.Intel8080.GetAddressInDataBytes | Intel_8080_Emulator/Intel_8080_Emulator.cpp:1078-1084 | returns the little-endian word in the two bytes after the opcode |
| Emulator.Intel8080.CheckCurrentCondition | Intel_8080_Emulator/Intel_8080_Emulator.cpp:1086-1118 | returns whether the condition in the opcode's CCC field (NZ, Z, NC, C, PO, PE, P, M) holds for the current flags |
| Emulator.Intel8080.PushWord | Intel_8080_Emulator/Intel_8080_Emulator.cpp:1126-1131 | puts the high byte at SP−1 and the low byte at SP−2 and lowers SP by two |
| Emulator.Intel8080.Call | Intel_8080_Emulator/Intel_8080_Emulator.cpp:1120-1134 | pushes the address of the next instruction and jumps to the operand |
| Emulator.Intel8080.Ret | Intel_8080_Emulator/Intel_8080_Emulator.cpp:1136-1145 | pops the return address into PC and raises SP by two |
| Emulator.Intel8080.MoveImmediateToMemory | Intel_8080_Emulator/Intel_8080_Emulator.cpp:72-82 | MVI M: the immediate byte is written at HL |
| Emulator.Intel8080.LoadAccumulatorDirect | Intel_8080_Emulator/Intel_8080_Emulator.cpp:84-92 | LDA: A gets the byte at the direct address |
| Emulator.Intel8080.StoreAccumulatorDirect | Intel_8080_Emulator/Intel_8080_Emulator.cpp:94-102 | STA: A is written at the direct address |
| Emulator.Intel8080.LoadHLDirect | Intel_8080_Emulator/Intel_8080_Emulator.cpp:104-114 | LHLD: L gets the byte at the address and H the byte after it |
| Emulator.Intel8080.StoreHLDirect | Intel_8080_Emulator/Intel_8080_Emulator.cpp:116-126 | SHLD: L is written at the address and H after it |
| Emulator.Intel8080.CountMemory | Intel_8080_Emulator/Intel_8080_Emulator.cpp:128-152 | INR M / DCR M: the byte at HL steps by one with every flag but Carry set from it |
| Emulator.Intel8080.Rotate | Intel_8080_Emulator/Intel_8080_Emulator.cpp:176-226 | RLC, RRC, RAL, RAR: A is rotated with only Carry changed |
| Emulator.Intel8080.LoadPairImmediate | Intel_8080_Emulator/Intel_8080_Emulator.cpp:266-277 | LXI: the pair gets the little-endian immediate word |
| Emulator.Intel8080.LoadAccumulatorIndirect | Intel_8080_Emulator/Intel_8080_Emulator.cpp:279-296 | LDAX: A gets the byte BC or DE addresses; any other pair is Fatal |
| Emulator.Intel8080.StoreAccumulatorIndirect | Intel_8080_Emulator/Intel_8080_Emulator.cpp:298-315 | STAX: A is written where BC or DE points; any other pair is Fatal |
| Emulator.Intel8080.CountPair | Intel_8080_Emulator/Intel_8080_Emulator.cpp:317-333 | INX / DCX: the pair steps by one modulo 2^16 |
| Emulator.Intel8080.AddPairToHL | Intel_8080_Emulator/Intel_8080_Emulator.cpp:335-346 | DAD: HL gets HL + pair modulo 2^16 with Carry the 16-bit carry out |
| Emulator.Intel8080.MoveImmediate | Intel_8080_Emulator/Intel_8080_Emulator.cpp:352-362 | MVI r: the register gets the immediate byte; register field 6 is Fatal |
| Emulator.Intel8080.CountRegister | Intel_8080_Emulator/Intel_8080_Emulator.cpp:364-384 | INR r / DCR r: the register steps by one with every flag but Carry set from it; field 6 is Fatal |
| Emulator.Intel8080.MoveFromMemory | Intel_8080_Emulator/Intel_8080_Emulator.cpp:398-409 | MOV r,M: the register gets the byte at HL; field 6 is Fatal |
| Emulator.Intel8080.MoveToMemory | Intel_8080_Emulator/Intel_8080_Emulator.cpp:411-422 | MOV M,r: the register is written at HL; field 6 is Fatal |
| Emulator.Intel8080.MoveRegister | Intel_8080_Emulator/Intel_8080_Emulator.cpp:424-434 | MOV r1,r2: r1 gets r2; field 6 in either place is Fatal |
| Emulator.Intel8080.Accumulate | Intel_8080_Emulator/Intel_8080_Emulator.cpp:443-797 | the flag-unit calls of an accumulator operation give exactly `Cpu.Accumulate`'s value and flags |
| Emulator.Intel8080.OperandValue | Intel_8080_Emulator/Intel_8080_Emulator.cpp:443-797 | the operand is the byte at HL, the register, or the immediate byte; none for register field 6 |
| Emulator.Intel8080.AccumulatorOperation | Intel_8080_Emulator/Intel_8080_Emulator.cpp:443-797 | an accumulator operation moves the state as `Cpu.AccumulatorOperation` does |
| Emulator.Intel8080.ExchangeDEWithHL | Intel_8080_Emulator/Intel_8080_Emulator.cpp:704-715 | XCHG: DE and HL trade values |
| Emulator.Intel8080.PushStatus | Intel_8080_Emulator/Intel_8080_Emulator.cpp:862-873 | PUSH PSW: A and then the status byte are pushed |
| Emulator.Intel8080.PopStatus | Intel_8080_Emulator/Intel_8080_Emulator.cpp:875-886 | POP PSW: the flags come from the byte at SP and A from the one above it |
| Emulator.Intel8080.ExchangeStackTop | Intel_8080_Emulator/Intel_8080_Emulator.cpp:888-899 | XTHL as written: SP becomes HL and HL becomes the single byte at the old SP |
| Emulator.Intel8080.Restart | Intel_8080_Emulator/Intel_8080_Emulator.cpp:990-1007 | RST n: the current PC is pushed and PC becomes 8n |
| Emulator.Intel8080.PushPair | Intel_8080_Emulator/Intel_8080_Emulator.cpp:1012-1025 | PUSH rp: the pair is pushed high byte first |
| Emulator.Intel8080.PopPair | Intel_8080_Emulator/Intel_8080_Emulator.cpp:1026-1040 | POP rp: the pair gets the word at SP and SP rises by two |
| Emulator.Intel8080.DecimalAdjustAccumulator | Intel_8080_Emulator/Intel_8080_Emulator.cpp:154-174 | DAA as written: 6 is added for a low nibble over 9 or AuxCarry, then 0x60 for a high nibble over 9 or Carry, with no flag changed |
| Emulator.Intel8080.ComplementAccumulator | Intel_8080_Emulator/Intel_8080_Emulator.cpp:228-234 | CMA: A becomes its complement |
| Emulator.Intel8080.ComplementCarry | Intel_8080_Emulator/Intel_8080_Emulator.cpp:236-242 | CMC: Carry is inverted |
| Emulator.Intel8080.SetCarry | Intel_8080_Emulator/Intel_8080_Emulator.cpp:244-250 | STC: Carry is set |
| Emulator.Intel8080.Jump | Intel_8080_Emulator/Intel_8080_Emulator.cpp:799-804 | JMP: PC becomes the operand |
| Emulator.Intel8080.JumpToHL | Intel_8080_Emulator/Intel_8080_Emulator.cpp:855-860 | PCHL: PC becomes HL |
| Emulator.Intel8080.LoadSPFromHL | Intel_8080_Emulator/Intel_8080_Emulator.cpp:901-908 | SPHL: SP becomes HL |
| Emulator.Intel8080.JumpIf | Intel_8080_Emulator/Intel_8080_Emulator.cpp:943-957 | Jcc: jump when the condition holds, else skip the three bytes |
| Emulator.Intel8080.CallIf | Intel_8080_Emulator/Intel_8080_Emulator.cpp:958-974 | Ccc: call when the condition holds, else skip the three bytes |
| Emulator.Intel8080.ReturnIf | Intel_8080_Emulator/Intel_8080_Emulator.cpp:975-989 | Rcc: return when the condition holds, else skip the opcode |
| Emulator.Intel8080.Halt | Intel_8080_Emulator/Intel_8080_Emulator.cpp:392-396 | HLT sets the halt flag and changes nothing else before falling through |
| Emulator.Intel8080.ExecuteInstruction | Intel_8080_Emulator/Intel_8080_Emulator.cpp:62-1043 | executing an instruction ends with the outcome and state `Cpu.Step` gives |
| Emulator.Intel8080.DecodeAndExecute | Intel_8080_Emulator/Intel_8080_Emulator.cpp:62-1043 | decoding and executing the current opcode ends with the outcome and state `Cpu.Execute` gives |
| Emulator.Intel8080.RunCycle | Intel_8080_Emulator/Intel_8080_Emulator.cpp:22-55 | a cycle ends with the outcome and state `Cpu.RunCycle` gives |
| CpuFacts.HaltedCycleChangesNothing | Intel_8080_Emulator/Intel_8080_Emulator.cpp:22-28 | once halted, a cycle changes nothing and ends Ok |
| CpuFacts.HaltStops | Intel_8080_Emulator/Intel_8080_Emulator.cpp:389-409 | a cycle on HLT latches the opcode, sets the halt flag, keeps PC and ends Fatal at the register check |
| CpuFacts.PushWordContents | Intel_8080_Emulator/Intel_8080_Emulator.cpp:1126-1131 | after a push, the word at the new SP, read little-endian, is the value pushed, and SP is two lower |
| CpuFacts.CallThenReturn | Intel_8080_Emulator/Intel_8080_Emulator.cpp:1120-1145 | RET after CALL resumes at the instruction after the CALL with SP and the registers restored |
| CpuFacts.CallJumpsToOperand | Intel_8080_Emulator/Intel_8080_Emulator.cpp:1120-1134 | when the pushed bytes do not overwrite the operand, CALL jumps to the operand |
| CpuFacts.RestartThenReturn | Intel_8080_Emulator/Intel_8080_Emulator.cpp:990-1007 | RST n jumps to 8n, and a RET then returns to the RST's own address with the registers restored |
| CpuFacts.PushThenPop | Intel_8080_Emulator/Intel_8080_Emulator.cpp:1012-1040 | POP rp after PUSH rp restores every register, SP included |
| CpuFacts.PushThenPopStatus | Intel_8080_Emulator/Intel_8080_Emulator.cpp:862-886 | POP PSW after PUSH PSW restores A, SP and every flag |
| CpuFacts.StoreThenLoadHL | Intel_8080_Emulator/Intel_8080_Emulator.cpp:104-126 | SHLD stores L at the address and H after it, and LHLD from the same address restores HL |
| CpuFacts.LxiLoadsOperand | Intel_8080_Emulator/Intel_8080_Emulator.cpp:266-277 | after LXI the pair holds exactly the address that getAddressInDataBytes reads from the two data bytes |
| CpuFacts.ExchangeTwice | Intel_8080_Emulator/Intel_8080_Emulator.cpp:704-715 | XCHG swaps DE and HL, keeps BC and SP, and two of them restore the registers |
| CpuFacts.CountersKeepCarry | Intel_8080_Emulator/Intel_8080_Emulator.cpp:128-152 | INR and DCR, on a register or memory, never change Carry |
| CpuFacts.RotationsAndDadChangeOnlyCarry | Intel_8080_Emulator/Intel_8080_Emulator.cpp:176-226 | the rotations and DAD change Carry and no other flag |
| CpuFacts.TransfersKeepFlags | Intel_8080_Emulator/Intel_8080_Emulator.cpp:72-126 | the data transfers, HLT and XCHG leave every flag |
| CpuFacts.AdjustmentsKeepFlags | Intel_8080_Emulator/Intel_8080_Emulator.cpp:154-333 | DAA, CMA, NOP, INX and DCX leave every flag |
| CpuFacts.BranchesKeepFlags | Intel_8080_Emulator/Intel_8080_Emulator.cpp:799-860 | jumps, calls, returns and restarts leave every flag |
| CpuFacts.ConditionalBranchesKeepFlags | Intel_8080_Emulator/Intel_8080_Emulator.cpp:943-989 | conditional branches leave every flag, taken or not |
| CpuFacts.StackOperationsKeepFlags | Intel_8080_Emulator/Intel_8080_Emulator.cpp:862-899 | PUSH PSW and XTHL leave every flag |
| CpuFacts.PairStackOperationsKeepFlags | Intel_8080_Emulator/Intel_8080_Emulator.cpp:901-1040 | SPHL, PUSH and POP leave every flag |
| CpuFacts.MoveChangesOnlyDestination | Intel_8080_Emulator/Intel_8080_Emulator.cpp:424-434 | MOV r1,r2 copies r2 into r1, advances PC by one and changes nothing else |
| CpuFacts.IncrementMeaning | Intel_8080_Emulator/Intel_8080_Emulator.cpp:364-373 | INR r adds one modulo 256, with Zero, Sign, Parity from the result and AuxCarry iff the low nibble was 0xF |
| CpuFacts.DecrementMeaning | Intel_8080_Emulator/Intel_8080_Emulator.cpp:375-384 | DCR r subtracts one modulo 256, with Zero, Sign, Parity from the result and AuxCarry iff the low nibble was 0 |
| CpuFacts.AccumulatorOperationEffect | Intel_8080_Emulator/Intel_8080_Emulator.cpp:443-797 | an accumulator operation writes the result to A (CMP leaves A), sets the flags it computed and advances PC by one, or two for an immediate |
| CpuFacts.AddMeaning | Intel_8080_Emulator/Intel_8080_Emulator.cpp:443-455 | ADD: the new A plus Carry·256 is the exact sum, AuxCarry is the nibble carry |
| CpuFacts.SubtractMeaning | Intel_8080_Emulator/Intel_8080_Emulator.cpp:469-481 | SUB: the new A is the difference plus 256 exactly when Carry (the borrow) is set |
| CpuFacts.CompareMeaning | Intel_8080_Emulator/Intel_8080_Emulator.cpp:543-559 | CMP keeps A, sets Zero iff A equals the operand and Carry iff A is less |
| CpuFacts.DadMeaning | Intel_8080_Emulator/Intel_8080_Emulator.cpp:335-346 | DAD: the new HL plus Carry·2^16 is the exact 17-bit sum |
| CpuFacts.RotateThroughCarryUndone | Intel_8080_Emulator/Intel_8080_Emulator.cpp:202-226 | RAR after RAL restores every register and flag, two bytes on |
| CpuFacts.ConditionFieldTestsFlag | Intel_8080_Emulator/Intel_8080_Emulator.cpp:1086-1117 | the condition taken from bits 5..3 holds exactly when the flag named by bits 5..4 (zero, carry, parity, sign) equals bit 3 |
| CpuFacts.ConditionalJumpOpcode | Intel_8080_Emulator/Intel_8080_Emulator.cpp:943-957 | an opcode of the form 11ccc010 sets PC to the data bytes' address when its tested flag equals bit 3, and to PC + 3 otherwise; nothing else changes |
| CpuFacts.ConditionalCallOpcode | Intel_8080_Emulator/Intel_8080_Emulator.cpp:958-974 | an opcode of the form 11ccc100 calls the data bytes' address when its tested flag equals bit 3, and otherwise only advances PC by three |
| CpuFacts.ConditionalReturnOpcode | Intel_8080_Emulator/Intel_8080_Emulator.cpp:975-989 | an opcode of the form 11ccc000 returns when its tested flag equals bit 3, and otherwise only advances PC by one |
| CpuFacts.ConditionsComeInOppositePairs | Intel_8080_Emulator/Intel_8080_Emulator.cpp:1086-1118 | the conditions whose codes differ in bit 3 of the opcode are opposites: exactly one of each pair holds |
| CpuFacts.StoppingStep | Intel_8080_Emulator/Intel_8080_Emulator.cpp:910-934 | HLT, IN, OUT, EI and DI end Fatal, and only HLT leaves a mark, the halt flag |
| CpuFacts.StepOkUnlessStopped | Intel_8080_Emulator/Intel_8080_Emulator.cpp:62-1043 | every other instruction in the opcode table completes normally |
| CpuFacts.StoppingOpcodesExactly | Intel_8080_Emulator/Intel_8080_Emulator.cpp:389-934 | the opcodes that decode to a stopping instruction are exactly 0x76, 0xDB, 0xD3, 0xFB, 0xF3 |
| CpuFacts.ExecuteFails | Intel_8080_Emulator/Intel_8080_Emulator.cpp:62-1043 | a cycle ends Fatal exactly for those five opcodes, and then only HLT changes the state |
| CpuFacts.ExecuteUnrecognised | Intel_8080_Emulator/Intel_8080_Emulator.cpp:62-1043 | a cycle matches no case exactly for the twelve unused opcodes, and then nothing, PC included, changes |
| SpaceInvadersPorts.ShiftIn | Intel_8080_Emulator/SpaceInvaders.cpp:48-52 | after a load, the high byte is the data and the low byte is the old high byte |
| SpaceInvadersPorts.ShiftWindow | Intel_8080_Emulator/SpaceInvaders.cpp:25-29 | the window's bit k is the register's bit k + 8 − offset |
| SpaceInvadersPorts.SpaceInvaders.constructor | Intel_8080_Emulator/SpaceInvaders.hpp:39-40 | the shift register and its offset start at zero |
| SpaceInvadersPorts.SpaceInvaders.InputOperation | Intel_8080_Emulator/SpaceInvaders.cpp:20-34 | port 3 reads the window the offset selects; every other port reads 0 |
| SpaceInvadersPorts.SpaceInvaders.OutputOperation | Intel_8080_Emulator/SpaceInvaders.cpp:36-57 | port 2 sets the offset to the low three bits of the value; port 4 loads the value as the new high byte; other ports change nothing |
| SpaceInvadersPorts.ShiftInTwice | Intel_8080_Emulator/SpaceInvaders.cpp:48-52 | two loads leave second·256 + first, whatever was there before |
| SpaceInvadersPorts.WindowAtOffsetZero | Intel_8080_Emulator/SpaceInvaders.cpp:25-29 | with offset 0 the window is the high byte |
| SpaceInvadersPorts.WindowAfterTwoLoads | Intel_8080_Emulator/SpaceInvaders.cpp:25-52 | after loading first then second, the window at offset o is second shifted left by o, with the top o bits of first below it |

## Left out

- IN, OUT, EI and DI end `Fatal` with the state unchanged. The C++ has
  already set A from `inputOperation` (IN) and called `outputOperation`
  (OUT) when it reaches the `assert(false)`. Those partial effects are not
  modelled, and the CPU is not connected to the port collaborator (the
  `Machine` interface is a virtual call). The port logic itself is
  modelled in `SpaceInvadersPorts`.
- The debug output is not modelled: the trace prints and the "Graphics"
  memory scan in `runCycle`, the prints in `call` and `ret`, and the
  CP/M print hook and `exit(0)` inside CALL. Neither is the operation
  counter, nor the string builders for operation names, flags and
  registers. None of them feeds back into the state.
- Emulator.Intel8080.constructor, Registers.RegisterManager.constructor:
  the registers, SP, the current opcode and the halt flag start at
  0/false. The C++ constructors leave them uninitialised, so their first
  values are indeterminate. Only PC is set to 0 there.
- Emulator.Intel8080.constructor: the memory is taken from an image
  parameter. ROM loading, the SFML window, sound, keys and frame timing
  are I/O and are not part of this model.
- Memory has 65536 cells. The header's 16384-byte declaration cannot hold
  the 16-bit addresses the code uses. The header's unused 8-bit stack
  pointer and vector stack are left out.
- The register array has nine cells, so A (index 8) has a cell of its
  own. The header declares eight, and the bounds-checked access to A
  would throw.
- `std::bitset<5>` indexed by the flag masks (Carry = 8 and AuxCarry = 16
  would be out of range) is modelled as a record of five booleans.
  Exclusion masks are modelled as sets of flags.
- The header declares the flag unit with a `bool add` and defines no
  status-byte helpers, but the callers pass an operation and use
  `createStatusByte`/`setFromStatusByte`. The logical operations,
  rotations and the PSW byte follow the 8080 manual, and the post-operation
  AuxCarry/Zero/Sign/Parity logic applies to every operation.
- Registers.RegisterFile.GetPair combines the two cells as
  `high * 0x100 + low`, not with `high << 8 | low`.
  `Bits.OrOfDisjointFields` proves the two equal for a byte below a
  shifted byte.
- SpaceInvadersPorts.SpaceInvaders.OutputOperation writes the offset as
  `data % 8` rather than `data & 7`. The two are equal on non-negative
  values.
- The ADC and SBB results follow the source as written: the result reads
  Carry after it has been overwritten, and the SBB borrow test is the
  source's. The lemmas in `AluFacts` state exactly where this differs from
  the arithmetic the 8080 defines. For SBB, 5 − 0 with borrow in reports
  a borrow.
