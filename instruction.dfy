/** The instruction set of the LR35902 as a closed sum type (instruction.rs).
    Every variant carries only the operands its encoding supplies: a register,
    an 8-bit immediate, a signed 8-bit displacement, a 16-bit address or
    immediate, a bit index, a branch condition or a reset vector. Equality of
    these values is structural, as with the derived `PartialEq` of the source. */
module Instruction {
  import opened Util

  /** A bit index 0-7 for BIT, SET and RES. */
  datatype Bit = Bit0 | Bit1 | Bit2 | Bit3 | Bit4 | Bit5 | Bit6 | Bit7

  /** The 8-bit registers the opcodes operate on; the flag register F is not one of them. */
  datatype Register = ARegister | BRegister | CRegister | DRegister | ERegister | HRegister | LRegister

  /** The branch conditions of the conditional JP, JR, CALL and RET. */
  datatype Cond = Zero | NZero | Carry | NCarry

  /** The eight RST targets. */
  datatype ResetAddress = Reset00 | Reset08 | Reset10 | Reset18 | Reset20 | Reset28 | Reset30 | Reset38

  datatype Instruction =
    | LD_R_R(target: Register, source: Register)
    | LD_R_N(Register, u8)
    | LD_R_ATHL(Register)
    | LD_ATHL_R(Register)
    | LD_ATHL_N(u8)
    | LD_A_ATC
    | LD_A_ATBC
    | LD_A_ATDE
    | LD_A_ATNN(u16)
    | LD_ATC_A
    | LD_ATBC_A
    | LD_ATDE_A
    | LD_ATNN_A(u16)
    | LDD_A_ATHL
    | LDD_ATHL_A
    | LDI_A_ATHL
    | LDI_ATHL_A
    | LDH_A_ATN(u8)
    | LDH_ATN_A(u8)
    | LD_BC_NN(u16)
    | LD_DE_NN(u16)
    | LD_HL_NN(u16)
    | LD_SP_NN(u16)
    | LD_SP_HL
    | LDHL_SP_N(i8)
    | LD_ATNN_SP(u16)
    | PUSH_AF
    | PUSH_BC
    | PUSH_DE
    | PUSH_HL
    | POP_AF
    | POP_BC
    | POP_DE
    | POP_HL
    | ADD_A_R(Register)
    | ADD_A_N(u8)
    | ADD_A_ATHL
    | ADC_A_R(Register)
    | ADC_A_N(u8)
    | ADC_A_ATHL
    | SUB_R(Register)
    | SUB_N(u8)
    | SUB_ATHL
    | SBC_A_R(Register)
    | SBC_A_N(u8)
    | SBC_A_ATHL
    | AND_R(Register)
    | AND_N(u8)
    | AND_ATHL
    | OR_R(Register)
    | OR_ATHL
    | OR_N(u8)
    | XOR_R(Register)
    | XOR_N(u8)
    | XOR_ATHL
    | CP_R(Register)
    | CP_N(u8)
    | CP_ATHL
    | INC_R(Register)
    | INC_ATHL
    | DEC_R(Register)
    | DEC_ATHL
    | ADD_HL_BC
    | ADD_HL_DE
    | ADD_HL_HL
    | ADD_HL_SP
    | ADD_SP_N(i8)
    | INC_BC
    | INC_DE
    | INC_HL
    | INC_SP
    | DEC_BC
    | DEC_DE
    | DEC_HL
    | DEC_SP
    | SWAP_R(Register)
    | SWAP_ATHL
    | DAA
    | CPL
    | CCF
    | SCF
    | NOP
    | HALT
    | STOP
    | DI
    | EI
    | RLCA
    | RLA
    | RRCA
    | RRA
    | RLC_R(Register)
    | RLC_ATHL
    | RL_R(Register)
    | RL_ATHL
    | RRC_R(Register)
    | RRC_ATHL
    | RR_R(Register)
    | RR_ATHL
    | SLA_R(Register)
    | SLA_ATHL
    | SRA_R(Register)
    | SRA_ATHL
    | SRL_R(Register)
    | SRL_ATHL
    | BIT_B_R(Bit, Register)
    | BIT_B_ATHL(Bit)
    | SET_B_R(Bit, Register)
    | SET_B_ATHL(Bit)
    | RES_B_R(Bit, Register)
    | RES_B_ATHL(Bit)
    | JP_NN(u16)
    | JP_C_NN(Cond, u16)
    | JP_ATHL
    | JR_N(i8)
    | JR_C_N(Cond, i8)
    | CALL_NN(u16)
    | CALL_C_NN(Cond, u16)
    | RST_RA(ResetAddress)
    | RET
    | RET_C(Cond)
    | RETI

  /** Every register, each once. */
  const AllRegisters: seq<Register> :=
    [ARegister, BRegister, CRegister, DRegister, ERegister, HRegister, LRegister]

  /** The register set has exactly seven members. */
  lemma RegisterCount()
    ensures |AllRegisters| == 7
    ensures forall r: Register :: r in AllRegisters
    ensures forall i, j :: 0 <= i < j < |AllRegisters| ==> AllRegisters[i] != AllRegisters[j]
  {
    forall r: Register ensures r in AllRegisters {
      var k := match r
        case ARegister => 0 case BRegister => 1 case CRegister => 2 case DRegister => 3
        case ERegister => 4 case HRegister => 5 case LRegister => 6;
      assert AllRegisters[k] == r;
    }
  }

  /** Every branch condition, each once. */
  const AllConds: seq<Cond> := [Zero, NZero, Carry, NCarry]

  /** The branch conditions are exactly four. */
  lemma CondCount()
    ensures |AllConds| == 4
    ensures forall c: Cond :: c in AllConds
    ensures forall i, j :: 0 <= i < j < |AllConds| ==> AllConds[i] != AllConds[j]
  {
    forall c: Cond ensures c in AllConds {
      var k := match c case Zero => 0 case NZero => 1 case Carry => 2 case NCarry => 3;
      assert AllConds[k] == c;
    }
  }

  /** The position a `Bit` names. */
  function BitIndex(b: Bit): (i: nat)
    ensures i < 8
  {
    match b
    case Bit0 => 0
    case Bit1 => 1
    case Bit2 => 2
    case Bit3 => 3
    case Bit4 => 4
    case Bit5 => 5
    case Bit6 => 6
    case Bit7 => 7
  }

  /** The `Bit` naming position i. */
  function BitOfIndex(i: nat): (b: Bit)
    requires i < 8
    ensures BitIndex(b) == i
  {
    match i
    case 0 => Bit0
    case 1 => Bit1
    case 2 => Bit2
    case 3 => Bit3
    case 4 => Bit4
    case 5 => Bit5
    case 6 => Bit6
    case 7 => Bit7
  }

  /** `Bit` is in one-to-one correspondence with the positions 0-7, so BIT, SET
      and RES can only name an in-range bit and can name every one of them. */
  lemma BitIsExactlyEightPositions(b: Bit, i: nat)
    requires i < 8
    ensures BitOfIndex(BitIndex(b)) == b
    ensures BitIndex(BitOfIndex(i)) == i
  {
  }

  /** The address an RST jumps to. */
  function ResetVector(ra: ResetAddress): (v: u16)
    ensures v % 8 == 0 && v <= 0x38
  {
    match ra
    case Reset00 => 0x00
    case Reset08 => 0x08
    case Reset10 => 0x10
    case Reset18 => 0x18
    case Reset20 => 0x20
    case Reset28 => 0x28
    case Reset30 => 0x30
    case Reset38 => 0x38
  }

  /** The reset vectors are exactly 0x00, 0x08, ..., 0x38, each named once. */
  lemma ResetVectorsAreTheEightMultiplesOfEight(v: u16)
    ensures (exists ra: ResetAddress :: ResetVector(ra) == v) <==> v % 8 == 0 && v <= 0x38
    ensures forall ra1, ra2 :: ResetVector(ra1) == ResetVector(ra2) ==> ra1 == ra2
  {
    if v % 8 == 0 && v <= 0x38 {
      var ra := if v == 0x00 then Reset00 else if v == 0x08 then Reset08
        else if v == 0x10 then Reset10 else if v == 0x18 then Reset18
        else if v == 0x20 then Reset20 else if v == 0x28 then Reset28
        else if v == 0x30 then Reset30 else Reset38;
      assert ResetVector(ra) == v;
    }
  }
}
