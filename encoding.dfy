/** The instruction encoder (instructions/encoding.rs): an instruction becomes one
    to three bytes held in a fixed three-byte buffer. Only `LD r,r` has an
    encoding; every other variant is unimplemented. */
module Encoding {
  import opened Util
  import opened Instruction

  type Bytes3 = s: seq<u8> | |s| == 3 witness [0, 0, 0]

  /** A three-byte buffer of which the first `len` bytes are the encoding. */
  datatype InstructionBytes = InstructionBytes(buffer: Bytes3, len: u8)

  /** The visible bytes: the buffer cut to `len` (slicing past 3 would panic). */
  function Deref(ib: InstructionBytes): (bytes: seq<u8>)
    requires ib.len <= 3
    ensures |bytes| == ib.len
    ensures forall k :: 0 <= k < |bytes| ==> bytes[k] == ib.buffer[k]
  {
    ib.buffer[..ib.len]
  }

  function One(a: u8): (ib: InstructionBytes)
    ensures ib.len == 1 && Deref(ib) == [a]
  {
    InstructionBytes([a, 0, 0], 1)
  }

  function Two(a: u8, b: u8): (ib: InstructionBytes)
    ensures ib.len == 2 && Deref(ib) == [a, b]
  {
    InstructionBytes([a, b, 0], 2)
  }

  function Three(a: u8, b: u8, c: u8): (ib: InstructionBytes)
    ensures ib.len == 3 && Deref(ib) == [a, b, c]
  {
    InstructionBytes([a, b, c], 3)
  }

  /** The three-bit field by which the hardware names a register in an
      `LD r,r` opcode; code 6 names (HL) and belongs to no register. */
  function RegisterCode(r: Register): (c: nat)
    ensures c < 8 && c != 6
  {
    match r
    case BRegister => 0
    case CRegister => 1
    case DRegister => 2
    case ERegister => 3
    case HRegister => 4
    case LRegister => 5
    case ARegister => 7
  }

  /** The register a code names. */
  function RegisterOfCode(c: nat): (r: Register)
    requires c < 8 && c != 6
    ensures RegisterCode(r) == c
  {
    match c
    case 0 => BRegister
    case 1 => CRegister
    case 2 => DRegister
    case 3 => ERegister
    case 4 => HRegister
    case 5 => LRegister
    case 7 => ARegister
  }

  /** Register codes name registers one-to-one. */
  lemma RegisterCodeInjective(r1: Register, r2: Register)
    ensures RegisterCode(r1) == RegisterCode(r2) ==> r1 == r2
    ensures RegisterOfCode(RegisterCode(r1)) == r1
  {
  }

  /** The hardware layout of `LD t,s`: 01 ttt sss. */
  function LdOpcode(t: Register, s: Register): u8 {
    0x40 + 8 * RegisterCode(t) + RegisterCode(s)
  }

  /** Opcodes of the form 01 ttt sss in which neither field is (HL); this
      leaves out 0x70-0x77, every 0x?6 and 0x?E, and with them HALT (0x76). */
  predicate IsLdOpcode(b: u8) {
    0x40 <= b < 0x80 && b % 8 != 6 && (b - 0x40) / 8 != 6
  }

  /** Every `LD r,r` opcode lies in 0x40-0x7F with neither field naming
      (HL), and none of them is HALT (0x76). */
  lemma LdOpcodeIsLoad(t: Register, s: Register)
    ensures IsLdOpcode(LdOpcode(t, s)) && LdOpcode(t, s) != 0x76
  {
    var b := LdOpcode(t, s);
    assert b % 8 == RegisterCode(s) && (b - 0x40) / 8 == RegisterCode(t);
  }

  /** `encode_instruction`: the 49-entry table for `LD r,r`. Any other
      instruction reaches `unimplemented!()`, hence the precondition. */
  function EncodeInstruction(i: Instruction): (ib: InstructionBytes)
    requires i.LD_R_R?
    ensures ib.len == 1
    ensures Deref(ib) == [LdOpcode(i.target, i.source)]
  {
    match i
    case LD_R_R(ARegister, ARegister) => One(0x7f)
    case LD_R_R(ARegister, BRegister) => One(0x78)
    case LD_R_R(ARegister, CRegister) => One(0x79)
    case LD_R_R(ARegister, DRegister) => One(0x7a)
    case LD_R_R(ARegister, ERegister) => One(0x7b)
    case LD_R_R(ARegister, HRegister) => One(0x7c)
    case LD_R_R(ARegister, LRegister) => One(0x7d)

    case LD_R_R(BRegister, ARegister) => One(0x47)
    case LD_R_R(BRegister, BRegister) => One(0x40)
    case LD_R_R(BRegister, CRegister) => One(0x41)
    case LD_R_R(BRegister, DRegister) => One(0x42)
    case LD_R_R(BRegister, ERegister) => One(0x43)
    case LD_R_R(BRegister, HRegister) => One(0x44)
    case LD_R_R(BRegister, LRegister) => One(0x45)

    case LD_R_R(CRegister, ARegister) => One(0x4f)
    case LD_R_R(CRegister, BRegister) => One(0x48)
    case LD_R_R(CRegister, CRegister) => One(0x49)
    case LD_R_R(CRegister, DRegister) => One(0x4a)
    case LD_R_R(CRegister, ERegister) => One(0x4b)
    case LD_R_R(CRegister, HRegister) => One(0x4c)
    case LD_R_R(CRegister, LRegister) => One(0x4d)

    case LD_R_R(DRegister, ARegister) => One(0x57)
    case LD_R_R(DRegister, BRegister) => One(0x50)
    case LD_R_R(DRegister, CRegister) => One(0x51)
    case LD_R_R(DRegister, DRegister) => One(0x52)
    case LD_R_R(DRegister, ERegister) => One(0x53)
    case LD_R_R(DRegister, HRegister) => One(0x54)
    case LD_R_R(DRegister, LRegister) => One(0x55)

    case LD_R_R(ERegister, ARegister) => One(0x5f)
    case LD_R_R(ERegister, BRegister) => One(0x58)
    case LD_R_R(ERegister, CRegister) => One(0x59)
    case LD_R_R(ERegister, DRegister) => One(0x5a)
    case LD_R_R(ERegister, ERegister) => One(0x5b)
    case LD_R_R(ERegister, HRegister) => One(0x5c)
    case LD_R_R(ERegister, LRegister) => One(0x5d)

    case LD_R_R(HRegister, ARegister) => One(0x67)
    case LD_R_R(HRegister, BRegister) => One(0x60)
    case LD_R_R(HRegister, CRegister) => One(0x61)
    case LD_R_R(HRegister, DRegister) => One(0x62)
    case LD_R_R(HRegister, ERegister) => One(0x63)
    case LD_R_R(HRegister, HRegister) => One(0x64)
    case LD_R_R(HRegister, LRegister) => One(0x65)

    case LD_R_R(LRegister, ARegister) => One(0x6f)
    case LD_R_R(LRegister, BRegister) => One(0x68)
    case LD_R_R(LRegister, CRegister) => One(0x69)
    case LD_R_R(LRegister, DRegister) => One(0x6a)
    case LD_R_R(LRegister, ERegister) => One(0x6b)
    case LD_R_R(LRegister, HRegister) => One(0x6c)
    case LD_R_R(LRegister, LRegister) => One(0x6d)
  }
}
