/** The instruction decoder (instructions/decoding.rs): it takes one byte from
    the byte source and looks it up in the 49-entry `LD r,r` table. The byte
    source is modelled as the sequence of bytes it would produce. */
module Decoding {
  import opened Util
  import opened Instruction
  import opened Encoding

  /** What `decode_instruction` does with a byte source: the source had no byte
      (`None`), the first byte is in the table, or the first byte reaches
      `unimplemented!()`, which the model reports instead of panicking. */
  datatype DecodeResult =
    | Exhausted
    | Decoded(instruction: Instruction, consumed: nat)
    | Unimplemented(opcode: u8)

  function DecodeInstruction(bytes: seq<u8>): (r: DecodeResult)
    ensures r == Exhausted <==> bytes == []
    ensures bytes != [] ==> (r.Decoded? <==> IsLdOpcode(bytes[0]))
    ensures r.Decoded? ==>
              && r.consumed == 1
              && IsLdOpcode(bytes[0])
              && r.instruction == LD_R_R(RegisterOfCode((bytes[0] - 0x40) / 8), RegisterOfCode(bytes[0] % 8))
    ensures r.Unimplemented? ==> r.opcode == bytes[0]
  {
    if bytes == [] then Exhausted
    else
      match bytes[0]
      case 0x7f => Decoded(LD_R_R(ARegister, ARegister), 1)
      case 0x78 => Decoded(LD_R_R(ARegister, BRegister), 1)
      case 0x79 => Decoded(LD_R_R(ARegister, CRegister), 1)
      case 0x7a => Decoded(LD_R_R(ARegister, DRegister), 1)
      case 0x7b => Decoded(LD_R_R(ARegister, ERegister), 1)
      case 0x7c => Decoded(LD_R_R(ARegister, HRegister), 1)
      case 0x7d => Decoded(LD_R_R(ARegister, LRegister), 1)

      case 0x47 => Decoded(LD_R_R(BRegister, ARegister), 1)
      case 0x40 => Decoded(LD_R_R(BRegister, BRegister), 1)
      case 0x41 => Decoded(LD_R_R(BRegister, CRegister), 1)
      case 0x42 => Decoded(LD_R_R(BRegister, DRegister), 1)
      case 0x43 => Decoded(LD_R_R(BRegister, ERegister), 1)
      case 0x44 => Decoded(LD_R_R(BRegister, HRegister), 1)
      case 0x45 => Decoded(LD_R_R(BRegister, LRegister), 1)

      case 0x4f => Decoded(LD_R_R(CRegister, ARegister), 1)
      case 0x48 => Decoded(LD_R_R(CRegister, BRegister), 1)
      case 0x49 => Decoded(LD_R_R(CRegister, CRegister), 1)
      case 0x4a => Decoded(LD_R_R(CRegister, DRegister), 1)
      case 0x4b => Decoded(LD_R_R(CRegister, ERegister), 1)
      case 0x4c => Decoded(LD_R_R(CRegister, HRegister), 1)
      case 0x4d => Decoded(LD_R_R(CRegister, LRegister), 1)

      case 0x57 => Decoded(LD_R_R(DRegister, ARegister), 1)
      case 0x50 => Decoded(LD_R_R(DRegister, BRegister), 1)
      case 0x51 => Decoded(LD_R_R(DRegister, CRegister), 1)
      case 0x52 => Decoded(LD_R_R(DRegister, DRegister), 1)
      case 0x53 => Decoded(LD_R_R(DRegister, ERegister), 1)
      case 0x54 => Decoded(LD_R_R(DRegister, HRegister), 1)
      case 0x55 => Decoded(LD_R_R(DRegister, LRegister), 1)

      case 0x5f => Decoded(LD_R_R(ERegister, ARegister), 1)
      case 0x58 => Decoded(LD_R_R(ERegister, BRegister), 1)
      case 0x59 => Decoded(LD_R_R(ERegister, CRegister), 1)
      case 0x5a => Decoded(LD_R_R(ERegister, DRegister), 1)
      case 0x5b => Decoded(LD_R_R(ERegister, ERegister), 1)
      case 0x5c => Decoded(LD_R_R(ERegister, HRegister), 1)
      case 0x5d => Decoded(LD_R_R(ERegister, LRegister), 1)

      case 0x67 => Decoded(LD_R_R(HRegister, ARegister), 1)
      case 0x60 => Decoded(LD_R_R(HRegister, BRegister), 1)
      case 0x61 => Decoded(LD_R_R(HRegister, CRegister), 1)
      case 0x62 => Decoded(LD_R_R(HRegister, DRegister), 1)
      case 0x63 => Decoded(LD_R_R(HRegister, ERegister), 1)
      case 0x64 => Decoded(LD_R_R(HRegister, HRegister), 1)
      case 0x65 => Decoded(LD_R_R(HRegister, LRegister), 1)

      case 0x6f => Decoded(LD_R_R(LRegister, ARegister), 1)
      case 0x68 => Decoded(LD_R_R(LRegister, BRegister), 1)
      case 0x69 => Decoded(LD_R_R(LRegister, CRegister), 1)
      case 0x6a => Decoded(LD_R_R(LRegister, DRegister), 1)
      case 0x6b => Decoded(LD_R_R(LRegister, ERegister), 1)
      case 0x6c => Decoded(LD_R_R(LRegister, HRegister), 1)
      case 0x6d => Decoded(LD_R_R(LRegister, LRegister), 1)

      case _ => Unimplemented(bytes[0])
  }

  /** Only the first byte is consumed; whatever follows it is never looked at. */
  lemma DecodeReadsOnlyFirstByte(bytes: seq<u8>, rest: seq<u8>)
    requires bytes != []
    ensures DecodeInstruction(bytes + rest) == DecodeInstruction([bytes[0]])
  {
    assert (bytes + rest)[0] == bytes[0];
  }

  /** Decoding an encoded `LD r,r` gives it back, having consumed its one byte. */
  lemma DecodeEncode(t: Register, s: Register)
    ensures DecodeInstruction(Deref(EncodeInstruction(LD_R_R(t, s)))) == Decoded(LD_R_R(t, s), 1)
  {
    var b := LdOpcode(t, s);
    assert Deref(EncodeInstruction(LD_R_R(t, s))) == [b];
    assert (b - 0x40) / 8 == RegisterCode(t) && b % 8 == RegisterCode(s);
    RegisterCodeInjective(t, t);
    RegisterCodeInjective(s, s);
  }

  /** Every opcode the decoder accepts is the encoding of what it decodes to. */
  lemma EncodeDecode(b: u8)
    requires DecodeInstruction([b]).Decoded?
    ensures Deref(EncodeInstruction(DecodeInstruction([b]).instruction)) == [b]
  {
    var t := RegisterOfCode((b - 0x40) / 8);
    var s := RegisterOfCode(b % 8);
    assert LdOpcode(t, s) == 0x40 + 8 * ((b - 0x40) / 8) + b % 8 == b;
  }

  /** Distinct `LD r,r` instructions have distinct encodings. */
  lemma EncodingInjective(t1: Register, s1: Register, t2: Register, s2: Register)
    requires Deref(EncodeInstruction(LD_R_R(t1, s1))) == Deref(EncodeInstruction(LD_R_R(t2, s2)))
    ensures t1 == t2 && s1 == s2
  {
    DecodeEncode(t1, s1);
    DecodeEncode(t2, s2);
  }
}
