/** The fetch/execute step of cpu.rs, run against the emulator of
    emulator.rs. The specification functions work on `State` values; the
    methods run on an `Emulator` object and are proved equal to them. */
module Cpu {
  import opened Util
  import opened Instruction
  import opened Encoding
  import opened Decoding
  import opened EmulatorState
  import opened Emulator

  /** What the fetch closure hands the decoder: no byte (the program counter
      stands at 0xFFFF), the byte at the old program counter, or the memory
      error reading it raised. */
  datatype Fetch = NoByte | Byte(value: u8) | Fault(error: MemoryError)

  /** Why a step failed: the decoder got no byte, reading the opcode failed,
      or the opcode or instruction reaches `unimplemented!()`. */
  datatype StepError =
    | DecodeExhausted
    | MemoryFault(error: MemoryError)
    | UnimplementedOpcode(opcode: u8)
    | UnimplementedInstruction(instruction: Instruction)

  /** The fetch closure: below 0xFFFF the program counter moves on by one and
      the byte at its old value is read; at 0xFFFF it neither moves nor
      yields a byte, so it never wraps. */
  function Fetched(s: State): (r: (Fetch, State))
    requires WellFormed(s)
    ensures WellFormed(r.1)
    ensures s.programCounter == 0xFFFF ==> r == (NoByte, s)
    ensures s.programCounter < 0xFFFF ==>
              && r.1 == s.(programCounter := s.programCounter + 1)
              && (Read(s, s.programCounter).Ok? ==> r.0 == Byte(Read(s, s.programCounter).value))
              && (Read(s, s.programCounter).Err? ==> r.0 == Fault(Read(s, s.programCounter).error))
  {
    var pc := s.programCounter;
    if pc == 0xFFFF then (NoByte, s)
    else
      var s' := s.(programCounter := pc + 1);
      var m := Read(s', pc);
      ReadDependsOnlyOnMemory(s, s', pc);
      (if m.Ok? then Byte(m.value) else Fault(m.error), s')
  }

  /** `do_instruction` on a state: `LD r,r` copies the source register into
      the target; every other instruction is unimplemented. */
  function Executed(s: State, i: Instruction): (r: Result<State, StepError>)
    requires WellFormed(s)
    ensures r.Ok? <==> i.LD_R_R?
    ensures r.Err? ==> r.error == UnimplementedInstruction(i)
    ensures r.Ok? ==>
              && WellFormed(r.value)
              && RegisterValue(r.value, i.target) == RegisterValue(s, i.source)
              && (forall reg :: reg != i.target ==> RegisterValue(r.value, reg) == RegisterValue(s, reg))
              && r.value.flags == s.flags
              && r.value.programCounter == s.programCounter
              && r.value.stackPointer == s.stackPointer
              && SameMemory(s, r.value)
  {
    if i.LD_R_R? then Ok(WithRegister(s, i.target, RegisterValue(s, i.source)))
    else Err(UnimplementedInstruction(i))
  }

  /** `step` on a state: fetch one byte, decode it, execute it. A failure at
      any stage returns before anything after it runs. */
  function Stepped(s: State): (r: (Result<(), StepError>, State))
    requires WellFormed(s)
    ensures WellFormed(r.1)
    ensures r.0.Ok? ==>
              && s.programCounter < 0xFFFF
              && r.1.programCounter == s.programCounter + 1
              && r.1.flags == s.flags && r.1.stackPointer == s.stackPointer
              && SameMemory(s, r.1)
    ensures r.0.Err? ==> r.1 == s || (s.programCounter < 0xFFFF && r.1 == s.(programCounter := s.programCounter + 1))
  {
    var s1 := Fetched(s).1;
    match Fetched(s).0
    case NoByte => (Err(DecodeExhausted), s1)
    case Fault(e) => (Err(MemoryFault(e)), s1)
    case Byte(b) =>
      var d := DecodeInstruction([b]);
      if d.Decoded? then (Ok(()), Executed(s1, d.instruction).value)
      else (Err(UnimplementedOpcode(b)), s1)
  }

  /** A load into a register from itself changes nothing. */
  lemma SelfLoadChangesNothing(s: State, r: Register)
    requires WellFormed(s)
    ensures Executed(s, LD_R_R(r, r)) == Ok(s)
  {
    WithRegisterIdempotent(s, r, 0, 0);
  }

  /** At the end of the address space the step fails with nothing changed:
      the program counter does not wrap. */
  lemma StepAtEndOfMemory(s: State)
    requires WellFormed(s) && s.programCounter == 0xFFFF
    ensures Stepped(s) == (Err(DecodeExhausted), s)
  {
  }

  /** A step that fails writes no register, flag or memory cell: at most the
      program counter has moved on past the fetched byte. */
  lemma FailedStepOnlyAdvancesPc(s: State)
    requires WellFormed(s) && Stepped(s).0.Err?
    ensures Stepped(s).1 == Fetched(s).1
    ensures Stepped(s).1 == s || Stepped(s).1 == s.(programCounter := s.programCounter + 1)
  {
  }

  /** A step over an `LD t,s` opcode copies s into t and moves the program
      counter past the opcode; nothing else changes. */
  lemma StepLoad(s: State, t: Register, src: Register)
    requires WellFormed(s) && s.programCounter < 0xFFFF
    requires Read(s, s.programCounter) == Ok(LdOpcode(t, src))
    ensures Stepped(s) ==
              (Ok(()), WithRegister(s.(programCounter := s.programCounter + 1), t, RegisterValue(s, src)))
  {
    DecodeEncode(t, src);
  }

  /** Any opcode outside the `LD r,r` table fails the step as unimplemented,
      having only moved the program counter past it. */
  lemma StepUnimplementedOpcode(s: State, b: u8)
    requires WellFormed(s) && s.programCounter < 0xFFFF
    requires Read(s, s.programCounter) == Ok(b) && !IsLdOpcode(b)
    ensures Stepped(s) == (Err(UnimplementedOpcode(b)), s.(programCounter := s.programCounter + 1))
  {
  }

  /** A step over `LD r,r` with target equal to source only moves the
      program counter on. */
  lemma {:induction false} StepSelfLoad(s: State, r: Register)
    requires WellFormed(s) && s.programCounter < 0xFFFF
    requires Read(s, s.programCounter) == Ok(LdOpcode(r, r))
    ensures Stepped(s) == (Ok(()), s.(programCounter := s.programCounter + 1))
  {
    StepLoad(s, r, r);
    WithRegisterIdempotent(s.(programCounter := s.programCounter + 1), r, 0, 0);
  }

  /** The fetch closure on the emulator. */
  method FetchByte(emu: Emulator) returns (f: Fetch)
    requires emu.Valid()
    modifies emu
    ensures (f, emu.Snapshot()) == Fetched(old(emu.Snapshot()))
    ensures emu.ticks == old(emu.ticks)
  {
    var pc := emu.GetProgramCounter();
    if pc == 0xFFFF {
      f := NoByte;
    } else {
      emu.SetProgramCounter(pc + 1);
      var m := emu.GetMemory(pc);
      f := if m.Ok? then Byte(m.value) else Fault(m.error);
    }
  }

  /** `do_instruction`: `LD r,r` reads the source register, writes the
      target and charges one `tick(4)`. */
  method DoInstruction(emu: Emulator, i: Instruction) returns (r: Result<(), StepError>)
    requires emu.Valid()
    modifies emu
    ensures Executed(old(emu.Snapshot()), i).Ok? ==>
              && r == Ok(())
              && emu.Snapshot() == Executed(old(emu.Snapshot()), i).value
              && emu.ticks == old(emu.ticks) + [4]
    ensures Executed(old(emu.Snapshot()), i).Err? ==>
              && r == Err(Executed(old(emu.Snapshot()), i).error)
              && emu.Snapshot() == old(emu.Snapshot())
              && emu.ticks == old(emu.ticks)
  {
    if i.LD_R_R? {
      var sv := emu.GetRegister(i.source);
      emu.SetRegister(i.target, sv);
      emu.Tick(4);
      r := Ok(());
    } else {
      r := Err(UnimplementedInstruction(i));
    }
  }

  /** `step`: fetch, decode and execute one instruction. */
  method Step(emu: Emulator) returns (r: Result<(), StepError>)
    requires emu.Valid()
    modifies emu
    ensures (r, emu.Snapshot()) == Stepped(old(emu.Snapshot()))
    ensures emu.ticks == old(emu.ticks) + (if r.Ok? then [4] else [])
  {
    ghost var s := emu.Snapshot();
    var f := FetchByte(emu);
    assert (f, emu.Snapshot()) == Fetched(s);
    match f
    case NoByte =>
      r := Err(DecodeExhausted);
    case Fault(e) =>
      r := Err(MemoryFault(e));
    case Byte(b) =>
      var d := DecodeInstruction([b]);
      if d.Decoded? {
        assert d.instruction.LD_R_R?;
        ghost var s1 := emu.Snapshot();
        assert Fetched(s).0 == Byte(b) && s1 == Fetched(s).1;
        assert Stepped(s) == (Ok(()), Executed(s1, d.instruction).value);
        r := DoInstruction(emu, d.instruction);
      } else {
        r := Err(UnimplementedOpcode(b));
      }
  }
}
