/** The machine state of emulator.rs as a value, and the operations on it as
    functions: the address map, reads and writes through it, the power-on
    state, the cartridge loader, the register file and the tile renderer.
    The class in emulator.dfy holds the same state in arrays and is proved
    against these functions. */
module EmulatorState {
  import opened Util
  import opened Instruction
  import opened Screen

  const ROM_BANK_SIZE: nat := 0x4000
  const RAM_BANK_SIZE: nat := 0x1000
  const ZERO_PAGE_SIZE: nat := 0x7f
  const CHARACTER_RAM_SIZE: nat := 0x1800
  const BG_MAP_SIZE: nat := 0x800
  /** Sprite attribute memory as the hardware has it, 0xFE00-0xFE9F. */
  const SPRITE_ATTRIBUTE_SIZE: nat := 0xa0
  /** The size emulator.rs:30 gives the sprite attribute array. */
  const SPRITE_ATTRIBUTE_SIZE_AS_WRITTEN: nat := 0x80

  datatype Flags = Flags(zero: bool, subtract: bool, halfCarry: bool, carry: bool)

  datatype State = State(
    interruptsEnabled: u8,
    stackPointer: u16,
    programCounter: u16,
    aRegister: u8,
    bRegister: u8,
    cRegister: u8,
    dRegister: u8,
    eRegister: u8,
    hRegister: u8,
    lRegister: u8,
    flags: Flags,
    cartridgeRomBank0: seq<u8>,
    cartridgeRomBank1: seq<u8>,
    internalRamBank0: seq<u8>,
    internalRamBank1: seq<u8>,
    zeroPage: seq<u8>,
    characterRam: seq<u8>,
    bgMapData: seq<u8>,
    spriteAttributeData: seq<u8>)

  /** Every memory region has its fixed size. */
  predicate WellFormed(s: State) {
    && |s.cartridgeRomBank0| == ROM_BANK_SIZE
    && |s.cartridgeRomBank1| == ROM_BANK_SIZE
    && |s.internalRamBank0| == RAM_BANK_SIZE
    && |s.internalRamBank1| == RAM_BANK_SIZE
    && |s.zeroPage| == ZERO_PAGE_SIZE
    && |s.characterRam| == CHARACTER_RAM_SIZE
    && |s.bgMapData| == BG_MAP_SIZE
    && |s.spriteAttributeData| == SPRITE_ATTRIBUTE_SIZE
  }

  datatype MemoryError =
    | IllegalRomWrite(addr: u16)
    | IllegalCartridgeRamAccess(addr: u16)
    | IllegalUnusableAccess(addr: u16)

  datatype LoadError =
    | RomSizeInvalid
    | UnsupportedCartridgeType(cartType: u8)
    | UnsupportedRomSize(sizeCode: u8)
    | RomSizeMismatch

  // ---------------------------------------------------------------------
  // The address map
  // ---------------------------------------------------------------------

  /** Where an address lands: a region and the offset into it, an echo of a
      lower address, or one of the regions without storage. */
  datatype Location =
    | RomBank0(offset: nat)
    | RomBank1(offset: nat)
    | CharacterRam(offset: nat)
    | BgMap(offset: nat)
    | CartridgeRam
    | InternalRamBank0(offset: nat)
    | InternalRamBank1(offset: nat)
    | Echo(mirrored: u16)
    | SpriteAttributes(offset: nat)
    | Unusable
    | HardwareIo
    | ZeroPage(offset: nat)
    | InterruptEnable

  /** The offset of a location lies inside its region, given the size of the
      sprite attribute region. */
  predicate OffsetInBounds(loc: Location, spriteAttributeSize: nat) {
    match loc
    case RomBank0(o) => o < ROM_BANK_SIZE
    case RomBank1(o) => o < ROM_BANK_SIZE
    case CharacterRam(o) => o < CHARACTER_RAM_SIZE
    case BgMap(o) => o < BG_MAP_SIZE
    case InternalRamBank0(o) => o < RAM_BANK_SIZE
    case InternalRamBank1(o) => o < RAM_BANK_SIZE
    case SpriteAttributes(o) => o < spriteAttributeSize
    case ZeroPage(o) => o < ZERO_PAGE_SIZE
    case _ => true
  }

  /** The match arms shared by `get_memory` and `set_memory`, with the sprite
      attribute arm covering 0xFE00-0xFE9F. Every address lands somewhere and
      every offset is inside its region; the echo region 0xE000-0xFDFF
      mirrors 0xC000-0xDDFF. */
  function Locate(addr: u16): (loc: Location)
    ensures OffsetInBounds(loc, SPRITE_ATTRIBUTE_SIZE)
    ensures loc.Echo? <==> 0xe000 <= addr <= 0xfdff
    ensures loc.Echo? ==> loc.mirrored == addr - 0x2000 && 0xc000 <= loc.mirrored <= 0xddff
  {
    if addr <= 0x3fff then RomBank0(addr)
    else if addr <= 0x7fff then RomBank1(addr - 0x4000)
    else if addr <= 0x97ff then CharacterRam(addr - 0x8000)
    else if addr <= 0x9fff then BgMap(addr - 0x9800)
    else if addr <= 0xbfff then CartridgeRam
    else if addr <= 0xcfff then InternalRamBank0(addr - 0xc000)
    else if addr <= 0xdfff then InternalRamBank1(addr - 0xd000)
    else if addr <= 0xfdff then Echo(addr - 0x2000)
    else if addr <= 0xfe9f then SpriteAttributes(addr - 0xfe00)
    else if addr <= 0xfeff then Unusable
    else if addr <= 0xff7f then HardwareIo
    else if addr <= 0xfffe then ZeroPage(addr - 0xff80)
    else InterruptEnable
  }

  /** The match arms as emulator.rs:185-203 and 208-226 write them: the sprite
      attribute arm stops at 0xFE99, and an address no arm names falls to the
      last arm, whose `assert_eq!(addr, 0xffff)` panics (None here). */
  function LocateAsWritten(addr: u16): Option<Location> {
    if addr <= 0x3fff then Some(RomBank0(addr))
    else if addr <= 0x7fff then Some(RomBank1(addr - 0x4000))
    else if addr <= 0x97ff then Some(CharacterRam(addr - 0x8000))
    else if addr <= 0x9fff then Some(BgMap(addr - 0x9800))
    else if addr <= 0xbfff then Some(CartridgeRam)
    else if addr <= 0xcfff then Some(InternalRamBank0(addr - 0xc000))
    else if addr <= 0xdfff then Some(InternalRamBank1(addr - 0xd000))
    else if addr <= 0xfdff then Some(Echo(addr - 0x2000))
    else if addr <= 0xfe99 then Some(SpriteAttributes(addr - 0xfe00))
    else if 0xfea0 <= addr <= 0xfeff then Some(Unusable)
    else if 0xff00 <= addr <= 0xff7f then Some(HardwareIo)
    else if 0xff80 <= addr <= 0xfffe then Some(ZeroPage(addr - 0xff80))
    else if addr == 0xffff then Some(InterruptEnable)
    else None
  }

  /** The source panics on an access: either no arm but the asserting one
      matches, or the index runs past the 0x80-byte sprite attribute array. */
  predicate PanicsAsWritten(addr: u16) {
    match LocateAsWritten(addr)
    case None => true
    case Some(loc) => !OffsetInBounds(loc, SPRITE_ATTRIBUTE_SIZE_AS_WRITTEN)
  }

  /** As written, exactly the addresses 0xFE80-0xFE9F panic: 0xFE80-0xFE99
      index past the array, 0xFE9A-0xFE9F trip the assertion. */
  lemma PanicsAsWrittenExactlyInOamTail(addr: u16)
    ensures PanicsAsWritten(addr) <==> 0xfe80 <= addr <= 0xfe9f
    ensures 0xfe80 <= addr <= 0xfe99 ==> LocateAsWritten(addr) == Some(SpriteAttributes(addr - 0xfe00))
    ensures 0xfe9a <= addr <= 0xfe9f ==> LocateAsWritten(addr) == None
  {
  }

  /** The corrected map differs from the written one only on those addresses. */
  lemma LocateAgreesWithWrittenElsewhere(addr: u16)
    requires !(0xfe80 <= addr <= 0xfe9f)
    ensures LocateAsWritten(addr) == Some(Locate(addr))
  {
  }

  /** The storage cell behind an address: the echo region shares the cells of
      0xC000-0xDDFF. */
  function Canonical(addr: u16): (c: u16)
    ensures !Locate(c).Echo?
    ensures Locate(addr).Echo? ==> c == Locate(addr).mirrored
  {
    if 0xe000 <= addr <= 0xfdff then addr - 0x2000 else addr
  }

  // ---------------------------------------------------------------------
  // Reads and writes
  // ---------------------------------------------------------------------

  /** `get_memory` */
  function Read(s: State, addr: u16): (r: Result<u8, MemoryError>)
    requires WellFormed(s)
    ensures addr <= 0x3fff ==> r == Ok(s.cartridgeRomBank0[addr])
    ensures 0x4000 <= addr <= 0x7fff ==> r == Ok(s.cartridgeRomBank1[addr - 0x4000])
    ensures 0x8000 <= addr <= 0x97ff ==> r == Ok(s.characterRam[addr - 0x8000])
    ensures 0x9800 <= addr <= 0x9fff ==> r == Ok(s.bgMapData[addr - 0x9800])
    ensures 0xa000 <= addr <= 0xbfff ==> r == Err(IllegalCartridgeRamAccess(addr))
    ensures 0xc000 <= addr <= 0xcfff ==> r == Ok(s.internalRamBank0[addr - 0xc000])
    ensures 0xd000 <= addr <= 0xdfff ==> r == Ok(s.internalRamBank1[addr - 0xd000])
    ensures 0xe000 <= addr <= 0xfdff ==> r == Read(s, addr - 0x2000)
    ensures 0xfe00 <= addr <= 0xfe9f ==> r == Ok(s.spriteAttributeData[addr - 0xfe00])
    ensures 0xfea0 <= addr <= 0xfeff ==> r == Err(IllegalUnusableAccess(addr))
    ensures 0xff00 <= addr <= 0xff7f ==> r == Ok(0)
    ensures 0xff80 <= addr <= 0xfffe ==> r == Ok(s.zeroPage[addr - 0xff80])
    ensures addr == 0xffff ==> r == Ok(s.interruptsEnabled)
    decreases addr
  {
    match Locate(addr)
    case RomBank0(o) => Ok(s.cartridgeRomBank0[o])
    case RomBank1(o) => Ok(s.cartridgeRomBank1[o])
    case CharacterRam(o) => Ok(s.characterRam[o])
    case BgMap(o) => Ok(s.bgMapData[o])
    case CartridgeRam => Err(IllegalCartridgeRamAccess(addr))
    case InternalRamBank0(o) => Ok(s.internalRamBank0[o])
    case InternalRamBank1(o) => Ok(s.internalRamBank1[o])
    case Echo(m) => Read(s, m)
    case SpriteAttributes(o) => Ok(s.spriteAttributeData[o])
    case Unusable => Err(IllegalUnusableAccess(addr))
    case HardwareIo => Ok(0)
    case ZeroPage(o) => Ok(s.zeroPage[o])
    case InterruptEnable => Ok(s.interruptsEnabled)
  }

  /** `set_memory`: a new state, or the error the source returns. */
  function Write(s: State, addr: u16, n: u8): (r: Result<State, MemoryError>)
    requires WellFormed(s)
    ensures r.Err? <==> addr <= 0x7fff || 0xa000 <= addr <= 0xbfff || 0xfea0 <= addr <= 0xfeff
    ensures addr <= 0x7fff ==> r == Err(IllegalRomWrite(addr))
    ensures 0xa000 <= addr <= 0xbfff ==> r == Err(IllegalCartridgeRamAccess(addr))
    ensures 0xfea0 <= addr <= 0xfeff ==> r == Err(IllegalUnusableAccess(addr))
    ensures 0xff00 <= addr <= 0xff7f ==> r == Ok(s)
    ensures r.Ok? ==> WellFormed(r.value) && SameExceptMemory(s, r.value)
    decreases addr
  {
    match Locate(addr)
    case RomBank0(_) => Err(IllegalRomWrite(addr))
    case RomBank1(_) => Err(IllegalRomWrite(addr))
    case CharacterRam(o) => Ok(s.(characterRam := s.characterRam[o := n]))
    case BgMap(o) => Ok(s.(bgMapData := s.bgMapData[o := n]))
    case CartridgeRam => Err(IllegalCartridgeRamAccess(addr))
    case InternalRamBank0(o) => Ok(s.(internalRamBank0 := s.internalRamBank0[o := n]))
    case InternalRamBank1(o) => Ok(s.(internalRamBank1 := s.internalRamBank1[o := n]))
    case Echo(m) => Write(s, m, n)
    case SpriteAttributes(o) => Ok(s.(spriteAttributeData := s.spriteAttributeData[o := n]))
    case Unusable => Err(IllegalUnusableAccess(addr))
    case HardwareIo => Ok(s)
    case ZeroPage(o) => Ok(s.(zeroPage := s.zeroPage[o := n]))
    case InterruptEnable => Ok(s.(interruptsEnabled := n))
  }

  /** The two states agree on everything but the memory regions and the
      interrupt-enable byte (which lives at 0xFFFF). */
  predicate SameExceptMemory(s: State, t: State) {
    && s.stackPointer == t.stackPointer
    && s.programCounter == t.programCounter
    && s.aRegister == t.aRegister
    && s.bRegister == t.bRegister
    && s.cRegister == t.cRegister
    && s.dRegister == t.dRegister
    && s.eRegister == t.eRegister
    && s.hRegister == t.hRegister
    && s.lRegister == t.lRegister
    && s.flags == t.flags
  }

  /** The two states agree on all memory regions and the interrupt-enable byte. */
  predicate SameMemory(s: State, t: State) {
    && s.interruptsEnabled == t.interruptsEnabled
    && s.cartridgeRomBank0 == t.cartridgeRomBank0
    && s.cartridgeRomBank1 == t.cartridgeRomBank1
    && s.internalRamBank0 == t.internalRamBank0
    && s.internalRamBank1 == t.internalRamBank1
    && s.zeroPage == t.zeroPage
    && s.characterRam == t.characterRam
    && s.bgMapData == t.bgMapData
    && s.spriteAttributeData == t.spriteAttributeData
  }

  /** What an address reads depends on the memory alone, not on registers,
      flags, PC or SP. */
  lemma {:induction false} ReadDependsOnlyOnMemory(s: State, t: State, addr: u16)
    requires WellFormed(s) && WellFormed(t) && SameMemory(s, t)
    ensures Read(s, addr) == Read(t, addr)
    decreases addr
  {
    if Locate(addr).Echo? {
      ReadDependsOnlyOnMemory(s, t, addr - 0x2000);
    }
  }

  /** The echo region reads and writes through to 0xC000-0xDDFF. */
  lemma EchoMirrorsWorkRam(s: State, addr: u16, n: u8)
    requires WellFormed(s)
    requires 0xe000 <= addr <= 0xfdff
    ensures Read(s, addr) == Read(s, addr - 0x2000)
    ensures Write(s, addr, n) == Write(s, addr - 0x2000, n)
  {
  }

  /** A successful write is read back at the address written and at every
      address sharing its cell, except in the I/O window, whose writes are
      dropped and whose reads give 0. */
  lemma {:induction false} ReadAfterWrite(s: State, addr: u16, n: u8, other: u16)
    requires WellFormed(s) && Write(s, addr, n).Ok?
    requires Canonical(other) == Canonical(addr)
    ensures Read(Write(s, addr, n).value, other) == (if 0xff00 <= addr <= 0xff7f then Ok(0) else Ok(n))
  {
    var c := Canonical(addr);
    var t := Write(s, addr, n).value;
    assert Write(s, addr, n) == Write(s, c, n);
    assert Read(t, other) == Read(t, c);
  }

  /** A write changes the cell behind its address and no other: every address
      with a different cell reads as before. */
  lemma {:induction false} WriteChangesOneCell(s: State, addr: u16, n: u8, other: u16)
    requires WellFormed(s) && Write(s, addr, n).Ok?
    requires Canonical(other) != Canonical(addr)
    ensures Read(Write(s, addr, n).value, other) == Read(s, other)
  {
    var c := Canonical(addr);
    var co := Canonical(other);
    var t := Write(s, addr, n).value;
    assert Write(s, addr, n) == Write(s, c, n);
    assert Read(t, other) == Read(t, co);
    assert Read(s, other) == Read(s, co);
  }

  // ---------------------------------------------------------------------
  // Registers
  // ---------------------------------------------------------------------

  /** `get_register` */
  function RegisterValue(s: State, r: Register): u8 {
    match r
    case ARegister => s.aRegister
    case BRegister => s.bRegister
    case CRegister => s.cRegister
    case DRegister => s.dRegister
    case ERegister => s.eRegister
    case HRegister => s.hRegister
    case LRegister => s.lRegister
  }

  /** `set_register`: register r now holds v; every other register, the
      flags, PC, SP and all of memory are as before. */
  function WithRegister(s: State, r: Register, v: u8): (t: State)
    ensures RegisterValue(t, r) == v
    ensures forall r' :: r' != r ==> RegisterValue(t, r') == RegisterValue(s, r')
    ensures t.flags == s.flags && t.programCounter == s.programCounter && t.stackPointer == s.stackPointer
    ensures SameMemory(s, t)
  {
    match r
    case ARegister => s.(aRegister := v)
    case BRegister => s.(bRegister := v)
    case CRegister => s.(cRegister := v)
    case DRegister => s.(dRegister := v)
    case ERegister => s.(eRegister := v)
    case HRegister => s.(hRegister := v)
    case LRegister => s.(lRegister := v)
  }

  /** Writing a register's own value back leaves the state as it was, and
      writing it twice keeps only the second value. */
  lemma WithRegisterIdempotent(s: State, r: Register, v: u8, w: u8)
    ensures WithRegister(s, r, RegisterValue(s, r)) == s
    ensures WithRegister(WithRegister(s, r, v), r, w) == WithRegister(s, r, w)
  {
  }

  // ---------------------------------------------------------------------
  // Power-on and cartridge loading
  // ---------------------------------------------------------------------

  function Zeros(n: nat): (z: seq<u8>)
    ensures |z| == n && forall i :: 0 <= i < n ==> z[i] == 0
  {
    seq(n, _ => 0)
  }

  /** `Emulator::new` */
  function PowerOn(): (s: State)
    ensures WellFormed(s)
  {
    State(
      interruptsEnabled := 0x0f,
      stackPointer := 0xfffe,
      programCounter := 0x100,
      aRegister := 0, bRegister := 0, cRegister := 0, dRegister := 0,
      eRegister := 0, hRegister := 0, lRegister := 0,
      flags := Flags(zero := false, subtract := false, halfCarry := false, carry := false),
      cartridgeRomBank0 := Zeros(ROM_BANK_SIZE),
      cartridgeRomBank1 := Zeros(ROM_BANK_SIZE),
      internalRamBank0 := Zeros(RAM_BANK_SIZE),
      internalRamBank1 := Zeros(RAM_BANK_SIZE),
      zeroPage := Zeros(ZERO_PAGE_SIZE),
      characterRam := Zeros(CHARACTER_RAM_SIZE),
      bgMapData := Zeros(BG_MAP_SIZE),
      spriteAttributeData := Zeros(SPRITE_ATTRIBUTE_SIZE))
  }

  /** After power-on every readable address reads 0, except the
      interrupt-enable byte, which reads 0x0F. */
  lemma {:induction false} PowerOnReadsZero(addr: u16)
    ensures Read(PowerOn(), addr).Ok? ==> Read(PowerOn(), addr).value == (if addr == 0xffff then 0x0f else 0)
    decreases addr
  {
    if 0xe000 <= addr <= 0xfdff {
      PowerOnReadsZero(addr - 0x2000);
    }
  }

  /** `Emulator::load_rom`: the checks in the source's order, then the two
      banks filled from the image. */
  function LoadRom(rom: seq<u8>): (r: Result<State, LoadError>)
    ensures r.Ok? <==> |rom| == 0x8000 && (rom[0x147] == 0 || rom[0x147] == 1) && rom[0x148] == 0
    ensures |rom| < 0x4000 ==> r == Err(RomSizeInvalid)
    ensures |rom| >= 0x4000 && rom[0x147] != 0 && rom[0x147] != 1 ==> r == Err(UnsupportedCartridgeType(rom[0x147]))
    ensures |rom| >= 0x4000 && (rom[0x147] == 0 || rom[0x147] == 1) && rom[0x148] != 0 ==>
              r == Err(UnsupportedRomSize(rom[0x148]))
    ensures |rom| >= 0x4000 && (rom[0x147] == 0 || rom[0x147] == 1) && rom[0x148] == 0 && |rom| != 0x8000 ==>
              r == Err(RomSizeMismatch)
    ensures r.Ok? ==> WellFormed(r.value)
    ensures r.Ok? ==> r.value == PowerOn().(cartridgeRomBank0 := rom[..0x4000], cartridgeRomBank1 := rom[0x4000..0x8000])
  {
    if |rom| < 0x4000 then Err(RomSizeInvalid)
    else
      var cartType := rom[0x147];
      var romSize := rom[0x148];
      if cartType != 0 && cartType != 1 then Err(UnsupportedCartridgeType(cartType))
      else if romSize == 0 then
        if |rom| != 0x8000 then Err(RomSizeMismatch)
        else Ok(PowerOn().(cartridgeRomBank0 := rom[0..0x4000], cartridgeRomBank1 := rom[0x4000..0x8000]))
      else Err(UnsupportedRomSize(romSize))
  }

  /** A loaded 32KB image is what addresses 0x0000-0x7FFF read. */
  lemma LoadedRomIsReadable(rom: seq<u8>, addr: u16)
    requires LoadRom(rom).Ok?
    requires addr <= 0x7fff
    ensures Read(LoadRom(rom).value, addr) == Ok(rom[addr])
  {
  }

  // ---------------------------------------------------------------------
  // The background renderer
  // ---------------------------------------------------------------------

  /** The shade a pair of tile bits selects. */
  function Shade(b1: bool, b2: bool): Pixel {
    match (b1, b2)
    case (false, false) => White
    case (false, true) => LightGray
    case (true, false) => DarkGray
    case (true, true) => Black
  }

  /** No two bit pairs share a shade. */
  lemma ShadeInjective(b1: bool, b2: bool, c1: bool, c2: bool)
    requires Shade(b1, b2) == Shade(c1, c2)
    ensures b1 == c1 && b2 == c2
  {
  }

  /** The pixel at screen position (x, y), from the background map and the
      character RAM: the tile under the pixel, the two bytes of the tile row,
      and the bit of each byte for the pixel's column (bit 7 is leftmost). */
  function RenderedPixel(s: State, x: u8, y: u8): Pixel
    requires WellFormed(s)
    requires x < HORIZONTAL_SCREEN_PIXELS && y < VERTICAL_SCREEN_PIXELS
  {
    var tile := s.bgMapData[(y / 8) * 32 + x / 8];
    var row := tile * 16 + (y % 8) * 2;
    var column := 7 - x % 8;
    Shade(GetBit(s.characterRam[row], column), GetBit(s.characterRam[row + 1], column))
  }

  /** The same pixel seen tile by tile, as the renderer's loops produce it:
      pixel (8x + xt, 8y + yt) takes bit 7 - xt of the tile row's two bytes,
      and every index used stays inside its region. */
  lemma RenderedPixelOfTile(s: State, x: nat, y: nat, xt: nat, yt: nat)
    requires WellFormed(s)
    requires x < HORIZONTAL_SCREEN_PIXELS / 8 && y < VERTICAL_SCREEN_PIXELS / 8 && xt < 8 && yt < 8
    ensures y * 32 + x < BG_MAP_SIZE
    ensures s.bgMapData[y * 32 + x] * 16 + yt * 2 + 1 < CHARACTER_RAM_SIZE
    ensures RenderedPixel(s, 8 * x + xt, 8 * y + yt) ==
              var tile := s.bgMapData[y * 32 + x];
              Shade(GetBit(s.characterRam[tile * 16 + yt * 2], 7 - xt),
                    GetBit(s.characterRam[tile * 16 + yt * 2 + 1], 7 - xt))
  {
    assert (8 * y + yt) / 8 == y && (8 * y + yt) % 8 == yt;
    assert (8 * x + xt) / 8 == x && (8 * x + xt) % 8 == xt;
  }
}
