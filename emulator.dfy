/** The emulator of emulator.rs as an object: registers and flags in fields,
    each memory region in a fixed-size array. Every operation is proved
    against the value-level model in EmulatorState through `Snapshot()`. */
module Emulator {
  import opened Util
  import opened Instruction
  import opened EmulatorState
  import opened Screen

  /** `copy_from_slice`, which panics unless the lengths agree. */
  method CopyFromSlice(dst: array<u8>, src: seq<u8>)
    requires dst.Length == |src|
    modifies dst
    ensures dst[..] == src
  {
    forall i | 0 <= i < dst.Length {
      dst[i] := src[i];
    }
  }

  class Emulator {
    var interruptsEnabled: u8
    var stackPointer: u16
    var programCounter: u16

    var aRegister: u8
    var bRegister: u8
    var cRegister: u8
    var dRegister: u8
    var eRegister: u8
    var hRegister: u8
    var lRegister: u8

    var flags: Flags

    const cartridgeRomBank0: array<u8>
    const cartridgeRomBank1: array<u8>
    const internalRamBank0: array<u8>
    const internalRamBank1: array<u8>
    const zeroPage: array<u8>
    const characterRam: array<u8>
    const bgMapData: array<u8>
    const spriteAttributeData: array<u8>

    /** The counts passed to `tick`, in order. `tick` has no effect on the
        machine; this record only lets contracts speak of the calls. */
    ghost var ticks: seq<u8>

    ghost const Repr: set<object>

    /** The regions have their fixed sizes and are eight distinct arrays. */
    ghost predicate Valid() {
      && Repr == {this, cartridgeRomBank0, cartridgeRomBank1, internalRamBank0, internalRamBank1,
                  zeroPage, characterRam, bgMapData, spriteAttributeData}
      && cartridgeRomBank0.Length == ROM_BANK_SIZE
      && cartridgeRomBank1.Length == ROM_BANK_SIZE
      && internalRamBank0.Length == RAM_BANK_SIZE
      && internalRamBank1.Length == RAM_BANK_SIZE
      && zeroPage.Length == ZERO_PAGE_SIZE
      && characterRam.Length == CHARACTER_RAM_SIZE
      && bgMapData.Length == BG_MAP_SIZE
      && spriteAttributeData.Length == SPRITE_ATTRIBUTE_SIZE
      && cartridgeRomBank0 != cartridgeRomBank1 && cartridgeRomBank0 != internalRamBank0
      && cartridgeRomBank0 != internalRamBank1 && cartridgeRomBank0 != zeroPage
      && cartridgeRomBank0 != characterRam && cartridgeRomBank0 != bgMapData
      && cartridgeRomBank0 != spriteAttributeData
      && cartridgeRomBank1 != internalRamBank0 && cartridgeRomBank1 != internalRamBank1
      && cartridgeRomBank1 != zeroPage && cartridgeRomBank1 != characterRam
      && cartridgeRomBank1 != bgMapData && cartridgeRomBank1 != spriteAttributeData
      && internalRamBank0 != internalRamBank1 && internalRamBank0 != zeroPage
      && internalRamBank0 != characterRam && internalRamBank0 != bgMapData
      && internalRamBank0 != spriteAttributeData
      && internalRamBank1 != zeroPage && internalRamBank1 != characterRam
      && internalRamBank1 != bgMapData && internalRamBank1 != spriteAttributeData
      && zeroPage != characterRam && zeroPage != bgMapData && zeroPage != spriteAttributeData
      && characterRam != bgMapData && characterRam != spriteAttributeData
      && bgMapData != spriteAttributeData
    }

    /** The whole machine state as a value. */
    ghost function Snapshot(): (s: State)
      reads Repr
      requires Valid()
      ensures WellFormed(s)
    {
      State(
        interruptsEnabled, stackPointer, programCounter,
        aRegister, bRegister, cRegister, dRegister, eRegister, hRegister, lRegister,
        flags,
        cartridgeRomBank0[..], cartridgeRomBank1[..], internalRamBank0[..], internalRamBank1[..],
        zeroPage[..], characterRam[..], bgMapData[..], spriteAttributeData[..])
    }

    /** `Emulator::new` */
    constructor ()
      ensures Valid() && fresh(Repr)
      ensures Snapshot() == PowerOn()
      ensures ticks == []
    {
      interruptsEnabled := 0x0f;
      stackPointer := 0xfffe;
      programCounter := 0x100;
      aRegister, bRegister, cRegister, dRegister := 0, 0, 0, 0;
      eRegister, hRegister, lRegister := 0, 0, 0;
      flags := Flags(zero := false, subtract := false, halfCarry := false, carry := false);
      cartridgeRomBank0 := new u8[ROM_BANK_SIZE](_ => 0);
      cartridgeRomBank1 := new u8[ROM_BANK_SIZE](_ => 0);
      internalRamBank0 := new u8[RAM_BANK_SIZE](_ => 0);
      internalRamBank1 := new u8[RAM_BANK_SIZE](_ => 0);
      zeroPage := new u8[ZERO_PAGE_SIZE](_ => 0);
      characterRam := new u8[CHARACTER_RAM_SIZE](_ => 0);
      bgMapData := new u8[BG_MAP_SIZE](_ => 0);
      spriteAttributeData := new u8[SPRITE_ATTRIBUTE_SIZE](_ => 0);
      ticks := [];
      Repr := {this, cartridgeRomBank0, cartridgeRomBank1, internalRamBank0, internalRamBank1,
               zeroPage, characterRam, bgMapData, spriteAttributeData};
      new;
      assert cartridgeRomBank0[..] == Zeros(ROM_BANK_SIZE);
      assert cartridgeRomBank1[..] == Zeros(ROM_BANK_SIZE);
      assert internalRamBank0[..] == Zeros(RAM_BANK_SIZE);
      assert internalRamBank1[..] == Zeros(RAM_BANK_SIZE);
      assert zeroPage[..] == Zeros(ZERO_PAGE_SIZE);
      assert characterRam[..] == Zeros(CHARACTER_RAM_SIZE);
      assert bgMapData[..] == Zeros(BG_MAP_SIZE);
      assert spriteAttributeData[..] == Zeros(SPRITE_ATTRIBUTE_SIZE);
    }

    /** `Emulator::load_rom`: validates the image, then copies it into the
        two ROM banks of a fresh emulator. */
    static method LoadRom(rom: seq<u8>) returns (r: Result<Emulator, LoadError>)
      ensures EmulatorState.LoadRom(rom).Err? ==> r == Err(EmulatorState.LoadRom(rom).error)
      ensures EmulatorState.LoadRom(rom).Ok? ==>
                && r.Ok? && r.value.Valid() && fresh(r.value.Repr)
                && r.value.Snapshot() == EmulatorState.LoadRom(rom).value
                && r.value.ticks == []
    {
      if |rom| < 0x4000 {
        return Err(RomSizeInvalid);
      }
      var state := new Emulator();
      var cartType := rom[0x147];
      var romSize := rom[0x148];
      if cartType != 0 && cartType != 1 {
        return Err(UnsupportedCartridgeType(cartType));
      }
      if romSize == 0 {
        if |rom| != 0x8000 {
          return Err(RomSizeMismatch);
        }
        CopyFromSlice(state.cartridgeRomBank0, rom[0..0x4000]);
        CopyFromSlice(state.cartridgeRomBank1, rom[0x4000..0x8000]);
      } else {
        return Err(UnsupportedRomSize(romSize));
      }
      return Ok(state);
    }

    /** `get_register` */
    function GetRegister(r: Register): (v: u8)
      reads Repr
      requires Valid()
      ensures v == RegisterValue(Snapshot(), r)
    {
      match r
      case ARegister => aRegister
      case BRegister => bRegister
      case CRegister => cRegister
      case DRegister => dRegister
      case ERegister => eRegister
      case HRegister => hRegister
      case LRegister => lRegister
    }

    /** `set_register` */
    method SetRegister(r: Register, v: u8)
      requires Valid()
      modifies this
      ensures Snapshot() == WithRegister(old(Snapshot()), r, v)
      ensures ticks == old(ticks)
    {
      match r
      case ARegister => aRegister := v;
      case BRegister => bRegister := v;
      case CRegister => cRegister := v;
      case DRegister => dRegister := v;
      case ERegister => eRegister := v;
      case HRegister => hRegister := v;
      case LRegister => lRegister := v;
    }

    /** `get_program_counter` */
    function GetProgramCounter(): (pc: u16)
      reads Repr
      requires Valid()
      ensures pc == Snapshot().programCounter
    {
      programCounter
    }

    /** `set_program_counter`: the program counter alone changes. */
    method SetProgramCounter(pc: u16)
      requires Valid()
      modifies this`programCounter
      ensures Snapshot() == old(Snapshot()).(programCounter := pc)
    {
      programCounter := pc;
    }

    /** `tick`: a stub in the source; only the call is recorded. */
    method Tick(count: u8)
      modifies this`ticks
      ensures ticks == old(ticks) + [count]
    {
      ticks := ticks + [count];
    }

    /** `get_memory`, with the echo region answered by reading its mirror. */
    function GetMemory(addr: u16): (r: Result<u8, MemoryError>)
      reads Repr
      requires Valid()
      ensures r == Read(Snapshot(), addr)
      decreases addr
    {
      match Locate(addr)
      case RomBank0(o) => Ok(cartridgeRomBank0[o])
      case RomBank1(o) => Ok(cartridgeRomBank1[o])
      case CharacterRam(o) => Ok(characterRam[o])
      case BgMap(o) => Ok(bgMapData[o])
      case CartridgeRam => Err(IllegalCartridgeRamAccess(addr))
      case InternalRamBank0(o) => Ok(internalRamBank0[o])
      case InternalRamBank1(o) => Ok(internalRamBank1[o])
      case Echo(m) => GetMemory(m)
      case SpriteAttributes(o) => Ok(spriteAttributeData[o])
      case Unusable => Err(IllegalUnusableAccess(addr))
      case HardwareIo => Ok(0)
      case ZeroPage(o) => Ok(zeroPage[o])
      case InterruptEnable => Ok(interruptsEnabled)
    }

    /** `set_memory`: on success the state is the one `Write` describes; on
        an error nothing changes. The ROM banks are outside the frame. */
    method SetMemory(addr: u16, n: u8) returns (r: Result<(), MemoryError>)
      requires Valid()
      modifies this`interruptsEnabled, internalRamBank0, internalRamBank1, zeroPage,
               characterRam, bgMapData, spriteAttributeData
      ensures r.Ok? <==> Write(old(Snapshot()), addr, n).Ok?
      ensures r.Ok? ==> Snapshot() == Write(old(Snapshot()), addr, n).value
      ensures r.Err? ==> r.error == Write(old(Snapshot()), addr, n).error && Snapshot() == old(Snapshot())
      decreases addr
    {
      match Locate(addr)
      case RomBank0(_) => r := Err(IllegalRomWrite(addr));
      case RomBank1(_) => r := Err(IllegalRomWrite(addr));
      case CharacterRam(o) => characterRam[o] := n; r := Ok(());
      case BgMap(o) => bgMapData[o] := n; r := Ok(());
      case CartridgeRam => r := Err(IllegalCartridgeRamAccess(addr));
      case InternalRamBank0(o) => internalRamBank0[o] := n; r := Ok(());
      case InternalRamBank1(o) => internalRamBank1[o] := n; r := Ok(());
      case Echo(m) => r := SetMemory(m, n);
      case SpriteAttributes(o) => spriteAttributeData[o] := n; r := Ok(());
      case Unusable => r := Err(IllegalUnusableAccess(addr));
      case HardwareIo => r := Ok(());
      case ZeroPage(o) => zeroPage[o] := n; r := Ok(());
      case InterruptEnable => interruptsEnabled := n; r := Ok(());
    }

    /** `get_screen`: draws the 20 x 18 background tiles one tile row at a
        time; every on-screen pixel ends up as `RenderedPixel` describes. */
    method GetScreen() returns (screen: Screen)
      requires Valid()
      ensures screen.Valid() && fresh(screen.cells)
      ensures forall px: u8, py: u8 :: px < HORIZONTAL_SCREEN_PIXELS && py < VERTICAL_SCREEN_PIXELS ==>
                screen.GetPixel(px, py) == RenderedPixel(Snapshot(), px, py)
    {
      screen := new Screen();
      for y: nat := 0 to (VERTICAL_SCREEN_PIXELS / 8) as nat
        invariant screen.Valid() && fresh(screen.cells)
        invariant forall px: u8, py: u8 :: px < HORIZONTAL_SCREEN_PIXELS && py < 8 * y ==>
                    screen.GetPixel(px, py) == RenderedPixel(Snapshot(), px, py)
      {
        for x: nat := 0 to (HORIZONTAL_SCREEN_PIXELS / 8) as nat
          invariant screen.Valid() && fresh(screen.cells)
          invariant forall px: u8, py: u8 ::
                      px < HORIZONTAL_SCREEN_PIXELS && (py < 8 * y || (py < 8 * y + 8 && px < 8 * x)) ==>
                        screen.GetPixel(px, py) == RenderedPixel(Snapshot(), px, py)
        {
          DrawTile(screen, x, y);
        }
      }
    }

    /** One iteration of the two outer loops of `get_screen`: the background
        tile at map position (x, y) drawn into its 8 x 8 block of pixels. */
    method DrawTile(screen: Screen, x: nat, y: nat)
      requires Valid() && screen.Valid() && screen.cells !in Repr
      requires x < HORIZONTAL_SCREEN_PIXELS as nat / 8 && y < VERTICAL_SCREEN_PIXELS as nat / 8
      modifies screen.cells
      ensures forall px: u8, py: u8 :: px < HORIZONTAL_SCREEN_PIXELS && py < VERTICAL_SCREEN_PIXELS ==>
                screen.GetPixel(px, py) ==
                  if 8 * x <= px < 8 * x + 8 && 8 * y <= py < 8 * y + 8 then RenderedPixel(Snapshot(), px, py)
                  else old(screen.GetPixel(px, py))
    {
      ghost var s := Snapshot();
      ghost var before := screen.cells[..];
      RenderedPixelOfTile(s, x, y, 0, 0);
      var tile: nat := bgMapData[y * 32 + x];
      for ytile: nat := 0 to 8
        invariant TileRowsDrawn(s, screen.cells[..], before, x, y, ytile)
      {
        RenderedPixelOfTile(s, x, y, 0, ytile);
        var b1 := characterRam[tile * 16 + ytile * 2];
        var b2 := characterRam[tile * 16 + ytile * 2 + 1];
        ghost var cells := screen.cells[..];
        DrawTileRow(screen, x, y, ytile, b1, b2);
        DrawTileRowStep(s, cells, screen.cells[..], before, x, y, ytile);
      }
    }
  }

  /** In `cells`, the first `rows` pixel rows of the tile at map position
      (x, y) are rendered from `s`, and every other on-screen pixel is as in
      `before`. */
  ghost predicate TileRowsDrawn(s: State, cells: seq<Pixel>, before: seq<Pixel>, x: nat, y: nat, rows: nat)
    requires WellFormed(s) && |cells| == SCREEN_CELLS && |before| == SCREEN_CELLS
  {
    forall px: u8, py: u8 :: px < HORIZONTAL_SCREEN_PIXELS && py < VERTICAL_SCREEN_PIXELS ==>
      cells[Index(px, py)] ==
        if 8 * x <= px < 8 * x + 8 && 8 * y <= py < 8 * y + rows then RenderedPixel(s, px, py)
        else before[Index(px, py)]
  }

  /** Drawing tile row `ytile` from the character RAM of `s` extends the
      rendered part of the tile by that row. */
  lemma DrawTileRowStep(s: State, cells: seq<Pixel>, next: seq<Pixel>, before: seq<Pixel>, x: nat, y: nat, ytile: nat)
    requires WellFormed(s) && |cells| == SCREEN_CELLS && |next| == SCREEN_CELLS && |before| == SCREEN_CELLS
    requires x < HORIZONTAL_SCREEN_PIXELS as nat / 8 && y < VERTICAL_SCREEN_PIXELS as nat / 8 && ytile < 8
    requires TileRowsDrawn(s, cells, before, x, y, ytile)
    requires var start := Index(8 * x, 8 * y + ytile);
             var row := s.bgMapData[y * 32 + x] * 16 + ytile * 2;
             forall i :: 0 <= i < SCREEN_CELLS ==>
               next[i] ==
                 if start <= i < start + 8
                 then Shade(GetBit(s.characterRam[row], 7 - (i - start)), GetBit(s.characterRam[row + 1], 7 - (i - start)))
                 else cells[i]
    ensures TileRowsDrawn(s, next, before, x, y, ytile + 1)
  {
    var start := Index(8 * x, 8 * y + ytile);
    forall px: u8, py: u8 | px < HORIZONTAL_SCREEN_PIXELS && py < VERTICAL_SCREEN_PIXELS
      ensures next[Index(px, py)] ==
                if 8 * x <= px < 8 * x + 8 && 8 * y <= py < 8 * y + ytile + 1 then RenderedPixel(s, px, py)
                else before[Index(px, py)]
    {
      IndexInBounds(px, py);
      if 8 * x <= px < 8 * x + 8 && py == 8 * y + ytile {
        assert start <= Index(px, py) < start + 8;
        RenderedPixelOfTile(s, x, y, px - 8 * x, ytile);
      } else {
        assert !(start <= Index(px, py) < start + 8);
      }
    }
  }

  /** The innermost loop of `get_screen`: row `ytile` of the tile at map
      position (x, y), whose two bytes are `b1` and `b2`, drawn left to right
      into the eight cells from `Index(8 * x, 8 * y + ytile)` on; bit 7 of
      each byte is the leftmost pixel. */
  method DrawTileRow(screen: Screen, x: nat, y: nat, ytile: nat, b1: u8, b2: u8)
    requires screen.Valid()
    requires x < HORIZONTAL_SCREEN_PIXELS as nat / 8 && y < VERTICAL_SCREEN_PIXELS as nat / 8 && ytile < 8
    modifies screen.cells
    ensures var start := Index(8 * x, 8 * y + ytile);
            forall i :: 0 <= i < SCREEN_CELLS ==>
              screen.cells[i] ==
                if start <= i < start + 8 then Shade(GetBit(b1, 7 - (i - start)), GetBit(b2, 7 - (i - start)))
                else old(screen.cells[i])
  {
    ghost var start := Index(8 * x, 8 * y + ytile);
    for xtile: nat := 0 to 8
      invariant forall i :: 0 <= i < SCREEN_CELLS ==>
                  screen.cells[i] ==
                    if start <= i < start + xtile then Shade(GetBit(b1, 7 - (i - start)), GetBit(b2, 7 - (i - start)))
                    else old(screen.cells[i])
    {
      var column := 7 - xtile;
      screen.SetPixel(x * 8 + xtile, y * 8 + ytile, Shade(GetBit(b1, column), GetBit(b2, column)));
    }
  }
}
