/** Which OAM DMA writes copy the page they name (core/src/bus.rs): the source mask clears bit 5 of every
    page, not only of the echo's. */
module DmaPages {
  import opened Base
  import opened BusModel
  import opened BusMemory
  import PpuDevice
  import MapperModel
  import opened StartUp

  /** Whatever the bus holds, the bytes copied for page `value` are that page's. */
  ghost predicate CopiesNamed(value: byte) {
    forall b: BusState, i: int | 0 <= i < 0xA0 :: DmaByte(b, value, i) == ReadRouted(b, value * 0x100 + i, true)
  }

  lemma EchoIsWorkRam(b: BusState, value: byte, i: int)
    requires 0xE0 <= value < 0xFE && 0 <= i < 0xA0
    ensures DmaByte(b, value, i) == ReadRouted(b, value * 0x100 + i, true)
  {
    assert SourcePage(value) == value - 0x20;
    hide PpuDevice.PpuInv;
  }

  lemma UnmaskedPage(value: byte)
    ensures !Bit(value, 0x20) ==> SourcePage(value) == value
    ensures Bit(value, 0x20) ==>
      0x20 <= value < 0x40 || 0x60 <= value < 0x80 || 0xA0 <= value < 0xC0 || 0xE0 <= value
  {
  }

  /** A bus on which the byte at `value * 0x100` differs from the one that is copied. */
  function Telltale(value: byte): BusState {
    hide NewBus;
    var rom: Image := Zeros(0x8000);
    if value < 0x80 then NewBus(rom[value * 0x100 := 1], false)
    else
      var b := NewBus(rom, false);
      if value == 0xFE then b.(mem := b.mem.(wram := b.mem.wram[0x1E00 := 1])) else b
  }

  lemma RomDiffers(value: byte)
    requires 0x20 <= value < 0x40 || 0x60 <= value < 0x80
    ensures DmaByte(Telltale(value), value, 0) != ReadRouted(Telltale(value), value * 0x100, true)
  {
    assert SourcePage(value) == value - 0x20;
    var rom: Image := Zeros(0x8000);
    var b := NewBus(rom[value * 0x100 := 1], false);
    assert b.mem.cartridge == Unmapped(rom[value * 0x100 := 1]) && !b.mem.bootRomEnabled;
    hide NewBus, PpuDevice.PpuInv;
  }

  lemma RamDiffers(value: byte)
    requires 0xA0 <= value < 0xC0
    ensures DmaByte(Telltale(value), value, 0) != ReadRouted(Telltale(value), value * 0x100, true)
  {
    assert SourcePage(value) == value - 0x20;
    var b := NewBus(Zeros(0x8000), false);
    assert b.mem.cartridge == Unmapped(Zeros(0x8000)) && b.ppu.video.vram == Zeros(0x4000) && b.ppu.video.bank == 0;
    hide NewBus, PpuDevice.PpuInv;
  }

  lemma OamDiffers(value: byte)
    requires 0xFE <= value
    ensures DmaByte(Telltale(value), value, 0) != ReadRouted(Telltale(value), value * 0x100, true)
  {
    assert SourcePage(value) == value - 0x20;
    var b := NewBus(Zeros(0x8000), false);
    assert b.ppu.video.oam == Zeros(0xA0) && b.mem.wram == Zeros(0x8000) && !b.mem.cgbMode;
    hide NewBus, PpuDevice.PpuInv;
    if value == 0xFF {
      JoypadReads(b);
    }
  }

  lemma JoypadReads(b: BusState)
    ensures ReadRouted(b, 0xFF00, true) >= 0xC0
  {
    var x := 0xC0 | b.mem.joypad.select | JoypadLines(b.mem.joypad);
    hide JoypadLines, PpuDevice.PpuInv;
    assert x & 0xC0 == 0xC0;
    AtLeast(x);
  }

  lemma AtLeast(x: bv8)
    requires x & 0xC0 == 0xC0
    ensures x as int >= 0xC0
  {
    assert x >= 0xC0;
  }

  /** An OAM DMA write copies the page it names, whatever the bus holds, exactly if bit 5 of the page is
      clear or the page lies in the echo of work RAM. */
  lemma CopiesNamedPageIff(value: byte)
    ensures CopiesNamed(value) <==> !Bit(value, 0x20) || 0xE0 <= value < 0xFE
  {
    UnmaskedPage(value);
    hide SourcePage, Bit, ReadRouted, Telltale;
    if !Bit(value, 0x20) {
    } else if 0xE0 <= value < 0xFE {
      forall b: BusState, i: int | 0 <= i < 0xA0
        ensures DmaByte(b, value, i) == ReadRouted(b, value * 0x100 + i, true)
      {
        EchoIsWorkRam(b, value, i);
      }
    } else {
      if value < 0x80 {
        RomDiffers(value);
      } else if value < 0xC0 {
        RamDiffers(value);
      } else {
        OamDiffers(value);
      }
      hide DmaByte;
      assert ReadRouted(Telltale(value), value * 0x100 + 0, true) == ReadRouted(Telltale(value), value * 0x100, true);
      assert DmaByte(Telltale(value), value, 0) != ReadRouted(Telltale(value), value * 0x100 + 0, true);
    }
  }

  /** Then OAM holds that page's bytes of before the write. */
  lemma SnapshotOfNamedPage(b: BusState, value: byte, i: int)
    requires !Blocked(b, 0xFF46) && CopiesNamed(value) && 0 <= i < 0xA0
    ensures Write8(b, 0xFF46, value).ppu.video.oam[i] == ReadRouted(b, value * 0x100 + i, true)
  {
    DmaIsSnapshot(b, value);
    assert DmaByte(b, value, i) == ReadRouted(b, value * 0x100 + i, true);
    hide Write8, ReadRouted, SourcePage, CopiesNamed;
  }
}
