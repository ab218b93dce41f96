/** The cartridge as the CPU sees it through the bus (core/src/bus.rs): over every run of bus events the
    ROM is fixed and external RAM is a flat memory behind its banks. */
module BusCartridge {
  import opened Base
  import opened BusModel
  import opened BusMemory
  import PpuDevice
  import MapperModel

  lemma PpuWriteKeepsCartridge(b: BusState, address: word, value: byte)
    ensures WritePpuRegister(b, address, value).mem == b.mem
  {
    hide PpuStored, Uncollected, DmaByte, PpuDevice.PpuInv;
  }

  lemma BootSwitchKeepsCartridge(b: BusState, value: byte)
    ensures WriteBootRomDisable(b, value).mem.cartridge == b.mem.cartridge
  {
    hide PpuSetCgb, PpuDevice.PpuInv, MapperModel.BanksInv;
  }

  lemma JoypadKeepsCartridge(b: BusState, value: byte)
    ensures WriteJoypad(b, value).mem.cartridge == b.mem.cartridge
  {
    hide JoypadLines, PpuDevice.PpuInv, MapperModel.BanksInv;
  }

  lemma RegistersKeepCartridge(m: Memory, address: word, value: byte)
    ensures ModeStored(m, address, value).cartridge == m.cartridge
    ensures SerialStored(m, address, value).cartridge == m.cartridge
    ensures 0xFF00 <= address < 0xFF80 ==> GenericStored(m, address, value).cartridge == m.cartridge
  {
    hide MapperModel.BanksInv;
  }

  lemma IoKeepsCartridge(b: BusState, address: word, value: byte)
    requires 0xFF00 <= address < 0xFF80
    ensures WriteIo(b, address, value).mem.cartridge == b.mem.cartridge
  {
    hide WritePpuRegister, ApuStored, TimerStored, WriteBootRomDisable, WriteJoypad, ModeStored, SerialStored,
         GenericStored, PpuDevice.PpuInv, MapperModel.BanksInv;
    PpuWriteKeepsCartridge(b, address, value);
    BootSwitchKeepsCartridge(b, value);
    JoypadKeepsCartridge(b, value);
    RegistersKeepCartridge(b.mem, address, value);
  }

  /** What a bus event does to the cartridge, as mapper accesses: none or one. */
  function AccessesOf(b: BusState, e: BusEvent): (r: seq<MapperModel.Access>)
    ensures forall x | x in r :: MapperModel.GoodAccess(x)
  {
    if !e.Store? || Blocked(b, e.address) then []
    else if e.address < 0x8000 then [MapperModel.Select(e.address, e.value)]
    else if MapperModel.RamAddress(e.address) then [MapperModel.Store(e.address, e.value)]
    else []
  }

  function CartridgeAccesses(b: BusState, es: seq<BusEvent>): (r: seq<MapperModel.Access>)
    ensures forall x | x in r :: MapperModel.GoodAccess(x)
  {
    hide BusTrace, AccessesOf, MapperModel.GoodAccess;
    if es == [] then []
    else CartridgeAccesses(b, es[..|es| - 1]) + AccessesOf(BusTrace(b, es[..|es| - 1]), es[|es| - 1])
  }

  /** A store that is not blocked reaches the mapper below 8000 and at A000 to BFFF. */
  function CartridgeAfter(c: Cartridge, address: word, value: byte): MapperModel.MapperState {
    if address < 0x8000 then MapperModel.WriteControl(c, address, value)
    else if MapperModel.RamAddress(address) then MapperModel.WriteRam(c, address, value)
    else c
  }

  lemma RoutedOnCartridge(b: BusState, address: word, value: byte)
    ensures WriteRouted(b, address, value).mem.cartridge == CartridgeAfter(b.mem.cartridge, address, value)
  {
    hide WriteIo, VramStored, OamStored, PpuDevice.PpuInv, MapperModel.BanksInv, CartridgeControl, CartridgeStore,
         WorkStored, CartridgeAfter;
    if 0xFF00 <= address < 0xFF80 {
      IoKeepsCartridge(b, address, value);
    }
    MapperStores(b.mem, address, value);
  }

  lemma StoreOnCartridge(b: BusState, address: word, value: byte)
    ensures Write8(b, address, value).mem.cartridge ==
            if Blocked(b, address) then b.mem.cartridge else CartridgeAfter(b.mem.cartridge, address, value)
  {
    hide WriteRouted, CartridgeAfter, Blocked;
    RoutedOnCartridge(b, address, value);
  }

  lemma MapperStores(m: Memory, address: word, value: byte)
    ensures address < 0x8000 ==>
      CartridgeControl(m.cartridge, address, value) == CartridgeAfter(m.cartridge, address, value)
    ensures 0xA000 <= address < 0xC000 ==>
      CartridgeStore(m.cartridge, address, value) == CartridgeAfter(m.cartridge, address, value)
    ensures 0x8000 <= address < 0xA000 || address >= 0xC000 ==>
      CartridgeAfter(m.cartridge, address, value) == m.cartridge
    ensures WorkAddress(address) ==> WorkStored(m, address, value).cartridge == m.cartridge
  {
    hide MapperModel.WriteControl, MapperModel.WriteRam, MapperModel.BanksInv, WorkCell;
  }

  /** One access more, or none. */
  lemma AfterOne(m: MapperModel.MapperState, es: seq<MapperModel.Access>, e: MapperModel.Access)
    requires forall x | x in es :: MapperModel.GoodAccess(x)
    requires MapperModel.GoodAccess(e)
    ensures forall x | x in es + [e] :: MapperModel.GoodAccess(x)
    ensures MapperModel.After(m, es + [e]) == MapperModel.Perform(MapperModel.After(m, es), e)
  {
    assert (es + [e])[..|es|] == es;
    hide MapperModel.Perform;
  }

  lemma {:induction false} CartridgeRuns(b: BusState, es: seq<BusEvent>)
    ensures BusTrace(b, es).mem.cartridge == MapperModel.After(b.mem.cartridge, CartridgeAccesses(b, es))
  {
    hide BusApply, AccessesOf, MapperModel.Perform, MapperModel.GoodAccess, MapperModel.BanksInv;
    if es != [] {
      var before, e := es[..|es| - 1], es[|es| - 1];
      CartridgeRuns(b, before);
      hide MapperModel.After;
      EventOnCartridge(BusTrace(b, before), e, b.mem.cartridge, CartridgeAccesses(b, before));
    }
  }

  lemma EventOnCartridge(b: BusState, e: BusEvent, m: MapperModel.MapperState, es: seq<MapperModel.Access>)
    requires forall x | x in es :: MapperModel.GoodAccess(x)
    requires b.mem.cartridge == MapperModel.After(m, es)
    ensures forall x | x in es + AccessesOf(b, e) :: MapperModel.GoodAccess(x)
    ensures BusApply(b, e).mem.cartridge == MapperModel.After(m, es + AccessesOf(b, e))
  {
    hide Write8, TickForCpuCycles, ConsumeSpeedSwitch, Blocked, MapperModel.BanksInv;
    match e
    case Ticks(n) =>
      TickFrame(b, n);
      assert es + AccessesOf(b, e) == es;
    case SpeedSwitch =>
      SwitchKeepsCartridge(b);
      assert es + AccessesOf(b, e) == es;
    case Store(address, value) =>
      StoreOnCartridge(b, address, value);
      if AccessesOf(b, e) == [] {
        assert es + AccessesOf(b, e) == es;
      } else {
        AfterOne(m, es, AccessesOf(b, e)[0]);
        assert es + AccessesOf(b, e) == es + [AccessesOf(b, e)[0]];
      }
  }

  lemma SwitchKeepsCartridge(b: BusState)
    ensures ConsumeSpeedSwitch(b).0.mem.cartridge == b.mem.cartridge
  {
    hide PpuDevice.PpuInv, MapperModel.BanksInv;
  }

  /** Over every run of ticks, CPU stores at any address (bank and gate selections among them) and speed
      switches a CPU read of external RAM is the last value that a CPU store brought to the cell that
      the mapper now selects, and 0xFF where it selects none or DMA blocks the read. */
  lemma ExternalRamRefinesFlatMemory(b: BusState, es: seq<BusEvent>, address: word)
    requires MapperModel.RamAddress(address)
    ensures var later, m := BusTrace(b, es), b.mem.cartridge;
      var cell := MapperModel.RamCell(later.mem.cartridge, address);
      (cell.Some? ==> m.ram.Some? && cell.value < |m.ram.value|) &&
      Read8(later, address) ==
      if Blocked(later, address) || cell.None? then 0xFF
      else MapperModel.LastStored(m, CartridgeAccesses(b, es), cell.value)
  {
    CartridgeRuns(b, es);
    if b.mem.cartridge.ram.Some? {
      MapperModel.ReadsLastStore(b.mem.cartridge, CartridgeAccesses(b, es), address);
    } else {
      MapperModel.RomNeverChanges(b.mem.cartridge, CartridgeAccesses(b, es));
    }
    hide BusTrace, MapperModel.After, MapperModel.LastStored, Blocked, PpuDevice.PpuInv, MapperModel.BanksInv,
         CartridgeAccesses, MapperModel.SelectedRamBank;
  }

  /** Over the same runs the ROM never changes: a CPU read of it is the byte of the original image that
      the bank registers now select, unless the boot ROM lies over it or DMA blocks it. */
  lemma RomIsFixed(b: BusState, es: seq<BusEvent>, address: word)
    requires address < 0x8000
    ensures var later := BusTrace(b, es);
      later.mem.cartridge.rom == b.mem.cartridge.rom &&
      (!later.mem.bootRomEnabled ==>
        Read8(later, address) ==
        if Blocked(later, address) then 0xFF
        else MapperModel.ReadRom(later.mem.cartridge.(rom := b.mem.cartridge.rom), address))
  {
    CartridgeRuns(b, es);
    MapperModel.RomNeverChanges(b.mem.cartridge, CartridgeAccesses(b, es));
    hide BusTrace, MapperModel.After, MapperModel.LastStored, MapperModel.ReadRom, Blocked, PpuDevice.PpuInv,
         MapperModel.BanksInv, CartridgeAccesses;
  }
}
