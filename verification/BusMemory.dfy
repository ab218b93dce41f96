/** CPU accesses to the bus (core/src/bus.rs, core/src/memory.rs): routing, work RAM banking with its
    echo, I/O registers, and OAM DMA with the access window it blocks. */
module BusMemory {
  import opened Base
  import opened BusModel
  import TimerDevice
  import PpuDevice
  import ApuRange
  import MapperModel

  const DMA_BLOCK_CYCLES := 640

  datatype Route = Rom | Vram | ExternalRam | WorkRam | EchoRam | OamRoute | Unusable | Io | HighRam | InterruptEnable

  function RouteOf(address: word): Route {
    if address < 0x8000 then Rom
    else if address < 0xA000 then Vram
    else if address < 0xC000 then ExternalRam
    else if address < 0xE000 then WorkRam
    else if address < 0xFE00 then EchoRam
    else if address < 0xFEA0 then OamRoute
    else if address < 0xFF00 then Unusable
    else if address < 0xFF80 then Io
    else if address < 0xFFFF then HighRam
    else InterruptEnable
  }

  // ----------------------------------------------------------------- work RAM

  function ActiveWramBank(m: Memory): (bank: int)
    ensures 1 <= bank < 8
  {
    if m.wramBank == 0 then 1 else m.wramBank
  }

  /** The index of a primary work RAM address: the upper half is banked on CGB, bank 0 meaning bank 1. */
  function WramIndex(m: Memory, address: word): (i: int)
    requires 0xC000 <= address < 0xE000
    ensures 0 <= i < 0x8000
  {
    var offset := address - 0xC000;
    if !m.cgbMode || offset < 0x1000 then offset else ActiveWramBank(m) * 0x1000 + (offset - 0x1000)
  }

  predicate WorkAddress(address: word) { 0xC000 <= address < 0xFE00 }

  /** Work RAM and its echo reach the same cells. */
  function WorkCell(m: Memory, address: word): (i: int)
    requires WorkAddress(address)
    ensures 0 <= i < 0x8000
  {
    WramIndex(m, if address >= 0xE000 then address - 0x2000 else address)
  }

  /** The bank and offset a work RAM address names once bank 0 is normalized and the echo folded. */
  function WorkPlace(m: Memory, address: word): (int, int)
    requires WorkAddress(address)
  {
    var primary := if address >= 0xE000 then address - 0x2000 else address;
    if primary < 0xD000 then (0, primary - 0xC000)
    else (if m.cgbMode then ActiveWramBank(m) else 1, primary - 0xD000)
  }

  /** Two accesses meet in a cell exactly when they name the same normalized bank and offset. */
  lemma WorkCellIsPlace(m: Memory, n: Memory, a: word, b: word)
    requires WorkAddress(a) && WorkAddress(b)
    ensures WorkCell(m, a) == WorkCell(n, b) <==> WorkPlace(m, a) == WorkPlace(n, b)
  {
  }

  function WriteSvbk(m: Memory, value: byte): Memory { if m.cgbMode then m.(wramBank := value % 8) else m }

  // -------------------------------------------------------------- I/O registers

  predicate PpuRegister(address: word) {
    0xFF40 <= address <= 0xFF4B || address == 0xFF4F || 0xFF68 <= address <= 0xFF6B
  }

  predicate ApuRegister(address: word) { 0xFF10 <= address <= 0xFF26 || 0xFF30 <= address <= 0xFF3F }

  /** The active-low button lines of the selected rows. */
  function JoypadLines(j: Joypad): bv8 {
    (if j.select & 0x10 == 0 then 0x0F & !(j.pressed >> 4) else 0x0F) &
    (if j.select & 0x20 == 0 then 0x0F & !(j.pressed & 0x0F) else 0x0F)
  }

  function WriteJoypad(b: BusState, value: byte): BusState {
    var j := b.mem.joypad.(select := (value as bv8) & 0x30);
    var falls := JoypadLines(b.mem.joypad) & !JoypadLines(j) & 0x0F != 0;
    b.(mem := b.mem.(joypad := j), iflag := if falls then b.iflag | 0x10 else b.iflag)
  }

  function WriteSerial(s: Serial, address: word, value: byte): Serial {
    if address == 0xFF01 then s.(sb := value)
    else
      var sc: byte := (if value >= 0x80 then 0x80 else 0) + value % 2;
      if sc == 0x81 then
        var incoming: byte := match s.mode
          case Disconnected => 0xFF
          case LocalLoopback => s.sb
          case NetworkedPeer => if s.received == [] then 0xFF else s.received[0];
        s.(sb := incoming, sc := 0x01, sent := s.sent + [s.sb],
           received := if s.mode.NetworkedPeer? && s.received != [] then s.received[1..] else s.received)
      else s.(sc := sc)
  }

  function ReadSpecial(b: BusState, address: word): Option<byte> {
    var m := b.mem;
    if address == 0xFF50 then Some(m.bootRomDisable)
    else if address == 0xFF4C then Some(if m.cgbHardware then 0xFB + (if m.key0Dmg then 4 else 0) else 0xFF)
    else if address == 0xFF4D then
      Some(if m.cgbMode then 0x7E + (if b.doubleSpeed then 0x80 else 0) + (if m.prepareSwitch then 1 else 0) else 0xFF)
    else if address == 0xFF70 then Some(if m.cgbMode then 0xF8 + m.wramBank else 0xFF)
    else if address == 0xFF00 then Some((0xC0 | m.joypad.select | JoypadLines(m.joypad)) as int)
    else if address == 0xFF01 then Some(m.serial.sb)
    else if address == 0xFF02 then Some(0x7E + (if m.serial.sc >= 0x80 then 0x80 else 0) + m.serial.sc % 2)
    else if address == 0xFF0F then Some(b.iflag as int)
    else None
  }

  function ReadIo(b: BusState, address: word): byte
    requires 0xFF00 <= address < 0xFF80
  {
    var special := ReadSpecial(b, address);
    if special.Some? then special.value
    else if ApuRegister(address) then ApuRange.ApuRead(b.apu, address)
    else if 0xFF04 <= address <= 0xFF07 then TimerDevice.TimerRead(b.timer, address)
    else if PpuRegister(address) then PpuDevice.ReadRegister(b.ppu, address)
    else b.mem.io[address - 0xFF00]
  }

  // ------------------------------------------------------------------- reads

  function ReadRomArea(m: Memory, address: word): byte
    requires address < 0x8000
  {
    var overlaid := m.bootRomEnabled && (address < 0x100 || (m.cgbMode && 0x200 <= address < 0x900));
    if overlaid then
      (if m.bootRom.Some? && address < |m.bootRom.value| then m.bootRom.value[address] else 0xFF)
    else MapperModel.ReadRom(m.cartridge, address)
  }

  /** A routed read; `bypass` is the DMA engine's view, which mode 2 and 3 do not block. */
  function ReadRouted(b: BusState, address: word, bypass: bool): byte {
    match RouteOf(address)
    case Rom => ReadRomArea(b.mem, address)
    case Vram =>
      if bypass then b.ppu.video.vram[PpuDevice.VramOffset(b.ppu.video, address)]
      else PpuDevice.ReadVram(b.ppu, address)
    case ExternalRam => MapperModel.ReadRam(b.mem.cartridge, address)
    case WorkRam => b.mem.wram[WorkCell(b.mem, address)]
    case EchoRam => b.mem.wram[WorkCell(b.mem, address)]
    case OamRoute => if bypass then b.ppu.video.oam[address - 0xFE00] else PpuDevice.ReadOam(b.ppu, address)
    case Unusable => 0xFF
    case Io => ReadIo(b, address)
    case HighRam => b.mem.hram[address - 0xFF80]
    case InterruptEnable => b.ie as int
  }

  predicate Blocked(b: BusState, address: word) { b.dma != 0 && !(0xFF80 <= address < 0xFFFF) }

  function Read8(b: BusState, address: word): byte {
    if Blocked(b, address) then 0xFF else ReadRouted(b, address, false)
  }

  // ------------------------------------------------------------------ writes

  /** The masked page clears bit 5 of every source page. */
  function SourcePage(value: byte): byte { if Bit(value, 0x20) then value - 0x20 else value }

  function DmaByte(b: BusState, value: byte, i: int): byte
    requires 0 <= i < 0xA0
  {
    ReadRouted(b, SourcePage(value) * 0x100 + i, true)
  }

  function WithOam(p: Ppu, oam: PpuDevice.Oam): Ppu { p.(video := p.video.(oam := oam)) }

  function StartOamDma(b: BusState, value: byte): BusState {
    b.(ppu := WithOam(b.ppu, seq(0xA0, i requires 0 <= i < 0xA0 => DmaByte(b, value, i))), dma := DMA_BLOCK_CYCLES)
  }

  /** The pending STAT edge of a register write becomes an interrupt request. */
  function CollectStat(b: BusState): BusState {
    b.(iflag := if b.ppu.statPending then b.iflag | 0x02 else b.iflag, ppu := Uncollected(b.ppu))
  }

  function Uncollected(p: Ppu): Ppu { PpuDevice.StatTaken(p) }

  function PpuStored(p: Ppu, address: word, value: byte): Ppu {
    PpuDevice.InvRegister(p, address, value);
    PpuDevice.WriteRegister(p, address, value)
  }

  function WritePpuRegister(b: BusState, address: word, value: byte): BusState {
    var stored := b.(ppu := PpuStored(b.ppu, address, value));
    CollectStat(if address == 0xFF46 then StartOamDma(stored, value) else stored)
  }

  function PpuSetCgb(p: Ppu, on: bool): Ppu {
    p.(video := p.video.(cgb := on, bank := if on then p.video.bank else 0))
  }

  function WriteBootRomDisable(b: BusState, value: byte): BusState {
    var m := b.mem.(bootRomDisable := value);
    if !m.bootRomEnabled || value == 0 then b.(mem := m)
    else if !m.cgbHardware then b.(mem := m.(bootRomEnabled := false))
    else if !m.key0Dmg then b.(mem := m.(bootRomEnabled := false, key0Locked := true))
    else b.(mem := m.(bootRomEnabled := false, key0Locked := true, cgbMode := false, prepareSwitch := false,
                      wramBank := 0),
            doubleSpeed := false, ppu := PpuSetCgb(b.ppu, false))
  }

  function ApuStored(a: Apu, address: word, value: byte): Apu {
    ApuRange.WriteInv(a, address, value);
    ApuRange.ApuWrite(a, address, value)
  }

  function TimerStored(t: Timer, address: word, value: byte): Timer
    requires 0xFF04 <= address <= 0xFF07
  {
    TimerDevice.TimerWrite(t, address, value)
  }

  function GenericStored(m: Memory, address: word, value: byte): (r: Memory)
    requires 0xFF00 <= address < 0xFF80
    ensures r.wram == m.wram
  {
    m.(io := m.io[address - 0xFF00 := value])
  }

  function SerialStored(m: Memory, address: word, value: byte): (r: Memory)
    ensures r.wram == m.wram
  {
    hide WriteSerial;
    m.(serial := WriteSerial(m.serial, address, value))
  }

  /** KEY0, KEY1 and SVBK. */
  function ModeStored(m: Memory, address: word, value: byte): (r: Memory)
    ensures r.wram == m.wram
  {
    if address == 0xFF4C then (if m.cgbHardware && !m.key0Locked then m.(key0Dmg := Bit(value, 4)) else m)
    else if address == 0xFF4D then (if m.cgbMode then m.(prepareSwitch := value % 2 == 1) else m)
    else WriteSvbk(m, value)
  }

  function WriteIo(b: BusState, address: word, value: byte): BusState
    requires 0xFF00 <= address < 0xFF80
  {
    var m := b.mem;
    if address == 0xFF50 then WriteBootRomDisable(b, value)
    else if address == 0xFF4C || address == 0xFF4D || address == 0xFF70 then b.(mem := ModeStored(m, address, value))
    else if address == 0xFF00 then WriteJoypad(b, value)
    else if ApuRegister(address) then b.(apu := ApuStored(b.apu, address, value))
    else if address == 0xFF01 || address == 0xFF02 then b.(mem := SerialStored(m, address, value))
    else if 0xFF04 <= address <= 0xFF07 then b.(timer := TimerStored(b.timer, address, value))
    else if PpuRegister(address) then WritePpuRegister(b, address, value)
    else if address == 0xFF0F then b.(iflag := value as bv8)
    else b.(mem := GenericStored(m, address, value))
  }

  function CartridgeControl(c: Cartridge, address: word, value: byte): Cartridge
    requires address < 0x8000
  {
    MapperModel.WriteControl(c, address, value)
  }

  function CartridgeStore(c: Cartridge, address: word, value: byte): Cartridge
    requires 0xA000 <= address < 0xC000
  {
    MapperModel.WriteRam(c, address, value)
  }

  function VramStored(p: Ppu, address: word, value: byte): Ppu
    requires 0x8000 <= address < 0xA000
  {
    PpuDevice.InvKept(p, PpuDevice.StoreVram(address, value));
    PpuDevice.WriteVram(p, address, value)
  }

  function OamStored(p: Ppu, address: word, value: byte): Ppu
    requires 0xFE00 <= address < 0xFEA0
  {
    PpuDevice.InvKept(p, PpuDevice.StoreOam(address, value));
    PpuDevice.WriteOam(p, address, value)
  }

  function WorkStored(m: Memory, address: word, value: byte): Memory
    requires WorkAddress(address)
  {
    hide WorkCell;
    m.(wram := m.wram[WorkCell(m, address) := value])
  }

  function WriteRouted(b: BusState, address: word, value: byte): BusState {
    var m := b.mem;
    match RouteOf(address)
    case Rom => b.(mem := m.(cartridge := CartridgeControl(m.cartridge, address, value)))
    case Vram => b.(ppu := VramStored(b.ppu, address, value))
    case ExternalRam => b.(mem := m.(cartridge := CartridgeStore(m.cartridge, address, value)))
    case WorkRam => b.(mem := WorkStored(m, address, value))
    case EchoRam => b.(mem := WorkStored(m, address, value))
    case OamRoute => b.(ppu := OamStored(b.ppu, address, value))
    case Unusable => b
    case Io => WriteIo(b, address, value)
    case HighRam => b.(mem := m.(hram := m.hram[address - 0xFF80 := value]))
    case InterruptEnable => b.(ie := value as bv8)
  }

  function Write8(b: BusState, address: word, value: byte): BusState {
    if Blocked(b, address) then b else WriteRouted(b, address, value)
  }

  /** STOP consumes a prepared speed switch. */
  function ConsumeSpeedSwitch(b: BusState): (BusState, bool) {
    if !b.mem.cgbMode || !b.mem.prepareSwitch then (b, false)
    else (b.(mem := b.mem.(prepareSwitch := false), doubleSpeed := !b.doubleSpeed), true)
  }

  // --------------------------------------------------------------- OAM DMA

  /** The masked source page never reaches OAM, the I/O area or the echo. */
  lemma SourceAvoidsOam(value: byte, i: int)
    requires 0 <= i < 0xA0
    ensures RouteOf(SourcePage(value) * 0x100 + i) in {Rom, Vram, WorkRam}
  {
  }

  /** What a DMA source byte depends on: nothing that the copy itself writes. */
  lemma SourceUnaffected(b: BusState, oam: PpuDevice.Oam, value: byte, i: int)
    requires 0 <= i < 0xA0
    ensures DmaByte(b.(ppu := WithOam(b.ppu, oam)), value, i) == DmaByte(b, value, i)
  {
    SourceAvoidsOam(value, i);
    hide PpuDevice.PpuInv, MapperModel.BanksInv, ReadRomArea, WorkCell, SourcePage, RouteOf;
  }

  /** An accepted FF46 write is an atomic snapshot: OAM afterwards holds the 160 bytes that the masked
      page held before the write. */
  lemma DmaIsSnapshot(b: BusState, value: byte)
    requires !Blocked(b, 0xFF46)
    ensures var after := Write8(b, 0xFF46, value);
      after.dma == DMA_BLOCK_CYCLES &&
      forall i | 0 <= i < 0xA0 :: after.ppu.video.oam[i] == ReadRouted(b, SourcePage(value) * 0x100 + i, true)
  {
    assert Write8(b, 0xFF46, value) == WritePpuRegister(b, 0xFF46, value);
    hide Write8;
    var stored := b.(ppu := PpuStored(b.ppu, 0xFF46, value));
    forall i | 0 <= i < 0xA0
      ensures DmaByte(stored, value, i) == DmaByte(b, value, i)
    {
      DmaRegisterUnread(b, value, i);
    }
    hide DmaByte, PpuDevice.PpuInv, PpuStored;
  }

  lemma DmaRegisterUnread(b: BusState, value: byte, i: int)
    requires 0 <= i < 0xA0
    ensures DmaByte(b.(ppu := PpuStored(b.ppu, 0xFF46, value)), value, i) == DmaByte(b, value, i)
  {
    SourceAvoidsOam(value, i);
    assert PpuStored(b.ppu, 0xFF46, value).video == b.ppu.video.(dma := value);
    hide PpuDevice.PpuInv, MapperModel.BanksInv, ReadRomArea, WorkCell, SourcePage, RouteOf, PpuStored;
  }

  // ------------------------------------------------------- runs of bus events

  /** What happens on the bus: clocking, CPU stores at any address, and the speed switch of STOP. */
  datatype BusEvent = Ticks(cycles: nat) | Store(address: word, value: byte) | SpeedSwitch

  function BusApply(b: BusState, e: BusEvent): BusState {
    hide TickForCpuCycles, Write8, ConsumeSpeedSwitch;
    match e
    case Ticks(n) => TickForCpuCycles(b, n)
    case Store(address, value) => Write8(b, address, value)
    case SpeedSwitch => ConsumeSpeedSwitch(b).0
  }

  function BusTrace(b: BusState, es: seq<BusEvent>): BusState {
    hide BusApply;
    if es == [] then b else BusApply(BusTrace(b, es[..|es| - 1]), es[|es| - 1])
  }

  /** CPU cycles that a run of events ticks. */
  function Ticked(es: seq<BusEvent>): nat {
    if es == [] then 0
    else Ticked(es[..|es| - 1]) + (if es[|es| - 1].Ticks? then es[|es| - 1].cycles else 0)
  }

  lemma TickFrame(b: BusState, n: nat)
    ensures var q := TickForCpuCycles(b, n);
      q.mem == b.mem && q.dma == Max(b.dma - n, 0) && q.ppu.video == b.ppu.video
  {
    TickIsAdvance(b, n);
    AdvanceFrame(b, n, n / SpeedDivisor(b));
    hide TickForCpuCycles;
    AdvanceVideo(b, n, n / SpeedDivisor(b));
    hide Advance;
  }

  lemma AdvanceVideo(b: BusState, c: nat, v: nat)
    ensures Advance(b, c, v).ppu.video == b.ppu.video
  {
    hide TimerAfter, ApuAfter, TimerRaised, PpuDevice.PpuRaised, PpuDevice.PpuInv, PpuDevice.PpuRun;
    PpuDevice.PpuRunControls(b.ppu, v);
  }

  lemma SwitchFrame(b: BusState)
    ensures var q := ConsumeSpeedSwitch(b).0;
      q.dma == b.dma && q.ppu == b.ppu && q.mem.wram == b.mem.wram
  {
    hide PpuDevice.PpuInv, MapperModel.BanksInv;
  }

  // ------------------------------------------------------------ the DMA window

  lemma OtherIoKeepsDma(b: BusState, address: word, value: byte)
    requires 0xFF00 <= address < 0xFF80 && address != 0xFF46
    ensures WriteIo(b, address, value).dma == b.dma
  {
    hide PpuStored, Uncollected, ApuStored, TimerStored, WriteSerial, JoypadLines, PpuSetCgb, WriteSvbk,
         PpuDevice.PpuInv, MapperModel.BanksInv;
  }

  lemma OtherStoreKeepsDma(b: BusState, address: word, value: byte)
    requires address != 0xFF46
    ensures Write8(b, address, value).dma == b.dma
  {
    if 0xFF00 <= address < 0xFF80 {
      OtherIoKeepsDma(b, address, value);
    }
    hide WriteIo, VramStored, OamStored, CartridgeControl, CartridgeStore, WorkCell, PpuDevice.PpuInv;
  }

  /** A store while DMA is active reaches high RAM or nothing. */
  lemma StoreInWindow(b: BusState, address: word, value: byte)
    requires b.dma != 0
    ensures var q := Write8(b, address, value);
      q.dma == b.dma && q.ppu == b.ppu && (q == b || 0xFF80 <= address < 0xFFFF)
  {
    hide WriteIo, VramStored, OamStored, CartridgeControl, CartridgeStore, WorkCell, PpuDevice.PpuInv;
  }

  /** DMA is not started again once the window is over. */
  predicate NotRearmed(es: seq<BusEvent>) {
    es == [] ||
    (NotRearmed(es[..|es| - 1]) &&
     (es[|es| - 1].Store? && es[|es| - 1].address == 0xFF46 ==> Ticked(es[..|es| - 1]) < DMA_BLOCK_CYCLES))
  }

  lemma WindowStep(b: BusState, e: BusEvent)
    requires b.dma == 0 ==> !(e.Store? && e.address == 0xFF46)
    ensures var q := BusApply(b, e);
      q.dma == Max(b.dma - (if e.Ticks? then e.cycles else 0), 0) && (b.dma != 0 ==> q.ppu.video == b.ppu.video)
  {
    hide Write8, TickForCpuCycles, ConsumeSpeedSwitch;
    match e
    case Ticks(n) => TickFrame(b, n);
    case Store(address, value) =>
      if b.dma != 0 {
        StoreInWindow(b, address, value);
      } else {
        OtherStoreKeepsDma(b, address, value);
      }
    case SpeedSwitch => SwitchFrame(b);
  }

  lemma {:induction false} WindowRun(b: BusState, es: seq<BusEvent>)
    requires b.dma == DMA_BLOCK_CYCLES && (Ticked(es) < DMA_BLOCK_CYCLES || NotRearmed(es))
    ensures BusTrace(b, es).dma == Max(DMA_BLOCK_CYCLES - Ticked(es), 0)
    ensures Ticked(es) < DMA_BLOCK_CYCLES ==> BusTrace(b, es).ppu.video == b.ppu.video
  {
    hide BusApply;
    if es != [] {
      var before := es[..|es| - 1];
      WindowRun(b, before);
      WindowStep(BusTrace(b, before), es[|es| - 1]);
    }
  }

  /** A read sees 0xFF and a write changes nothing. */
  ghost predicate Refused(b: BusState, address: word, value: byte) {
    Read8(b, address) == 0xFF && Write8(b, address, value) == b
  }

  /** After an accepted FF46 write, over every run of ticks at any mix of speeds, CPU stores at any
      address and speed switches: for exactly 640 ticked CPU cycles every access outside high RAM reads
      0xFF and stores nothing, further FF46 writes included; then, unless DMA is started again, nothing
      is blocked. */
  lemma DmaWindow(b: BusState, value: byte, es: seq<BusEvent>, address: word, stored: byte)
    requires !Blocked(b, 0xFF46) && (Ticked(es) < DMA_BLOCK_CYCLES || NotRearmed(es))
    ensures var later := BusTrace(Write8(b, 0xFF46, value), es);
      (Blocked(later, address) <==> Ticked(es) < DMA_BLOCK_CYCLES && !(0xFF80 <= address < 0xFFFF)) &&
      (Blocked(later, address) ==> Refused(later, address, stored))
  {
    DmaArmed(b, value);
    hide Write8, BusTrace, NotRearmed, Refused, Blocked, Ticked;
    WindowAccess(Write8(b, 0xFF46, value), es, address, stored);
  }

  lemma WindowAccess(b: BusState, es: seq<BusEvent>, address: word, stored: byte)
    requires b.dma == DMA_BLOCK_CYCLES && (Ticked(es) < DMA_BLOCK_CYCLES || NotRearmed(es))
    ensures var later := BusTrace(b, es);
      (Blocked(later, address) <==> Ticked(es) < DMA_BLOCK_CYCLES && !(0xFF80 <= address < 0xFFFF)) &&
      (Blocked(later, address) ==> Refused(later, address, stored))
  {
    hide BusTrace, NotRearmed, Refused, Ticked;
    WindowRun(b, es);
    BlockedAccessIf(BusTrace(b, es), address, stored);
  }

  lemma DmaArmed(b: BusState, value: byte)
    requires !Blocked(b, 0xFF46)
    ensures Write8(b, 0xFF46, value).dma == DMA_BLOCK_CYCLES
  {
    DmaIsSnapshot(b, value);
    hide Write8, ReadRouted, SourcePage;
  }

  /** Over the same runs OAM keeps the snapshot through the whole window. */
  lemma SnapshotSurvivesWindow(b: BusState, value: byte, es: seq<BusEvent>, i: int)
    requires !Blocked(b, 0xFF46) && Ticked(es) < DMA_BLOCK_CYCLES && 0 <= i < 0xA0
    ensures BusTrace(Write8(b, 0xFF46, value), es).ppu.video.oam[i] ==
            ReadRouted(b, SourcePage(value) * 0x100 + i, true)
  {
    DmaIsSnapshot(b, value);
    hide Write8, ReadRouted, SourcePage, BusTrace, NotRearmed;
    WindowRun(Write8(b, 0xFF46, value), es);
  }

  lemma BlockedAccessIf(b: BusState, address: word, value: byte)
    ensures Blocked(b, address) ==> Refused(b, address, value)
  {
    if Blocked(b, address) {
      BlockedAccess(b, address, value);
    }
  }

  lemma BlockedAccess(b: BusState, address: word, value: byte)
    requires Blocked(b, address)
    ensures Read8(b, address) == 0xFF && Write8(b, address, value) == b
  {
    hide ReadRouted, WriteRouted;
  }

  // ------------------------------------------- work RAM refines flat memory

  /** A store that reaches work RAM. */
  predicate StoresWork(b: BusState, e: BusEvent) { e.Store? && WorkAddress(e.address) && !Blocked(b, e.address) }

  predicate Cell(i: int) { 0 <= i < 0x8000 }

  function WorkAt(m: Memory, cell: int): byte
    requires Cell(cell)
  {
    m.wram[cell]
  }

  lemma MemoryStoresKeepWork(m: Memory, address: word, value: byte, cell: int)
    requires 0xFF00 <= address < 0xFF80 && Cell(cell)
    ensures WorkAt(GenericStored(m, address, value), cell) == WorkAt(SerialStored(m, address, value), cell) ==
            WorkAt(ModeStored(m, address, value), cell) == WorkAt(m, cell)
  {
    hide GenericStored, SerialStored, ModeStored;
  }

  lemma PpuStoreKeepsWork(b: BusState, address: word, value: byte, cell: int)
    requires Cell(cell) && PpuRegister(address)
    ensures WorkAt(WriteIo(b, address, value).mem, cell) == WorkAt(b.mem, cell)
  {
    assert WriteIo(b, address, value) == WritePpuRegister(b, address, value);
    hide WorkAt, WriteIo, StartOamDma, PpuStored, Uncollected, DmaByte, PpuDevice.PpuInv, MapperModel.BanksInv;
  }

  lemma SwitchStoreKeepsWork(b: BusState, value: byte, cell: int)
    requires Cell(cell)
    ensures WorkAt(WriteIo(b, 0xFF50, value).mem, cell) == WorkAt(b.mem, cell)
  {
    hide PpuSetCgb, PpuDevice.PpuInv, MapperModel.BanksInv;
  }

  lemma JoypadStoreKeepsWork(b: BusState, value: byte, cell: int)
    requires Cell(cell)
    ensures WorkAt(WriteIo(b, 0xFF00, value).mem, cell) == WorkAt(b.mem, cell)
  {
    hide JoypadLines, PpuDevice.PpuInv, MapperModel.BanksInv;
  }

  lemma DeviceStoreKeepsWork(b: BusState, address: word, value: byte, cell: int)
    requires 0xFF04 <= address <= 0xFF07 || address == 0xFF0F || ApuRegister(address)
    requires Cell(cell)
    ensures WorkAt(WriteIo(b, address, value).mem, cell) == WorkAt(b.mem, cell)
  {
    hide WorkAt, ApuStored, TimerStored, WritePpuRegister, WriteBootRomDisable, WriteJoypad, SerialStored,
         GenericStored, ModeStored;
  }

  lemma MemoryStoreKeepsWork(b: BusState, address: word, value: byte, cell: int)
    requires 0xFF01 <= address < 0xFF80 && address != 0xFF50 && Cell(cell)
    requires !(0xFF04 <= address <= 0xFF07 || address == 0xFF0F || ApuRegister(address) || PpuRegister(address))
    ensures WorkAt(WriteIo(b, address, value).mem, cell) == WorkAt(b.mem, cell)
  {
    MemoryStoresKeepWork(b.mem, address, value, cell);
    hide WorkAt, ApuStored, TimerStored, WritePpuRegister, WriteBootRomDisable, WriteJoypad, SerialStored,
         GenericStored, ModeStored, PpuRegister, ApuRegister;
  }

  lemma IoKeepsWork(b: BusState, address: word, value: byte, cell: int)
    requires 0xFF00 <= address < 0xFF80 && Cell(cell)
    ensures WorkAt(WriteIo(b, address, value).mem, cell) == WorkAt(b.mem, cell)
  {
    hide WriteIo, WorkAt;
    if address == 0xFF00 {
      JoypadStoreKeepsWork(b, value, cell);
    } else if address == 0xFF50 {
      SwitchStoreKeepsWork(b, value, cell);
    } else if PpuRegister(address) {
      PpuStoreKeepsWork(b, address, value, cell);
    } else if 0xFF04 <= address <= 0xFF07 || address == 0xFF0F || ApuRegister(address) {
      DeviceStoreKeepsWork(b, address, value, cell);
    } else {
      MemoryStoreKeepsWork(b, address, value, cell);
    }
  }

  /** What an event leaves in a cell: it changes at most the one that a work RAM store names. */
  function WorkAfter(b: BusState, e: BusEvent, cell: int): byte
    requires Cell(cell)
  {
    hide WorkCell, Blocked;
    if StoresWork(b, e) && WorkCell(b.mem, e.address) == cell then e.value else WorkAt(b.mem, cell)
  }

  lemma PlainStoresKeepWork(m: Memory, address: word, value: byte, c: Cartridge, cell: int)
    requires Cell(cell)
    ensures WorkAt(m.(cartridge := c), cell) == WorkAt(m, cell)
    ensures 0xFF80 <= address < 0xFFFF ==>
      WorkAt(m.(hram := m.hram[address - 0xFF80 := value]), cell) == WorkAt(m, cell)
    ensures WorkAddress(address) ==>
      WorkAt(WorkStored(m, address, value), cell) == if WorkCell(m, address) == cell then value else WorkAt(m, cell)
  {
    hide WorkCell;
  }

  lemma StoreWork(b: BusState, address: word, value: byte, cell: int)
    requires Cell(cell)
    ensures WorkAt(Write8(b, address, value).mem, cell) == WorkAfter(b, Store(address, value), cell)
  {
    if 0xFF00 <= address < 0xFF80 {
      IoKeepsWork(b, address, value, cell);
    } else if address < 0x8000 {
      PlainStoresKeepWork(b.mem, address, value, CartridgeControl(b.mem.cartridge, address, value), cell);
    } else if 0xA000 <= address < 0xC000 {
      PlainStoresKeepWork(b.mem, address, value, CartridgeStore(b.mem.cartridge, address, value), cell);
    } else {
      PlainStoresKeepWork(b.mem, address, value, b.mem.cartridge, cell);
    }
    hide WorkAt, WriteIo, VramStored, OamStored, CartridgeControl, CartridgeStore, WorkCell, WorkStored,
         PpuDevice.PpuInv;
  }

  /** The last value stored to a normalized place, or what it held before. */
  function LastWork(b: BusState, es: seq<BusEvent>, address: word, at: Memory): byte
    requires WorkAddress(address)
  {
    hide BusTrace;
    if es == [] then b.mem.wram[WorkCell(at, address)]
    else
      var before, e := es[..|es| - 1], es[|es| - 1];
      var u := BusTrace(b, before);
      if StoresWork(u, e) && WorkPlace(u.mem, e.address) == WorkPlace(at, address) then e.value
      else LastWork(b, before, address, at)
  }

  lemma {:induction false} WorkCellsAreFlat(b: BusState, es: seq<BusEvent>, address: word, at: Memory)
    requires WorkAddress(address)
    ensures BusTrace(b, es).mem.wram[WorkCell(at, address)] == LastWork(b, es, address, at)
  {
    hide WorkCell, WorkPlace, BusApply, MapperModel.BanksInv, Blocked;
    if es != [] {
      var before, e := es[..|es| - 1], es[|es| - 1];
      WorkCellsAreFlat(b, before, address, at);
      var u := BusTrace(b, before);
      WorkStep(u, e, WorkCell(at, address));
      if StoresWork(u, e) {
        WorkCellIsPlace(u.mem, at, e.address, address);
      }
    }
  }

  lemma WorkStep(b: BusState, e: BusEvent, cell: int)
    requires Cell(cell)
    ensures WorkAt(BusApply(b, e).mem, cell) == WorkAfter(b, e, cell)
  {
    hide Write8, TickForCpuCycles, ConsumeSpeedSwitch, WorkCell, Blocked;
    match e
    case Ticks(n) => TickFrame(b, n);
    case Store(address, value) => StoreWork(b, address, value, cell);
    case SpeedSwitch => SwitchFrame(b);
  }

  /** Over every run of ticks, CPU stores at any address (bank selections by FF70 and the mode switch of
      FF50 among them) and speed switches, a CPU read of work RAM or of its echo is the last value that a
      CPU store brought to the same normalized bank and offset, and 0xFF while DMA blocks it. */
  lemma WorkRamRefinesFlatMemory(b: BusState, es: seq<BusEvent>, address: word)
    requires WorkAddress(address)
    ensures var later := BusTrace(b, es);
      Read8(later, address) == if Blocked(later, address) then 0xFF else LastWork(b, es, address, later.mem)
  {
    var later := BusTrace(b, es);
    WorkCellsAreFlat(b, es, address, later.mem);
    hide BusTrace, WorkCell, LastWork, Blocked, PpuDevice.PpuInv;
  }
}
