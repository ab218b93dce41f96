/** The emulator as its constructors leave it (core/src/lib.rs, core/src/bus.rs), and short programs run
    from there: single instructions of a running CPU that no interrupt disturbs. */
module StartUp {
  import opened Base
  import TimerDevice
  import PpuDevice
  import ApuRange
  import Alu
  import MapperModel
  import Opcodes
  import opened BusModel
  import opened BusMemory
  import opened CpuModel
  import CpuControl
  import opened Scheduler

  // ------------------------------------------------------------- constructors

  type Image = s: seq<byte> | |s| == 0x8000 witness Zeros(0x8000)

  /** A 32 KiB cartridge image with `code` at the entry point: its header bytes are zero where the code
      does not reach them, so it is a ROM without mapper and without RAM. */
  function Program(code: seq<byte>): Image
    requires |code| <= 0x34
  {
    seq(0x8000, i => if 0x100 <= i < 0x100 + |code| then code[i - 0x100] else 0)
  }

  function Unmapped(rom: Image): MapperModel.MapperState {
    MapperModel.MapperState(rom, None, false, MapperModel.RomOnly)
  }

  function NewPpu(cgb: bool): Ppu { PpuSetCgb(PpuDevice.INITIAL_PPU, cgb) }

  function NewMemory(rom: Image, cgb: bool): (m: Memory)
    ensures m.cartridge == Unmapped(rom) && !m.bootRomEnabled && m.cgbMode == cgb && !m.prepareSwitch
  {
    Memory(Unmapped(rom), None, false, 0, Zeros(0x8000), Zeros(0x80), Zeros(0x7F), Joypad(0x30, 0),
           Serial(0, 0, Disconnected, [], []), cgb, cgb, false, false, false, 0)
  }

  /** `Bus::new` and `Bus::new_cgb`. */
  function NewBus(rom: Image, cgb: bool): BusState {
    ApuRange.InitialInv();
    hide ApuRange.ApuInv, NewMemory;
    BusState(TimerDevice.INITIAL_TIMER, NewPpu(cgb), ApuRange.INITIAL_APU, 0, 0, 0, false, 0, NewMemory(rom, cgb))
  }

  datatype Setting = Setting(address: word, value: byte)

  const NO_BOOT_DEFAULTS: seq<Setting> :=
    [Setting(0xFF05, 0x00), Setting(0xFF06, 0x00), Setting(0xFF07, 0x00), Setting(0xFF10, 0x80), Setting(0xFF11, 0xBF),
     Setting(0xFF12, 0xF3), Setting(0xFF14, 0xBF), Setting(0xFF16, 0x3F), Setting(0xFF17, 0x00), Setting(0xFF19, 0xBF),
     Setting(0xFF1A, 0x7F), Setting(0xFF1B, 0xFF), Setting(0xFF1C, 0x9F), Setting(0xFF1E, 0xBF), Setting(0xFF20, 0xFF),
     Setting(0xFF21, 0x00), Setting(0xFF22, 0x00), Setting(0xFF23, 0xBF), Setting(0xFF24, 0x77), Setting(0xFF25, 0xF3),
     Setting(0xFF26, 0xF1), Setting(0xFF40, 0x91), Setting(0xFF42, 0x00), Setting(0xFF43, 0x00), Setting(0xFF45, 0x00),
     Setting(0xFF47, 0xFC), Setting(0xFF48, 0xFF), Setting(0xFF49, 0xFF), Setting(0xFF4A, 0x00), Setting(0xFF4B, 0x00),
     Setting(0xFF50, 0x01), Setting(0xFFFF, 0x00)]

  function StartupStored(a: Apu, d: Setting): Apu {
    ApuRange.LoadInv(a, d.address, d.value);
    ApuRange.LoadStartup(a, d.address, d.value)
  }

  /** A default goes to the APU as a start-up load and everywhere else as a write. */
  function ApplyDefault(b: BusState, d: Setting): BusState {
    hide StartupStored, Write8;
    if ApuRegister(d.address) then b.(apu := StartupStored(b.apu, d)) else Write8(b, d.address, d.value)
  }

  function ApplyDefaults(b: BusState, ds: seq<Setting>): BusState {
    hide ApplyDefault;
    if ds == [] then b else ApplyDefault(ApplyDefaults(b, ds[..|ds| - 1]), ds[|ds| - 1])
  }

  /** `Cpu::new_dmg_no_boot` and `Cpu::new_cgb_no_boot`. */
  function NoBootCpu(cgb: bool): CpuState {
    var registers := if cgb then Registers(0x11, Alu.Flags(true, false, false, false), 0, 0, 0xFF, 0x56, 0, 0x0D)
                     else Registers(0x01, Alu.Flags(true, false, true, true), 0, 0x13, 0, 0xD8, 0x01, 0x4D);
    CpuState(registers, 0x100, 0xFFFE, false, false, false, false, false, None, [0, 0, 0], 0)
  }

  /** `Emulator::from_cartridge` and `Emulator::from_cartridge_cgb`. */
  function FromCartridge(rom: Image, cgb: bool): EmulatorState {
    hide NewBus, ApplyDefaults;
    EmulatorState(NoBootCpu(cgb), ApplyDefaults(NewBus(rom, cgb), NO_BOOT_DEFAULTS), 0, 0)
  }

  // ---------------------------------------------------------- the start-up bus

  /** Everything but the PPU and the APU is as constructed, and no timer interrupt is flagged. */
  predicate Fresh(b: BusState, rom: Image, cgb: bool) {
    b.timer == TimerDevice.INITIAL_TIMER && b.iflag & 4 == 0 && b.ie == 0 && b.dma == 0 && !b.doubleSpeed &&
    b.mem == NewMemory(rom, cgb).(bootRomDisable := b.mem.bootRomDisable)
  }

  predicate GoodDefault(d: Setting) {
    ApuRegister(d.address) || (PpuRegister(d.address) && d.address != 0xFF46) ||
    d in {Setting(0xFF05, 0), Setting(0xFF06, 0), Setting(0xFF07, 0), Setting(0xFF50, 1), Setting(0xFFFF, 0)}
  }

  lemma PpuDefault(b: BusState, d: Setting)
    requires PpuRegister(d.address) && d.address != 0xFF46
    ensures var q := WritePpuRegister(b, d.address, d.value);
      q.timer == b.timer && q.iflag & 4 == b.iflag & 4 && q.ie == b.ie && q.dma == b.dma &&
      q.doubleSpeed == b.doubleSpeed && q.mem == b.mem
  {
    hide PpuStored, Uncollected, PpuDevice.PpuInv;
  }

  lemma DefaultKeepsFresh(b: BusState, d: Setting, rom: Image, cgb: bool)
    requires Fresh(b, rom, cgb) && GoodDefault(d)
    ensures Fresh(ApplyDefault(b, d), rom, cgb)
  {
    hide PpuStored, Uncollected, PpuDevice.PpuInv, StartupStored, WritePpuRegister, ApuStored, ApuRange.ApuInv,
         NewMemory;
    if PpuRegister(d.address) {
      PpuDefault(b, d);
    }
  }

  lemma {:induction false} DefaultsKeepFresh(b: BusState, ds: seq<Setting>, rom: Image, cgb: bool)
    requires Fresh(b, rom, cgb) && forall i | 0 <= i < |ds| :: GoodDefault(ds[i])
    ensures Fresh(ApplyDefaults(b, ds), rom, cgb)
  {
    hide Fresh, GoodDefault, ApplyDefault;
    if ds != [] {
      var n := |ds| - 1;
      DefaultsKeepFresh(b, ds[..n], rom, cgb);
      DefaultKeepsFresh(ApplyDefaults(b, ds[..n]), ds[n], rom, cgb);
    }
  }

  lemma DefaultsAreGood()
    ensures forall i | 0 <= i < |NO_BOOT_DEFAULTS| :: GoodDefault(NO_BOOT_DEFAULTS[i])
  {
  }

  /** The start-up state: interrupts off, nothing enabled, timer stopped, no DMA, the image mapped. */
  lemma StartsFresh(rom: Image, cgb: bool)
    ensures Fresh(FromCartridge(rom, cgb).bus, rom, cgb)
  {
    DefaultsAreGood();
    assert Fresh(NewBus(rom, cgb), rom, cgb);
    hide Fresh, NewBus, ApplyDefaults, GoodDefault, NO_BOOT_DEFAULTS;
    DefaultsKeepFresh(NewBus(rom, cgb), NO_BOOT_DEFAULTS, rom, cgb);
  }

  // ------------------------------------------------------- single instructions

  /** What is tracked of a running CPU and its bus. */
  datatype View = View(r: Registers, pc: word, sp: word, mem: Memory, ie: bv8, timer: Timer, double: bool)

  predicate Mapped(mem: Memory, rom: Image) { mem.cartridge == Unmapped(rom) && !mem.bootRomEnabled }

  /** The CPU runs with interrupts off, at most the timer interrupt is enabled, and none is flagged. */
  predicate Stage(m: Core, v: View) {
    var c, b := m.cpu, m.bus;
    !c.halted && !c.locked && !c.ime && !c.imePending && !c.haltBug && c.r == v.r && c.pc == v.pc && c.sp == v.sp &&
    b.mem == v.mem && b.ie == v.ie && b.timer == v.timer && b.doubleSpeed == v.double && b.dma == 0 &&
    b.iflag & 4 == 0 && (v.ie == 0 || v.ie == 4)
  }

  /** One step of the scheduler's loop: the instruction and its ticks. */
  function Moved(m: Core): Core {
    hide Step, TickLong;
    var r := Step(Dispatch, m.cpu, m.bus);
    Core(r.cpu, TickLong(r.bus, r.cycles))
  }

  lemma ImageRead(m: Core, v: View, rom: Image, address: word)
    requires Stage(m, v) && Mapped(v.mem, rom) && address < 0x8000
    ensures BusMemory.Read8(m.bus, address) == rom[address]
  {
    hide PpuDevice.PpuInv;
  }

  /** The CPU after fetching the opcode. */
  function Opened(c: CpuState, b: BusState): CpuState {
    hide Fetch8;
    Fetch8(c.(fetchCount := 0), b).cpu
  }

  lemma Opens(m: Core, v: View, rom: Image, op: byte)
    requires Stage(m, v) && Mapped(v.mem, rom) && v.pc < 0x7FFD && rom[v.pc] == op != 0xCB
    ensures Step(Dispatch, m.cpu, m.bus) == ExecuteOpcode(Opened(m.cpu, m.bus), m.bus, op, Pending(m.bus), false)
    ensures Stage(Core(Opened(m.cpu, m.bus), m.bus), v.(pc := v.pc + 1)) && Opened(m.cpu, m.bus).fetchCount == 1
    ensures Pending(m.bus) == 0
  {
    var c := m.cpu.(fetchCount := 0);
    ImageRead(m, v, rom, v.pc);
    CpuControl.NoDispatch(m.cpu, m.bus);
    hide BusMemory.Read8, Step, ExecuteOpcode;
    assert c.(imePending := false) == c;
  }

  lemma Operand(m: Core, v: View, rom: Image)
    requires Stage(m, v) && Mapped(v.mem, rom) && v.pc < 0x7FFD && m.cpu.fetchCount == 1
    ensures var f := Fetch8(m.cpu, m.bus);
      f.value == rom[v.pc] && Stage(Core(f.cpu, m.bus), v.(pc := v.pc + 1)) &&
      f.cpu.fetchCount == 2 && f.cpu.fetchBytes[1] == rom[v.pc]
    ensures var f := Fetch16(m.cpu, m.bus);
      f.value == Word(rom[v.pc + 1], rom[v.pc]) && Stage(Core(f.cpu, m.bus), v.(pc := v.pc + 2))
  {
    ImageRead(m, v, rom, v.pc);
    ImageRead(m, v, rom, v.pc + 1);
    hide BusMemory.Read8, Mapped;
  }

  lemma ProgramMetadata()
    ensures Opcodes.MetadataFor(0x00) == Some(Opcodes.Plain(0x00, Opcodes.Nop, 4))
    ensures Opcodes.MetadataFor(0x10) == Some(Opcodes.With8(0x10, Opcodes.Stop, Opcodes.Imm8, Opcodes.Fixed(4)))
    ensures Opcodes.MetadataFor(0x21) == Some(Opcodes.With16(0x21, Opcodes.Ld16Imm, Opcodes.R16(2), 12))
    ensures Opcodes.MetadataFor(0x3E) ==
            Some(Opcodes.With8(0x3E, Opcodes.Ld8Imm, Opcodes.R8(7), Opcodes.MemoryOperand(8, 12)))
    ensures Opcodes.MetadataFor(0xE0) == Some(Opcodes.With8(0xE0, Opcodes.LdhImmFromA, Opcodes.Imm8, Opcodes.Fixed(12)))
    ensures Opcodes.MetadataFor(0xE5) == Some(Opcodes.With16(0xE5, Opcodes.Push, Opcodes.StackR16(2), 16))
  {
  }

  lemma LoadsA(m: Core, v: View, rom: Image)
    requires Stage(m, v) && Mapped(v.mem, rom) && v.pc < 0x7FFC && rom[v.pc] == 0x3E
    ensures var r := Step(Dispatch, m.cpu, m.bus);
      Stage(Core(r.cpu, r.bus), v.(r := v.r.(a := rom[v.pc + 1]), pc := v.pc + 2)) && r.cycles == 8
  {
    hide Step, Fetch8, Fetch16, Opened, Opcodes.MetadataFor, Mapped, Pending;
    Opens(m, v, rom, 0x3E);
    Operand(Core(Opened(m.cpu, m.bus), m.bus), v.(pc := v.pc + 1), rom);
    ProgramMetadata();
  }

  function HighPage(port: int): word
    requires 0 <= port < 0x100
  {
    0xFF00 + port
  }

  lemma StoresHigh(m: Core, v: View, rom: Image)
    requires Stage(m, v) && Mapped(v.mem, rom) && v.pc < 0x7FFC && rom[v.pc] == 0xE0
    ensures var r := Step(Dispatch, m.cpu, m.bus);
      Stage(Core(r.cpu, m.bus), v.(pc := v.pc + 2)) && r.cycles == 12 &&
      r.bus == BusMemory.Write8(m.bus, HighPage(rom[v.pc + 1]), v.r.a)
  {
    hide Step, Fetch8, Fetch16, Opened, Opcodes.MetadataFor, Mapped, Pending;
    Opens(m, v, rom, 0xE0);
    Operand(Core(Opened(m.cpu, m.bus), m.bus), v.(pc := v.pc + 1), rom);
    ProgramMetadata();
  }

  lemma LoadsHl(m: Core, v: View, rom: Image)
    requires Stage(m, v) && Mapped(v.mem, rom) && v.pc < 0x7FFB && rom[v.pc] == 0x21
    ensures var r := Step(Dispatch, m.cpu, m.bus);
      Stage(Core(r.cpu, r.bus), v.(r := v.r.(h := rom[v.pc + 2], l := rom[v.pc + 1]), pc := v.pc + 3)) && r.cycles == 12
  {
    hide Step, Fetch8, Fetch16, Opened, Opcodes.MetadataFor, Mapped, Pending;
    Opens(m, v, rom, 0x21);
    Operand(Core(Opened(m.cpu, m.bus), m.bus), v.(pc := v.pc + 1), rom);
    ProgramMetadata();
  }

  lemma PushesHl(m: Core, v: View, rom: Image)
    requires Stage(m, v) && Mapped(v.mem, rom) && v.pc < 0x7FFD && rom[v.pc] == 0xE5
    ensures var r := Step(Dispatch, m.cpu, m.bus);
      Stage(Core(r.cpu, m.bus), v.(pc := v.pc + 1, sp := Wrap(Wrap(v.sp - 1) - 1))) && r.cycles == 16 &&
      r.bus == BusMemory.Write8(BusMemory.Write8(m.bus, Wrap(v.sp - 1), v.r.h), Wrap(Wrap(v.sp - 1) - 1), v.r.l)
  {
    hide Step, Fetch8, Opened, Mapped, Pending, BusMemory.Write8, Word, Push16, Wrap, ExecuteOpcode, Stage,
         Opcodes.GoodCost;
    Opens(m, v, rom, 0xE5);
    var o := Core(Opened(m.cpu, m.bus), m.bus);
    PushExecutes(o, Pending(m.bus));
    Pushed(o, v.r.h, v.r.l);
    StackMoves(o, v.(pc := v.pc + 1), Wrap(Wrap(v.sp - 1) - 1));
  }

  lemma StackMoves(m: Core, v: View, sp: word)
    requires Stage(m, v)
    ensures Stage(Core(m.cpu.(sp := sp), m.bus), v.(sp := sp)) && m.cpu.r == v.r && m.cpu.sp == v.sp
  {
  }

  lemma PushExecutes(m: Core, pending: bv8)
    ensures var r, p := ExecuteOpcode(m.cpu, m.bus, 0xE5, pending, false), Push16(m, Word(m.cpu.r.h, m.cpu.r.l));
      r.cpu == p.cpu && r.bus == p.bus && r.cycles == 16
  {
    ProgramMetadata();
    hide Opcodes.MetadataFor, BusMemory.Write8, Word, Push16, ExecuteLoad, ExecuteDirectLoad, ExecuteByte, ExecuteJump,
         ExecuteCb, ExecuteControl, WritePair, WriteStackPair, AddToHl, SpPlus, Pop16, Fetch8, Fetch16, ExecuteWide;
    var meta := Opcodes.With16(0xE5, Opcodes.Push, Opcodes.StackR16(2), 16);
    PushWide(meta, m);
    assert Execute(meta, m, pending, false, false) == ExecuteWide(meta, m);
  }

  lemma PushWide(meta: Opcodes.Metadata, m: Core)
    requires meta == Opcodes.With16(0xE5, Opcodes.Push, Opcodes.StackR16(2), 16)
    ensures Opcodes.Executable(meta) && ExecuteWide(meta, m) == Push16(m, Word(m.cpu.r.h, m.cpu.r.l))
  {
    hide BusMemory.Write8, Word, Push16, WritePair, WriteStackPair, AddToHl, SpPlus, Pop16, Fetch8, Fetch16;
  }

  lemma Pushed(m: Core, high: byte, low: byte)
    ensures var sp1 := Wrap(m.cpu.sp - 1);
      var sp2 := Wrap(sp1 - 1);
      Push16(m, Word(high, low)) ==
      Core(m.cpu.(sp := sp2), BusMemory.Write8(BusMemory.Write8(m.bus, sp1, high), sp2, low))
  {
    assert Word(high, low) / 0x100 == high && Word(high, low) % 0x100 == low;
    hide BusMemory.Write8;
  }

  lemma DoesNothing(m: Core, v: View, rom: Image)
    requires Stage(m, v) && Mapped(v.mem, rom) && v.pc < 0x7FFD && rom[v.pc] == 0x00
    ensures var r := Step(Dispatch, m.cpu, m.bus);
      Stage(Core(r.cpu, r.bus), v.(pc := v.pc + 1)) && r.cycles == 4
  {
    hide Step, Fetch8, Opened, Opcodes.MetadataFor, Mapped, Pending;
    Opens(m, v, rom, 0x00);
    ProgramMetadata();
  }

  /** HALT with nothing pending. */
  lemma Halts(m: Core, v: View, rom: Image)
    requires Stage(m, v) && Mapped(v.mem, rom) && v.pc < 0x7FFD && rom[v.pc] == 0x76
    ensures var r := Step(Dispatch, m.cpu, m.bus);
      r.cpu.halted && Stage(Core(r.cpu.(halted := false), r.bus), v.(pc := v.pc + 1)) && r.bus == m.bus && r.cycles == 4
  {
    hide Step, Fetch8, Opened, Opcodes.MetadataFor, Mapped, Pending;
    Opens(m, v, rom, 0x76);
    CpuControl.HaltMetadata();
  }

  lemma Stops(m: Core, v: View, rom: Image)
    requires Stage(m, v) && Mapped(v.mem, rom) && v.pc < 0x7FFC && rom[v.pc] == 0x10
    requires v.mem.cgbMode && v.mem.prepareSwitch
    ensures var r := Step(Dispatch, m.cpu, m.bus);
      Stage(Core(r.cpu, r.bus), v.(pc := v.pc + 2, mem := v.mem.(prepareSwitch := false), double := !v.double)) &&
      r.cycles == 4
  {
    hide Step, Fetch8, Fetch16, Opened, Opcodes.MetadataFor, Mapped, Pending;
    Opens(m, v, rom, 0x10);
    Operand(Core(Opened(m.cpu, m.bus), m.bus), v.(pc := v.pc + 1), rom);
    ProgramMetadata();
  }

  // ---------------------------------------------------------------- their ticks

  /** No interrupt of the timer within `n` cycles: it is stopped, or in its slowest rate away from an edge. */
  predicate QuietFor(t: Timer, n: nat) {
    t.reload.None? && (t.tac < 4 || (t.tac == 4 && t.divider % 1024 + n < 1024))
  }

  function Later(t: Timer, n: nat): Timer { t.(divider := (t.divider + n) % 0x1_0000) }

  lemma QuietTimer(t: Timer, n: nat)
    requires QuietFor(t, n)
    ensures TimerDevice.TimerRun(t, n) == Later(t, n) && TimerRaised(t, n) == 0
  {
    hide TimerDevice.Next, TimerDevice.RaisesIrq, TimerDevice.TimerRun, TimerRaised, TimerDevice.Irqs;
    if t.tac < 4 {
      TimerDevice.IdleTimer(t, n);
      IdleTimerRaisesNothing(t, n);
    } else {
      TimerDevice.CountingPhase(t, n);
      TimerDevice.CrossingsBelow(t.divider, 1024, 1, n);
      RaisedIffIrqs(t, n);
    }
  }

  /** The timer flags its interrupt exactly if it raises one. */
  lemma {:induction false} RaisedIffIrqs(t: Timer, n: nat)
    ensures TimerRaised(t, n) == if TimerDevice.Irqs(t, n) == 0 then 0 else 4
  {
    hide TimerDevice.Next, TimerDevice.RaisesIrq;
    if n > 0 {
      RaisedIffIrqs(t, n - 1);
    }
  }

  lemma PpuFlags(p: Ppu, n: nat)
    ensures PpuDevice.PpuRaised(p, n) & 4 == 0
  {
    hide PpuDevice.Next, PpuDevice.PpuInv;
    if n > 0 {
      PpuFlags(p, n - 1);
    }
  }

  lemma NoTimerFlag(f: bv8, t: bv8, p: bv8)
    requires f & 4 == 0 && p & 4 == 0
    ensures (f | t | p) & 4 == t & 4
  {
  }

  lemma StageTicks(m: Core, v: View, n: nat)
    requires Stage(m, v) && QuietFor(v.timer, n) && n <= 24
    ensures Stage(Core(m.cpu, TickLong(m.bus, n)), v.(timer := Later(v.timer, n)))
  {
    var b := m.bus;
    ShortTick(b, n);
    TickIsAdvance(b, n);
    var video := n / SpeedDivisor(b);
    AdvanceFrame(b, n, video);
    QuietTimer(b.timer, n);
    PpuFlags(b.ppu, video);
    NoTimerFlag(b.iflag, TimerRaised(b.timer, n), PpuDevice.PpuRaised(b.ppu, video));
    hide TickLong, TickForCpuCycles, PpuDevice.PpuRaised, TimerRaised, TimerDevice.TimerRun, PpuAfter, ApuAfter;
  }

  /** An instruction and its ticks. */
  lemma Moves(m: Core, v: View, k: nat)
    requires var r := Step(Dispatch, m.cpu, m.bus);
      Stage(Core(r.cpu, r.bus), v) && r.cycles == k && k <= 24
    requires QuietFor(v.timer, k)
    ensures Stage(Moved(m), v.(timer := Later(v.timer, k)))
  {
    hide Step, Stage, TickLong, QuietFor;
    var r := Step(Dispatch, m.cpu, m.bus);
    StageTicks(Core(r.cpu, r.bus), v, k);
  }

  /** One iteration of the loop with a running CPU. */
  lemma Runs(m: Core, available: nat, target: nat)
    requires !m.cpu.halted && available < target
    ensures RunTo(Dispatch, m.cpu, m.bus, available, target) ==
            RunTo(Dispatch, Moved(m).cpu, Moved(m).bus, available + Step(Dispatch, m.cpu, m.bus).cycles, target)
  {
    hide Step, TickLong;
  }

  // ------------------------------------------------ batching fails from start-up

  predicate CodeAt(rom: Image, at: int, code: seq<byte>)
    requires 0 <= at && at + |code| <= 0x8000
  {
    forall k | 0 <= k < |code| :: rom[at + k] == code[k]
  }

  lemma ProgramCode(code: seq<byte>)
    requires |code| <= 0x34
    ensures CodeAt(Program(code), 0x100, code)
  {
  }

  function StartCore(rom: Image, cgb: bool): Core {
    hide FromCartridge, NoBootCpu;
    Core(NoBootCpu(cgb), FromCartridge(rom, cgb).bus)
  }

  lemma StartStage(rom: Image, cgb: bool)
    ensures var m := StartCore(rom, cgb);
      Stage(m, View(m.cpu.r, 0x100, 0xFFFE, m.bus.mem, 0, TimerDevice.INITIAL_TIMER, false)) &&
      Mapped(m.bus.mem, rom) && m.bus.mem.cgbMode == cgb
    ensures var e := FromCartridge(rom, cgb);
      e.cpu == StartCore(rom, cgb).cpu && e.bus == StartCore(rom, cgb).bus && e.total == 0 && e.carry == 0
  {
    StartsFresh(rom, cgb);
    var e := FromCartridge(rom, cgb);
    assert e.cpu == NoBootCpu(cgb) && e.total == 0 && e.carry == 0;
    hide FromCartridge, NewMemory;
  }

  /** A write to KEY1 prepares the speed switch. */
  lemma PreparesSwitch(m: Core, v: View)
    requires Stage(m, v) && v.mem.cgbMode
    ensures Stage(Core(m.cpu, BusMemory.Write8(m.bus, 0xFF4D, 1)), v.(mem := v.mem.(prepareSwitch := true)))
  {
    hide PpuDevice.PpuInv;
  }

  /** An instruction that leaves `v` and took `k` cycles, in the loop. */
  lemma Iterates(m: Core, v: View, k: nat, available: nat, target: nat)
    requires var r := Step(Dispatch, m.cpu, m.bus);
      Stage(Core(r.cpu, r.bus), v) && r.cycles == k && k <= 24
    requires QuietFor(v.timer, k) && !m.cpu.halted && available < target
    ensures Stage(Moved(m), v.(timer := Later(v.timer, k)))
    ensures RunTo(Dispatch, m.cpu, m.bus, available, target) ==
            RunTo(Dispatch, Moved(m).cpu, Moved(m).bus, available + k, target)
  {
    hide Step, Stage, TickLong, QuietFor, Moved, RunTo;
    Moves(m, v, k);
    Runs(m, available, target);
  }

  /** LD A,1; LDH (4D),A; STOP; HALT: switch to double speed and halt. */
  const SPEED_CODE: seq<byte> := [0x3E, 0x01, 0xE0, 0x4D, 0x10, 0x00, 0x76]

  lemma SpeedLoad(m: Core, v: View, rom: Image)
    requires Stage(m, v) && Mapped(v.mem, rom) && v.pc == 0x100 && rom[0x100] == 0x3E && rom[0x101] == 1
    requires v.timer == TimerDevice.INITIAL_TIMER
    ensures Stage(Moved(m), v.(r := v.r.(a := 1), pc := 0x102, timer := Later(v.timer, 8)))
    ensures RunTo(Dispatch, m.cpu, m.bus, 0, 28) == RunTo(Dispatch, Moved(m).cpu, Moved(m).bus, 8, 28)
  {
    LoadsA(m, v, rom);
    assert !m.cpu.halted;
    hide Step, Stage, TickLong, Moved, RunTo, Mapped;
    Iterates(m, v.(r := v.r.(a := 1), pc := 0x102), 8, 0, 28);
  }

  lemma SpeedStore(m: Core, v: View, rom: Image)
    requires Stage(m, v) && Mapped(v.mem, rom) && v.pc == 0x102 && rom[0x102] == 0xE0 && rom[0x103] == 0x4D
    requires v.r.a == 1 && v.mem.cgbMode && QuietFor(v.timer, 12)
    ensures Stage(Moved(m), v.(pc := 0x104, mem := v.mem.(prepareSwitch := true), timer := Later(v.timer, 12)))
    ensures RunTo(Dispatch, m.cpu, m.bus, 8, 28) == RunTo(Dispatch, Moved(m).cpu, Moved(m).bus, 20, 28)
  {
    StoresHigh(m, v, rom);
    assert !m.cpu.halted;
    var r := Step(Dispatch, m.cpu, m.bus);
    hide Step, TickLong, Moved, RunTo, Mapped, BusMemory.Write8, Stage;
    PreparesSwitch(Core(r.cpu, m.bus), v.(pc := 0x104));
    Iterates(m, v.(pc := 0x104, mem := v.mem.(prepareSwitch := true)), 12, 8, 28);
  }

  lemma SpeedStop(m: Core, v: View, rom: Image)
    requires Stage(m, v) && Mapped(v.mem, rom) && v.pc == 0x104 && rom[0x104] == 0x10
    requires v.mem.cgbMode && v.mem.prepareSwitch && QuietFor(v.timer, 4)
    ensures Stage(Moved(m), v.(pc := 0x106, mem := v.mem.(prepareSwitch := false), double := !v.double,
                               timer := Later(v.timer, 4)))
    ensures RunTo(Dispatch, m.cpu, m.bus, 20, 28) == RunTo(Dispatch, Moved(m).cpu, Moved(m).bus, 24, 28)
  {
    Stops(m, v, rom);
    assert !m.cpu.halted;
    hide Step, TickLong, Moved, RunTo, Mapped, Stage;
    Iterates(m, v.(pc := 0x106, mem := v.mem.(prepareSwitch := false), double := !v.double), 4, 20, 28);
  }

  lemma SpeedHalt(m: Core, v: View, rom: Image)
    requires Stage(m, v) && Mapped(v.mem, rom) && v.pc == 0x106 && rom[0x106] == 0x76
    requires v.timer.tac == 0 && v.timer.reload.None? && v.ie == 0 && v.double
    ensures var r := RunTo(Dispatch, m.cpu, m.bus, 24, 28);
      CanSkip(r.cpu, r.bus) && r.bus.doubleSpeed && r.available == 28
  {
    Halts(m, v, rom);
    var r := Step(Dispatch, m.cpu, m.bus);
    var w := v.(pc := 0x107);
    StageTicks(Core(r.cpu.(halted := false), r.bus), w, 4);
    Runs(m, 24, 28);
    hide Step, TickLong, Mapped, TickForCpuCycles;
    RunDone(Dispatch, Moved(m).cpu, Moved(m).bus, 28, 28);
    hide RunTo;
  }

  /** The run reaches a halt that can be skipped, in double speed and without carry. */
  lemma SpeedRun()
    ensures var e := StepCycles(Dispatch, FromCartridge(Program(SPEED_CODE), true), 28);
      CanSkip(e.cpu, e.bus) && e.bus.doubleSpeed && e.carry == 0
  {
    var rom := Program(SPEED_CODE);
    SpeedBytes();
    StartStage(rom, true);
    hide Stage, Program, FromCartridge, Moved, Step, TickLong, RunTo, CanSkip, Mapped;
    var m0 := StartCore(rom, true);
    var v0 := View(m0.cpu.r, 0x100, 0xFFFE, m0.bus.mem, 0, TimerDevice.INITIAL_TIMER, false);
    SpeedLoad(m0, v0, rom);
    var v1 := v0.(r := v0.r.(a := 1), pc := 0x102, timer := Later(v0.timer, 8));
    SpeedStore(Moved(m0), v1, rom);
    var v2 := v1.(pc := 0x104, mem := v1.mem.(prepareSwitch := true), timer := Later(v1.timer, 12));
    SpeedStop(Moved(Moved(m0)), v2, rom);
    SpeedHalt(Moved(Moved(Moved(m0))),
              v2.(pc := 0x106, mem := v2.mem.(prepareSwitch := false), double := true, timer := Later(v2.timer, 4)),
              rom);
  }

  lemma SpeedBytes()
    ensures var rom := Program(SPEED_CODE);
      rom[0x100] == 0x3E && rom[0x101] == 1 && rom[0x102] == 0xE0 && rom[0x103] == 0x4D && rom[0x104] == 0x10 &&
      rom[0x106] == 0x76
  {
    ProgramCode(SPEED_CODE);
    var rom := Program(SPEED_CODE);
    hide Program;
    assert rom[0x100 + 0] == 0x3E && rom[0x100 + 1] == 1 && rom[0x100 + 2] == 0xE0 && rom[0x100 + 3] == 0x4D;
    assert rom[0x100 + 4] == 0x10 && rom[0x100 + 6] == 0x76;
  }

  /** The failing input of batching, from start-up: a CGB cartridge that switches to double speed and
      halts, run for 28 cycles and then for 2^32 - 1 at once or in two halves. */
  lemma BatchingFails()
    ensures var e := StepCycles(Dispatch, FromCartridge(Program(SPEED_CODE), true), 28);
      StepCycles(Dispatch, StepCycles(Dispatch, e, 0x8000_0000), 0x7FFF_FFFF) != StepCycles(Dispatch, e, 0xFFFF_FFFF)
  {
    SpeedRun();
    hide StepCycles, CanSkip, FromCartridge, Program;
    BatchingFailsBeyondBound(Dispatch, StepCycles(Dispatch, FromCartridge(Program(SPEED_CODE), true), 28));
  }
}
