/** The bus (core/src/bus.rs and core/src/memory.rs): address routing, banked work RAM, OAM DMA, speed
    switching and the clocking of the devices. */
module BusModel {
  import opened Base
  import TimerDevice
  import PpuDevice
  import ApuDevice
  import ApuRange
  import MapperModel

  type Timer = t: TimerDevice.TimerState | TimerDevice.TimerInv(t) witness TimerDevice.INITIAL_TIMER
  type Ppu = p: PpuDevice.PpuState | PpuDevice.PpuInv(p) witness PpuDevice.INITIAL_PPU
  type Apu = a: ApuDevice.ApuState | ApuRange.ApuInv(a) witness (ApuRange.InitialInv(); ApuRange.INITIAL_APU)
  type Cartridge = m: MapperModel.MapperState | MapperModel.BanksInv(m.banks)
    witness MapperModel.MapperState([], None, false, MapperModel.RomOnly)
  type Wram = s: seq<byte> | |s| == 0x8000 witness Zeros(0x8000)
  type IoRegisters = s: seq<byte> | |s| == 0x80 witness Zeros(0x80)
  type Hram = s: seq<byte> | |s| == 0x7F witness Zeros(0x7F)
  type WramBank = x: int | 0 <= x < 8
  type DmaCycles = x: int | 0 <= x <= 640

  datatype Joypad = Joypad(select: bv8, pressed: bv8)

  datatype SerialMode = Disconnected | LocalLoopback | NetworkedPeer

  datatype Serial = Serial(sb: byte, sc: byte, mode: SerialMode, sent: seq<byte>, received: seq<byte>)

  /** Memory and mode registers that no clock cycle touches. */
  datatype Memory = Memory(cartridge: Cartridge, bootRom: Option<seq<byte>>, bootRomEnabled: bool, bootRomDisable: byte,
                           wram: Wram, io: IoRegisters, hram: Hram, joypad: Joypad, serial: Serial,
                           cgbHardware: bool, cgbMode: bool, key0Dmg: bool, key0Locked: bool,
                           prepareSwitch: bool, wramBank: WramBank)

  /** `iflag` is the interrupt-flag register that the source keeps in its I/O array; `clock` counts the
      CPU clock cycles ticked so far and exists only in the model. */
  datatype BusState = BusState(timer: Timer, ppu: Ppu, apu: Apu, iflag: bv8, ie: bv8, dma: DmaCycles,
                               doubleSpeed: bool, clock: nat, mem: Memory)

  // ------------------------------------------------------------- device ticks

  function TimerMask(t: TimerDevice.TimerState): bv8 { if TimerDevice.RaisesIrq(t) then 4 else 0 }

  function TimerRaised(t: TimerDevice.TimerState, n: nat): bv8 { Raised(TimerMask, TimerDevice.Next, t, n) }

  function TimerAfter(t: Timer, n: nat): Timer {
    TimerDevice.TimerRunInv(t, n);
    TimerDevice.TimerRun(t, n)
  }

  function PpuAfter(p: Ppu, n: nat): Ppu {
    PpuDevice.PpuRunInv(p, n);
    PpuDevice.PpuRun(p, n)
  }

  function ApuAfter(a: Apu, n: nat): Apu {
    ApuRange.RunInv(a, n);
    ApuDevice.ApuRun(a, n)
  }

  function StepDma(b: BusState): BusState { b.(dma := if b.dma != 0 then b.dma - 1 else 0) }

  function StepTimer(b: BusState): BusState {
    b.(timer := TimerAfter(b.timer, 1), iflag := b.iflag | TimerMask(b.timer))
  }

  function StepPpu(b: BusState): BusState {
    b.(ppu := PpuAfter(b.ppu, 1), iflag := b.iflag | PpuDevice.Mask(b.ppu))
  }

  function StepApu(b: BusState): BusState { b.(apu := ApuAfter(b.apu, 1)) }

  function Clocked(b: BusState): BusState { b.(clock := b.clock + 1) }

  /** One cycle of the three tick loops, in their order. */
  function SyncCycle(b: BusState): BusState { Clocked(StepApu(StepTimer(StepPpu(StepDma(b))))) }

  function CpuCycle(b: BusState): BusState { Clocked(StepTimer(StepDma(b))) }

  function VideoCycle(b: BusState): BusState { StepApu(StepPpu(b)) }

  function TickComponents(b: BusState, cpuCycles: nat, videoCycles: nat): BusState {
    if cpuCycles == videoCycles then Run(SyncCycle, b, cpuCycles)
    else Run(VideoCycle, Run(CpuCycle, b, cpuCycles), videoCycles)
  }

  function SpeedDivisor(b: BusState): int { if b.doubleSpeed then 2 else 1 }

  function TickForCpuCycles(b: BusState, cycles: nat): BusState {
    TickComponents(b, cycles, cycles / SpeedDivisor(b))
  }

  /** All devices advanced independently, sharing only the OR-accumulated interrupt flags. */
  function Advance(b: BusState, cpuCycles: nat, videoCycles: nat): BusState {
    b.(timer := TimerAfter(b.timer, cpuCycles),
       ppu := PpuAfter(b.ppu, videoCycles),
       apu := ApuAfter(b.apu, videoCycles),
       dma := Max(b.dma - cpuCycles, 0),
       clock := b.clock + cpuCycles,
       iflag := b.iflag | TimerRaised(b.timer, cpuCycles) | PpuDevice.PpuRaised(b.ppu, videoCycles))
  }

  lemma AdvanceSplit(b: BusState, c1: nat, v1: nat, c2: nat, v2: nat)
    ensures Advance(Advance(b, c1, v1), c2, v2) == Advance(b, c1 + c2, v1 + v2)
  {
    hide TimerDevice.Next, PpuDevice.Next, ApuDevice.ApuStep, TimerMask, PpuDevice.Mask,
         TimerDevice.TimerInv, PpuDevice.PpuInv, ApuRange.ApuInv, MapperModel.BanksInv;
    RunSplit(TimerDevice.Next, b.timer, c1, c2);
    RunSplit(PpuDevice.Next, b.ppu, v1, v2);
    RunSplit(ApuDevice.ApuStep, b.apu, v1, v2);
    RaisedSplit(TimerMask, TimerDevice.Next, b.timer, c1, c2);
    RaisedSplit(PpuDevice.Mask, PpuDevice.Next, b.ppu, v1, v2);
    OrOrder(b.iflag, TimerRaised(b.timer, c1), PpuDevice.PpuRaised(b.ppu, v1),
            TimerRaised(TimerAfter(b.timer, c1), c2), PpuDevice.PpuRaised(PpuAfter(b.ppu, v1), v2));
  }

  lemma OrOrder(f: bv8, t1: bv8, p1: bv8, t2: bv8, p2: bv8)
    ensures (f | t1 | p1) | t2 | p2 == f | (t1 | t2) | (p1 | p2)
  {
  }

  lemma OneStep(b: BusState)
    ensures TimerRaised(b.timer, 1) == TimerMask(b.timer) && TimerRaised(b.timer, 0) == 0
    ensures PpuDevice.PpuRaised(b.ppu, 1) == PpuDevice.Mask(b.ppu) && PpuDevice.PpuRaised(b.ppu, 0) == 0
    ensures TimerAfter(b.timer, 0) == b.timer && PpuAfter(b.ppu, 0) == b.ppu && ApuAfter(b.apu, 0) == b.apu
    ensures Advance(b, 0, 0) == b
  {
    hide TimerDevice.Next, PpuDevice.Next, ApuDevice.ApuStep, TimerMask, PpuDevice.Mask,
         TimerDevice.TimerInv, PpuDevice.PpuInv, ApuRange.ApuInv, MapperModel.BanksInv;
    assert Run(TimerDevice.Next, b.timer, 0) == b.timer;
    assert Run(PpuDevice.Next, b.ppu, 0) == b.ppu;
    assert Raised(TimerMask, TimerDevice.Next, b.timer, 0) == 0;
    assert Raised(PpuDevice.Mask, PpuDevice.Next, b.ppu, 0) == 0;
  }

  lemma CpuCycleIsAdvance(b: BusState)
    ensures CpuCycle(b) == Advance(b, 1, 0)
  {
    OneStep(b);
    hide TimerAfter, PpuAfter, ApuAfter, TimerMask, PpuDevice.Mask, TimerRaised, PpuDevice.PpuRaised,
         TimerDevice.TimerInv, PpuDevice.PpuInv, ApuRange.ApuInv, MapperModel.BanksInv;
  }

  lemma VideoCycleIsAdvance(b: BusState)
    ensures VideoCycle(b) == Advance(b, 0, 1)
  {
    OneStep(b);
    hide TimerAfter, PpuAfter, ApuAfter, TimerMask, PpuDevice.Mask, TimerRaised, PpuDevice.PpuRaised,
         TimerDevice.TimerInv, PpuDevice.PpuInv, ApuRange.ApuInv, MapperModel.BanksInv;
  }

  /** Within a cycle the devices do not see each other: the order of the synchronized loop is that of
      a video cycle followed by a CPU clock cycle. */
  lemma SyncCycleReordered(b: BusState)
    ensures SyncCycle(b) == CpuCycle(VideoCycle(b))
  {
    ApuCommutes(StepPpu(StepDma(b)));
    DmaCommutes(b);
    hide StepApu, StepTimer, StepPpu, StepDma;
  }

  lemma ApuCommutes(b: BusState)
    ensures StepApu(StepTimer(b)) == StepTimer(StepApu(b))
  {
    hide TimerAfter, PpuAfter, ApuAfter, TimerMask, PpuDevice.Mask,
         TimerDevice.TimerInv, PpuDevice.PpuInv, ApuRange.ApuInv, MapperModel.BanksInv;
  }

  lemma DmaCommutes(b: BusState)
    ensures StepApu(StepPpu(StepDma(b))) == StepDma(StepApu(StepPpu(b)))
  {
    hide TimerAfter, PpuAfter, ApuAfter, TimerMask, PpuDevice.Mask,
         TimerDevice.TimerInv, PpuDevice.PpuInv, ApuRange.ApuInv, MapperModel.BanksInv;
  }

  lemma SyncCycleIsAdvance(b: BusState)
    ensures SyncCycle(b) == Advance(b, 1, 1)
  {
    SyncCycleReordered(b);
    hide SyncCycle, CpuCycle, VideoCycle, Advance;
    VideoCycleIsAdvance(b);
    CpuCycleIsAdvance(VideoCycle(b));
    AdvanceSplit(b, 0, 1, 1, 0);
  }

  /** Each tick loop, whatever its order within a cycle, advances the devices independently. */
  lemma {:induction false} CpuLoop(b: BusState, n: nat)
    ensures Run(CpuCycle, b, n) == Advance(b, n, 0)
  {
    hide Advance, CpuCycle;
    if n == 0 {
      OneStep(b);
    } else {
      CpuLoop(b, n - 1);
      CpuCycleIsAdvance(Advance(b, n - 1, 0));
      AdvanceSplit(b, n - 1, 0, 1, 0);
    }
  }

  lemma {:induction false} VideoLoop(b: BusState, n: nat)
    ensures Run(VideoCycle, b, n) == Advance(b, 0, n)
  {
    hide Advance, VideoCycle;
    if n == 0 {
      OneStep(b);
    } else {
      VideoLoop(b, n - 1);
      VideoCycleIsAdvance(Advance(b, 0, n - 1));
      AdvanceSplit(b, 0, n - 1, 0, 1);
    }
  }

  lemma {:induction false} SyncLoop(b: BusState, n: nat)
    ensures Run(SyncCycle, b, n) == Advance(b, n, n)
  {
    hide Advance, SyncCycle;
    if n == 0 {
      OneStep(b);
    } else {
      SyncLoop(b, n - 1);
      SyncCycleIsAdvance(Advance(b, n - 1, n - 1));
      AdvanceSplit(b, n - 1, n - 1, 1, 1);
    }
  }

  /** Any interleaving of the clocks gives the same state: CPU clock then video is video then CPU
      clock, and with equal counts both are the synchronized loop. */
  lemma DeviceOrderIrrelevant(b: BusState, c: nat, v: nat)
    ensures Run(VideoCycle, Run(CpuCycle, b, c), v) == Run(CpuCycle, Run(VideoCycle, b, v), c) == Advance(b, c, v)
    ensures c == v ==> Run(SyncCycle, b, c) == Advance(b, c, v)
    ensures TickComponents(b, c, v) == Advance(b, c, v)
  {
    hide Advance, CpuCycle, VideoCycle, SyncCycle, Run;
    CpuLoop(b, c);
    VideoLoop(b, v);
    VideoLoop(Advance(b, c, 0), v);
    CpuLoop(Advance(b, 0, v), c);
    SyncLoop(b, c);
    AdvanceSplit(b, c, 0, 0, v);
    AdvanceSplit(b, 0, v, c, 0);
  }

  lemma TickIsAdvance(b: BusState, n: nat)
    ensures TickForCpuCycles(b, n) == Advance(b, n, n / SpeedDivisor(b))
    ensures TickForCpuCycles(b, n).doubleSpeed == b.doubleSpeed
  {
    hide Advance, TickComponents;
    DeviceOrderIrrelevant(b, n, n / SpeedDivisor(b));
    AdvanceFrame(b, n, n / SpeedDivisor(b));
  }

  lemma AdvanceFrame(b: BusState, c: nat, v: nat)
    ensures var q := Advance(b, c, v);
      q.doubleSpeed == b.doubleSpeed && q.ie == b.ie && q.mem == b.mem && q.clock == b.clock + c &&
      q.dma == Max(b.dma - c, 0)
  {
    hide TimerAfter, PpuAfter, ApuAfter, TimerRaised, PpuDevice.PpuRaised;
  }

  /** Ticking in two pieces equals ticking once exactly when no half video cycle is lost: at normal
      speed always, in double speed unless both pieces are odd. */
  lemma TickSplits(b: BusState, m: nat, n: nat)
    requires !b.doubleSpeed || m % 2 == 0 || n % 2 == 0
    ensures TickForCpuCycles(TickForCpuCycles(b, m), n) == TickForCpuCycles(b, m + n)
  {
    hide Advance, TickForCpuCycles;
    TickIsAdvance(b, m);
    TickIsAdvance(TickForCpuCycles(b, m), n);
    TickIsAdvance(b, m + n);
    var d := SpeedDivisor(b);
    AdvanceSplit(b, m, m / d, n, n / d);
    assert m / d + n / d == (m + n) / d;
  }

  /** Video cycles given to the PPU and APU by two ticks. */
  function VideoCycles(b: BusState, n: nat): nat { n / SpeedDivisor(b) }

  lemma SplitLosesVideoCycleIff(b: BusState, m: nat, n: nat)
    ensures VideoCycles(b, m) + VideoCycles(b, n) == VideoCycles(b, m + n) <==>
            !b.doubleSpeed || m % 2 == 0 || n % 2 == 0
  {
  }
}
