/** No frame pulse is lost under the real CPU: what the desktop loop's theorem asks of every CPU step
    follows from the writes that the step makes. */
module RealFrames {
  import PpuDevice
  import PpuFrames
  import opened BusModel
  import BusMemory
  import opened CpuModel
  import opened CpuWrites
  import opened Scheduler
  import opened FramePolls

  /** No write to LY in VBlank and no LCD toggle among the writes, each on the bus that the ones before it left. */
  predicate PatientWrites(b: BusState, ws: seq<BusWrite>) {
    hide WriteAll;
    ws == [] ||
    var before, last := ws[..|ws| - 1], ws[|ws| - 1];
    PatientWrites(b, before) && PatientAddress(WriteAll(b, before), last.address, last.value)
  }

  lemma HoldsTwice(p: PpuDevice.PpuState, q: PpuDevice.PpuState, r: PpuDevice.PpuState)
    requires HoldsPulses(p, q) && HoldsPulses(q, r)
    ensures HoldsPulses(p, r)
  {
    hide PpuFrames.RasterClock;
  }

  lemma {:induction false} PatientWriteAll(b: BusState, ws: seq<BusWrite>)
    requires PatientWrites(b, ws)
    ensures HoldsPulses(b.ppu, WriteAll(b, ws).ppu)
  {
    hide BusMemory.Write8, PpuFrames.RasterClock, PpuDevice.PpuInv;
    if ws != [] {
      var before, last := ws[..|ws| - 1], ws[|ws| - 1];
      var u := WriteAll(b, before);
      PatientWriteAll(b, before);
      PatientBusWrite(u, last.address, last.value);
      HoldsTwice(b.ppu, u.ppu, BusMemory.Write8(u, last.address, last.value).ppu);
    }
  }

  lemma BaseKeepsPpu(c: CpuState, b: BusState)
    ensures StepBase(c, b).ppu == b.ppu
  {
    hide Pending, Fetch8, LowestPending, MaskOf, PpuDevice.PpuInv;
  }

  /** The CPU step makes no write to LY in VBlank and no LCD toggle. */
  predicate PatientStep(c: CpuState, b: BusState) {
    hide StepBase, StepWrites;
    PatientWrites(StepBase(c, b), StepWrites(c, b))
  }

  /** Such a step brings no pulse nearer. */
  lemma PatientStepHoldsPulses(c: CpuState, b: BusState)
    requires PatientStep(c, b)
    ensures HoldsPulses(b.ppu, Step(Dispatch, c, b).bus.ppu)
  {
    BaseKeepsPpu(c, b);
    hide StepBase, StepWrites, Step, Dispatch, HoldsPulses, WriteAll, PatientWrites, PpuDevice.PpuInv;
    StepIsItsWrites(c, b);
    PatientWriteAll(StepBase(c, b), StepWrites(c, b));
  }

  /** No CPU step of the run writes LY in VBlank or toggles the LCD. */
  ghost predicate PatientCpuRun(c: CpuState, b: BusState, available: nat, target: nat)
    decreases target - available
  {
    hide Step, CanSkip, TickLong, PatientStep;
    available >= target || CanSkip(c, b) ||
    var r := Step(Dispatch, c, b);
    PatientStep(c, b) && PatientCpuRun(r.cpu, TickLong(r.bus, r.cycles), available + r.cycles, target)
  }

  lemma {:induction false} PatientCpuRunIsPatient(c: CpuState, b: BusState, available: nat, target: nat)
    requires PatientCpuRun(c, b, available, target)
    ensures PatientRun(Dispatch, c, b, available, target)
    decreases target - available
  {
    hide Step, CanSkip, TickLong, PatientStep, HoldsPulses;
    if available < target && !CanSkip(c, b) {
      var r := Step(Dispatch, c, b);
      PatientStepHoldsPulses(c, b);
      PatientCpuRunIsPatient(r.cpu, TickLong(r.bus, r.cycles), available + r.cycles, target);
    }
  }

  /** A session of chunks of at most 70200 cycles in which no CPU step writes LY in VBlank or toggles
      the LCD. */
  ghost predicate PatientCpuSession(s: Session, chunks: seq<nat>) {
    hide PatientCpuRun, Poll, Play;
    chunks == [] ||
    var e := Poll(Play(Dispatch, s, chunks[..|chunks| - 1])).e;
    PatientCpuSession(s, chunks[..|chunks| - 1]) && chunks[|chunks| - 1] <= MAX_CYCLES_BETWEEN_POLLS &&
    PatientCpuRun(e.cpu, e.bus, e.carry, chunks[|chunks| - 1])
  }

  lemma {:induction false} PatientCpuSessionIsPatient(s: Session, chunks: seq<nat>)
    requires PatientCpuSession(s, chunks)
    ensures PatientSession(Dispatch, s, chunks)
  {
    hide PatientCpuRun, PatientRun, Poll, Play;
    if chunks != [] {
      var e := Poll(Play(Dispatch, s, chunks[..|chunks| - 1])).e;
      PatientCpuSessionIsPatient(s, chunks[..|chunks| - 1]);
      PatientCpuRunIsPatient(e.cpu, e.bus, e.carry, chunks[|chunks| - 1]);
    }
  }

  /** One call of at most 70200 cycles in which the program neither writes LY in VBlank nor toggles the
      LCD raises at most one frame pulse, and the flag tells whether it did. */
  lemma CpuRaisesAtMostOnePulse(e: EmulatorState, cycles: nat)
    requires cycles <= MAX_CYCLES_BETWEEN_POLLS && PatientCpuRun(e.cpu, e.bus, e.carry, cycles)
    ensures var p, q := e.bus.ppu, StepCycles(Dispatch, e, cycles).bus.ppu;
      p.frames <= q.frames <= p.frames + 1 && q.frameReady == (p.frameReady || q.frames == p.frames + 1)
  {
    hide PatientCpuRun, PatientRun, StepCycles, Dispatch, PpuDevice.PpuInv;
    PatientCpuRunIsPatient(e.cpu, e.bus, e.carry, cycles);
    AtMostOnePulsePerCall(Dispatch, e, cycles);
  }

  /** No frame pulse is lost: over every such session of the real CPU the frames presented, and the one
      still announced, are exactly the pulses raised. */
  lemma NoPulseLostByCpu(s: Session, chunks: seq<nat>)
    requires PatientCpuSession(s, chunks)
    ensures var t := Play(Dispatch, s, chunks);
      Announced(t) - Announced(s) == t.e.bus.ppu.frames - s.e.bus.ppu.frames
  {
    hide PatientCpuSession, PatientSession, Play, Announced, Dispatch, PpuDevice.PpuInv;
    PatientCpuSessionIsPatient(s, chunks);
    NoPulseLost(Dispatch, s, chunks);
  }
}
