/** Frame pulses under the desktop loop (platform/desktop/src/lib.rs): chunks short enough that no
    pulse is lost between two polls. */
module FramePolls {
  import opened Base
  import PpuDevice
  import PpuFrames
  import opened BusModel
  import BusMemory
  import MapperModel
  import opened CpuModel
  import opened Scheduler

  const MAX_CYCLES_BETWEEN_POLLS := 70_200  // a frame less the longest instruction

  /** The raster is left alone: no LY write, no LCD toggle, no consumed pulse. */
  predicate KeepsRaster(p: PpuDevice.PpuState, q: PpuDevice.PpuState) {
    PpuDevice.LcdOn(q) == PpuDevice.LcdOn(p) && q.frames == p.frames && q.frameReady == p.frameReady &&
    (PpuDevice.LcdOn(p) ==> PpuFrames.RasterClock(q) == PpuFrames.RasterClock(p))
  }

  /** No pulse is raised, consumed or brought nearer. */
  predicate HoldsPulses(p: PpuDevice.PpuState, q: PpuDevice.PpuState) {
    PpuDevice.LcdOn(q) == PpuDevice.LcdOn(p) && q.frames == p.frames && q.frameReady == p.frameReady &&
    (PpuDevice.LcdOn(p) ==> PpuFrames.RasterClock(q) <= PpuFrames.RasterClock(p))
  }

  /** What a CPU step may write without disturbing the raster: anything but LY and an LCD toggle. */
  predicate QuietAddress(b: BusState, address: word, value: byte) {
    address != 0xFF44 && (address == 0xFF40 ==> (value >= 0x80 <==> PpuDevice.LcdOn(b.ppu)))
  }

  /** What it may write without bringing a pulse nearer: LY too, but not in VBlank. */
  predicate PatientAddress(b: BusState, address: word, value: byte) {
    if address == 0xFF44 then PpuDevice.LcdOn(b.ppu) ==> b.ppu.ly < PpuDevice.VISIBLE_SCANLINES
    else QuietAddress(b, address, value)
  }

  lemma QuietRegister(b: BusState, address: word, value: byte)
    requires QuietAddress(b, address, value) && BusMemory.PpuRegister(address)
    ensures KeepsRaster(b.ppu, BusMemory.WritePpuRegister(b, address, value).ppu)
  {
    var q := BusMemory.PpuStored(b.ppu, address, value);
    assert KeepsRaster(b.ppu, q) by {
      assert PpuDevice.PpuInv(b.ppu);
      hide PpuFrames.RasterClock, PpuDevice.PpuInv;
      PpuFrames.QuietWrite(b.ppu, address, value);
    }
    var r := BusMemory.WritePpuRegister(b, address, value).ppu;
    assert r == q.(video := r.video, statPending := false) by {
      hide PpuDevice.PpuInv, MapperModel.BanksInv, BusMemory.DmaByte, BusMemory.PpuStored, KeepsRaster;
    }
    hide PpuDevice.PpuInv;
  }

  lemma OtherIoKeepsPpu(b: BusState, address: word, value: byte)
    requires 0xFF00 <= address < 0xFF80 && !BusMemory.PpuRegister(address)
    ensures BusMemory.WriteIo(b, address, value).ppu in {b.ppu, BusMemory.PpuSetCgb(b.ppu, false)}
  {
    JoypadKeepsPpu(b, value);
    hide BusMemory.WriteJoypad, BusMemory.WriteSerial, BusMemory.ApuStored, BusMemory.TimerStored, BusMemory.WriteSvbk,
         BusMemory.WritePpuRegister, BusMemory.PpuSetCgb, PpuDevice.PpuInv, MapperModel.BanksInv;
  }

  lemma QuietIo(b: BusState, address: word, value: byte)
    requires 0xFF00 <= address < 0xFF80 && QuietAddress(b, address, value)
    ensures KeepsRaster(b.ppu, BusMemory.WriteIo(b, address, value).ppu)
  {
    if BusMemory.PpuRegister(address) {
      QuietRegister(b, address, value);
      hide KeepsRaster, BusMemory.WritePpuRegister, PpuDevice.PpuInv, MapperModel.BanksInv;
      assert BusMemory.WriteIo(b, address, value) == BusMemory.WritePpuRegister(b, address, value);
    } else {
      OtherIoKeepsPpu(b, address, value);
      hide PpuDevice.PpuInv, BusMemory.WriteIo, BusMemory.PpuRegister;
      VideoKeepsRaster(b.ppu, BusMemory.PpuSetCgb(b.ppu, false));
      VideoKeepsRaster(b.ppu, b.ppu);
    }
  }

  lemma JoypadKeepsPpu(b: BusState, value: byte)
    ensures BusMemory.WriteJoypad(b, value).ppu == b.ppu
  {
    hide PpuDevice.PpuInv, MapperModel.BanksInv, BusMemory.JoypadLines;
  }

  lemma QuietBusWrite(b: BusState, address: word, value: byte)
    requires QuietAddress(b, address, value)
    ensures KeepsRaster(b.ppu, BusMemory.Write8(b, address, value).ppu)
  {
    hide KeepsRaster, PpuDevice.PpuInv, MapperModel.BanksInv, BusMemory.WriteIo, BusMemory.WorkCell,
         BusMemory.CartridgeControl, BusMemory.CartridgeStore;
    VideoKeepsRaster(b.ppu, b.ppu);
    if 0xFF00 <= address < 0xFF80 {
      QuietIo(b, address, value);
    } else if 0x8000 <= address < 0xA000 {
      VideoKeepsRaster(b.ppu, BusMemory.VramStored(b.ppu, address, value));
    } else if 0xFE00 <= address < 0xFEA0 {
      VideoKeepsRaster(b.ppu, BusMemory.OamStored(b.ppu, address, value));
    }
  }

  lemma LyRegister(b: BusState, value: byte)
    requires PatientAddress(b, 0xFF44, value)
    ensures HoldsPulses(b.ppu, BusMemory.WritePpuRegister(b, 0xFF44, value).ppu)
  {
    var q := BusMemory.PpuStored(b.ppu, 0xFF44, value);
    assert HoldsPulses(b.ppu, q) by {
      assert PpuDevice.PpuInv(b.ppu);
      hide PpuFrames.RasterClock, PpuDevice.PpuInv;
      PpuFrames.VisibleLyWrite(b.ppu, value);
    }
    var r := BusMemory.WritePpuRegister(b, 0xFF44, value).ppu;
    assert r == q.(statPending := false) by {
      hide PpuDevice.PpuInv, MapperModel.BanksInv, BusMemory.DmaByte, BusMemory.PpuStored, HoldsPulses;
    }
    hide PpuDevice.PpuInv;
  }

  /** No CPU write brings a pulse nearer, except to LY in VBlank and one that toggles the LCD. */
  lemma PatientBusWrite(b: BusState, address: word, value: byte)
    requires PatientAddress(b, address, value)
    ensures HoldsPulses(b.ppu, BusMemory.Write8(b, address, value).ppu)
  {
    if address == 0xFF44 {
      LyRegister(b, value);
      LyRoute(b, value);
    } else {
      QuietBusWrite(b, address, value);
    }
    hide PpuFrames.RasterClock, BusMemory.Write8, BusMemory.WritePpuRegister;
  }

  lemma LyRoute(b: BusState, value: byte)
    ensures BusMemory.Write8(b, 0xFF44, value) in {b, BusMemory.WritePpuRegister(b, 0xFF44, value)}
  {
    hide BusMemory.WritePpuRegister, PpuDevice.PpuInv;
  }

  lemma VideoKeepsRaster(p: PpuDevice.PpuState, q: PpuDevice.PpuState)
    requires q == p.(video := q.video)
    ensures KeepsRaster(p, q)
  {
  }

  /** No CPU step of the run brings a pulse nearer. */
  ghost predicate PatientRun(exec: Exec, c: CpuState, b: BusState, available: nat, target: nat)
    decreases target - available
  {
    hide Step, CanSkip, TickLong, HoldsPulses;
    available >= target || CanSkip(c, b) ||
    var r := Step(exec, c, b);
    HoldsPulses(b.ppu, r.bus.ppu) && PatientRun(exec, r.cpu, TickLong(r.bus, r.cycles), available + r.cycles, target)
  }

  /** What at most `dots` dots of clocking do to the pulse count and flag. */
  predicate Clocked(p: PpuDevice.PpuState, q: PpuDevice.PpuState, dots: int) {
    PpuDevice.LcdOn(q) == PpuDevice.LcdOn(p) && p.frames <= q.frames &&
    q.frameReady == (p.frameReady || q.frames > p.frames) &&
    (if PpuDevice.LcdOn(p)
     then PpuFrames.RasterClock(q) <= PpuFrames.RasterClock(p) + dots
     else q.frames == p.frames)
  }

  lemma ClockedCompose(p: PpuDevice.PpuState, q: PpuDevice.PpuState, r: PpuDevice.PpuState, m: int, n: int)
    requires Clocked(p, q, m) && Clocked(q, r, n)
    ensures Clocked(p, r, m + n)
  {
    hide PpuFrames.RasterClock;
  }

  lemma KeptIsClocked(p: PpuDevice.PpuState, q: PpuDevice.PpuState)
    requires HoldsPulses(p, q)
    ensures Clocked(p, q, 0)
  {
    hide PpuFrames.RasterClock;
  }

  lemma DotClocked(p: PpuDevice.PpuState)
    requires PpuDevice.PpuInv(p)
    ensures Clocked(p, PpuDevice.Next(p), 1)
  {
    FlagStep(p);
    if PpuDevice.LcdOn(p) {
      PpuFrames.RasterStep(p);
    }
    PpuDevice.StepControls(p);
    hide PpuDevice.Next, PpuFrames.RasterClock, PpuDevice.PpuInv;
  }

  lemma FlagStep(p: PpuDevice.PpuState)
    ensures var q := PpuDevice.Next(p);
      p.frames <= q.frames && q.frameReady == (p.frameReady || q.frames > p.frames) &&
      (!PpuDevice.LcdOn(p) ==> q.frames == p.frames)
  {
    hide PpuDevice.StatCondition, PpuDevice.StatEdge;
  }

  lemma {:induction false} RunClocked(p: PpuDevice.PpuState, n: nat)
    requires PpuDevice.PpuInv(p)
    ensures Clocked(p, PpuDevice.PpuRun(p, n), n)
  {
    hide PpuDevice.Next, PpuDevice.PpuInv;
    if n > 0 {
      hide Clocked;
      RunClocked(p, n - 1);
      PpuDevice.PpuRunInv(p, n - 1);
      var q := PpuDevice.PpuRun(p, n - 1);
      DotClocked(q);
      ClockedCompose(p, q, PpuDevice.Next(q), n - 1, 1);
    }
  }

  lemma TickClocked(b: BusState, n: nat)
    requires n <= CHUNK_MAX
    ensures Clocked(b.ppu, TickLong(b, n).ppu, n)
  {
    hide TickLong, TickForCpuCycles, PpuDevice.PpuRun, PpuDevice.PpuInv;
    ShortTick(b, n);
    var v := n / SpeedDivisor(b);
    TickIsAdvance(b, n);
    AdvancePpu(b, n, v);
    RunClocked(b.ppu, v);
    assert v <= n;
  }

  lemma AdvancePpu(b: BusState, c: nat, v: nat)
    ensures Advance(b, c, v).ppu == PpuDevice.PpuRun(b.ppu, v)
  {
    hide TimerAfter, ApuAfter, TimerRaised, PpuDevice.PpuRaised, PpuDevice.PpuInv;
  }

  lemma {:induction false} LoopClocked(exec: Exec, c: CpuState, b: BusState, available: nat, target: nat)
    requires target <= TARGET_MAX && PatientRun(exec, c, b, available, target)
    ensures var r := RunTo(exec, c, b, available, target);
      Clocked(b.ppu, r.bus.ppu, r.available - available) && (available < target ==> r.available <= target + 23)
    decreases target - available
  {
    hide Step, CanSkip, TickLong, HoldsPulses, Clocked, PpuDevice.PpuInv;
    if available >= target {
      assert Clocked(b.ppu, b.ppu, 0) by { ClockedRefl(b.ppu); }
    } else if CanSkip(c, b) {
      TickClocked(b, Ceil4(target - available));
    } else {
      var r := Step(exec, c, b);
      CostRange(r.cycles);
      var next := TickLong(r.bus, r.cycles);
      KeptIsClocked(b.ppu, r.bus.ppu);
      TickClocked(r.bus, r.cycles);
      ClockedCompose(b.ppu, r.bus.ppu, next.ppu, 0, r.cycles);
      LoopClocked(exec, r.cpu, next, available + r.cycles, target);
      var end := RunTo(exec, r.cpu, next, available + r.cycles, target);
      ClockedCompose(b.ppu, next.ppu, end.bus.ppu, r.cycles, end.available - available - r.cycles);
    }
  }

  lemma ClockedRefl(p: PpuDevice.PpuState)
    ensures Clocked(p, p, 0)
  {
    hide PpuFrames.RasterClock;
  }

  lemma InvIsRunning(p: Ppu)
    requires PpuDevice.LcdOn(p)
    ensures PpuFrames.Running(p)
  {
    assert PpuDevice.PpuInv(p);
  }

  /** One call of at most 70200 cycles raises at most one frame pulse, and the flag tells whether it did. */
  lemma AtMostOnePulsePerCall(exec: Exec, e: EmulatorState, cycles: nat)
    requires cycles <= MAX_CYCLES_BETWEEN_POLLS && PatientRun(exec, e.cpu, e.bus, e.carry, cycles)
    ensures var p, q := e.bus.ppu, StepCycles(exec, e, cycles).bus.ppu;
      p.frames <= q.frames <= p.frames + 1 && q.frameReady == (p.frameReady || q.frames == p.frames + 1)
  {
    hide RunTo, PatientRun, PpuFrames.RasterClock, PpuDevice.PpuInv;
    LoopClocked(exec, e.cpu, e.bus, e.carry, cycles);
    var r := RunTo(exec, e.cpu, e.bus, e.carry, cycles);
    if e.carry >= cycles {
      RunDone(exec, e.cpu, e.bus, e.carry, cycles);
    }
    if PpuDevice.LcdOn(e.bus.ppu) {
      InvIsRunning(e.bus.ppu);
      InvIsRunning(r.bus.ppu);
      PpuFrames.AtMostOnePulse(e.bus.ppu, r.bus.ppu);
    }
  }

  // ------------------------------------------------------------ the desktop loop

  datatype Session = Session(e: EmulatorState, presented: nat)

  function Taken(p: Ppu): Ppu { PpuDevice.FrameTaken(p) }

  /** `take_frame_ready` and the presentation of the frame it announces. */
  function Poll(s: Session): Session {
    hide PpuDevice.PpuInv;
    if s.e.bus.ppu.frameReady
    then Session(s.e.(bus := s.e.bus.(ppu := Taken(s.e.bus.ppu))), s.presented + 1) else s
  }

  /** Chunk after chunk, each one polled for and then stepped. */
  function Play(exec: Exec, s: Session, chunks: seq<nat>): Session {
    hide StepCycles, Poll;
    if chunks == [] then s
    else
      var polled := Poll(Play(exec, s, chunks[..|chunks| - 1]));
      polled.(e := StepCycles(exec, polled.e, chunks[|chunks| - 1]))
  }

  ghost predicate PatientSession(exec: Exec, s: Session, chunks: seq<nat>) {
    hide PatientRun, Poll, Play;
    chunks == [] ||
    var e := Poll(Play(exec, s, chunks[..|chunks| - 1])).e;
    PatientSession(exec, s, chunks[..|chunks| - 1]) && chunks[|chunks| - 1] <= MAX_CYCLES_BETWEEN_POLLS &&
    PatientRun(exec, e.cpu, e.bus, e.carry, chunks[|chunks| - 1])
  }

  function Announced(s: Session): int { s.presented + if s.e.bus.ppu.frameReady then 1 else 0 }

  lemma PollKeepsAccount(s: Session)
    ensures Announced(Poll(s)) == Announced(s) && !Poll(s).e.bus.ppu.frameReady
    ensures Poll(s).e.bus.ppu.frames == s.e.bus.ppu.frames
  {
    hide PpuDevice.PpuInv;
  }

  /** No frame pulse is lost: over every session of chunks of at most 70200 cycles, the frames presented,
      and the one still announced, are exactly the pulses raised. */
  lemma {:induction false} NoPulseLost(exec: Exec, s: Session, chunks: seq<nat>)
    requires PatientSession(exec, s, chunks)
    ensures var t := Play(exec, s, chunks);
      Announced(t) - Announced(s) == t.e.bus.ppu.frames - s.e.bus.ppu.frames
  {
    hide StepCycles, Poll, PatientRun, PpuDevice.PpuInv;
    if chunks != [] {
      var before := Play(exec, s, chunks[..|chunks| - 1]);
      NoPulseLost(exec, s, chunks[..|chunks| - 1]);
      PollKeepsAccount(before);
      AtMostOnePulsePerCall(exec, Poll(before).e, chunks[|chunks| - 1]);
    }
  }

  function Chunks(cycles: nat): seq<nat> {
    if cycles == 0 then []
    else [Min(cycles, MAX_CYCLES_BETWEEN_POLLS)] + Chunks(cycles - Min(cycles, MAX_CYCLES_BETWEEN_POLLS))
  }

  lemma {:induction false} PlayFirst(exec: Exec, s: Session, chunk: nat, rest: seq<nat>)
    ensures Play(exec, s, [chunk] + rest) == Play(exec, Play(exec, s, [chunk]), rest)
    decreases rest
  {
    hide StepCycles, Poll;
    if rest == [] {
      assert [chunk] + rest == [chunk];
    } else {
      var last := |rest| - 1;
      PlayFirst(exec, s, chunk, rest[..last]);
      assert ([chunk] + rest)[..last + 1] == [chunk] + rest[..last];
    }
  }

  /** The inner loop: poll and present as long as a frame is ready, otherwise step the next chunk. */
  method RunCycleStep(exec: Exec, s: Session, cycleStep: nat) returns (t: Session)
    ensures Play(exec, s, Chunks(cycleStep)) == t
  {
    hide StepCycles, Poll;
    t := s;
    var remaining := cycleStep;
    while remaining != 0
      invariant 0 <= remaining <= cycleStep
      invariant Play(exec, t, Chunks(remaining)) == Play(exec, s, Chunks(cycleStep))
      decreases remaining, t.e.bus.ppu.frameReady
    {
      PollKeepsAccount(t);
      var chunk := Min(remaining, MAX_CYCLES_BETWEEN_POLLS);
      PlayFirst(exec, t, chunk, Chunks(remaining - chunk));
      PlayOne(exec, t, chunk);
      if t.e.bus.ppu.frameReady {
        ghost var was := t;
        t := Poll(t);
        PollTwice(was);
        PlayFirst(exec, t, chunk, Chunks(remaining - chunk));
        PlayOne(exec, t, chunk);
        continue;
      }
      NothingToPoll(t);
      t := t.(e := StepCycles(exec, t.e, chunk));
      remaining := remaining - chunk;
    }
  }

  /** Iterations before the i-th that were not spent idling. */
  function Busy(idle: nat -> bool, i: nat): nat {
    if i == 0 then 0 else Busy(idle, i - 1) + if idle(i - 1) then 0 else 1
  }

  lemma {:induction false} NeverIdle(idle: nat -> bool, i: nat)
    requires forall j: nat :: !idle(j)
    ensures Busy(idle, i) == i
  {
    if i > 0 {
      NeverIdle(idle, i - 1);
    }
  }

  ghost predicate Undisturbed(open: nat -> bool, stop: nat -> bool, idle: nat -> bool) {
    forall j: nat :: open(j) && !stop(j) && !idle(j)
  }

  predicate Limited(count: nat, limit: Option<nat>) { limit.Some? && count >= limit.value }

  /** The inner loop under any window, runtime and limits: `open`, `stop` and `idle` answer for the i-th
      iteration, `patience` bounds how long the model watches. Wherever the loop ends, the session is that
      of the first k chunks, the last of them polled for or not; it ends before the last chunk only for a
      stated reason, no limit is overshot, and each chunk takes at most two busy iterations. */
  method RunPolled(exec: Exec, s: Session, cycleStep: nat, open: nat -> bool, stop: nat -> bool, idle: nat -> bool,
                   frameLimit: Option<nat>, iterationLimit: Option<nat>, patience: nat)
    returns (t: Session, k: nat, i: nat)
    ensures k <= |Chunks(cycleStep)|
    ensures var u := Play(exec, s, Chunks(cycleStep)[..k]); t == u || t == Poll(u)
    ensures i <= patience && Busy(idle, i) <= 2 * k + 1 && forall j: nat | j < i :: open(j) && !stop(j)
    ensures k < |Chunks(cycleStep)| ==>
      i == patience || !open(i) || stop(i) || Limited(k, iterationLimit) || Limited(t.presented, frameLimit)
    ensures iterationLimit.Some? ==> k <= iterationLimit.value
    ensures frameLimit.Some? ==> t.presented <= Max(s.presented, frameLimit.value)
    ensures Undisturbed(open, stop, idle) && frameLimit.None? && iterationLimit.None? &&
            patience >= 2 * |Chunks(cycleStep)|
      ==> k == |Chunks(cycleStep)|
  {
    hide StepCycles, Poll, Play, PpuDevice.PpuInv;
    ghost var chunks := Chunks(cycleStep);
    PlayNone(exec, s);
    t, k, i := s, 0, 0;
    var remaining := cycleStep;
    while remaining != 0 && open(i) && i < patience
      invariant 0 <= remaining && k <= |chunks| && Chunks(remaining) == chunks[k..] && i <= patience
      invariant var u := Play(exec, s, chunks[..k]); t == u || t == Poll(u)
      invariant Busy(idle, i) <= 2 * k + if t.e.bus.ppu.frameReady then 0 else 1
      invariant forall j: nat | j < i :: open(j) && !stop(j)
      invariant iterationLimit.Some? ==> k <= iterationLimit.value
      invariant frameLimit.Some? ==> t.presented <= Max(s.presented, frameLimit.value)
      decreases patience - i
    {
      ghost var u := Play(exec, s, chunks[..k]);
      if Limited(k, iterationLimit) || Limited(t.presented, frameLimit) {
        break;
      }
      if stop(i) {
        break;
      }
      if !idle(i) {
        PollTwice(u);
        PollTakes(t);
        if t.e.bus.ppu.frameReady {
          t := Poll(t);
        } else {
          NothingToPoll(t);
          var chunk := Min(remaining, MAX_CYCLES_BETWEEN_POLLS);
          assert chunks[k] == chunk;
          PlayNext(exec, s, chunks, k);
          t := t.(e := StepCycles(exec, t.e, chunk));
          remaining := remaining - chunk;
          k := k + 1;
        }
      }
      i := i + 1;
    }
    assert k < |chunks| <==> remaining != 0;
    if Undisturbed(open, stop, idle) {
      NeverIdle(idle, i);
    }
  }

  lemma PlayNone(exec: Exec, s: Session)
    ensures Play(exec, s, []) == s
  {
  }

  lemma PlayNext(exec: Exec, s: Session, chunks: seq<nat>, k: nat)
    requires k < |chunks|
    ensures var u := Poll(Play(exec, s, chunks[..k]));
      Play(exec, s, chunks[..k + 1]) == u.(e := StepCycles(exec, u.e, chunks[k]))
  {
    hide StepCycles, Poll;
    assert chunks[..k + 1][..k] == chunks[..k];
  }

  lemma PollTakes(s: Session)
    ensures !Poll(s).e.bus.ppu.frameReady && Poll(s).presented <= s.presented + 1
  {
    hide PpuDevice.PpuInv;
  }

  lemma PlayOne(exec: Exec, s: Session, chunk: nat)
    ensures Play(exec, s, [chunk]) == Poll(s).(e := StepCycles(exec, Poll(s).e, chunk))
  {
    hide StepCycles, Poll;
    assert [chunk][..0] == [];
    assert Play(exec, s, []) == s;
  }

  lemma PollTwice(s: Session)
    ensures Poll(Poll(s)) == Poll(s)
  {
    hide PpuDevice.PpuInv;
  }

  lemma NothingToPoll(s: Session)
    requires !s.e.bus.ppu.frameReady
    ensures Poll(s) == s
  {
  }
}
