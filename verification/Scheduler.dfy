/** The scheduler (core/src/lib.rs): the stepping loop with its HALT fast-forward, overshoot carry and
    stopping observer. The dispatch of a running CPU is a parameter: any deterministic one whose steps
    cost 4 to 24 cycles in multiples of 4, of which `CpuModel.Dispatch` is the real one. */
module Scheduler {
  import opened Base
  import TimerDevice
  import PpuDevice
  import ApuDevice
  import ApuRange
  import Opcodes
  import opened BusModel
  import opened CpuModel

  const CHUNK_MAX := 0xFFFF_FFFF
  const CYCLE_WRAP := 0x1_0000_0000_0000_0000
  const TARGET_MAX := 0xFFFF_FFFC  // targets up to here split into even chunks

  /** A long tick is cut into chunks of at most 2^32 - 1 cycles. */
  function TickLong(b: BusState, n: nat): BusState
    decreases n
  {
    hide TickForCpuCycles;
    if n == 0 then b
    else
      var chunk := Min(n, CHUNK_MAX);
      TickLong(TickForCpuCycles(b, chunk), n - chunk)
  }

  /** Video cycles that the chunks of a long tick deliver. */
  function VideoDelivered(divisor: int, n: nat): nat
    requires divisor == 1 || divisor == 2
  {
    if n == 0 then 0
    else
      var chunk := Min(n, CHUNK_MAX);
      chunk / divisor + VideoDelivered(divisor, n - chunk)
  }

  /** The condition of the fast-forward: a halted CPU that no interrupt can wake. */
  predicate CanSkip(c: CpuState, b: BusState) {
    c.halted && (Pending(b) == 0 || c.locked) && !TimerDevice.MayInterrupt(b.timer) &&
    !PpuDevice.MayRequest(b.ppu, b.ie)
  }

  function Ceil4(n: nat): (r: nat)
    ensures n <= r < n + 4 && r % 4 == 0
  {
    (n + 3) / 4 * 4
  }

  datatype Reached = Reached(cpu: CpuState, bus: BusState, available: nat, stopped: bool)

  /** The loop, `stop(k)` being the observer's answer after k events; one event per iteration. */
  function Loop(exec: Exec, stop: nat -> bool, events: nat, c: CpuState, b: BusState,
                available: nat, target: nat): Reached
    decreases target - available
  {
    if available >= target then Reached(c, b, available, false)
    else if CanSkip(c, b) then
      var skipped := Ceil4(target - available);
      Reached(c, TickLong(b, skipped), available + skipped, stop(events + 1))
    else
      var r := Step(exec, c, b);
      var ticked := TickLong(r.bus, r.cycles);
      if stop(events + 1) then Reached(r.cpu, ticked, available + r.cycles, true)
      else Loop(exec, stop, events + 1, r.cpu, ticked, available + r.cycles, target)
  }

  datatype EmulatorState = EmulatorState(cpu: CpuState, bus: BusState, total: int, carry: nat)

  function StepObserved(exec: Exec, stop: nat -> bool, e: EmulatorState, cycles: nat): EmulatorState {
    var reached := if stop(0) then Reached(e.cpu, e.bus, e.carry, true)
                   else Loop(exec, stop, 0, e.cpu, e.bus, e.carry, cycles);
    var consumed := if reached.stopped then reached.available else cycles;
    EmulatorState(reached.cpu, reached.bus, (e.total + consumed) % CYCLE_WRAP,
                  if reached.available >= consumed then reached.available - consumed else 0)
  }

  /** The loop under an observer that never stops. */
  function RunTo(exec: Exec, c: CpuState, b: BusState, available: nat, target: nat): (r: Reached)
    ensures r.available >= target && r.available >= available && !r.stopped
    decreases target - available
  {
    if available >= target then Reached(c, b, available, false)
    else if CanSkip(c, b) then
      var skipped := Ceil4(target - available);
      Reached(c, TickLong(b, skipped), available + skipped, false)
    else
      var r := Step(exec, c, b);
      RunTo(exec, r.cpu, TickLong(r.bus, r.cycles), available + r.cycles, target)
  }

  function StepCycles(exec: Exec, e: EmulatorState, cycles: nat): EmulatorState {
    var reached := RunTo(exec, e.cpu, e.bus, e.carry, cycles);
    EmulatorState(reached.cpu, reached.bus, (e.total + cycles) % CYCLE_WRAP, reached.available - cycles)
  }

  /** The reference: every cycle through CPU steps and ticks, no fast-forward. */
  function SlowTo(exec: Exec, c: CpuState, b: BusState, available: nat, target: nat): (r: Reached)
    decreases target - available
  {
    if available >= target then Reached(c, b, available, false)
    else
      var r := Step(exec, c, b);
      SlowTo(exec, r.cpu, TickLong(r.bus, r.cycles), available + r.cycles, target)
  }

  // ------------------------------------------------------------------- the class

  class Emulator {
    const exec: Exec
    var cpu: CpuState
    var bus: BusState
    var totalCycles: int
    var cycleCarry: nat

    function State(): EmulatorState
      reads this
    {
      EmulatorState(cpu, bus, totalCycles, cycleCarry)
    }

    constructor (exec: Exec, cpu: CpuState, bus: BusState)
      ensures this.exec == exec && State() == EmulatorState(cpu, bus, 0, 0)
    {
      this.exec, this.cpu, this.bus := exec, cpu, bus;
      totalCycles, cycleCarry := 0, 0;
    }

    method TickBusCycles(cpuCycles: nat)
      modifies this`bus
      ensures bus == TickLong(old(bus), cpuCycles)
    {
      hide TickForCpuCycles;
      var remaining := cpuCycles;
      while remaining != 0
        invariant 0 <= remaining <= cpuCycles
        invariant TickLong(bus, remaining) == TickLong(old(bus), cpuCycles)
      {
        var chunk := Min(remaining, CHUNK_MAX);
        bus := TickForCpuCycles(bus, chunk);
        remaining := remaining - chunk;
      }
    }

    /** The stepping loop for any observer; it terminates because every iteration advances. */
    method StepCyclesWithObserver(cycles: nat, stop: nat -> bool)
      modifies this
      ensures State() == StepObserved(exec, stop, old(State()), cycles)
    {
      hide Step, CanSkip, TickLong, Ceil4;
      var available: nat := cycleCarry;
      var stoppedEarly := stop(0);
      ghost var outcome := if stoppedEarly then Reached(cpu, bus, available, true)
                           else Loop(exec, stop, 0, cpu, bus, available, cycles);
      var events := 0;
      while !stoppedEarly && available < cycles
        invariant totalCycles == old(totalCycles)
        invariant outcome == if stoppedEarly then Reached(cpu, bus, available, true)
                             else Loop(exec, stop, events, cpu, bus, available, cycles)
        decreases !stoppedEarly, cycles - available
      {
        events := events + 1;
        if CanSkip(cpu, bus) {
          var skipped := Ceil4(cycles - available);
          TickBusCycles(skipped);
          available := available + skipped;
          stoppedEarly := stop(events);
          break;
        }
        var r := Step(exec, cpu, bus);
        cpu, bus := r.cpu, r.bus;
        TickBusCycles(r.cycles);
        available := available + r.cycles;
        stoppedEarly := stop(events);
      }
      assert outcome == Reached(cpu, bus, available, stoppedEarly);
      var consumed := if stoppedEarly then available else cycles;
      cycleCarry := available - consumed;
      totalCycles := (totalCycles + consumed) % CYCLE_WRAP;
    }
  }

  lemma {:induction false} NeverStopping(exec: Exec, stop: nat -> bool, events: nat, c: CpuState, b: BusState,
                                         available: nat, target: nat)
    requires forall k :: !stop(k)
    ensures Loop(exec, stop, events, c, b, available, target) == RunTo(exec, c, b, available, target)
    decreases target - available
  {
    hide Step, CanSkip, TickLong;
    if available < target && !CanSkip(c, b) {
      var r := Step(exec, c, b);
      NeverStopping(exec, stop, events + 1, r.cpu, TickLong(r.bus, r.cycles), available + r.cycles, target);
    }
  }

  /** An observer that never stops is no observer. */
  lemma ObserverFree(exec: Exec, stop: nat -> bool, e: EmulatorState, cycles: nat)
    requires forall k :: !stop(k)
    ensures StepObserved(exec, stop, e, cycles) == StepCycles(exec, e, cycles)
  {
    hide Loop, RunTo;
    NeverStopping(exec, stop, 0, e.cpu, e.bus, e.carry, cycles);
  }

  // ------------------------------------------------------------- long ticks

  lemma ShortTick(b: BusState, n: nat)
    requires n <= CHUNK_MAX
    ensures TickLong(b, n) == TickForCpuCycles(b, n)
  {
    hide TickForCpuCycles;
    if n == 0 {
      TickIsAdvance(b, 0);
      OneStep(b);
      assert 0 / SpeedDivisor(b) == 0;
    } else {
      assert TickLong(TickForCpuCycles(b, n), 0) == TickForCpuCycles(b, n);
    }
  }

  /** The chunks of a multiple of four cycles, up to the largest fast-forward of 2^32, deliver all its
      video cycles exactly when it is not 2^32 cycles in double speed. */
  lemma ChunkingLosesVideoIff(divisor: int, n: nat)
    requires (divisor == 1 || divisor == 2) && n % 4 == 0 && n <= CHUNK_MAX + 1
    ensures VideoDelivered(divisor, n) == n / divisor <==> !(divisor == 2 && n == CHUNK_MAX + 1)
  {
    if n == CHUNK_MAX + 1 {
      assert VideoDelivered(divisor, 1) == 1 / divisor + VideoDelivered(divisor, 0);
    } else if n > 0 {
      assert VideoDelivered(divisor, 0) == 0;
    }
  }

  lemma VideoCountMatters(b: BusState, c: nat, v: nat)
    ensures Advance(b, c, v) != Advance(b, c, v + 1)
  {
    hide TimerAfter, PpuAfter, TimerRaised, PpuDevice.PpuRaised, ApuRange.ApuInv;
    assert ApuDevice.Timed(b.apu) by { ApuIsTimed(b.apu); }
    ApuDevice.ClockTheorem(b.apu, v);
    ApuDevice.ClockTheorem(b.apu, v + 1);
    hide ApuDevice.ApuRun, ApuDevice.Produced;
    assert Advance(b, c, v).apu.counter != Advance(b, c, v + 1).apu.counter;
  }

  lemma ApuIsTimed(a: ApuDevice.ApuState)
    requires ApuRange.ApuInv(a)
    ensures ApuDevice.Timed(a)
  {
  }

  lemma OddChunk(b: BusState)
    ensures var n := CHUNK_MAX + 1;
      TickLong(b, n) == Advance(b, n, CHUNK_MAX / SpeedDivisor(b) + 1 / SpeedDivisor(b))
  {
    hide TickForCpuCycles, Advance;
    var d := SpeedDivisor(b);
    TickIsAdvance(b, CHUNK_MAX);
    var u := TickForCpuCycles(b, CHUNK_MAX);
    TickIsAdvance(u, 1);
    AdvanceSplit(b, CHUNK_MAX, CHUNK_MAX / d, 1, 1 / d);
    ShortTick(u, 1);
    assert TickLong(b, CHUNK_MAX + 1) == TickLong(u, 1);
  }

  /** A long tick of n cycles, n a multiple of 4 up to 2^32, is the tick of n cycles exactly when it is
      not 2^32 cycles in double speed: that one loses a video cycle between its odd chunks. */
  lemma LongTickExactIff(b: BusState, n: nat)
    requires n % 4 == 0 && n <= CHUNK_MAX + 1
    ensures TickLong(b, n) == TickForCpuCycles(b, n) <==> !(b.doubleSpeed && n == CHUNK_MAX + 1)
  {
    hide TickLong, TickForCpuCycles, Advance;
    TickIsAdvance(b, n);
    if n <= CHUNK_MAX {
      ShortTick(b, n);
    } else {
      OddChunk(b);
      VideoCountMatters(b, n, n / 2 - 1);
    }
  }

  // ---------------------------------------------------------- the fast-forward

  lemma {:induction false} IdleTimerRaisesNothing(t: TimerDevice.TimerState, n: nat)
    requires !TimerDevice.MayInterrupt(t)
    ensures TimerRaised(t, n) == 0 && !TimerDevice.MayInterrupt(TimerDevice.TimerRun(t, n))
  {
    if n > 0 {
      IdleTimerRaisesNothing(t, n - 1);
      TimerDevice.IdleTimer(t, n - 1);
    }
    TimerDevice.IdleTimer(t, n);
  }

  lemma StillMasked(f: bv8, p: bv8, ie: bv8)
    requires p & ie == 0
    ensures (f | 0 | p) & ie & 0x1F == f & ie & 0x1F
  {
  }

  /** While the guard holds no enabled request can rise, so ticking keeps the guard. */
  lemma SkipPersists(c: CpuState, b: BusState, n: nat)
    requires CanSkip(c, b)
    ensures CanSkip(c, TickForCpuCycles(b, n)) && Pending(TickForCpuCycles(b, n)) == Pending(b)
  {
    hide Advance, TickForCpuCycles, TimerDevice.MayInterrupt, PpuDevice.MayRequest, PpuDevice.PpuInv, TimerRaised,
         PpuDevice.PpuRaised, TimerDevice.TimerRun, PpuDevice.PpuRun;
    var v := n / SpeedDivisor(b);
    TickIsAdvance(b, n);
    SkipParts(b, n, v);
  }

  lemma SkipParts(b: BusState, n: nat, v: nat)
    requires !TimerDevice.MayInterrupt(b.timer) && !PpuDevice.MayRequest(b.ppu, b.ie)
    ensures var q := Advance(b, n, v);
      !TimerDevice.MayInterrupt(q.timer) && !PpuDevice.MayRequest(q.ppu, q.ie) && Pending(q) == Pending(b)
  {
    hide TimerDevice.MayInterrupt, PpuDevice.MayRequest, PpuDevice.PpuInv, TimerRaised,
         PpuDevice.PpuRaised, TimerDevice.TimerRun, PpuDevice.PpuRun, ApuAfter;
    IdleTimerRaisesNothing(b.timer, n);
    PpuDevice.HintSound(b.ppu, b.ie, v);
    StillMasked(b.iflag, PpuDevice.PpuRaised(b.ppu, v), b.ie);
  }

  /** Equality of buses, kept folded where only its name is needed. */
  ghost predicate SameBus(p: BusState, q: BusState) { p == q }

  lemma LongTickSameIff(b: BusState, n: nat)
    requires n % 4 == 0 && n <= CHUNK_MAX + 1
    ensures SameBus(TickForCpuCycles(b, n), TickLong(b, n)) <==> !(b.doubleSpeed && n == CHUNK_MAX + 1)
  {
    hide TickLong, TickForCpuCycles;
    LongTickExactIff(b, n);
  }

  /** Two pieces, multiples of four of less than 2^32 cycles each, make one tick exactly when their sum
      is not 2^32 in double speed. */
  lemma LongTickSplitIff(b: BusState, m: nat, n: nat)
    requires m % 4 == 0 && n % 4 == 0 && m <= TARGET_MAX && n <= TARGET_MAX && m + n <= CHUNK_MAX + 1
    ensures SameBus(TickLong(TickLong(b, m), n), TickLong(b, m + n)) <==> !(b.doubleSpeed && m + n == CHUNK_MAX + 1)
  {
    hide TickLong, TickForCpuCycles, SameBus;
    MultiplesOfFour(m, n);
    LongTickTwice(b, m, n);
    LongTickSameIff(b, m + n);
    SameBusTransfer(TickLong(TickLong(b, m), n), TickForCpuCycles(b, m + n), TickLong(b, m + n));
  }

  lemma MultiplesOfFour(m: nat, n: nat)
    requires m % 4 == 0 && n % 4 == 0
    ensures (m + n) % 4 == 0 && m % 2 == 0
  {
    DivShift(m, 4, n / 4);
    DivUnique(m, 2, 2 * (m / 4));
  }

  lemma SameBusTransfer(p: BusState, q: BusState, r: BusState)
    requires SameBus(p, q)
    ensures SameBus(p, r) <==> SameBus(q, r)
  {
  }

  lemma LongTickTwice(b: BusState, m: nat, n: nat)
    requires m % 2 == 0 && m <= TARGET_MAX && n <= TARGET_MAX
    ensures SameBus(TickLong(TickLong(b, m), n), TickForCpuCycles(b, m + n))
  {
    hide TickLong, TickForCpuCycles;
    ShortTick(b, m);
    ShortTick(TickForCpuCycles(b, m), n);
    TickSplits(b, m, n);
  }

  lemma SkipPersistsLong(c: CpuState, b: BusState, n: nat)
    requires CanSkip(c, b) && n <= CHUNK_MAX
    ensures CanSkip(c, TickLong(b, n))
  {
    hide TickLong, TickForCpuCycles, CanSkip;
    ShortTick(b, n);
    SkipPersists(c, b, n);
  }

  lemma IdleStep(exec: Exec, c: CpuState, b: BusState)
    requires CanSkip(c, b)
    ensures Step(exec, c, b) == StepResult(c.(fetchCount := 0), b, 4)
  {
    hide Pending;
  }

  lemma Ceil4Peel(n: nat)
    requires n > 4
    ensures Ceil4(n) == 4 + Ceil4(n - 4)
  {
  }

  lemma Ceil4Small(n: nat)
    requires 0 < n <= 4
    ensures Ceil4(n) == 4
  {
  }

  /** Whenever the guard holds, repeating idle CPU steps and ticks to the target, however far, is one
      tick of the rounded-up remainder, the debugger's fetch count aside. */
  lemma {:induction false} SkipRefinesIdling(exec: Exec, c: CpuState, b: BusState, available: nat, target: nat)
    requires CanSkip(c, b) && available < target
    ensures var n := Ceil4(target - available);
      SlowTo(exec, c, b, available, target) ==
      Reached(c.(fetchCount := 0), TickForCpuCycles(b, n), available + n, false)
    decreases target - available
  {
    hide Step, CanSkip, TickLong, Ceil4, TickForCpuCycles;
    var rest := target - available;
    IdleStep(exec, c, b);
    ShortTick(b, 4);
    var c1, b1 := c.(fetchCount := 0), TickForCpuCycles(b, 4);
    if rest <= 4 {
      Ceil4Small(rest);
      assert SlowTo(exec, c1, b1, available + 4, target) == Reached(c1, b1, available + 4, false);
    } else {
      SkipPersists(c, b, 4);
      SkipIgnoresFetchCount(c, b1);
      SkipRefinesIdling(exec, c1, b1, available + 4, target);
      Ceil4Peel(rest);
      TickSplits(b, 4, Ceil4(rest - 4));
    }
  }

  lemma SkipIgnoresFetchCount(c: CpuState, b: BusState)
    ensures CanSkip(c.(fetchCount := 0), b) == CanSkip(c, b)
  {
  }

  predicate SameButFetchCount(c: CpuState, d: CpuState) { c.(fetchCount := 0) == d.(fetchCount := 0) }

  lemma StepIgnoresFetchCount(exec: Exec, c: CpuState, d: CpuState, b: BusState)
    requires SameButFetchCount(c, d)
    ensures Step(exec, c, b) == Step(exec, d, b) && CanSkip(c, b) == CanSkip(d, b)
  {
    assert c.halted == d.halted && c.locked == d.locked;
    hide Pending;
  }

  /** The one fast-forward that is not exact: 2^32 cycles in double speed. It can only come first. */
  predicate SkipsTooFar(c: CpuState, b: BusState, available: nat, target: nat) {
    b.doubleSpeed && CanSkip(c, b) && target > available + TARGET_MAX
  }

  /** The whole fast loop refines the slow one, whatever the instructions do, for every 32-bit target:
      exactly unless it starts with a fast-forward of 2^32 cycles in double speed. */
  lemma {:induction false} FastRefinesSlow(exec: Exec, c: CpuState, d: CpuState, b: BusState,
                                           available: nat, target: nat)
    requires SameButFetchCount(c, d) && target <= CHUNK_MAX
    ensures var fast, slow := RunTo(exec, c, b, available, target), SlowTo(exec, d, b, available, target);
      SameButFetchCount(fast.cpu, slow.cpu) && fast.available == slow.available &&
      (fast.bus == slow.bus <==> !SkipsTooFar(c, b, available, target))
    decreases target - available
  {
    hide Step, CanSkip, TickLong, TickForCpuCycles;
    if available < target {
      StepIgnoresFetchCount(exec, c, d, b);
      if CanSkip(c, b) {
        SkipRefinesIdling(exec, d, b, available, target);
        LongTickExactIff(b, Ceil4(target - available));
      } else {
        var r := Step(exec, c, b);
        CostRange(r.cycles);
        FastRefinesSlow(exec, r.cpu, r.cpu, TickLong(r.bus, r.cycles), available + r.cycles, target);
      }
    }
  }

  // ------------------------------------------------------------------ batching

  lemma Ceil4Split(m: nat, n: nat)
    requires m <= n
    ensures Ceil4(m) >= n ==> Ceil4(n) == Ceil4(m)
    ensures Ceil4(m) < n ==> Ceil4(n) == Ceil4(m) + Ceil4(n - Ceil4(m))
  {
  }

  /** Stopping at an earlier target and going on from there. */
  function Resumed(exec: Exec, c: CpuState, b: BusState, available: nat, first: nat, target: nat): Reached {
    hide Step, CanSkip, TickLong;
    var m := RunTo(exec, c, b, available, first);
    RunTo(exec, m.cpu, m.bus, m.available, target)
  }

  /** The first target ends inside a fast-forward of 2^32 cycles in double speed. */
  predicate SplitsLongSkip(c: CpuState, b: BusState, available: nat, first: nat, target: nat) {
    SkipsTooFar(c, b, available, target) && available < first && !SkipsTooFar(c, b, available, first)
  }

  /** Resuming changes nothing, splits inside a fast-forward included, exactly unless the split is inside
      one of 2^32 cycles in double speed. */
  lemma {:induction false} LoopSplitIff(exec: Exec, c: CpuState, b: BusState, available: nat, first: nat, target: nat)
    requires first <= target <= CHUNK_MAX
    ensures SplitAgrees(exec, c, b, available, first, target)
    decreases target - available
  {
    hide Step, CanSkip, TickLong, TickForCpuCycles;
    if available < first {
      if CanSkip(c, b) {
        SkipSplit(exec, c, b, available, first, target);
      } else {
        var r := Step(exec, c, b);
        CostRange(r.cycles);
        LoopSplitIff(exec, r.cpu, TickLong(r.bus, r.cycles), available + r.cycles, first, target);
      }
    }
  }

  lemma ResumedFrom(exec: Exec, c: CpuState, b: BusState, available: nat, first: nat, target: nat, m: Reached)
    requires RunTo(exec, c, b, available, first) == m
    ensures Resumed(exec, c, b, available, first, target) == RunTo(exec, m.cpu, m.bus, m.available, target)
  {
    hide RunTo;
  }

  /** A split inside a fast-forward: two ticks instead of one. */
  lemma SplitInside(exec: Exec, c: CpuState, b: BusState, available: nat, first: nat, target: nat, x: nat, y: nat)
    requires CanSkip(c, b) && available < first && x == Ceil4(first - available) && x <= CHUNK_MAX
    requires available + x < target && y == Ceil4(target - (available + x))
    ensures var r := Resumed(exec, c, b, available, first, target);
      r.cpu == c && r.bus == TickLong(TickLong(b, x), y) && r.available == available + x + y
  {
    hide *;
    RunSkips(exec, c, b, available, first);
    ResumedFrom(exec, c, b, available, first, target, Reached(c, TickLong(b, x), available + x, false));
    SkipPersistsLong(c, b, x);
    RunSkips(exec, c, TickLong(b, x), available + x, target);
  }

  /** A split that the fast-forward's rounding carries past the target: nothing is left to do. */
  lemma SplitPast(exec: Exec, c: CpuState, b: BusState, available: nat, first: nat, target: nat, x: nat)
    requires CanSkip(c, b) && available < first && x == Ceil4(first - available) && available + x >= target
    ensures var r := Resumed(exec, c, b, available, first, target);
      r.cpu == c && r.bus == TickLong(b, x) && r.available == available + x
  {
    hide *;
    RunSkips(exec, c, b, available, first);
    ResumedFrom(exec, c, b, available, first, target, Reached(c, TickLong(b, x), available + x, false));
    RunDone(exec, c, TickLong(b, x), available + x, target);
  }

  /** Resuming reaches the same CPU and cycle count as not stopping, and the same bus unless it splits
      a fast-forward of 2^32 cycles in double speed. */
  ghost predicate SplitAgrees(exec: Exec, c: CpuState, b: BusState, available: nat, first: nat, target: nat) {
    hide RunTo, Resumed, SplitsLongSkip;
    var p, q := Resumed(exec, c, b, available, first, target), RunTo(exec, c, b, available, target);
    p.cpu == q.cpu && p.available == q.available &&
    (SameBus(p.bus, q.bus) <==> !SplitsLongSkip(c, b, available, first, target))
  }

  lemma SkipSplit(exec: Exec, c: CpuState, b: BusState, available: nat, first: nat, target: nat)
    requires CanSkip(c, b) && available < first <= target <= CHUNK_MAX
    ensures SplitAgrees(exec, c, b, available, first, target)
  {
    SkipSizes(c, b, available, first, target);
    hide *;
    var x, y := Ceil4(first - available), Ceil4(target - available);
    if available + x < target {
      SplitInsideAgrees(exec, c, b, available, first, target, x, y - x);
    } else {
      SplitPastAgrees(exec, c, b, available, first, target);
    }
  }

  lemma SplitInsideAgrees(exec: Exec, c: CpuState, b: BusState, available: nat, first: nat, target: nat, x: nat, z: nat)
    requires CanSkip(c, b) && available < first <= target && available + x < target
    requires x == Ceil4(first - available) && z == Ceil4(target - (available + x)) && x + z == Ceil4(target - available)
    requires x % 4 == 0 && z % 4 == 0 && x <= TARGET_MAX && z <= TARGET_MAX && x + z <= CHUNK_MAX + 1
    requires SplitsLongSkip(c, b, available, first, target) <==> b.doubleSpeed && x + z == CHUNK_MAX + 1
    ensures SplitAgrees(exec, c, b, available, first, target)
  {
    hide SameBus, Ceil4, CanSkip, TickLong, RunTo, Resumed, SplitsLongSkip;
    RunSkips(exec, c, b, available, target);
    SplitInside(exec, c, b, available, first, target, x, z);
    LongTickSplitIff(b, x, z);
  }

  lemma SplitPastAgrees(exec: Exec, c: CpuState, b: BusState, available: nat, first: nat, target: nat)
    requires CanSkip(c, b) && available < first <= target <= CHUNK_MAX && available + Ceil4(first - available) >= target
    ensures SplitAgrees(exec, c, b, available, first, target)
  {
    var x := Ceil4(first - available);
    SkipSizes(c, b, available, first, target);
    hide SameBus, Ceil4, CanSkip, TickLong, RunTo, Resumed, SplitsLongSkip;
    RunSkips(exec, c, b, available, target);
    SplitPast(exec, c, b, available, first, target, x);
    SameBusRefl(TickLong(b, x));
  }

  lemma SameBusRefl(b: BusState)
    ensures SameBus(b, b)
  {
  }

  lemma SkipSizes(c: CpuState, b: BusState, available: nat, first: nat, target: nat)
    requires CanSkip(c, b) && available < first <= target <= CHUNK_MAX
    ensures var x, y := Ceil4(first - available), Ceil4(target - available);
      (available + x < target ==>
        x % 4 == 0 && (y - x) % 4 == 0 && x <= TARGET_MAX && 0 <= y - x <= TARGET_MAX && y <= CHUNK_MAX + 1 &&
        y - x == Ceil4(target - (available + x)) &&
        (SplitsLongSkip(c, b, available, first, target) <==> b.doubleSpeed && y == CHUNK_MAX + 1)) &&
      (available + x >= target ==> x == y && !SplitsLongSkip(c, b, available, first, target))
  {
    Ceil4Split(first - available, target - available);
    Ceil4Whole(first - available);
    Ceil4Whole(target - available);
    hide CanSkip, Ceil4;
  }

  lemma Ceil4Whole(n: nat)
    requires n <= CHUNK_MAX
    ensures Ceil4(n) <= CHUNK_MAX + 1 && (Ceil4(n) == CHUNK_MAX + 1 <==> n > TARGET_MAX)
    ensures n <= TARGET_MAX ==> Ceil4(n) <= TARGET_MAX
  {
  }

  lemma RunSkips(exec: Exec, c: CpuState, b: BusState, available: nat, target: nat)
    requires CanSkip(c, b) && available < target
    ensures var n := Ceil4(target - available);
      RunTo(exec, c, b, available, target) == Reached(c, TickLong(b, n), available + n, false)
  {
    hide CanSkip, TickLong, Ceil4;
  }

  lemma RunDone(exec: Exec, c: CpuState, b: BusState, available: nat, target: nat)
    requires available >= target
    ensures RunTo(exec, c, b, available, target) == Reached(c, b, available, false)
  {
  }

  lemma {:induction false} LoopShift(exec: Exec, c: CpuState, b: BusState, available: nat, target: nat, k: nat)
    ensures var r, s := RunTo(exec, c, b, available, target), RunTo(exec, c, b, available + k, target + k);
      s.cpu == r.cpu && s.bus == r.bus && s.available == r.available + k
    decreases target - available
  {
    hide Step, CanSkip, TickLong, Ceil4;
    if available < target && !CanSkip(c, b) {
      var r := Step(exec, c, b);
      LoopShift(exec, r.cpu, TickLong(r.bus, r.cycles), available + r.cycles, target, k);
      assert available + r.cycles + k == available + k + r.cycles;
    }
  }

  /** Batching is invisible over all 32-bit requests: two calls reach the same CPU, bus, total and carry
      as one call of the sum, exactly unless the first ends inside a fast-forward of 2^32 cycles in
      double speed, which takes a sum above 2^32 - 4. */
  lemma BatchingInvisible(exec: Exec, e: EmulatorState, m: nat, n: nat)
    requires m + n <= CHUNK_MAX
    ensures StepCycles(exec, StepCycles(exec, e, m), n) == StepCycles(exec, e, m + n) <==>
            !SplitsLongSkip(e.cpu, e.bus, e.carry, m, m + n)
    ensures m + n <= TARGET_MAX ==> !SplitsLongSkip(e.cpu, e.bus, e.carry, m, m + n)
  {
    hide RunTo, CanSkip, SplitsLongSkip;
    LoopSplitIff(exec, e.cpu, e.bus, e.carry, m, m + n);
    var r := RunTo(exec, e.cpu, e.bus, e.carry, m);
    LoopShift(exec, r.cpu, r.bus, r.available - m, n, m);
    TotalWraps(e.total, m, n);
    ShortSums(e, m, n);
  }

  lemma ShortSums(e: EmulatorState, m: nat, n: nat)
    ensures m + n <= TARGET_MAX ==> !SplitsLongSkip(e.cpu, e.bus, e.carry, m, m + n)
  {
    hide CanSkip;
  }

  /** Above the bound batching really fails: in double speed a skippable halt of 2^32 - 1 cycles at once
      differs from the same cycles in two halves. */
  lemma BatchingFailsBeyondBound(exec: Exec, e: EmulatorState)
    requires CanSkip(e.cpu, e.bus) && e.bus.doubleSpeed && e.carry == 0
    ensures StepCycles(exec, StepCycles(exec, e, 0x8000_0000), 0x7FFF_FFFF) != StepCycles(exec, e, 0xFFFF_FFFF)
  {
    hide StepCycles, CanSkip;
    BatchingInvisible(exec, e, 0x8000_0000, 0x7FFF_FFFF);
  }

  lemma TotalWraps(total: int, m: nat, n: nat)
    ensures ((total + m) % CYCLE_WRAP + n) % CYCLE_WRAP == (total + (m + n)) % CYCLE_WRAP
  {
    DivShift((total + m) % CYCLE_WRAP + n, CYCLE_WRAP, (total + m) / CYCLE_WRAP);
  }

  // --------------------------------------------------------------- conservation

  /** Instructions do not tick the devices themselves. */
  ghost predicate TimeNeutral(exec: Exec) {
    forall c, b :: exec(c, b).bus.clock == b.clock
  }

  lemma TickClock(b: BusState, n: nat)
    ensures TickForCpuCycles(b, n).clock == b.clock + n
  {
    hide TickForCpuCycles, Advance;
    TickIsAdvance(b, n);
    AdvanceFrame(b, n, n / SpeedDivisor(b));
  }

  lemma {:induction false} LongTickClock(b: BusState, n: nat)
    ensures TickLong(b, n).clock == b.clock + n
    decreases n
  {
    hide TickForCpuCycles;
    if n > 0 {
      var chunk := Min(n, CHUNK_MAX);
      TickClock(b, chunk);
      LongTickClock(TickForCpuCycles(b, chunk), n - chunk);
    }
  }

  lemma StepClockNeutral(exec: Exec, c: CpuState, b: BusState)
    requires TimeNeutral(exec)
    ensures Step(exec, c, b).bus.clock == b.clock
  {
    hide Pending;
  }

  lemma {:induction false} LoopConserves(exec: Exec, stop: nat -> bool, events: nat, c: CpuState, b: BusState,
                                         available: nat, target: nat)
    requires TimeNeutral(exec)
    ensures var r := Loop(exec, stop, events, c, b, available, target);
      r.bus.clock - b.clock == r.available - available >= 0 &&
      (available < target ==> r.available <= target + 23) &&
      (!r.stopped ==> r.available >= target)
    decreases target - available
  {
    hide Step, CanSkip, TickLong, TimeNeutral;
    if available < target {
      if CanSkip(c, b) {
        LongTickClock(b, Ceil4(target - available));
      } else {
        var r := Step(exec, c, b);
        StepClockNeutral(exec, c, b);
        LongTickClock(r.bus, r.cycles);
        CostRange(r.cycles);
        LoopConserves(exec, stop, events + 1, r.cpu, TickLong(r.bus, r.cycles), available + r.cycles, target);
      }
    }
  }

  lemma CostRange(c: Cost)
    ensures 4 <= c <= 24
  {
    assert Opcodes.GoodCost(c);
  }

  /** For every observer, early stops included, total + carry advances by exactly the cycles ticked
      (modulo 2^64), the carry stays at most 23, and without a stop at least the requested cycles run. */
  lemma CyclesConserved(exec: Exec, stop: nat -> bool, e: EmulatorState, cycles: nat)
    requires TimeNeutral(exec) && e.carry <= 23
    ensures var f := StepObserved(exec, stop, e, cycles);
      f.bus.clock >= e.bus.clock && f.carry <= 23 &&
      (f.total + f.carry) % CYCLE_WRAP == (e.total + e.carry + (f.bus.clock - e.bus.clock)) % CYCLE_WRAP
  {
    hide Loop, TimeNeutral;
    LoopConserves(exec, stop, 0, e.cpu, e.bus, e.carry, cycles);
    var reached := if stop(0) then Reached(e.cpu, e.bus, e.carry, true)
                   else Loop(exec, stop, 0, e.cpu, e.bus, e.carry, cycles);
    var consumed := if reached.stopped then reached.available else cycles;
    if !stop(0) && e.carry >= cycles {
      LoopDone(exec, stop, e.cpu, e.bus, e.carry, cycles);
    }
    TotalWraps(e.total, consumed, reached.available - consumed);
  }

  lemma LoopDone(exec: Exec, stop: nat -> bool, c: CpuState, b: BusState, available: nat, target: nat)
    requires available >= target
    ensures Loop(exec, stop, 0, c, b, available, target) == Reached(c, b, available, false)
  {
  }

  /** One uninterrupted call of n cycles executes at most n + 23. */
  lemma ExecutedCycles(exec: Exec, e: EmulatorState, cycles: nat)
    requires TimeNeutral(exec)
    ensures var f := StepCycles(exec, e, cycles);
      f.bus.clock >= e.bus.clock && f.bus.clock - e.bus.clock == f.carry + cycles - e.carry &&
      (e.carry < cycles ==> f.bus.clock - e.bus.clock <= cycles + 23 - e.carry && f.carry <= 23)
  {
    hide RunTo, Loop, TimeNeutral;
    var stop := (k: nat) => false;
    NeverStopping(exec, stop, 0, e.cpu, e.bus, e.carry, cycles);
    LoopConserves(exec, stop, 0, e.cpu, e.bus, e.carry, cycles);
    var r := RunTo(exec, e.cpu, e.bus, e.carry, cycles);
    assert r == Loop(exec, stop, 0, e.cpu, e.bus, e.carry, cycles);
    assert StepCycles(exec, e, cycles).carry == r.available - cycles;
  }
}
