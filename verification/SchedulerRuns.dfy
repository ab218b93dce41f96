/** Whole sequences of scheduler calls: any list of requests is one request of their sum, and a call that
    its observer stopped can be resumed. */
module SchedulerRuns {
  import opened BusModel
  import opened CpuModel
  import opened Scheduler

  // ------------------------------------------------------------ the ideal loop

  /** The loop with exact ticks: a fast-forward of any length is one tick of that length. */
  function IdealTo(exec: Exec, c: CpuState, b: BusState, available: nat, target: nat): (r: Reached)
    ensures r.available >= target && r.available >= available && !r.stopped
    decreases target - available
  {
    hide Step, CanSkip, TickLong, TickForCpuCycles;
    if available >= target then Reached(c, b, available, false)
    else if CanSkip(c, b) then
      var skipped := Ceil4(target - available);
      Reached(c, TickForCpuCycles(b, skipped), available + skipped, false)
    else
      var r := Step(exec, c, b);
      IdealTo(exec, r.cpu, TickLong(r.bus, r.cycles), available + r.cycles, target)
  }

  function IdealStep(exec: Exec, e: EmulatorState, cycles: nat): EmulatorState {
    hide IdealTo;
    var r := IdealTo(exec, e.cpu, e.bus, e.carry, cycles);
    EmulatorState(r.cpu, r.bus, (e.total + cycles) % CYCLE_WRAP, r.available - cycles)
  }

  lemma {:induction false} RunIsIdeal(exec: Exec, c: CpuState, b: BusState, available: nat, target: nat)
    requires target <= TARGET_MAX
    ensures RunTo(exec, c, b, available, target) == IdealTo(exec, c, b, available, target)
    decreases target - available
  {
    hide Step, CanSkip, TickLong, TickForCpuCycles;
    if available < target {
      if CanSkip(c, b) {
        ShortTick(b, Ceil4(target - available));
      } else {
        var r := Step(exec, c, b);
        RunIsIdeal(exec, r.cpu, TickLong(r.bus, r.cycles), available + r.cycles, target);
      }
    }
  }

  function IdealResumed(exec: Exec, c: CpuState, b: BusState, available: nat, first: nat, target: nat): Reached {
    hide IdealTo;
    var m := IdealTo(exec, c, b, available, first);
    IdealTo(exec, m.cpu, m.bus, m.available, target)
  }

  lemma {:induction false} IdealSplit(exec: Exec, c: CpuState, b: BusState, available: nat, first: nat, target: nat)
    requires first <= target
    ensures IdealResumed(exec, c, b, available, first, target) == IdealTo(exec, c, b, available, target)
    decreases target - available
  {
    hide Step, CanSkip, TickLong, TickForCpuCycles;
    if available < first {
      if CanSkip(c, b) {
        IdealSkipSplit(exec, c, b, available, first, target);
      } else {
        var r := Step(exec, c, b);
        IdealSplit(exec, r.cpu, TickLong(r.bus, r.cycles), available + r.cycles, first, target);
      }
    }
  }

  lemma IdealSkip(exec: Exec, c: CpuState, b: BusState, available: nat, target: nat)
    requires CanSkip(c, b) && available < target
    ensures var n := Ceil4(target - available);
      IdealTo(exec, c, b, available, target) == Reached(c, TickForCpuCycles(b, n), available + n, false)
  {
    hide CanSkip, TickForCpuCycles, Ceil4;
  }

  lemma IdealResumedFrom(exec: Exec, c: CpuState, b: BusState, available: nat, first: nat, target: nat, m: Reached)
    requires IdealTo(exec, c, b, available, first) == m
    ensures IdealResumed(exec, c, b, available, first, target) == IdealTo(exec, m.cpu, m.bus, m.available, target)
  {
    hide IdealTo;
  }

  lemma IdealInside(exec: Exec, c: CpuState, b: BusState, available: nat, first: nat, target: nat, x: nat, y: nat)
    requires CanSkip(c, b) && available < first <= target && available + x < target
    requires x == Ceil4(first - available) && y == Ceil4(target - (available + x)) && x + y == Ceil4(target - available)
    requires x % 4 == 0
    ensures IdealResumed(exec, c, b, available, first, target) == IdealTo(exec, c, b, available, target)
  {
    hide *;
    IdealSkip(exec, c, b, available, first);
    IdealSkip(exec, c, b, available, target);
    var u := TickForCpuCycles(b, x);
    IdealResumedFrom(exec, c, b, available, first, target, Reached(c, u, available + x, false));
    SkipPersists(c, b, x);
    IdealSkip(exec, c, u, available + x, target);
    TickSplits(b, x, y);
  }

  lemma IdealPast(exec: Exec, c: CpuState, b: BusState, available: nat, first: nat, target: nat, x: nat)
    requires CanSkip(c, b) && available < first <= target && available + x >= target
    requires x == Ceil4(first - available) == Ceil4(target - available)
    ensures IdealResumed(exec, c, b, available, first, target) == IdealTo(exec, c, b, available, target)
  {
    hide *;
    IdealSkip(exec, c, b, available, first);
    IdealSkip(exec, c, b, available, target);
    var u := TickForCpuCycles(b, x);
    IdealResumedFrom(exec, c, b, available, first, target, Reached(c, u, available + x, false));
    IdealDone(exec, c, u, available + x, target);
  }

  lemma IdealSkipSplit(exec: Exec, c: CpuState, b: BusState, available: nat, first: nat, target: nat)
    requires CanSkip(c, b) && available < first <= target
    ensures IdealResumed(exec, c, b, available, first, target) == IdealTo(exec, c, b, available, target)
  {
    var x := Ceil4(first - available);
    Ceil4Split(first - available, target - available);
    hide *;
    if available + x < target {
      IdealInside(exec, c, b, available, first, target, x, Ceil4(target - (available + x)));
    } else {
      IdealPast(exec, c, b, available, first, target, x);
    }
  }

  lemma IdealDone(exec: Exec, c: CpuState, b: BusState, available: nat, target: nat)
    requires available >= target
    ensures IdealTo(exec, c, b, available, target) == Reached(c, b, available, false)
  {
  }

  lemma {:induction false} IdealShift(exec: Exec, c: CpuState, b: BusState, available: nat, target: nat, k: nat)
    ensures var r, s := IdealTo(exec, c, b, available, target), IdealTo(exec, c, b, available + k, target + k);
      s.cpu == r.cpu && s.bus == r.bus && s.available == r.available + k
    decreases target - available
  {
    hide Step, CanSkip, TickLong, TickForCpuCycles;
    if available < target && !CanSkip(c, b) {
      var r := Step(exec, c, b);
      IdealShift(exec, r.cpu, TickLong(r.bus, r.cycles), available + r.cycles, target, k);
      assert available + r.cycles + k == available + k + r.cycles;
    }
  }

  lemma IdealAdds(exec: Exec, e: EmulatorState, m: nat, n: nat)
    ensures IdealStep(exec, IdealStep(exec, e, m), n) == IdealStep(exec, e, m + n)
  {
    hide IdealTo;
    IdealSplit(exec, e.cpu, e.bus, e.carry, m, m + n);
    var r := IdealTo(exec, e.cpu, e.bus, e.carry, m);
    IdealShift(exec, r.cpu, r.bus, r.available - m, n, m);
    TotalWraps(e.total, m, n);
  }

  // --------------------------------------------------------- lists of requests

  function StepAll(exec: Exec, e: EmulatorState, requests: seq<nat>): EmulatorState {
    hide StepCycles;
    if requests == [] then e
    else StepCycles(exec, StepAll(exec, e, requests[..|requests| - 1]), requests[|requests| - 1])
  }

  function Total(requests: seq<nat>): nat {
    if requests == [] then 0 else Total(requests[..|requests| - 1]) + requests[|requests| - 1]
  }

  lemma StepIsIdeal(exec: Exec, e: EmulatorState, cycles: nat)
    requires cycles <= TARGET_MAX
    ensures StepCycles(exec, e, cycles) == IdealStep(exec, e, cycles)
  {
    hide RunTo, IdealTo;
    RunIsIdeal(exec, e.cpu, e.bus, e.carry, cycles);
  }

  lemma {:induction false} AllIsIdeal(exec: Exec, e: EmulatorState, requests: seq<nat>)
    requires requests != [] && forall i | 0 <= i < |requests| :: requests[i] <= TARGET_MAX
    ensures StepAll(exec, e, requests) == IdealStep(exec, e, Total(requests))
  {
    hide StepCycles, IdealStep;
    var before, last := requests[..|requests| - 1], requests[|requests| - 1];
    if before == [] {
      StepIsIdeal(exec, e, last);
    } else {
      AllIsIdeal(exec, e, before);
      var u := StepAll(exec, e, before);
      StepIsIdeal(exec, u, last);
      IdealAdds(exec, e, Total(before), last);
    }
  }

  /** Any two lists of requests of at most 2^32 - 4 cycles each with the same sum, however large, reach
      the same CPU, bus, total and carry. */
  lemma BatchesInvisible(exec: Exec, e: EmulatorState, some: seq<nat>, other: seq<nat>)
    requires some != [] && other != [] && Total(some) == Total(other)
    requires forall i | 0 <= i < |some| :: some[i] <= TARGET_MAX
    requires forall i | 0 <= i < |other| :: other[i] <= TARGET_MAX
    ensures StepAll(exec, e, some) == StepAll(exec, e, other)
  {
    hide StepAll, IdealStep;
    AllIsIdeal(exec, e, some);
    AllIsIdeal(exec, e, other);
  }

  // ------------------------------------------------------- stop and resume

  /** Wherever an observer stops the loop, going on from there is not having stopped. */
  lemma {:induction false} LoopResumes(exec: Exec, stop: nat -> bool, events: nat, c: CpuState, b: BusState,
                                       available: nat, target: nat)
    ensures var r := Loop(exec, stop, events, c, b, available, target);
      RunTo(exec, r.cpu, r.bus, r.available, target) == RunTo(exec, c, b, available, target)
    decreases target - available
  {
    hide Step, CanSkip, TickLong;
    if available < target && !CanSkip(c, b) {
      var r := Step(exec, c, b);
      LoopResumes(exec, stop, events + 1, r.cpu, TickLong(r.bus, r.cycles), available + r.cycles, target);
    }
  }

  /** Where a call under an observer ends. */
  function Ended(exec: Exec, stop: nat -> bool, e: EmulatorState, cycles: nat): Reached {
    hide Loop;
    if stop(0) then Reached(e.cpu, e.bus, e.carry, true) else Loop(exec, stop, 0, e.cpu, e.bus, e.carry, cycles)
  }

  /** A call that was stopped can be resumed with the cycles that are left: the two together reach the
      state of the call that is never stopped. A stop after the last event leaves nothing to resume; only
      the overshoot is then counted in the total and not in the carry. */
  lemma StopAndResume(exec: Exec, stop: nat -> bool, e: EmulatorState, cycles: nat)
    ensures var r, f := Ended(exec, stop, e, cycles), StepObserved(exec, stop, e, cycles);
      var g := StepCycles(exec, e, cycles);
      (!r.stopped ==> f == g) &&
      (r.stopped && r.available <= cycles ==> StepCycles(exec, f, cycles - r.available) == g) &&
      (r.stopped && r.available > cycles ==>
        f.cpu == g.cpu && f.bus == g.bus && f.carry == 0 && f.total % CYCLE_WRAP == (g.total + g.carry) % CYCLE_WRAP)
  {
    var r := Ended(exec, stop, e, cycles);
    hide Loop, RunTo;
    if !stop(0) {
      LoopResumes(exec, stop, 0, e.cpu, e.bus, e.carry, cycles);
    }
    assert RunTo(exec, r.cpu, r.bus, r.available, cycles) == RunTo(exec, e.cpu, e.bus, e.carry, cycles);
    if r.available >= cycles {
      RunDone(exec, r.cpu, r.bus, r.available, cycles);
    }
    if r.available <= cycles {
      LoopShift(exec, r.cpu, r.bus, 0, cycles - r.available, r.available);
      TotalWraps(e.total, r.available, cycles - r.available);
    } else {
      TotalWraps(e.total, cycles, r.available - cycles);
    }
    EndsAtTarget(exec, stop, e, cycles);
  }

  lemma EndsAtTarget(exec: Exec, stop: nat -> bool, e: EmulatorState, cycles: nat)
    ensures !Ended(exec, stop, e, cycles).stopped ==> Ended(exec, stop, e, cycles).available >= cycles
  {
    LoopEnds(exec, stop, 0, e.cpu, e.bus, e.carry, cycles);
    hide Loop;
  }

  lemma {:induction false} LoopEnds(exec: Exec, stop: nat -> bool, events: nat, c: CpuState, b: BusState,
                                    available: nat, target: nat)
    ensures var r := Loop(exec, stop, events, c, b, available, target);
      !r.stopped ==> r.available >= target
    decreases target - available
  {
    hide Step, CanSkip, TickLong;
    if available < target && !CanSkip(c, b) {
      var r := Step(exec, c, b);
      LoopEnds(exec, stop, events + 1, r.cpu, TickLong(r.bus, r.cycles), available + r.cycles, target);
    }
  }
}
