/** The divider and timer (core/src/timer.rs): a falling-edge detector with a delayed reload. */
module TimerDevice {
  import opened Base

  const RELOAD_DELAY: Delay := 4

  type Tac = x: int | 0 <= x < 8
  type Delay = x: int | 1 <= x <= 4 witness 4

  datatype TimerState = TimerState(divider: word, tima: byte, tma: byte, tac: Tac, reload: Option<Delay>)

  datatype TimerOut = TimerOut(timer: TimerState, irq: bool)

  const INITIAL_TIMER := TimerState(0, 0, 0, 0, None)

  /** A reload can only be pending while TIMA still holds the overflow's zero. */
  predicate TimerInv(t: TimerState) {
    t.reload.Some? ==> t.tima == 0
  }

  predicate Enabled(t: TimerState) { t.tac >= 4 }

  /** Divider cycles between two falling edges of the selected divider bit. */
  function Period(tac: Tac): (p: int)
    ensures p == 16 || p == 64 || p == 256 || p == 1024
  {
    match tac % 4
    case 0 => 1024
    case 1 => 16
    case 2 => 64
    case _ => 256
  }

  /** Bit k of the divider, selected by TAC: set when the low k + 1 bits are in their upper half. */
  predicate SelectedBit(tac: Tac, divider: int)
  {
    divider % Period(tac) >= Period(tac) / 2
  }

  predicate Input(t: TimerState) {
    Enabled(t) && SelectedBit(t.tac, t.divider)
  }

  function IncrementTima(t: TimerState): TimerState {
    if t.reload.Some? then t
    else if t.tima == 0xFF then t.(tima := 0, reload := Some(RELOAD_DELAY))
    else t.(tima := t.tima + 1)
  }

  function ApplyFallingEdge(t: TimerState, before: bool, after: bool): TimerState {
    if before && !after then IncrementTima(t) else t
  }

  function AdvanceReload(t: TimerState): TimerOut {
    match t.reload
    case None => TimerOut(t, false)
    case Some(d) =>
      if d == 1 then TimerOut(t.(tima := t.tma, reload := None), true)
      else TimerOut(t.(reload := Some(d - 1)), false)
  }

  function TimerStep(t: TimerState): TimerOut {
    var r := AdvanceReload(t);
    var moved := r.timer.(divider := (r.timer.divider + 1) % 0x1_0000);
    TimerOut(ApplyFallingEdge(moved, Input(r.timer), Input(moved)), r.irq)
  }

  function WriteDiv(t: TimerState): TimerState {
    var moved := t.(divider := 0);
    ApplyFallingEdge(moved, Input(t), Input(moved))
  }

  function WriteTac(t: TimerState, value: byte): TimerState {
    var moved := t.(tac := value % 8);
    ApplyFallingEdge(moved, Input(t), Input(moved))
  }

  function TimerWrite(t: TimerState, address: word, value: byte): TimerState
    requires 0xFF04 <= address <= 0xFF07
  {
    match address
    case 0xFF04 => WriteDiv(t)
    case 0xFF05 => t.(tima := value, reload := None)
    case 0xFF06 => t.(tma := value)
    case _ => WriteTac(t, value)
  }

  function TimerRead(t: TimerState, address: word): byte
    requires 0xFF04 <= address <= 0xFF07
  {
    match address
    case 0xFF04 => t.divider / 0x100
    case 0xFF05 => t.tima
    case 0xFF06 => t.tma
    case _ => t.tac + 0xF8
  }

  predicate MayInterrupt(t: TimerState) {
    Enabled(t) || t.reload.Some?
  }

  function Next(t: TimerState): TimerState { TimerStep(t).timer }

  predicate RaisesIrq(t: TimerState) { TimerStep(t).irq }

  function TimerRun(t: TimerState, n: nat): TimerState { Run(Next, t, n) }

  /** Interrupt requests raised by `n` steps. */
  function Irqs(t: TimerState, n: nat): nat { Count(RaisesIrq, Next, t, n) }

  // ---------------------------------------------------------------- the class

  class Timer {
    var divider: word
    var tima: byte
    var tma: byte
    var tac: Tac
    var overflowReloadDelay: Option<Delay>

    function State(): TimerState
      reads this
    {
      TimerState(divider, tima, tma, tac, overflowReloadDelay)
    }

    constructor ()
      ensures State() == INITIAL_TIMER && TimerInv(State())
    {
      divider, tima, tma, tac, overflowReloadDelay := 0, 0, 0, 0, None;
    }

    method ApplyFallingEdgeIfNeeded(previousInput: bool, currentInput: bool)
      modifies this
      ensures State() == ApplyFallingEdge(old(State()), previousInput, currentInput)
    {
      if previousInput && !currentInput {
        if overflowReloadDelay.None? {
          if tima == 0xFF {
            tima, overflowReloadDelay := 0, Some(RELOAD_DELAY);
          } else {
            tima := tima + 1;
          }
        }
      }
    }

    method Step(flag: bv8) returns (flag': bv8)
      modifies this
      ensures State() == TimerStep(old(State())).timer
      ensures flag' == if TimerStep(old(State())).irq then flag | 0x04 else flag
      ensures old(TimerInv(State())) ==> TimerInv(State())
    {
      flag' := flag;
      if overflowReloadDelay.Some? {
        if overflowReloadDelay.value == 1 {
          tima := tma;
          flag' := flag' | 0x04;
          overflowReloadDelay := None;
        } else {
          overflowReloadDelay := Some(overflowReloadDelay.value - 1);
        }
      }
      var previousInput := Input(State());
      divider := (divider + 1) % 0x1_0000;
      ApplyFallingEdgeIfNeeded(previousInput, Input(State()));
    }

    method Write(address: word, value: byte)
      requires 0xFF04 <= address <= 0xFF07
      modifies this
      ensures State() == TimerWrite(old(State()), address, value)
      ensures old(TimerInv(State())) ==> TimerInv(State())
    {
      if address == 0xFF04 {
        var previousInput := Input(State());
        divider := 0;
        ApplyFallingEdgeIfNeeded(previousInput, Input(State()));
      } else if address == 0xFF05 {
        tima, overflowReloadDelay := value, None;
      } else if address == 0xFF06 {
        tma := value;
      } else {
        var previousInput := Input(State());
        tac := value % 8;
        ApplyFallingEdgeIfNeeded(previousInput, Input(State()));
      }
    }
  }

  // ------------------------------------------------------- invariant and runs

  datatype TimerEvent = Tick | Store(address: word, value: byte)

  function TimerApply(t: TimerState, e: TimerEvent): TimerState {
    match e
    case Tick => TimerStep(t).timer
    case Store(a, v) => if 0xFF04 <= a <= 0xFF07 then TimerWrite(t, a, v) else t
  }

  function TimerTrace(t: TimerState, events: seq<TimerEvent>): TimerState {
    if events == [] then t else TimerApply(TimerTrace(t, events[..|events| - 1]), events[|events| - 1])
  }

  /** Over every interleaving of steps and register writes, a pending reload implies TIMA = 0. */
  lemma {:induction false} PendingReloadMeansZero(t: TimerState, events: seq<TimerEvent>)
    requires TimerInv(t)
    ensures TimerTrace(t, events).reload.Some? ==> TimerTrace(t, events).tima == 0
  {
    if events != [] {
      PendingReloadMeansZero(t, events[..|events| - 1]);
    }
  }

  lemma TimerRunSplit(t: TimerState, m: nat, n: nat)
    ensures TimerRun(t, m + n) == TimerRun(TimerRun(t, m), n)
    ensures Irqs(t, m + n) == Irqs(t, m) + Irqs(TimerRun(t, m), n)
  {
    RunSplit(Next, t, m, n);
    CountSplit(RaisesIrq, Next, t, m, n);
  }

  lemma {:induction false} TimerRunInv(t: TimerState, n: nat)
    requires TimerInv(t)
    ensures TimerInv(TimerRun(t, n))
  {
    if n > 0 {
      TimerRunInv(t, n - 1);
    }
  }

  // -------------------------------------------------------------- closed forms

  /** Every period divides the 16-bit wrap of the divider. */
  lemma WordMod(tac: Tac, x: nat)
    ensures (x % 0x1_0000) % Period(tac) == x % Period(tac)
  {
    var p := Period(tac);
    var k := 0x1_0000 / p;
    assert p * k == 0x1_0000;
    var r, w := x % 0x1_0000, x / 0x1_0000;
    assert p * (k * w) == 0x1_0000 * w;
    DivShift(r, p, k * w);
  }

  /** The selected bit as the source computes it, by a shift and a mask. */
  lemma SelectedBitIsShift(tac: Tac, d: word)
    ensures SelectedBit(tac, d) <==> (d / (Period(tac) / 2)) % 2 == 1
  {
    hide Period;
    HalfPeriods(d, Period(tac) / 2);
  }

  lemma HalfPeriods(d: int, h: int)
    requires h > 0
    ensures d % (2 * h) >= h <==> (d / h) % 2 == 1
  {
    var q, r := d / (2 * h), d % (2 * h);
    assert d == 2 * h * q + r;
    if r >= h {
      HalfQuotient(d, h, 2 * q + 1);
    } else {
      HalfQuotient(d, h, 2 * q);
    }
  }

  lemma HalfQuotient(d: int, h: int, k: int)
    requires h > 0 && h * k <= d < h * k + h
    ensures (d / h) % 2 == k % 2
  {
    DivUnique(d, h, k);
  }

  lemma SelectedBitFalls(tac: Tac, d: word)
    ensures SelectedBit(tac, d) && !SelectedBit(tac, (d + 1) % 0x1_0000) <==> (d + 1) % Period(tac) == 0
  {
    DivSucc(d, Period(tac));
    WordMod(tac, d + 1);
  }

  lemma WordSucc(x: nat)
    ensures (x % 0x1_0000 + 1) % 0x1_0000 == (x + 1) % 0x1_0000
  {
  }

  /** The input falls on the step that makes the free-running divider a multiple of the period. */
  lemma FallingEdgeIff(t: TimerState, x: nat)
    requires Enabled(t) && t.divider == x % 0x1_0000
    ensures Input(t) && !Input(t.(divider := (t.divider + 1) % 0x1_0000)) <==> (x + 1) % Period(t.tac) == 0
    ensures (t.divider + 1) % 0x1_0000 == (x + 1) % 0x1_0000
  {
    SelectedBitFalls(t.tac, t.divider);
    WordSucc(x);
    WrappedMultiple(t.tac, x);
  }

  lemma WrappedMultiple(tac: Tac, x: nat)
    ensures (x % 0x1_0000 + 1) % Period(tac) == (x + 1) % Period(tac)
  {
    WordSucc(x);
    WordMod(tac, x + 1);
    WordMod(tac, x % 0x1_0000 + 1);
  }

  /** Falling edges of the timer input during `n` write-free steps. */
  function FallingEdges(t: TimerState, n: nat): nat {
    if n == 0 then 0
    else
      var u := TimerRun(t, n - 1);
      FallingEdges(t, n - 1) + (if Input(u) && !Input(Next(u)) then 1 else 0)
  }

  lemma StepFrame(t: TimerState)
    ensures Next(t).divider == (t.divider + 1) % 0x1_0000 && Next(t).tac == t.tac && Next(t).tma == t.tma
  {
  }

  lemma {:induction false} DividerRuns(t: TimerState, n: nat)
    ensures TimerRun(t, n).divider == (t.divider + n) % 0x1_0000
    ensures TimerRun(t, n).tac == t.tac && TimerRun(t, n).tma == t.tma
  {
    hide Next;
    if n > 0 {
      DividerRuns(t, n - 1);
      StepFrame(TimerRun(t, n - 1));
      WordSucc(t.divider + n - 1);
    }
  }

  lemma StepEdge(t: TimerState, x: nat)
    requires Enabled(t) && t.divider == x % 0x1_0000
    ensures Input(t) && !Input(Next(t)) <==> (x + 1) % Period(t.tac) == 0
  {
    hide SelectedBit, Period;
    FallingEdgeIff(t, x);
    StepFrame(t);
  }

  /** n steps make exactly floor((div + n) / P) - floor(div / P) falling edges. */
  lemma {:induction false} FallingEdgeCount(t: TimerState, n: nat)
    requires Enabled(t)
    ensures FallingEdges(t, n) == (t.divider + n) / Period(t.tac) - t.divider / Period(t.tac)
  {
    hide Next, Input, Period;
    if n > 0 {
      FallingEdgeCount(t, n - 1);
      DividerRuns(t, n - 1);
      StepEdge(TimerRun(t, n - 1), t.divider + n - 1);
      DivSucc(t.divider + n - 1, Period(t.tac));
    }
  }

  /** Steps from a state with no pending reload to the TIMA overflow. */
  function StepsToOverflow(t: TimerState): int {
    Period(t.tac) * (256 - t.tima) - t.divider % Period(t.tac)
  }

  /** Multiples of `p` met by a counter that advances from `d` by `n`. */
  function Crossings(d: nat, p: int, n: nat): int
    requires p > 0
  {
    (d + n) / p - d / p
  }

  lemma CrossingsStep(d: nat, p: int, n: nat)
    requires p > 0 && n > 0
    ensures Crossings(d, p, n) == Crossings(d, p, n - 1) + (if (d + n) % p == 0 then 1 else 0)
    ensures Crossings(d, p, 0) == 0
  {
    DivSucc(d + n - 1, p);
  }

  lemma CrossingsBelow(d: nat, p: int, k: int, n: nat)
    requires p > 0 && n < p * k - d % p
    ensures Crossings(d, p, n) < k
  {
    var q := d / p;
    assert p * (q + k) == p * q + p * k;
    DivBelow(d + n, p, q + k);
  }

  lemma CrossingsAt(d: nat, p: int, k: int)
    requires p > 0 && k > 0
    ensures var n := p * k - d % p;
      n > 0 && (d + n) % p == 0 && Crossings(d, p, n - 1) == k - 1
  {
    var q := d / p;
    var n := p * k - d % p;
    MulMonotone(p, 1, k);
    assert d + n == p * (q + k) by {
      assert p * (q + k) == p * q + p * k;
    }
    DivUnique(d + n, p, q + k);
    assert p * (q + k - 1) == p * (q + k) - p;
    DivUnique(d + n - 1, p, q + k - 1);
  }

  /** One step of a counting timer, `x` being the unwrapped divider. */
  lemma CountingStep(t: TimerState, x: nat)
    requires Enabled(t) && t.reload.None? && t.divider == x % 0x1_0000
    ensures !RaisesIrq(t)
    ensures var moved := t.(divider := (x + 1) % 0x1_0000);
      Next(t) == if (x + 1) % Period(t.tac) == 0 then IncrementTima(moved) else moved
  {
    hide SelectedBit, Period, IncrementTima;
    FallingEdgeIff(t, x);
  }

  /** Until the overflow TIMA just counts falling edges and nothing is requested. */
  lemma {:induction false} CountingPhase(t: TimerState, n: nat)
    requires Enabled(t) && t.reload.None? && n < StepsToOverflow(t)
    ensures var e := Crossings(t.divider, Period(t.tac), n);
      0 <= e < 256 - t.tima &&
      TimerRun(t, n) == t.(divider := (t.divider + n) % 0x1_0000, tima := t.tima + e)
    ensures Irqs(t, n) == 0
  {
    hide Period, Next, RaisesIrq, Crossings;
    CrossingsBelow(t.divider, Period(t.tac), 256 - t.tima, n);
    if n > 0 {
      CountingPhase(t, n - 1);
      CountingStep(TimerRun(t, n - 1), t.divider + n - 1);
      CrossingsStep(t.divider, Period(t.tac), n);
    } else {
      CrossingsStep(t.divider, Period(t.tac), 1);
    }
  }

  /** The step that overflows TIMA: the reload is armed for four more cycles. */
  lemma OverflowStep(t: TimerState)
    requires Enabled(t) && t.reload.None?
    ensures var n := StepsToOverflow(t);
      n > 0 &&
      TimerRun(t, n) == t.(divider := (t.divider + n) % 0x1_0000, tima := 0, reload := Some(4)) &&
      Irqs(t, n) == 0 &&
      (t.divider + n) % Period(t.tac) == 0
  {
    hide Period, Next, RaisesIrq, Crossings;
    var n := StepsToOverflow(t);
    CrossingsAt(t.divider, Period(t.tac), 256 - t.tima);
    CountingPhase(t, n - 1);
    CountingStep(TimerRun(t, n - 1), t.divider + n - 1);
  }

  /** One step while the reload is pending: no edge falls, so only the delay moves. */
  lemma PendingStep(t: TimerState, x: nat)
    requires Enabled(t) && t.reload.Some? && t.divider == x % 0x1_0000 && (x + 1) % Period(t.tac) != 0
    ensures RaisesIrq(t) <==> t.reload == Some(1)
    ensures var moved := t.(divider := (x + 1) % 0x1_0000);
      Next(t) == if t.reload == Some(1) then moved.(tima := t.tma, reload := None)
                 else moved.(reload := Some(t.reload.value - 1))
  {
    hide SelectedBit, Period;
    FallingEdgeIff(AdvanceReload(t).timer, x);
  }

  /** From the overflow, three silent steps and then the reload and its interrupt. */
  lemma ReloadSteps(t: TimerState)
    requires Enabled(t) && t.reload == Some(4) && t.tima == 0 && t.divider % Period(t.tac) == 0
    ensures TimerRun(t, 4) == t.(divider := (t.divider + 4) % 0x1_0000, tima := t.tma, reload := None)
    ensures Irqs(t, 4) == 1 && Irqs(t, 3) == 0
  {
    hide Period, Next, RaisesIrq;
    var p, d := Period(t.tac), t.divider;
    DivUnique(d + 1, p, d / p);
    DivUnique(d + 2, p, d / p);
    DivUnique(d + 3, p, d / p);
    DivUnique(d + 4, p, d / p);
    PendingStep(t, d);
    assert TimerRun(t, 1) == t.(divider := (d + 1) % 0x1_0000, reload := Some(3)) && Irqs(t, 1) == 0;
    PendingStep(TimerRun(t, 1), d + 1);
    assert TimerRun(t, 2) == t.(divider := (d + 2) % 0x1_0000, reload := Some(2)) && Irqs(t, 2) == 0;
    PendingStep(TimerRun(t, 2), d + 2);
    assert TimerRun(t, 3) == t.(divider := (d + 3) % 0x1_0000, reload := Some(1)) && Irqs(t, 3) == 0;
    PendingStep(TimerRun(t, 3), d + 3);
  }

  /** Steps to the first interrupt of an enabled timer with no pending reload. */
  function FirstIrq(t: TimerState): int { StepsToOverflow(t) + 4 }

  lemma IrqsMonotone(t: TimerState, m: nat, n: nat)
    requires m <= n
    ensures Irqs(t, m) <= Irqs(t, n)
  {
    TimerRunSplit(t, m, n - m);
  }

  /** The first interrupt comes exactly four cycles after the overflow, with TIMA reloaded. */
  lemma FirstInterrupt(t: TimerState)
    requires Enabled(t) && t.reload.None?
    ensures var n := FirstIrq(t);
      n > 4 && Irqs(t, n - 1) == 0 && Irqs(t, n) == 1 &&
      TimerRun(t, n) == t.(divider := (t.divider + n) % 0x1_0000, tima := t.tma) &&
      TimerRun(t, n).divider % Period(t.tac) == 4
  {
    hide TimerRun, Irqs, StepsToOverflow, Period;
    var n, p := StepsToOverflow(t), Period(t.tac);
    OverflowStep(t);
    var u := TimerRun(t, n);
    WordMod(t.tac, t.divider + n);
    ReloadSteps(u);
    TimerRunSplit(t, n, 4);
    TimerRunSplit(t, n, 3);
    DivUnique(t.divider + n + 4, p, (t.divider + n) / p);
    WordMod(t.tac, t.divider + n + 4);
  }

  /** Cycles between consecutive timer interrupts. */
  function ReloadPeriod(t: TimerState): (n: int)
    ensures n >= 16
  {
    MulMonotone(Period(t.tac), 1, 256 - t.tma);
    Period(t.tac) * (256 - t.tma)
  }

  /** Interrupts raised by n write-free steps: one at `FirstIrq`, then one every (256 - TMA) * P
      cycles, forever. */
  function IrqsClosedForm(t: TimerState, n: nat): int {
    hide *;
    if n < FirstIrq(t) then 0 else 1 + (n - FirstIrq(t)) / ReloadPeriod(t)
  }

  lemma {:induction false} InterruptTimes(t: TimerState, n: nat)
    requires Enabled(t) && t.reload.None?
    ensures Irqs(t, n) == IrqsClosedForm(t, n)
    decreases n
  {
    hide TimerRun, Irqs, Period;
    var first := FirstIrq(t);
    FirstInterrupt(t);
    if n < first {
      IrqsMonotone(t, n, first - 1);
    } else {
      var u := TimerRun(t, first);
      assert FirstIrq(u) == ReloadPeriod(t) == ReloadPeriod(u);
      var rest := n - first;
      InterruptTimes(u, rest);
      TimerRunSplit(t, first, rest);
      var p := ReloadPeriod(t);
      if rest < p {
        DivUnique(rest, p, 0);
      } else {
        DivShift(rest - p, p, 1);
      }
    }
  }

  /** After every interrupt the timer is in the reloaded state again, k periods later included. */
  lemma {:induction false} ReloadPeriodicForever(t: TimerState, k: nat)
    requires Enabled(t) && t.reload.None? && t.tima == t.tma && t.divider % Period(t.tac) == 4
    ensures 0 <= k * ReloadPeriod(t)
    ensures TimerRun(t, k * ReloadPeriod(t)) == t.(divider := (t.divider + k * ReloadPeriod(t)) % 0x1_0000)
    ensures TimerRun(t, k * ReloadPeriod(t)).divider % Period(t.tac) == 4
    ensures Irqs(t, k * ReloadPeriod(t)) == k
  {
    hide Period, Next, RaisesIrq;
    var p := ReloadPeriod(t);
    if k > 0 {
      ReloadPeriodicForever(t, k - 1);
      var m := (k - 1) * p;
      assert k * p == m + p;
      hide TimerRun, Irqs;
      var u := TimerRun(t, m);
      FirstInterrupt(u);
      assert FirstIrq(u) == p;
      TimerRunSplit(t, m, p);
      AddWrapped(t.divider + m, p);
    } else {
      assert k * p == 0;
    }
  }

  lemma AddWrapped(x: nat, n: nat)
    ensures (x % 0x1_0000 + n) % 0x1_0000 == (x + n) % 0x1_0000
  {
    DivShift(x % 0x1_0000 + n, 0x1_0000, x / 0x1_0000);
  }

  lemma {:induction false} IdleTimer(t: TimerState, n: nat)
    requires !MayInterrupt(t)
    ensures TimerRun(t, n) == t.(divider := (t.divider + n) % 0x1_0000) && Irqs(t, n) == 0
  {
    hide Next, RaisesIrq;
    if n > 0 {
      IdleTimer(t, n - 1);
      IdleStep(TimerRun(t, n - 1));
      AddWrapped(t.divider + n - 1, 1);
    }
  }

  lemma IdleStep(t: TimerState)
    requires !MayInterrupt(t)
    ensures Next(t) == t.(divider := (t.divider + 1) % 0x1_0000) && !RaisesIrq(t)
  {
  }

  /** The scheduler's hint is exact: it holds just when some number of steps raises the interrupt. */
  lemma TimerHintExact(t: TimerState)
    ensures MayInterrupt(t) <==> exists n: nat :: Irqs(t, n) > 0
  {
    if t.reload.Some? {
      ReloadCycle(t);
      assert Irqs(t, t.reload.value) > 0;
    } else if Enabled(t) {
      FirstInterrupt(t);
      assert Irqs(t, FirstIrq(t)) > 0;
    } else {
      forall n: nat ensures Irqs(t, n) == 0 {
        IdleTimer(t, n);
      }
    }
  }

  // --------------------------------------------------- interrupts from any state

  /** The state after a pending reload: TIMA is TMA, already counted up if the divider edge falls on the
      reload cycle. Edges during the delay are lost. */
  function Reloaded(t: TimerState): TimerState
    requires t.reload.Some?
  {
    var d := t.divider + t.reload.value;
    var r := t.(divider := d % 0x1_0000, tima := t.tma, reload := None);
    if Enabled(t) && d % Period(t.tac) == 0 then IncrementTima(r) else r
  }

  lemma DelayStep(t: TimerState, x: nat)
    requires t.reload.Some? && t.divider == x % 0x1_0000
    ensures t.reload.value > 1 ==>
      !RaisesIrq(t) && Next(t) == t.(divider := (x + 1) % 0x1_0000, reload := Some(t.reload.value - 1))
    ensures t.reload.value == 1 ==>
      var r := t.(divider := (x + 1) % 0x1_0000, tima := t.tma, reload := None);
      RaisesIrq(t) && Next(t) == if Enabled(t) && (x + 1) % Period(t.tac) == 0 then IncrementTima(r) else r
  {
    WordSucc(x);
    if Enabled(t) {
      FallingEdgeIff(t, x);
    }
    hide SelectedBit, Period;
  }

  lemma {:induction false} DelayRun(t: TimerState, n: nat)
    requires t.reload.Some? && n < t.reload.value
    ensures TimerRun(t, n) == t.(divider := (t.divider + n) % 0x1_0000, reload := Some(t.reload.value - n))
    ensures Irqs(t, n) == 0
  {
    hide Next, RaisesIrq;
    if n > 0 {
      DelayRun(t, n - 1);
      DelayStep(TimerRun(t, n - 1), t.divider + n - 1);
    }
  }

  lemma ReloadCycle(t: TimerState)
    requires t.reload.Some?
    ensures TimerRun(t, t.reload.value) == Reloaded(t) && Irqs(t, t.reload.value) == 1
  {
    hide Next, RaisesIrq, Period;
    var n: nat := t.reload.value - 1;
    DelayRun(t, n);
    DelayStep(TimerRun(t, n), t.divider + n);
  }

  /** Interrupts raised by n write-free cycles of any timer state: a pending reload fires after its
      delay, and from there on the overflows of a running timer follow. */
  function InterruptsOf(t: TimerState, n: nat): int
    decreases n
  {
    hide IrqsClosedForm, Reloaded;
    match t.reload
    case Some(d) => if n < d then 0 else 1 + InterruptsOf(Reloaded(t), n - d)
    case None => if Enabled(t) then IrqsClosedForm(t, n) else 0
  }

  lemma {:induction false} AllInterruptTimes(t: TimerState, n: nat)
    ensures Irqs(t, n) == InterruptsOf(t, n)
    decreases n
  {
    hide TimerRun, Irqs, IrqsClosedForm, Reloaded;
    if t.reload.Some? {
      var d := t.reload.value;
      if n < d {
        DelayRun(t, n);
      } else {
        ReloadCycle(t);
        TimerRunSplit(t, d, n - d);
        AllInterruptTimes(Reloaded(t), n - d);
      }
    } else if Enabled(t) {
      InterruptTimes(t, n);
    } else {
      IdleTimer(t, n);
    }
  }
}
