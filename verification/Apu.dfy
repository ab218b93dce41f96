/** The APU (core/src/apu.rs): frame sequencer, rational resampler, four voices, mixer and the
    clamped output queue. */
module ApuDevice {
  import opened Base

  const FRAME_SEQUENCER_PERIOD := 8192
  const FRAME_SEQUENCER_STEPS := 8
  const CLOCK_HZ := 4_194_304
  const SAMPLE_RATE_HZ := 48_000
  const QUEUE_TARGET := 2048
  const QUEUE_MAX := 4096
  const PCM_UNITS_PER_STEP := 180
  const LIMIT := 2700

  datatype Ch1 = Ch1(freq: int, duty: int, amp: int, on: bool,
                     sweepPeriod: int, sweepShift: nat, sweepNegate: bool, sweepTick: int)
  datatype Ch2 = Ch2(freq: int, duty: int, amp: int, on: bool)
  datatype Ch3 = Ch3(freq: int, level: int, amp: int, on: bool, wave: seq<int>)
  datatype Ch4 = Ch4(freq: int, amp: int, on: bool)

  /** Everything that a sample depends on and advances. */
  datatype Voices = Voices(ch1: Ch1, ch2: Ch2, ch3: Ch3, ch4: Ch4,
                           acc1: int, acc2: int, acc3: int, waveIndex: int, acc4: int, lfsr: int,
                           nr50: byte, nr51: byte, power: bool)

  datatype ApuState = ApuState(frameStep: int, counter: int, phase: int, queue: seq<int>, voices: Voices,
                               registers: seq<byte>, waveBytes: seq<byte>)

  // ------------------------------------------------------------------- voices

  function DutyWindow(duty: int): int {
    (if duty == 0 then 1 else if duty == 1 then 2 else if duty == 2 then 4 else 6) * (SAMPLE_RATE_HZ / 8)
  }

  function Advance1(v: Voices): int {
    if v.ch1.on then (v.acc1 + v.ch1.freq) % SAMPLE_RATE_HZ else v.acc1
  }

  function Advance2(v: Voices): int {
    if v.ch2.on then (v.acc2 + v.ch2.freq) % SAMPLE_RATE_HZ else v.acc2
  }

  /** Channel 3's phase before it is folded into the 32-step wave. */
  function Phase3(v: Voices): int { (v.acc3 + v.ch3.freq) % SAMPLE_RATE_HZ }

  function NextLfsr(x: int): int {
    x / 2 + if x % 2 != (x / 2) % 2 then 0x4000 else 0
  }

  function Square(on: bool, acc: int, duty: int, amp: int): int {
    if !on then 0 else if acc < DutyWindow(duty) then amp else -amp
  }

  function WaveIndex(v: Voices): int {
    if v.ch3.on then (v.waveIndex + Phase3(v) / 1500) % 32 else v.waveIndex
  }

  function Sample3(v: Voices): int {
    var i := WaveIndex(v);
    if !v.ch3.on || !(0 <= i < |v.ch3.wave|) then 0
    else
      var raw := v.ch3.wave[i] - 8;
      var shifted := if v.ch3.level == 0 then 0 else if v.ch3.level == 2 then TruncDiv(raw, 2)
                     else if v.ch3.level == 3 then TruncDiv(raw, 4) else raw;
      Saturate(shifted * TruncDiv(v.ch3.amp, 8))
  }

  /** Channel 4 folds whole sample periods out of its phase, one LFSR step for each. */
  function Lfsr(v: Voices): int {
    if v.ch4.on && v.acc4 + v.ch4.freq >= SAMPLE_RATE_HZ then NextLfsr(v.lfsr) else v.lfsr
  }

  function Acc4(v: Voices): int {
    if !v.ch4.on then v.acc4
    else if v.acc4 + v.ch4.freq >= SAMPLE_RATE_HZ then v.acc4 + v.ch4.freq - SAMPLE_RATE_HZ
    else v.acc4 + v.ch4.freq
  }

  function Sample4(v: Voices): int {
    if !v.ch4.on then 0 else if Lfsr(v) % 2 == 0 then v.ch4.amp else -v.ch4.amp
  }

  /** The i16 range of the source's saturating operations and final clamp. */
  function Saturate(x: int): int { Clamp(x, -32768, 32767) }

  predicate Routed(nr51: byte, left: bool, channel: int)
    requires 0 <= channel < 4
  {
    var low := if channel == 0 then 1 else if channel == 1 then 2 else if channel == 2 then 4 else 8;
    Bit(nr51, if left then 16 * low else low)
  }

  function Part(routed: bool, x: int): int { if routed then x else 0 }

  function Active(routed: bool, x: int): int { if routed && x != 0 then 1 else 0 }

  function Volume(nr50: byte, left: bool): int { if left then (nr50 / 16) % 8 else nr50 % 8 }

  /** One stereo side as coded, with saturating adds, the average over active voices and the clamp. */
  function MixSide(nr50: byte, nr51: byte, left: bool, c1: int, c2: int, c3: int, c4: int): int {
    var r1, r2, r3, r4 := Routed(nr51, left, 0), Routed(nr51, left, 1), Routed(nr51, left, 2), Routed(nr51, left, 3);
    var mixed := Saturate(Saturate(Saturate(Saturate(0 + Part(r1, c1)) + Part(r2, c2)) + Part(r3, c3)) + Part(r4, c4));
    var active := Active(r1, c1) + Active(r2, c2) + Active(r3, c3) + Active(r4, c4);
    Saturate(TruncDiv(TruncDiv(mixed, Max(active, 1)) * (Volume(nr50, left) + 1), 8))
  }

  /** The same mix over unbounded integers. */
  function MixExactly(nr50: byte, nr51: byte, left: bool, c1: int, c2: int, c3: int, c4: int): int {
    var r1, r2, r3, r4 := Routed(nr51, left, 0), Routed(nr51, left, 1), Routed(nr51, left, 2), Routed(nr51, left, 3);
    var sum := Part(r1, c1) + Part(r2, c2) + Part(r3, c3) + Part(r4, c4);
    var active := Active(r1, c1) + Active(r2, c2) + Active(r3, c3) + Active(r4, c4);
    TruncDiv(TruncDiv(sum, Max(active, 1)) * (Volume(nr50, left) + 1), 8)
  }

  function Sample(v: Voices): int {
    if !v.power then 0
    else
      var c1 := Square(v.ch1.on, Advance1(v), v.ch1.duty, v.ch1.amp);
      var c2 := Square(v.ch2.on, Advance2(v), v.ch2.duty, v.ch2.amp);
      var c3, c4 := Sample3(v), Sample4(v);
      TruncDiv(MixSide(v.nr50, v.nr51, true, c1, c2, c3, c4) + MixSide(v.nr50, v.nr51, false, c1, c2, c3, c4), 2)
  }

  /** The voices after one sample. */
  function NextVoices(v: Voices): Voices {
    if !v.power then v
    else v.(acc1 := Advance1(v), acc2 := Advance2(v),
            acc3 := if v.ch3.on then Phase3(v) % 1500 else v.acc3, waveIndex := WaveIndex(v),
            acc4 := Acc4(v), lfsr := Lfsr(v))
  }

  function Samples(v: Voices, k: nat): (s: seq<int>)
    ensures |s| == k
  {
    if k == 0 then [] else Samples(v, k - 1) + [Sample(Run(NextVoices, v, k - 1))]
  }

  // ---------------------------------------------------------------- sequencer

  function Sweep(v: Voices, frameStep: int): Voices {
    if (frameStep != 2 && frameStep != 6) || v.ch1.sweepShift == 0 then v
    else
      var tick := Min(v.ch1.sweepTick + 1, 255);
      if tick < (if v.ch1.sweepPeriod == 0 then 8 else v.ch1.sweepPeriod) then
        v.(ch1 := v.ch1.(sweepTick := tick))
      else
        var delta := v.ch1.freq / Pow2(v.ch1.sweepShift);
        var updated := if v.ch1.sweepNegate then Max(v.ch1.freq - delta, 0) else v.ch1.freq + delta;
        v.(ch1 := v.ch1.(sweepTick := 0, freq := Clamp(updated, 1, 20_000)))
  }

  function Pow2(n: nat): (p: int)
    ensures p > 0
  {
    if n == 0 then 1 else 2 * Pow2(n - 1)
  }

  /** The queue keeps only its newest samples. */
  function Newest(q: seq<int>): (r: seq<int>)
    ensures |r| <= QUEUE_MAX
  {
    if |q| > QUEUE_MAX then q[|q| - QUEUE_MAX..] else q
  }

  function Due(a: ApuState, n: nat): int { (a.phase + n * SAMPLE_RATE_HZ) / CLOCK_HZ }

  function Emit(a: ApuState, n: nat): ApuState
    requires a.phase >= 0
  {
    var k := Due(a, n);
    a.(phase := (a.phase + n * SAMPLE_RATE_HZ) % CLOCK_HZ,
       voices := Run(NextVoices, a.voices, k),
       queue := Newest(a.queue + Samples(a.voices, k)))
  }

  function Sequence(a: ApuState): ApuState {
    if a.counter == FRAME_SEQUENCER_PERIOD then
      var step := (a.frameStep + 1) % FRAME_SEQUENCER_STEPS;
      a.(counter := 0, frameStep := step, voices := Sweep(a.voices, step))
    else a
  }

  /** Cycles that do not cross a sequencer boundary before their end. */
  function Segment(a: ApuState, n: nat): ApuState
    requires a.phase >= 0
  {
    var e := Emit(a, n);
    Sequence(e.(counter := e.counter + n))
  }

  /** One T-cycle of a well-formed APU; this is the reference that `tick` refines. */
  function ApuStep(a: ApuState): ApuState {
    if a.phase >= 0 then Segment(a, 1) else a
  }

  function ApuRun(a: ApuState, n: nat): ApuState { Run(ApuStep, a, n) }

  predicate Timed(a: ApuState) {
    0 <= a.phase < CLOCK_HZ && 0 <= a.counter < FRAME_SEQUENCER_PERIOD && |a.queue| <= QUEUE_MAX &&
    0 <= a.frameStep < FRAME_SEQUENCER_STEPS
  }

  // --------------------------------------------- splitting a run of emissions

  lemma NewestNewest(x: seq<int>, y: seq<int>)
    ensures Newest(Newest(x) + y) == Newest(x + y)
  {
  }

  lemma {:induction false} SamplesSplit(v: Voices, j: nat, k: nat)
    ensures Samples(v, j + k) == Samples(v, j) + Samples(Run(NextVoices, v, j), k)
  {
    hide NextVoices, Sample;
    if k == 0 {
      assert Samples(v, j) + [] == Samples(v, j);
    } else {
      SamplesSplit(v, j, k - 1);
      RunSplit(NextVoices, v, j, k - 1);
      assert j + k - 1 == j + (k - 1);
    }
  }

  lemma DueSplit(a: ApuState, m: nat, n: nat)
    requires a.phase >= 0
    ensures Due(a, m + n) == Due(a, m) + Due(Emit(a, m), n)
    ensures Emit(a, m + n).phase == Emit(Emit(a, m), n).phase
  {
    hide NextVoices, Samples, Newest;
    var x := a.phase + m * SAMPLE_RATE_HZ;
    DivShift(x % CLOCK_HZ + n * SAMPLE_RATE_HZ, CLOCK_HZ, x / CLOCK_HZ);
  }

  lemma EmitSplit(a: ApuState, m: nat, n: nat)
    requires a.phase >= 0
    ensures Emit(a, m + n) == Emit(Emit(a, m), n)
  {
    hide NextVoices, Samples, Newest, Due, Sample;
    DueSplit(a, m, n);
    var j, k := Due(a, m), Due(Emit(a, m), n);
    RunSplit(NextVoices, a.voices, j, k);
    SamplesSplit(a.voices, j, k);
    var s1, s2 := Samples(a.voices, j), Samples(Run(NextVoices, a.voices, j), k);
    NewestNewest(a.queue + s1, s2);
    assert a.queue + s1 + s2 == a.queue + (s1 + s2);
  }

  /** A segment is its single cycles one after the other. */
  lemma {:induction false} SegmentIsRun(a: ApuState, n: nat)
    requires a.phase >= 0 && 0 <= a.counter && n > 0 && a.counter + n <= FRAME_SEQUENCER_PERIOD
    ensures ApuRun(a, n) == Segment(a, n)
  {
    hide Sweep, Newest, Samples, NextVoices;
    if n == 1 {
      assert ApuRun(a, 0) == a;
    } else {
      SegmentIsRun(a, n - 1);
      EmitSplit(a, n - 1, 1);
    }
  }

  lemma {:induction false} RunTimed(a: ApuState, n: nat)
    requires Timed(a)
    ensures Timed(ApuRun(a, n))
  {
    hide Sweep, Samples, NextVoices, Due;
    if n > 0 {
      RunTimed(a, n - 1);
    }
  }

  // --------------------------------------------------------- the clock theorem

  /** The samples pushed by n cycles, before the queue is clamped. */
  function Produced(a: ApuState, n: nat): seq<int>
    requires a.phase >= 0
  {
    if n == 0 then []
    else
      var b := ApuRun(a, n - 1);
      Produced(a, n - 1) + if b.phase >= 0 then Samples(b.voices, Due(b, 1)) else []
  }

  lemma StepClock(a: ApuState)
    requires Timed(a)
    ensures var b := ApuStep(a);
      b.phase == (a.phase + SAMPLE_RATE_HZ) % CLOCK_HZ &&
      b.counter == (a.counter + 1) % FRAME_SEQUENCER_PERIOD &&
      b.frameStep == (a.frameStep + (a.counter + 1) / FRAME_SEQUENCER_PERIOD) % FRAME_SEQUENCER_STEPS &&
      b.queue == Newest(a.queue + Samples(a.voices, Due(a, 1)))
  {
    hide Sweep, Samples, NextVoices, Newest;
  }

  /** n cycles produce exactly floor((phase + 48000 n) / 4194304) samples and
      floor((counter + n) / 8192) sequencer steps, and the queue keeps the newest 4096 samples. */
  lemma {:induction false} ClockTheorem(a: ApuState, n: nat)
    requires Timed(a)
    ensures var b := ApuRun(a, n);
      |Produced(a, n)| == (a.phase + n * SAMPLE_RATE_HZ) / CLOCK_HZ &&
      b.phase == (a.phase + n * SAMPLE_RATE_HZ) % CLOCK_HZ &&
      b.counter == (a.counter + n) % FRAME_SEQUENCER_PERIOD &&
      b.frameStep == (a.frameStep + (a.counter + n) / FRAME_SEQUENCER_PERIOD) % FRAME_SEQUENCER_STEPS &&
      b.queue == Newest(a.queue + Produced(a, n))
  {
    hide ApuStep, Newest, Samples;
    if n > 0 {
      ClockTheorem(a, n - 1);
      RunTimed(a, n - 1);
      var b := ApuRun(a, n - 1);
      StepClock(b);
      NewestNewest(a.queue + Produced(a, n - 1), Samples(b.voices, Due(b, 1)));
      assert a.queue + Produced(a, n - 1) + Samples(b.voices, Due(b, 1)) == a.queue + Produced(a, n);
      PhaseSplit(a.phase, n);
      CounterSplit(a.counter, a.frameStep, n);
    } else {
      assert a.queue + [] == a.queue;
      ShortQueue(a.queue);
    }
  }

  lemma ShortQueue(q: seq<int>)
    requires |q| <= QUEUE_MAX
    ensures Newest(q) == q
  {
  }

  lemma PhaseSplit(phase: nat, n: nat)
    requires n > 0
    ensures var x := phase + (n - 1) * SAMPLE_RATE_HZ;
      (phase + n * SAMPLE_RATE_HZ) / CLOCK_HZ == x / CLOCK_HZ + (x % CLOCK_HZ + SAMPLE_RATE_HZ) / CLOCK_HZ &&
      (phase + n * SAMPLE_RATE_HZ) % CLOCK_HZ == (x % CLOCK_HZ + SAMPLE_RATE_HZ) % CLOCK_HZ
  {
    var x := phase + (n - 1) * SAMPLE_RATE_HZ;
    DivShift(x % CLOCK_HZ + SAMPLE_RATE_HZ, CLOCK_HZ, x / CLOCK_HZ);
  }

  lemma CounterSplit(counter: nat, step: nat, n: nat)
    requires n > 0
    ensures var x := counter + n - 1;
      (counter + n) % 8192 == (x % 8192 + 1) % 8192 &&
      (step + (counter + n) / 8192) % 8 == ((step + x / 8192) % 8 + (x % 8192 + 1) / 8192) % 8
  {
    var x := counter + n - 1;
    DivShift(x % 8192 + 1, 8192, x / 8192);
    var y, z := step + x / 8192, (x % 8192 + 1) / 8192;
    DivShift(y % 8 + z, 8, y / 8);
  }

  lemma SegmentTimed(a: ApuState, n: nat)
    requires Timed(a) && n > 0 && a.counter + n <= FRAME_SEQUENCER_PERIOD
    ensures Timed(Segment(a, n))
  {
    hide Segment, ApuStep;
    SegmentIsRun(a, n);
    RunTimed(a, n);
  }

  /** `tick` as the source runs it: in segments that end at the sequencer boundaries. */
  function TickSegments(a: ApuState, n: nat): (r: ApuState)
    requires Timed(a)
    ensures Timed(r)
    decreases n
  {
    hide Segment;
    if n == 0 then a
    else
      var segment: nat := Min(n, FRAME_SEQUENCER_PERIOD - a.counter);
      SegmentTimed(a, segment);
      TickSegments(Segment(a, segment), n - segment)
  }

  lemma {:induction false} SegmentsAreRun(a: ApuState, n: nat)
    requires Timed(a)
    ensures TickSegments(a, n) == ApuRun(a, n)
    decreases n
  {
    hide Segment, ApuStep;
    if n > 0 {
      var segment: nat := Min(n, FRAME_SEQUENCER_PERIOD - a.counter);
      SegmentTimed(a, segment);
      SegmentIsRun(a, segment);
      SegmentsAreRun(Segment(a, segment), n - segment);
      RunSplit(ApuStep, a, segment, n - segment);
    }
  }

  /** `tick` is an action of addition: ticking in pieces, each cut into its own segments, is ticking once,
      in the full state. */
  lemma TickIsAdditive(a: ApuState, m: nat, n: nat)
    requires Timed(a)
    ensures TickSegments(TickSegments(a, m), n) == TickSegments(a, m + n)
  {
    hide TickSegments, ApuStep;
    SegmentsAreRun(a, m);
    SegmentsAreRun(TickSegments(a, m), n);
    SegmentsAreRun(a, m + n);
    RunSplit(ApuStep, a, m, n);
  }

  // -------------------------------------------------------------- the sweep

  /** The sweep unit acts on the second and the sixth of the eight sequencer steps, while it is on. */
  predicate SweepActs(v: Voices, frameStep: int) { (frameStep == 2 || frameStep == 6) && v.ch1.sweepShift != 0 }

  function SweepPeriod(v: Voices): int { if v.ch1.sweepPeriod == 0 then 8 else v.ch1.sweepPeriod }

  /** One retuning: the frequency moves by its 2^shift-th part, within 1 to 20000. */
  function Retuned(freq: int, shift: nat, negate: bool): int {
    var delta := freq / Pow2(shift);
    Clamp(if negate then Max(freq - delta, 0) else freq + delta, 1, 20_000)
  }

  /** Retuned k times. */
  function RetunedTimes(v: Voices, k: nat): int {
    hide Retuned;
    if k == 0 then v.ch1.freq else Retuned(RetunedTimes(v, k - 1), v.ch1.sweepShift, v.ch1.sweepNegate)
  }

  function SweepRun(v: Voices, k: nat): Voices { Run(u => Sweep(u, 2), v, k) }

  /** Apart from the steps it acts on the sweep does nothing, and it never touches anything but the
      frequency and tick counter of channel 1. */
  lemma SweepFrame(v: Voices, frameStep: int)
    ensures var w := Sweep(v, frameStep);
      w == v.(ch1 := v.ch1.(freq := w.ch1.freq, sweepTick := w.ch1.sweepTick)) &&
      (!SweepActs(v, frameStep) ==> w == v) && (frameStep == 6 ==> w == Sweep(v, 2)) &&
      (w.ch1.freq == v.ch1.freq || 1 <= w.ch1.freq <= 20_000)
  {
  }

  lemma SweepOnce(v: Voices)
    requires SweepActs(v, 2) && 0 <= v.ch1.sweepTick < 256 && 0 <= v.ch1.sweepPeriod < 8
    ensures var w := Sweep(v, 2);
      if v.ch1.sweepTick + 1 < SweepPeriod(v) then w == v.(ch1 := v.ch1.(sweepTick := v.ch1.sweepTick + 1))
      else w == v.(ch1 := v.ch1.(sweepTick := 0, freq := Retuned(v.ch1.freq, v.ch1.sweepShift, v.ch1.sweepNegate)))
  {
  }

  /** Over k steps that it acts on, the sweep retunes channel 1 once every period, 0 standing for 8; a
      counter already past the period retunes at once. */
  lemma {:induction false} SweepEveryPeriod(v: Voices, k: nat)
    requires SweepActs(v, 2) && 0 <= v.ch1.sweepPeriod < 8 && 0 <= v.ch1.sweepTick < 256 && k > 0
    ensures var p := SweepPeriod(v);
      var t := Min(v.ch1.sweepTick, p - 1) + k;
      SweepRun(v, k) == v.(ch1 := v.ch1.(sweepTick := t % p, freq := RetunedTimes(v, t / p)))
  {
    var p := SweepPeriod(v);
    var t := Min(v.ch1.sweepTick, p - 1) + k;
    hide Retuned, Sweep;
    DivSucc(t - 1, p);
    if k == 1 {
      assert SweepRun(v, 0) == v && RetunedTimes(v, 0) == v.ch1.freq;
      DivUnique(t - 1, p, 0);
      SweepOnce(v);
    } else {
      SweepEveryPeriod(v, k - 1);
      SweepOnce(SweepRun(v, k - 1));
    }
  }
}
