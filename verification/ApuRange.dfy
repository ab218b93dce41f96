/** APU register writes and the range invariant that makes its saturating arithmetic exact. */
module ApuRange {
  import opened Base
  import opened ApuDevice

  const FIRST := 0xFF10

  predicate Hole(address: word) { address == 0xFF15 || address == 0xFF1F }

  function Reg(a: ApuState, address: int): byte
    requires FIRST <= address <= 0xFF26
  {
    if |a.registers| == 23 then a.registers[address - FIRST] else 0xFF
  }

  function Period(lo: byte, hi: byte): int { lo + (hi % 8) * 256 }

  function SquareFrequency(period: int): int { Clamp(131_072 / Max(2048 - period, 1), 1, 20_000) }

  function WaveFrequency(period: int): int { Clamp(65_536 / Max(2048 - period, 1), 1, 20_000) }

  function NoiseFrequency(nr22: byte): int {
    var divisor := if nr22 % 8 == 0 then 8 else (nr22 % 8) * 16;
    Clamp(524_288 / divisor / Pow2(nr22 / 16), 1, 20_000)
  }

  function EnvelopeAmplitude(value: byte): int { (value / 16) * PCM_UNITS_PER_STEP }

  predicate DacOn(value: byte) { value >= 8 }

  function Store(a: ApuState, address: word, value: byte): ApuState
    requires FIRST <= address <= 0xFF26
  {
    if |a.registers| == 23 then a.(registers := a.registers[address - FIRST := value]) else a
  }

  function Retrigger1(a: ApuState): Voices {
    var v := a.voices;
    v.(ch1 := v.ch1.(freq := SquareFrequency(Period(Reg(a, 0xFF13), Reg(a, 0xFF14))), duty := Reg(a, 0xFF11) / 64,
                     amp := EnvelopeAmplitude(Reg(a, 0xFF12)), on := DacOn(Reg(a, 0xFF12)), sweepTick := 0),
       acc1 := 0)
  }

  function Retrigger2(a: ApuState): Voices {
    var v := a.voices;
    v.(ch2 := Ch2(SquareFrequency(Period(Reg(a, 0xFF18), Reg(a, 0xFF19))), Reg(a, 0xFF16) / 64,
                  EnvelopeAmplitude(Reg(a, 0xFF17)), DacOn(Reg(a, 0xFF17))),
       acc2 := 0)
  }

  function Retrigger3(a: ApuState): Voices {
    var v := a.voices;
    v.(ch3 := v.ch3.(freq := WaveFrequency(Period(Reg(a, 0xFF1D), Reg(a, 0xFF1E))), level := (Reg(a, 0xFF1C) / 32) % 4,
                     amp := PCM_UNITS_PER_STEP * 8, on := Reg(a, 0xFF1A) >= 0x80),
       acc3 := 0, waveIndex := 1)
  }

  function Retrigger4(a: ApuState): Voices {
    var v := a.voices;
    v.(ch4 := Ch4(NoiseFrequency(Reg(a, 0xFF22)), EnvelopeAmplitude(Reg(a, 0xFF21)), DacOn(Reg(a, 0xFF21))),
       acc4 := 0, lfsr := 0x7FFF)
  }

  /** The voice effect of a register store while powered; `a` already holds the stored value. */
  function Effect(a: ApuState, address: word, value: byte): Voices
    requires FIRST <= address < 0xFF26
  {
    var v := a.voices;
    if address == 0xFF10 then
      v.(ch1 := v.ch1.(sweepPeriod := (value / 16) % 8, sweepShift := value % 8, sweepNegate := Bit(value, 8)))
    else if address == 0xFF11 then v.(ch1 := v.ch1.(duty := value / 64))
    else if address == 0xFF12 then v.(ch1 := v.ch1.(amp := EnvelopeAmplitude(value), on := v.ch1.on && DacOn(value)))
    else if address == 0xFF14 && value >= 0x80 then Retrigger1(a)
    else if address == 0xFF13 || address == 0xFF14 then
      if v.ch1.on then v.(ch1 := v.ch1.(freq := SquareFrequency(Period(Reg(a, 0xFF13), Reg(a, 0xFF14))))) else v
    else if address == 0xFF16 then v.(ch2 := v.ch2.(duty := value / 64))
    else if address == 0xFF17 then v.(ch2 := v.ch2.(amp := EnvelopeAmplitude(value), on := v.ch2.on && DacOn(value)))
    else if address == 0xFF19 && value >= 0x80 then Retrigger2(a)
    else if address == 0xFF18 || address == 0xFF19 then
      if v.ch2.on then v.(ch2 := v.ch2.(freq := SquareFrequency(Period(Reg(a, 0xFF18), Reg(a, 0xFF19))))) else v
    else if address == 0xFF1A then v.(ch3 := v.ch3.(on := v.ch3.on && value >= 0x80))
    else if address == 0xFF1C then v.(ch3 := v.ch3.(level := (value / 32) % 4))
    else if address == 0xFF1E && value >= 0x80 then Retrigger3(a)
    else if address == 0xFF1D || address == 0xFF1E then
      if v.ch3.on then v.(ch3 := v.ch3.(freq := WaveFrequency(Period(Reg(a, 0xFF1D), Reg(a, 0xFF1E))))) else v
    else if address == 0xFF21 then v.(ch4 := v.ch4.(amp := EnvelopeAmplitude(value), on := v.ch4.on && DacOn(value)))
    else if address == 0xFF23 && value >= 0x80 then Retrigger4(a)
    else if address == 0xFF24 then v.(nr50 := value)
    else if address == 0xFF25 then v.(nr51 := value)
    else v
  }

  function ClearedVoices(v: Voices): Voices {
    Voices(Ch1(440, 2, 1250, false, 0, 0, false, 0), Ch2(220, 2, 1250, false),
           Ch3(330, 1, 1250, false, v.ch3.wave), Ch4(1024, 0, false), 0, 0, 0, 0, 0, 0x7FFF, 0, 0, false)
  }

  function WritePower(a: ApuState, value: byte): ApuState {
    var was, now := a.voices.power, value >= 0x80;
    var b := Store(a, 0xFF26, if now then 0xF0 else 0x70);
    if was && !now then
      b.(registers := seq(23, i => if i == 22 then 0x70 else 0), voices := ClearedVoices(a.voices))
    else if !was && now then b.(voices := b.voices.(power := true), frameStep := 0, counter := 0)
    else b
  }

  function WriteWave(a: ApuState, i: int, value: byte): ApuState
    requires 0 <= i < 16
  {
    if |a.waveBytes| == 16 && |a.voices.ch3.wave| == 32 then
      var wave := a.voices.ch3.wave[2 * i := value / 16][2 * i + 1 := value % 16];
      a.(waveBytes := a.waveBytes[i := value], voices := a.voices.(ch3 := a.voices.ch3.(wave := wave)))
    else a
  }

  function ApuWrite(a: ApuState, address: word, value: byte): ApuState {
    if 0xFF30 <= address <= 0xFF3F then WriteWave(a, address - 0xFF30, value)
    else if address == 0xFF26 then WritePower(a, value)
    else if !(FIRST <= address < 0xFF26) || Hole(address) || !a.voices.power then a
    else
      var b := Store(a, address, value);
      b.(voices := Effect(b, address, value))
  }

  function ApuRead(a: ApuState, address: word): byte {
    if 0xFF30 <= address <= 0xFF3F then (if |a.waveBytes| == 16 then a.waveBytes[address - 0xFF30] else 0xFF)
    else if address == 0xFF26 then
      var v := a.voices;
      (if v.power then 0x80 + (if v.ch1.on then 1 else 0) + (if v.ch2.on then 2 else 0) + (if v.ch3.on then 4 else 0)
       + (if v.ch4.on then 8 else 0) else 0) + 0x70
    else if !(FIRST <= address < 0xFF26) || Hole(address) then 0xFF
    else if address == 0xFF24 then a.voices.nr50
    else if address == 0xFF25 then a.voices.nr51
    else Reg(a, address)
  }

  const INITIAL_REGISTERS: seq<byte> :=
    [0x80, 0xBF, 0xF3, 0, 0xBF, 0, 0x3F, 0, 0, 0xBF, 0x7F, 0xFF, 0x9F, 0, 0xBF, 0, 0xFF, 0, 0, 0xBF, 0x77, 0xF3, 0xF0]

  const INITIAL_WAVE: seq<byte> :=
    [0x02, 0x46, 0x8A, 0xCE, 0xFD, 0xB9, 0x75, 0x31, 0x02, 0x46, 0x8A, 0xCE, 0xFD, 0xB9, 0x75, 0x31]

  const INITIAL_NIBBLES: seq<int> :=
    [0, 2, 4, 6, 8, 10, 12, 14, 15, 13, 11, 9, 7, 5, 3, 1, 0, 2, 4, 6, 8, 10, 12, 14, 15, 13, 11, 9, 7, 5, 3, 1]

  const INITIAL_APU := ApuState(0, 0, 0, [],
    Voices(Ch1(440, 2, 0, false, 0, 0, false, 0), Ch2(220, 2, 0, false), Ch3(330, 1, 0, false, INITIAL_NIBBLES),
           Ch4(1024, 0, false), 0, 0, 0, 0, 0, 0x7FFF, 0x77, 0xF3, true),
    INITIAL_REGISTERS, INITIAL_WAVE)

  // ----------------------------------------------------------- the invariant

  predicate Audible(freq: int, amp: int) { 1 <= freq <= 20_000 && 0 <= amp <= LIMIT }

  predicate Ch1Inv(c: Ch1) {
    Audible(c.freq, c.amp) && 0 <= c.duty < 4 && 0 <= c.sweepPeriod < 8 && 0 <= c.sweepShift < 8 &&
    0 <= c.sweepTick < 256
  }

  predicate Ch2Inv(c: Ch2) { Audible(c.freq, c.amp) && 0 <= c.duty < 4 }

  predicate Ch3Inv(c: Ch3) {
    Audible(c.freq, c.amp) && c.amp <= 1440 && 0 <= c.level < 4 && |c.wave| == 32 &&
    forall i | 0 <= i < 32 :: 0 <= c.wave[i] < 16
  }

  predicate Ch4Inv(c: Ch4) { Audible(c.freq, c.amp) }

  predicate VoicesInv(v: Voices) {
    && Ch1Inv(v.ch1) && Ch2Inv(v.ch2) && Ch3Inv(v.ch3) && Ch4Inv(v.ch4)
    && 0 <= v.acc1 < SAMPLE_RATE_HZ && 0 <= v.acc2 < SAMPLE_RATE_HZ && 0 <= v.acc3 < 1500
    && 0 <= v.acc4 < SAMPLE_RATE_HZ
    && 0 <= v.waveIndex < 32 && 0 < v.lfsr < 0x8000
  }

  predicate Mirrored(bytes: seq<byte>, nibbles: seq<int>) {
    |bytes| == 16 && |nibbles| == 32 &&
    forall i | 0 <= i < 32 :: nibbles[i] == if i % 2 == 0 then bytes[i / 2] / 16 else bytes[i / 2] % 16
  }

  predicate Within(q: seq<int>) { forall i | 0 <= i < |q| :: -LIMIT <= q[i] <= LIMIT }

  predicate ApuInv(a: ApuState) {
    Timed(a) && |a.registers| == 23 && Mirrored(a.waveBytes, a.voices.ch3.wave) &&
    VoicesInv(a.voices) && Within(a.queue)
  }

  /** The literal nibble table is the mirror of the literal wave bytes. */
  lemma InitialMirrored()
    ensures Mirrored(INITIAL_WAVE, INITIAL_NIBBLES)
  {
    forall i | 0 <= i < 32
      ensures INITIAL_NIBBLES[i] == if i % 2 == 0 then INITIAL_WAVE[i / 2] / 16 else INITIAL_WAVE[i / 2] % 16
    {
      InitialByte(i / 2);
    }
  }

  lemma InitialByte(j: int)
    requires 0 <= j < 16
    ensures |INITIAL_WAVE| == 16 && |INITIAL_NIBBLES| == 32
    ensures INITIAL_NIBBLES[2 * j] == INITIAL_WAVE[j] / 16 && INITIAL_NIBBLES[2 * j + 1] == INITIAL_WAVE[j] % 16
  {
    var j' := j % 8;
    if j' == 0 {} else if j' == 1 {} else if j' == 2 {} else if j' == 3 {}
    else if j' == 4 {} else if j' == 5 {} else if j' == 6 {} else {}
  }

  lemma InitialInv()
    ensures ApuInv(INITIAL_APU)
  {
    InitialMirrored();
  }

  lemma Square1(v: Voices)
    requires VoicesInv(v)
    ensures -LIMIT <= Square(v.ch1.on, Advance1(v), v.ch1.duty, v.ch1.amp) <= LIMIT
    ensures -LIMIT <= Square(v.ch2.on, Advance2(v), v.ch2.duty, v.ch2.amp) <= LIMIT
    ensures -LIMIT <= Sample4(v) <= LIMIT
  {
  }

  lemma WaveSample(v: Voices)
    requires VoicesInv(v)
    ensures -1440 <= Sample3(v) <= 1440
  {
    if v.ch3.on {
      var i := WaveIndex(v);
      var raw := v.ch3.wave[i] - 8;
      var shifted := if v.ch3.level == 0 then 0 else if v.ch3.level == 2 then TruncDiv(raw, 2)
                     else if v.ch3.level == 3 then TruncDiv(raw, 4) else raw;
      assert -8 <= shifted <= 8;
      var unit := TruncDiv(v.ch3.amp, 8);
      assert 0 <= unit <= 180;
      ProductBound(shifted, unit);
    }
  }

  lemma ProductBound(x: int, y: int)
    requires -8 <= x <= 8 && 0 <= y <= 180
    ensures -1440 <= x * y <= 1440
  {
    MulMonotone(y, x, 8);
    MulMonotone(y, -8, x);
  }

  /** Averaging the active parts of a bounded sum stays bounded. */
  lemma AverageBound(sum: int, active: int)
    requires 0 <= active <= 4 && -LIMIT * active <= sum <= LIMIT * active
    ensures -LIMIT <= TruncDiv(sum, Max(active, 1)) <= LIMIT
  {
    if active == 2 { assert -LIMIT <= TruncDiv(sum, 2) <= LIMIT; }
    else if active == 3 { assert -LIMIT <= TruncDiv(sum, 3) <= LIMIT; }
    else if active == 4 { assert -LIMIT <= TruncDiv(sum, 4) <= LIMIT; }
  }

  lemma VolumeBound(x: int, volume: int)
    requires -LIMIT <= x <= LIMIT && 0 <= volume < 8
    ensures -LIMIT <= TruncDiv(x * (volume + 1), 8) <= LIMIT
  {
    var y := x * (volume + 1);
    assert -LIMIT * 8 <= y <= LIMIT * 8;
  }

  /** No saturating add and no clamp of the mixer ever acts, and every mixed side stays in range. */
  lemma MixIsExact(nr50: byte, nr51: byte, left: bool, c1: int, c2: int, c3: int, c4: int)
    requires -LIMIT <= c1 <= LIMIT && -LIMIT <= c2 <= LIMIT && -LIMIT <= c3 <= LIMIT && -LIMIT <= c4 <= LIMIT
    ensures MixSide(nr50, nr51, left, c1, c2, c3, c4) == MixExactly(nr50, nr51, left, c1, c2, c3, c4)
    ensures -LIMIT <= MixSide(nr50, nr51, left, c1, c2, c3, c4) <= LIMIT
  {
    hide Routed, Volume, TruncDiv, Part, Active, Saturate;
    var r1, r2, r3, r4 := Routed(nr51, left, 0), Routed(nr51, left, 1), Routed(nr51, left, 2), Routed(nr51, left, 3);
    PartBound(r1, c1);
    PartBound(r2, c2);
    PartBound(r3, c3);
    PartBound(r4, c4);
    var p1, p2, p3, p4 := Part(r1, c1), Part(r2, c2), Part(r3, c3), Part(r4, c4);
    InRange(0 + p1);
    InRange(p1 + p2);
    InRange(p1 + p2 + p3);
    InRange(p1 + p2 + p3 + p4);
    var active := Active(r1, c1) + Active(r2, c2) + Active(r3, c3) + Active(r4, c4);
    var average := TruncDiv(p1 + p2 + p3 + p4, Max(active, 1));
    AverageBound(p1 + p2 + p3 + p4, active);
    VolumeRange(nr50, left);
    VolumeBound(average, Volume(nr50, left));
    InRange(TruncDiv(average * (Volume(nr50, left) + 1), 8));
  }

  lemma PartBound(routed: bool, x: int)
    requires -LIMIT <= x <= LIMIT
    ensures 0 <= Active(routed, x) <= 1 && -LIMIT * Active(routed, x) <= Part(routed, x) <= LIMIT * Active(routed, x)
  {
  }

  lemma InRange(x: int)
    requires -32768 <= x <= 32767
    ensures Saturate(x) == x
  {
  }

  lemma VolumeRange(nr50: byte, left: bool)
    ensures 0 <= Volume(nr50, left) < 8
  {
  }

  lemma SampleBound(v: Voices)
    requires VoicesInv(v)
    ensures -LIMIT <= Sample(v) <= LIMIT
  {
    Square1(v);
    WaveSample(v);
    hide VoicesInv, MixSide, Square, Advance1, Advance2, Sample3, Sample4;
    if v.power {
      var c1 := Square(v.ch1.on, Advance1(v), v.ch1.duty, v.ch1.amp);
      var c2 := Square(v.ch2.on, Advance2(v), v.ch2.duty, v.ch2.amp);
      MixIsExact(v.nr50, v.nr51, true, c1, c2, Sample3(v), Sample4(v));
      MixIsExact(v.nr50, v.nr51, false, c1, c2, Sample3(v), Sample4(v));
    }
  }

  lemma LfsrNonzero(x: int)
    requires 0 < x < 0x8000
    ensures 0 < NextLfsr(x) < 0x8000
  {
  }

  lemma NextVoicesInv(v: Voices)
    requires VoicesInv(v)
    ensures VoicesInv(NextVoices(v)) && NextVoices(v).ch3.wave == v.ch3.wave
  {
    LfsrNonzero(v.lfsr);
    hide NextLfsr;
  }

  lemma SweepInv(v: Voices, frameStep: int)
    requires VoicesInv(v)
    ensures VoicesInv(Sweep(v, frameStep)) && Sweep(v, frameStep).ch3.wave == v.ch3.wave
  {
    hide Pow2;
  }

  lemma {:induction false} VoicesRunInv(v: Voices, k: nat)
    requires VoicesInv(v)
    ensures VoicesInv(Run(NextVoices, v, k)) && Run(NextVoices, v, k).ch3.wave == v.ch3.wave
    ensures Within(Samples(v, k))
  {
    hide NextVoices, VoicesInv, Sample;
    if k > 0 {
      VoicesRunInv(v, k - 1);
      NextVoicesInv(Run(NextVoices, v, k - 1));
      SampleBound(Run(NextVoices, v, k - 1));
    }
  }

  lemma NewestWithin(q: seq<int>, r: seq<int>)
    requires Within(q) && Within(r)
    ensures Within(Newest(q + r))
  {
  }

  lemma StepInv(a: ApuState)
    requires ApuInv(a)
    ensures ApuInv(ApuStep(a))
  {
    StepTimed(a);
    assert Due(a, 1) >= 0;
    hide VoicesInv, Sweep, Mirrored, Samples, NextVoices, Due, Within, Newest, Timed;
    VoicesRunInv(a.voices, Due(a, 1));
    NewestWithin(a.queue, Samples(a.voices, Due(a, 1)));
    SweepInv(Run(NextVoices, a.voices, Due(a, 1)), (a.frameStep + 1) % FRAME_SEQUENCER_STEPS);
  }

  lemma StepTimed(a: ApuState)
    requires Timed(a)
    ensures Timed(ApuStep(a)) && a.phase >= 0
  {
    hide ApuStep;
    assert ApuRun(a, 0) == a && ApuRun(a, 1) == ApuStep(a);
    RunTimed(a, 1);
  }

  lemma FrequencyRange(period: int)
    ensures 1 <= SquareFrequency(period) <= 20_000 && 1 <= WaveFrequency(period) <= 20_000
  {
  }

  lemma EffectInv(a: ApuState, address: word, value: byte)
    requires VoicesInv(a.voices) && FIRST <= address < 0xFF26
    ensures VoicesInv(Effect(a, address, value)) && Effect(a, address, value).ch3.wave == a.voices.ch3.wave
  {
    hide SquareFrequency, WaveFrequency, NoiseFrequency, Period, Reg;
    if address <= 0xFF14 {
      hide Ch2Inv, Ch3Inv, Ch4Inv, Retrigger2, Retrigger3, Retrigger4;
      FrequencyRange(Period(Reg(a, 0xFF13), Reg(a, 0xFF14)));
    } else if address <= 0xFF19 {
      hide Ch1Inv, Ch3Inv, Ch4Inv, Retrigger1, Retrigger3, Retrigger4;
      FrequencyRange(Period(Reg(a, 0xFF18), Reg(a, 0xFF19)));
    } else if address <= 0xFF1E {
      hide Ch1Inv, Ch2Inv, Ch4Inv, Retrigger1, Retrigger2, Retrigger4;
      FrequencyRange(Period(Reg(a, 0xFF1D), Reg(a, 0xFF1E)));
    } else {
      hide Ch1Inv, Ch2Inv, Ch3Inv, Retrigger1, Retrigger2, Retrigger3;
      NoiseRange(Reg(a, 0xFF22));
    }
  }

  lemma NoiseRange(nr22: byte)
    ensures 1 <= NoiseFrequency(nr22) <= 20_000
  {
  }

  lemma PowerInv(a: ApuState, value: byte)
    requires ApuInv(a)
    ensures ApuInv(WritePower(a, value))
  {
  }

  lemma WaveInv(a: ApuState, i: int, value: byte)
    requires ApuInv(a) && 0 <= i < 16
    ensures ApuInv(WriteWave(a, i, value))
  {
  }

  lemma WriteInv(a: ApuState, address: word, value: byte)
    requires ApuInv(a)
    ensures ApuInv(ApuWrite(a, address, value))
  {
    hide VoicesInv, Effect, WritePower, WriteWave, Mirrored;
    if 0xFF30 <= address <= 0xFF3F {
      WaveInv(a, address - 0xFF30, value);
    } else if address == 0xFF26 {
      PowerInv(a, value);
    } else if FIRST <= address < 0xFF26 {
      EffectInv(Store(a, address, value), address, value);
    }
  }

  lemma {:induction false} RunInv(a: ApuState, n: nat)
    requires ApuInv(a)
    ensures ApuInv(ApuRun(a, n))
  {
    hide ApuStep, ApuInv;
    if n > 0 {
      RunInv(a, n - 1);
      StepInv(ApuRun(a, n - 1));
    }
  }

  datatype ApuEvent = Cycle | Write(address: word, value: byte)

  function ApuApply(a: ApuState, e: ApuEvent): ApuState {
    match e
    case Cycle => ApuStep(a)
    case Write(address, value) => ApuWrite(a, address, value)
  }

  function ApuTrace(a: ApuState, events: seq<ApuEvent>): ApuState {
    if events == [] then a
    else ApuApply(ApuTrace(a, events[..|events| - 1]), events[|events| - 1])
  }

  /** Over every run of cycles and register writes from a state in range: frequencies stay in 1..20000,
      phases in range, the LFSR a nonzero 15-bit value, the nibble wave table the mirror of the wave bytes,
      and every queued sample within 2700 of zero. */
  lemma {:induction false} RangeInvariant(a: ApuState, events: seq<ApuEvent>)
    requires ApuInv(a)
    ensures var b := ApuTrace(a, events);
      ApuInv(b) &&
      1 <= b.voices.ch1.freq <= 20_000 && 1 <= b.voices.ch2.freq <= 20_000 &&
      1 <= b.voices.ch3.freq <= 20_000 && 1 <= b.voices.ch4.freq <= 20_000 &&
      0 < b.voices.lfsr < 0x8000 && Mirrored(b.waveBytes, b.voices.ch3.wave) && Within(b.queue)
  {
    hide ApuStep, ApuWrite, Mirrored, Timed;
    if events != [] {
      RangeInvariant(a, events[..|events| - 1]);
      var b := ApuTrace(a, events[..|events| - 1]);
      match events[|events| - 1]
      case Cycle => StepInv(b);
      case Write(address, value) => WriteInv(b, address, value);
    }
  }

  // ------------------------------------------------------- start-up registers

  datatype Load = Load(address: word, value: byte)

  /** The voice settings that a start-up load takes over; none of them triggers a channel. */
  function Configured(v: Voices, address: word, value: byte): Voices {
    if address == 0xFF10 then
      v.(ch1 := v.ch1.(sweepPeriod := (value / 16) % 8, sweepShift := value % 8, sweepNegate := Bit(value, 8)))
    else if address == 0xFF11 then v.(ch1 := v.ch1.(duty := value / 64))
    else if address == 0xFF16 then v.(ch2 := v.ch2.(duty := value / 64))
    else if address == 0xFF1C then v.(ch3 := v.ch3.(level := (value / 32) % 4))
    else if address == 0xFF24 then v.(nr50 := value)
    else if address == 0xFF25 then v.(nr51 := value)
    else if address == 0xFF26 then
      v.(ch1 := v.ch1.(on := false), ch2 := v.ch2.(on := false), ch3 := v.ch3.(on := false), ch4 := v.ch4.(on := false),
         power := value >= 0x80)
    else v
  }

  /** A register value given at start-up, without the side effects of a write. */
  function LoadStartup(a: ApuState, address: word, value: byte): ApuState {
    hide Configured, Mirrored, VoicesInv;
    if 0xFF30 <= address <= 0xFF3F then WriteWave(a, address - 0xFF30, value)
    else if !(FIRST <= address <= 0xFF26) || Hole(address) then a
    else
      var stored: byte := if address != 0xFF26 then value else if value >= 0x80 then 0xF0 else 0x70;
      Store(a, address, stored).(voices := Configured(a.voices, address, value))
  }

  function LoadAll(a: ApuState, loads: seq<Load>): ApuState {
    hide LoadStartup;
    if loads == [] then a
    else LoadStartup(LoadAll(a, loads[..|loads| - 1]), loads[|loads| - 1].address, loads[|loads| - 1].value)
  }

  lemma ConfiguredInv(v: Voices, address: word, value: byte)
    requires VoicesInv(v)
    ensures VoicesInv(Configured(v, address, value)) && Configured(v, address, value).ch3.wave == v.ch3.wave
  {
  }

  lemma LoadInv(a: ApuState, address: word, value: byte)
    requires ApuInv(a)
    ensures ApuInv(LoadStartup(a, address, value))
  {
    if 0xFF30 <= address <= 0xFF3F {
      WaveInv(a, address - 0xFF30, value);
    } else {
      ConfiguredInv(a.voices, address, value);
    }
    hide VoicesInv, Configured, WriteWave, Mirrored;
  }

  lemma {:induction false} LoadAllInv(a: ApuState, loads: seq<Load>)
    requires ApuInv(a)
    ensures ApuInv(LoadAll(a, loads))
  {
    hide LoadStartup, ApuInv;
    if loads != [] {
      LoadAllInv(a, loads[..|loads| - 1]);
      LoadInv(LoadAll(a, loads[..|loads| - 1]), loads[|loads| - 1].address, loads[|loads| - 1].value);
    }
  }

  /** The same from every entry point: the constructor's state with any start-up values loaded. */
  lemma RangeFromStartup(loads: seq<Load>, events: seq<ApuEvent>)
    ensures ApuInv(ApuTrace(LoadAll(INITIAL_APU, loads), events))
  {
    InitialInv();
    hide ApuInv, ApuTrace, LoadAll;
    LoadAllInv(INITIAL_APU, loads);
    RangeInvariant(LoadAll(INITIAL_APU, loads), events);
  }

  // -------------------------------------------------------------- powering off

  /** NR52 cleared: registers read as zero and every sample is silent, while the wave table, the sequencer
      clock and the samples already queued are untouched. */
  lemma PowerOffMeans(a: ApuState, value: byte)
    requires ApuInv(a) && a.voices.power && value < 0x80
    ensures var b := ApuWrite(a, 0xFF26, value);
      |b.registers| == 23 && !b.voices.power && Sample(b.voices) == 0 && ApuRead(b, 0xFF26) == 0x70 &&
      b.registers[22] == 0x70 &&
      (forall address: word | FIRST <= address < 0xFF26 && !Hole(address) :: ApuRead(b, address) == 0) &&
      (forall address: word | 0xFF30 <= address <= 0xFF3F :: ApuRead(b, address) == ApuRead(a, address)) &&
      b.voices.ch3.wave == a.voices.ch3.wave && b.queue == a.queue && b.phase == a.phase &&
      b.counter == a.counter && b.frameStep == a.frameStep
  {
    hide VoicesInv, Mirrored, Within;
  }

  predicate StaysOff(events: seq<ApuEvent>) {
    forall e | e in events :: e.Write? && e.address == 0xFF26 ==> e.value < 0x80
  }

  /** What a powered-off APU keeps whatever happens but a power-on: its registers, and only silence is
      added to the queue. */
  predicate OffSince(a: ApuState, b: ApuState, k: nat) {
    !b.voices.power && b.registers == a.registers && b.queue == Newest(a.queue + seq(k, i => 0))
  }

  lemma SilentStep(a: ApuState)
    requires ApuInv(a) && !a.voices.power
    ensures var b := ApuStep(a);
      !b.voices.power && b.registers == a.registers && b.queue == Newest(a.queue + seq(Due(a, 1), i => 0))
  {
    assert 0 <= Due(a, 1) <= 1;
    assert Samples(a.voices, 0) == [] && Samples(a.voices, 1) == Samples(a.voices, 0) + [0];
    assert Run(NextVoices, a.voices, 0) == a.voices && Run(NextVoices, a.voices, 1) == a.voices;
    assert seq(0, i => 0) == [] && seq(1, i => 0) == [0];
    hide VoicesInv, Mirrored, Within, MixSide, Square, Sample3, Sample4;
  }

  lemma MoreSilence(q: seq<int>, j: nat, k: nat)
    ensures Newest(Newest(q + seq(j, i => 0)) + seq(k, i => 0)) == Newest(q + seq(j + k, i => 0))
  {
    NewestNewest(q + seq(j, i => 0), seq(k, i => 0));
    assert q + seq(j, i => 0) + seq(k, i => 0) == q + seq(j + k, i => 0);
  }

  /** While it is off a write reaches nothing but the wave table. */
  lemma SilentWrite(a: ApuState, address: word, value: byte)
    requires ApuInv(a) && !a.voices.power && (address == 0xFF26 ==> value < 0x80) && a.registers[22] == 0x70
    ensures var b := ApuWrite(a, address, value);
      !b.voices.power && b.registers == a.registers && b.queue == a.queue
  {
    hide VoicesInv, Mirrored, Within, Effect;
  }

  /** Clock cycles in a run. */
  function CyclesIn(events: seq<ApuEvent>): nat {
    if events == [] then 0 else CyclesIn(events[..|events| - 1]) + if events[|events| - 1].Cycle? then 1 else 0
  }

  /** The resampler's phase after `n` cycles; `Due` is its count. */
  function PhaseAfter(a: ApuState, n: nat): int { (a.phase + n * SAMPLE_RATE_HZ) % CLOCK_HZ }

  lemma PhaseStep(a: ApuState, b: ApuState, n: nat)
    requires b.phase == PhaseAfter(a, n)
    ensures Due(a, n + 1) == Due(a, n) + Due(b, 1)
    ensures PhaseAfter(a, n + 1) == (b.phase + SAMPLE_RATE_HZ) % CLOCK_HZ
  {
    var x := a.phase + n * SAMPLE_RATE_HZ;
    DivShift(x % CLOCK_HZ + SAMPLE_RATE_HZ, CLOCK_HZ, x / CLOCK_HZ);
  }

  lemma WriteKeepsPhase(a: ApuState, address: word, value: byte)
    ensures ApuWrite(a, address, value).phase == a.phase
  {
    hide Effect;
  }

  lemma StepPhase(a: ApuState)
    requires ApuInv(a)
    ensures ApuStep(a).phase == (a.phase + SAMPLE_RATE_HZ) % CLOCK_HZ
  {
    hide VoicesInv, Mirrored;
  }

  /** Over every run of cycles and writes without a power-on, a powered-off APU keeps its registers and
      adds only silence, one sample for every 4194304/48000 cycles of the run. */
  lemma {:induction false} OffIsSilent(a: ApuState, events: seq<ApuEvent>)
    requires ApuInv(a) && !a.voices.power && a.registers[22] == 0x70 && StaysOff(events)
    ensures var b, x := ApuTrace(a, events), a.phase + CyclesIn(events) * SAMPLE_RATE_HZ;
      OffSince(a, b, x / CLOCK_HZ) && b.phase == x % CLOCK_HZ
  {
    hide ApuApply, VoicesInv, Mirrored, Within, Newest;
    if events == [] {
      OffAtFirst(a);
    } else {
      hide ApuInv, OffSince;
      var before, e := events[..|events| - 1], events[|events| - 1];
      assert e in events && forall e | e in before :: e in events;
      OffIsSilent(a, before);
      RangeInvariant(a, before);
      OffSilentEvent(a, ApuTrace(a, before), CyclesIn(before), e);
    }
  }

  lemma OffAtFirst(a: ApuState)
    requires ApuInv(a) && !a.voices.power
    ensures OffSince(a, a, a.phase / CLOCK_HZ) && a.phase == a.phase % CLOCK_HZ
  {
    hide VoicesInv, Mirrored;
    ShortQueue(a.queue);
    assert a.queue + seq(0, i => 0) == a.queue;
  }

  lemma OffSilentEvent(a: ApuState, b: ApuState, n: nat, e: ApuEvent)
    requires ApuInv(a) && ApuInv(b) && a.registers[22] == 0x70 && (e.Write? && e.address == 0xFF26 ==> e.value < 0x80)
    requires Due(a, n) >= 0 && OffSince(a, b, Due(a, n)) && b.phase == PhaseAfter(a, n)
    ensures var c, m := ApuApply(b, e), n + if e.Cycle? then 1 else 0;
      Due(a, m) >= 0 && OffSince(a, c, Due(a, m)) && c.phase == PhaseAfter(a, m)
  {
    hide ApuStep, ApuWrite, ApuInv, OffSince, Due, PhaseAfter;
    match e
    case Cycle =>
      DueBounds(b);
      OffCycle(a, b, Due(a, n));
      StepPhase(b);
      PhaseStep(a, b, n);
    case Write(address, value) =>
      OffWrite(a, b, Due(a, n), address, value);
      WriteKeepsPhase(b, address, value);
  }

  lemma OffCycle(a: ApuState, b: ApuState, k: nat)
    requires ApuInv(b) && OffSince(a, b, k)
    ensures Due(b, 1) >= 0 && OffSince(a, ApuStep(b), k + Due(b, 1))
  {
    DueBounds(b);
    SilentStep(b);
    hide ApuStep, VoicesInv, Mirrored, Within, Due, Newest;
    MoreSilence(a.queue, k, Due(b, 1));
  }

  lemma DueBounds(a: ApuState)
    requires ApuInv(a)
    ensures 0 <= Due(a, 1) <= 1
  {
    hide VoicesInv, Mirrored;
  }

  lemma OffWrite(a: ApuState, b: ApuState, k: nat, address: word, value: byte)
    requires ApuInv(b) && OffSince(a, b, k) && a.registers[22] == 0x70 && (address == 0xFF26 ==> value < 0x80)
    ensures OffSince(a, ApuWrite(b, address, value), k)
  {
    hide ApuWrite, VoicesInv, Mirrored, Within, Newest;
    SilentWrite(b, address, value);
  }
}
