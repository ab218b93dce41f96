/** The APU as the source runs it: sample loops, the segmented `tick` and the output queue. */
module ApuMachine {
  import opened Base
  import opened ApuDevice
  import opened ApuRange

  /** Channel 3 folds its phase step by step: `acc / 1500` steps of the 32-entry wave. */
  method FoldWave(acc: int, index: int) returns (acc': int, index': int)
    requires 0 <= acc && 0 <= index < 32
    ensures acc' == acc % 1500 && index' == (index + acc / 1500) % 32
  {
    acc', index' := acc, index;
    ghost var j: nat := 0;
    while acc' >= 1500
      invariant 0 <= acc' && acc == acc' + 1500 * j && index' == (index + j) % 32
    {
      acc', index' := acc' - 1500, (index' + 1) % 32;
      j := j + 1;
    }
    DivUnique(acc, 1500, j);
  }

  /** Channel 4 folds whole periods out of its phase, one LFSR step each. */
  method FoldNoise(acc: int, lfsr: int) returns (acc': int, lfsr': int)
    requires 0 <= acc < 2 * SAMPLE_RATE_HZ
    ensures acc' == acc % SAMPLE_RATE_HZ
    ensures lfsr' == if acc >= SAMPLE_RATE_HZ then NextLfsr(lfsr) else lfsr
  {
    acc', lfsr' := acc, lfsr;
    while acc' >= SAMPLE_RATE_HZ
      invariant 0 <= acc'
      invariant || (acc' == acc && lfsr' == lfsr)
                || (acc' == acc - SAMPLE_RATE_HZ && lfsr' == NextLfsr(lfsr) && acc >= SAMPLE_RATE_HZ)
    {
      acc' := acc' - SAMPLE_RATE_HZ;
      var feedback := if lfsr' % 2 != (lfsr' / 2) % 2 then 0x4000 else 0;
      lfsr' := lfsr' / 2 + feedback;
    }
    acc' := acc' % SAMPLE_RATE_HZ;
  }

  class Apu {
    var frameStep: int
    var tCycleCounter: int
    var samplePhase: int
    var sampleBuffer: seq<int>
    var voices: Voices
    var registers: seq<byte>
    var waveRamBytes: seq<byte>

    function State(): ApuState
      reads this
    {
      ApuState(frameStep, tCycleCounter, samplePhase, sampleBuffer, voices, registers, waveRamBytes)
    }

    constructor ()
      ensures State() == INITIAL_APU && ApuInv(State())
    {
      frameStep, tCycleCounter, samplePhase, sampleBuffer := 0, 0, 0, [];
      voices, registers, waveRamBytes := INITIAL_APU.voices, INITIAL_REGISTERS, INITIAL_WAVE;
      new;
      InitialInv();
    }

    method NextMixedSample() returns (sample: int)
      requires VoicesInv(voices)
      modifies this`voices
      ensures voices == NextVoices(old(voices)) && sample == Sample(old(voices))
    {
      hide MixSide, Square, Sample3, Sample4, Mirrored, Within, Saturate;
      var v := voices;
      if !v.power {
        return 0;
      }
      var acc3, waveIndex := v.acc3, v.waveIndex;
      if v.ch3.on {
        acc3, waveIndex := FoldWave((v.acc3 + v.ch3.freq) % SAMPLE_RATE_HZ, v.waveIndex);
      }
      var acc4, lfsr := v.acc4, v.lfsr;
      if v.ch4.on {
        acc4, lfsr := FoldNoise(v.acc4 + v.ch4.freq, v.lfsr);
      }
      assert acc4 == Acc4(v) && lfsr == Lfsr(v) && waveIndex == WaveIndex(v);
      voices := v.(acc1 := Advance1(v), acc2 := Advance2(v), acc3 := acc3, waveIndex := waveIndex,
                   acc4 := acc4, lfsr := lfsr);
      var c1 := Square(v.ch1.on, voices.acc1, v.ch1.duty, v.ch1.amp);
      var c2 := Square(v.ch2.on, voices.acc2, v.ch2.duty, v.ch2.amp);
      var left := MixSide(v.nr50, v.nr51, true, c1, c2, Sample3(v), Sample4(v));
      var right := MixSide(v.nr50, v.nr51, false, c1, c2, Sample3(v), Sample4(v));
      sample := TruncDiv(left + right, 2);
    }

    method EmitSamples(tCycles: nat)
      requires ApuInv(State())
      modifies this`samplePhase, this`sampleBuffer, this`voices
      ensures State() == Emit(old(State()), tCycles)
    {
      samplePhase := samplePhase + tCycles * SAMPLE_RATE_HZ;
      var generated := samplePhase / CLOCK_HZ;
      samplePhase := samplePhase % CLOCK_HZ;
      ghost var v, rest := voices, samplePhase;
      assert generated == Due(old(State()), tCycles);
      var i := 0;
      hide Due, ApuInv;
      hide VoicesInv, NextVoices, Sample, Mirrored, Within;
      while i < generated
        invariant 0 <= i <= generated
        invariant samplePhase == rest
        invariant voices == Run(NextVoices, v, i) && VoicesInv(voices)
        invariant sampleBuffer == old(sampleBuffer) + Samples(v, i)
      {
        NextVoicesInv(voices);
        var sample := NextMixedSample();
        sampleBuffer := sampleBuffer + [sample];
        i := i + 1;
      }
      if |sampleBuffer| > QUEUE_MAX {
        sampleBuffer := sampleBuffer[|sampleBuffer| - QUEUE_MAX..];
      }
    }

    method ApplySweep()
      requires VoicesInv(voices)
      modifies this`voices
      ensures voices == Sweep(old(voices), frameStep)
    {
      var c := voices.ch1;
      if (frameStep != 2 && frameStep != 6) || c.sweepShift == 0 {
        return;
      }
      var period := if c.sweepPeriod == 0 then 8 else c.sweepPeriod;
      c := c.(sweepTick := Min(c.sweepTick + 1, 255));
      if c.sweepTick >= period {
        var delta := c.freq / Pow2(c.sweepShift);
        var updated := if c.sweepNegate then Max(c.freq - delta, 0) else c.freq + delta;
        c := c.(sweepTick := 0, freq := Clamp(updated, 1, 20_000));
      }
      voices := voices.(ch1 := c);
    }

    /** The segmented fast form: the same full state as `tCycles` single cycles, and one step counted
        for every sequencer boundary crossed. */
    method Tick(tCycles: nat) returns (advancedSteps: nat)
      requires ApuInv(State())
      modifies this
      ensures State() == ApuRun(old(State()), tCycles) == TickSegments(old(State()), tCycles) && ApuInv(State())
      ensures advancedSteps == (old(tCycleCounter) + tCycles) / FRAME_SEQUENCER_PERIOD
    {
      hide VoicesInv, Sweep, Emit, ApuStep, Mirrored, Within;
      ghost var was := State();
      SegmentsAreRun(was, tCycles);
      var remaining: nat := tCycles;
      advancedSteps := 0;
      while remaining > 0
        invariant remaining <= tCycles
        invariant State() == ApuRun(was, tCycles - remaining) && ApuInv(State())
        invariant advancedSteps * FRAME_SEQUENCER_PERIOD + tCycleCounter == was.counter + (tCycles - remaining)
      {
        ghost var before := State();
        var segment := Min(remaining, FRAME_SEQUENCER_PERIOD - tCycleCounter);
        SegmentIsRun(before, segment);
        RunSplit(ApuStep, was, tCycles - remaining, segment);
        RunInv(before, segment);
        EmitKeepsClock(before, segment);
        EmitSamples(segment);
        tCycleCounter := tCycleCounter + segment;
        remaining := remaining - segment;
        if tCycleCounter == FRAME_SEQUENCER_PERIOD {
          tCycleCounter := 0;
          frameStep := (frameStep + 1) % FRAME_SEQUENCER_STEPS;
          EmitVoices(before, segment);
          ApplySweep();
          advancedSteps := advancedSteps + 1;
        }
        assert State() == Segment(before, segment);
      }
    }

    // ---------------------------------------------------------- register writes

    function Register(address: int): byte
      reads this
      requires FIRST <= address <= 0xFF26 && |registers| == 23
    {
      registers[address - FIRST]
    }

    method RetriggerCh1()
      requires |registers| == 23
      modifies this`voices
      ensures voices == Retrigger1(old(State()))
    {
      var c := voices.ch1;
      c := c.(freq := SquareFrequency(Period(Register(0xFF13), Register(0xFF14))));
      c := c.(duty := Register(0xFF11) / 64);
      c := c.(amp := EnvelopeAmplitude(Register(0xFF12)));
      c := c.(on := DacOn(Register(0xFF12)));
      voices := voices.(acc1 := 0);
      voices := voices.(ch1 := c.(sweepTick := 0));
    }

    method RetriggerCh2()
      requires |registers| == 23
      modifies this`voices
      ensures voices == Retrigger2(old(State()))
    {
      var c := voices.ch2;
      c := c.(freq := SquareFrequency(Period(Register(0xFF18), Register(0xFF19))));
      c := c.(duty := Register(0xFF16) / 64);
      c := c.(amp := EnvelopeAmplitude(Register(0xFF17)));
      c := c.(on := DacOn(Register(0xFF17)));
      voices := voices.(ch2 := c, acc2 := 0);
    }

    method RetriggerCh3()
      requires |registers| == 23
      modifies this`voices
      ensures voices == Retrigger3(old(State()))
    {
      var c := voices.ch3;
      c := c.(freq := WaveFrequency(Period(Register(0xFF1D), Register(0xFF1E))));
      c := c.(level := (Register(0xFF1C) / 32) % 4);
      c := c.(amp := PCM_UNITS_PER_STEP * 8);
      c := c.(on := Register(0xFF1A) >= 0x80);
      voices := voices.(ch3 := c, acc3 := 0, waveIndex := 1);
    }

    method RetriggerCh4()
      requires |registers| == 23
      modifies this`voices
      ensures voices == Retrigger4(old(State()))
    {
      var c := voices.ch4;
      c := c.(freq := NoiseFrequency(Register(0xFF22)));
      c := c.(amp := EnvelopeAmplitude(Register(0xFF21)));
      c := c.(on := DacOn(Register(0xFF21)));
      voices := voices.(ch4 := c, acc4 := 0, lfsr := 0x7FFF);
    }

    /** Channel 1's registers, already stored. */
    method ApplyCh1(address: word, value: byte)
      requires FIRST <= address <= 0xFF14 && |registers| == 23
      modifies this`voices
      ensures voices == Effect(old(State()), address, value)
    {
      hide SquareFrequency, Period;
      var c := voices.ch1;
      if address == 0xFF10 {
        c := c.(sweepPeriod := (value / 16) % 8, sweepShift := value % 8, sweepNegate := Bit(value, 8));
        voices := voices.(ch1 := c);
      } else if address == 0xFF11 {
        voices := voices.(ch1 := c.(duty := value / 64));
      } else if address == 0xFF12 {
        c := c.(amp := EnvelopeAmplitude(value));
        if !DacOn(value) {
          c := c.(on := false);
        }
        voices := voices.(ch1 := c);
      } else if address == 0xFF14 && value >= 0x80 {
        hide Retrigger1;
        RetriggerCh1();
      } else if c.on {
        voices := voices.(ch1 := c.(freq := SquareFrequency(Period(Register(0xFF13), Register(0xFF14)))));
      }
    }

    method ApplyCh2(address: word, value: byte)
      requires 0xFF15 < address <= 0xFF19 && |registers| == 23
      modifies this`voices
      ensures voices == Effect(old(State()), address, value)
    {
      hide SquareFrequency, Period;
      var c := voices.ch2;
      if address == 0xFF16 {
        voices := voices.(ch2 := c.(duty := value / 64));
      } else if address == 0xFF17 {
        c := c.(amp := EnvelopeAmplitude(value));
        if !DacOn(value) {
          c := c.(on := false);
        }
        voices := voices.(ch2 := c);
      } else if address == 0xFF19 && value >= 0x80 {
        hide Retrigger2;
        RetriggerCh2();
      } else if c.on {
        voices := voices.(ch2 := c.(freq := SquareFrequency(Period(Register(0xFF18), Register(0xFF19)))));
      }
    }

    method ApplyCh3(address: word, value: byte)
      requires 0xFF1A <= address <= 0xFF1E && |registers| == 23
      modifies this`voices
      ensures voices == Effect(old(State()), address, value)
    {
      hide WaveFrequency, Period;
      var c := voices.ch3;
      if address == 0xFF1A {
        if value < 0x80 {
          voices := voices.(ch3 := c.(on := false));
        }
      } else if address == 0xFF1C {
        voices := voices.(ch3 := c.(level := (value / 32) % 4));
      } else if address == 0xFF1E && value >= 0x80 {
        hide Retrigger3;
        RetriggerCh3();
      } else if c.on && (address == 0xFF1D || address == 0xFF1E) {
        voices := voices.(ch3 := c.(freq := WaveFrequency(Period(Register(0xFF1D), Register(0xFF1E)))));
      }
    }

    method ApplyCh4AndMixer(address: word, value: byte)
      requires 0xFF1F < address < 0xFF26 && |registers| == 23
      modifies this`voices
      ensures voices == Effect(old(State()), address, value)
    {
      var c := voices.ch4;
      if address == 0xFF21 {
        c := c.(amp := EnvelopeAmplitude(value));
        if !DacOn(value) {
          c := c.(on := false);
        }
        voices := voices.(ch4 := c);
      } else if address == 0xFF23 && value >= 0x80 {
        hide Retrigger4;
        RetriggerCh4();
      } else if address == 0xFF24 {
        voices := voices.(nr50 := value);
      } else if address == 0xFF25 {
        voices := voices.(nr51 := value);
      }
    }

    method PowerOffReset()
      requires |registers| == 23
      modifies this`registers, this`voices
      ensures registers == seq(23, i => if i == 22 then 0x70 else 0)
      ensures voices == ClearedVoices(old(voices))
    {
      registers := seq(23, i => 0);
      registers := registers[22 := 0x70];
      var v := voices;
      v := v.(nr50 := 0, nr51 := 0, power := false);
      v := v.(ch1 := Ch1(440, 2, 1250, false, 0, 0, false, 0), ch2 := Ch2(220, 2, 1250, false));
      v := v.(ch3 := Ch3(330, 1, 1250, false, v.ch3.wave), ch4 := Ch4(1024, 0, false));
      voices := v.(acc1 := 0, acc2 := 0, acc3 := 0, waveIndex := 0, acc4 := 0, lfsr := 0x7FFF);
    }

    method WritePowerRegister(value: byte)
      requires |registers| == 23
      modifies this
      ensures State() == WritePower(old(State()), value)
    {
      var wasPowered := voices.power;
      voices := voices.(power := value >= 0x80);
      registers := registers[22 := if voices.power then 0xF0 else 0x70];
      if !wasPowered && voices.power {
        frameStep, tCycleCounter := 0, 0;
      }
      if wasPowered && !voices.power {
        PowerOffReset();
      }
    }

    /** Any register write keeps the range invariant; only the two holes and foreign addresses are refused. */
    method WriteRegister(address: word, value: byte) returns (mapped: bool)
      requires ApuInv(State())
      modifies this
      ensures State() == ApuWrite(old(State()), address, value) && ApuInv(State())
      ensures mapped <==> (FIRST <= address <= 0xFF26 && !Hole(address)) || 0xFF30 <= address <= 0xFF3F
    {
      WriteInv(State(), address, value);
      assert |registers| == 23 && |waveRamBytes| == 16 && |voices.ch3.wave| == 32;
      hide ApuInv, Effect, WritePower;
      if 0xFF30 <= address <= 0xFF3F {
        var index := address - 0xFF30;
        waveRamBytes := waveRamBytes[index := value];
        var wave := voices.ch3.wave[2 * index := value / 16];
        voices := voices.(ch3 := voices.ch3.(wave := wave[2 * index + 1 := value % 16]));
        return true;
      }
      if address == 0xFF26 {
        WritePowerRegister(value);
        return true;
      }
      if !(FIRST <= address <= 0xFF26) || Hole(address) {
        return false;
      }
      if !voices.power {
        return true;
      }
      registers := registers[address - FIRST := value];
      if address <= 0xFF14 {
        ApplyCh1(address, value);
      } else if address <= 0xFF19 {
        ApplyCh2(address, value);
      } else if address <= 0xFF1E {
        ApplyCh3(address, value);
      } else {
        ApplyCh4AndMixer(address, value);
      }
      mapped := true;
    }

    /** Start-up values are stored without the side effects of a write. */
    method LoadStartupRegister(address: word, value: byte) returns (mapped: bool)
      requires ApuInv(State())
      modifies this
      ensures State() == LoadStartup(old(State()), address, value) && ApuInv(State())
      ensures mapped <==> (FIRST <= address <= 0xFF26 && !Hole(address)) || 0xFF30 <= address <= 0xFF3F
    {
      LoadInv(State(), address, value);
      assert |registers| == 23 && |waveRamBytes| == 16 && |voices.ch3.wave| == 32;
      hide ApuInv;
      if 0xFF30 <= address <= 0xFF3F {
        var index := address - 0xFF30;
        waveRamBytes := waveRamBytes[index := value];
        var wave := voices.ch3.wave[2 * index := value / 16];
        voices := voices.(ch3 := voices.ch3.(wave := wave[2 * index + 1 := value % 16]));
        return true;
      }
      if !(FIRST <= address <= 0xFF26) || Hole(address) {
        return false;
      }
      registers := registers[address - FIRST := value];
      if address == 0xFF26 {
        registers := registers[22 := if value >= 0x80 then 0xF0 else 0x70];
      }
      voices := Configured(voices, address, value);
      mapped := true;
    }

    /** Exactly the requested number of samples: the oldest of those kept, then silence. Samples are
        dropped first only above the latency target, and never ones this call could return. */
    method PullOutputSamples(requested: nat) returns (output: seq<int>)
      modifies this`sampleBuffer
      ensures |output| == requested
      ensures var q := old(sampleBuffer);
        var kept := if |q| > QUEUE_TARGET then q[|q| - Min(|q|, Max(QUEUE_TARGET, requested))..] else q;
        var n := Min(requested, |kept|);
        output[..n] == kept[..n] && sampleBuffer == kept[n..] && forall i | n <= i < requested :: output[i] == 0
    {
      if |sampleBuffer| > QUEUE_TARGET {
        var keep := Max(QUEUE_TARGET, requested);
        var drop := Max(|sampleBuffer| - keep, 0);
        sampleBuffer := sampleBuffer[drop..];
      }
      var available := Min(requested, |sampleBuffer|);
      output := sampleBuffer[..available];
      sampleBuffer := sampleBuffer[available..];
      if |output| < requested {
        output := output + seq(requested - |output|, i => 0);
      }
    }
  }

  lemma EmitVoices(a: ApuState, n: nat)
    requires ApuInv(a)
    ensures VoicesInv(Emit(a, n).voices)
  {
    assert Due(a, n) >= 0;
    hide VoicesInv, NextVoices, Samples, Due;
    VoicesRunInv(a.voices, Due(a, n));
  }

  lemma EmitKeepsClock(a: ApuState, n: nat)
    requires a.phase >= 0
    ensures var e := Emit(a, n);
      e.counter == a.counter && e.frameStep == a.frameStep && e.registers == a.registers && e.waveBytes == a.waveBytes
  {
    hide NextVoices, Samples, Due;
  }
}
