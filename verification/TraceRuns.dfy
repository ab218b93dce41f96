/** Two loops, run from start-up, whose printed cycle span is wrong. */
module TraceRuns {
  import opened Base
  import TimerDevice
  import PpuDevice
  import Opcodes
  import opened BusModel
  import BusMemory
  import opened CpuModel
  import opened Scheduler
  import opened StartUp
  import opened TraceCompressor
  import opened TraceSpans

  /** The signature of a running CPU's step. */
  lemma RunningSignature(m: Core, v: View, rom: Image)
    requires Stage(m, v) && Mapped(v.mem, rom) && v.pc < 0x7FFD
    ensures var d := Step(Dispatch, m.cpu, m.bus).cpu;
      SignatureOf(m.cpu, m.bus) ==
      Signature(Some(rom[v.pc]), v.pc, d.pc, if d.fetchCount > 1 then Some(d.fetchBytes[1]) else None,
                if d.fetchCount > 2 then Some(d.fetchBytes[2]) else None,
                d.pc != Wrap(v.pc + LengthOf(Some(rom[v.pc]))), false)
  {
    hide Step, BusMemory.Read8, LengthOf, Mapped, Pending;
    ImageRead(m, v, rom, v.pc);
  }

  // ---------------------------------------- a conditional jump to its own successor

  lemma LoopMetadata()
    ensures Opcodes.MetadataFor(0x3F) == Some(Opcodes.Plain(0x3F, Opcodes.Ccf, 4))
    ensures Opcodes.MetadataFor(0x38) == Some(Opcodes.If(0x38, Opcodes.JrCond, Some(Opcodes.Relative), None, 12, 8))
    ensures Opcodes.MetadataFor(0x18) == Some(Opcodes.With8(0x18, Opcodes.Jr, Opcodes.Relative, Opcodes.Fixed(12)))
  {
  }

  function Complemented(r: Registers): Registers { r.(f := r.f.(n := false, h := false, c := !r.f.c)) }

  lemma CcfByte(meta: Opcodes.Metadata, m: Core)
    requires meta == Opcodes.Plain(0x3F, Opcodes.Ccf, 4)
    ensures Opcodes.Executable(meta) && ExecuteByte(meta, m) == Core(m.cpu.(r := Complemented(m.cpu.r)), m.bus)
  {
    hide Fetch8, BusMemory.Write8, BusMemory.Read8, ReadR8, WriteR8;
  }

  lemma CcfExecutes(m: Core, pending: bv8)
    ensures var r := ExecuteOpcode(m.cpu, m.bus, 0x3F, pending, false);
      r.cpu == m.cpu.(r := Complemented(m.cpu.r)) && r.bus == m.bus && r.cycles == 4
  {
    hide Opcodes.MetadataFor, ExecuteLoad, ExecuteDirectLoad, ExecuteWide, ExecuteJump, ExecuteCb, ExecuteControl,
         ExecuteByte, Complemented;
    LoopMetadata();
    var meta := Opcodes.Plain(0x3F, Opcodes.Ccf, 4);
    CcfByte(meta, m);
    assert Execute(meta, m, pending, false, false) == ExecuteByte(meta, m);
  }

  lemma JrJump(meta: Opcodes.Metadata, m: Core, taken: bool)
    requires meta == Opcodes.With8(0x18, Opcodes.Jr, Opcodes.Relative, Opcodes.Fixed(12)) ||
             meta == Opcodes.If(0x38, Opcodes.JrCond, Some(Opcodes.Relative), None, 12, 8)
    ensures var v := Fetch8(m.cpu, m.bus);
      Opcodes.Executable(meta) &&
      ExecuteJump(meta, m, taken) ==
      Core(if meta.instruction.Jr? || taken then v.cpu.(pc := Wrap(v.cpu.pc + Signed(v.value))) else v.cpu, m.bus)
  {
    hide Fetch8, Fetch16, Push16, Pop16, Signed, Wrap;
  }

  lemma JrExecutes(m: Core, pending: bv8)
    ensures var v, r := Fetch8(m.cpu, m.bus), ExecuteOpcode(m.cpu, m.bus, 0x18, pending, false);
      r.cpu == v.cpu.(pc := Wrap(v.cpu.pc + Signed(v.value))) && r.bus == m.bus && r.cycles == 12
  {
    hide Opcodes.MetadataFor, ExecuteLoad, ExecuteDirectLoad, ExecuteWide, ExecuteByte, ExecuteCb, ExecuteControl,
         Fetch8, Signed, Wrap, ExecuteJump;
    LoopMetadata();
    var meta := Opcodes.With8(0x18, Opcodes.Jr, Opcodes.Relative, Opcodes.Fixed(12));
    JrJump(meta, m, false);
    assert Execute(meta, m, pending, false, false) == ExecuteJump(meta, m, false);
  }

  lemma JrCondExecutes(m: Core, pending: bv8)
    ensures var v, r := Fetch8(m.cpu, m.bus), ExecuteOpcode(m.cpu, m.bus, 0x38, pending, false);
      r.cpu == (if m.cpu.r.f.c then v.cpu.(pc := Wrap(v.cpu.pc + Signed(v.value))) else v.cpu) && r.bus == m.bus &&
      r.cycles == if m.cpu.r.f.c then 12 else 8
  {
    hide Opcodes.MetadataFor, ExecuteLoad, ExecuteDirectLoad, ExecuteWide, ExecuteByte, ExecuteCb, ExecuteControl,
         Fetch8, Signed, Wrap, ExecuteJump;
    LoopMetadata();
    var meta, taken := Opcodes.If(0x38, Opcodes.JrCond, Some(Opcodes.Relative), None, 12, 8), m.cpu.r.f.c;
    JrJump(meta, m, taken);
    assert Execute(meta, m, pending, false, taken) == ExecuteJump(meta, m, taken);
  }

  lemma Complements(m: Core, v: View, rom: Image)
    requires Stage(m, v) && Mapped(v.mem, rom) && v.pc < 0x7FFD && rom[v.pc] == 0x3F
    ensures var r := Step(Dispatch, m.cpu, m.bus);
      Stage(Core(r.cpu, r.bus), v.(r := Complemented(v.r), pc := v.pc + 1)) && r.cycles == 4 && r.cpu.fetchCount == 1
  {
    hide Step, Opened, Mapped, Pending, ExecuteOpcode;
    Opens(m, v, rom, 0x3F);
    CcfExecutes(Core(Opened(m.cpu, m.bus), m.bus), Pending(m.bus));
  }

  /** JR C,+0 goes on behind itself, whether it branches or not. */
  lemma JumpsToNext(m: Core, v: View, rom: Image)
    requires Stage(m, v) && Mapped(v.mem, rom) && v.pc < 0x7FFC && rom[v.pc] == 0x38 && rom[v.pc + 1] == 0
    ensures var r := Step(Dispatch, m.cpu, m.bus);
      Stage(Core(r.cpu, r.bus), v.(pc := v.pc + 2)) && r.cycles == (if v.r.f.c then 12 else 8) &&
      r.cpu.fetchCount == 2 && r.cpu.fetchBytes[1] == 0
  {
    hide Step, Fetch8, Opened, Mapped, Pending, ExecuteOpcode;
    Opens(m, v, rom, 0x38);
    var o := Core(Opened(m.cpu, m.bus), m.bus);
    Operand(o, v.(pc := v.pc + 1), rom);
    JrCondExecutes(o, Pending(m.bus));
  }

  lemma JumpsBack(m: Core, v: View, rom: Image)
    requires Stage(m, v) && Mapped(v.mem, rom) && 5 <= v.pc < 0x7FFC && rom[v.pc] == 0x18 && rom[v.pc + 1] == 0xFB
    ensures var r := Step(Dispatch, m.cpu, m.bus);
      Stage(Core(r.cpu, r.bus), v.(pc := v.pc - 3)) && r.cycles == 12 &&
      r.cpu.fetchCount == 2 && r.cpu.fetchBytes[1] == 0xFB
  {
    hide Step, Fetch8, Opened, Mapped, Pending, ExecuteOpcode;
    Opens(m, v, rom, 0x18);
    var o := Core(Opened(m.cpu, m.bus), m.bus);
    Operand(o, v.(pc := v.pc + 1), rom);
    JrExecutes(o, Pending(m.bus));
  }

  /** The trace starts with a step of this signature and cost and goes on from where that step ends. */
  predicate Heads(m: Core, signature: Signature, k: nat, cycle: nat, index: nat, n: nat) {
    hide *;
    var s := Observe(m.cpu, m.bus, cycle, index);
    s.signature == signature && s.startCycle == cycle && s.endCycle == cycle + k &&
    TraceOf(m.cpu, m.bus, cycle, index, n + 1) ==
    [s] + TraceOf(Moved(m).cpu, Moved(m).bus, cycle + k, index + 1, n)
  }

  /** A step of a running CPU heads its trace. */
  lemma TraceStarts(m: Core, v: View, signature: Signature, k: nat, cycle: nat, index: nat, n: nat)
    requires var r := Step(Dispatch, m.cpu, m.bus);
      Stage(Core(r.cpu, r.bus), v) && r.cycles == k && k <= 24
    requires QuietFor(v.timer, k) && !m.cpu.halted && signature == SignatureOf(m.cpu, m.bus)
    ensures Stage(Moved(m), v.(timer := Later(v.timer, k))) && Heads(m, signature, k, cycle, index, n)
  {
    hide Step, Stage, TickLong, QuietFor, Observe, SignatureTo;
    Moves(m, v, k);
  }

  /** CCF; JR C,+0; JR -5 at the entry point: the carry flag alternates. */
  const FLIP_CODE: seq<byte> := [0x3F, 0x38, 0x00, 0x18, 0xFB]

  predicate FlipRom(rom: Image) {
    rom[0x100] == 0x3F && rom[0x101] == 0x38 && rom[0x102] == 0 && rom[0x103] == 0x18 && rom[0x104] == 0xFB
  }

  lemma FlipBytes()
    ensures FlipRom(Program(FLIP_CODE))
  {
    ProgramCode(FLIP_CODE);
    var rom := Program(FLIP_CODE);
    hide Program;
    assert rom[0x100 + 0] == 0x3F && rom[0x100 + 1] == 0x38 && rom[0x100 + 2] == 0 && rom[0x100 + 3] == 0x18;
    assert rom[0x100 + 4] == 0xFB;
  }

  predicate FlipStage(m: Core, v: View, rom: Image, pc: word) {
    Stage(m, v) && Mapped(v.mem, rom) && FlipRom(rom) && v.pc == pc && v.timer.tac == 0 && v.timer.reload.None?
  }

  const CCF_STEP := Signature(Some(0x3F), 0x100, 0x101, None, None, false, false)
  const JR_C_STEP := Signature(Some(0x38), 0x101, 0x103, Some(0), None, false, false)
  const JR_STEP := Signature(Some(0x18), 0x103, 0x100, Some(0xFB), None, true, false)

  lemma FlipLengths()
    ensures LengthOf(Some(0x3F)) == 1 && LengthOf(Some(0x38)) == 2 && LengthOf(Some(0x18)) == 2
  {
  }

  lemma StagePc(m: Core, v: View)
    requires Stage(m, v)
    ensures m.cpu.pc == v.pc && !m.cpu.halted
  {
  }

  lemma FlipFirst(m: Core, v: View, rom: Image, cycle: nat, index: nat, n: nat)
    requires FlipStage(m, v, rom, 0x100)
    ensures FlipStage(Moved(m), v.(r := Complemented(v.r), pc := 0x101, timer := Later(v.timer, 4)), rom, 0x101)
    ensures Heads(m, CCF_STEP, 4, cycle, index, n)
  {
    hide Step, Mapped, Moved, Heads, SignatureOf, LengthOf, Stage, Complemented;
    var w, r := v.(r := Complemented(v.r), pc := 0x101), Step(Dispatch, m.cpu, m.bus);
    Complements(m, v, rom);
    StagePc(m, v);
    StagePc(Core(r.cpu, r.bus), w);
    RunningSignature(m, v, rom);
    FlipLengths();
    TraceStarts(m, w, CCF_STEP, 4, cycle, index, n);
  }

  lemma FlipSecond(m: Core, v: View, rom: Image, cycle: nat, index: nat, n: nat)
    requires FlipStage(m, v, rom, 0x101)
    ensures var k := if v.r.f.c then 12 else 8;
      FlipStage(Moved(m), v.(pc := 0x103, timer := Later(v.timer, k)), rom, 0x103) &&
      Heads(m, JR_C_STEP, k, cycle, index, n)
  {
    hide Step, Mapped, Moved, Heads, SignatureOf, LengthOf, Stage;
    var w, r := v.(pc := 0x103), Step(Dispatch, m.cpu, m.bus);
    JumpsToNext(m, v, rom);
    StagePc(m, v);
    StagePc(Core(r.cpu, r.bus), w);
    RunningSignature(m, v, rom);
    FlipLengths();
    TraceStarts(m, w, JR_C_STEP, if v.r.f.c then 12 else 8, cycle, index, n);
  }

  lemma FlipThird(m: Core, v: View, rom: Image, cycle: nat, index: nat, n: nat)
    requires FlipStage(m, v, rom, 0x103)
    ensures FlipStage(Moved(m), v.(pc := 0x100, timer := Later(v.timer, 12)), rom, 0x100)
    ensures Heads(m, JR_STEP, 12, cycle, index, n)
  {
    hide Step, Mapped, Moved, Heads, SignatureOf, LengthOf, Stage;
    var w, r := v.(pc := 0x100), Step(Dispatch, m.cpu, m.bus);
    JumpsBack(m, v, rom);
    StagePc(m, v);
    StagePc(Core(r.cpu, r.bus), w);
    RunningSignature(m, v, rom);
    FlipLengths();
    TraceStarts(m, w, JR_STEP, 12, cycle, index, n);
  }

  /** One round of the loop, `k` being the cycles of its conditional jump. */
  predicate IsRound(w: seq<PendingStep>, cycle: nat, k: nat) {
    |w| == 3 && w[0].signature == CCF_STEP && w[1].signature == JR_C_STEP && w[2].signature == JR_STEP &&
    w[0].startCycle == cycle && w[0].endCycle == cycle + 4 == w[1].startCycle &&
    w[1].endCycle == cycle + 4 + k == w[2].startCycle && w[2].endCycle == cycle + 16 + k
  }

  function Thrice(m: Core): Core { Moved(Moved(Moved(m))) }

  /** The steps of a round from `m` on. */
  function RoundOf(m: Core, cycle: nat, index: nat, k: nat): seq<PendingStep> {
    hide Observe, Moved;
    var m1 := Moved(m);
    var m2 := Moved(m1);
    [Observe(m.cpu, m.bus, cycle, index), Observe(m1.cpu, m1.bus, cycle + 4, index + 1),
     Observe(m2.cpu, m2.bus, cycle + 4 + k, index + 2)]
  }

  lemma RoundTrace(m: Core, k: nat, cycle: nat, index: nat, n: nat)
    requires Heads(m, CCF_STEP, 4, cycle, index, n + 2) && Heads(Moved(m), JR_C_STEP, k, cycle + 4, index + 1, n + 1)
    requires Heads(Moved(Moved(m)), JR_STEP, 12, cycle + 4 + k, index + 2, n)
    ensures IsRound(RoundOf(m, cycle, index, k), cycle, k)
    ensures TraceOf(m.cpu, m.bus, cycle, index, n + 3) ==
            RoundOf(m, cycle, index, k) + TraceOf(Thrice(m).cpu, Thrice(m).bus, cycle + 16 + k, index + 3, n)
  {
    hide Moved, TraceOf, Observe, Step, Dispatch, TickLong, CanSkip, SignatureOf;
    var m1, m2 := Moved(m), Moved(Moved(m));
    var t1 := TraceOf(m1.cpu, m1.bus, cycle + 4, index + 1, n + 2);
    var t2 := TraceOf(m2.cpu, m2.bus, cycle + 4 + k, index + 2, n + 1);
    var t3 := TraceOf(Moved(m2).cpu, Moved(m2).bus, cycle + 16 + k, index + 3, n);
    Chained(TraceOf(m.cpu, m.bus, cycle, index, n + 3), t1, t2, t3, Observe(m.cpu, m.bus, cycle, index),
            Observe(m1.cpu, m1.bus, cycle + 4, index + 1), Observe(m2.cpu, m2.bus, cycle + 4 + k, index + 2));
  }

  lemma Chained<T>(t: seq<T>, t1: seq<T>, t2: seq<T>, t3: seq<T>, a: T, b: T, c: T)
    requires t == [a] + t1 && t1 == [b] + t2 && t2 == [c] + t3
    ensures t == [a, b, c] + t3
  {
  }

  function FlipCost(v: View): nat { if v.r.f.c then 8 else 12 }

  /** The view after a round. */
  function FlipView(v: View): View {
    v.(r := Complemented(v.r), timer := Later(Later(Later(v.timer, 4), FlipCost(v)), 12))
  }

  function AfterFirst(v: View): View { v.(r := Complemented(v.r), pc := 0x101, timer := Later(v.timer, 4)) }

  function AfterSecond(v: View): View {
    var w := AfterFirst(v);
    w.(pc := 0x103, timer := Later(w.timer, FlipCost(v)))
  }

  lemma FlipTwo(m: Core, v: View, rom: Image, cycle: nat, index: nat, n: nat)
    requires FlipStage(m, v, rom, 0x100)
    ensures FlipStage(Moved(Moved(m)), AfterSecond(v), rom, 0x103)
    ensures Heads(m, CCF_STEP, 4, cycle, index, n + 2)
    ensures Heads(Moved(m), JR_C_STEP, FlipCost(v), cycle + 4, index + 1, n + 1)
  {
    hide Moved, TraceOf, Heads, FlipStage, Later;
    FlipFirst(m, v, rom, cycle, index, n + 2);
    FlipSecond(Moved(m), AfterFirst(v), rom, cycle + 4, index + 1, n + 1);
  }

  lemma FlipRound(m: Core, v: View, rom: Image, cycle: nat, index: nat, n: nat)
    requires FlipStage(m, v, rom, 0x100)
    ensures FlipStage(Thrice(m), FlipView(v), rom, 0x100)
    ensures var k := FlipCost(v);
      IsRound(RoundOf(m, cycle, index, k), cycle, k) &&
      TraceOf(m.cpu, m.bus, cycle, index, n + 3) ==
      RoundOf(m, cycle, index, k) + TraceOf(Thrice(m).cpu, Thrice(m).bus, cycle + 16 + k, index + 3, n)
  {
    var k := FlipCost(v);
    assert AfterSecond(v).(pc := 0x100, timer := Later(AfterSecond(v).timer, 12)) == FlipView(v) by {
      assert v.pc == 0x100;
      hide Later;
    }
    hide Moved, TraceOf, Heads, FlipStage, Later, IsRound, RoundOf, AfterSecond, FlipView, FlipCost;
    FlipTwo(m, v, rom, cycle, index, n);
    FlipThird(Moved(Moved(m)), AfterSecond(v), rom, cycle + 4 + k, index + 2, n);
    RoundTrace(m, k, cycle, index, n);
  }

  /** The loop that the collector starts for two windows in a row. */
  function Doubled(a: seq<PendingStep>, b: seq<PendingStep>): LoopState { LoopState(a, 2, RangeOf(a + b)) }

  lemma RoundsRepeat(a: seq<PendingStep>, b: seq<PendingStep>, cycle: nat, j: nat, k: nat)
    requires IsRound(a, cycle, j) && IsRound(b, cycle + 16 + j, k) && cycle <= 1000 && j <= 12 && k <= 12
    ensures RepeatsAt(a + b, 3) && Folds(Doubled(a, b), a + b)
    ensures PrintedEnd(Doubled(a, b)) == cycle + 2 * (16 + j) && (a + b)[5].endCycle == cycle + 32 + j + k
  {
    var all := a + b;
    assert all[0..3] == a && all[3..6] == b;
    SameSignaturesMeans(a, b);
    FoldsTwo(a, b);
    RangeConcat(a, b);
    hide Folds, RangeOf, Merge, Signatures;
  }

  /** A failing input, run from start-up by the real CPU: CCF; JR C,+0; JR -5. The jump costs 8 cycles in
      the first round and 12 in the second, at one signature. The six steps are a loop of two
      occurrences whose span is printed as 0 to 48 while it ends at 52. */
  lemma ConditionalJumpMisprints()
    ensures var e := FromCartridge(Program(FLIP_CODE), false);
      var steps := TraceOf(e.cpu, e.bus, 0, 0, 6);
      |steps| == 6 && RepeatsAt(steps, 3) && Folds(Doubled(steps[..3], steps[3..]), steps) &&
      PrintedEnd(Doubled(steps[..3], steps[3..])) == 48 && steps[5].endCycle == 52
  {
    hide Program, Stage, FromCartridge, Moved, TraceOf, Mapped, FlipRom, Folds, RepeatsAt, PrintedEnd, Doubled,
         RoundOf, IsRound, Thrice;
    var rom := Program(FLIP_CODE);
    FlipBytes();
    StartStage(rom, false);
    var m := StartCore(rom, false);
    var v := View(m.cpu.r, 0x100, 0xFFFE, m.bus.mem, 0, TimerDevice.INITIAL_TIMER, false);
    FlipRound(m, v, rom, 0, 0, 3);
    FlipRound(Thrice(m), FlipView(v), rom, 24, 3, 0);
    TraceEnds(Thrice(Thrice(m)), 52, 6);
    TwoRounds(TraceOf(m.cpu, m.bus, 0, 0, 6), RoundOf(m, 0, 0, 8), RoundOf(Thrice(m), 24, 3, 12));
  }

  lemma TwoRounds(steps: seq<PendingStep>, a: seq<PendingStep>, b: seq<PendingStep>)
    requires IsRound(a, 0, 8) && IsRound(b, 24, 12) && steps == a + (b + [])
    ensures |steps| == 6 && RepeatsAt(steps, 3) && Folds(Doubled(steps[..3], steps[3..]), steps)
    ensures PrintedEnd(Doubled(steps[..3], steps[3..])) == 48 && steps[5].endCycle == 52
  {
    assert |a| == 3 && |b| == 3;
    hide Folds, RepeatsAt, PrintedEnd, Doubled, IsRound;
    RoundsRepeat(a, b, 0, 8, 12);
    assert steps == a + b && steps[..3] == a && steps[3..] == b;
  }

  lemma TraceEnds(m: Core, cycle: nat, index: nat)
    ensures TraceOf(m.cpu, m.bus, cycle, index, 0) == []
  {
  }

  // ------------------------------------------------ a halted CPU that wakes into a RET

  /** LD A,FF; LDH (05),A; LD HL,0110; PUSH HL; LD A,4; LDH (FF),A; LDH (07),A; NOP; HALT; RET: the timer
      wakes the halted CPU, whose RET at 0110 returns to itself. */
  const WAKE_CODE: seq<byte> := [0x3E, 0xFF, 0xE0, 0x05, 0x21, 0x10, 0x01, 0xE5, 0x3E, 0x04, 0xE0, 0xFF, 0xE0, 0x07,
                                 0x00, 0x76, 0xC9]

  predicate WakeRom(rom: Image) {
    rom[0x100] == 0x3E && rom[0x101] == 0xFF && rom[0x102] == 0xE0 && rom[0x103] == 0x05 && rom[0x104] == 0x21 &&
    rom[0x105] == 0x10 && rom[0x106] == 0x01 && rom[0x107] == 0xE5 && rom[0x108] == 0x3E && rom[0x109] == 0x04 &&
    rom[0x10A] == 0xE0 && rom[0x10B] == 0xFF && rom[0x10C] == 0xE0 && rom[0x10D] == 0x07 && rom[0x10E] == 0x00 &&
    rom[0x10F] == 0x76 && rom[0x110] == 0xC9
  }

  lemma WakeBytes()
    ensures WakeRom(Program(WAKE_CODE))
  {
    ProgramCode(WAKE_CODE);
    var rom := Program(WAKE_CODE);
    hide Program;
    assert rom[0x100 + 0] == 0x3E && rom[0x100 + 1] == 0xFF && rom[0x100 + 2] == 0xE0 && rom[0x100 + 3] == 0x05;
    assert rom[0x100 + 4] == 0x21 && rom[0x100 + 5] == 0x10 && rom[0x100 + 6] == 0x01 && rom[0x100 + 7] == 0xE5;
    assert rom[0x100 + 8] == 0x3E && rom[0x100 + 9] == 0x04 && rom[0x100 + 10] == 0xE0 && rom[0x100 + 11] == 0xFF;
    assert rom[0x100 + 12] == 0xE0 && rom[0x100 + 13] == 0x07 && rom[0x100 + 14] == 0x00 && rom[0x100 + 15] == 0x76;
    assert rom[0x100 + 16] == 0xC9;
  }

  lemma StoresTima(m: Core, v: View)
    requires Stage(m, v)
    ensures Stage(Core(m.cpu, BusMemory.Write8(m.bus, 0xFF05, v.r.a)),
                  v.(timer := v.timer.(tima := v.r.a, reload := None)))
  {
  }

  lemma StoresTac(m: Core, v: View)
    requires Stage(m, v) && v.r.a == 4 && v.timer.tac == 0
    ensures Stage(Core(m.cpu, BusMemory.Write8(m.bus, 0xFF07, 4)), v.(timer := v.timer.(tac := 4)))
  {
  }

  lemma StoresEnable(m: Core, v: View)
    requires Stage(m, v)
    ensures Stage(Core(m.cpu, BusMemory.Write8(m.bus, 0xFFFF, 4)), v.(ie := 4))
  {
  }

  lemma StoresStack(m: Core, v: View, address: word, value: byte)
    requires Stage(m, v) && 0xFF80 <= address < 0xFFFF
    ensures Stage(Core(m.cpu, BusMemory.Write8(m.bus, address, value)),
                  v.(mem := v.mem.(hram := v.mem.hram[address - 0xFF80 := value])))
  {
  }

  function PushedMemory(mem: Memory): Memory { mem.(hram := mem.hram[0x7D := 0x01][0x7C := 0x10]) }

  /** Cycles at which the run's instructions start. */
  const WAKE_CLOCK: seq<nat> := [0, 8, 20, 32, 48, 56, 68, 80, 84, 88]

  function WakeTimer(divider: word, tima: byte, tac: TimerDevice.Tac): Timer {
    TimerDevice.TimerState(divider, tima, 0, tac, None)
  }

  /** What is tracked before instruction `i` of the run, from the start-up registers and memory. */
  function WakeView(i: nat, r: Registers, mem: Memory): (v: View)
    requires i < 10
    ensures v.mem == mem || v.mem == PushedMemory(mem)
  {
    var hl := r.(a := 0xFF, h := 0x01, l := 0x10);
    var pushed := PushedMemory(mem);
    match i
    case 0 => View(r, 0x100, 0xFFFE, mem, 0, WakeTimer(0, 0, 0), false)
    case 1 => View(r.(a := 0xFF), 0x102, 0xFFFE, mem, 0, WakeTimer(8, 0, 0), false)
    case 2 => View(r.(a := 0xFF), 0x104, 0xFFFE, mem, 0, WakeTimer(20, 0xFF, 0), false)
    case 3 => View(hl, 0x107, 0xFFFE, mem, 0, WakeTimer(32, 0xFF, 0), false)
    case 4 => View(hl, 0x108, 0xFFFC, pushed, 0, WakeTimer(48, 0xFF, 0), false)
    case 5 => View(hl.(a := 4), 0x10A, 0xFFFC, pushed, 0, WakeTimer(56, 0xFF, 0), false)
    case 6 => View(hl.(a := 4), 0x10C, 0xFFFC, pushed, 4, WakeTimer(68, 0xFF, 0), false)
    case 7 => View(hl.(a := 4), 0x10E, 0xFFFC, pushed, 4, WakeTimer(80, 0xFF, 4), false)
    case 8 => View(hl.(a := 4), 0x10F, 0xFFFC, pushed, 4, WakeTimer(84, 0xFF, 4), false)
    case _ => View(hl.(a := 4), 0x110, 0xFFFC, pushed, 4, WakeTimer(88, 0xFF, 4), false)
  }

  /** The run has come to instruction `i`. */
  predicate Comes(start: Core, m: Core, i: nat, rom: Image, r: Registers, mem: Memory)
    requires i < 10
  {
    hide RunTo, Stage, WakeView;
    var clock := WAKE_CLOCK[i];
    Stage(m, WakeView(i, r, mem)) &&
    RunTo(Dispatch, start.cpu, start.bus, 0, 88) == RunTo(Dispatch, m.cpu, m.bus, clock, 88)
  }

  lemma ComesOn(start: Core, m: Core, i: nat, rom: Image, r: Registers, mem: Memory, w: View, k: nat)
    requires i < 9 && Comes(start, m, i, rom, r, mem) && k <= 24 && WAKE_CLOCK[i + 1] == WAKE_CLOCK[i] + k
    requires var d := Step(Dispatch, m.cpu, m.bus);
      Stage(Core(d.cpu, d.bus), w) && d.cycles == k
    requires QuietFor(w.timer, k) && WakeView(i + 1, r, mem) == w.(timer := Later(w.timer, k))
    ensures Comes(start, Moved(m), i + 1, rom, r, mem)
  {
    hide Step, QuietFor, Moved, RunTo, WakeView, Later;
    StagePc(m, WakeView(i, r, mem));
    hide Stage;
    assert WAKE_CLOCK[i] < 88;
    Iterates(m, w, k, WAKE_CLOCK[i], 88);
  }

  predicate WakeRun(start: Core, m: Core, i: nat, rom: Image, r: Registers, mem: Memory) {
    i < 10 && Mapped(mem, rom) && WakeRom(rom) && Comes(start, m, i, rom, r, mem)
  }

  lemma WakeStage(start: Core, m: Core, i: nat, rom: Image, r: Registers, mem: Memory) returns (v: View)
    requires WakeRun(start, m, i, rom, r, mem)
    ensures Stage(m, v) && v == WakeView(i, r, mem) && Mapped(v.mem, rom)
  {
    hide Stage, RunTo, WakeView, WakeRom;
    v := WakeView(i, r, mem);
    PushedMapped(mem, rom);
  }

  lemma PushedMapped(mem: Memory, rom: Image)
    requires Mapped(mem, rom)
    ensures Mapped(PushedMemory(mem), rom)
  {
  }

  lemma WakeLoad(start: Core, m: Core, i: nat, rom: Image, r: Registers, mem: Memory)
    requires WakeRun(start, m, i, rom, r, mem) && (i == 0 || i == 4)
    ensures WakeRun(start, Moved(m), i + 1, rom, r, mem)
  {
    hide Step, Moved, Stage, Mapped, Comes;
    var v := WakeStage(start, m, i, rom, r, mem);
    LoadsA(m, v, rom);
    ComesOn(start, m, i, rom, r, mem, v.(r := v.r.(a := rom[v.pc + 1]), pc := v.pc + 2), 8);
  }

  lemma WakeTima(start: Core, m: Core, rom: Image, r: Registers, mem: Memory)
    requires WakeRun(start, m, 1, rom, r, mem)
    ensures WakeRun(start, Moved(m), 2, rom, r, mem)
  {
    hide Step, Moved, Stage, Mapped, Comes, BusMemory.Write8;
    var v := WakeStage(start, m, 1, rom, r, mem);
    StoresHigh(m, v, rom);
    StoresTima(Core(Step(Dispatch, m.cpu, m.bus).cpu, m.bus), v.(pc := 0x104));
    ComesOn(start, m, 1, rom, r, mem, v.(pc := 0x104, timer := WakeTimer(8, 0xFF, 0)), 12);
  }

  lemma WakeHl(start: Core, m: Core, rom: Image, r: Registers, mem: Memory)
    requires WakeRun(start, m, 2, rom, r, mem)
    ensures WakeRun(start, Moved(m), 3, rom, r, mem)
  {
    hide Step, Moved, Stage, Mapped, Comes;
    var v := WakeStage(start, m, 2, rom, r, mem);
    LoadsHl(m, v, rom);
    ComesOn(start, m, 2, rom, r, mem, v.(r := v.r.(h := 0x01, l := 0x10), pc := 0x107), 12);
  }

  lemma WakePush(start: Core, m: Core, rom: Image, r: Registers, mem: Memory)
    requires WakeRun(start, m, 3, rom, r, mem)
    ensures WakeRun(start, Moved(m), 4, rom, r, mem)
  {
    hide Step, Moved, Stage, Mapped, Comes, BusMemory.Write8;
    var v := WakeStage(start, m, 3, rom, r, mem);
    PushesHl(m, v, rom);
    var w := v.(pc := 0x108, sp := 0xFFFC);
    var cpu := Step(Dispatch, m.cpu, m.bus).cpu;
    StoresStack(Core(cpu, m.bus), w, 0xFFFD, 0x01);
    var w1 := w.(mem := w.mem.(hram := w.mem.hram[0x7D := 0x01]));
    StoresStack(Core(cpu, BusMemory.Write8(m.bus, 0xFFFD, 0x01)), w1, 0xFFFC, 0x10);
    ComesOn(start, m, 3, rom, r, mem, w.(mem := PushedMemory(v.mem)), 16);
  }

  lemma WakeEnable(start: Core, m: Core, rom: Image, r: Registers, mem: Memory)
    requires WakeRun(start, m, 5, rom, r, mem)
    ensures WakeRun(start, Moved(m), 6, rom, r, mem)
  {
    hide Step, Moved, Stage, Mapped, Comes, BusMemory.Write8;
    var v := WakeStage(start, m, 5, rom, r, mem);
    StoresHigh(m, v, rom);
    StoresEnable(Core(Step(Dispatch, m.cpu, m.bus).cpu, m.bus), v.(pc := 0x10C));
    ComesOn(start, m, 5, rom, r, mem, v.(pc := 0x10C, ie := 4), 12);
  }

  lemma WakeTac(start: Core, m: Core, rom: Image, r: Registers, mem: Memory)
    requires WakeRun(start, m, 6, rom, r, mem)
    ensures WakeRun(start, Moved(m), 7, rom, r, mem)
  {
    hide Step, Moved, Stage, Mapped, Comes, BusMemory.Write8;
    var v := WakeStage(start, m, 6, rom, r, mem);
    StoresHigh(m, v, rom);
    StoresTac(Core(Step(Dispatch, m.cpu, m.bus).cpu, m.bus), v.(pc := 0x10E));
    ComesOn(start, m, 6, rom, r, mem, v.(pc := 0x10E, timer := WakeTimer(68, 0xFF, 4)), 12);
  }

  lemma WakeNop(start: Core, m: Core, rom: Image, r: Registers, mem: Memory)
    requires WakeRun(start, m, 7, rom, r, mem)
    ensures WakeRun(start, Moved(m), 8, rom, r, mem)
  {
    hide Step, Moved, Stage, Mapped, Comes;
    var v := WakeStage(start, m, 7, rom, r, mem);
    DoesNothing(m, v, rom);
    ComesOn(start, m, 7, rom, r, mem, v.(pc := 0x10F), 4);
  }

  /** A halted CPU and what its bus shows. */
  predicate Halted(m: Core, v: View) { m.cpu.halted && Stage(Core(m.cpu.(halted := false), m.bus), v) }

  lemma WakeHalt(start: Core, m: Core, rom: Image, r: Registers, mem: Memory)
    requires WakeRun(start, m, 8, rom, r, mem)
    ensures Halted(Moved(m), WakeView(9, r, mem))
    ensures var q := RunTo(Dispatch, start.cpu, start.bus, 0, 88);
      q.cpu == Moved(m).cpu && q.bus == Moved(m).bus && q.available == 88
  {
    hide Stage, Mapped, RunTo, TickLong, Step, Moved, Halted;
    var v := WakeStage(start, m, 8, rom, r, mem);
    StagePc(m, v);
    HaltMoves(m, v, rom);
    Runs(m, 84, 88);
    RunDone(Dispatch, Moved(m).cpu, Moved(m).bus, 88, 88);
  }

  lemma HaltMoves(m: Core, v: View, rom: Image)
    requires Stage(m, v) && Mapped(v.mem, rom) && v.pc == 0x10F && rom[0x10F] == 0x76 && QuietFor(v.timer, 4)
    ensures Halted(Moved(m), v.(pc := 0x110, timer := Later(v.timer, 4))) && Step(Dispatch, m.cpu, m.bus).cycles == 4
  {
    hide Stage, Mapped, TickLong, Step, QuietFor;
    Halts(m, v, rom);
    var d := Step(Dispatch, m.cpu, m.bus);
    StageTicks(Core(d.cpu.(halted := false), d.bus), v.(pc := 0x110), 4);
  }

  /** The run halts after 88 cycles. */
  lemma WakeReached()
    ensures var e, m := StepCycles(Dispatch, FromCartridge(Program(WAKE_CODE), false), 88),
                        StartCore(Program(WAKE_CODE), false);
      e.total == 88 && e.carry == 0 && Mapped(m.bus.mem, Program(WAKE_CODE)) &&
      Halted(Core(e.cpu, e.bus), WakeView(9, m.cpu.r, m.bus.mem))
  {
    hide Program, Stage, FromCartridge, Moved, Mapped, Comes, WakeRom, RunTo, WakeView;
    var rom := Program(WAKE_CODE);
    WakeBytes();
    StartStage(rom, false);
    var m := StartCore(rom, false);
    WakeBegins(m, rom);
    var r, mem := m.cpu.r, m.bus.mem;
    var m1 := Moved(m);
    WakeLoad(m, m, 0, rom, r, mem);
    WakeTima(m, m1, rom, r, mem);
    var m3 := Moved(Moved(m1));
    WakeHl(m, Moved(m1), rom, r, mem);
    WakePush(m, m3, rom, r, mem);
    var m5 := Moved(Moved(m3));
    WakeLoad(m, Moved(m3), 4, rom, r, mem);
    WakeEnable(m, m5, rom, r, mem);
    var m7 := Moved(Moved(m5));
    WakeTac(m, Moved(m5), rom, r, mem);
    WakeNop(m, m7, rom, r, mem);
    WakeHalt(m, Moved(m7), rom, r, mem);
  }

  lemma WakeBegins(m: Core, rom: Image)
    requires m == StartCore(rom, false) && WakeRom(rom)
    ensures WakeRun(m, m, 0, rom, m.cpu.r, m.bus.mem)
  {
    StartStage(rom, false);
    hide RunTo, Stage, Mapped, StartCore;
  }

  // ------------------------------------------------------- waiting and waking up

  const IDLES := 235  // idle steps before the timer interrupt is flagged

  lemma WaitFlags(f: bv8, t: bv8, p: bv8)
    requires f & 4 == 0 && p & 4 == 0 && (t == 0 || t == 4)
    ensures (f | t | p) & 4 & 0x1F == t
  {
  }

  lemma WaitTimer(k: nat)
    requires k <= IDLES
    ensures TimerRaised(WakeTimer(88, 0xFF, 4), 4 * k) == if k < IDLES then 0 else 4
  {
    var t := WakeTimer(88, 0xFF, 4);
    assert TimerDevice.FirstIrq(t) == 940;
    TimerDevice.FirstInterrupt(t);
    RaisedIffIrqs(t, 4 * k);
    hide TimerDevice.Irqs, TimerRaised, TimerDevice.FirstIrq;
    if k < IDLES {
      TimerDevice.IrqsMonotone(t, 4 * k, 939);
    }
  }

  predicate WaitView(v: View, rom: Image) {
    v.pc == 0x110 && v.sp == 0xFFFC && v.ie == 4 && v.timer == WakeTimer(88, 0xFF, 4) && !v.double &&
    Mapped(v.mem, rom) && rom[0x110] == 0xC9 && v.mem.hram[0x7C] == 0x10 && v.mem.hram[0x7D] == 0x01
  }

  function Waiting(b: BusState, k: nat): BusState { TickForCpuCycles(b, 4 * k) }

  /** The bus after `k` idle steps: the interrupt is pending exactly at the end. */
  lemma WaitBus(m: Core, v: View, rom: Image, k: nat)
    requires Halted(m, v) && WaitView(v, rom) && k <= IDLES
    ensures var b := Waiting(m.bus, k);
      b.mem == v.mem && b.dma == 0 && !b.doubleSpeed && b.timer.tac == 4 && (Pending(b) == 0 <==> k < IDLES)
  {
    var b := m.bus;
    TickIsAdvance(b, 4 * k);
    AdvanceFrame(b, 4 * k, 4 * k);
    TimerDevice.DividerRuns(b.timer, 4 * k);
    WaitTimer(k);
    PpuFlags(b.ppu, 4 * k);
    assert b.timer == WakeTimer(88, 0xFF, 4) && b.iflag & 4 == 0 && b.ie == 4 && SpeedDivisor(b) == 1;
    WaitFlags(b.iflag, TimerRaised(b.timer, 4 * k), PpuDevice.PpuRaised(b.ppu, 4 * k));
    hide TickForCpuCycles, PpuDevice.PpuRaised, TimerRaised, TimerDevice.TimerRun, PpuAfter, ApuAfter, WaitView;
  }

  lemma WaitTick(m: Core, v: View, rom: Image, k: nat)
    requires Halted(m, v) && WaitView(v, rom)
    ensures TickLong(Waiting(m.bus, k), 4) == Waiting(m.bus, k + 1)
  {
    hide TickLong, TickForCpuCycles, Mapped, CHUNK_MAX;
    assert !m.bus.doubleSpeed;
    hide Halted, WaitView;
    WaitTickOf(m.bus, k);
  }

  lemma WaitTickOf(b: BusState, k: nat)
    requires !b.doubleSpeed
    ensures TickLong(Waiting(b, k), 4) == Waiting(b, k + 1)
  {
    hide TickLong, TickForCpuCycles;
    ShortTick(TickForCpuCycles(b, 4 * k), 4);
    TickSplits(b, 4 * k, 4);
    assert 4 * k + 4 == 4 * (k + 1);
  }

  const WAIT_STEP := Signature(None, 0x110, 0x110, None, None, true, false)

  /** A halted CPU idles while nothing is pending. */
  lemma WaitIdles(c: CpuState, b: BusState)
    requires c.halted && !c.ime && !c.locked && c.pc == 0x110 && Pending(b) == 0 && b.timer.tac == 4
    ensures Step(Dispatch, c, b) == StepResult(c.(fetchCount := 0), b, 4) && !CanSkip(c, b)
    ensures SignatureOf(c, b) == WAIT_STEP
  {
    hide Dispatch, Pending, BusMemory.Read8, PpuDevice.MayRequest;
  }

  lemma RetExecutes(m: Core, pending: bv8)
    ensures var v, r := Pop16(m), ExecuteOpcode(m.cpu, m.bus, 0xC9, pending, false);
      r.cpu == v.cpu.(pc := v.value) && r.cycles == 16
  {
    assert Opcodes.MetadataFor(0xC9) == Some(Opcodes.Plain(0xC9, Opcodes.Ret, 16));
    hide Opcodes.MetadataFor, ExecuteLoad, ExecuteDirectLoad, ExecuteWide, ExecuteByte, ExecuteCb, ExecuteControl,
         Pop16;
    var meta := Opcodes.Plain(0xC9, Opcodes.Ret, 16);
    assert Execute(meta, m, pending, false, false) == ExecuteJump(meta, m, false);
  }

  lemma WaitReads(b: BusState, rom: Image)
    requires b.dma == 0 && Mapped(b.mem, rom)
    ensures BusMemory.Read8(b, 0x110) == rom[0x110]
    ensures BusMemory.Read8(b, 0xFFFC) == b.mem.hram[0x7C] && BusMemory.Read8(b, 0xFFFD) == b.mem.hram[0x7D]
  {
    hide PpuDevice.PpuInv, BusMemory.ReadIo, PpuDevice.ReadVram, PpuDevice.ReadOam, BusMemory.WorkCell;
  }

  /** The opcode's fetch of a CPU without HALT bug. */
  lemma RetFetch(c: CpuState, b: BusState)
    requires !c.haltBug && c.pc == 0x110 && c.sp == 0xFFFC && c.fetchCount == 0
    ensures var f := Fetch8(c, b);
      f.value == BusMemory.Read8(b, 0x110) && f.cpu.fetchCount == 1 && f.cpu.sp == 0xFFFC
  {
    hide BusMemory.Read8;
  }

  lemma RetPops(m: Core)
    requires m.cpu.sp == 0xFFFC && BusMemory.Read8(m.bus, 0xFFFC) == 0x10 && BusMemory.Read8(m.bus, 0xFFFD) == 0x01
    ensures Pop16(m).value == 0x110 && Pop16(m).cpu.fetchCount == m.cpu.fetchCount
  {
    hide BusMemory.Read8;
  }

  /** RET at 0110 with 0110 on the stack. */
  lemma RetReturns(c: CpuState, b: BusState)
    requires !c.ime && !c.imePending && !c.haltBug && c.pc == 0x110 && c.sp == 0xFFFC && c.fetchCount == 0
    requires BusMemory.Read8(b, 0x110) == 0xC9 && BusMemory.Read8(b, 0xFFFC) == 0x10 &&
             BusMemory.Read8(b, 0xFFFD) == 0x01
    ensures var r := ExecuteInstruction(c, b);
      r.cpu.pc == 0x110 && r.cpu.fetchCount == 1 && r.cycles == 16
  {
    hide BusMemory.Read8, Pending, ExecuteOpcode, ExecutePrefixed, Fetch8, Pop16, Opcodes.GoodCost;
    assert c.(imePending := false) == c;
    RetFetch(c, b);
    var o := Core(Fetch8(c, b).cpu, b);
    RetExecutes(o, Pending(b));
    RetPops(o);
  }

  /** The instruction at 0110 with an interrupt pending: a RET that returns to itself. */
  lemma WaitWakes(c: CpuState, b: BusState, rom: Image)
    requires c.halted && !c.ime && !c.locked && !c.imePending && !c.haltBug && c.pc == 0x110 && c.sp == 0xFFFC
    requires Pending(b) != 0 && b.dma == 0 && Mapped(b.mem, rom) && rom[0x110] == 0xC9
    requires b.mem.hram[0x7C] == 0x10 && b.mem.hram[0x7D] == 0x01
    ensures SignatureOf(c, b) == WAIT_STEP && Step(Dispatch, c, b).cycles == 16 && !CanSkip(c, b)
  {
    hide BusMemory.Read8, Pending, ExecuteInstruction, Mapped, TimerDevice.MayInterrupt, PpuDevice.MayRequest;
    WaitReads(b, rom);
    ExecutedSignature(c, b);
    RetReturns(c.(fetchCount := 0, halted := false), b);
    hide Step;
  }

  /** `j` idle steps from `cycle` on and the step that wakes up, all with one signature. */
  predicate IdlesThenWakes(steps: seq<PendingStep>, cycle: nat, j: nat) {
    |steps| == j + 1 &&
    forall i | 0 <= i <= j ::
      steps[i].signature == WAIT_STEP && steps[i].startCycle == cycle + 4 * i &&
      steps[i].endCycle == cycle + 4 * i + if i < j then 4 else 16
  }

  lemma WaitCons(s: PendingStep, rest: seq<PendingStep>, cycle: nat, j: nat)
    requires s.signature == WAIT_STEP && s.startCycle == cycle && s.endCycle == cycle + 4
    requires IdlesThenWakes(rest, cycle + 4, j)
    ensures IdlesThenWakes([s] + rest, cycle, j + 1)
  {
    var all := [s] + rest;
    forall i | 0 <= i <= j + 1
      ensures all[i].signature == WAIT_STEP && all[i].startCycle == cycle + 4 * i &&
              all[i].endCycle == cycle + 4 * i + if i < j + 1 then 4 else 16
    {
      if i > 0 {
        assert all[i] == rest[i - 1];
      }
    }
  }

  /** The CPU of `m`, up to the fetch count of its last step. */
  predicate SameWait(c: CpuState, m: Core) { c.(fetchCount := 0) == m.cpu.(fetchCount := 0) }

  lemma WaitCpu(c: CpuState, m: Core, v: View, rom: Image)
    requires Halted(m, v) && WaitView(v, rom) && SameWait(c, m)
    ensures c.halted && !c.ime && !c.locked && !c.imePending && !c.haltBug && c.pc == 0x110 && c.sp == 0xFFFC
    ensures SameWait(c.(fetchCount := 0), m)
  {
    hide Mapped;
  }

  lemma WaitMemory(v: View, rom: Image)
    requires WaitView(v, rom)
    ensures Mapped(v.mem, rom) && rom[0x110] == 0xC9 && v.mem.hram[0x7C] == 0x10 && v.mem.hram[0x7D] == 0x01
  {
  }

  lemma {:induction false} WaitTrace(m: Core, v: View, rom: Image, c: CpuState, k: nat, cycle: nat, index: nat)
    requires Halted(m, v) && WaitView(v, rom) && SameWait(c, m) && k <= IDLES
    ensures IdlesThenWakes(TraceOf(c, Waiting(m.bus, k), cycle, index, IDLES - k + 1), cycle, IDLES - k)
    decreases IDLES - k
  {
    hide Halted, WaitView, Waiting, SameWait, IdlesThenWakes, Step, CanSkip, TickLong, SignatureOf, Observe,
         Pending, Mapped;
    var b := Waiting(m.bus, k);
    WaitCpu(c, m, v, rom);
    WaitBus(m, v, rom, k);
    WaitMemory(v, rom);
    if k < IDLES {
      WaitIdles(c, b);
      WaitTick(m, v, rom, k);
      WaitTrace(m, v, rom, c.(fetchCount := 0), k + 1, cycle + 4, index + 1);
      WaitCons(Observe(c, b, cycle, index),
               TraceOf(c.(fetchCount := 0), Waiting(m.bus, k + 1), cycle + 4, index + 1, IDLES - k), cycle,
               IDLES - k - 1);
    } else {
      WaitWakes(c, b, rom);
      WaitLast(c, b, cycle, index);
    }
  }

  lemma WaitLast(c: CpuState, b: BusState, cycle: nat, index: nat)
    requires SignatureOf(c, b) == WAIT_STEP && Step(Dispatch, c, b).cycles == 16 && !CanSkip(c, b)
    ensures IdlesThenWakes(TraceOf(c, b, cycle, index, 1), cycle, 0)
  {
    hide Step, CanSkip, TickLong, SignatureOf, Observe;
    var r, s := Step(Dispatch, c, b), Observe(c, b, cycle, index);
    assert TraceOf(c, b, cycle, index, 1) == [s] + TraceOf(r.cpu, TickLong(r.bus, r.cycles), s.endCycle, index + 1, 0);
    assert TraceOf(r.cpu, TickLong(r.bus, r.cycles), s.endCycle, index + 1, 0) == [];
  }

  lemma {:induction false} PairsRepeat(steps: seq<PendingStep>, w: seq<PendingStep>, x: Signature, k: nat)
    requires |steps| == 2 * k && |w| == 2 && w[0].signature == x && w[1].signature == x
    requires forall i | 0 <= i < |steps| :: steps[i].signature == x
    ensures Signatures(steps) == Repeated(Signatures(w), k)
  {
    assert Signatures(w) == [x, x] by {
      SignaturesAt(w, 0);
      SignaturesAt(w, 1);
    }
    if k > 0 {
      var n := |steps| - 2;
      PairsRepeat(steps[..n], w, x, k - 1);
      assert Signatures(steps[n..]) == [x, x] by {
        SignaturesAt(steps[n..], 0);
        SignaturesAt(steps[n..], 1);
      }
      assert steps == steps[..n] + steps[n..];
      SignaturesConcat(steps[..n], steps[n..]);
    }
  }

  /** The loop of two steps that stands for all of `steps`. */
  function Paired(steps: seq<PendingStep>): LoopState
    requires |steps| >= 2
  {
    LoopState(steps[..2], |steps| / 2, RangeOf(steps))
  }

  lemma WaitMisprints(steps: seq<PendingStep>)
    requires IdlesThenWakes(steps, 88, IDLES)
    ensures RepeatsAt(steps[..4], 2) && Folds(Paired(steps), steps)
    ensures PrintedEnd(Paired(steps)) == 1032 && steps[IDLES].endCycle == 1044
  {
    assert forall i | 0 <= i < |steps| :: steps[i].signature == WAIT_STEP;
    assert steps[0].startCycle == 88 && steps[1].endCycle == 96;
    PairsRepeat(steps, steps[..2], WAIT_STEP, 118);
    hide RangeOf, Signatures, Repeated, IdlesThenWakes;
  }

  /** A failing input without a conditional jump, run from start-up by the real CPU: a halted CPU with IME
      off idles at 0110 until the timer interrupt is flagged, and then executes the RET there. Neither step
      names an opcode. The 236 steps are a loop of two-step occurrences whose span is printed as 88 to
      1032 while it ends at 1044. */
  lemma WakingReturnMisprints()
    ensures var e := StepCycles(Dispatch, FromCartridge(Program(WAKE_CODE), false), 88);
      var steps := TraceOf(e.cpu, e.bus, e.total, 9, IDLES + 1);
      e.total == 88 && e.carry == 0 && |steps| == 236 && RepeatsAt(steps[..4], 2) && Folds(Paired(steps), steps) &&
      PrintedEnd(Paired(steps)) == 1032 && steps[IDLES].endCycle == 1044
  {
    hide Program, FromCartridge, StepCycles, TraceOf, Mapped, Halted, Folds, RepeatsAt, PrintedEnd, Paired, WaitView,
         SameWait, StartCore;
    var e, start := StepCycles(Dispatch, FromCartridge(Program(WAKE_CODE), false), 88),
                    StartCore(Program(WAKE_CODE), false);
    WakeReached();
    WakeBytes();
    var m, v := Core(e.cpu, e.bus), WakeView(9, start.cpu.r, start.bus.mem);
    WakeIsWait(start.cpu.r, start.bus.mem, Program(WAKE_CODE));
    SameAsItself(m);
    WaitStarts(e.bus);
    WaitTrace(m, v, Program(WAKE_CODE), e.cpu, 0, 88, 9);
    var steps := TraceOf(e.cpu, e.bus, 88, 9, IDLES + 1);
    assert |steps| == 236;
    WaitMisprints(steps);
  }

  lemma WakeIsWait(r: Registers, mem: Memory, rom: Image)
    requires Mapped(mem, rom) && WakeRom(rom)
    ensures WaitView(WakeView(9, r, mem), rom)
  {
    PushedMapped(mem, rom);
    hide Mapped;
  }

  lemma SameAsItself(m: Core)
    ensures SameWait(m.cpu, m)
  {
  }

  lemma WaitStarts(b: BusState)
    ensures Waiting(b, 0) == b
  {
    TickIsAdvance(b, 0);
    OneStep(b);
    assert 0 / SpeedDivisor(b) == 0;
    hide TickForCpuCycles, Advance;
  }

  /** In both runs it is an ambiguous step that costs differently; the other two of the first are not. */
  lemma FailingStepsAreAmbiguous()
    ensures Ambiguous(JR_C_STEP) && Ambiguous(WAIT_STEP) && !Ambiguous(CCF_STEP) && !Ambiguous(JR_STEP)
    ensures CanCost(JR_C_STEP, 8) && CanCost(JR_C_STEP, 12) && CanCost(WAIT_STEP, 4) && CanCost(WAIT_STEP, 16)
  {
    LoopMetadata();
    hide Opcodes.MetadataFor, Fits;
    JrFits(JR_C_STEP, 0x38, false, 8);
    JrFits(JR_C_STEP, 0x38, false, 12);
    WakingChoices(WAIT_STEP);
  }
}
