/** The cycle span that the trace tool prints for a loop (platform/desktop/src/bin/trace_rom.rs): the
    length of the loop's first occurrence, times their number. Which windows that is right for, given
    what the CPU's steps can cost. */
module TraceSpans {
  import opened Base
  import Opcodes
  import opened BusModel
  import BusMemory
  import opened CpuModel
  import CpuControl
  import opened CpuFlow
  import opened Scheduler
  import opened TraceCompressor

  // ------------------------------------------------------------- the printed span

  /** The cycles of one occurrence, subtracted saturating. */
  function WindowCycles(l: LoopState): nat
    requires l.window != []
  {
    Max(l.window[|l.window| - 1].endCycle - l.window[0].startCycle, 0)
  }

  /** The printed end of the loop's cycles: the first occurrence's length taken for all, saturating. */
  function PrintedEnd(l: LoopState): int
    requires l.window != []
  {
    Min(l.window[0].startCycle + Min(WindowCycles(l) * l.repetitions, U64_MAX), U64_MAX)
  }

  /** Steps of a CPU that ran without anything else in between. */
  ghost predicate Contiguous(steps: seq<PendingStep>) {
    (forall i | 0 <= i < |steps| :: steps[i].startCycle <= steps[i].endCycle <= U64_MAX) &&
    (forall i | 0 <= i < |steps| - 1 :: steps[i].endCycle == steps[i + 1].startCycle)
  }

  function CyclesOf(steps: seq<PendingStep>): int {
    if steps == [] then 0
    else CyclesOf(steps[..|steps| - 1]) + steps[|steps| - 1].endCycle - steps[|steps| - 1].startCycle
  }

  lemma {:induction false} ContiguousCycles(steps: seq<PendingStep>)
    requires Contiguous(steps) && steps != []
    ensures CyclesOf(steps) == steps[|steps| - 1].endCycle - steps[0].startCycle >= 0
  {
    var rest := steps[..|steps| - 1];
    if rest == [] {
      assert CyclesOf(rest) == 0;
    } else {
      ContiguousPrefix(steps, |steps| - 1);
      ContiguousCycles(rest);
    }
  }

  lemma ContiguousPrefix(steps: seq<PendingStep>, n: nat)
    requires Contiguous(steps) && n <= |steps|
    ensures Contiguous(steps[..n])
  {
  }

  lemma SpanArithmetic(start: nat, occurrence: nat, count: nat, total: nat)
    requires start + total <= U64_MAX
    ensures var printed := Min(start + Min(occurrence * count, U64_MAX), U64_MAX);
      (total == occurrence * count ==> printed == start + total) &&
      (start + total < U64_MAX && printed == start + total ==> total == occurrence * count)
  {
    MulMonotone(occurrence, 0, count);
  }

  /** The printed span is right if all occurrences together took as long as the first one, times their number. */
  lemma PrintedSpanEnds(l: LoopState, steps: seq<PendingStep>)
    requires steps != [] && l.window != [] && l.window <= steps && Contiguous(steps)
    ensures CyclesOf(steps) == CyclesOf(l.window) * l.repetitions ==> PrintedEnd(l) == steps[|steps| - 1].endCycle
    ensures steps[|steps| - 1].endCycle < U64_MAX && PrintedEnd(l) == steps[|steps| - 1].endCycle ==>
      CyclesOf(steps) == CyclesOf(l.window) * l.repetitions
  {
    hide CyclesOf, PrintedEnd;
    PrintedIs(l, steps);
    assert steps[|steps| - 1].endCycle <= U64_MAX;
    ContiguousCycles(steps);
    hide Contiguous;
    SpanArithmetic(steps[0].startCycle, CyclesOf(l.window), l.repetitions, CyclesOf(steps));
  }

  lemma PrintedIs(l: LoopState, steps: seq<PendingStep>)
    requires steps != [] && l.window != [] && l.window <= steps && Contiguous(steps)
    ensures CyclesOf(l.window) >= 0 && l.window[0] == steps[0]
    ensures PrintedEnd(l) == Min(steps[0].startCycle + Min(CyclesOf(l.window) * l.repetitions, U64_MAX), U64_MAX)
  {
    hide CyclesOf, Contiguous;
    assert l.window == steps[..|l.window|];
    ContiguousPrefix(steps, |l.window|);
    ContiguousCycles(l.window);
  }

  lemma {:induction false} CyclesConcat(a: seq<PendingStep>, b: seq<PendingStep>)
    ensures CyclesOf(a + b) == CyclesOf(a) + CyclesOf(b)
  {
    if b == [] {
      assert a + b == a;
    } else {
      CyclesConcat(a, b[..|b| - 1]);
      assert (a + b)[..|a + b| - 1] == a + b[..|b| - 1];
    }
  }

  lemma LastOccurrence(w: seq<PendingStep>, k: nat, steps: seq<PendingStep>)
    requires k > 0 && Signatures(steps) == Repeated(Signatures(w), k)
    ensures var n := |steps| - |w|;
      n >= 0 && Signatures(steps[..n]) == Repeated(Signatures(w), k - 1) && Signatures(steps[n..]) == Signatures(w)
  {
    var before := Repeated(Signatures(w), k - 1);
    assert Signatures(steps) == before + Signatures(w);
    assert |Signatures(steps)| == |steps| && |Signatures(w)| == |w|;
    hide Signatures, Repeated;
    var n := |steps| - |w|;
    assert steps == steps[..n] + steps[n..];
    SignaturesConcat(steps[..n], steps[n..]);
    assert |Signatures(steps[..n])| == n == |before|;
    SamePieces(Signatures(steps[..n]), Signatures(steps[n..]), before, Signatures(w));
  }

  lemma SamePieces<T>(a: seq<T>, b: seq<T>, c: seq<T>, d: seq<T>)
    requires a + b == c + d && |a| == |c|
    ensures a == c && b == d
  {
    assert a == (a + b)[..|a|] == (c + d)[..|c|] == c;
    assert b == (a + b)[|a|..] == (c + d)[|c|..] == d;
  }

  lemma Times(x: int, k: nat)
    requires k > 0
    ensures x * k == x * (k - 1) + x
  {
  }

  // ------------------------------------------------------- what a signature shows

  /** `instruction_len`: the conditional calls are missing from the table of three-byte instructions. */
  function LengthOf(opcode: Option<byte>): (n: nat)
    ensures n <= 3
  {
    match opcode
    case None => 1
    case Some(op) =>
      if op in {0x3E, 0x06, 0x0E, 0x16, 0x1E, 0x26, 0x2E, 0x36, 0x18, 0x20, 0x28, 0x30, 0x38, 0xC6, 0xCE, 0xD6, 0xDE,
                0xE0, 0xE6, 0xEE, 0xF0, 0xF6, 0xFE} then 2
      else if op in {0x01, 0x11, 0x21, 0x31, 0x08, 0xC3, 0xC2, 0xCA, 0xD2, 0xDA, 0xCD} then 3
      else 1
  }

  predicate WillServe(c: CpuState, b: BusState) { Pending(b) != 0 && !c.locked && c.ime }

  /** The opcode that the observation names: none for a step that starts halted or takes an interrupt. */
  function OpcodeHint(c: CpuState, b: BusState): Option<byte> {
    if c.halted || WillServe(c, b) then None else Some(BusMemory.Read8(b, c.pc))
  }

  /** The signature of the CPU step from `c` on bus `b` to `d`. */
  function SignatureTo(c: CpuState, b: BusState, d: CpuState): Signature {
    var hint := OpcodeHint(c, b);
    Signature(hint, c.pc, d.pc, if d.fetchCount > 1 then Some(d.fetchBytes[1]) else None,
              if d.fetchCount > 2 then Some(d.fetchBytes[2]) else None, d.pc != Wrap(c.pc + LengthOf(hint)),
              c.ime && !d.ime && d.sp != c.sp)
  }

  function SignatureOf(c: CpuState, b: BusState): Signature { SignatureTo(c, b, Step(Dispatch, c, b).cpu) }

  /** The footprint that a signature shows, with its cost. */
  function Shown(s: Signature, cost: int): Footprint {
    Footprint(if s.operand2.Some? then 3 else if s.operand1.Some? then 2 else 1,
              if s.operand1.Some? then s.operand1.value else 0, if s.operand2.Some? then s.operand2.value else 0,
              s.pcAfter, cost)
  }

  /** A step of opcode `op` can show this signature at this cost, by the opcode table; under the HALT bug
      the opcode is fetched again. */
  predicate Fits(s: Signature, op: byte, bug: bool, cost: int) {
    (s.operand2.Some? ==> s.operand1.Some?) && (bug && s.operand1.Some? ==> s.operand1 == Some(op)) &&
    FitsTable(op, if bug then s.pcBefore else Wrap(s.pcBefore + 1), Shown(s, cost))
  }

  predicate Idles(s: Signature) { s.pcAfter == s.pcBefore && s.operand1.None? && s.operand2.None? }

  /** What a step with this signature can cost. A step without opcode is an interrupt entry, an idle
      step, or the instruction with which a halted CPU wakes up, whichever that is. */
  predicate CanCost(s: Signature, cost: int) {
    if s.interruptEntry then cost == 20
    else
      match s.opcode
      case None => (Idles(s) && cost == 4) || exists op: byte :: Fits(s, op, false, cost)
      case Some(op) => Fits(s, op, false, cost) || Fits(s, op, true, cost)
  }

  // ------------------------------------------------- real steps cost what they can cost

  lemma ShownFits(op: byte, next: word, f: Footprint, s: Signature, cost: int)
    requires FitsTable(op, next, f) && f.pc == s.pcAfter && f.cycles == cost
    requires s.operand1 == (if f.count > 1 then Some(f.o1) else None)
    requires s.operand2 == (if f.count > 2 then Some(f.o2) else None)
    ensures FitsTable(op, next, Shown(s, cost))
  {
    hide Opcodes.MetadataFor, Opcodes.CbMetadataFor, Opcodes.CyclesOf, Signed, Word;
  }

  lemma ServiceSignature(c: CpuState, b: BusState)
    requires WillServe(c, b)
    ensures SignatureOf(c, b).interruptEntry && Step(Dispatch, c, b).cycles == 20
  {
    hide BusMemory.Write8, LowestPending, MaskOf;
  }

  lemma ExecutedSignature(c: CpuState, b: BusState)
    requires !WillServe(c, b) && (!c.halted || (Pending(b) != 0 && !c.locked))
    ensures Step(Dispatch, c, b) == ExecuteInstruction(c.(fetchCount := 0, halted := false), b)
  {
    hide ExecuteInstruction, ServiceInterrupt, Pending;
    assert !c.halted ==> c.(halted := false) == c;
  }

  lemma DiKeepsSp(c: CpuState, b: BusState)
    requires BusMemory.Read8(b, c.pc) == 0xF3
    ensures ExecuteInstruction(c, b).cpu.sp == c.sp
  {
    hide BusMemory.Read8, Pending, ExecuteData;
    assert Opcodes.MetadataFor(0xF3) == Some(Opcodes.Plain(0xF3, Opcodes.Di, 4));
  }

  /** Only DI clears IME, and DI moves no stack. */
  lemma NoEntry(c: CpuState, b: BusState)
    ensures var d := ExecuteInstruction(c, b).cpu;
      !(c.ime && !d.ime && d.sp != c.sp)
  {
    hide ExecuteInstruction, BusMemory.Read8, Pending, BusMemory.ConsumeSpeedSwitch, Opcodes.Undefined;
    CpuControl.InstructionControl(c, b);
    if BusMemory.Read8(b, c.pc) == 0xF3 {
      DiKeepsSp(c, b);
    }
  }

  lemma InstructionFits(c: CpuState, b: BusState)
    requires c.fetchCount == 0
    ensures var r := ExecuteInstruction(c, b);
      var s := SignatureTo(c, b, r.cpu);
      !s.interruptEntry && Fits(s, BusMemory.Read8(b, c.pc), c.haltBug, r.cycles)
  {
    hide ExecuteInstruction, BusMemory.Read8, FitsTable, WillServe, Opcodes.GoodCost, LengthOf;
    NoEntry(c, b);
    InstructionFlow(c, b);
    var r := ExecuteInstruction(c, b);
    ShownFits(BusMemory.Read8(b, c.pc), if c.haltBug then c.pc else Wrap(c.pc + 1), FootprintOf(r),
              SignatureTo(c, b, r.cpu), r.cycles);
  }

  lemma SameFits(s: Signature, t: Signature, op: byte, bug: bool, cost: int)
    requires Fits(s, op, bug, cost) && t.pcBefore == s.pcBefore && t.pcAfter == s.pcAfter
    requires t.operand1 == s.operand1 && t.operand2 == s.operand2
    ensures Fits(t, op, bug, cost)
  {
    hide FitsTable;
  }

  /** Every step of the real CPU costs what its signature can cost. */
  lemma StepCanCost(c: CpuState, b: BusState)
    requires CpuControl.ControlInv(CpuControl.ControlOf(c))
    ensures CanCost(SignatureOf(c, b), Step(Dispatch, c, b).cycles)
  {
    hide ExecuteInstruction, Fits, BusMemory.Read8, Pending, Opcodes.GoodCost, ServiceInterrupt;
    var s := SignatureOf(c, b);
    if WillServe(c, b) {
      ServiceSignature(c, b);
    } else if c.halted && (Pending(b) == 0 || c.locked) {
      assert Idles(s);
    } else {
      ExecutedSignature(c, b);
      hide Step;
      var e := c.(fetchCount := 0, halted := false);
      InstructionFits(e, b);
      SameFits(SignatureTo(e, b, ExecuteInstruction(e, b).cpu), s, BusMemory.Read8(b, c.pc), c.haltBug,
               ExecuteInstruction(e, b).cycles);
    }
  }

  // ---------------------------------------------------------------- ambiguity

  /** A signature that two costs can hide behind. Without opcode it is anything but a jump with one
      operand; with one it is a conditional instruction that ends where both outcomes can: behind its last
      byte, or one byte before under the HALT bug. */
  predicate Ambiguous(s: Signature) {
    !s.interruptEntry &&
    match s.opcode
    case None => !(s.operand1.Some? && s.operand2.None? && s.pcAfter != Wrap(s.pcBefore + 2))
    case Some(op) =>
      match Sort(op)
      case JrCond => s.operand1 == Some(0)
      case RetCond => s.pcAfter == s.pcBefore || s.pcAfter == Wrap(s.pcBefore + 1)
      case JpCond => JumpsOn(s, op)
      case CallCond => JumpsOn(s, op)
      case _ => false
  }

  /** The instruction of an opcode, NOP standing for the undefined ones. */
  function Sort(op: byte): Opcodes.Instruction {
    match Opcodes.MetadataFor(op)
    case None => Opcodes.Nop
    case Some(meta) => meta.instruction
  }

  /** An absolute jump whose target is where it would end untaken. */
  predicate JumpsOn(s: Signature, op: byte) {
    s.operand1.Some? && s.operand2.Some? && s.pcAfter == Word(s.operand2.value, s.operand1.value) &&
    (s.pcAfter == Wrap(s.pcBefore + 3) || (s.pcAfter == Wrap(s.pcBefore + 2) && s.operand1 == Some(op)))
  }

  predicate Conditional(i: Opcodes.Instruction) { i.JrCond? || i.RetCond? || i.JpCond? || i.CallCond? }

  /** Opcodes and costs of the conditional instructions; all others cost the same either way. */
  lemma ConditionalCosts(op: byte)
    requires op != 0xCB && Opcodes.MetadataFor(op).Some?
    ensures var m := Opcodes.MetadataFor(op).value;
      var taken, untaken := Opcodes.CyclesOf(m, true), Opcodes.CyclesOf(m, false);
      (!Conditional(m.instruction) ==> taken == untaken) &&
      (m.instruction.JrCond? ==> op in {0x20, 0x28, 0x30, 0x38} && taken == 12 && untaken == 8) &&
      (m.instruction.Jr? ==> taken == untaken == 12) &&
      (m.instruction.RetCond? ==> taken == 20 && untaken == 8) &&
      (m.instruction.JpCond? ==> taken == 16 && untaken == 12) &&
      (m.instruction.CallCond? ==> taken == 24 && untaken == 12)
  {
    Opcodes.TableIsComplete(op, true);
    var k := op % 8;
    if op < 0x40 {
      hide Opcodes.HighMetadata, Opcodes.LoadMetadata;
      if k == 0 {} else if k < 4 {} else {}
    } else if op >= 0xC0 {
      hide Opcodes.LowMetadata, Opcodes.LoadMetadata;
      if k < 2 {} else if k < 4 {} else {}
    }
  }

  function Next(s: Signature, bug: bool, n: nat): word { Wrap(s.pcBefore + n + (if bug then 0 else 1)) }

  lemma ConditionalFits(meta: Opcodes.Metadata, next: word, f: Footprint, taken: bool)
    requires Conditional(meta.instruction)
    ensures var i := meta.instruction;
      var n := if i.JrCond? then 1 else if i.RetCond? then 0 else 2;
      FitsMetadata(meta, next, f, taken) <==>
      f.count == 1 + n && f.cycles == Opcodes.CyclesOf(meta, taken) &&
      (if !taken then f.pc == Wrap(next + n)
       else if i.JrCond? then f.pc == Wrap(Wrap(next + n) + Signed(f.o1))
       else i.RetCond? || f.pc == Word(f.o2, f.o1))
  {
    hide Wrap, Signed, Word, Opcodes.CyclesOf;
  }

  lemma JrFits(s: Signature, op: byte, bug: bool, cost: int)
    requires Sort(op).JrCond?
    ensures Fits(s, op, bug, cost) <==>
            s.operand1.Some? && s.operand2.None? && (bug ==> s.operand1 == Some(op)) &&
            ((cost == 8 && s.pcAfter == Next(s, bug, 1)) ||
             (cost == 12 && s.pcAfter == Wrap(s.pcBefore + (if bug then 1 else 2) + Signed(s.operand1.value))))
    ensures op in {0x20, 0x28, 0x30, 0x38}
  {
    ConditionalCosts(op);
    var meta, next := Opcodes.MetadataFor(op).value, if bug then s.pcBefore else Wrap(s.pcBefore + 1);
    ConditionalFits(meta, next, Shown(s, cost), false);
    ConditionalFits(meta, next, Shown(s, cost), true);
    WrapAdd(s.pcBefore + 1, 1);
    assert Wrap(next + 1) == Next(s, bug, 1);
    WrapAdd(if bug then s.pcBefore + 1 else s.pcBefore + 2, Signed(Shown(s, cost).o1));
    hide Opcodes.MetadataFor, Opcodes.CyclesOf, Signed, Wrap, FitsMetadata, Next;
  }

  lemma WrapAdd(x: int, n: int)
    ensures Wrap(Wrap(x) + n) == Wrap(x + n)
  {
    DivShift(x % 0x1_0000 + n, 0x1_0000, x / 0x1_0000);
  }

  lemma RetFits(s: Signature, op: byte, bug: bool, cost: int)
    requires Sort(op).RetCond?
    ensures Fits(s, op, bug, cost) <==>
            s.operand1.None? && s.operand2.None? && (cost == 20 || (cost == 8 && s.pcAfter == Next(s, bug, 0)))
  {
    ConditionalCosts(op);
    hide Opcodes.MetadataFor, Opcodes.CyclesOf, Signed;
  }

  lemma AbsoluteFits(s: Signature, op: byte, bug: bool, cost: int)
    requires Sort(op).JpCond? || Sort(op).CallCond?
    ensures var taken := if Sort(op).JpCond? then 16 else 24;
      Fits(s, op, bug, cost) <==>
      s.operand1.Some? && s.operand2.Some? && (bug ==> s.operand1 == Some(op)) &&
      ((cost == 12 && s.pcAfter == Next(s, bug, 2)) ||
       (cost == taken && s.pcAfter == Word(s.operand2.value, s.operand1.value)))
  {
    ConditionalCosts(op);
    WrapAdd(s.pcBefore + 1, 2);
    var meta, next := Opcodes.MetadataFor(op).value, if bug then s.pcBefore else Wrap(s.pcBefore + 1);
    ConditionalFits(meta, next, Shown(s, cost), false);
    ConditionalFits(meta, next, Shown(s, cost), true);
    hide Opcodes.MetadataFor, Opcodes.CyclesOf, Signed, Word, Wrap, FitsMetadata;
  }

  /** The cost of an opcode without condition, the extended one being its operand. */
  function CostOf(s: Signature, op: byte): int {
    if op == 0xCB then Opcodes.CyclesOf(Opcodes.CbMetadataFor(Shown(s, 0).o1), false)
    else
      match Opcodes.MetadataFor(op)
      case None => 4
      case Some(meta) => Opcodes.CyclesOf(meta, false)
  }

  lemma PlainFits(s: Signature, op: byte, bug: bool, cost: int)
    requires !Conditional(Sort(op)) && Fits(s, op, bug, cost)
    ensures cost == CostOf(s, op)
  {
    if op != 0xCB && Opcodes.MetadataFor(op).Some? {
      ConditionalCosts(op);
    }
    hide Opcodes.MetadataFor, Opcodes.CyclesOf, Opcodes.CbMetadataFor, LandsAt, OperandBytes;
  }

  lemma OpcodeCostUnique(s: Signature, op: byte, bug1: bool, bug2: bool, j: int, k: int)
    requires s.opcode == Some(op) && !s.interruptEntry && !Ambiguous(s)
    requires Fits(s, op, bug1, j) && Fits(s, op, bug2, k)
    ensures j == k
  {
    var i := Sort(op);
    hide Sort, Fits, CostOf, Word;
    if i.JrCond? {
      JrFits(s, op, bug1, j);
      JrFits(s, op, bug2, k);
      hide JumpsOn;
    } else if i.RetCond? {
      RetFits(s, op, bug1, j);
      RetFits(s, op, bug2, k);
      hide JumpsOn;
    } else if i.JpCond? || i.CallCond? {
      AbsoluteFits(s, op, bug1, j);
      AbsoluteFits(s, op, bug2, k);
    } else {
      PlainFits(s, op, bug1, j);
      PlainFits(s, op, bug2, k);
    }
  }

  /** A waking instruction with one operand that does not end behind it is a taken relative jump. */
  lemma WakingJump(s: Signature, op: byte, cost: int)
    requires Fits(s, op, false, cost) && s.operand1.Some? && s.operand2.None? && s.pcAfter != Wrap(s.pcBefore + 2)
    ensures cost == 12
  {
    if op != 0xCB && Opcodes.MetadataFor(op).Some? {
      ConditionalCosts(op);
      JumpCost(op);
    }
    hide Opcodes.MetadataFor, Opcodes.CyclesOf, Opcodes.CbMetadataFor;
  }

  lemma JumpCost(op: byte)
    requires op != 0xCB && Opcodes.MetadataFor(op).Some?
    ensures var m := Opcodes.MetadataFor(op).value;
      (m.instruction.Jr? || m.instruction.JrCond? ==> Opcodes.CyclesOf(m, true) == 12) &&
      (m.instruction.Jr? ==> Opcodes.CyclesOf(m, false) == 12)
  {
    ConditionalCosts(op);
    hide Opcodes.MetadataFor, Opcodes.CyclesOf;
  }

  /** A step that is not ambiguous costs a function of its signature. */
  lemma CostUnique(s: Signature, j: int, k: int)
    requires !Ambiguous(s) && CanCost(s, j) && CanCost(s, k)
    ensures j == k
  {
    hide Fits, Sort, JumpsOn;
    if s.interruptEntry {
    } else if s.opcode.Some? {
      var op := s.opcode.value;
      hide Ambiguous;
      var bug1, bug2 := !Fits(s, op, false, j), !Fits(s, op, false, k);
      OpcodeCostUnique(s, op, bug1, bug2, j, k);
    } else {
      var op1: byte :| Fits(s, op1, false, j);
      var op2: byte :| Fits(s, op2, false, k);
      WakingJump(s, op1, j);
      WakingJump(s, op2, k);
    }
  }

  /** Opcodes that a waking step without operands, with one or with two can have been. */
  lemma WakingChoices(s: Signature)
    ensures s.operand1.None? && s.operand2.None? ==> Fits(s, 0xE9, false, 4) && Fits(s, 0xC9, false, 16)
    ensures s.operand1.Some? && s.operand2.None? && s.pcAfter == Wrap(s.pcBefore + 2) ==>
      Fits(s, 0x3E, false, 8) && Fits(s, 0xE0, false, 12)
  {
    Ops();
    WrapAdd(s.pcBefore + 1, 1);
    hide Opcodes.MetadataFor, Wrap, Signed, Word;
  }

  lemma Ops()
    ensures Opcodes.MetadataFor(0xE9) == Some(Opcodes.Plain(0xE9, Opcodes.JpHl, 4))
    ensures Opcodes.MetadataFor(0xC9) == Some(Opcodes.Plain(0xC9, Opcodes.Ret, 16))
    ensures Opcodes.MetadataFor(0x3E) ==
            Some(Opcodes.With8(0x3E, Opcodes.Ld8Imm, Opcodes.R8(7), Opcodes.MemoryOperand(8, 12)))
    ensures Opcodes.MetadataFor(0xE0) == Some(Opcodes.With8(0xE0, Opcodes.LdhImmFromA, Opcodes.Imm8, Opcodes.Fixed(12)))
  {
  }

  lemma WideOps()
    ensures Opcodes.MetadataFor(0x01) == Some(Opcodes.With16(0x01, Opcodes.Ld16Imm, Opcodes.R16(0), 12))
    ensures Opcodes.MetadataFor(0x08) == Some(Opcodes.With16(0x08, Opcodes.LdSpToImm16Addr, Opcodes.Imm16, 20))
    ensures Opcodes.MetadataFor(0xC3) == Some(Opcodes.With16(0xC3, Opcodes.Jp, Opcodes.Imm16, 16))
    ensures Opcodes.MetadataFor(0xCD) == Some(Opcodes.With16(0xCD, Opcodes.Call, Opcodes.Imm16, 24))
  {
  }

  lemma WideWakingChoices(s: Signature)
    requires s.operand1.Some? && s.operand2.Some?
    ensures s.pcAfter == Wrap(s.pcBefore + 3) ==> Fits(s, 0x01, false, 12) && Fits(s, 0x08, false, 20)
    ensures s.pcAfter == Word(s.operand2.value, s.operand1.value) ==>
      Fits(s, 0xC3, false, 16) && Fits(s, 0xCD, false, 24)
  {
    WideOps();
    WrapAdd(s.pcBefore + 1, 2);
    hide Opcodes.MetadataFor, Wrap, Signed, Word;
  }

  /** A waking instruction with two operands ends behind them or where they say. */
  lemma WideWaking(s: Signature, op: byte, cost: int)
    requires Fits(s, op, false, cost) && s.operand2.Some?
    ensures s.operand1.Some? &&
            (s.pcAfter == Wrap(s.pcBefore + 3) || s.pcAfter == Word(s.operand2.value, s.operand1.value))
  {
    WrapAdd(s.pcBefore + 1, 2);
    hide Opcodes.MetadataFor, Opcodes.CyclesOf, Opcodes.CbMetadataFor, Wrap, Signed, Word;
  }

  ghost predicate HasOther(s: Signature, cost: int) { exists k | 4 <= k <= 24 && k != cost :: CanCost(s, k) }

  lemma Other(s: Signature, j: int, k: int, cost: int)
    requires 4 <= j <= 24 && 4 <= k <= 24 && j != k && CanCost(s, j) && CanCost(s, k)
    ensures HasOther(s, cost)
  {
    hide CanCost;
    assert j != cost || k != cost;
  }

  lemma WakingAmbiguous(s: Signature, cost: int)
    requires s.opcode.None? && !s.interruptEntry && Ambiguous(s) && CanCost(s, cost)
    ensures HasOther(s, cost)
  {
    hide Fits, HasOther, Word;
    WakingChoices(s);
    if s.operand1.None? && s.operand2.None? {
      Other(s, 4, 16, cost);
    } else if s.operand2.None? {
      Other(s, 8, 12, cost);
    } else {
      var op: byte :| Fits(s, op, false, cost);
      WideWaking(s, op, cost);
      WideWakingChoices(s);
      if s.pcAfter == Wrap(s.pcBefore + 3) {
        Other(s, 12, 20, cost);
      } else {
        Other(s, 16, 24, cost);
      }
    }
  }

  lemma OpcodeAmbiguous(s: Signature, op: byte, cost: int)
    requires s.opcode == Some(op) && !s.interruptEntry && Ambiguous(s) && CanCost(s, cost)
    ensures HasOther(s, cost)
  {
    hide Fits, HasOther, Sort, Word;
    if Sort(op).JrCond? {
      JrAmbiguous(s, op, cost);
    } else if Sort(op).RetCond? {
      var bug := s.pcAfter == s.pcBefore;
      RetFits(s, op, bug, 8);
      RetFits(s, op, bug, 20);
      RetFits(s, op, false, cost);
      RetFits(s, op, true, cost);
      Other(s, 8, 20, cost);
    } else {
      var bug, taken := s.pcAfter != Wrap(s.pcBefore + 3), if Sort(op).JpCond? then 16 else 24;
      AbsoluteFits(s, op, bug, 12);
      AbsoluteFits(s, op, bug, taken);
      Other(s, 12, taken, cost);
    }
  }

  lemma JrAmbiguous(s: Signature, op: byte, cost: int)
    requires s.opcode == Some(op) && !s.interruptEntry && Sort(op).JrCond? && s.operand1 == Some(0) && CanCost(s, cost)
    ensures HasOther(s, cost)
  {
    hide Fits, HasOther, Sort;
    JrFits(s, op, false, cost);
    JrFits(s, op, true, cost);
    JrFits(s, op, false, 8);
    JrFits(s, op, false, 12);
    Other(s, 8, 12, cost);
  }

  /** An ambiguous step could have cost something else. */
  lemma AmbiguousHasOther(s: Signature, cost: int)
    requires Ambiguous(s) && CanCost(s, cost)
    ensures exists k | 4 <= k <= 24 && k != cost :: CanCost(s, k)
  {
    if s.opcode.Some? {
      OpcodeAmbiguous(s, s.opcode.value, cost);
    } else {
      WakingAmbiguous(s, cost);
    }
    hide CanCost, Ambiguous;
  }

  // ------------------------------------------------- which windows print right

  /** Every step took what its signature can cost. */
  ghost predicate Timed(steps: seq<PendingStep>) {
    forall m | 0 <= m < |steps| :: CanCost(steps[m].signature, steps[m].endCycle - steps[m].startCycle)
  }

  predicate Unambiguous(steps: seq<PendingStep>) { forall m | 0 <= m < |steps| :: !Ambiguous(steps[m].signature) }

  /** A loop with window `w` and the steps that it stands for: contiguous steps at possible costs. */
  ghost predicate Continues(w: seq<PendingStep>, l: LoopState, steps: seq<PendingStep>) {
    l.window == w && Folds(l, steps) && Contiguous(steps) && Timed(steps)
  }

  /** Whatever the loop's further occurrences cost, the printed end is the real one. */
  ghost predicate PrintsRight(w: seq<PendingStep>)
    requires w != []
  {
    forall l: LoopState, steps: seq<PendingStep> | Continues(w, l, steps) ::
      PrintedEnd(l) == steps[|steps| - 1].endCycle
  }

  lemma SignaturesPrefix(s: seq<PendingStep>)
    requires s != []
    ensures var n := |s| - 1;
      Signatures(s)[n] == s[n].signature && Signatures(s)[..n] == Signatures(s[..n])
  {
  }

  lemma {:induction false} SameCycles(a: seq<PendingStep>, b: seq<PendingStep>)
    requires Signatures(a) == Signatures(b) && Timed(a) && Timed(b) && Unambiguous(b)
    ensures CyclesOf(a) == CyclesOf(b)
  {
    hide Ambiguous, CanCost, Signatures;
    assert |Signatures(a)| == |a| && |Signatures(b)| == |b|;
    if a != [] {
      var n := |a| - 1;
      SignaturesPrefix(a);
      SignaturesPrefix(b);
      SameCycles(a[..n], b[..n]);
      CostUnique(a[n].signature, a[n].endCycle - a[n].startCycle, b[n].endCycle - b[n].startCycle);
    }
  }

  lemma {:induction false} OccurrenceCycles(w: seq<PendingStep>, k: nat, steps: seq<PendingStep>)
    requires Signatures(steps) == Repeated(Signatures(w), k) && Timed(steps) && Timed(w) && Unambiguous(w)
    ensures CyclesOf(steps) == CyclesOf(w) * k
  {
    hide CanCost, Ambiguous, Unambiguous;
    if k > 0 {
      LastOccurrence(w, k, steps);
      hide Signatures, Repeated, CyclesOf;
      var n := |steps| - |w|;
      var first, last := steps[..n], steps[n..];
      assert steps == first + last;
      OccurrenceCycles(w, k - 1, first);
      SameCycles(last, w);
      CyclesConcat(first, last);
      Times(CyclesOf(w), k);
    } else {
      assert |Signatures(steps)| == |steps|;
      assert steps == [];
    }
  }

  /** Without an ambiguous step in the window the printed span is exact, whatever the loop went on to do. */
  lemma PrintedSpanExact(l: LoopState, steps: seq<PendingStep>)
    requires l.window != [] && Continues(l.window, l, steps) && Unambiguous(l.window)
    ensures PrintedEnd(l) == steps[|steps| - 1].endCycle
  {
    PrintedSpanEnds(l, steps);
    assert Timed(l.window);
    hide PrintedEnd, Contiguous, RangeOf, CanCost, Unambiguous;
    OccurrenceCycles(l.window, l.repetitions, steps);
  }

  lemma {:induction false} ContiguousOrder(w: seq<PendingStep>, i: nat, m: nat)
    requires Contiguous(w) && i < m < |w|
    ensures w[i].endCycle <= w[m].startCycle
  {
    if m > i + 1 {
      ContiguousOrder(w, i, m - 1);
    }
  }

  predicate Room(w: seq<PendingStep>)
    requires w != []
  {
    w[|w| - 1].endCycle + (w[|w| - 1].endCycle - w[0].startCycle) + 24 <= U64_MAX
  }

  predicate Laps(w: seq<PendingStep>, i: nat, extra: int, lag: nat) {
    forall m | 0 <= m < |w| ::
      w[m].startCycle + lag + (if m > i then extra else 0) >= 0 &&
      w[m].endCycle + lag + (if m >= i then extra else 0) >= 0
  }

  /** The window's steps once more, `lag` cycles later, the step at `i` taking `extra` more cycles. */
  function Again(w: seq<PendingStep>, i: nat, extra: int, lag: nat): (r: seq<PendingStep>)
    requires Laps(w, i, extra, lag)
    ensures |r| == |w|
    ensures forall m | 0 <= m < |w| ::
      r[m].signature == w[m].signature && r[m].startCycle == w[m].startCycle + lag + (if m > i then extra else 0) &&
      r[m].endCycle == w[m].endCycle + lag + (if m >= i then extra else 0)
  {
    if w == [] then []
    else
      var n := |w| - 1;
      Again(w[..n], i, extra, lag) +
      [w[n].(startCycle := w[n].startCycle + lag + (if n > i then extra else 0),
             endCycle := w[n].endCycle + lag + (if n >= i then extra else 0))]
  }

  /** Where the steps of a contiguous window lie. */
  lemma ContiguousPlaces(w: seq<PendingStep>, i: nat, m: nat)
    requires Contiguous(w) && i < |w| && m < |w|
    ensures m > i ==> w[i].endCycle <= w[m].startCycle
    ensures w[0].startCycle <= w[m].startCycle <= w[m].endCycle <= w[|w| - 1].endCycle
  {
    hide Contiguous;
    if m > i {
      ContiguousOrder(w, i, m);
    }
    if m > 0 {
      ContiguousOrder(w, 0, m);
      ContiguousStep(w, 0);
    }
    if m < |w| - 1 {
      ContiguousOrder(w, m, |w| - 1);
      ContiguousStep(w, |w| - 1);
    }
    ContiguousStep(w, m);
  }

  lemma ContiguousStep(w: seq<PendingStep>, m: nat)
    requires Contiguous(w) && m < |w|
    ensures w[m].startCycle <= w[m].endCycle <= U64_MAX
    ensures m + 1 < |w| ==> w[m].endCycle == w[m + 1].startCycle
  {
  }

  lemma AgainFits(w: seq<PendingStep>, i: nat, extra: int)
    requires w != [] && Contiguous(w) && i < |w| && 0 <= w[i].endCycle - w[i].startCycle + extra
    ensures w[|w| - 1].endCycle >= w[0].startCycle && Laps(w, i, extra, w[|w| - 1].endCycle - w[0].startCycle)
  {
    hide Contiguous;
    ContiguousPlaces(w, i, 0);
    ContiguousStep(w, i);
    forall m | 0 <= m < |w|
      ensures (m > i ==> w[i].endCycle <= w[m].startCycle) && w[m].startCycle <= w[m].endCycle
    {
      ContiguousPlaces(w, i, m);
    }
  }

  lemma AgainIsContiguous(w: seq<PendingStep>, i: nat, extra: int, lag: nat)
    requires w != [] && Contiguous(w) && Room(w) && i < |w| && Laps(w, i, extra, lag)
    requires 0 <= w[i].endCycle - w[i].startCycle + extra && extra <= 24
    requires lag == w[|w| - 1].endCycle - w[0].startCycle
    ensures Contiguous(w + Again(w, i, extra, lag))
  {
    var b, n := Again(w, i, extra, lag), |w|;
    forall m | 0 <= m < n
      ensures b[m].startCycle <= b[m].endCycle <= U64_MAX && (m + 1 < n ==> b[m].endCycle == b[m + 1].startCycle)
    {
      hide Contiguous;
      ContiguousPlaces(w, i, m);
      ContiguousStep(w, m);
    }
    Joined(w, b);
  }

  lemma Joined(a: seq<PendingStep>, b: seq<PendingStep>)
    requires Contiguous(a) && Contiguous(b) && a != [] && b != [] && a[|a| - 1].endCycle == b[0].startCycle
    ensures Contiguous(a + b)
  {
    var all, n := a + b, |a|;
    forall m | 0 <= m < |all|
      ensures all[m].startCycle <= all[m].endCycle <= U64_MAX
      ensures m + 1 < |all| ==> all[m].endCycle == all[m + 1].startCycle
    {
      if m >= n {
        assert all[m] == b[m - n];
      }
      if n <= m + 1 < |all| {
        assert all[m + 1] == b[m + 1 - n];
      }
    }
  }

  lemma AgainIsTimed(w: seq<PendingStep>, i: nat, extra: int, lag: nat)
    requires i < |w| && Timed(w) && CanCost(w[i].signature, w[i].endCycle - w[i].startCycle + extra)
    requires Laps(w, i, extra, lag)
    ensures Timed(w + Again(w, i, extra, lag)) && Signatures(Again(w, i, extra, lag)) == Signatures(w)
  {
    hide CanCost;
    var b := Again(w, i, extra, lag);
    assert Timed(b);
    SameEverywhere(w, b);
  }

  lemma SameEverywhere(a: seq<PendingStep>, b: seq<PendingStep>)
    requires |a| == |b| && forall m | 0 <= m < |a| :: a[m].signature == b[m].signature
    ensures Signatures(b) == Signatures(a)
  {
    hide Signatures;
    forall m | 0 <= m < |a| ensures Signatures(b)[m] == Signatures(a)[m] {
      SignaturesAt(a, m);
      SignaturesAt(b, m);
    }
  }

  /** With an ambiguous step in it a second occurrence that differs there makes the printed end wrong. */
  lemma AmbiguousMisprints(w: seq<PendingStep>, i: nat)
    requires w != [] && Contiguous(w) && Timed(w) && Room(w) && i < |w| && Ambiguous(w[i].signature)
    ensures !PrintsRight(w)
  {
    hide CanCost, Ambiguous, Contiguous, PrintsRight, Room, Laps;
    var cost := w[i].endCycle - w[i].startCycle;
    AmbiguousHasOther(w[i].signature, cost);
    var k :| 4 <= k <= 24 && k != cost && CanCost(w[i].signature, k);
    hide Timed, Again;
    ContiguousStep(w, i);
    AgainFits(w, i, k - cost);
    var lag := w[|w| - 1].endCycle - w[0].startCycle;
    AgainIsContiguous(w, i, k - cost, lag);
    AgainIsTimed(w, i, k - cost, lag);
    Misprints(w, Again(w, i, k - cost, lag));
  }

  /** Two occurrences of different length. */
  lemma Misprints(w: seq<PendingStep>, b: seq<PendingStep>)
    requires w != [] && Signatures(b) == Signatures(w) && Contiguous(w + b) && Timed(w + b) && |b| == |w|
    requires Room(w) && w[0].startCycle <= w[|w| - 1].endCycle
    requires b[|b| - 1].endCycle != w[|w| - 1].endCycle + (w[|w| - 1].endCycle - w[0].startCycle)
    ensures !PrintsRight(w)
  {
    hide Folds, Contiguous, Timed, RangeOf, Merge, Signatures;
    FoldsTwo(w, b);
    var l, steps := LoopState(w, 2, Merge(RangeOf(w), RangeOf(b))), w + b;
    assert Continues(w, l, steps);
    assert steps[|steps| - 1] == b[|b| - 1];
  }

  /** A window prints right, whatever its loop goes on to cost, exactly if none of its steps is ambiguous. */
  lemma WindowPrintsRightIff(w: seq<PendingStep>)
    requires w != [] && Contiguous(w) && Timed(w) && Room(w)
    ensures PrintsRight(w) <==> Unambiguous(w)
  {
    hide Contiguous, Timed, Ambiguous, PrintedEnd, RangeOf, Signatures, Repeated;
    if Unambiguous(w) {
      forall l: LoopState, steps: seq<PendingStep> | Continues(w, l, steps)
        ensures steps != [] && PrintedEnd(l) == steps[|steps| - 1].endCycle
      {
        PrintedSpanExact(l, steps);
      }
    } else {
      var i :| 0 <= i < |w| && Ambiguous(w[i].signature);
      AmbiguousMisprints(w, i);
    }
  }

  // ---------------------------------------------------------------- real traces

  /** Two CPU steps with the same unambiguous signature cost the same. */
  lemma SignatureDeterminesCost(c: CpuState, b: BusState, c': CpuState, b': BusState)
    requires CpuControl.ControlInv(CpuControl.ControlOf(c)) && CpuControl.ControlInv(CpuControl.ControlOf(c'))
    requires SignatureOf(c, b) == SignatureOf(c', b') && !Ambiguous(SignatureOf(c, b))
    ensures Step(Dispatch, c, b).cycles == Step(Dispatch, c', b').cycles
  {
    hide CanCost, Ambiguous, SignatureTo, Step;
    StepCanCost(c, b);
    StepCanCost(c', b');
    CostUnique(SignatureOf(c, b), Step(Dispatch, c, b).cycles, Step(Dispatch, c', b').cycles);
  }

  /** The observed step of the CPU from `c` on bus `b`. */
  function Observe(c: CpuState, b: BusState, cycle: nat, index: nat): (s: PendingStep)
    ensures s.startCycle == cycle && s.endCycle - cycle == Step(Dispatch, c, b).cycles
    ensures s.signature == SignatureOf(c, b)
  {
    hide Step, SignatureTo;
    var r := Step(Dispatch, c, b);
    CostRange(r.cycles);
    PendingStep(index, SignatureOf(c, b), b.ppu.ly, TickLong(r.bus, r.cycles).ppu.ly, cycle, cycle + r.cycles)
  }

  /** What the scheduler's loop reports of the next `n` CPU steps, up to a fast-forward. */
  function TraceOf(c: CpuState, b: BusState, cycle: nat, index: nat, n: nat): (steps: seq<PendingStep>)
    ensures |steps| <= n
    decreases n
  {
    hide Step, CanSkip, TickLong, Observe;
    if n == 0 || CanSkip(c, b) then []
    else
      var r := Step(Dispatch, c, b);
      var s := Observe(c, b, cycle, index);
      [s] + TraceOf(r.cpu, TickLong(r.bus, r.cycles), s.endCycle, index + 1, n - 1)
  }

  /** A real trace is contiguous and each of its steps costs what its signature can cost. */
  lemma {:induction false} TraceIsTimed(c: CpuState, b: BusState, cycle: nat, index: nat, n: nat)
    requires CpuControl.ControlInv(CpuControl.ControlOf(c)) && cycle + 24 * n <= U64_MAX
    ensures var steps := TraceOf(c, b, cycle, index, n);
      Contiguous(steps) && Timed(steps) && (steps != [] ==> steps[0].startCycle == cycle)
    decreases n
  {
    hide Step, CanSkip, TickLong, Observe, CanCost, SignatureTo, CpuControl.ControlInv, CpuControl.ControlOf;
    if n != 0 && !CanSkip(c, b) {
      var r := Step(Dispatch, c, b);
      var s := Observe(c, b, cycle, index);
      CostRange(r.cycles);
      StepCanCost(c, b);
      CpuControl.StepControlInv(c, b);
      TraceIsTimed(r.cpu, TickLong(r.bus, r.cycles), s.endCycle, index + 1, n - 1);
      var rest := TraceOf(r.cpu, TickLong(r.bus, r.cycles), s.endCycle, index + 1, n - 1);
      assert Timed([s] + rest);
    }
  }

  lemma SliceIsTimed(all: seq<PendingStep>, from: nat, to: nat)
    requires Contiguous(all) && Timed(all) && from <= to <= |all|
    ensures Contiguous(all[from..to]) && Timed(all[from..to])
  {
    hide CanCost;
  }

  /** A loop folded from a real trace prints the real end if its window has no ambiguous step. */
  lemma RealLoopPrintsRight(c: CpuState, b: BusState, cycle: nat, index: nat, n: nat, from: nat, to: nat, l: LoopState)
    requires CpuControl.ControlInv(CpuControl.ControlOf(c)) && cycle + 24 * n <= U64_MAX
    requires from < to <= |TraceOf(c, b, cycle, index, n)| && l.window != [] && Unambiguous(l.window)
    requires Folds(l, TraceOf(c, b, cycle, index, n)[from..to])
    ensures PrintedEnd(l) == TraceOf(c, b, cycle, index, n)[to - 1].endCycle
  {
    hide TraceOf, Folds, CanCost, Ambiguous, PrintedEnd, Contiguous, Timed, Unambiguous, CpuControl.ControlInv,
         CpuControl.ControlOf;
    TraceIsTimed(c, b, cycle, index, n);
    var all := TraceOf(c, b, cycle, index, n);
    SliceIsTimed(all, from, to);
    PrintedSpanExact(l, all[from..to]);
  }
}
