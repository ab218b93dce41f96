/** The CPU (core/src/cpu.rs): instruction execution over the bus, interrupt dispatch, and the control
    state of EI, HALT, the HALT bug, STOP and undefined opcodes. */
module CpuModel {
  import opened Base
  import Alu
  import Opcodes
  import opened BusModel
  import BusMemory

  type Cost = c: int | Opcodes.GoodCost(c) witness 4
  type FetchBytes = s: seq<byte> | |s| == 3 witness [0, 0, 0]
  type FetchCount = x: int | 0 <= x <= 3

  datatype Registers = Registers(a: byte, f: Alu.Flags, b: byte, c: byte, d: byte, e: byte, h: byte, l: byte)

  /** `locked` is the source's halted_by_unimplemented_opcode; the fetch fields only feed the debugger. */
  datatype CpuState = CpuState(r: Registers, pc: word, sp: word, halted: bool, locked: bool, ime: bool,
                               imePending: bool, haltBug: bool, lastUnimplemented: Option<byte>,
                               fetchBytes: FetchBytes, fetchCount: FetchCount)

  datatype Core = Core(cpu: CpuState, bus: BusState)

  datatype StepResult = StepResult(cpu: CpuState, bus: BusState, cycles: Cost)

  datatype Fetched = Fetched(cpu: CpuState, value: int)

  function Word(high: byte, low: byte): word { high * 0x100 + low }

  function Wrap(x: int): word { x % 0x1_0000 }

  function Pending(b: BusState): bv8 { b.iflag & b.ie & 0x1F }

  // ------------------------------------------------------- fetches and stack

  function Fetch8(c: CpuState, b: BusState): (r: Fetched)
    ensures 0 <= r.value < 0x100
  {
    hide BusMemory.Read8;
    var value := BusMemory.Read8(b, c.pc);
    var seen := if c.fetchCount < 3
                then c.(fetchBytes := c.fetchBytes[c.fetchCount := value], fetchCount := c.fetchCount + 1) else c;
    Fetched(seen.(haltBug := false, pc := if c.haltBug then c.pc else Wrap(c.pc + 1)), value)
  }

  function Fetch16(c: CpuState, b: BusState): (r: Fetched)
    ensures 0 <= r.value < 0x1_0000
  {
    hide BusMemory.Read8;
    var low := Fetch8(c, b);
    var high := Fetch8(low.cpu, b);
    Fetched(high.cpu, Word(high.value, low.value))
  }

  function Push16(m: Core, value: word): Core {
    hide BusMemory.Write8;
    var sp1 := Wrap(m.cpu.sp - 1);
    var sp2 := Wrap(sp1 - 1);
    Core(m.cpu.(sp := sp2),
         BusMemory.Write8(BusMemory.Write8(m.bus, sp1, value / 0x100), sp2, value % 0x100))
  }

  function Pop16(m: Core): (r: Fetched)
    ensures 0 <= r.value < 0x1_0000
  {
    hide BusMemory.Read8;
    Fetched(m.cpu.(sp := Wrap(m.cpu.sp + 2)),
            Word(BusMemory.Read8(m.bus, Wrap(m.cpu.sp + 1)), BusMemory.Read8(m.bus, m.cpu.sp)))
  }

  // ---------------------------------------------------------------- registers

  function Hl(r: Registers): word { Word(r.h, r.l) }

  function SetHl(r: Registers, value: word): Registers { r.(h := value / 0x100, l := value % 0x100) }

  function ReadR8(c: CpuState, b: BusState, i: int): byte {
    hide BusMemory.Read8;
    match i
    case 0 => c.r.b
    case 1 => c.r.c
    case 2 => c.r.d
    case 3 => c.r.e
    case 4 => c.r.h
    case 5 => c.r.l
    case 6 => BusMemory.Read8(b, Hl(c.r))
    case _ => c.r.a
  }

  function WriteR8(m: Core, i: int, value: byte): Core {
    hide BusMemory.Write8;
    var r := m.cpu.r;
    if i == 6 then Core(m.cpu, BusMemory.Write8(m.bus, Hl(r), value))
    else Core(m.cpu.(r := match i
                          case 0 => r.(b := value)
                          case 1 => r.(c := value)
                          case 2 => r.(d := value)
                          case 3 => r.(e := value)
                          case 4 => r.(h := value)
                          case 5 => r.(l := value)
                          case _ => r.(a := value)), m.bus)
  }

  function ReadPair(c: CpuState, i: int): word {
    match i
    case 0 => Word(c.r.b, c.r.c)
    case 1 => Word(c.r.d, c.r.e)
    case 2 => Hl(c.r)
    case _ => c.sp
  }

  function WritePair(c: CpuState, i: int, value: word): CpuState {
    match i
    case 0 => c.(r := c.r.(b := value / 0x100, c := value % 0x100))
    case 1 => c.(r := c.r.(d := value / 0x100, e := value % 0x100))
    case 2 => c.(r := SetHl(c.r, value))
    case _ => c.(sp := value)
  }

  function FlagByte(f: Alu.Flags): byte {
    (if f.z then 0x80 else 0) + (if f.n then 0x40 else 0) + (if f.h then 0x20 else 0) + (if f.c then 0x10 else 0)
  }

  function ReadStackPair(c: CpuState, i: int): word {
    if i == 3 then Word(c.r.a, FlagByte(c.r.f)) else ReadPair(c, i)
  }

  function WriteStackPair(c: CpuState, i: int, value: word): CpuState {
    if i == 3 then
      c.(r := c.r.(a := value / 0x100,
                   f := Alu.Flags(Bit(value, 0x80), Bit(value, 0x40), Bit(value, 0x20), Bit(value, 0x10))))
    else WritePair(c, i, value)
  }

  predicate ConditionMet(f: Alu.Flags, condition: int) {
    match condition
    case 0 => !f.z
    case 1 => f.z
    case 2 => !f.c
    case _ => f.c
  }

  function Signed(value: int): int { if value < 0x80 then value else value - 0x100 }

  // ---------------------------------------------------- register instructions

  function Accumulator(r: Registers): Alu.Acc { Alu.Acc(r.a, r.f) }

  function WithAcc(c: CpuState, s: Alu.Acc): CpuState { c.(r := c.r.(a := s.a, f := s.f)) }

  /** Rotates and adjustments of the accumulator and its flags. */
  function ExecuteAccumulator(i: Opcodes.Instruction, s: Alu.Acc): Alu.Acc {
    match i
    case Rlca => Alu.Acc((s.a * 2) % 256 + s.a / 128, Alu.Flags(false, false, false, s.a >= 128))
    case Rrca => Alu.Acc(s.a / 2 + 128 * (s.a % 2), Alu.Flags(false, false, false, s.a % 2 == 1))
    case Rla => Alu.Acc((s.a * 2) % 256 + Alu.Unit(s.f.c), Alu.Flags(false, false, false, s.a >= 128))
    case Rra => Alu.Acc(s.a / 2 + 128 * Alu.Unit(s.f.c), Alu.Flags(false, false, false, s.a % 2 == 1))
    case Daa => Alu.Daa(s)
    case Cpl => Alu.Acc(255 - s.a, s.f.(n := true, h := true))
    case Scf => Alu.Acc(s.a, s.f.(n := false, h := false, c := true))
    case Ccf => Alu.Acc(s.a, s.f.(n := false, h := false, c := !s.f.c))
    case _ => s
  }

  /** The flag effect of ADD SP,e8 and LD HL,SP+e8, on the low byte only. */
  function SpPlus(c: CpuState, offset: int): Fetched
    requires 0 <= offset < 0x100
  {
    Fetched(c.(r := c.r.(f := Alu.Flags(false, false, c.sp % 16 + offset % 16 > 15, c.sp % 256 + offset > 255))),
            Wrap(c.sp + Signed(offset)))
  }

  function AddToHl(c: CpuState, value: word): CpuState {
    var hl := Hl(c.r);
    c.(r := SetHl(c.r, Wrap(hl + value)).(f := c.r.f.(n := false, h := hl % 0x1000 + value % 0x1000 > 0xFFF,
                                                      c := hl + value > 0xFFFF)))
  }

  // ------------------------------------------------------- data instructions

  function ExecuteLoad(meta: Opcodes.Metadata, m: Core): Core
    requires Opcodes.Executable(meta)
  {
    hide BusMemory.Write8, BusMemory.Read8;
    var c, b := m.cpu, m.bus;
    match meta.instruction
    case Ld8 => WriteR8(m, meta.operand8.value.index, ReadR8(c, b, meta.operand16.value.source))
    case Ld8Imm =>
      var v := Fetch8(c, b);
      WriteR8(Core(v.cpu, b), meta.operand8.value.index, v.value)
    case LdMemFromA => Core(c, BusMemory.Write8(b, ReadPair(c, meta.operand16.value.pair), c.r.a))
    case LdAFromMem => Core(c.(r := c.r.(a := BusMemory.Read8(b, ReadPair(c, meta.operand16.value.pair)))), b)
    case LdHliFromA => Core(c.(r := SetHl(c.r, Wrap(Hl(c.r) + 1))), BusMemory.Write8(b, Hl(c.r), c.r.a))
    case LdHldFromA => Core(c.(r := SetHl(c.r, Wrap(Hl(c.r) - 1))), BusMemory.Write8(b, Hl(c.r), c.r.a))
    case LdAFromHli => Core(c.(r := SetHl(c.r, Wrap(Hl(c.r) + 1)).(a := BusMemory.Read8(b, Hl(c.r)))), b)
    case LdAFromHld => Core(c.(r := SetHl(c.r, Wrap(Hl(c.r) - 1)).(a := BusMemory.Read8(b, Hl(c.r)))), b)
    case LdhCFromA => Core(c, BusMemory.Write8(b, 0xFF00 + c.r.c, c.r.a))
    case LdhAFromC => Core(c.(r := c.r.(a := BusMemory.Read8(b, 0xFF00 + c.r.c))), b)
    case _ => m
  }

  function ExecuteDirectLoad(i: Opcodes.Instruction, m: Core): Core {
    hide BusMemory.Write8, BusMemory.Read8;
    var b := m.bus;
    match i
    case LdhImmFromA =>
      var v := Fetch8(m.cpu, b);
      Core(v.cpu, BusMemory.Write8(b, 0xFF00 + v.value, v.cpu.r.a))
    case LdhAFromImm =>
      var v := Fetch8(m.cpu, b);
      Core(v.cpu.(r := v.cpu.r.(a := BusMemory.Read8(b, 0xFF00 + v.value))), b)
    case LdImm16FromA =>
      var v := Fetch16(m.cpu, b);
      Core(v.cpu, BusMemory.Write8(b, v.value, v.cpu.r.a))
    case LdAFromImm16 =>
      var v := Fetch16(m.cpu, b);
      Core(v.cpu.(r := v.cpu.r.(a := BusMemory.Read8(b, v.value))), b)
    case LdSpToImm16Addr =>
      var v := Fetch16(m.cpu, b);
      Core(v.cpu, BusMemory.Write8(BusMemory.Write8(b, v.value, v.cpu.sp % 0x100), Wrap(v.value + 1), v.cpu.sp / 0x100))
    case _ => m
  }

  function ExecuteWide(meta: Opcodes.Metadata, m: Core): Core
    requires Opcodes.Executable(meta)
  {
    hide BusMemory.Write8, BusMemory.Read8;
    var c, b := m.cpu, m.bus;
    match meta.instruction
    case Ld16Imm =>
      var v := Fetch16(c, b);
      Core(WritePair(v.cpu, meta.operand16.value.pair, v.value), b)
    case Inc16 => Core(WritePair(c, meta.operand16.value.pair, Wrap(ReadPair(c, meta.operand16.value.pair) + 1)), b)
    case Dec16 => Core(WritePair(c, meta.operand16.value.pair, Wrap(ReadPair(c, meta.operand16.value.pair) - 1)), b)
    case AddHl => Core(AddToHl(c, ReadPair(c, meta.operand16.value.pair)), b)
    case LdSpHl => Core(c.(sp := Hl(c.r)), b)
    case AddSpE8 =>
      var v := Fetch8(c, b);
      var s := SpPlus(v.cpu, v.value);
      Core(s.cpu.(sp := Wrap(s.value)), b)
    case LdHlSpPlusE8 =>
      var v := Fetch8(c, b);
      var s := SpPlus(v.cpu, v.value);
      Core(s.cpu.(r := SetHl(s.cpu.r, Wrap(s.value))), b)
    case Push => Push16(m, ReadStackPair(c, meta.operand16.value.stackPair))
    case Pop =>
      var v := Pop16(m);
      Core(WriteStackPair(v.cpu, meta.operand16.value.stackPair, v.value), b)
    case _ => m
  }

  function ExecuteByte(meta: Opcodes.Metadata, m: Core): Core
    requires Opcodes.Executable(meta)
  {
    hide BusMemory.Write8, BusMemory.Read8, Alu.Alu8;
    var c, b := m.cpu, m.bus;
    match meta.instruction
    case Inc8 =>
      var i := meta.operand8.value.index;
      var value := ReadR8(c, b, i);
      var result := (value + 1) % 256;
      var n := WriteR8(m, i, result);
      Core(n.cpu.(r := n.cpu.r.(f := c.r.f.(z := result == 0, n := false, h := value % 16 == 15))), n.bus)
    case Dec8 =>
      var i := meta.operand8.value.index;
      var value := ReadR8(c, b, i);
      var result := (value - 1) % 256;
      var n := WriteR8(m, i, result);
      Core(n.cpu.(r := n.cpu.r.(f := c.r.f.(z := result == 0, n := true, h := value % 16 == 0))), n.bus)
    case Alu8 =>
      Core(WithAcc(c, Alu.Alu8((meta.opcode / 8) % 8, Accumulator(c.r), ReadR8(c, b, meta.operand8.value.index))), b)
    case AluImm8 =>
      var v := Fetch8(c, b);
      Core(WithAcc(v.cpu, Alu.Alu8((meta.opcode / 8) % 8, Accumulator(v.cpu.r), v.value)), b)
    case _ => Core(WithAcc(c, ExecuteAccumulator(meta.instruction, Accumulator(c.r))), b)
  }

  function ExecuteJump(meta: Opcodes.Metadata, m: Core, taken: bool): Core
    requires Opcodes.Executable(meta)
  {
    hide BusMemory.Write8, BusMemory.Read8;
    var c, b := m.cpu, m.bus;
    match meta.instruction
    case Jr =>
      var v := Fetch8(c, b);
      Core(v.cpu.(pc := Wrap(v.cpu.pc + Signed(v.value))), b)
    case JrCond =>
      var v := Fetch8(c, b);
      Core(if taken then v.cpu.(pc := Wrap(v.cpu.pc + Signed(v.value))) else v.cpu, b)
    case Jp =>
      var v := Fetch16(c, b);
      Core(v.cpu.(pc := v.value), b)
    case JpCond =>
      var v := Fetch16(c, b);
      Core(if taken then v.cpu.(pc := v.value) else v.cpu, b)
    case JpHl => Core(c.(pc := Hl(c.r)), b)
    case Call =>
      var v := Fetch16(c, b);
      var n := Push16(Core(v.cpu, b), v.cpu.pc);
      Core(n.cpu.(pc := v.value), n.bus)
    case CallCond =>
      var v := Fetch16(c, b);
      var n := if taken then Push16(Core(v.cpu, b), v.cpu.pc) else Core(v.cpu, b);
      Core(if taken then n.cpu.(pc := v.value) else n.cpu, n.bus)
    case Ret =>
      var v := Pop16(m);
      Core(v.cpu.(pc := v.value), b)
    case RetCond =>
      var v := Pop16(m);
      if taken then Core(v.cpu.(pc := v.value), b) else m
    case Rst =>
      var n := Push16(m, c.pc);
      Core(n.cpu.(pc := meta.operand8.value.vector), n.bus)
    case _ => m
  }

  function Rotate(operation: int, v: byte, carry: bool): Alu.Acc {
    var r: byte := match operation
      case 0 => (v * 2) % 256 + v / 128
      case 1 => v / 2 + 128 * (v % 2)
      case 2 => (v * 2) % 256 + Alu.Unit(carry)
      case 3 => v / 2 + 128 * Alu.Unit(carry)
      case 4 => (v * 2) % 256
      case 5 => v / 2 + 128 * (v / 128)
      case 6 => (v % 16) * 16 + v / 16
      case _ => v / 2;
    var out := match operation case 0 | 2 | 4 => v >= 128 case 6 => false case _ => v % 2 == 1;
    Alu.Acc(r, Alu.Flags(r == 0, false, false, out))
  }

  function ClearBit(v: byte, bit: int): byte
    requires 0 <= bit < 8
  {
    ((v as bv8) & !(BitWeight(bit) as bv8)) as int
  }

  function SetBit(v: byte, bit: int): byte
    requires 0 <= bit < 8
  {
    ((v as bv8) | (BitWeight(bit) as bv8)) as int
  }

  function ExecuteCb(meta: Opcodes.Metadata, m: Core): Core
    requires Opcodes.Executable(meta)
  {
    hide BusMemory.Write8, BusMemory.Read8, Rotate, ClearBit, SetBit, BitWeight;
    var c := m.cpu;
    match meta.instruction
    case CbRotate =>
      var i := meta.operand8.value.index;
      var rotated := Rotate(meta.operand16.value.bit, ReadR8(c, m.bus, i), c.r.f.c);
      var n := WriteR8(m, i, rotated.a);
      Core(n.cpu.(r := n.cpu.r.(f := rotated.f)), n.bus)
    case CbBit =>
      var value := ReadR8(c, m.bus, meta.operand8.value.index);
      var mask := BitWeight(meta.operand16.value.bit);
      Core(c.(r := c.r.(f := c.r.f.(z := !Bit(value, mask), n := false, h := true))), m.bus)
    case CbRes =>
      var i := meta.operand8.value.index;
      WriteR8(m, i, ClearBit(ReadR8(c, m.bus, i), meta.operand16.value.bit))
    case CbSet =>
      var i := meta.operand8.value.index;
      WriteR8(m, i, SetBit(ReadR8(c, m.bus, i), meta.operand16.value.bit))
    case _ => m
  }

  // ------------------------------------------------------ control instructions

  function ExecuteHalt(c: CpuState, pending: bv8, enableAfter: bool): CpuState {
    if c.ime || pending == 0 then c.(halted := true)
    else if enableAfter then c.(pc := Wrap(c.pc - 1))
    else c.(haltBug := true)
  }

  function ExecuteControl(i: Opcodes.Instruction, m: Core, pending: bv8, enableAfter: bool): Core {
    var c, b := m.cpu, m.bus;
    match i
    case Halt => Core(ExecuteHalt(c, pending, enableAfter), b)
    case Stop =>
      var v := Fetch8(c, b);
      var (b', switched) := BusMemory.ConsumeSpeedSwitch(b);
      Core(v.cpu.(halted := !switched, locked := false), b')
    case Di => Core(c.(ime := false, imePending := false), b)
    case Ei => Core(c.(imePending := true), b)
    case Reti =>
      var v := Pop16(m);
      Core(v.cpu.(pc := v.value, ime := true, imePending := false), b)
    case _ => m
  }

  predicate IsControl(i: Opcodes.Instruction) { i.Halt? || i.Stop? || i.Di? || i.Ei? || i.Reti? }

  predicate IsLoad(i: Opcodes.Instruction) {
    i.Ld8? || i.Ld8Imm? || i.LdMemFromA? || i.LdAFromMem? || i.LdHliFromA? || i.LdHldFromA? || i.LdAFromHli? ||
    i.LdAFromHld? || i.LdhCFromA? || i.LdhAFromC?
  }

  predicate IsDirectLoad(i: Opcodes.Instruction) {
    i.LdhImmFromA? || i.LdhAFromImm? || i.LdImm16FromA? || i.LdAFromImm16? || i.LdSpToImm16Addr?
  }

  predicate IsWide(i: Opcodes.Instruction) {
    i.Ld16Imm? || i.Inc16? || i.Dec16? || i.AddHl? || i.LdSpHl? || i.AddSpE8? || i.LdHlSpPlusE8? || i.Push? || i.Pop?
  }

  predicate IsJump(i: Opcodes.Instruction) {
    i.Jr? || i.JrCond? || i.Jp? || i.JpCond? || i.JpHl? || i.Call? || i.CallCond? || i.Ret? || i.RetCond? || i.Rst?
  }

  predicate IsCb(i: Opcodes.Instruction) { i.CbRotate? || i.CbBit? || i.CbRes? || i.CbSet? }

  /** An instruction that leaves the interrupt and halt control alone. */
  function ExecuteData(meta: Opcodes.Metadata, m: Core, taken: bool): Core
    requires Opcodes.Executable(meta)
  {
    hide *;
    var i := meta.instruction;
    if i.Nop? then m
    else if IsLoad(i) then ExecuteLoad(meta, m)
    else if IsDirectLoad(i) then ExecuteDirectLoad(i, m)
    else if IsWide(i) then ExecuteWide(meta, m)
    else if IsJump(i) then ExecuteJump(meta, m, taken)
    else if IsCb(i) then ExecuteCb(meta, m)
    else ExecuteByte(meta, m)
  }

  function Execute(meta: Opcodes.Metadata, m: Core, pending: bv8, enableAfter: bool, taken: bool): Core
    requires Opcodes.Executable(meta)
  {
    hide ExecuteControl, ExecuteData;
    if IsControl(meta.instruction) then ExecuteControl(meta.instruction, m, pending, enableAfter)
    else ExecuteData(meta, m, taken)
  }

  /** The delayed EI takes effect after the instruction, unless that was DI. */
  function AfterEi(c: CpuState, enableAfter: bool, op: int): CpuState {
    if enableAfter && op != 0xF3 then c.(ime := true) else c
  }

  function LockUp(c: CpuState, op: byte): CpuState {
    c.(halted := true, locked := true, lastUnimplemented := Some(op))
  }

  predicate Takes(meta: Opcodes.Metadata, f: Alu.Flags) {
    meta.condition.Some? && ConditionMet(f, meta.condition.value)
  }

  /** The prefix byte was fetched: fetch and execute the extended opcode. */
  function ExecutePrefixed(c: CpuState, b: BusState): StepResult {
    hide ExecuteCb, Fetch8;
    var cb := Fetch8(c, b);
    var meta := Opcodes.CbMetadataFor(cb.value);
    Opcodes.CbTableIsComplete(cb.value, false);
    hide Opcodes.CbMetadataFor, Opcodes.CyclesOf, Opcodes.GoodCost, Opcodes.Executable;
    var n := ExecuteCb(meta, Core(cb.cpu, b));
    StepResult(n.cpu, n.bus, Opcodes.CyclesOf(meta, false))
  }

  /** A fetched opcode other than the prefix. */
  function ExecuteOpcode(c: CpuState, b: BusState, op: byte, pending: bv8, enableAfter: bool): StepResult
    requires op != 0xCB
  {
    hide Execute, Opcodes.MetadataFor, Opcodes.CyclesOf, Opcodes.Executable, Takes;
    match Opcodes.MetadataFor(op)
    case None => StepResult(LockUp(c, op), b, 4)
    case Some(meta) =>
      var taken := Takes(meta, c.r.f);
      Opcodes.TableIsComplete(op, taken);
      var n := Execute(meta, Core(c, b), pending, enableAfter, taken);
      StepResult(n.cpu, n.bus, Opcodes.CyclesOf(meta, taken))
  }

  /** Fetch and execute one instruction of a CPU that is neither halted nor taking an interrupt. */
  function ExecuteInstruction(c: CpuState, b: BusState): StepResult {
    hide ExecutePrefixed, ExecuteOpcode, Fetch8;
    var fetched := Fetch8(c.(imePending := false), b);
    var done := if fetched.value == 0xCB then ExecutePrefixed(fetched.cpu, b)
                else ExecuteOpcode(fetched.cpu, b, fetched.value, Pending(b), c.imePending);
    done.(cpu := AfterEi(done.cpu, c.imePending, fetched.value))
  }

  /** The lowest pending request. */
  function LowestPending(pending: bv8): (i: int)
    requires pending != 0 && pending & 0x1F == pending
    ensures 0 <= i < 5
  {
    if pending & 1 != 0 then 0 else if pending & 2 != 0 then 1 else if pending & 4 != 0 then 2
    else if pending & 8 != 0 then 3 else 4
  }

  function MaskOf(i: int): bv8 {
    match i case 0 => 1 case 1 => 2 case 2 => 4 case 3 => 8 case _ => 16
  }

  function ServiceInterrupt(c: CpuState, b: BusState): StepResult
    requires Pending(b) != 0
  {
    hide Push16;
    var i := LowestPending(Pending(b));
    var acknowledged := b.(iflag := b.iflag & !MaskOf(i));
    var n := Push16(Core(c.(ime := false, imePending := false), acknowledged), c.pc);
    StepResult(n.cpu.(pc := 0x40 + 8 * i), n.bus, 20)
  }

  /** What a CPU that is not left halted does: take an interrupt or execute an instruction. */
  function Dispatch(c: CpuState, b: BusState): StepResult {
    hide ServiceInterrupt, ExecuteInstruction;
    if Pending(b) != 0 && !c.locked && c.ime then ServiceInterrupt(c, b) else ExecuteInstruction(c, b)
  }

  type Exec = (CpuState, BusState) -> StepResult

  /** `Cpu::step`, with the dispatch of a running CPU as a parameter: the wake-up test, the idle step of
      a halted CPU, and otherwise `exec`. */
  function Step(exec: Exec, c: CpuState, b: BusState): StepResult {
    var started := c.(fetchCount := 0);
    if Pending(b) != 0 && !c.locked then exec(started.(halted := false), b)
    else if c.halted then StepResult(started, b, 4)
    else exec(started, b)
  }

  // ----------------------------------------------------------------- the class

  class Cpu {
    var registers: Registers
    var pc: word
    var sp: word
    var halted: bool
    var haltedByUnimplementedOpcode: bool
    var ime: bool
    var imeEnablePending: bool
    var haltBugActive: bool
    var lastUnimplementedOpcode: Option<byte>
    var lastStepFetchBytes: FetchBytes
    var lastStepFetchCount: FetchCount

    function State(): CpuState
      reads this
    {
      CpuState(registers, pc, sp, halted, haltedByUnimplementedOpcode, ime, imeEnablePending, haltBugActive,
               lastUnimplementedOpcode, lastStepFetchBytes, lastStepFetchCount)
    }

    /** Instructions are executed on values; this stores their result. */
    method Load(c: CpuState)
      modifies this
      ensures State() == c
    {
      registers, pc, sp, halted, haltedByUnimplementedOpcode := c.r, c.pc, c.sp, c.halted, c.locked;
      ime, imeEnablePending, haltBugActive := c.ime, c.imePending, c.haltBug;
      lastUnimplementedOpcode := c.lastUnimplemented;
      lastStepFetchBytes, lastStepFetchCount := c.fetchBytes, c.fetchCount;
    }

    method FetchByte(bus: BusState) returns (value: byte)
      modifies this
      ensures State() == Fetch8(old(State()), bus).cpu && value == Fetch8(old(State()), bus).value
    {
      hide BusMemory.Read8;
      value := BusMemory.Read8(bus, pc);
      if lastStepFetchCount < 3 {
        lastStepFetchBytes := lastStepFetchBytes[lastStepFetchCount := value];
        lastStepFetchCount := lastStepFetchCount + 1;
      }
      if haltBugActive {
        haltBugActive := false;
      } else {
        pc := (pc + 1) % 0x1_0000;
      }
    }

    method TakeInterrupt(bus: BusState) returns (bus': BusState)
      requires Pending(bus) != 0
      modifies this
      ensures var r := ServiceInterrupt(old(State()), bus); State() == r.cpu && bus' == r.bus && r.cycles == 20
    {
      hide Push16, BusMemory.Write8;
      var i := LowestPending(Pending(bus));
      bus' := bus.(iflag := bus.iflag & !MaskOf(i));
      ime, imeEnablePending := false, false;
      var pushed := Push16(Core(State(), bus'), pc);
      Load(pushed.cpu);
      bus' := pushed.bus;
      pc := 0x40 + 8 * i;
    }

    method StepOnce(bus: BusState) returns (bus': BusState, cycles: Cost)
      modifies this
      ensures StepResult(State(), bus', cycles) == Step(Dispatch, old(State()), bus)
    {
      hide Execute, ExecuteOpcode, ExecutePrefixed, ServiceInterrupt, Fetch8;
      ghost var was := State();
      lastStepFetchCount := 0;
      var pending := Pending(bus);
      if pending != 0 && !haltedByUnimplementedOpcode {
        halted := false;
        if ime {
          bus' := TakeInterrupt(bus);
          return bus', 20;
        }
      }
      if halted {
        return bus, 4;
      }
      var enableImeAfterInstruction := imeEnablePending;
      imeEnablePending := false;
      var opcode := FetchByte(bus);
      var done := if opcode == 0xCB then ExecutePrefixed(State(), bus)
                  else ExecuteOpcode(State(), bus, opcode, pending, enableImeAfterInstruction);
      Load(done.cpu);
      if enableImeAfterInstruction && opcode != 0xF3 {
        ime := true;
      }
      return done.bus, done.cycles;
    }
  }
}
