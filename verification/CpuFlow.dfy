/** Where an instruction leaves the program counter, and how many operand bytes it fetches
    (core/src/cpu.rs): both follow from its opcode, its operands and whether it branches. */
module CpuFlow {
  import opened Base
  import Alu
  import Opcodes
  import opened BusModel
  import BusMemory
  import opened CpuModel
  import CpuControl

  datatype Flow = Flow(pc: word, count: FetchCount, bytes: FetchBytes)

  function FlowOf(c: CpuState): Flow { Flow(c.pc, c.fetchCount, c.fetchBytes) }

  /** Operand bytes that an instruction fetches after its opcode. */
  function OperandBytes(i: Opcodes.Instruction): (n: nat)
    ensures n <= 2
  {
    match i
    case Ld8Imm | LdhImmFromA | LdhAFromImm | AddSpE8 | LdHlSpPlusE8 | AluImm8 | Jr | JrCond | Stop | PrefixCb => 1
    case Ld16Imm | LdSpToImm16Addr | LdImm16FromA | LdAFromImm16 | Jp | JpCond | Call | CallCond => 2
    case _ => 0
  }

  /** The CPU after fetching `n` operand bytes. */
  function Fetches(c: CpuState, b: BusState, n: nat): CpuState {
    hide Fetch8, Fetch16;
    if n == 0 then c else if n == 1 then Fetch8(c, b).cpu else Fetch16(c, b).cpu
  }

  /** Where an instruction may leave the program counter: `next` follows its last byte. */
  predicate LandsAt(meta: Opcodes.Metadata, next: word, o1: byte, o2: byte, taken: bool, pc: word) {
    match meta.instruction
    case Jr => pc == Wrap(next + Signed(o1))
    case JrCond => pc == if taken then Wrap(next + Signed(o1)) else next
    case Jp | Call => pc == Word(o2, o1)
    case JpCond | CallCond => pc == if taken then Word(o2, o1) else next
    case JpHl | Ret | Reti => true
    case RetCond => taken || pc == next
    case Rst => meta.operand8 == Some(Opcodes.Vector(pc))
    case Halt => pc == next || pc == Wrap(next - 1)
    case _ => pc == next
  }

  lemma FetchFlow(c: CpuState, b: BusState)
    requires !c.haltBug && c.fetchCount == 1
    ensures var f := Fetch8(c, b);
      f.cpu.pc == Wrap(c.pc + 1) && f.cpu.fetchCount == 2 && f.cpu.fetchBytes[1] == f.value && f.cpu.sp == c.sp
    ensures var f := Fetch16(c, b);
      f.cpu.pc == Wrap(c.pc + 2) && f.cpu.fetchCount == 3 &&
      f.value == Word(f.cpu.fetchBytes[2], f.cpu.fetchBytes[1]) && f.cpu.sp == c.sp
  {
    hide BusMemory.Read8;
  }

  lemma StoreFlow(m: Core, i: int, value: byte)
    ensures FlowOf(WriteR8(m, i, value).cpu) == FlowOf(m.cpu)
  {
    hide BusMemory.Write8;
  }

  lemma PairFlow(c: CpuState, i: int, value: word)
    ensures FlowOf(WritePair(c, i, value)) == FlowOf(c) && FlowOf(WriteStackPair(c, i, value)) == FlowOf(c)
  {
  }

  lemma StackFlow(m: Core, value: word)
    ensures FlowOf(Push16(m, value).cpu) == FlowOf(m.cpu) && FlowOf(Pop16(m).cpu) == FlowOf(m.cpu)
  {
    hide BusMemory.Write8, BusMemory.Read8;
  }

  lemma LoadFlow(meta: Opcodes.Metadata, m: Core)
    requires Opcodes.Executable(meta) && IsLoad(meta.instruction)
    ensures FlowOf(ExecuteLoad(meta, m).cpu) == FlowOf(Fetches(m.cpu, m.bus, OperandBytes(meta.instruction)))
  {
    hide BusMemory.Write8, BusMemory.Read8, Fetch8, ReadR8, ReadPair, WriteR8, SetHl, Hl;
    if meta.instruction.Ld8? {
      StoreFlow(m, meta.operand8.value.index, ReadR8(m.cpu, m.bus, meta.operand16.value.source));
    } else if meta.instruction.Ld8Imm? {
      var v := Fetch8(m.cpu, m.bus);
      StoreFlow(Core(v.cpu, m.bus), meta.operand8.value.index, v.value);
    }
    hide Opcodes.Executable;
  }

  lemma DirectLoadFlow(i: Opcodes.Instruction, m: Core)
    requires IsDirectLoad(i)
    ensures FlowOf(ExecuteDirectLoad(i, m).cpu) == FlowOf(Fetches(m.cpu, m.bus, OperandBytes(i)))
  {
    hide BusMemory.Write8, BusMemory.Read8, Fetch8, Fetch16;
  }

  lemma SpPlusFlow(c: CpuState, offset: int)
    requires 0 <= offset < 0x100
    ensures FlowOf(SpPlus(c, offset).cpu) == FlowOf(c)
  {
  }

  lemma AddHlFlow(c: CpuState, value: word)
    ensures FlowOf(AddToHl(c, value)) == FlowOf(c)
  {
    hide Hl, SetHl;
  }

  lemma WideFlow(meta: Opcodes.Metadata, m: Core)
    requires Opcodes.Executable(meta) && IsWide(meta.instruction)
    ensures FlowOf(ExecuteWide(meta, m).cpu) == FlowOf(Fetches(m.cpu, m.bus, OperandBytes(meta.instruction)))
  {
    var c, b, i := m.cpu, m.bus, meta.instruction;
    hide BusMemory.Write8, BusMemory.Read8, Fetch8, Fetch16, ReadPair, ReadStackPair, WritePair, WriteStackPair, Push16,
         Pop16, Word, SetHl, AddToHl, SpPlus;
    if i.Ld16Imm? {
      var v := Fetch16(c, b);
      PairFlow(v.cpu, meta.operand16.value.pair, v.value);
    } else if i.Inc16? {
      PairFlow(c, meta.operand16.value.pair, Wrap(ReadPair(c, meta.operand16.value.pair) + 1));
    } else if i.Dec16? {
      PairFlow(c, meta.operand16.value.pair, Wrap(ReadPair(c, meta.operand16.value.pair) - 1));
    } else if i.AddHl? {
      AddHlFlow(c, ReadPair(c, meta.operand16.value.pair));
    } else if i.AddSpE8? || i.LdHlSpPlusE8? {
      var v := Fetch8(c, b);
      SpPlusFlow(v.cpu, v.value);
    } else if i.Push? {
      StackFlow(m, ReadStackPair(c, meta.operand16.value.stackPair));
    } else if i.Pop? {
      StackFlow(m, 0);
      var v := Pop16(m);
      PairFlow(v.cpu, meta.operand16.value.stackPair, v.value);
    }
  }

  predicate IsByte(i: Opcodes.Instruction) {
    hide *;
    !i.Nop? && !IsControl(i) && !IsLoad(i) && !IsDirectLoad(i) && !IsWide(i) && !IsJump(i) && !IsCb(i) && !i.PrefixCb?
  }

  lemma ByteFlow(meta: Opcodes.Metadata, m: Core)
    requires Opcodes.Executable(meta) && IsByte(meta.instruction)
    ensures FlowOf(ExecuteByte(meta, m).cpu) == FlowOf(Fetches(m.cpu, m.bus, OperandBytes(meta.instruction)))
  {
    hide BusMemory.Write8, BusMemory.Read8, Fetch8, ReadR8, WriteR8, Alu.Alu8, ExecuteAccumulator;
    if meta.instruction.Inc8? || meta.instruction.Dec8? {
      var i := meta.operand8.value.index;
      var value: int := ReadR8(m.cpu, m.bus, i);
      StoreFlow(m, i, (value + 1) % 256);
      StoreFlow(m, i, (value - 1) % 256);
    }
    hide Opcodes.Executable;
  }

  lemma CbFlow(meta: Opcodes.Metadata, m: Core)
    requires Opcodes.Executable(meta)
    ensures FlowOf(ExecuteCb(meta, m).cpu) == FlowOf(m.cpu)
  {
    hide BusMemory.Write8, BusMemory.Read8, Rotate, ClearBit, SetBit, BitWeight, ReadR8, WriteR8;
    var c, b := m.cpu, m.bus;
    if IsCb(meta.instruction) {
      var i, bit := meta.operand8.value.index, meta.operand16.value.bit;
      StoreFlow(m, i, Rotate(bit, ReadR8(c, b, i), c.r.f.c).a);
      StoreFlow(m, i, ClearBit(ReadR8(c, b, i), bit));
      StoreFlow(m, i, SetBit(ReadR8(c, b, i), bit));
    }
    hide Opcodes.Executable;
  }

  /** What every instruction does to the program counter and the fetch record, the operands being
      those that it fetches. */
  predicate Flows(meta: Opcodes.Metadata, m: Core, taken: bool, d: CpuState) {
    var n := OperandBytes(meta.instruction);
    var f := Fetches(m.cpu, m.bus, n);
    d.fetchCount == 1 + n && d.fetchBytes == f.fetchBytes &&
    LandsAt(meta, Wrap(m.cpu.pc + n), f.fetchBytes[1], f.fetchBytes[2], taken, d.pc)
  }

  lemma ShortJumpFlow(meta: Opcodes.Metadata, m: Core, taken: bool)
    requires Opcodes.Executable(meta) && (meta.instruction.Jr? || meta.instruction.JrCond? || meta.instruction.JpHl?)
    requires !m.cpu.haltBug && m.cpu.fetchCount == 1
    ensures Flows(meta, m, taken, ExecuteJump(meta, m, taken).cpu)
  {
    FetchFlow(m.cpu, m.bus);
    hide BusMemory.Write8, BusMemory.Read8, Fetch8, Fetch16, Push16, Pop16, Word, Signed, Hl, Opcodes.Executable;
  }

  lemma LongJumpFlow(meta: Opcodes.Metadata, m: Core, taken: bool)
    requires Opcodes.Executable(meta) && (meta.instruction.Jp? || meta.instruction.JpCond?)
    requires !m.cpu.haltBug && m.cpu.fetchCount == 1
    ensures Flows(meta, m, taken, ExecuteJump(meta, m, taken).cpu)
  {
    FetchFlow(m.cpu, m.bus);
    hide BusMemory.Write8, BusMemory.Read8, Fetch8, Fetch16, Push16, Pop16, Word, Signed, Hl, Opcodes.Executable;
  }

  lemma CallFlow(meta: Opcodes.Metadata, m: Core, taken: bool)
    requires Opcodes.Executable(meta) && (meta.instruction.Call? || meta.instruction.CallCond?)
    requires !m.cpu.haltBug && m.cpu.fetchCount == 1
    ensures Flows(meta, m, taken, ExecuteJump(meta, m, taken).cpu)
  {
    FetchFlow(m.cpu, m.bus);
    var v := Fetch16(m.cpu, m.bus);
    StackFlow(Core(v.cpu, m.bus), v.cpu.pc);
    hide BusMemory.Write8, BusMemory.Read8, Fetch8, Fetch16, Push16, Pop16, Word, Signed, Hl, Opcodes.Executable;
  }

  lemma ReturnFlow(meta: Opcodes.Metadata, m: Core, taken: bool)
    requires Opcodes.Executable(meta) &&
             (meta.instruction.Ret? || meta.instruction.RetCond? || meta.instruction.Rst?)
    requires !m.cpu.haltBug && m.cpu.fetchCount == 1
    ensures Flows(meta, m, taken, ExecuteJump(meta, m, taken).cpu)
  {
    StackFlow(m, m.cpu.pc);
    hide BusMemory.Write8, BusMemory.Read8, Fetch8, Fetch16, Push16, Pop16, Word, Signed, Hl;
  }

  /** Jumps fetch their operands and land where these and the branch say. */
  lemma JumpFlow(meta: Opcodes.Metadata, m: Core, taken: bool)
    requires Opcodes.Executable(meta) && IsJump(meta.instruction) && !m.cpu.haltBug && m.cpu.fetchCount == 1
    ensures Flows(meta, m, taken, ExecuteJump(meta, m, taken).cpu)
  {
    hide ExecuteJump, Flows, Opcodes.Executable;
    var i := meta.instruction;
    if i.Jr? || i.JrCond? || i.JpHl? {
      ShortJumpFlow(meta, m, taken);
    } else if i.Jp? || i.JpCond? {
      LongJumpFlow(meta, m, taken);
    } else if i.Call? || i.CallCond? {
      CallFlow(meta, m, taken);
    } else {
      ReturnFlow(meta, m, taken);
    }
  }

  /** An instruction that only fetches goes on behind its last byte. */
  lemma StraightFlows(meta: Opcodes.Metadata, m: Core, taken: bool, d: CpuState)
    requires !IsJump(meta.instruction) && !meta.instruction.Reti? && !meta.instruction.Halt?
    requires !m.cpu.haltBug && m.cpu.fetchCount == 1
    requires FlowOf(d) == FlowOf(Fetches(m.cpu, m.bus, OperandBytes(meta.instruction)))
    ensures Flows(meta, m, taken, d)
  {
    FetchFlow(m.cpu, m.bus);
    hide Fetch8, Fetch16, Signed, Word;
  }

  lemma DataFlow(meta: Opcodes.Metadata, m: Core, taken: bool)
    requires Opcodes.Executable(meta) && !IsControl(meta.instruction) && !meta.instruction.PrefixCb?
    requires !m.cpu.haltBug && m.cpu.fetchCount == 1
    ensures Flows(meta, m, taken, ExecuteData(meta, m, taken).cpu)
  {
    hide ExecuteLoad, ExecuteDirectLoad, ExecuteWide, ExecuteJump, ExecuteCb, ExecuteByte, Opcodes.Executable,
         IsLoad, IsDirectLoad, IsWide, IsJump, IsCb, Flows, FlowOf, Fetches, IsControl, OperandBytes;
    var i := meta.instruction;
    if IsJump(i) {
      JumpSorts(i);
      JumpFlow(meta, m, taken);
    } else {
      DataIsStraight(meta, m, taken);
      JumpSorts(i);
      ControlSorts(i);
      StraightFlows(meta, m, taken, ExecuteData(meta, m, taken).cpu);
    }
  }

  lemma JumpSorts(i: Opcodes.Instruction)
    ensures IsJump(i) ==> !i.Nop? && !IsLoad(i) && !IsDirectLoad(i) && !IsWide(i)
  {
  }

  lemma ControlSorts(i: Opcodes.Instruction)
    ensures i.Reti? || i.Halt? ==> IsControl(i)
  {
  }

  lemma PlainOperands(i: Opcodes.Instruction)
    ensures i.Nop? || IsCb(i) ==> OperandBytes(i) == 0
  {
  }

  lemma DataIsStraight(meta: Opcodes.Metadata, m: Core, taken: bool)
    requires Opcodes.Executable(meta) && !IsJump(meta.instruction) && !IsControl(meta.instruction)
    requires !meta.instruction.PrefixCb?
    ensures FlowOf(ExecuteData(meta, m, taken).cpu) == FlowOf(Fetches(m.cpu, m.bus, OperandBytes(meta.instruction)))
  {
    hide ExecuteLoad, ExecuteDirectLoad, ExecuteWide, ExecuteJump, ExecuteCb, ExecuteByte, Opcodes.Executable,
         IsLoad, IsDirectLoad, IsWide, IsJump, IsCb, FlowOf, IsControl, OperandBytes;
    var i := meta.instruction;
    if i.Nop? {
      PlainOperands(i);
    } else if IsLoad(i) {
      LoadFlow(meta, m);
    } else if IsDirectLoad(i) {
      DirectLoadFlow(i, m);
    } else if IsWide(i) {
      WideFlow(meta, m);
    } else if IsCb(i) {
      PlainOperands(i);
      CbFlow(meta, m);
    } else {
      ByteFlow(meta, m);
    }
  }

  lemma HaltFlows(meta: Opcodes.Metadata, m: Core, pending: bv8, enableAfter: bool)
    requires meta.instruction.Halt? && m.cpu.fetchCount == 1
    ensures Flows(meta, m, false, ExecuteControl(meta.instruction, m, pending, enableAfter).cpu)
  {
    hide Fetch8, Fetch16, Pop16, BusMemory.ConsumeSpeedSwitch, Signed, Word;
  }

  lemma RetiFlows(meta: Opcodes.Metadata, m: Core, pending: bv8, enableAfter: bool)
    requires meta.instruction.Reti? && m.cpu.fetchCount == 1
    ensures Flows(meta, m, false, ExecuteControl(meta.instruction, m, pending, enableAfter).cpu)
  {
    PopFlow(m);
    hide Fetch8, Fetch16, Pop16, BusMemory.ConsumeSpeedSwitch, Signed, Word, Wrap, ExecuteHalt;
  }

  lemma PopFlow(m: Core)
    ensures Pop16(m).cpu.fetchCount == m.cpu.fetchCount && Pop16(m).cpu.fetchBytes == m.cpu.fetchBytes
  {
    hide BusMemory.Read8;
  }

  lemma ControlFlows(meta: Opcodes.Metadata, m: Core, pending: bv8, enableAfter: bool)
    requires IsControl(meta.instruction) && !m.cpu.haltBug && m.cpu.fetchCount == 1
    ensures Flows(meta, m, false, ExecuteControl(meta.instruction, m, pending, enableAfter).cpu)
  {
    hide Fetch8, Fetch16, Pop16, BusMemory.ConsumeSpeedSwitch, Signed, Word, Flows;
    if meta.instruction.Halt? {
      HaltFlows(meta, m, pending, enableAfter);
    } else if meta.instruction.Reti? {
      RetiFlows(meta, m, pending, enableAfter);
    } else {
      StraightFlows(meta, m, false, ExecuteControl(meta.instruction, m, pending, enableAfter).cpu);
    }
  }

  // ------------------------------------------------------------ whole instructions

  /** What a step shows of an instruction: fetched bytes, first two operands, program counter, cycles. */
  datatype Footprint = Footprint(count: FetchCount, o1: byte, o2: byte, pc: word, cycles: int)

  function FootprintOf(r: StepResult): Footprint {
    Footprint(r.cpu.fetchCount, r.cpu.fetchBytes[1], r.cpu.fetchBytes[2], r.cpu.pc, r.cycles)
  }

  /** The opcode table's account of a defined instruction without prefix whose opcode ends before `next`. */
  predicate FitsMetadata(meta: Opcodes.Metadata, next: word, f: Footprint, taken: bool) {
    var n := OperandBytes(meta.instruction);
    f.count == 1 + n && f.cycles == Opcodes.CyclesOf(meta, taken) &&
    LandsAt(meta, Wrap(next + n), f.o1, f.o2, taken, f.pc)
  }

  /** The opcode table's account of opcode `op`, for some outcome of its condition. */
  predicate FitsTable(op: byte, next: word, f: Footprint) {
    if op == 0xCB then
      f.count == 2 && f.pc == Wrap(next + 1) && f.cycles == Opcodes.CyclesOf(Opcodes.CbMetadataFor(f.o1), false)
    else
      match Opcodes.MetadataFor(op)
      case None => f.count == 1 && f.pc == next && f.cycles == 4
      case Some(meta) => FitsMetadata(meta, next, f, false) || FitsMetadata(meta, next, f, true)
  }

  /** The operand fetched under the HALT bug is the opcode again. */
  lemma OperandIsNext(c: CpuState, b: BusState, n: nat)
    requires !c.haltBug && c.fetchCount == 1 && 1 <= n <= 2
    ensures Fetches(c, b, n).fetchBytes[1] == BusMemory.Read8(b, c.pc)
  {
    hide BusMemory.Read8;
  }

  lemma OpcodeFlow(c: CpuState, b: BusState, op: byte, pending: bv8, enableAfter: bool)
    requires op != 0xCB && !c.haltBug && c.fetchCount == 1
    ensures var r := ExecuteOpcode(c, b, op, pending, enableAfter);
      FitsTable(op, c.pc, FootprintOf(r)) &&
      (r.cpu.fetchCount > 1 ==> r.cpu.fetchBytes[1] == BusMemory.Read8(b, c.pc))
  {
    hide ExecuteData, ExecuteControl, Opcodes.MetadataFor, Opcodes.CyclesOf, Opcodes.Executable, Takes, IsControl,
         Opcodes.GoodCost, Fetches, OperandBytes, LandsAt, BusMemory.Read8;
    var found := Opcodes.MetadataFor(op);
    if found.Some? {
      var meta := found.value;
      var taken := Takes(meta, c.r.f);
      Opcodes.TableIsComplete(op, taken);
      if IsControl(meta.instruction) {
        ControlFlows(meta, Core(c, b), pending, enableAfter);
        ControlCost(op, taken);
      } else {
        DataFlow(meta, Core(c, b), taken);
      }
      var n := OperandBytes(meta.instruction);
      if n > 0 {
        OperandIsNext(c, b, n);
      }
    }
  }

  lemma ControlCost(op: byte, taken: bool)
    requires Opcodes.MetadataFor(op).Some? && IsControl(Opcodes.MetadataFor(op).value.instruction)
    ensures var meta := Opcodes.MetadataFor(op).value;
      Opcodes.CyclesOf(meta, taken) == Opcodes.CyclesOf(meta, false)
  {
    Opcodes.TableIsComplete(op, taken);
    hide Opcodes.MetadataFor;
  }

  lemma PrefixedFlow(c: CpuState, b: BusState)
    requires !c.haltBug && c.fetchCount == 1
    ensures var r := ExecutePrefixed(c, b);
      FitsTable(0xCB, c.pc, FootprintOf(r)) && r.cpu.fetchBytes[1] == BusMemory.Read8(b, c.pc)
  {
    hide ExecuteCb, Fetch8, Opcodes.CbMetadataFor, Opcodes.CyclesOf, Opcodes.Executable, Opcodes.GoodCost,
         BusMemory.Read8;
    FetchFlow(c, b);
    CpuControl.FetchControl(c, b);
    var cb := Fetch8(c, b);
    Opcodes.CbTableIsComplete(cb.value, false);
    CbFlow(Opcodes.CbMetadataFor(cb.value), Core(cb.cpu, b));
  }

  /** Every executed instruction leaves the footprint that the opcode table gives it; under the HALT bug
      it starts one byte early and its first operand is its own opcode. */
  lemma InstructionFlow(c: CpuState, b: BusState)
    requires c.fetchCount == 0
    ensures var r := ExecuteInstruction(c, b);
      FitsTable(BusMemory.Read8(b, c.pc), if c.haltBug then c.pc else Wrap(c.pc + 1), FootprintOf(r)) &&
      (c.haltBug && r.cpu.fetchCount > 1 ==> r.cpu.fetchBytes[1] == BusMemory.Read8(b, c.pc))
  {
    hide ExecutePrefixed, ExecuteOpcode, Fetch8, BusMemory.Read8, Pending, FitsTable, Opcodes.GoodCost;
    var started := c.(imePending := false);
    CpuControl.FetchControl(started, b);
    FetchCounts(started, b);
    var fetched := Fetch8(started, b);
    if fetched.value == 0xCB {
      PrefixedFlow(fetched.cpu, b);
    } else {
      OpcodeFlow(fetched.cpu, b, fetched.value, Pending(b), c.imePending);
    }
  }

  lemma FetchCounts(c: CpuState, b: BusState)
    requires c.fetchCount == 0
    ensures Fetch8(c, b).cpu.fetchCount == 1 && !Fetch8(c, b).cpu.haltBug
  {
    hide BusMemory.Read8;
  }
}
