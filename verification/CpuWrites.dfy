/** What one CPU step writes on the bus (core/src/cpu.rs): at most two bytes, at addresses and with values
    that follow from the opcode and the registers. Apart from these writes a step leaves the bus alone,
    but for the acknowledged request of an interrupt and the speed switch of STOP. */
module CpuWrites {
  import opened Base
  import Alu
  import Opcodes
  import opened BusModel
  import BusMemory
  import opened CpuModel
  import CpuControl

  datatype BusWrite = BusWrite(address: word, value: byte)

  function WriteAll(b: BusState, ws: seq<BusWrite>): BusState {
    hide BusMemory.Write8;
    if ws == [] then b
    else BusMemory.Write8(WriteAll(b, ws[..|ws| - 1]), ws[|ws| - 1].address, ws[|ws| - 1].value)
  }

  lemma NoWrite(b: BusState)
    ensures WriteAll(b, []) == b
  {
  }

  lemma OneWrite(b: BusState, a: word, v: byte)
    ensures WriteAll(b, [BusWrite(a, v)]) == BusMemory.Write8(b, a, v)
  {
    hide BusMemory.Write8;
    assert [BusWrite(a, v)][..0] == [];
  }

  lemma TwoWrites(b: BusState, a: word, v: byte, a': word, v': byte)
    ensures WriteAll(b, [BusWrite(a, v), BusWrite(a', v')]) == BusMemory.Write8(BusMemory.Write8(b, a, v), a', v')
  {
    hide BusMemory.Write8;
    OneWrite(b, a, v);
    assert [BusWrite(a, v), BusWrite(a', v')][..1] == [BusWrite(a, v)];
  }

  // ---------------------------------------------------- the writes, by kind

  function PushWrites(sp: word, value: word): seq<BusWrite> {
    [BusWrite(Wrap(sp - 1), value / 0x100), BusWrite(Wrap(sp - 2), value % 0x100)]
  }

  /** Register 6 is the byte at HL; the others are not on the bus. */
  function RegisterWrites(c: CpuState, i: int, value: byte): seq<BusWrite> {
    if i == 6 then [BusWrite(Hl(c.r), value)] else []
  }

  function LoadWrites(meta: Opcodes.Metadata, m: Core): seq<BusWrite>
    requires Opcodes.Executable(meta)
  {
    hide BusMemory.Read8;
    var c, b := m.cpu, m.bus;
    match meta.instruction
    case Ld8 => RegisterWrites(c, meta.operand8.value.index, ReadR8(c, b, meta.operand16.value.source))
    case Ld8Imm => RegisterWrites(c, meta.operand8.value.index, Fetch8(c, b).value)
    case LdMemFromA => [BusWrite(ReadPair(c, meta.operand16.value.pair), c.r.a)]
    case LdHliFromA => [BusWrite(Hl(c.r), c.r.a)]
    case LdHldFromA => [BusWrite(Hl(c.r), c.r.a)]
    case LdhCFromA => [BusWrite(0xFF00 + c.r.c, c.r.a)]
    case _ => []
  }

  function DirectLoadWrites(i: Opcodes.Instruction, m: Core): seq<BusWrite> {
    hide BusMemory.Read8;
    var c, b := m.cpu, m.bus;
    match i
    case LdhImmFromA => [BusWrite(0xFF00 + Fetch8(c, b).value, c.r.a)]
    case LdImm16FromA => [BusWrite(Fetch16(c, b).value, c.r.a)]
    case LdSpToImm16Addr =>
      var target := Fetch16(c, b).value;
      [BusWrite(target, c.sp % 0x100), BusWrite(Wrap(target + 1), c.sp / 0x100)]
    case _ => []
  }

  function WideWrites(meta: Opcodes.Metadata, m: Core): seq<BusWrite>
    requires Opcodes.Executable(meta)
  {
    if meta.instruction.Push? then PushWrites(m.cpu.sp, ReadStackPair(m.cpu, meta.operand16.value.stackPair)) else []
  }

  function ByteWrites(meta: Opcodes.Metadata, m: Core): seq<BusWrite>
    requires Opcodes.Executable(meta)
  {
    hide BusMemory.Read8;
    match meta.instruction
    case Inc8 =>
      var i := meta.operand8.value.index;
      RegisterWrites(m.cpu, i, (ReadR8(m.cpu, m.bus, i) + 1) % 256)
    case Dec8 =>
      var i := meta.operand8.value.index;
      RegisterWrites(m.cpu, i, (ReadR8(m.cpu, m.bus, i) - 1) % 256)
    case _ => []
  }

  function JumpWrites(meta: Opcodes.Metadata, m: Core, taken: bool): seq<BusWrite> {
    hide BusMemory.Read8;
    match meta.instruction
    case Call => PushWrites(m.cpu.sp, Fetch16(m.cpu, m.bus).cpu.pc)
    case CallCond => if taken then PushWrites(m.cpu.sp, Fetch16(m.cpu, m.bus).cpu.pc) else []
    case Rst => PushWrites(m.cpu.sp, m.cpu.pc)
    case _ => []
  }

  function CbWrites(meta: Opcodes.Metadata, m: Core): seq<BusWrite>
    requires Opcodes.Executable(meta)
  {
    hide BusMemory.Read8, Rotate, ClearBit, SetBit;
    var c := m.cpu;
    match meta.instruction
    case CbRotate =>
      var i := meta.operand8.value.index;
      RegisterWrites(c, i, Rotate(meta.operand16.value.bit, ReadR8(c, m.bus, i), c.r.f.c).a)
    case CbRes =>
      var i := meta.operand8.value.index;
      RegisterWrites(c, i, ClearBit(ReadR8(c, m.bus, i), meta.operand16.value.bit))
    case CbSet =>
      var i := meta.operand8.value.index;
      RegisterWrites(c, i, SetBit(ReadR8(c, m.bus, i), meta.operand16.value.bit))
    case _ => []
  }

  function DataWrites(meta: Opcodes.Metadata, m: Core, taken: bool): seq<BusWrite>
    requires Opcodes.Executable(meta)
  {
    hide *;
    var i := meta.instruction;
    if IsLoad(i) then LoadWrites(meta, m)
    else if IsDirectLoad(i) then DirectLoadWrites(i, m)
    else if IsWide(i) then WideWrites(meta, m)
    else if IsJump(i) then JumpWrites(meta, m, taken)
    else if IsCb(i) then CbWrites(meta, m)
    else ByteWrites(meta, m)
  }

  // ------------------------------------------------------ and their effect

  lemma PushEffect(m: Core, value: word)
    ensures Push16(m, value).bus == WriteAll(m.bus, PushWrites(m.cpu.sp, value))
  {
    hide BusMemory.Write8, WriteAll;
    assert Wrap(Wrap(m.cpu.sp - 1) - 1) == Wrap(m.cpu.sp - 2);
    TwoWrites(m.bus, Wrap(m.cpu.sp - 1), value / 0x100, Wrap(m.cpu.sp - 2), value % 0x100);
  }

  lemma RegisterEffect(m: Core, i: int, value: byte)
    ensures WriteR8(m, i, value).bus == WriteAll(m.bus, RegisterWrites(m.cpu, i, value))
  {
    hide BusMemory.Write8, WriteAll, Hl;
    NoWrite(m.bus);
    OneWrite(m.bus, Hl(m.cpu.r), value);
  }

  lemma LoadEffect(meta: Opcodes.Metadata, m: Core)
    requires Opcodes.Executable(meta)
    ensures ExecuteLoad(meta, m).bus == WriteAll(m.bus, LoadWrites(meta, m))
  {
    var c, b := m.cpu, m.bus;
    NoWrite(b);
    var i := meta.instruction;
    hide BusMemory.Write8, BusMemory.Read8, Fetch8, ReadR8, ReadPair, WriteR8, SetHl, Hl, WriteAll, RegisterWrites;
    if i.Ld8? {
      RegisterEffect(m, meta.operand8.value.index, ReadR8(c, b, meta.operand16.value.source));
    } else if i.Ld8Imm? {
      ImmediateEffect(m, meta.operand8.value.index);
    } else if i.LdMemFromA? {
      OneWrite(b, ReadPair(c, meta.operand16.value.pair), c.r.a);
    } else if i.LdHliFromA? || i.LdHldFromA? {
      OneWrite(b, Hl(c.r), c.r.a);
    } else if i.LdhCFromA? {
      OneWrite(b, 0xFF00 + c.r.c, c.r.a);
    }
  }

  lemma FetchKeepsRegisters(c: CpuState, b: BusState)
    ensures Fetch8(c, b).cpu.r == c.r && Fetch8(c, b).cpu.sp == c.sp
    ensures Fetch16(c, b).cpu.r == c.r && Fetch16(c, b).cpu.sp == c.sp
  {
    hide BusMemory.Read8;
  }

  lemma ImmediateEffect(m: Core, i: int)
    ensures var v := Fetch8(m.cpu, m.bus);
      WriteR8(Core(v.cpu, m.bus), i, v.value).bus == WriteAll(m.bus, RegisterWrites(m.cpu, i, v.value))
  {
    var v := Fetch8(m.cpu, m.bus);
    FetchKeepsRegisters(m.cpu, m.bus);
    RegisterEffect(Core(v.cpu, m.bus), i, v.value);
    hide BusMemory.Write8, BusMemory.Read8, Fetch8, Fetch16, WriteR8, Hl, WriteAll;
  }

  lemma DirectLoadEffect(i: Opcodes.Instruction, m: Core)
    ensures ExecuteDirectLoad(i, m).bus == WriteAll(m.bus, DirectLoadWrites(i, m))
  {
    var c, b := m.cpu, m.bus;
    NoWrite(b);
    FetchKeepsRegisters(c, b);
    hide BusMemory.Write8, BusMemory.Read8, Fetch8, Fetch16, WriteAll;
    if i.LdhImmFromA? {
      OneWrite(b, 0xFF00 + Fetch8(c, b).value, c.r.a);
    } else if i.LdImm16FromA? {
      OneWrite(b, Fetch16(c, b).value, c.r.a);
    } else if i.LdSpToImm16Addr? {
      var target := Fetch16(c, b).value;
      TwoWrites(b, target, c.sp % 0x100, Wrap(target + 1), c.sp / 0x100);
    }
  }

  lemma WideEffect(meta: Opcodes.Metadata, m: Core)
    requires Opcodes.Executable(meta)
    ensures ExecuteWide(meta, m).bus == WriteAll(m.bus, WideWrites(meta, m))
  {
    NoWrite(m.bus);
    hide BusMemory.Write8, BusMemory.Read8, Fetch8, Fetch16, ReadPair, ReadStackPair, WritePair, WriteStackPair, Push16,
         Pop16, Word, SetHl, AddToHl, SpPlus, WriteAll, PushWrites;
    if meta.instruction.Push? {
      PushEffect(m, ReadStackPair(m.cpu, meta.operand16.value.stackPair));
    }
  }

  lemma ByteEffect(meta: Opcodes.Metadata, m: Core)
    requires Opcodes.Executable(meta)
    ensures ExecuteByte(meta, m).bus == WriteAll(m.bus, ByteWrites(meta, m))
  {
    NoWrite(m.bus);
    hide BusMemory.Write8, BusMemory.Read8, Fetch8, ReadR8, WriteR8, Alu.Alu8, ExecuteAccumulator, WriteAll,
         RegisterWrites;
    if meta.instruction.Inc8? {
      var i := meta.operand8.value.index;
      RegisterEffect(m, i, (ReadR8(m.cpu, m.bus, i) + 1) % 256);
    } else if meta.instruction.Dec8? {
      var i := meta.operand8.value.index;
      RegisterEffect(m, i, (ReadR8(m.cpu, m.bus, i) - 1) % 256);
    }
  }

  lemma JumpEffect(meta: Opcodes.Metadata, m: Core, taken: bool)
    requires Opcodes.Executable(meta)
    ensures ExecuteJump(meta, m, taken).bus == WriteAll(m.bus, JumpWrites(meta, m, taken))
  {
    var v := Fetch16(m.cpu, m.bus);
    NoWrite(m.bus);
    FetchKeepsRegisters(m.cpu, m.bus);
    hide BusMemory.Write8, BusMemory.Read8, Fetch8, Fetch16, Push16, Pop16, Word, Signed, Hl, WriteAll, PushWrites;
    if meta.instruction.Call? || meta.instruction.CallCond? {
      PushEffect(Core(v.cpu, m.bus), v.cpu.pc);
    } else if meta.instruction.Rst? {
      PushEffect(m, m.cpu.pc);
    }
  }

  lemma CbEffect(meta: Opcodes.Metadata, m: Core)
    requires Opcodes.Executable(meta)
    ensures ExecuteCb(meta, m).bus == WriteAll(m.bus, CbWrites(meta, m))
  {
    NoWrite(m.bus);
    hide BusMemory.Write8, BusMemory.Read8, Rotate, ClearBit, SetBit, BitWeight, ReadR8, WriteR8, WriteAll,
         RegisterWrites;
    var c, i := m.cpu, meta.instruction;
    if i.CbRotate? {
      var k := meta.operand8.value.index;
      RegisterEffect(m, k, Rotate(meta.operand16.value.bit, ReadR8(c, m.bus, k), c.r.f.c).a);
    } else if i.CbRes? {
      var k := meta.operand8.value.index;
      RegisterEffect(m, k, ClearBit(ReadR8(c, m.bus, k), meta.operand16.value.bit));
    } else if i.CbSet? {
      var k := meta.operand8.value.index;
      RegisterEffect(m, k, SetBit(ReadR8(c, m.bus, k), meta.operand16.value.bit));
    }
  }

  lemma DataEffect(meta: Opcodes.Metadata, m: Core, taken: bool)
    requires Opcodes.Executable(meta)
    ensures ExecuteData(meta, m, taken).bus == WriteAll(m.bus, DataWrites(meta, m, taken))
  {
    hide ExecuteLoad, ExecuteDirectLoad, ExecuteWide, ExecuteJump, ExecuteCb, ExecuteByte, Opcodes.Executable,
         LoadWrites, DirectLoadWrites, WideWrites, JumpWrites, CbWrites, WriteAll,
         IsLoad, IsDirectLoad, IsWide, IsJump, IsCb;
    var i := meta.instruction;
    if i.Nop? {
      NopEffect(meta, m, taken);
    } else if IsLoad(i) {
      LoadEffect(meta, m);
    } else if IsDirectLoad(i) {
      DirectLoadEffect(i, m);
    } else if IsWide(i) {
      WideEffect(meta, m);
    } else if IsJump(i) {
      JumpEffect(meta, m, taken);
    } else if IsCb(i) {
      CbEffect(meta, m);
    } else {
      hide ByteWrites;
      ByteEffect(meta, m);
    }
  }

  lemma NopEffect(meta: Opcodes.Metadata, m: Core, taken: bool)
    requires Opcodes.Executable(meta) && meta.instruction.Nop?
    ensures ExecuteData(meta, m, taken).bus == WriteAll(m.bus, DataWrites(meta, m, taken))
  {
    NoWrite(m.bus);
    hide WriteAll, Opcodes.Executable;
  }

  // --------------------------------------------------------- a whole CPU step

  /** The writes of a fetched opcode other than the prefix; `c` is the CPU after the fetch. */
  function OpcodeWrites(c: CpuState, b: BusState, op: byte): seq<BusWrite>
    requires op != 0xCB
  {
    hide DataWrites, Opcodes.MetadataFor, Opcodes.CyclesOf, Opcodes.Executable, Takes, IsControl;
    match Opcodes.MetadataFor(op)
    case None => []
    case Some(meta) =>
      Opcodes.TableIsComplete(op, false);
      if IsControl(meta.instruction) then [] else DataWrites(meta, Core(c, b), Takes(meta, c.r.f))
  }

  function PrefixedWrites(c: CpuState, b: BusState): seq<BusWrite> {
    hide CbWrites, Fetch8;
    var cb := Fetch8(c, b);
    Opcodes.CbTableIsComplete(cb.value, false);
    hide Opcodes.CbMetadataFor, Opcodes.CyclesOf, Opcodes.GoodCost, Opcodes.Executable;
    CbWrites(Opcodes.CbMetadataFor(cb.value), Core(cb.cpu, b))
  }

  function InstructionWrites(c: CpuState, b: BusState): seq<BusWrite> {
    hide PrefixedWrites, OpcodeWrites, Fetch8;
    var fetched := Fetch8(c.(imePending := false), b);
    if fetched.value == 0xCB then PrefixedWrites(fetched.cpu, b) else OpcodeWrites(fetched.cpu, b, fetched.value)
  }

  /** The bus that the writes go to: an accepted interrupt is acknowledged first, STOP switches speed. */
  function DispatchBase(c: CpuState, b: BusState): BusState {
    hide Pending, LowestPending, MaskOf, Fetch8;
    if Pending(b) != 0 && !c.locked && c.ime then Acknowledged(b)
    else if Fetch8(c.(imePending := false), b).value == 0x10 then BusMemory.ConsumeSpeedSwitch(b).0
    else b
  }

  function DispatchWrites(c: CpuState, b: BusState): seq<BusWrite> {
    hide Pending, InstructionWrites, PushWrites;
    if Pending(b) != 0 && !c.locked && c.ime then PushWrites(c.sp, c.pc) else InstructionWrites(c, b)
  }

  /** A halted CPU that nothing wakes idles. */
  predicate Idles(c: CpuState, b: BusState) {
    hide Pending;
    c.halted && (Pending(b) == 0 || c.locked)
  }

  function Awake(c: CpuState): CpuState { c.(fetchCount := 0, halted := false) }

  function StepBase(c: CpuState, b: BusState): BusState {
    hide DispatchBase;
    if Idles(c, b) then b else DispatchBase(Awake(c), b)
  }

  /** The writes of one step of the CPU. */
  function StepWrites(c: CpuState, b: BusState): seq<BusWrite> {
    hide DispatchWrites;
    if Idles(c, b) then [] else DispatchWrites(Awake(c), b)
  }

  function Acknowledged(b: BusState): BusState
    requires Pending(b) != 0
  {
    b.(iflag := b.iflag & !MaskOf(LowestPending(Pending(b))))
  }

  lemma ControlEffect(i: Opcodes.Instruction, m: Core, pending: bv8, enableAfter: bool)
    ensures ExecuteControl(i, m, pending, enableAfter).bus ==
            if i.Stop? then BusMemory.ConsumeSpeedSwitch(m.bus).0 else m.bus
  {
    hide Fetch8, Pop16, ExecuteHalt, BusMemory.ConsumeSpeedSwitch;
  }

  lemma OpcodeEffect(c: CpuState, b: BusState, op: byte, pending: bv8, enableAfter: bool)
    requires op != 0xCB
    ensures ExecuteOpcode(c, b, op, pending, enableAfter).bus ==
            WriteAll(if op == 0x10 then BusMemory.ConsumeSpeedSwitch(b).0 else b, OpcodeWrites(c, b, op))
  {
    if Opcodes.MetadataFor(op).Some? {
      CpuControl.ControlOpcodes(op);
    }
    hide ExecuteData, ExecuteControl, Opcodes.MetadataFor, Opcodes.CyclesOf, Opcodes.Executable, Takes,
         Opcodes.GoodCost, Opcodes.Undefined, WriteAll, DataWrites, BusMemory.ConsumeSpeedSwitch;
    var found := Opcodes.MetadataFor(op);
    Opcodes.TableIsComplete(op, false);
    NoWrite(b);
    NoWrite(BusMemory.ConsumeSpeedSwitch(b).0);
    if found.Some? {
      DataEffect(found.value, Core(c, b), Takes(found.value, c.r.f));
      ControlEffect(found.value.instruction, Core(c, b), pending, enableAfter);
    }
  }

  lemma PrefixedEffect(c: CpuState, b: BusState)
    ensures ExecutePrefixed(c, b).bus == WriteAll(b, PrefixedWrites(c, b))
  {
    hide ExecuteCb, CbWrites, WriteAll, Fetch8, Opcodes.CbMetadataFor, Opcodes.CyclesOf, Opcodes.Executable,
         Opcodes.GoodCost;
    var cb := Fetch8(c, b);
    Opcodes.CbTableIsComplete(cb.value, false);
    CbEffect(Opcodes.CbMetadataFor(cb.value), Core(cb.cpu, b));
  }

  lemma InstructionEffect(c: CpuState, b: BusState)
    ensures ExecuteInstruction(c, b).bus ==
            WriteAll(if Fetch8(c.(imePending := false), b).value == 0x10 then BusMemory.ConsumeSpeedSwitch(b).0 else b,
                     InstructionWrites(c, b))
  {
    hide ExecutePrefixed, ExecuteOpcode, Fetch8, PrefixedWrites, OpcodeWrites, WriteAll, BusMemory.ConsumeSpeedSwitch;
    var fetched := Fetch8(c.(imePending := false), b);
    if fetched.value == 0xCB {
      PrefixedEffect(fetched.cpu, b);
    } else {
      OpcodeEffect(fetched.cpu, b, fetched.value, Pending(b), c.imePending);
    }
  }

  lemma ServiceEffect(c: CpuState, b: BusState)
    requires Pending(b) != 0
    ensures ServiceInterrupt(c, b).bus == WriteAll(Acknowledged(b), PushWrites(c.sp, c.pc))
  {
    hide Push16, LowestPending, MaskOf, WriteAll, PushWrites;
    PushEffect(Core(c.(ime := false, imePending := false), Acknowledged(b)), c.pc);
  }

  lemma DispatchIsItsWrites(c: CpuState, b: BusState)
    ensures Dispatch(c, b).bus == WriteAll(DispatchBase(c, b), DispatchWrites(c, b))
  {
    hide Pending, ServiceInterrupt, ExecuteInstruction, InstructionWrites, PushWrites, WriteAll, Fetch8, Acknowledged,
         BusMemory.ConsumeSpeedSwitch;
    if Pending(b) != 0 && !c.locked && c.ime {
      ServiceEffect(c, b);
    } else {
      InstructionEffect(c, b);
    }
  }

  /** A CPU step leaves on the bus exactly its writes, after the acknowledgement or the speed switch. */
  lemma StepIsItsWrites(c: CpuState, b: BusState)
    ensures Step(Dispatch, c, b).bus == WriteAll(StepBase(c, b), StepWrites(c, b))
  {
    hide Pending, Dispatch, DispatchBase, DispatchWrites, WriteAll;
    NoWrite(b);
    DispatchIsItsWrites(Awake(c), b);
  }

  /** A step writes at most two bytes. */
  lemma AtMostTwoWrites(c: CpuState, b: BusState)
    ensures |StepWrites(c, b)| <= 2
  {
    hide Pending, Fetch8, InstructionWrites;
    InstructionWritesTwo(Awake(c), b);
  }

  lemma DataWritesTwo(meta: Opcodes.Metadata, m: Core, taken: bool)
    requires Opcodes.Executable(meta)
    ensures |DataWrites(meta, m, taken)| <= 2 && |CbWrites(meta, m)| <= 2
  {
    hide BusMemory.Read8, Fetch8, Fetch16, ReadR8, ReadPair, ReadStackPair, Rotate, ClearBit, SetBit, Hl,
         Opcodes.Executable, IsLoad, IsDirectLoad, IsWide, IsJump, IsCb;
  }

  lemma InstructionWritesTwo(c: CpuState, b: BusState)
    ensures |InstructionWrites(c, b)| <= 2
  {
    hide Fetch8, DataWrites, CbWrites, Opcodes.MetadataFor, Opcodes.CbMetadataFor, Opcodes.Executable, Takes, IsControl;
    var fetched := Fetch8(c.(imePending := false), b);
    if fetched.value == 0xCB {
      var cb := Fetch8(fetched.cpu, b);
      Opcodes.CbTableIsComplete(cb.value, false);
      DataWritesTwo(Opcodes.CbMetadataFor(cb.value), Core(cb.cpu, b), false);
    } else {
      var found := Opcodes.MetadataFor(fetched.value);
      Opcodes.TableIsComplete(fetched.value, false);
      if found.Some? {
        DataWritesTwo(found.value, Core(fetched.cpu, b), Takes(found.value, fetched.cpu.r.f));
      }
    }
  }
}
