/** The CPU's control state over whole runs: what each opcode does to IME, the delayed EI, HALT, the
    HALT bug and the lock-up, and what follows for interrupt dispatch. */
module CpuControl {
  import opened Base
  import Alu
  import Opcodes
  import opened BusModel
  import BusMemory
  import opened CpuModel

  datatype Control = Control(ime: bool, imePending: bool, halted: bool, locked: bool, haltBug: bool)

  function ControlOf(c: CpuState): Control { Control(c.ime, c.imePending, c.halted, c.locked, c.haltBug) }

  /** The control state after an instruction, from the opcode alone: no data matters. */
  function NextControl(k: Control, op: byte, pending: bool, switched: bool): Control {
    var idle := k.(imePending := false, haltBug := false);
    var done :=
      if Opcodes.Undefined(op) then idle.(halted := true, locked := true)
      else if op == 0x76 then
        (if k.ime || !pending then idle.(halted := true) else if k.imePending then idle else idle.(haltBug := true))
      else if op == 0x10 then idle.(halted := !switched, locked := false)
      else if op == 0xF3 then idle.(ime := false)
      else if op == 0xFB then idle.(imePending := true)
      else if op == 0xD9 then idle.(ime := true)
      else idle;
    if k.imePending && op != 0xF3 then done.(ime := true) else done
  }

  // --------------------------------------------- data instructions keep control

  lemma FetchControl(c: CpuState, b: BusState)
    ensures ControlOf(Fetch8(c, b).cpu) == ControlOf(c).(haltBug := false)
    ensures Fetch8(c, b).cpu.r == c.r && Fetch8(c, b).value == BusMemory.Read8(b, c.pc)
    ensures Fetch8(c, b).cpu.pc == if c.haltBug then c.pc else Wrap(c.pc + 1)
  {
    hide BusMemory.Read8;
  }

  lemma WideFetchControl(c: CpuState, b: BusState)
    ensures ControlOf(Fetch16(c, b).cpu) == ControlOf(c).(haltBug := false)
  {
    hide Fetch8, BusMemory.Read8;
    FetchControl(c, b);
    FetchControl(Fetch8(c, b).cpu, b);
  }

  lemma StoreControl(m: Core, i: int, value: byte)
    ensures ControlOf(WriteR8(m, i, value).cpu) == ControlOf(m.cpu)
  {
    hide BusMemory.Write8;
  }

  lemma PairControl(c: CpuState, i: int, value: word)
    ensures ControlOf(WritePair(c, i, value)) == ControlOf(c) && ControlOf(WriteStackPair(c, i, value)) == ControlOf(c)
  {
    hide Word, SetHl;
  }

  lemma StackControl(m: Core, value: word)
    ensures ControlOf(Push16(m, value).cpu) == ControlOf(m.cpu) && ControlOf(Pop16(m).cpu) == ControlOf(m.cpu)
  {
    hide BusMemory.Write8, BusMemory.Read8;
  }

  lemma LoadControl(meta: Opcodes.Metadata, m: Core)
    requires Opcodes.Executable(meta) && !m.cpu.haltBug
    ensures ControlOf(ExecuteLoad(meta, m).cpu) == ControlOf(m.cpu)
  {
    hide BusMemory.Write8, BusMemory.Read8, Fetch8, ReadR8, ReadPair, WriteR8, SetHl, Hl;
    FetchControl(m.cpu, m.bus);
    if meta.instruction.Ld8? {
      StoreControl(m, meta.operand8.value.index, ReadR8(m.cpu, m.bus, meta.operand16.value.source));
    } else if meta.instruction.Ld8Imm? {
      var v := Fetch8(m.cpu, m.bus);
      StoreControl(Core(v.cpu, m.bus), meta.operand8.value.index, v.value);
    }
    hide Opcodes.Executable;
  }

  lemma DirectLoadControl(i: Opcodes.Instruction, m: Core)
    requires !m.cpu.haltBug
    ensures ControlOf(ExecuteDirectLoad(i, m).cpu) == ControlOf(m.cpu)
  {
    hide BusMemory.Write8, BusMemory.Read8, Fetch8, Fetch16;
    FetchControl(m.cpu, m.bus);
    WideFetchControl(m.cpu, m.bus);
  }

  lemma WideControl(meta: Opcodes.Metadata, m: Core)
    requires Opcodes.Executable(meta) && !m.cpu.haltBug
    ensures ControlOf(ExecuteWide(meta, m).cpu) == ControlOf(m.cpu)
  {
    var c, b, i := m.cpu, m.bus, meta.instruction;
    hide BusMemory.Write8, BusMemory.Read8, Fetch8, Fetch16, ReadPair, ReadStackPair, WritePair, WriteStackPair, Push16,
         Pop16, Word, SetHl, AddToHl, SpPlus;
    FetchControl(c, b);
    WideFetchControl(c, b);
    if i.Ld16Imm? {
      var v := Fetch16(c, b);
      PairControl(v.cpu, meta.operand16.value.pair, v.value);
    } else if i.Inc16? {
      PairControl(c, meta.operand16.value.pair, Wrap(ReadPair(c, meta.operand16.value.pair) + 1));
    } else if i.Dec16? {
      PairControl(c, meta.operand16.value.pair, Wrap(ReadPair(c, meta.operand16.value.pair) - 1));
    } else if i.AddHl? {
      AddHlControl(c, ReadPair(c, meta.operand16.value.pair));
    } else if i.AddSpE8? || i.LdHlSpPlusE8? {
      var v := Fetch8(c, b);
      SpPlusControl(v.cpu, v.value);
    } else if i.Push? {
      StackControl(m, ReadStackPair(c, meta.operand16.value.stackPair));
    } else if i.Pop? {
      StackControl(m, 0);
      var v := Pop16(m);
      PairControl(v.cpu, meta.operand16.value.stackPair, v.value);
    }
  }

  lemma AddHlControl(c: CpuState, value: word)
    ensures ControlOf(AddToHl(c, value)) == ControlOf(c)
  {
    hide Hl, SetHl;
  }

  lemma SpPlusControl(c: CpuState, offset: int)
    requires 0 <= offset < 0x100
    ensures ControlOf(SpPlus(c, offset).cpu) == ControlOf(c)
  {
  }

  lemma ByteControl(meta: Opcodes.Metadata, m: Core)
    requires Opcodes.Executable(meta) && !m.cpu.haltBug
    ensures ControlOf(ExecuteByte(meta, m).cpu) == ControlOf(m.cpu)
  {
    hide BusMemory.Write8, BusMemory.Read8, Fetch8, ReadR8, WriteR8, Alu.Alu8, ExecuteAccumulator;
    FetchControl(m.cpu, m.bus);
    if meta.instruction.Inc8? || meta.instruction.Dec8? {
      var i := meta.operand8.value.index;
      var value: int := ReadR8(m.cpu, m.bus, i);
      StoreControl(m, i, (value + 1) % 256);
      StoreControl(m, i, (value - 1) % 256);
    }
    hide Opcodes.Executable;
  }

  lemma JumpControl(meta: Opcodes.Metadata, m: Core, taken: bool)
    requires Opcodes.Executable(meta) && !m.cpu.haltBug
    ensures ControlOf(ExecuteJump(meta, m, taken).cpu) == ControlOf(m.cpu)
  {
    hide BusMemory.Write8, BusMemory.Read8, Fetch8, Fetch16, Push16, Pop16, Opcodes.Executable, Word, Signed, Hl;
    FetchControl(m.cpu, m.bus);
    WideFetchControl(m.cpu, m.bus);
    var v := Fetch16(m.cpu, m.bus);
    StackControl(Core(v.cpu, m.bus), v.cpu.pc);
    StackControl(m, m.cpu.pc);
  }

  lemma CbControl(meta: Opcodes.Metadata, m: Core)
    requires Opcodes.Executable(meta)
    ensures ControlOf(ExecuteCb(meta, m).cpu) == ControlOf(m.cpu)
  {
    hide BusMemory.Write8, BusMemory.Read8, Rotate, ClearBit, SetBit, BitWeight, ReadR8, WriteR8;
    var c, b := m.cpu, m.bus;
    if IsCb(meta.instruction) {
      var i, bit := meta.operand8.value.index, meta.operand16.value.bit;
      StoreControl(m, i, Rotate(bit, ReadR8(c, b, i), c.r.f.c).a);
      StoreControl(m, i, ClearBit(ReadR8(c, b, i), bit));
      StoreControl(m, i, SetBit(ReadR8(c, b, i), bit));
    }
    hide Opcodes.Executable;
  }

  lemma DataControl(meta: Opcodes.Metadata, m: Core, taken: bool)
    requires Opcodes.Executable(meta) && !m.cpu.haltBug
    ensures ControlOf(ExecuteData(meta, m, taken).cpu) == ControlOf(m.cpu)
  {
    hide ExecuteLoad, ExecuteDirectLoad, ExecuteWide, ExecuteJump, ExecuteCb, ExecuteByte, Opcodes.Executable,
         IsLoad, IsDirectLoad, IsWide, IsJump, IsCb;
    var i := meta.instruction;
    if i.Nop? {
    } else if IsLoad(i) {
      LoadControl(meta, m);
    } else if IsDirectLoad(i) {
      DirectLoadControl(i, m);
    } else if IsWide(i) {
      WideControl(meta, m);
    } else if IsJump(i) {
      JumpControl(meta, m, taken);
    } else if IsCb(i) {
      CbControl(meta, m);
    } else {
      ByteControl(meta, m);
    }
  }

  /** Which opcodes carry the five control instructions. */
  lemma ControlOpcodes(op: byte)
    requires Opcodes.MetadataFor(op).Some?
    ensures var i := Opcodes.MetadataFor(op).value.instruction;
      (i.Halt? <==> op == 0x76) && (i.Stop? <==> op == 0x10) && (i.Di? <==> op == 0xF3) &&
      (i.Ei? <==> op == 0xFB) && (i.Reti? <==> op == 0xD9)
  {
    hide Opcodes.Pair, Opcodes.Target;
    var k := op % 8;
    if op < 0x40 {
      if k < 4 {} else {}
    } else if op >= 0xC0 {
      if k < 2 {} else if k < 4 {} else {}
    }
  }

  lemma PopControl(m: Core)
    ensures ControlOf(Pop16(m).cpu) == ControlOf(m.cpu)
  {
    hide BusMemory.Read8;
  }

  lemma ExecuteControlState(op: byte, i: Opcodes.Instruction, m: Core, pending: bv8, enableAfter: bool)
    requires !m.cpu.haltBug && !m.cpu.imePending && op != 0xF3 ==> !i.Di?
    requires !m.cpu.haltBug && !m.cpu.imePending && IsControl(i)
    ensures var k, r := ControlOf(m.cpu), ControlOf(ExecuteControl(i, m, pending, enableAfter).cpu);
      (i.Halt? ==> r == if k.ime || pending == 0 then k.(halted := true)
                        else if enableAfter then k else k.(haltBug := true)) &&
      (i.Stop? ==> r == k.(halted := !BusMemory.ConsumeSpeedSwitch(m.bus).1, locked := false)) &&
      (i.Di? ==> r == k.(ime := false)) && (i.Ei? ==> r == k.(imePending := true)) &&
      (i.Reti? ==> r == k.(ime := true))
  {
    hide Fetch8, Pop16, BusMemory.ConsumeSpeedSwitch;
    FetchControl(m.cpu, m.bus);
    PopControl(m);
  }

  lemma OpcodeControl(c: CpuState, b: BusState, op: byte, pending: bv8, enableAfter: bool)
    requires op != 0xCB && !c.haltBug && !c.imePending
    ensures ControlOf(AfterEi(ExecuteOpcode(c, b, op, pending, enableAfter).cpu, enableAfter, op)) ==
            NextControl(ControlOf(c).(imePending := enableAfter), op, pending != 0, BusMemory.ConsumeSpeedSwitch(b).1)
  {
    hide ExecuteData, ExecuteControl, Opcodes.MetadataFor, Opcodes.CyclesOf, Opcodes.Executable, Opcodes.Undefined,
         Takes, BusMemory.ConsumeSpeedSwitch, IsControl, Opcodes.GoodCost;
    var found := Opcodes.MetadataFor(op);
    Opcodes.TableIsComplete(op, false);
    if found.Some? {
      var meta := found.value;
      var i := meta.instruction;
      ControlOpcodes(op);
      IsControlIff(i);
      if IsControl(i) {
        ExecuteControlState(op, i, Core(c, b), pending, enableAfter);
      } else {
        DataControl(meta, Core(c, b), Takes(meta, c.r.f));
      }
    }
  }

  lemma IsControlIff(i: Opcodes.Instruction)
    ensures IsControl(i) <==> i.Halt? || i.Stop? || i.Di? || i.Ei? || i.Reti?
  {
  }

  lemma PrefixedControl(c: CpuState, b: BusState)
    requires !c.haltBug
    ensures ControlOf(ExecutePrefixed(c, b).cpu) == ControlOf(c)
  {
    hide ExecuteCb, Fetch8, Opcodes.CbMetadataFor, Opcodes.CyclesOf, Opcodes.Executable, Opcodes.GoodCost;
    FetchControl(c, b);
    var cb := Fetch8(c, b);
    Opcodes.CbTableIsComplete(cb.value, false);
    CbControl(Opcodes.CbMetadataFor(cb.value), Core(cb.cpu, b));
  }

  lemma PrefixIsPlain(k: Control, pending: bool, switched: bool)
    ensures NextControl(k, 0xCB, pending, switched) ==
            if k.imePending then k.(imePending := false, haltBug := false, ime := true) else k.(haltBug := false)
  {
  }

  /** Every instruction changes the control state exactly as its opcode says. */
  lemma InstructionControl(c: CpuState, b: BusState)
    ensures ControlOf(ExecuteInstruction(c, b).cpu) ==
            NextControl(ControlOf(c), BusMemory.Read8(b, c.pc), Pending(b) != 0, BusMemory.ConsumeSpeedSwitch(b).1)
  {
    hide ExecutePrefixed, ExecuteOpcode, Fetch8, BusMemory.Read8, BusMemory.ConsumeSpeedSwitch, NextControl, Pending;
    var started := c.(imePending := false);
    FetchControl(started, b);
    var fetched := Fetch8(started, b);
    if fetched.value == 0xCB {
      PrefixedControl(fetched.cpu, b);
      PrefixIsPlain(ControlOf(c), Pending(b) != 0, BusMemory.ConsumeSpeedSwitch(b).1);
    } else {
      OpcodeControl(fetched.cpu, b, fetched.value, Pending(b), c.imePending);
      HaltBugForgotten(ControlOf(c), fetched.value, Pending(b) != 0, BusMemory.ConsumeSpeedSwitch(b).1);
    }
  }

  lemma HaltBugForgotten(k: Control, op: byte, pending: bool, switched: bool)
    ensures NextControl(k.(haltBug := false), op, pending, switched) == NextControl(k, op, pending, switched)
  {
  }

  // ------------------------------------------------------------- invariant

  /** Halting leaves no delayed EI; an active HALT bug means interrupts off, not halted and no delayed
      EI; a locked CPU is halted. */
  predicate ControlInv(k: Control) {
    (k.halted ==> !k.imePending) &&
    (k.haltBug ==> !k.ime && !k.halted && !k.imePending) &&
    (k.locked ==> k.halted)
  }

  lemma ServiceControl(c: CpuState, b: BusState)
    requires Pending(b) != 0
    ensures ControlOf(ServiceInterrupt(c, b).cpu) == ControlOf(c).(ime := false, imePending := false)
  {
    hide BusMemory.Write8, LowestPending, MaskOf;
  }

  lemma NextControlInv(k: Control, op: byte, pending: bool, switched: bool)
    requires ControlInv(k) && !k.halted
    ensures ControlInv(NextControl(k, op, pending, switched))
  {
    hide Opcodes.Undefined;
  }

  lemma StepControlInv(c: CpuState, b: BusState)
    requires ControlInv(ControlOf(c))
    ensures ControlInv(ControlOf(Step(Dispatch, c, b).cpu))
  {
    hide ServiceInterrupt, ExecuteInstruction, Pending, NextControl;
    var started := c.(fetchCount := 0);
    var running := if Pending(b) != 0 && !c.locked then started.(halted := false) else started;
    if !running.halted {
      if Pending(b) != 0 && !running.locked && running.ime {
        ServiceControl(running, b);
      } else {
        InstructionControl(running, b);
        NextControlInv(ControlOf(running), BusMemory.Read8(b, running.pc), Pending(b) != 0,
                       BusMemory.ConsumeSpeedSwitch(b).1);
      }
    }
  }

  /** A run of CPU steps, the bus before each step being arbitrary: the devices and the frontend may
      have changed it in any way. */
  function CpuRun(c: CpuState, buses: seq<BusState>): CpuState {
    if buses == [] then c else Step(Dispatch, CpuRun(c, buses[..|buses| - 1]), buses[|buses| - 1]).cpu
  }

  lemma {:induction false} ControlOverAllRuns(c: CpuState, buses: seq<BusState>)
    requires ControlInv(ControlOf(c))
    ensures var d := CpuRun(c, buses);
      (d.halted ==> !d.imePending) && (d.haltBug ==> !d.ime && !d.halted && !d.imePending) && (d.locked ==> d.halted)
  {
    hide Step;
    if buses != [] {
      ControlOverAllRuns(c, buses[..|buses| - 1]);
      StepControlInv(CpuRun(c, buses[..|buses| - 1]), buses[|buses| - 1]);
    }
  }

  // ------------------------------------------------------------- dispatch

  /** An interrupt is dispatched only with IME on and a request pending on an unlocked CPU; it goes to
      the vector of the lowest pending bit, turns IME off, acknowledges that bit and pushes the PC. */
  lemma DispatchIsLowestPending(c: CpuState, b: BusState)
    requires c.ime && Pending(b) != 0 && !c.locked
    ensures var r, i := Step(Dispatch, c, b), LowestPending(Pending(b));
      r.cycles == 20 && !r.cpu.ime && !r.cpu.imePending && !r.cpu.halted && r.cpu.pc == 0x40 + 8 * i &&
      r.bus == Push16(Core(c, b.(iflag := b.iflag & !MaskOf(i))), c.pc).bus &&
      Pending(b) & MaskOf(i) != 0 && Pending(b) & (MaskOf(i) - 1) == 0
  {
    hide BusMemory.Write8;
    LowestBit(Pending(b));
    hide LowestPending, MaskOf, Pending;
  }

  lemma LowestBit(pending: bv8)
    requires pending != 0 && pending & 0x1F == pending
    ensures var m := MaskOf(LowestPending(pending)); pending & m != 0 && pending & (m - 1) == 0
  {
  }

  /** Without IME, or with nothing pending, the step executes the next instruction. */
  lemma NoDispatch(c: CpuState, b: BusState)
    requires !c.halted && !(c.ime && Pending(b) != 0)
    ensures Step(Dispatch, c, b) == ExecuteInstruction(c.(fetchCount := 0), b)
  {
    hide ExecuteInstruction, ServiceInterrupt, Pending;
  }

  predicate At(c: CpuState, b: BusState, op: byte) { BusMemory.Read8(b, c.pc) == op }

  /** From IME off, the instruction after EI executes before any dispatch, whatever the bus then holds. */
  lemma EiShieldsNextInstruction(c: CpuState, b: BusState, b': BusState)
    requires !c.ime && !c.halted && At(c, b, 0xFB)
    ensures var d := Step(Dispatch, c, b).cpu;
      d.imePending && !d.halted &&
      (!c.imePending ==> !d.ime && Step(Dispatch, d, b') == ExecuteInstruction(d.(fetchCount := 0), b'))
  {
    hide ExecuteInstruction, BusMemory.Read8;
    NoDispatch(c, b);
    InstructionControl(c.(fetchCount := 0), b);
    hide Step;
    var d := Step(Dispatch, c, b).cpu;
    if !c.imePending {
      NoDispatch(d, b');
    }
  }

  /** EI; DI opens no window: IME is off and no EI is delayed afterwards. */
  lemma EiDiOpensNoWindow(c: CpuState, b: BusState, b': BusState)
    requires !c.ime && !c.imePending && !c.halted && At(c, b, 0xFB)
    ensures var d := Step(Dispatch, c, b).cpu;
      var e := Step(Dispatch, d, b').cpu;
      At(d, b', 0xF3) ==> !e.ime && !e.imePending && !e.halted
  {
    EiShieldsNextInstruction(c, b, b');
    hide Step, ExecuteInstruction, BusMemory.Read8;
    var d := Step(Dispatch, c, b).cpu;
    InstructionControl(d.(fetchCount := 0), b');
  }

  /** EI; HALT with a request pending: IME is on, the CPU is not halted and the PC is back at the HALT,
      so the interrupt returns to it. */
  lemma EiHaltReturnsToHalt(c: CpuState, b: BusState, b': BusState)
    requires !c.ime && !c.imePending && !c.halted && At(c, b, 0xFB)
    ensures var d := Step(Dispatch, c, b).cpu;
      var e := Step(Dispatch, d, b').cpu;
      At(d, b', 0x76) && Pending(b') != 0 ==> e.ime && !e.halted && !e.haltBug && e.pc == d.pc
  {
    EiShieldsNextInstruction(c, b, b');
    var d := Step(Dispatch, c, b).cpu;
    NoDispatch(c, b);
    InstructionControl(c.(fetchCount := 0), b);
    assert !d.haltBug;
    hide Step;
    if At(d, b', 0x76) && Pending(b') != 0 {
      HaltWithEiPending(d.(fetchCount := 0), b');
    }
  }

  lemma HaltWithEiPending(c: CpuState, b: BusState)
    requires !c.ime && c.imePending && !c.halted && !c.haltBug && At(c, b, 0x76) && Pending(b) != 0
    ensures var e := ExecuteInstruction(c, b).cpu;
      e.ime && !e.halted && !e.haltBug && e.pc == c.pc
  {
    InstructionControl(c, b);
    FetchControl(c.(imePending := false), b);
    HaltMetadata();
    hide Fetch8, BusMemory.Read8, Opcodes.MetadataFor, Opcodes.CyclesOf, ExecuteData, Pending;
  }

  lemma HaltMetadata()
    ensures Opcodes.MetadataFor(0x76) == Some(Opcodes.Plain(0x76, Opcodes.Halt, 4))
  {
  }

  /** An undefined opcode locks the CPU, and the lock absorbs: every later step idles for four cycles,
      whatever is pending. */
  lemma UndefinedOpcodeAbsorbs(c: CpuState, b: BusState, b': BusState)
    requires !c.halted && !(c.ime && Pending(b) != 0) && Opcodes.Undefined(BusMemory.Read8(b, c.pc))
    ensures var d := Step(Dispatch, c, b).cpu;
      d.locked && d.halted && Step(Dispatch, d, b') == StepResult(d.(fetchCount := 0), b', 4)
  {
    hide ExecuteInstruction, BusMemory.Read8, Opcodes.Undefined, BusMemory.ConsumeSpeedSwitch;
    NoDispatch(c, b);
    InstructionControl(c.(fetchCount := 0), b);
    hide Dispatch;
  }

  lemma {:induction false} LockedForever(c: CpuState, buses: seq<BusState>)
    requires c.locked && c.halted
    ensures CpuRun(c, buses) == if buses == [] then c else c.(fetchCount := 0)
  {
    hide Dispatch;
    if buses != [] {
      LockedForever(c, buses[..|buses| - 1]);
    }
  }
}
