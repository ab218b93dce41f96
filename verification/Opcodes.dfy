/** The opcode table that the build script generates (core/build.rs) and its operand and cycle
    metadata (core/src/cpu/metadata.rs). */
module Opcodes {
  import opened Base

  datatype Instruction =
    | Nop | Stop | Halt | PrefixCb | Ld8 | Ld8Imm | Ld16Imm | LdSpToImm16Addr | LdMemFromA | LdAFromMem
    | LdHliFromA | LdAFromHli | LdHldFromA | LdAFromHld | LdhImmFromA | LdhCFromA | LdImm16FromA | LdhAFromImm
    | LdhAFromC | LdAFromImm16 | Inc8 | Dec8 | Inc16 | Dec16 | AddHl | AddSpE8 | LdHlSpPlusE8 | LdSpHl | Alu8
    | AluImm8 | Rlca | Rrca | Rla | Rra | Daa | Cpl | Scf | Ccf | Jr | JrCond | Jp | JpCond | JpHl | Call
    | CallCond | Ret | RetCond | Reti | Rst | Push | Pop | Di | Ei | CbRotate | CbBit | CbRes | CbSet

  datatype Operand8 = R8(index: int) | Imm8 | SignedImm8 | Relative | CbOpcode | Vector(vector: int)

  datatype Operand16 = R16(pair: int) | StackR16(stackPair: int) | R8Source(source: int) | Imm16 | BitIndex(bit: int)

  datatype CycleCost =
    | Fixed(cycles: int)
    | Branch(taken: int, notTaken: int)
    | MemoryOperand(register: int, memory: int)

  datatype Metadata = Metadata(opcode: byte, instruction: Instruction, operand8: Option<Operand8>,
                               operand16: Option<Operand16>, condition: Option<int>, cycles: CycleCost)

  function Plain(op: byte, i: Instruction, cycles: int): Metadata { Metadata(op, i, None, None, None, Fixed(cycles)) }

  function With8(op: byte, i: Instruction, operand: Operand8, cost: CycleCost): Metadata {
    Metadata(op, i, Some(operand), None, None, cost)
  }

  function With16(op: byte, i: Instruction, operand: Operand16, cycles: int): Metadata {
    Metadata(op, i, None, Some(operand), None, Fixed(cycles))
  }

  function If(op: byte, i: Instruction, operand8: Option<Operand8>, operand16: Option<Operand16>,
              taken: int, notTaken: int): Metadata {
    Metadata(op, i, operand8, operand16, Some((op / 8) % 4), Branch(taken, notTaken))
  }

  function Pair(op: byte): int { (op / 16) % 4 }

  function Target(op: byte): int { (op / 8) % 8 }

  function LowMetadata(op: byte): Metadata
    requires op < 0x40
  {
    match op % 8
    case 0 =>
      if op == 0x00 then Plain(op, Nop, 4)
      else if op == 0x08 then With16(op, LdSpToImm16Addr, Imm16, 20)
      else if op == 0x10 then With8(op, Stop, Imm8, Fixed(4))
      else if op == 0x18 then With8(op, Jr, Relative, Fixed(12))
      else If(op, JrCond, Some(Relative), None, 12, 8)
    case 1 => if op % 16 == 1 then With16(op, Ld16Imm, R16(Pair(op)), 12) else With16(op, AddHl, R16(Pair(op)), 8)
    case 2 =>
      if op < 0x20 then With16(op, if op % 16 == 2 then LdMemFromA else LdAFromMem, R16(Pair(op)), 8)
      else if op == 0x22 then Plain(op, LdHliFromA, 8)
      else if op == 0x2A then Plain(op, LdAFromHli, 8)
      else if op == 0x32 then Plain(op, LdHldFromA, 8)
      else Plain(op, LdAFromHld, 8)
    case 3 => With16(op, if op % 16 == 3 then Inc16 else Dec16, R16(Pair(op)), 8)
    case 4 => With8(op, Inc8, R8(Target(op)), MemoryOperand(4, 12))
    case 5 => With8(op, Dec8, R8(Target(op)), MemoryOperand(4, 12))
    case 6 => With8(op, Ld8Imm, R8(Target(op)), MemoryOperand(8, 12))
    case _ =>
      Plain(op, match op / 8 case 0 => Rlca case 1 => Rrca case 2 => Rla case 3 => Rra case 4 => Daa case 5 => Cpl
                             case 6 => Scf case _ => Ccf, 4)
  }

  function LoadMetadata(op: byte): Metadata
    requires 0x40 <= op < 0x80
  {
    if op == 0x76 then Plain(op, Halt, 4)
    else Metadata(op, Ld8, Some(R8(Target(op))), Some(R8Source(op % 8)), None,
                  Fixed(if Target(op) == 6 || op % 8 == 6 then 8 else 4))
  }

  function HighRow0(op: byte): Metadata {
    if op < 0xE0 then If(op, RetCond, None, None, 20, 8)
    else if op == 0xE0 then With8(op, LdhImmFromA, Imm8, Fixed(12))
    else if op == 0xE8 then With8(op, AddSpE8, SignedImm8, Fixed(16))
    else if op == 0xF0 then With8(op, LdhAFromImm, Imm8, Fixed(12))
    else With8(op, LdHlSpPlusE8, SignedImm8, Fixed(12))
  }

  function HighRow1(op: byte): Metadata {
    if op % 16 == 1 then With16(op, Pop, StackR16(Pair(op)), 12)
    else if op == 0xC9 then Plain(op, Ret, 16)
    else if op == 0xD9 then Plain(op, Reti, 16)
    else if op == 0xE9 then Plain(op, JpHl, 4)
    else Plain(op, LdSpHl, 8)
  }

  function HighRow2(op: byte): Metadata {
    if op < 0xE0 then If(op, JpCond, None, Some(Imm16), 16, 12)
    else if op == 0xE2 then Plain(op, LdhCFromA, 8)
    else if op == 0xEA then With16(op, LdImm16FromA, Imm16, 16)
    else if op == 0xF2 then Plain(op, LdhAFromC, 8)
    else With16(op, LdAFromImm16, Imm16, 16)
  }

  function HighRow3(op: byte): Option<Metadata> {
    if op == 0xC3 then Some(With16(op, Jp, Imm16, 16))
    else if op == 0xCB then Some(With8(op, PrefixCb, CbOpcode, Fixed(0)))
    else if op == 0xF3 then Some(Plain(op, Di, 4))
    else if op == 0xFB then Some(Plain(op, Ei, 4))
    else None
  }

  function HighRow5(op: byte): Option<Metadata> {
    if op % 16 == 5 then Some(With16(op, Push, StackR16(Pair(op)), 16))
    else if op == 0xCD then Some(With16(op, Call, Imm16, 24))
    else None
  }

  function HighMetadata(op: byte): Option<Metadata>
    requires op >= 0xC0
  {
    match op % 8
    case 0 => Some(HighRow0(op))
    case 1 => Some(HighRow1(op))
    case 2 => Some(HighRow2(op))
    case 3 => HighRow3(op)
    case 4 => if op < 0xE0 then Some(If(op, CallCond, None, Some(Imm16), 24, 12)) else None
    case 5 => HighRow5(op)
    case 6 => Some(With8(op, AluImm8, Imm8, Fixed(8)))
    case _ => Some(With8(op, Rst, Vector(op - 0xC0 - op % 8), Fixed(16)))
  }

  function MetadataFor(op: byte): Option<Metadata> {
    if op < 0x40 then Some(LowMetadata(op))
    else if op < 0x80 then Some(LoadMetadata(op))
    else if op < 0xC0 then Some(With8(op, Alu8, R8(op % 8), MemoryOperand(4, 8)))
    else HighMetadata(op)
  }

  function CbMetadataFor(op: byte): Metadata {
    var register, group := op % 8, op / 64;
    Metadata(op, match group case 0 => CbRotate case 1 => CbBit case 2 => CbRes case _ => CbSet,
             Some(R8(register)), Some(BitIndex((op / 8) % 8)), None,
             Fixed(if register != 6 then 8 else if group == 1 then 12 else 16))
  }

  /** The cycles an instruction takes, given whether its condition was met. */
  function CyclesOf(m: Metadata, taken: bool): int {
    match m.cycles
    case Fixed(cycles) => cycles
    case Branch(t, notTaken) => if taken then t else notTaken
    case MemoryOperand(register, memory) => if m.operand8 == Some(R8(6)) then memory else register
  }

  predicate IsR8(o: Option<Operand8>) { o.Some? && o.value.R8? && 0 <= o.value.index < 8 }

  predicate IsR16(o: Option<Operand16>) { o.Some? && o.value.R16? && 0 <= o.value.pair < 4 }

  predicate IsStack(o: Option<Operand16>) { o.Some? && o.value.StackR16? && 0 <= o.value.stackPair < 4 }

  predicate IsCondition(m: Metadata) { m.condition.Some? && 0 <= m.condition.value < 4 && m.cycles.Branch? }

  /** The operands, condition and cost form that the executor expects of each instruction; anything
      else would reach one of its unreachable arms or a missing operand. */
  predicate Executable(m: Metadata) {
    match m.instruction
    case Stop | AluImm8 | LdhImmFromA | LdhAFromImm => m.operand8 == Some(Imm8) && m.cycles.Fixed?
    case Jr => m.operand8 == Some(Relative) && m.cycles.Fixed?
    case JrCond => m.operand8 == Some(Relative) && IsCondition(m)
    case AddSpE8 | LdHlSpPlusE8 => m.operand8 == Some(SignedImm8) && m.cycles.Fixed?
    case Ld8Imm | Inc8 | Dec8 | Alu8 => IsR8(m.operand8) && m.cycles.MemoryOperand?
    case Ld8 =>
      IsR8(m.operand8) && m.operand16.Some? && m.operand16.value.R8Source? &&
      0 <= m.operand16.value.source < 8 && m.cycles.Fixed?
    case Ld16Imm | AddHl | LdMemFromA | LdAFromMem | Inc16 | Dec16 => IsR16(m.operand16) && m.cycles.Fixed?
    case Pop | Push => IsStack(m.operand16) && m.cycles.Fixed?
    case LdSpToImm16Addr | Jp | Call | LdImm16FromA | LdAFromImm16 => m.operand16 == Some(Imm16) && m.cycles.Fixed?
    case JpCond | CallCond => m.operand16 == Some(Imm16) && IsCondition(m)
    case RetCond => IsCondition(m)
    case Rst => m.operand8.Some? && m.operand8.value.Vector? && m.operand8.value.vector % 8 == 0
                && 0 <= m.operand8.value.vector < 0x40 && m.cycles.Fixed?
    case PrefixCb => m.operand8 == Some(CbOpcode)
    case CbRotate | CbBit | CbRes | CbSet =>
      IsR8(m.operand8) && m.operand16.Some? && m.operand16.value.BitIndex? &&
      0 <= m.operand16.value.bit < 8 && m.cycles.Fixed?
    case _ => m.cycles.Fixed?
  }

  predicate GoodCost(c: int) { 4 <= c <= 24 && c % 4 == 0 }

  predicate Undefined(op: byte) {
    op == 0xD3 || op == 0xDB || op == 0xDD || op == 0xE3 || op == 0xE4 || op == 0xEB || op == 0xEC || op == 0xED ||
    op == 0xF4 || op == 0xFC || op == 0xFD
  }

  /** What every defined opcode's metadata satisfies. */
  predicate GoodEntry(op: byte, m: Metadata, taken: bool) {
    m.opcode == op && Executable(m) && (m.instruction.PrefixCb? <==> op == 0xCB) &&
    (op != 0xCB ==> GoodCost(CyclesOf(m, taken)))
  }

  lemma LowTable(op: byte, taken: bool)
    requires op < 0x40
    ensures GoodEntry(op, LowMetadata(op), taken)
  {
    hide GoodCost, HighMetadata, LoadMetadata;
    Costs();
    var k := op % 8;
    if k == 0 {} else if k < 4 {} else if k < 7 {} else {}
  }

  lemma Costs()
    ensures GoodCost(4) && GoodCost(8) && GoodCost(12) && GoodCost(16) && GoodCost(20) && GoodCost(24)
  {
  }

  lemma LoadTable(op: byte, taken: bool)
    requires 0x40 <= op < 0x80
    ensures GoodEntry(op, LoadMetadata(op), taken)
  {
    hide LowMetadata, HighMetadata;
  }

  predicate HighEntryOk(op: byte, taken: bool)
    requires op >= 0xC0
  {
    (HighMetadata(op).None? <==> Undefined(op)) &&
    (HighMetadata(op).Some? ==> GoodEntry(op, HighMetadata(op).value, taken))
  }

  lemma HighTable0(op: byte, taken: bool)
    requires op >= 0xC0 && op % 8 == 0
    ensures GoodEntry(op, HighRow0(op), taken)
  {
    hide GoodCost;
    Costs();
  }

  lemma HighTable1(op: byte, taken: bool)
    requires op >= 0xC0 && op % 8 == 1
    ensures GoodEntry(op, HighRow1(op), taken)
  {
    hide GoodCost;
    Costs();
  }

  lemma HighTable2(op: byte, taken: bool)
    requires op >= 0xC0 && op % 8 == 2
    ensures GoodEntry(op, HighRow2(op), taken)
  {
    hide GoodCost;
    Costs();
  }

  lemma HighTable3(op: byte, taken: bool)
    requires op >= 0xC0 && op % 8 == 3
    ensures HighRow3(op).None? <==> Undefined(op)
    ensures HighRow3(op).Some? ==> GoodEntry(op, HighRow3(op).value, taken)
  {
    hide GoodCost;
    Costs();
  }

  lemma HighTable5(op: byte, taken: bool)
    requires op >= 0xC0 && op % 8 == 5
    ensures HighRow5(op).None? <==> Undefined(op)
    ensures HighRow5(op).Some? ==> GoodEntry(op, HighRow5(op).value, taken)
  {
    hide GoodCost;
    Costs();
  }

  lemma HighTable(op: byte, taken: bool)
    requires op >= 0xC0
    ensures HighEntryOk(op, taken)
  {
    hide HighRow0, HighRow1, HighRow2, HighRow3, HighRow5;
    var k := op % 8;
    if k == 0 {
      HighTable0(op, taken);
      hide GoodEntry;
    } else if k == 1 {
      HighTable1(op, taken);
      hide GoodEntry;
    } else if k == 2 {
      HighTable2(op, taken);
      hide GoodEntry;
    } else if k == 3 {
      HighTable3(op, taken);
      hide GoodEntry;
    } else if k == 5 {
      HighTable5(op, taken);
      hide GoodEntry;
    }
  }

  /** Every opcode either is one of the eleven undefined ones or has metadata of the shape the executor
      expects, and costs 4 to 24 cycles in multiples of 4 whichever way it branches. The CB prefix
      itself costs nothing: the extended opcode pays. */
  lemma TableIsComplete(op: byte, taken: bool)
    ensures MetadataFor(op).None? <==> Undefined(op)
    ensures MetadataFor(op).Some? ==> GoodEntry(op, MetadataFor(op).value, taken)
  {
    if op < 0x40 {
      LowTable(op, taken);
    } else if op < 0x80 {
      LoadTable(op, taken);
    } else if op >= 0xC0 {
      HighTable(op, taken);
    }
    hide LowMetadata, LoadMetadata, HighMetadata;
  }

  /** The same of the extended table, which has no holes. */
  lemma CbTableIsComplete(op: byte, taken: bool)
    ensures var m := CbMetadataFor(op);
      Executable(m) && GoodCost(CyclesOf(m, taken)) &&
      (m.instruction.CbRotate? || m.instruction.CbBit? || m.instruction.CbRes? || m.instruction.CbSet?)
  {
    var group := op / 64;
    if group == 0 {} else if group == 1 {} else if group == 2 {} else {}
  }
}
