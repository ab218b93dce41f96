/** Cartridge mappers: ROM-only, MBC1, MBC3 and MBC5 bank selection, RAM gating and save data
    (core/src/cartridge/mapper). */
module MapperModel {
  import opened Base

  const ROM_BANK := 0x4000
  const RAM_BANK := 0x2000
  const RAM_START := 0xA000

  datatype Banks =
    | RomOnly
    | Mbc1(low5: int, upper2: int, mode: int)
    | Mbc3(romBank: int, ramBankOrRtc: int)
    | Mbc5(low8: int, high1: int, ramBank: int)

  datatype MapperState = MapperState(rom: seq<byte>, ram: Option<seq<byte>>, enabled: bool, banks: Banks)

  datatype SaveError = NoExternalRam | NotBatteryBackedRam | SizeMismatch(expected: nat, actual: nat)

  datatype Loaded = Loaded(mapper: MapperState, error: Option<SaveError>)

  predicate BanksInv(b: Banks) {
    match b
    case RomOnly => true
    case Mbc1(low5, upper2, mode) => 1 <= low5 < 32 && 0 <= upper2 < 4 && 0 <= mode < 2
    case Mbc3(romBank, select) => 1 <= romBank < 128 && 0 <= select < 16
    case Mbc5(low8, high1, ramBank) => 0 <= low8 < 256 && 0 <= high1 < 2 && 0 <= ramBank < 16
  }

  function ResetBanks(b: Banks): Banks {
    match b
    case RomOnly => RomOnly
    case Mbc1(_, _, _) => Mbc1(1, 0, 0)
    case Mbc3(_, _) => Mbc3(1, 0)
    case Mbc5(_, _, _) => Mbc5(1, 0, 0)
  }

  function RomBankCount(m: MapperState): nat { |m.rom| / ROM_BANK }

  /** The bank visible at 0x0000 or at 0x4000; unselectable banks are remapped to 1 on MBC1 and MBC3 only. */
  function SelectedRomBank(b: Banks, high: bool, count: int): int
    requires count > 0
  {
    match b
    case RomOnly => if high then 1 else 0
    case Mbc1(low5, upper2, mode) =>
      if high then Max((upper2 * 32 + low5) % count, 1) else if mode == 0 then 0 else (upper2 * 32) % count
    case Mbc3(romBank, _) => if high then Max(romBank % count, 1) else 0
    case Mbc5(low8, high1, _) => if high then (high1 * 256 + low8) % count else 0
  }

  function RomOffset(b: Banks, count: int, address: word): int
    requires count > 0 && address < 0x8000
  {
    SelectedRomBank(b, address >= ROM_BANK, count) * ROM_BANK + address % ROM_BANK
  }

  /** ROM-only cartridges index the image directly; the others read 0xFF without a whole bank. */
  function ReadRom(m: MapperState, address: word): byte
    requires address < 0x8000
  {
    var offset := if m.banks.RomOnly? then address
                  else if RomBankCount(m) == 0 then |m.rom|
                  else RomOffset(m.banks, RomBankCount(m), address);
    if 0 <= offset < |m.rom| then m.rom[offset] else 0xFF
  }

  /** The RAM bank that an access reaches, none while RAM is disabled or an RTC register is selected. */
  function SelectedRamBank(m: MapperState, ramLen: nat): Option<int> {
    var count := Max(ramLen / RAM_BANK, 1);
    match m.banks
    case RomOnly => Some(0)
    case Mbc1(_, upper2, mode) => if !m.enabled then None else Some(if mode == 0 then 0 else upper2 % count)
    case Mbc3(_, select) => if !m.enabled || select > 3 then None else Some(select % count)
    case Mbc5(_, _, ramBank) => if !m.enabled then None else Some(ramBank % count)
  }

  predicate RamAddress(address: word) { RAM_START <= address < 0xC000 }

  /** The index of the RAM byte that an access reaches, if it reaches one. */
  function RamCell(m: MapperState, address: word): (cell: Option<int>)
    requires RamAddress(address)
    ensures cell.Some? ==> m.ram.Some? && 0 <= cell.value < |m.ram.value|
  {
    match m.ram
    case None => None
    case Some(ram) =>
      match SelectedRamBank(m, |ram|)
      case None => None
      case Some(bank) =>
        var offset := bank * RAM_BANK + (address - RAM_START);
        if 0 <= offset < |ram| then Some(offset) else None
  }

  function ReadRam(m: MapperState, address: word): byte
    requires RamAddress(address)
  {
    match RamCell(m, address)
    case None => 0xFF
    case Some(cell) => m.ram.value[cell]
  }

  function WriteRam(m: MapperState, address: word, value: byte): MapperState
    requires RamAddress(address)
  {
    match RamCell(m, address)
    case None => m
    case Some(cell) => m.(ram := Some(m.ram.value[cell := value]))
  }

  function SelectBank(b: Banks, address: word, value: byte): Banks
    requires address < 0x8000
  {
    match b
    case RomOnly => b
    case Mbc1(_, _, _) =>
      if address < 0x2000 then b
      else if address < 0x4000 then b.(low5 := Max(value % 32, 1))
      else if address < 0x6000 then b.(upper2 := value % 4)
      else b.(mode := value % 2)
    case Mbc3(_, _) =>
      if address < 0x2000 then b
      else if address < 0x4000 then b.(romBank := Max(value % 128, 1))
      else if address < 0x6000 then b.(ramBankOrRtc := value % 16)
      else b
    case Mbc5(_, _, _) =>
      if address < 0x2000 then b
      else if address < 0x3000 then b.(low8 := value)
      else if address < 0x4000 then b.(high1 := value % 2)
      else if address < 0x6000 then b.(ramBank := value % 16)
      else b
  }

  function WriteControl(m: MapperState, address: word, value: byte): MapperState
    requires address < 0x8000
  {
    m.(enabled := if address < 0x2000 && !m.banks.RomOnly? then value % 16 == 0x0A else m.enabled,
       banks := SelectBank(m.banks, address, value))
  }

  function ResetMapper(m: MapperState): MapperState { m.(enabled := false, banks := ResetBanks(m.banks)) }

  function SaveData(m: MapperState, battery: bool): Option<seq<byte>> { if battery then m.ram else None }

  function LoadSaveData(m: MapperState, battery: bool, data: seq<byte>): Loaded {
    if !battery then Loaded(m, Some(NotBatteryBackedRam))
    else match m.ram
      case None => Loaded(m, Some(NoExternalRam))
      case Some(ram) =>
        if |ram| != |data| then Loaded(m, Some(SizeMismatch(|ram|, |data|))) else Loaded(m.(ram := Some(data)), None)
  }

  // ---------------------------------------------------------------- the class

  class Mapper {
    const rom: seq<byte>
    var externalRam: Option<seq<byte>>
    var ramEnabled: bool
    var banks: Banks

    function State(): MapperState
      reads this
    {
      MapperState(rom, externalRam, ramEnabled, banks)
    }

    constructor (rom: seq<byte>, externalRam: Option<seq<byte>>, kind: Banks)
      ensures State() == MapperState(rom, externalRam, false, ResetBanks(kind)) && BanksInv(banks)
    {
      this.rom, this.externalRam := rom, externalRam;
      ramEnabled, banks := false, ResetBanks(kind);
    }

    method Control(address: word, value: byte)
      requires address < 0x8000
      modifies this`ramEnabled, this`banks
      ensures State() == WriteControl(old(State()), address, value)
      ensures old(BanksInv(banks)) ==> BanksInv(banks)
    {
      if address < 0x2000 {
        if !banks.RomOnly? {
          ramEnabled := value % 16 == 0x0A;
        }
        return;
      }
      match banks {
        case RomOnly =>
        case Mbc1(low5, upper2, mode) =>
          if address < 0x4000 {
            var selected := value % 32;
            banks := Mbc1(if selected == 0 then 1 else selected, upper2, mode);
          } else if address < 0x6000 {
            banks := Mbc1(low5, value % 4, mode);
          } else {
            banks := Mbc1(low5, upper2, value % 2);
          }
        case Mbc3(romBank, select) =>
          if address < 0x4000 {
            var selected := value % 128;
            banks := Mbc3(if selected == 0 then 1 else selected, select);
          } else if address < 0x6000 {
            banks := Mbc3(romBank, value % 16);
          }
        case Mbc5(low8, high1, ramBank) =>
          if address < 0x3000 {
            banks := Mbc5(value, high1, ramBank);
          } else if address < 0x4000 {
            banks := Mbc5(low8, value % 2, ramBank);
          } else if address < 0x6000 {
            banks := Mbc5(low8, high1, value % 16);
          }
      }
    }

    method StoreRam(address: word, value: byte)
      requires RamAddress(address)
      modifies this`externalRam
      ensures State() == WriteRam(old(State()), address, value)
    {
      if externalRam.Some? {
        var ram := externalRam.value;
        var bank := SelectedRamBank(State(), |ram|);
        if bank.Some? {
          var offset := bank.value * RAM_BANK + (address - RAM_START);
          if 0 <= offset < |ram| {
            externalRam := Some(ram[offset := value]);
          }
        }
      }
    }

    method Reset()
      modifies this`ramEnabled, this`banks
      ensures State() == ResetMapper(old(State())) && BanksInv(banks)
    {
      ramEnabled, banks := false, ResetBanks(banks);
    }
  }

  // ------------------------------------------------ refinement of flat memory

  datatype Access = Select(address: word, value: byte) | Store(ramAddress: word, ramValue: byte) | Reset

  predicate GoodAccess(e: Access) {
    match e
    case Select(address, _) => address < 0x8000
    case Store(address, _) => RamAddress(address)
    case Reset => true
  }

  function Perform(m: MapperState, e: Access): MapperState
    requires GoodAccess(e)
  {
    match e
    case Select(address, value) => WriteControl(m, address, value)
    case Store(address, value) => WriteRam(m, address, value)
    case Reset => ResetMapper(m)
  }

  function After(m: MapperState, es: seq<Access>): MapperState
    requires forall e | e in es :: GoodAccess(e)
  {
    if es == [] then m else Perform(After(m, es[..|es| - 1]), es[|es| - 1])
  }

  /** The last value stored to a RAM cell by an access sequence, or what it held before. */
  function LastStored(m: MapperState, es: seq<Access>, cell: nat): byte
    requires forall e | e in es :: GoodAccess(e)
    requires m.ram.Some? && cell < |m.ram.value|
  {
    if es == [] then m.ram.value[cell]
    else
      var before, e := es[..|es| - 1], es[|es| - 1];
      assert GoodAccess(e);
      if e.Store? && RamCell(After(m, before), e.ramAddress) == Some(cell) then e.ramValue
      else LastStored(m, before, cell)
  }

  /** Over every access sequence the mapper is a flat memory: the ROM never changes, disabling and
      resetting lose nothing, and every cell holds the last value stored to it. */
  lemma {:induction false} RefinesFlatMemory(m: MapperState, es: seq<Access>)
    requires forall e | e in es :: GoodAccess(e)
    requires m.ram.Some?
    ensures var n := After(m, es);
      n.rom == m.rom && n.ram.Some? && |n.ram.value| == |m.ram.value| &&
      forall cell: nat | cell < |m.ram.value| :: n.ram.value[cell] == LastStored(m, es, cell)
  {
    hide SelectedRamBank, SelectBank, ResetBanks;
    if es != [] {
      RefinesFlatMemory(m, es[..|es| - 1]);
    }
  }

  /** The ROM never changes, and a cartridge without RAM stays without. */
  lemma {:induction false} RomNeverChanges(m: MapperState, es: seq<Access>)
    requires forall e | e in es :: GoodAccess(e)
    ensures After(m, es).rom == m.rom && (m.ram.None? ==> After(m, es).ram.None?)
  {
    hide SelectedRamBank, SelectBank, ResetBanks;
    if es != [] {
      RomNeverChanges(m, es[..|es| - 1]);
    }
  }

  /** A read is the last store to the same normalized bank and offset, or 0xFF when gated. */
  lemma ReadsLastStore(m: MapperState, es: seq<Access>, address: word)
    requires forall e | e in es :: GoodAccess(e)
    requires m.ram.Some? && RamAddress(address)
    ensures var n := After(m, es);
      RamCell(n, address).Some? ==>
        RamCell(n, address).value < |m.ram.value| && ReadRam(n, address) == LastStored(m, es, RamCell(n, address).value)
    ensures RamCell(After(m, es), address).None? ==> ReadRam(After(m, es), address) == 0xFF
  {
    hide SelectedRamBank, After;
    RefinesFlatMemory(m, es);
  }

  lemma ModRange(x: int, count: int)
    requires count > 0
    ensures 0 <= x % count < count
  {
  }

  /** With RAM a positive multiple of 0x2000 every ungated access is in range, and two accesses meet
      in a cell exactly when they agree on the normalized bank and the address. */
  lemma RamCellIsBankAndOffset(m: MapperState, n: MapperState, a: word, b: word)
    requires BanksInv(m.banks) && BanksInv(n.banks) && RamAddress(a) && RamAddress(b)
    requires m.ram.Some? && n.ram.Some? && |m.ram.value| == |n.ram.value| > 0 && |m.ram.value| % RAM_BANK == 0
    ensures RamCell(m, a).Some? <==> SelectedRamBank(m, |m.ram.value|).Some?
    ensures RamCell(m, a).Some? && RamCell(n, b).Some? ==>
      (RamCell(m, a) == RamCell(n, b) <==>
       SelectedRamBank(m, |m.ram.value|) == SelectedRamBank(n, |n.ram.value|) && a == b)
  {
    BankInRange(m, |m.ram.value|);
    BankInRange(n, |m.ram.value|);
    hide SelectedRamBank, BanksInv;
  }

  lemma BankInRange(m: MapperState, ramLen: nat)
    requires BanksInv(m.banks) && ramLen > 0 && ramLen % RAM_BANK == 0
    ensures SelectedRamBank(m, ramLen).Some? ==> 0 <= SelectedRamBank(m, ramLen).value < ramLen / RAM_BANK
  {
    var count := Max(ramLen / RAM_BANK, 1);
    assert count == ramLen / RAM_BANK;
    match m.banks
    case RomOnly =>
    case Mbc1(_, upper2, _) => ModRange(upper2, count);
    case Mbc3(_, select) => ModRange(select, count);
    case Mbc5(_, _, ramBank) => ModRange(ramBank, count);
  }

  /** With at least two ROM banks every ROM read is of the selected bank, inside the image. */
  lemma RomReadInRange(m: MapperState, address: word)
    requires BanksInv(m.banks) && address < 0x8000 && |m.rom| >= 0x8000
    ensures var count := RomBankCount(m);
      count >= 2 && 0 <= SelectedRomBank(m.banks, address >= ROM_BANK, count) < count &&
      RomOffset(m.banks, count, address) < |m.rom| && ReadRom(m, address) == m.rom[RomOffset(m.banks, count, address)]
  {
    var count := RomBankCount(m);
    match m.banks
    case RomOnly =>
    case Mbc1(low5, upper2, _) =>
      ModRange(upper2 * 32 + low5, count);
      ModRange(upper2 * 32, count);
    case Mbc3(romBank, _) => ModRange(romBank, count);
    case Mbc5(low8, high1, _) => ModRange(high1 * 256 + low8, count);
  }

  /** Saving a battery-backed cartridge and loading it into one of the same RAM size restores every
      RAM byte; any other load reports its error and changes nothing. */
  lemma SaveLoadRoundTrip(m: MapperState, n: MapperState)
    requires m.ram.Some?
    ensures var data := SaveData(m, true).value;
      var loaded := LoadSaveData(n, true, data);
      (n.ram.Some? && |n.ram.value| == |m.ram.value| <==> loaded.error.None?) &&
      (loaded.error.None? ==> SaveData(loaded.mapper, true) == SaveData(m, true) && loaded.mapper.banks == n.banks) &&
      (loaded.error.Some? ==> loaded.mapper == n)
  {
  }
}
