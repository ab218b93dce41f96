/** The bus as the source runs it: the three tick loops and the OAM DMA copy loop. */
module BusMachine {
  import opened Base
  import opened BusModel
  import opened BusMemory
  import PpuDevice

  class Bus {
    var timer: Timer
    var ppu: Ppu
    var apu: Apu
    var interruptFlag: bv8
    var interruptEnable: bv8
    var oamDmaCyclesRemaining: DmaCycles
    var cgbDoubleSpeed: bool
    var mem: Memory
    var clock: nat  // in the model only

    function State(): BusState
      reads this
    {
      BusState(timer, ppu, apu, interruptFlag, interruptEnable, oamDmaCyclesRemaining, cgbDoubleSpeed, clock, mem)
    }

    constructor (b: BusState)
      ensures State() == b
    {
      timer, ppu, apu := b.timer, b.ppu, b.apu;
      interruptFlag, interruptEnable := b.iflag, b.ie;
      oamDmaCyclesRemaining, cgbDoubleSpeed, mem, clock := b.dma, b.doubleSpeed, b.mem, b.clock;
    }

    method CountDma()
      modifies this`oamDmaCyclesRemaining
      ensures State() == StepDma(old(State()))
    {
      if oamDmaCyclesRemaining != 0 {
        oamDmaCyclesRemaining := oamDmaCyclesRemaining - 1;
      }
    }

    method TickTimer()
      modifies this`timer, this`interruptFlag
      ensures State() == StepTimer(old(State()))
    {
      hide TimerMask, TimerAfter;
      interruptFlag := interruptFlag | TimerMask(timer);
      timer := TimerAfter(timer, 1);
    }

    method TickPpu()
      modifies this`ppu, this`interruptFlag
      ensures State() == StepPpu(old(State()))
    {
      hide PpuDevice.Mask, PpuAfter;
      interruptFlag := interruptFlag | PpuDevice.Mask(ppu);
      ppu := PpuAfter(ppu, 1);
    }

    method TickApu()
      modifies this`apu
      ensures State() == StepApu(old(State()))
    {
      hide ApuAfter;
      apu := ApuAfter(apu, 1);
    }

    method TickSynchronizedComponents(cycles: nat)
      modifies this
      ensures State() == Run(SyncCycle, old(State()), cycles)
    {
      hide StepDma, StepTimer, StepPpu, StepApu;
      for i := 0 to cycles
        invariant State() == Run(SyncCycle, old(State()), i)
      {
        CountDma();
        TickPpu();
        TickTimer();
        TickApu();
        clock := clock + 1;
      }
    }

    method TickCpuClockCycles(cycles: nat)
      modifies this
      ensures State() == Run(CpuCycle, old(State()), cycles)
    {
      hide StepDma, StepTimer;
      for i := 0 to cycles
        invariant State() == Run(CpuCycle, old(State()), i)
      {
        CountDma();
        TickTimer();
        clock := clock + 1;
      }
    }

    method TickVideoAudioCycles(cycles: nat)
      modifies this
      ensures State() == Run(VideoCycle, old(State()), cycles)
    {
      hide StepPpu, StepApu;
      for i := 0 to cycles
        invariant State() == Run(VideoCycle, old(State()), i)
      {
        TickPpu();
        TickApu();
      }
    }

    /** The tick of a CPU step: the coded loops, and the independent advance of all devices. */
    method Tick(cpuCycles: nat)
      modifies this
      ensures State() == TickForCpuCycles(old(State()), cpuCycles)
      ensures State() == Advance(old(State()), cpuCycles, cpuCycles / SpeedDivisor(old(State())))
    {
      ghost var was := State();
      hide Run, Advance;
      var videoCycles := cpuCycles / (if cgbDoubleSpeed then 2 else 1);
      if cpuCycles == videoCycles {
        TickSynchronizedComponents(cpuCycles);
      } else {
        TickCpuClockCycles(cpuCycles);
        TickVideoAudioCycles(videoCycles);
      }
      TickIsAdvance(was, cpuCycles);
    }

    /** The copy loop: byte by byte from the masked page, then the access block is armed. */
    method CopyOam(value: byte)
      modifies this`ppu, this`oamDmaCyclesRemaining
      ensures State() == StartOamDma(old(State()), value)
    {
      ghost var was := State();
      hide DmaByte, PpuDevice.PpuInv;
      var i := 0;
      while i < 0xA0
        invariant 0 <= i <= 0xA0
        invariant State() == was.(ppu := WithOam(was.ppu, ppu.video.oam))
        invariant forall k | 0 <= k < i :: ppu.video.oam[k] == DmaByte(was, value, k)
      {
        ghost var oam := ppu.video.oam;
        SourceUnaffected(was, oam, value, i);
        var fetched := DmaByte(State(), value, i);
        ppu := WithOam(ppu, ppu.video.oam[i := fetched]);
        i := i + 1;
      }
      oamDmaCyclesRemaining := DMA_BLOCK_CYCLES;
      assert ppu.video.oam == seq(0xA0, k requires 0 <= k < 0xA0 => DmaByte(was, value, k));
    }

    // ------------------------------------------------------------- CPU accesses

    method WritePpu(address: word, value: byte)
      modifies this`ppu, this`oamDmaCyclesRemaining, this`interruptFlag
      ensures State() == WritePpuRegister(old(State()), address, value)
    {
      hide PpuStored, StartOamDma, CollectStat;
      ppu := PpuStored(ppu, address, value);
      if address == 0xFF46 {
        CopyOam(value);
      }
      CollectPendingStat();
    }

    method CollectPendingStat()
      modifies this`ppu, this`interruptFlag
      ensures State() == CollectStat(old(State()))
    {
      hide Uncollected;
      if ppu.statPending {
        interruptFlag := interruptFlag | 0x02;
      }
      ppu := Uncollected(ppu);
    }

    method WriteBootRomSwitch(value: byte)
      modifies this
      ensures State() == WriteBootRomDisable(old(State()), value)
    {
      hide PpuSetCgb;
      mem := mem.(bootRomDisable := value);
      if mem.bootRomEnabled && value != 0 {
        mem := mem.(bootRomEnabled := false);
        if mem.cgbHardware {
          mem := mem.(key0Locked := true);
          if mem.key0Dmg {
            mem := mem.(cgbMode := false, prepareSwitch := false, wramBank := 0);
            cgbDoubleSpeed := false;
            ppu := PpuSetCgb(ppu, false);
          }
        }
      }
    }

    method WriteJoypadRows(value: byte)
      modifies this`mem, this`interruptFlag
      ensures State() == WriteJoypad(old(State()), value)
    {
      hide JoypadLines;
      var previous := JoypadLines(mem.joypad);
      mem := mem.(joypad := mem.joypad.(select := (value as bv8) & 0x30));
      if previous & !JoypadLines(mem.joypad) & 0x0F != 0 {
        interruptFlag := interruptFlag | 0x10;
      }
    }

    method WriteModeRegister(address: word, value: byte)
      modifies this`mem
      ensures mem == ModeStored(old(mem), address, value)
    {
      if address == 0xFF4C {
        if mem.cgbHardware && !mem.key0Locked {
          mem := mem.(key0Dmg := Bit(value, 4));
        }
      } else if address == 0xFF4D {
        if mem.cgbMode {
          mem := mem.(prepareSwitch := value % 2 == 1);
        }
      } else if mem.cgbMode {
        mem := mem.(wramBank := value % 8);
      }
    }

    method WriteIoRegister(address: word, value: byte)
      requires 0xFF00 <= address < 0xFF80
      modifies this
      ensures State() == WriteIo(old(State()), address, value)
    {
      hide WriteJoypad, SerialStored, GenericStored, ModeStored, WritePpuRegister, WriteBootRomDisable, ApuStored,
           TimerStored;
      if address == 0xFF50 {
        WriteBootRomSwitch(value);
      } else if address == 0xFF4C || address == 0xFF4D || address == 0xFF70 {
        WriteModeRegister(address, value);
      } else if address == 0xFF00 {
        WriteJoypadRows(value);
      } else if ApuRegister(address) {
        apu := ApuStored(apu, address, value);
      } else if address == 0xFF01 || address == 0xFF02 {
        mem := SerialStored(mem, address, value);
      } else if 0xFF04 <= address <= 0xFF07 {
        timer := TimerStored(timer, address, value);
      } else if PpuRegister(address) {
        WritePpu(address, value);
      } else if address == 0xFF0F {
        interruptFlag := value as bv8;
      } else {
        mem := GenericStored(mem, address, value);
      }
    }

    method Write(address: word, value: byte)
      modifies this
      ensures State() == Write8(old(State()), address, value)
    {
      hide WriteIo, CartridgeControl, CartridgeStore, VramStored, OamStored, WorkStored;
      if oamDmaCyclesRemaining != 0 && !(0xFF80 <= address < 0xFFFF) {
        return;
      }
      match RouteOf(address)
      case Rom => mem := mem.(cartridge := CartridgeControl(mem.cartridge, address, value));
      case Vram => ppu := VramStored(ppu, address, value);
      case ExternalRam => mem := mem.(cartridge := CartridgeStore(mem.cartridge, address, value));
      case WorkRam => mem := WorkStored(mem, address, value);
      case EchoRam => mem := WorkStored(mem, address, value);
      case OamRoute => ppu := OamStored(ppu, address, value);
      case Unusable =>
      case Io => WriteIoRegister(address, value);
      case HighRam => mem := mem.(hram := mem.hram[address - 0xFF80 := value]);
      case InterruptEnable => interruptEnable := value as bv8;
    }
  }
}
