/** The real instruction set meets the scheduler's contract: its cost is in the type of `Dispatch`, and
    no instruction or interrupt dispatch ticks the devices. */
module RealCpu {
  import opened Base
  import opened BusModel
  import BusMemory
  import opened CpuModel
  import opened CpuWrites
  import opened Scheduler

  lemma PpuWriteClock(b: BusState, address: word, value: byte)
    ensures BusMemory.WritePpuRegister(b, address, value).clock == b.clock
  {
    hide BusMemory.PpuStored, BusMemory.DmaByte, BusMemory.WithOam, BusMemory.Uncollected;
  }

  lemma IoClock(b: BusState, address: word, value: byte)
    requires 0xFF00 <= address < 0xFF80
    ensures BusMemory.WriteIo(b, address, value).clock == b.clock
  {
    hide BusMemory.WritePpuRegister, BusMemory.ApuStored, BusMemory.TimerStored, BusMemory.WriteSerial,
         BusMemory.JoypadLines, BusMemory.PpuSetCgb;
    PpuWriteClock(b, address, value);
  }

  lemma WriteClock(b: BusState, address: word, value: byte)
    ensures BusMemory.Write8(b, address, value).clock == b.clock
  {
    hide BusMemory.WriteIo, BusMemory.WorkCell, BusMemory.VramStored, BusMemory.OamStored,
         BusMemory.CartridgeControl, BusMemory.CartridgeStore;
    if 0xFF00 <= address < 0xFF80 {
      IoClock(b, address, value);
    }
  }

  lemma {:induction false} WriteAllClock(b: BusState, ws: seq<BusWrite>)
    ensures WriteAll(b, ws).clock == b.clock
  {
    hide BusMemory.Write8;
    if ws != [] {
      var last := ws[|ws| - 1];
      WriteAllClock(b, ws[..|ws| - 1]);
      WriteClock(WriteAll(b, ws[..|ws| - 1]), last.address, last.value);
    }
  }

  lemma BaseClock(c: CpuState, b: BusState)
    ensures DispatchBase(c, b).clock == b.clock
  {
    hide Pending, Fetch8, LowestPending, MaskOf;
  }

  lemma DispatchClock(c: CpuState, b: BusState)
    ensures Dispatch(c, b).bus.clock == b.clock
  {
    hide Dispatch, DispatchBase, DispatchWrites, WriteAll;
    DispatchIsItsWrites(c, b);
    BaseClock(c, b);
    WriteAllClock(DispatchBase(c, b), DispatchWrites(c, b));
  }

  lemma DispatchIsTimeNeutral()
    ensures TimeNeutral(Dispatch)
  {
    forall c, b ensures Dispatch(c, b).bus.clock == b.clock {
      DispatchClock(c, b);
    }
    hide Dispatch;
  }

  /** The emulator with its real CPU: for every observer total + carry advances by the cycles ticked
      (modulo 2^64) and the carry stays at most 23. */
  lemma EmulatorConservesCycles(stop: nat -> bool, e: EmulatorState, cycles: nat)
    requires e.carry <= 23
    ensures var f := StepObserved(Dispatch, stop, e, cycles);
      f.bus.clock >= e.bus.clock && f.carry <= 23 &&
      (f.total + f.carry) % CYCLE_WRAP == (e.total + e.carry + (f.bus.clock - e.bus.clock)) % CYCLE_WRAP
  {
    hide StepObserved, Dispatch, TimeNeutral;
    DispatchIsTimeNeutral();
    CyclesConserved(Dispatch, stop, e, cycles);
  }
}
