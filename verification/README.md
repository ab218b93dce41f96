# Latchboy core: verified model

Latchboy is a Game Boy (DMG/CGB) emulator. This project models the deterministic machines of its `core`
crate, the scheduler that drives them, the frame polling of the desktop loop and the loop compressor of the
trace tool, and proves what they keep over whole runs. The centre is a set of equivalences between a fast or
chunked execution and a simple one.

## What is modelled

| files | subject |
|---|---|
| Base.dfy | machine integers, runs of a clocked device, counting and OR-accumulating over a run |
| Timer.dfy | the timer: falling-edge detector, delayed reload, closed form of all its interrupts |
| Ppu.dfy, PpuFrames.dfy, PpuLyWrites.dfy | the dot/line/mode automaton, the latched STAT line, frame theorems, the exact interrupt hint, LY writes |
| Sprites.dfy | sprite selection over OAM, tile addressing, background fetches |
| Apu.dfy, ApuRange.dfy, ApuMachine.dfy | frame sequencer, resampler, mixer, register writes, output queue |
| Mapper.dfy | ROM-only, MBC1, MBC3 and MBC5 cartridges |
| Bus.dfy, BusMemory.dfy, BusMachine.dfy, BusCartridge.dfy, DmaPages.dfy | the tick loops, routing, work RAM banks and echo, I/O registers, the cartridge behind the bus, OAM DMA and the pages it copies |
| Opcodes.dfy, Alu.dfy, Cpu.dfy, CpuControl.dfy, CpuFlow.dfy, CpuWrites.dfy, RealCpu.dfy | opcode tables, arithmetic, the executor, interrupt control, where a step leaves the PC and what it fetches, its bus writes |
| Scheduler.dfy, SchedulerRuns.dfy | the stepping loop with overshoot carry, HALT fast-forward and stopping observer; lists of requests |
| FramePolls.dfy, RealFrames.dfy | the desktop loop's chunks and frame polls, and their theorem for the real CPU |
| StartUp.dfy | the states that the constructors without boot ROM leave, and short programs run from them |
| Trace.dfy, TraceSpans.dfy, TraceRuns.dfy | the online loop compressor of the trace tool, which windows its printed cycle span is right for, and two runs that it is wrong for |

Each device is a datatype of its state with pure one-step functions, and a class whose imperative methods
are proved equal to those functions; the theorems are about the functions and so about the methods. A
device run is `Run(step, state, n)`. Rendered lines are a log of `Scanline(line, LCDC, video memory)`
entries in the PPU state, and `frames` counts the VBlank pulses; both are history that the source does not
keep. `clock` in the bus counts CPU clock cycles and serves only to state conservation.

The scheduler takes the dispatch of a running CPU as a parameter: any deterministic function that costs 4 to
24 cycles in multiples of 4. `RealCpu` shows that the modelled CPU is one, so the scheduler's theorems hold of
the real decoder. An observer is the function that gives its `should_stop` answer after each event.

## Where the code and its promises differ

* `core/tests/headless_harness.rs` promises that splitting a step into several calls changes nothing. That
  fails in one family of states: in double speed, when the CPU is halted with nothing that can wake it, the
  cycle carry is such that one fast-forward covers 2^32 cycles, and the first call ends inside it. A tick of
  2^32 cycles is cut into 2^32 - 1 and 1 cycles, and halving each loses one video cycle. `BatchingInvisible`
  and `FastRefinesSlow` are if-and-only-if statements with exactly that condition over all 32-bit requests;
  `BatchingFails` gives a seven-byte program that a CGB emulator runs into that family from start-up.
* `docs/architecture-decisions.md` promises that a pulse comes after all visible scanlines were composited. A
  write to LY restarts the raster on line 0 but keeps the dot, so one made at dot 247 or later of a VBlank
  line skips the end of mode 3 on line 0: the next pulse announces a frame whose line 0 was not drawn
  (`LyWriteLosesLineZero`). `LyWriteFrameIff` shows that for every VBlank state the frame is whole exactly
  if the dot is below 247, and `PulsesAnnounceWholeFrames` that no other access breaks the promise over any
  run, a late LY write spoiling its own frame only. LY writes in VBlank also bring pulses closer together
  (`LyWriteBreaksSpacing`), so the theorem that no pulse is lost between polls is about programs that do not
  write LY in VBlank or toggle the LCD.
* The OAM DMA source page is masked with 0xDF, which clears bit 5 of every page and not only of pages E0 to FF
  (`core/src/bus.rs:527`). A write copies the page it names exactly if bit 5 is clear or the page is E0 to FD
  (`CopiesNamedPageIff`); the snapshot theorem is about the masked page.
* The trace tool collapses steps of equal signature and prints for the loop a cycle span that multiplies the
  length of the first occurrence (`trace_rom.rs:277-281`). A signature does not always determine what a step
  costs. `Ambiguous` is the exact exception, a test of the signature alone. Without an opcode (the step
  started halted) it is everything but a jump with one operand, because an idle step and the instruction
  that wakes the CPU look alike. With an opcode it is a conditional jump, call or return that ends where
  both its outcomes can end: behind its last byte, or one byte before that under the HALT bug.
  `WindowPrintsRightIff` shows that a window prints right for every continuation whose steps cost what the
  opcode table says exactly if none of its steps is ambiguous; `StepCanCost` and `SignatureDeterminesCost`
  tie this to the CPU, and `RealLoopPrintsRight` to its traces. Two programs run from start-up print wrong:
  a conditional jump to its own successor (`ConditionalJumpMisprints`) and a halted CPU that wakes into a
  RET (`WakingReturnMisprints`).
* `ApuRange` shows that the saturating additions and the final clamp of the mixer never act.

## Model

| member | source | states |
|---|---|---|
| TimerDevice.Timer.Step | core/src/timer.rs:55-61 | the in-place cycle (reload first, then divider and falling edge) is the specified step, raises only the timer bit, and keeps a pending reload at TIMA = 0 |
| TimerDevice.Timer.Write | core/src/timer.rs:34-53 | DIV and TAC writes can themselves make a falling edge; a TIMA write cancels a pending reload |
| TimerDevice.PendingReloadMeansZero | core/src/timer.rs:88-115 | over every interleaving of cycles and register writes a pending reload implies TIMA = 0 |
| TimerDevice.SelectedBitIsShift | core/src/timer.rs:67-80 | the period view of the selected divider bit is the shift-and-mask of the code |
| TimerDevice.FallingEdgeCount | core/src/timer.rs:55-86 | n write-free cycles make exactly floor((div+n)/P) - floor(div/P) falling edges |
| TimerDevice.CountingPhase | core/src/timer.rs:88-100 | until the overflow TIMA is its start value plus the number of edges and nothing is requested |
| TimerDevice.FirstInterrupt | core/src/timer.rs:88-115 | the first interrupt comes exactly four cycles after the overflow, with TIMA = TMA |
| TimerDevice.AllInterruptTimes | core/src/timer.rs:55-116 | the number of interrupts in any n cycles from any state: a pending reload after its delay, then one at a known time, then one every (256 - TMA) * P cycles, forever |
| TimerDevice.InterruptTimes | core/src/timer.rs:55-116 | the same closed form for a running timer without a pending reload |
| TimerDevice.ReloadPeriodicForever | core/src/timer.rs:55-116 | k reload periods after an interrupt the timer is in the reloaded state again, having raised exactly k more |
| TimerDevice.TimerHintExact | core/src/timer.rs:63-65 | the wake-up hint holds if and only if some number of cycles raises the interrupt |
| PpuDevice.Ppu.Step | core/src/ppu.rs:1138-1188 | the in-place dot (LCD off, start-up delay, position, render, VBlank, STAT line) is the specified step and keeps the invariant |
| PpuDevice.Ppu.UpdateStatIrqLine | core/src/ppu.rs:506-520 | a rise of the condition requests at once when there is a flag to set and is left pending otherwise; a fall only unlatches |
| PpuDevice.Ppu.Write | core/src/ppu.rs:692-784 | every register write, LCD toggles, the STAT write glitch and LY included, has its specified effect and keeps the invariant |
| PpuDevice.StatLineConsistent | core/src/ppu.rs:479-520 | over every run of dots and writes the latched line equals its condition, and with the LCD on the coincidence bit equals LY = LYC with LY < 154 |
| PpuDevice.HintSound | core/src/ppu.rs:548-570 | if the hint says no, no number of dots requests an interrupt enabled in IE, and the hint stays no |
| PpuFrames.PpuHintExact | core/src/ppu.rs:548-570 | from every state with the invariant the hint holds if and only if some number of dots requests an enabled interrupt |
| PpuFrames.FrameTheorem | core/src/ppu.rs:1138-1188 | n dots move the position by n modulo 70224, the mode is a function of the position, the pulses are the VBlank crossings and the rendered lines are exactly those passed, in order |
| PpuFrames.FrameBetweenPulses | core/src/ppu.rs:1166-1183 | between consecutive pulses, 70224 dots apart, lines 0 to 143 are each rendered exactly once in order |
| PpuFrames.FirstFrameComplete | docs/architecture-decisions.md:109-110 | the first frame after switching the LCD on is complete too |
| PpuFrames.RasterRun | core/src/ppu.rs:1138-1188 | a raster clock, pulses times 70224 less the dots to the next pulse, advances by one a dot, start-up delay included |
| PpuFrames.QuietWrite | core/src/ppu.rs:692-784 | every register write but LY and LCD toggles leaves the raster, the pulse count and the pulse flag alone |
| PpuFrames.VisibleLyWrite | core/src/ppu.rs:729-735 | an LY write on a visible line, or with the LCD off, only puts the next pulse off |
| PpuFrames.AtMostOnePulse | core/src/ppu.rs:1180-1183 | a later state whose raster clock is less than a frame ahead has at most one pulse more |
| PpuLyWrites.LyWriteFrameIff | core/src/ppu.rs:729-735 | after an LY write at any VBlank position the next pulse comes at a known dot, and its frame has lines 0 to 143, each once, in order, if and only if the dot was below 247; otherwise it has lines 1 to 143 |
| PpuLyWrites.LyWriteLosesLineZero | core/src/ppu.rs:729-735 | a reachable failing input: a write 300 dots into the first VBlank |
| PpuLyWrites.PulsesAnnounceWholeFrames | docs/architecture-decisions.md:109-110 | over every run from power-on, with all register and memory writes, a pulse announces a frame whose lines 0 to 143 were all drawn since the last pulse, unless since that pulse LY was written at dot 247 or later of a VBlank line |
| PpuLyWrites.LyWriteBreaksSpacing | core/src/ppu.rs:729-735 | an LY write k dots into VBlank brings the next pulse exactly 65664 + (k / 456) * 456 dots after the last one, at most 69768 |
| ApuDevice.ClockTheorem | core/src/apu.rs:492-529 | n cycles make exactly floor((phase + 48000 n) / 4194304) samples and floor((counter + n) / 8192) sequencer steps, and the queue keeps the newest 4096 |
| ApuDevice.SegmentsAreRun | core/src/apu.rs:492-514 | the tick in segments cut at the sequencer boundaries is its single cycles |
| ApuDevice.TickIsAdditive | core/src/apu.rs:492-529 | ticking in pieces, each cut into its own segments, is ticking once, in the full state |
| ApuDevice.SegmentIsRun | core/src/apu.rs:497-511 | a segment up to the next sequencer boundary is its single cycles one after the other, clamped queue included |
| ApuMachine.Apu.Tick | core/src/apu.rs:492-514 | the segmented loop is that many single cycles, keeps the range invariant and returns the boundaries crossed |
| ApuMachine.Apu.EmitSamples | core/src/apu.rs:516-529 | the resampler loop appends exactly the samples due and keeps the newest ones |
| ApuDevice.SweepEveryPeriod | core/src/apu.rs:531-553 | over any number of steps that the sweep acts on, channel 1 is retuned exactly once every period, 0 standing for 8, and nothing else moves |
| ApuDevice.SweepFrame | core/src/apu.rs:531-553 | the sweep acts on sequencer steps 2 and 6 only, touches only the frequency and tick of channel 1, and keeps a changed frequency in 1..20000 |
| ApuMachine.Apu.NextMixedSample | core/src/apu.rs:555-573 | one sample advances every enabled channel and mixes both sides |
| ApuMachine.FoldWave | core/src/apu.rs:822-844 | the phase loop of channel 3 is a remainder and a quotient of wave steps |
| ApuMachine.FoldNoise | core/src/apu.rs:846-863 | the noise loop takes one LFSR step per whole period |
| ApuMachine.Apu.WriteRegister | core/src/apu.rs:667-741 | every register write has its specified effect, keeps the range invariant, and is refused only by the holes and foreign addresses |
| ApuMachine.Apu.LoadStartupRegister | core/src/apu.rs:608-643 | a start-up load stores without the side effects of a write and keeps the range invariant |
| ApuRange.PowerOffMeans | core/src/apu.rs:756-786 | after NR52 is cleared registers read as zero and samples are silent, while the wave table, the sequencer clock and the queue are untouched |
| ApuRange.OffIsSilent | core/src/apu.rs:516-558 | over every run of cycles and writes without a power-on, a powered-off APU keeps its registers and adds only silence, exactly floor((phase + 48000 n) / 4194304) samples for the n cycles of the run |
| ApuMachine.Apu.PullOutputSamples | core/src/apu.rs:976-990 | exactly the requested number: the oldest of the kept samples, then silence; old samples are dropped only above the latency target |
| ApuRange.RangeInvariant | core/src/apu.rs:394-434 | over every run of cycles and MMIO writes from a state in range frequencies stay in 1..20000, phases and table indices in range, the LFSR nonzero and 15-bit, the nibble table the mirror of the wave bytes |
| ApuRange.RangeFromStartup | core/src/apu.rs:608-643 | so also from the constructor's state with any start-up register values loaded |
| ApuRange.MixIsExact | core/src/apu.rs:575-606 | for channel samples in range no saturating add and no clamp of the mixer acts |
| ApuRange.SampleBound | core/src/apu.rs:555-606 | every mixed sample is within 2700 of zero |
| Sprites.ScanLine | core/src/ppu.rs:879-894 | the first loop finds exactly the first ten sprites on the line, in OAM order |
| Sprites.PickCandidate | core/src/ppu.rs:896-969 | the second loop finds the opaque sprite that beats all others: lowest X then OAM index on DMG, lowest OAM index on CGB |
| Sprites.SpritePixel | core/src/ppu.rs:872-979 | the pixel is the one of the winning sprite behind the background mask, none without a candidate or with sprites disabled |
| Sprites.WinnerUnique | core/src/ppu.rs:940-967 | at most one sprite wins, so the specification determines the pixel |
| Sprites.TileRow | core/src/ppu.rs:912-935 | both bytes of a sprite's tile row lie in VRAM for all OAM contents and sizes |
| Sprites.TileDataRow | core/src/ppu.rs:460-469 | both bytes of a background tile row lie in the tile area for signed and unsigned tile numbers |
| Sprites.Background | core/src/ppu.rs:798-862 | every VRAM index of a background or window fetch is in range for all contents and registers |
| Alu.Accumulator.AdcToA | core/src/cpu.rs:978-994 | result plus 256 times the carry is the exact sum, with all flags as specified |
| Alu.Accumulator.SbcFromA | core/src/cpu.rs:996-1012 | result less 256 times the borrow is the exact difference, with all flags as specified |
| Alu.Accumulator.DecimalAdjust | core/src/cpu.rs:1103-1130 | the adjustment in place is the specified one |
| Alu.AdcChainAdds | core/src/cpu.rs:978-994 | chained over operands of any length, ADC adds the integers and the final carry is the overflow |
| Alu.SbcChainSubtracts | core/src/cpu.rs:996-1012 | chained over operands of any length, SBC subtracts the integers and the final carry is the borrow |
| Alu.DecimalChainAdds | core/src/cpu.rs:1103-1130 | with DAA after each byte the same adds packed decimals of any length |
| Alu.DecimalChainSubtracts | core/src/cpu.rs:1103-1130 | with DAA after each byte the same subtracts packed decimals of any length |
| MapperModel.Mapper.Control | core/src/cartridge/mapper/mbc1.rs:66-77 | control writes change only the bank registers and the RAM gate, in range |
| MapperModel.Mapper.StoreRam | core/src/cartridge/mapper/mbc3.rs:64-75 | a store changes at most the one byte its bank selects, none while gated, RTC-selected or out of range |
| MapperModel.Mapper.Reset | core/src/cartridge/mapper/mbc5.rs:76-80 | reset restores the bank registers and loses no RAM |
| MapperModel.RefinesFlatMemory | core/src/cartridge/mapper/mod.rs:55-94 | over every access sequence the ROM never changes and each RAM cell holds the last value stored to it |
| MapperModel.ReadsLastStore | core/src/cartridge/mapper/mod.rs:63-86 | an ungated RAM read is the last store to its cell, a gated one is FF |
| BusCartridge.ExternalRamRefinesFlatMemory | core/src/bus.rs:256-293 | over every run of ticks, CPU stores at any address (bank and gate selections and DMA among them) and speed switches, a CPU read of external RAM is the last CPU store to the cell that the mapper now selects, and FF where it selects none or DMA blocks it |
| BusCartridge.RomIsFixed | core/src/bus.rs:337-350 | over the same runs a CPU read of ROM is the byte of the original image that the bank registers now select, unless the boot ROM covers it or DMA blocks it |
| MapperModel.RamCellIsBankAndOffset | core/src/cartridge/mapper/mod.rs:122-124 | with RAM a multiple of 0x2000 every ungated access is in range and two accesses meet exactly when bank and address agree |
| MapperModel.RomReadInRange | core/src/cartridge/mapper/mbc1.rs:27-55 | with ROM of at least 0x8000 every ROM read is of the selected bank, inside the image |
| MapperModel.SaveLoadRoundTrip | core/src/cartridge/mapper/mod.rs:126-139 | loading saved data restores every RAM byte exactly when the sizes agree; a failed load changes nothing |
| BusModel.DeviceOrderIrrelevant | core/src/bus.rs:567-619 | CPU-clock-then-video order, the reverse and the synchronized loop all advance the devices independently |
| BusModel.TickSplits | core/src/bus.rs:563-565 | ticking in two pieces equals ticking once at normal speed, and in double speed when a piece is even |
| BusModel.SplitLosesVideoCycleIff | core/src/bus.rs:563-565 | two pieces deliver all video cycles unless, in double speed, both are odd, and only then not |
| BusMachine.Bus.TickSynchronizedComponents | core/src/bus.rs:576-593 | the one-clock loop is that many synchronized cycles |
| BusMachine.Bus.TickCpuClockCycles | core/src/bus.rs:595-605 | the CPU-clock loop is that many timer and DMA cycles |
| BusMachine.Bus.TickVideoAudioCycles | core/src/bus.rs:607-619 | the video loop is that many PPU and APU cycles |
| BusMachine.Bus.Tick | core/src/bus.rs:563-574 | the coded choice of loops is the independent advance of all devices |
| BusMachine.Bus.CopyOam | core/src/bus.rs:526-535 | the byte-by-byte copy leaves in OAM what the masked page held before it, although it writes while it reads |
| BusMachine.Bus.Write | core/src/bus.rs:256-264 | a CPU write reaches exactly the routed device, and nothing while DMA blocks it |
| BusMachine.Bus.WriteIoRegister | core/src/bus.rs:379-410 | I/O routing, the joypad edge, the DMA trigger and the collection of a pending STAT edge |
| BusMemory.WorkCellIsPlace | core/src/bus.rs:318-335 | two work RAM accesses meet exactly when normalized bank and offset agree, bank 0 being bank 1 and the echo its primary |
| BusMemory.WorkRamRefinesFlatMemory | core/src/bus.rs:256-335 | over every run of ticks, CPU stores at any address (bank selections, mode switch and DMA among them) and speed switches, a CPU read of work RAM or its echo is the last store to the same place, or FF while DMA blocks it |
| BusMemory.SourceAvoidsOam | core/src/bus.rs:526-531 | the masked DMA source never reaches OAM, I/O or the echo |
| BusMemory.DmaIsSnapshot | core/src/bus.rs:526-535 | after an accepted FF46 write OAM holds the 160 bytes that the masked page held before the write |
| DmaPages.CopiesNamedPageIff | core/src/bus.rs:526-528 | a write copies the page it names, whatever the bus holds, exactly if bit 5 of the page is clear or it lies in the echo of work RAM |
| DmaPages.SnapshotOfNamedPage | core/src/bus.rs:526-535 | then OAM holds that page's bytes of before the write |
| BusMemory.DmaWindow | core/src/bus.rs:541-605 | over every run of ticks at any mix of speeds, CPU stores and speed switches, accesses outside high RAM read FF and store nothing for exactly 640 ticked cycles; then, unless DMA is started again, nothing is blocked |
| BusMemory.SnapshotSurvivesWindow | core/src/bus.rs:256-264 | over the same runs OAM keeps the snapshot through the window |
| Opcodes.TableIsComplete | core/build.rs:91-413 | exactly the eleven undefined opcodes have no metadata; all others have the operands the executor expects and cost 4 to 24 cycles in multiples of 4 on either branch |
| Opcodes.CbTableIsComplete | core/build.rs:415-450 | the same of the extended table, which has no holes |
| CpuModel.Cpu.StepOnce | core/src/cpu.rs:257-293 | the in-place step (wake-up, dispatch, idle, fetch, execute, delayed EI) is the specified one |
| CpuModel.Cpu.FetchByte | core/src/cpu.rs:842-855 | a fetch advances the PC except once under the HALT bug |
| CpuModel.Cpu.TakeInterrupt | core/src/cpu.rs:820-833 | acknowledge, IME off, push, vector, 20 cycles |
| CpuControl.InstructionControl | core/src/cpu.rs:273-606 | every instruction changes IME, delayed EI, HALT, HALT bug and lock-up exactly as its opcode says, whatever the data |
| CpuControl.ControlOverAllRuns | core/src/cpu.rs:257-293 | over every run: halted implies no delayed EI; an active HALT bug implies IME off, not halted and no delayed EI; locked implies halted |
| CpuControl.DispatchIsLowestPending | core/src/cpu.rs:816-833 | a dispatch takes the lowest pending bit, acknowledges it, pushes the PC, turns IME off and lands on its vector |
| CpuControl.NoDispatch | core/src/cpu.rs:259-276 | without IME or without a pending request the next instruction is executed |
| CpuControl.EiShieldsNextInstruction | core/src/cpu.rs:273-290 | from IME off the instruction after EI runs before any dispatch |
| CpuControl.EiDiOpensNoWindow | core/src/cpu.rs:288-290 | EI; DI leaves interrupts off |
| CpuControl.EiHaltReturnsToHalt | core/src/cpu.rs:595-606 | EI; HALT with a request pending leaves the PC at the HALT, with IME on and no halt |
| CpuControl.UndefinedOpcodeAbsorbs | core/src/cpu.rs:835-840 | an undefined opcode locks the CPU, which then only idles whatever is pending |
| CpuControl.LockedForever | core/src/cpu.rs:257-271 | over every run a locked CPU keeps its whole state |
| CpuWrites.StepIsItsWrites | core/src/cpu.rs:257-606 | a CPU step leaves on the bus exactly the writes that its opcode and registers give, after the acknowledgement of an interrupt or the speed switch of STOP, and nothing else |
| CpuWrites.AtMostTwoWrites | core/src/cpu.rs:295-593 | a step writes at most two bytes |
| CpuFlow.InstructionFlow | core/src/cpu.rs:273-593 | every executed instruction fetches the operands, ends at the PC and costs the cycles that the opcode table gives it for one outcome of its condition; under the HALT bug it ends one byte early and its first operand is its own opcode |
| RealCpu.DispatchIsTimeNeutral | core/src/cpu.rs:295-593 | no instruction ticks the devices itself |
| RealCpu.EmulatorConservesCycles | core/src/lib.rs:270-412 | with the real CPU and any observer total plus carry advances by exactly the cycles ticked modulo 2^64, carry at most 23 |
| Scheduler.Emulator.StepCyclesWithObserver | core/src/lib.rs:270-412 | the loop terminates and reaches the specified CPU, bus, total and carry for every observer |
| Scheduler.Emulator.TickBusCycles | core/src/lib.rs:122-132 | the chunked tick |
| Scheduler.ChunkingLosesVideoIff | core/src/lib.rs:122-132 | a fast-forward's chunks deliver all video cycles unless it is 2^32 cycles in double speed, and only then not |
| Scheduler.LongTickExactIff | core/src/lib.rs:122-132 | the chunked tick is the plain tick exactly in the same cases |
| Scheduler.SkipPersists | core/src/lib.rs:303-310 | while the guard holds no enabled request rises, so ticking keeps the guard |
| Scheduler.SkipRefinesIdling | core/src/lib.rs:303-333 | repeating idle CPU steps and ticks to the target is one tick of the rounded-up remainder, the debugger's fetch count aside |
| Scheduler.FastRefinesSlow | core/src/lib.rs:288-408 | for every instruction set and 32-bit target the fast loop agrees with the loop without fast-forward if and only if it does not start with a skip of 2^32 cycles in double speed |
| Scheduler.BatchingInvisible | core/tests/headless_harness.rs:13-27 | two calls reach the same CPU, bus, total and carry as one call of the sum if and only if the first does not end inside a skip of 2^32 cycles in double speed; sums up to 2^32 - 4 always agree |
| Scheduler.BatchingFailsBeyondBound | core/src/lib.rs:122-132 | requests of 2^31 and 2^31 - 1 cycles fail in every double-speed state with a skippable halt and no carry |
| StartUp.BatchingFails | core/src/lib.rs:122-132 | a failing input from start-up: LD A,1; LDH (4D),A; STOP; HALT on a CGB, 28 cycles and then 2^32 - 1 at once or in two halves |
| StartUp.StartsFresh | core/src/lib.rs:146-176 | the constructors without boot ROM leave interrupts off, nothing enabled or flagged by the timer, the timer stopped, no DMA, normal speed and the image mapped |
| Scheduler.CyclesConserved | core/src/lib.rs:410-412 | for every observer, early stops included, no cycle is lost or invented and the carry stays at most 23 |
| Scheduler.ExecutedCycles | core/src/lib.rs:276-412 | an uninterrupted call of n cycles executes at most n + 23 |
| Scheduler.ObserverFree | core/src/lib.rs:229-238 | an observer that never stops is no observer |
| SchedulerRuns.BatchesInvisible | core/tests/headless_harness.rs:13-27 | any two lists of requests of at most 2^32 - 4 cycles each with the same sum, however large, reach the same CPU, bus, total and carry |
| SchedulerRuns.StopAndResume | core/src/lib.rs:328-412 | a call stopped by its observer and resumed with the cycles left reaches the state of the call that is never stopped |
| FramePolls.QuietBusWrite | core/src/bus.rs:256-264 | any CPU write but to LY or one that toggles the LCD leaves the raster alone |
| FramePolls.PatientBusWrite | core/src/bus.rs:256-264 | any CPU write but to LY in VBlank or one that toggles the LCD raises, consumes or hastens no pulse |
| FramePolls.AtMostOnePulsePerCall | platform/desktop/src/lib.rs:15-20 | for any instruction set whose steps raise, consume or hasten no pulse, one call of at most 70200 cycles raises at most one pulse and the flag tells whether it did |
| RealFrames.PatientStepHoldsPulses | core/src/cpu.rs:257-606 | a step of the real CPU whose writes are neither to LY in VBlank nor LCD toggles raises, consumes or hastens no pulse |
| RealFrames.CpuRaisesAtMostOnePulse | platform/desktop/src/lib.rs:15-20 | a program that neither writes LY in VBlank nor toggles the LCD raises at most one pulse in one call of at most 70200 cycles |
| FramePolls.NoPulseLost | platform/desktop/src/lib.rs:402-445 | for such instruction sets, over every session of such chunks the frames presented, and the one still announced, are exactly the pulses raised |
| RealFrames.NoPulseLostByCpu | platform/desktop/src/lib.rs:402-445 | the same for the real CPU over every session in which no step writes LY in VBlank or toggles the LCD |
| FramePolls.RunCycleStep | platform/desktop/src/lib.rs:402-445 | the undisturbed inner loop, with its polls and `continue`, plays the chunks of the cycle step and terminates |
| FramePolls.RunPolled | platform/desktop/src/lib.rs:402-445 | under any window, runtime and limits the session is that of the first k chunks, the last one polled for or not; the loop ends before the last chunk only because the window closed, the runtime stopped, a limit was met or the watching ended, overshoots no limit, takes at most two busy iterations a chunk, and undisturbed plays every chunk |
| TraceCompressor.TraceCollector.OnCpuStep | platform/desktop/src/bin/trace_rom.rs:399-420 | after every step the written lines, the prefix, the collapsed loop and the suffix are still the whole input in order, and the buffer is bounded; a step of an incomplete occurrence writes nothing and one that completes it is folded |
| TraceCompressor.TraceCollector.OnOccurrence | platform/desktop/src/bin/trace_rom.rs:399-420 | with an active loop, as many further steps with the window's signatures raise its count by one and write nothing |
| TraceCompressor.TraceCollector.OnlineExpansion | platform/desktop/src/bin/trace_rom.rs:882-980 | at any time they unfold to the signatures of all accepted steps, the loop's LY range is exact and at most 16 steps are buffered |
| TraceCompressor.TraceCollector.UpdateLoopCompression | platform/desktop/src/bin/trace_rom.rs:882-980 | an incomplete occurrence waits, a matching one is folded with nothing written, a differing one puts the prefix and the loop's summary out; nothing is lost and the bound is restored |
| TraceCompressor.TraceCollector.SearchLoop | platform/desktop/src/bin/trace_rom.rs:932-978 | a loop is started exactly when some window of 2 to 8 steps without an interrupt entry ends the buffer twice |
| TraceCompressor.CandidatesAreAllSizes | platform/desktop/src/bin/trace_rom.rs:935-941 | the preferred size and the filtered descent try every admissible window |
| TraceCompressor.TraceCollector.ExtendLoop | platform/desktop/src/bin/trace_rom.rs:902-926 | a completed occurrence is folded with its exact LY range and the saturating count does not saturate |
| TraceCompressor.TraceCollector.StartLoop | platform/desktop/src/bin/trace_rom.rs:956-971 | two equal windows become a loop of two repetitions |
| TraceCompressor.TraceCollector.FlushLoopSummary | platform/desktop/src/bin/trace_rom.rs:249-324 | the older steps go out raw before the one summary line, the newer ones stay buffered |
| TraceCompressor.TraceCollector.FlushPendingRaw | platform/desktop/src/bin/trace_rom.rs:242-247 | everything buffered goes out raw, oldest first |
| TraceCompressor.TraceCollector.OnOtherEvent | platform/desktop/src/bin/trace_rom.rs:444-483 | another event's line comes after every step accepted before it |
| TraceCompressor.TraceCollector.Finalize | platform/desktop/src/bin/trace_rom.rs:326-329 | at the end the written lines expand to the signatures of the whole input |
| TraceCompressor.ExpansionIsInput | platform/desktop/src/bin/trace_rom.rs:249-324 | lines that stand for their steps expand to those steps' signatures |
| TraceCompressor.RangeIsExact | platform/desktop/src/bin/trace_rom.rs:375-390 | the recorded LY range bounds every collapsed step, is attained, and ends with the last one |
| TraceSpans.WindowPrintsRightIff | platform/desktop/src/bin/trace_rom.rs:277-281 | the printed span ends where the loop ended, for every continuation of the window whose steps cost what their signatures can cost, exactly if no step of the window is ambiguous |
| TraceSpans.PrintedSpanExact | platform/desktop/src/bin/trace_rom.rs:277-281 | a window without an ambiguous step prints the real end, whatever the loop went on to do |
| TraceSpans.AmbiguousMisprints | platform/desktop/src/bin/trace_rom.rs:277-281 | after a window with an ambiguous step a second occurrence that differs there makes the printed end wrong |
| TraceSpans.CostUnique | platform/desktop/src/bin/trace_rom.rs:49-71 | a signature that is not ambiguous can have one cost only |
| TraceSpans.AmbiguousHasOther | platform/desktop/src/bin/trace_rom.rs:49-71 | an ambiguous one that can have a cost can have another |
| TraceSpans.StepCanCost | core/src/lib.rs:335-399 | every step of the real CPU costs what the opcode table allows its signature |
| TraceSpans.SignatureDeterminesCost | core/src/lib.rs:335-399 | two steps of the real CPU with the same unambiguous signature cost the same |
| TraceSpans.TraceIsTimed | core/src/lib.rs:288-408 | the steps that the scheduler's loop reports follow on one another and cost what their signatures can cost |
| TraceSpans.RealLoopPrintsRight | platform/desktop/src/bin/trace_rom.rs:277-281 | a loop folded from any stretch of such a trace prints its real end if its window has no ambiguous step |
| TraceRuns.ConditionalJumpMisprints | platform/desktop/src/bin/trace_rom.rs:57-60 | run from start-up by the real CPU, CCF; JR C,+0; JR -5 costs 24 and then 28 cycles at equal signatures, and its loop is printed as 0 to 48 while it ends at 52 |
| TraceRuns.WakingReturnMisprints | core/src/lib.rs:346-350 | run from start-up, a halted CPU that the timer wakes into a RET to itself: 235 idle steps and the RET have one signature, and their loop is printed as 88 to 1032 while it ends at 1044 |
| TraceRuns.FailingStepsAreAmbiguous | platform/desktop/src/bin/trace_rom.rs:49-71 | both runs fail at an ambiguous signature, of which the opcode table allows both costs that occur |
| TraceCompressor.SummarizeWaitLoop | platform/desktop/src/bin/trace_rom.rs:332-373 | a wait loop is a window of at least two steps that reads LY and jumps back, trusted exactly if it also compares |
| TraceCompressor.PrintsWaitLine | platform/desktop/src/bin/trace_rom.rs:265-316 | the wait line is printed exactly for a trusted wait loop that is to be summarized and not forced raw |
| TraceCompressor.TraceCollector.WriteLine | platform/desktop/src/bin/trace_rom.rs:242-247 | a written line accounts for exactly the steps it stands for |
| TraceCompressor.LyRangeForSteps | platform/desktop/src/bin/trace_rom.rs:375-386 | the range loop computes the least, greatest and last LY |

## Left out

- FrameTheorem: runs without register writes; runs with writes are covered by `PulsesAnnounceWholeFrames`, `RasterRun`, `QuietWrite` and `AtMostOnePulse`, and LY writes and LCD toggles really change frame timing.
- NoPulseLostByCpu: for sessions in which no CPU step writes LY in VBlank or toggles the LCD, because those bring pulses nearer (`LyWriteBreaksSpacing`).
- RunPolled: window, runtime and limits are oracles that end or idle the loop; button events and save states, which change the emulator between calls, are not modelled.
- RunCycleStep: the loop when nothing ends it early; `RunPolled` has the other cases.
- DmaIsSnapshot: about the masked page, because the mask drops bit 5 of every page; `CopiesNamedPageIff` says when that is the named page.
- OnCpuStep: requires fewer than 2^64 - 1 steps before it; from there the source's saturating step index repeats.
- FlushLoopSummary: a summary line stands for its window and count in full, while the printed text carries opcodes, span and count only; the text of lines is not modelled. The branch for fewer than two repetitions is proved unreachable.
- WriteRegister: the direct APU setters (`set_ch1_enabled` and its siblings) bypass the registers and are not modelled.
- StepOnce: instructions are executed on values and the result is stored back, so the order of register updates inside one instruction is not captured.
- Object graph: devices are values held by the bus and the emulator, as the source owns them; memories are sequences, so in-place byte updates are sequence updates.
- Pixel colours, palettes and the composition of shades: a rendered line is logged with the memory and registers it is drawn from.
- Watch-io recording and observer payloads: an observer is the sequence of its `should_stop` answers, with watch-io off.
- WindowPrintsRightIff: a continuation costs what the opcode table says for its signatures; whether the bytes and flags of one program can bring a given one about is shown for the two runs only.
- Reset, constructors with boot ROM, button and serial peer calls between steps, and the audio callback.
- Cartridge header parsing, save files, window, audio output, images and the command line: input and output.
- The real-time clock of MBC3: the source has none beyond the register selection.
