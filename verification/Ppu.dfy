/** The dot, line and mode automaton of the PPU and its STAT interrupt line (core/src/ppu.rs).
    Pixels are not computed here: each rendered scanline is logged with the registers and memory it
    was rendered from, so the log determines the frame buffers. */
module PpuDevice {
  import opened Base

  const CYCLES_PER_SCANLINE := 456
  const VISIBLE_SCANLINES := 144
  const TOTAL_SCANLINES := 154
  const MODE2_CYCLES := 80
  const DRAWING_END := 248  // MODE2_CYCLES + MODE3_CYCLES - 4
  const STARTUP_DELAY_DOTS := 16

  datatype Mode = HBlank | VBlank | OamScan | Drawing

  /** The writable STAT bits. */
  datatype Sources = Sources(hblank: bool, vblank: bool, oam: bool, lyc: bool)

  type Vram = s: seq<byte> | |s| == 0x4000 witness Zeros(0x4000)
  type Oam = s: seq<byte> | |s| == 0xA0 witness Zeros(0xA0)
  type PaletteRam = s: seq<byte> | |s| == 0x40 witness Zeros(0x40)
  type VramBank = x: int | 0 <= x < 2

  /** Memory and registers that rendering reads and the timing automaton does not touch. */
  datatype Video = Video(vram: Vram, bank: VramBank, oam: Oam, cgb: bool,
                         bgIndex: byte, objIndex: byte, bgPalette: PaletteRam, objPalette: PaletteRam,
                         scy: byte, scx: byte, dma: byte, bgp: byte, obp0: byte, obp1: byte, wy: byte, wx: byte)

  datatype FrameOp = Scanline(line: int, lcdc: byte, video: Video) | Cleared

  datatype PpuState = PpuState(lcdc: byte, mode: Mode, lycEqual: bool, sources: Sources, ly: byte, lyc: byte,
                               dot: word, delay: byte, lineHigh: bool, statPending: bool, frameReady: bool,
                               video: Video, log: seq<FrameOp>, frames: nat)

  /** One step's new state and the interrupt bits it requests. */
  datatype PpuOut = PpuOut(ppu: PpuState, vblank: bool, stat: bool)

  const INITIAL_VIDEO := Video(Zeros(0x4000), 0, Zeros(0xA0), false, 0, 0, Zeros(0x40), Zeros(0x40),
                               0, 0, 0, 0, 0, 0, 0, 0)

  const INITIAL_PPU := PpuState(0, HBlank, false, Sources(false, false, false, false), 0, 0, 0, 0, false, false,
                               false, INITIAL_VIDEO, [], 0)

  predicate LcdOn(p: PpuState) { p.lcdc >= 0x80 }

  function ModeAt(ly: int, dot: int): Mode {
    if ly >= VISIBLE_SCANLINES then VBlank
    else if dot < MODE2_CYCLES then OamScan
    else if dot < DRAWING_END then Drawing
    else HBlank
  }

  predicate ModeEnabled(s: Sources, m: Mode) {
    match m
    case HBlank => s.hblank
    case VBlank => s.vblank
    case OamScan => s.oam
    case Drawing => false
  }

  predicate StatCondition(p: PpuState) {
    (LcdOn(p) && ModeEnabled(p.sources, p.mode)) || (p.sources.lyc && p.lycEqual)
  }

  predicate StatEdge(p: PpuState) { !p.lineHigh && StatCondition(p) }

  function Latched(p: PpuState): PpuState { p.(lineHigh := StatCondition(p)) }

  /** The line update of a register write: an edge is left pending for the bus to collect. */
  function LatchedByWrite(p: PpuState): PpuState {
    Latched(p).(statPending := p.statPending || StatEdge(p))
  }

  function Coincidence(p: PpuState): PpuState { p.(lycEqual := p.ly == p.lyc) }

  /** A dot of the running automaton before the STAT line is latched. */
  function Dot(p: PpuState): PpuState {
    var wraps := p.dot + 1 >= CYCLES_PER_SCANLINE;
    var dot := if wraps then 0 else p.dot + 1;
    var ly := if wraps then (p.ly + 1) % TOTAL_SCANLINES else p.ly;
    var mode := ModeAt(ly, dot);
    var renders := p.mode == Drawing && mode == HBlank && ly < VISIBLE_SCANLINES;
    var pulse := p.mode != VBlank && mode == VBlank;
    p.(dot := dot, ly := ly, mode := mode, lycEqual := ly == p.lyc,
       log := if renders then p.log + [Scanline(ly, p.lcdc, p.video)] else p.log,
       frameReady := p.frameReady || pulse,
       frames := if pulse then p.frames + 1 else p.frames)
  }

  function PpuStep(p: PpuState): PpuOut {
    if !LcdOn(p) then
      var q := p.(dot := 0, ly := 0, delay := 0, mode := HBlank);
      PpuOut(Latched(q), false, StatEdge(q))
    else if p.delay != 0 then
      var q := Coincidence(p.(delay := p.delay - 1, dot := 0, ly := 0, mode := HBlank));
      PpuOut(Latched(q), false, StatEdge(q))
    else
      var q := Dot(p);
      PpuOut(Latched(q), p.mode != VBlank && q.mode == VBlank, StatEdge(q))
  }

  /** The pending STAT edge is collected, the frame pulse is polled. */
  function StatTaken(p: PpuState): PpuState { p.(statPending := false) }

  function FrameTaken(p: PpuState): PpuState { p.(frameReady := false) }

  function Next(p: PpuState): PpuState { PpuStep(p).ppu }

  function Mask(p: PpuState): bv8 {
    var out := PpuStep(p);
    (if out.vblank then 1 else 0) | (if out.stat then 2 else 0)
  }

  function PpuRun(p: PpuState, n: nat): PpuState { Run(Next, p, n) }

  /** Interrupt bits requested by n steps. */
  function PpuRaised(p: PpuState, n: nat): bv8 { Raised(Mask, Next, p, n) }

  /** Whether the scheduler must assume that this PPU can raise an interrupt enabled in `ie`. */
  predicate MayRequest(p: PpuState, ie: bv8) {
    LcdOn(p) &&
    (ie & 1 != 0 ||
     (ie & 2 != 0 &&
      (p.sources.hblank || p.sources.vblank || p.sources.oam || (p.sources.lyc && p.lyc < TOTAL_SCANLINES))))
  }

  // ------------------------------------------------------------ register writes

  /** The effect of the LCD enable bit: switching on restarts the frame after a delay, switching off
      blanks the frame buffer. */
  function Switched(p: PpuState, value: byte): PpuState {
    var turnsOn := !LcdOn(p) && value >= 0x80;
    var turnsOff := LcdOn(p) && value < 0x80;
    var toggles := turnsOn || turnsOff;
    p.(lcdc := value,
       dot := if toggles then 0 else p.dot,
       ly := if toggles then 0 else p.ly,
       mode := if toggles then HBlank else p.mode,
       delay := if turnsOn then STARTUP_DELAY_DOTS else if turnsOff then 0 else p.delay,
       lycEqual := if turnsOn then 0 == p.lyc else p.lycEqual,
       log := if turnsOff then p.log + [Cleared] else p.log,
       frameReady := p.frameReady && !turnsOff)
  }

  function WriteLcdc(p: PpuState, value: byte): PpuState { LatchedByWrite(Switched(p, value)) }

  /** A STAT write briefly acts as if every source were enabled, whatever value is stored. */
  predicate StatGlitch(p: PpuState) {
    !p.lineHigh && LcdOn(p) && (p.mode != Drawing || p.lycEqual)
  }

  function WriteStat(p: PpuState, value: byte): PpuState {
    var glitched := p.(statPending := p.statPending || StatGlitch(p));
    var sources := Sources(Bit(value, 0x08), Bit(value, 0x10), Bit(value, 0x20), Bit(value, 0x40));
    LatchedByWrite(glitched.(sources := sources))
  }

  function Recompared(p: PpuState): PpuState {
    if LcdOn(p) then LatchedByWrite(Coincidence(p)) else p
  }

  function AutoIncrement(index: byte): byte {
    if index >= 0x80 then 0x80 + (index + 1) % 0x40 else index
  }

  /** Registers outside the timing automaton; `open` tells that palette data is accessible. */
  function WriteVideo(v: Video, open: bool, address: word, value: byte): Video {
    if address == 0xFF42 then v.(scy := value)
    else if address == 0xFF43 then v.(scx := value)
    else if address == 0xFF46 then v.(dma := value)
    else if address == 0xFF47 then v.(bgp := value)
    else if address == 0xFF48 then v.(obp0 := value)
    else if address == 0xFF49 then v.(obp1 := value)
    else if address == 0xFF4A then v.(wy := value)
    else if address == 0xFF4B then v.(wx := value)
    else if !v.cgb then v
    else if address == 0xFF4F then v.(bank := value % 2)
    else if address == 0xFF68 then v.(bgIndex := value - (if Bit(value, 0x40) then 0x40 else 0))
    else if address == 0xFF6A then v.(objIndex := value - (if Bit(value, 0x40) then 0x40 else 0))
    else if !open then v
    else if address == 0xFF69 then
      v.(bgPalette := v.bgPalette[v.bgIndex % 0x40 := value], bgIndex := AutoIncrement(v.bgIndex))
    else if address == 0xFF6B then
      v.(objPalette := v.objPalette[v.objIndex % 0x40 := value], objIndex := AutoIncrement(v.objIndex))
    else v
  }

  function WriteRegister(p: PpuState, address: word, value: byte): PpuState {
    if address == 0xFF40 then WriteLcdc(p, value)
    else if address == 0xFF41 then WriteStat(p, value)
    else if address == 0xFF44 then Recompared(p.(ly := 0))
    else if address == 0xFF45 then Recompared(p.(lyc := value))
    else p.(video := WriteVideo(p.video, p.mode != Drawing, address, value))
  }

  function ModeBits(m: Mode): byte {
    match m
    case HBlank => 0
    case VBlank => 1
    case OamScan => 2
    case Drawing => 3
  }

  function ReadRegister(p: PpuState, address: word): byte {
    var v := p.video;
    if address == 0xFF40 then p.lcdc
    else if address == 0xFF41 then
      0x80 + (if p.sources.lyc then 0x40 else 0) + (if p.sources.oam then 0x20 else 0)
      + (if p.sources.vblank then 0x10 else 0) + (if p.sources.hblank then 0x08 else 0)
      + (if p.lycEqual then 0x04 else 0) + ModeBits(p.mode)
    else if address == 0xFF42 then v.scy
    else if address == 0xFF43 then v.scx
    else if address == 0xFF44 then p.ly
    else if address == 0xFF45 then p.lyc
    else if address == 0xFF46 then v.dma
    else if address == 0xFF47 then v.bgp
    else if address == 0xFF48 then v.obp0
    else if address == 0xFF49 then v.obp1
    else if address == 0xFF4A then v.wy
    else if address == 0xFF4B then v.wx
    else if !v.cgb then 0xFF
    else if address == 0xFF4F then 0xFE + v.bank
    else if address == 0xFF68 then ReadIndex(v.bgIndex)
    else if address == 0xFF6A then ReadIndex(v.objIndex)
    else if p.mode == Drawing then 0xFF
    else if address == 0xFF69 then v.bgPalette[v.bgIndex % 0x40]
    else if address == 0xFF6B then v.objPalette[v.objIndex % 0x40]
    else 0xFF
  }

  function ReadIndex(index: byte): byte {
    index % 0x40 + 0x40 + (if index >= 0x80 then 0x80 else 0)
  }

  // ------------------------------------------------------ VRAM and OAM accesses

  function VramOffset(v: Video, address: word): (offset: nat)
    requires 0x8000 <= address < 0xA000
    ensures offset < 0x4000
  {
    v.bank * 0x2000 + (address - 0x8000)
  }

  function ReadVram(p: PpuState, address: word): byte
    requires 0x8000 <= address < 0xA000
  {
    if p.mode == Drawing then 0xFF else p.video.vram[VramOffset(p.video, address)]
  }

  function WriteVram(p: PpuState, address: word, value: byte): PpuState
    requires 0x8000 <= address < 0xA000
  {
    if p.mode == Drawing then p
    else p.(video := p.video.(vram := p.video.vram[VramOffset(p.video, address) := value]))
  }

  predicate OamOpen(p: PpuState) { p.mode != OamScan && p.mode != Drawing }

  function ReadOam(p: PpuState, address: word): byte
    requires 0xFE00 <= address < 0xFEA0
  {
    if OamOpen(p) then p.video.oam[address - 0xFE00] else 0xFF
  }

  function WriteOam(p: PpuState, address: word, value: byte): PpuState
    requires 0xFE00 <= address < 0xFEA0
  {
    if OamOpen(p) then p.(video := p.video.(oam := p.video.oam[address - 0xFE00 := value])) else p
  }

  // ---------------------------------------------------------------- the class

  class Ppu {
    var lcdc: byte
    var mode: Mode
    var lycEqual: bool
    var sources: Sources
    var ly: byte
    var lyc: byte
    var scanlineDot: word
    var lcdEnableDelayDots: byte
    var statIrqLineHigh: bool
    var statIrqPending: bool
    var frameReadyPending: bool
    var video: Video
    ghost var log: seq<FrameOp>
    ghost var frames: nat

    ghost function State(): PpuState
      reads this
    {
      PpuState(lcdc, mode, lycEqual, sources, ly, lyc, scanlineDot, lcdEnableDelayDots, statIrqLineHigh,
               statIrqPending, frameReadyPending, video, log, frames)
    }

    constructor ()
      ensures State() == INITIAL_PPU && PpuInv(State())
    {
      lcdc, mode, lycEqual, sources := 0, HBlank, false, Sources(false, false, false, false);
      ly, lyc, scanlineDot, lcdEnableDelayDots := 0, 0, 0, 0;
      statIrqLineHigh, statIrqPending, frameReadyPending := false, false, false;
      video, log, frames := INITIAL_VIDEO, [], 0;
    }

    method StatIrqConditionActive() returns (active: bool)
      ensures active == StatCondition(State())
    {
      var coincidence := sources.lyc && lycEqual;
      if lcdc < 0x80 {
        return coincidence;
      }
      var modeEnabled := (mode == HBlank && sources.hblank) || (mode == VBlank && sources.vblank)
                         || (mode == OamScan && sources.oam);
      return modeEnabled || coincidence;
    }

    /** With a flag the edge is requested at once, without one it is left pending. */
    method UpdateStatIrqLine(flag: Option<bv8>) returns (flag': bv8)
      modifies this
      ensures flag.Some? ==> State() == Latched(old(State()))
      ensures flag.Some? ==> flag' == if old(StatEdge(State())) then flag.value | 2 else flag.value
      ensures flag.None? ==> State() == LatchedByWrite(old(State()))
    {
      flag' := if flag.Some? then flag.value else 0;
      var next := StatIrqConditionActive();
      if !statIrqLineHigh && next {
        if flag.Some? {
          flag' := flag' | 2;
        } else {
          statIrqPending := true;
        }
      }
      statIrqLineHigh := next;
    }

    method Step(flag: bv8) returns (flag': bv8)
      requires PpuInv(State())
      modifies this
      ensures State() == Next(old(State()))
      ensures flag' == flag | Mask(old(State()))
      ensures PpuInv(State())
    {
      InvTick(State());
      hide PpuInv, StatEdge, Latched, Dot;
      if lcdc < 0x80 {
        scanlineDot, ly, lcdEnableDelayDots, mode := 0, 0, 0, HBlank;
        flag' := UpdateStatIrqLine(Some(flag));
      } else if lcdEnableDelayDots != 0 {
        lcdEnableDelayDots := lcdEnableDelayDots - 1;
        scanlineDot, ly, mode := 0, 0, HBlank;
        lycEqual := ly == lyc;
        flag' := UpdateStatIrqLine(Some(flag));
      } else {
        flag' := AdvancePosition(flag);
        flag' := UpdateStatIrqLine(Some(flag'));
      }
    }

    method AdvancePosition(flag: bv8) returns (flag': bv8)
      requires PpuInv(State())
      modifies this
      ensures State() == Dot(old(State()))
      ensures flag' == if old(mode) != VBlank && mode == VBlank then flag | 1 else flag
    {
      flag' := flag;
      var previousMode := mode;
      scanlineDot := scanlineDot + 1;
      if scanlineDot >= CYCLES_PER_SCANLINE {
        scanlineDot := 0;
        ly := (ly + 1) % TOTAL_SCANLINES;
      }
      var nextMode := ModeAt(ly, scanlineDot);
      hide ModeAt;
      if previousMode == Drawing && nextMode == HBlank && ly < VISIBLE_SCANLINES {
        log := log + [Scanline(ly, lcdc, video)];
      }
      if previousMode != VBlank && nextMode == VBlank {
        flag' := flag' | 1;
        frameReadyPending, frames := true, frames + 1;
      }
      mode := nextMode;
      lycEqual := ly == lyc;
    }

    method WriteLcdControl(value: byte)
      modifies this
      ensures State() == WriteLcdc(old(State()), value)
    {
      hide StatCondition, StatEdge, Latched, LatchedByWrite;
      var wasEnabled, nowEnabled := lcdc >= 0x80, value >= 0x80;
      lcdc := value;
      if wasEnabled != nowEnabled {
        scanlineDot, ly, mode := 0, 0, HBlank;
        if nowEnabled {
          lcdEnableDelayDots := STARTUP_DELAY_DOTS;
          lycEqual := ly == lyc;
        } else {
          lcdEnableDelayDots := 0;
          log := log + [Cleared];
          frameReadyPending := false;
        }
      }
      assert State() == Switched(old(State()), value);
      var _ := UpdateStatIrqLine(None);
    }

    method WriteStatus(value: byte)
      modifies this
      ensures State() == WriteStat(old(State()), value)
    {
      if !statIrqLineHigh && lcdc >= 0x80 && (mode != Drawing || lycEqual) {
        statIrqPending := true;
      }
      sources := Sources(Bit(value, 0x08), Bit(value, 0x10), Bit(value, 0x20), Bit(value, 0x40));
      hide LatchedByWrite;
      var _ := UpdateStatIrqLine(None);
    }

    method Recompare()
      modifies this
      ensures State() == Recompared(old(State()))
    {
      if lcdc >= 0x80 {
        lycEqual := ly == lyc;
        hide LatchedByWrite;
        var _ := UpdateStatIrqLine(None);
      }
    }

    method Write(address: word, value: byte)
      requires PpuInv(State())
      modifies this
      ensures State() == WriteRegister(old(State()), address, value)
      ensures PpuInv(State())
    {
      InvRegister(State(), address, value);
      hide PpuInv, WriteLcdc, WriteStat, Recompared, WriteVideo;
      if address == 0xFF40 {
        WriteLcdControl(value);
      } else if address == 0xFF41 {
        WriteStatus(value);
      } else if address == 0xFF44 {
        ly := 0;
        Recompare();
      } else if address == 0xFF45 {
        lyc := value;
        Recompare();
      } else {
        video := WriteVideo(video, mode != Drawing, address, value);
      }
    }

    method TakeStatIrqPending() returns (pending: bool)
      modifies this
      ensures pending == old(State()).statPending && State() == StatTaken(old(State()))
    {
      pending, statIrqPending := statIrqPending, false;
    }

    method TakeFrameReady() returns (pending: bool)
      modifies this
      ensures pending == old(State()).frameReady && State() == FrameTaken(old(State()))
    {
      pending, frameReadyPending := frameReadyPending, false;
    }
  }

  // ------------------------------------------------------------- the invariant

  /** What every reachable PPU state satisfies: the latched line is its condition, and with the LCD
      on the coincidence bit compares LY with LYC and the mode fits the position, except that an
      LY write may leave a stale mode on line 0. */
  predicate PpuInv(p: PpuState) {
    && p.dot < CYCLES_PER_SCANLINE
    && p.ly < TOTAL_SCANLINES
    && p.delay <= STARTUP_DELAY_DOTS
    && (p.delay > 0 || !LcdOn(p) ==> p.ly == 0 && p.dot == 0 && p.mode == HBlank)
    && (p.delay > 0 ==> LcdOn(p))
    && p.lineHigh == StatCondition(p)
    && (LcdOn(p) ==> p.lycEqual == (p.ly == p.lyc))
    && (p.ly != 0 ==> p.mode == ModeAt(p.ly, p.dot))
  }

  datatype PpuEvent =
    | Tick
    | Store(address: word, value: byte)
    | StoreVram(vramAddress: word, vramValue: byte)
    | StoreOam(oamAddress: word, oamValue: byte)
    | TakeStat
    | TakeFrame

  function PpuApply(p: PpuState, e: PpuEvent): PpuState {
    match e
    case Tick => Next(p)
    case Store(a, v) => WriteRegister(p, a, v)
    case StoreVram(a, v) => if 0x8000 <= a < 0xA000 then WriteVram(p, a, v) else p
    case StoreOam(a, v) => if 0xFE00 <= a < 0xFEA0 then WriteOam(p, a, v) else p
    case TakeStat => StatTaken(p)
    case TakeFrame => FrameTaken(p)
  }

  lemma InvTick(p: PpuState)
    requires PpuInv(p)
    ensures PpuInv(Next(p))
  {
    if LcdOn(p) && p.delay == 0 {
      var q := Dot(p);
      assert q.mode == ModeAt(q.ly, q.dot) && q.ly < TOTAL_SCANLINES && q.dot < CYCLES_PER_SCANLINE;
      assert Next(p) == Latched(q);
    }
  }

  lemma InvLcdc(p: PpuState, value: byte)
    requires PpuInv(p)
    ensures PpuInv(WriteLcdc(p, value))
  {
  }

  lemma InvStat(p: PpuState, value: byte)
    requires PpuInv(p)
    ensures PpuInv(WriteStat(p, value))
  {
  }

  lemma InvRecompared(p: PpuState, value: byte)
    requires PpuInv(p)
    ensures PpuInv(Recompared(p.(ly := 0))) && PpuInv(Recompared(p.(lyc := value)))
  {
  }

  lemma InvRegister(p: PpuState, address: word, value: byte)
    requires PpuInv(p)
    ensures PpuInv(WriteRegister(p, address, value))
  {
    hide WriteVideo, WriteLcdc, WriteStat, Recompared;
    if address == 0xFF40 {
      InvLcdc(p, value);
    } else if address == 0xFF41 {
      InvStat(p, value);
    } else if address == 0xFF44 || address == 0xFF45 {
      InvRecompared(p, value);
    }
  }

  lemma InvKept(p: PpuState, e: PpuEvent)
    requires PpuInv(p)
    ensures PpuInv(PpuApply(p, e))
  {
    hide Next, WriteRegister, VramOffset;
    match e
    case Tick => InvTick(p);
    case Store(a, v) => InvRegister(p, a, v);
    case _ =>
  }

  function PpuTrace(p: PpuState, events: seq<PpuEvent>): PpuState {
    if events == [] then p else PpuApply(PpuTrace(p, events[..|events| - 1]), events[|events| - 1])
  }

  /** Over every run of steps, register writes and memory writes from power-on, the latched STAT
      line equals its condition and the coincidence bit of a running LCD equals (LY = LYC), LY < 154. */
  lemma {:induction false} StatLineConsistent(events: seq<PpuEvent>)
    ensures var p := PpuTrace(INITIAL_PPU, events);
      PpuInv(p) && p.lineHigh == StatCondition(p) && (LcdOn(p) ==> p.lycEqual == (p.ly == p.lyc) && p.ly < 154)
  {
    hide PpuApply;
    if events != [] {
      StatLineConsistent(events[..|events| - 1]);
      InvKept(PpuTrace(INITIAL_PPU, events[..|events| - 1]), events[|events| - 1]);
    }
  }

  lemma {:induction false} PpuRunInv(p: PpuState, n: nat)
    requires PpuInv(p)
    ensures PpuInv(PpuRun(p, n))
  {
    hide Next, PpuInv;
    if n > 0 {
      PpuRunInv(p, n - 1);
      InvKept(PpuRun(p, n - 1), Tick);
    }
  }

  predicate SameControls(p: PpuState, q: PpuState) {
    q.lcdc == p.lcdc && q.sources == p.sources && q.lyc == p.lyc && q.video == p.video &&
    q.statPending == p.statPending
  }

  lemma StepControls(p: PpuState)
    ensures SameControls(p, Next(p))
  {
  }

  lemma {:induction false} PpuRunControls(p: PpuState, n: nat)
    ensures SameControls(p, PpuRun(p, n))
  {
    hide Next;
    if n > 0 {
      PpuRunControls(p, n - 1);
      StepControls(PpuRun(p, n - 1));
    }
  }

  lemma QuietStep(p: PpuState, ie: bv8)
    requires PpuInv(p) && !MayRequest(p, ie)
    ensures Mask(p) & ie == 0
  {
  }

  /** If the hint says no, no number of steps requests an interrupt enabled in `ie`. */
  lemma {:induction false} HintSound(p: PpuState, ie: bv8, n: nat)
    requires PpuInv(p) && !MayRequest(p, ie)
    ensures !MayRequest(PpuRun(p, n), ie)
    ensures PpuRaised(p, n) & ie == 0
  {
    hide Next, Mask, PpuInv;
    PpuRunControls(p, n);
    if n > 0 {
      HintSound(p, ie, n - 1);
      PpuRunInv(p, n - 1);
      QuietStep(PpuRun(p, n - 1), ie);
    }
  }
}
