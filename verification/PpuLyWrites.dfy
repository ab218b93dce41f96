/** Writes to LY (core/src/ppu.rs): they restart the raster on line 0 but keep the dot, which moves the
    next VBlank pulse and, late in a VBlank line, loses line 0 of the frame that the pulse announces. */
module PpuLyWrites {
  import opened Base
  import opened PpuDevice
  import opened PpuFrames

  const LAST_SAFE_DOT := 246  // the next dot is still in mode 3, so line 0 is drawn at dot 248

  function LyWritten(p: PpuState, value: byte): PpuState { WriteRegister(p, 0xFF44, value) }

  /** From `p` to `r` the scanlines `first` to 143 were drawn, each once, in order, and nothing else. */
  predicate DrewFrom(p: PpuState, r: PpuState, first: nat)
    requires first <= 144
  {
    |r.log| == |p.log| + 144 - first && r.log[..|p.log|] == p.log &&
    forall i | first <= i < 144 :: r.log[|p.log| + i - first] == Scanline(i, p.lcdc, p.video)
  }

  /** The dot after an LY write is on the track again, one position on; nothing is drawn or raised. */
  lemma WrittenStep(p: PpuState, value: byte)
    requires OnTrack(p) && p.ly >= VISIBLE_SCANLINES
    ensures var q := LyWritten(p, value);
      var u := Next(q);
      OnTrack(u) && Position(u) == p.dot + 1 && u.log == p.log && u.frames == p.frames == q.frames &&
      u.lcdc == p.lcdc && u.video == p.video
  {
    hide StatCondition, StatEdge;
    InvRegister(p, 0xFF44, value);
    var q := LyWritten(p, value);
    InvTick(q);
    assert Next(q) == Latched(Dot(q));
  }

  lemma LinesFromStart(x: nat)
    requires 0 < x <= CYCLES_PER_SCANLINE
    ensures LinesBy(x) == (if x <= LAST_SAFE_DOT + 1 then 0 else 1) && LinesBy(VBLANK_POSITION) == 144
    ensures PulsesBy(x) == 0 && PulsesBy(VBLANK_POSITION - 1) == 0 && PulsesBy(VBLANK_POSITION) == 1
  {
  }

  lemma LinesDrawn(p: PpuState, r: PpuState, first: nat)
    requires first <= 144 && r.log == p.log + Lines(p, first, 144)
    ensures DrewFrom(p, r, first)
  {
    forall i | first <= i < 144 ensures r.log[|p.log| + i - first] == Scanline(i, p.lcdc, p.video) {
      LineAt(p, first, 144, i - first);
    }
  }

  lemma LinesOf(p: PpuState, u: PpuState, a: nat, b: nat)
    requires a <= b && u.lcdc == p.lcdc && u.video == p.video
    ensures Lines(u, a, b) == Lines(p, a, b)
  {
  }

  /** A run from position `x` on line 0 or 1 up to the pulse, and up to the dot before it. */
  lemma RunToPulse(u: PpuState)
    requires OnTrack(u) && 0 < Position(u) <= CYCLES_PER_SCANLINE
    ensures var x := Position(u);
      PpuRun(u, VBLANK_POSITION - x).frames == u.frames + 1 &&
      PpuRun(u, VBLANK_POSITION - x - 1).frames == u.frames &&
      PpuRun(u, VBLANK_POSITION - x).log == u.log + Lines(u, if x <= LAST_SAFE_DOT + 1 then 0 else 1, 144)
  {
    LinesFromStart(Position(u));
    hide OnTrack, Position, LinesBy, PulsesBy, Lines, PpuRun;
    FrameTheorem(u, VBLANK_POSITION - Position(u));
    FrameTheorem(u, VBLANK_POSITION - Position(u) - 1);
  }

  lemma FirstDot(q: PpuState, n: nat)
    ensures PpuRun(q, 1 + n) == PpuRun(Next(q), n)
  {
    RunSplits(q, 1, n);
    assert PpuRun(q, 0) == q && PpuRun(q, 1) == Next(PpuRun(q, 0));
    hide Next;
  }

  lemma WrittenRun(p: PpuState, value: byte)
    requires OnTrack(p) && p.ly >= VISIBLE_SCANLINES
    ensures var q, n := LyWritten(p, value), VBLANK_POSITION - p.dot;
      n > 1 && PpuRun(q, n).frames == p.frames + 1 && PpuRun(q, n - 1).frames == p.frames &&
      PpuRun(q, n).log == p.log + Lines(p, if p.dot <= LAST_SAFE_DOT then 0 else 1, 144)
  {
    WrittenStep(p, value);
    assert 0 <= p.dot < CYCLES_PER_SCANLINE;
    var q, n := LyWritten(p, value), VBLANK_POSITION - p.dot;
    var u := Next(q);
    hide LyWritten, Next, OnTrack, Position, Lines, PpuRun;
    RunToPulse(u);
    FirstDot(q, n - 1);
    FirstDot(q, n - 2);
    LinesOf(p, u, if p.dot <= LAST_SAFE_DOT then 0 else 1, 144);
  }

  /** After an LY write anywhere in VBlank the next pulse comes at a known dot. The frame it announces
      has all of lines 0 to 143, each drawn once, in order, exactly if the write was made before dot
      247 of its line; otherwise it has lines 1 to 143 and line 0 keeps its old pixels. */
  lemma LyWriteFrameIff(p: PpuState, value: byte)
    requires OnTrack(p) && p.ly >= VISIBLE_SCANLINES
    ensures var q, n := LyWritten(p, value), VBLANK_POSITION - p.dot;
      n > 1 && PpuRun(q, n).frames == p.frames + 1 && PpuRun(q, n - 1).frames == p.frames &&
      (DrewFrom(p, PpuRun(q, n), 0) <==> p.dot < 247) &&
      (DrewFrom(p, PpuRun(q, n), 1) <==> p.dot >= 247)
  {
    WrittenRun(p, value);
    hide LyWritten, PpuRun, OnTrack;
    var r := PpuRun(LyWritten(p, value), VBLANK_POSITION - p.dot);
    LinesDrawn(p, r, if p.dot <= LAST_SAFE_DOT then 0 else 1);
  }

  lemma FirstVBlank(off: PpuState, value: byte, k: nat)
    requires PpuInv(off) && !LcdOn(off) && value >= 0x80 && k < 456
    ensures var p := PpuRun(WriteLcdc(off, value), 16 + (VBLANK_POSITION + k));
      OnTrack(p) && p.ly == 144 && p.dot == k
  {
    hide WriteLcdc, LcdOn, PpuInv, Running, ModeAt, PpuRun, OnTrack, Position;
    SwitchedOn(off, value);
    var p := WriteLcdc(off, value);
    StartupRun(p);
    var u := PpuRun(p, 16);
    StartIsOnTrack(u);
    RunPosition(u, VBLANK_POSITION + k);
    RunSplits(p, 16, VBLANK_POSITION + k);
  }

  lemma PowerOnState()
    ensures PpuInv(INITIAL_PPU) && !LcdOn(INITIAL_PPU)
    ensures forall value: byte :: WriteRegister(INITIAL_PPU, 0xFF40, value) == WriteLcdc(INITIAL_PPU, value)
  {
  }

  /** A reachable failing input: 300 dots into the first VBlank after power-on, a write to LY; the next
      pulse announces a frame whose line 0 was not drawn. */
  lemma LyWriteLosesLineZero(value: byte)
    ensures var p := PpuRun(WriteRegister(INITIAL_PPU, 0xFF40, 0x91), 16 + (VBLANK_POSITION + 300));
      var r := PpuRun(LyWritten(p, value), VBLANK_POSITION - 300);
      p.ly == 144 && p.dot == 300 && r.frames == p.frames + 1 && DrewFrom(p, r, 1) && !DrewFrom(p, r, 0)
  {
    PowerOnState();
    hide PpuInv, LcdOn, WriteLcdc, WriteRegister, LyWritten, OnTrack, PpuRun, DrewFrom;
    FirstVBlank(INITIAL_PPU, 0x91, 300);
    LyWriteFrameIff(PpuRun(WriteLcdc(INITIAL_PPU, 0x91), 16 + (VBLANK_POSITION + 300)), value);
  }

  /** An LY write k dots into VBlank brings the next pulse at most 69768 dots after the last one, less
      than a frame: this is why pulses can be lost between polls a frame apart. */
  lemma LyWriteBreaksSpacing(p: PpuState, k: nat, value: byte)
    requires OnTrack(p) && Position(p) == VBLANK_POSITION - 1 && k < FRAME_DOTS - VBLANK_POSITION
    ensures var pulsed, u := Next(p), PpuRun(p, k + 1);
      var q, n := LyWritten(u, value), VBLANK_POSITION - u.dot;
      pulsed.frames == p.frames + 1 == u.frames && n > 0 && k + n == VBLANK_POSITION + k / 456 * 456 <= 69_768 &&
      PpuRun(q, n).frames == p.frames + 2 && PpuRun(q, n - 1).frames == p.frames + 1
  {
    hide OnTrack, Position, PpuRun, LyWritten, Next, Lines;
    IntoVBlank(p, k);
    WrittenRun(PpuRun(p, k + 1), value);
  }

  lemma IntoVBlank(p: PpuState, k: nat)
    requires OnTrack(p) && Position(p) == VBLANK_POSITION - 1 && k < FRAME_DOTS - VBLANK_POSITION
    ensures var u := PpuRun(p, k + 1);
      OnTrack(u) && Next(p).frames == p.frames + 1 == u.frames && u.ly >= VISIBLE_SCANLINES &&
      k - u.dot == k / 456 * 456 <= 4104
  {
    TrackStep(p);
    var u := PpuRun(p, k + 1);
    PulsesInVBlank(k);
    LineInVBlank(k);
    hide Next, OnTrack, PpuRun, LinesBy, PulsesBy, Lines, Position, ModeAt, Renders, LineOf;
    FrameTheorem(p, k + 1);
    RunPosition(p, k + 1);
  }

  lemma PulsesInVBlank(k: nat)
    requires k < FRAME_DOTS - VBLANK_POSITION
    ensures PulsesBy(VBLANK_POSITION - 1) == 0 && PulsesBy(VBLANK_POSITION + k) == 1
  {
  }

  lemma LineInVBlank(k: nat)
    requires k < FRAME_DOTS - VBLANK_POSITION
    ensures var x := (VBLANK_POSITION + k) % FRAME_DOTS;
      x == VBLANK_POSITION + k && x / CYCLES_PER_SCANLINE == 144 + k / 456 && x % CYCLES_PER_SCANLINE == k % 456 &&
      k - k % 456 == k / 456 * 456 <= 4104
  {
    DivShift(k, 456, 144);
    DivBelow(k, 456, 10);
  }

  // --------------------------------------------------------- over whole runs

  /** The lines in the frame buffer that were drawn since the last pulse or blanking. */
  function DrawnAfter(p: PpuState, drawn: set<int>, e: PpuEvent): set<int> {
    hide PpuApply;
    var q := PpuApply(p, e);
    if q.frames > p.frames then {}
    else if |q.log| <= |p.log| then drawn
    else
      match q.log[|q.log| - 1]
      case Scanline(line, _, _) => drawn + {line}
      case Cleared => {}
  }

  function Drawn(p: PpuState, events: seq<PpuEvent>): set<int> {
    if events == [] then {}
    else
      var before := events[..|events| - 1];
      DrawnAfter(PpuTrace(p, before), Drawn(p, before), events[|events| - 1])
  }

  /** An LY write too late in a VBlank line for line 0 to be drawn. */
  predicate LateLyWrite(p: PpuState, e: PpuEvent) {
    e.Store? && e.address == 0xFF44 && p.ly >= VISIBLE_SCANLINES && p.dot >= 247
  }

  /** No late LY write since the last pulse: an earlier one spoils no later frame. */
  predicate NoLateLyWrite(p: PpuState, events: seq<PpuEvent>) {
    hide PpuApply, LateLyWrite;
    events == [] ||
    var before, e := events[..|events| - 1], events[|events| - 1];
    var q := PpuTrace(p, before);
    PpuApply(q, e).frames > q.frames || (NoLateLyWrite(p, before) && !LateLyWrite(q, e))
  }

  /** Every line that the position has passed is drawn, and one that is still to come will be. */
  predicate Covered(p: PpuState, drawn: set<int>) {
    p.ly < VISIBLE_SCANLINES ==>
      (forall line | 0 <= line < p.ly :: line in drawn) && (p.dot >= 248 ==> p.ly in drawn) &&
      (p.dot == 247 ==> p.mode == Drawing)
  }

  lemma CoveredDot(p: PpuState, drawn: set<int>)
    requires PpuInv(p) && Covered(p, drawn)
    ensures Covered(Next(p), DrawnAfter(p, drawn, Tick))
    ensures Next(p).frames > p.frames ==> forall line | 0 <= line < VISIBLE_SCANLINES :: line in drawn
  {
    hide StatCondition, StatEdge;
    if LcdOn(p) && p.delay == 0 {
      assert Next(p) == Latched(Dot(p));
    }
  }

  /** Writes to the other registers leave position, mode, log and pulse count alone. */
  lemma OtherStore(p: PpuState, address: word, value: byte)
    requires address != 0xFF40 && address != 0xFF44
    ensures var q := WriteRegister(p, address, value);
      q.ly == p.ly && q.dot == p.dot && q.mode == p.mode && q.log == p.log && q.frames == p.frames
  {
    hide StatCondition, StatEdge, StatGlitch, WriteVideo;
  }

  /** The LCD enable bit: nothing, or the top of a blank frame. */
  lemma SwitchStore(p: PpuState, value: byte)
    ensures var q := WriteRegister(p, 0xFF40, value);
      q.frames == p.frames &&
      (q.log == p.log || q.log == p.log + [Cleared]) &&
      ((q.ly == 0 && q.dot == 0) || (q.ly == p.ly && q.dot == p.dot && q.mode == p.mode && q.log == p.log))
  {
    hide StatCondition, StatEdge;
  }

  lemma LyStore(p: PpuState, value: byte)
    ensures var q := WriteRegister(p, 0xFF44, value);
      q.ly == 0 && q.dot == p.dot && q.mode == p.mode && q.log == p.log && q.frames == p.frames
  {
    hide StatCondition, StatEdge;
  }

  lemma CoveredStore(p: PpuState, drawn: set<int>, address: word, value: byte)
    requires PpuInv(p) && Covered(p, drawn) && !LateLyWrite(p, Store(address, value))
    ensures Covered(WriteRegister(p, address, value), DrawnAfter(p, drawn, Store(address, value)))
    ensures WriteRegister(p, address, value).frames == p.frames
  {
    if address == 0xFF40 {
      SwitchStore(p, value);
    } else if address == 0xFF44 {
      LyStore(p, value);
    } else {
      OtherStore(p, address, value);
    }
    hide WriteRegister, StatCondition;
  }

  lemma CoveredEvent(p: PpuState, drawn: set<int>, e: PpuEvent)
    requires PpuInv(p) && Covered(p, drawn) && !LateLyWrite(p, e)
    ensures Covered(PpuApply(p, e), DrawnAfter(p, drawn, e))
    ensures PpuApply(p, e).frames > p.frames ==> forall line | 0 <= line < VISIBLE_SCANLINES :: line in drawn
  {
    hide Next, WriteRegister, VramOffset, PpuInv;
    match e
    case Tick => CoveredDot(p, drawn);
    case Store(a, v) => CoveredStore(p, drawn, a, v);
    case _ =>
  }

  /** Right after a pulse there is nothing to cover. */
  lemma PulseStartsVBlank(p: PpuState)
    requires PpuInv(p)
    ensures Next(p).frames > p.frames ==> Next(p).ly >= VISIBLE_SCANLINES
  {
    hide StatCondition, StatEdge;
  }

  lemma CoveredAtPulse(p: PpuState, drawn: set<int>, e: PpuEvent)
    requires PpuInv(p) && PpuApply(p, e).frames > p.frames
    ensures Covered(PpuApply(p, e), drawn)
  {
    if e.Tick? {
      PulseStartsVBlank(p);
    } else {
      OnlyDotsPulse(p, e);
    }
    hide Next, WriteRegister;
  }

  lemma {:induction false} CoveredTrace(events: seq<PpuEvent>)
    requires NoLateLyWrite(INITIAL_PPU, events)
    ensures PpuInv(PpuTrace(INITIAL_PPU, events)) && Covered(PpuTrace(INITIAL_PPU, events), Drawn(INITIAL_PPU, events))
  {
    hide PpuApply, LateLyWrite, DrawnAfter, PpuInv;
    StatLineConsistent(events);
    if events != [] {
      hide Covered;
      var before := events[..|events| - 1];
      var p, e := PpuTrace(INITIAL_PPU, before), events[|events| - 1];
      StatLineConsistent(before);
      if PpuApply(p, e).frames > p.frames {
        CoveredAtPulse(p, Drawn(INITIAL_PPU, events), e);
      } else {
        CoveredTrace(before);
        CoveredEvent(p, Drawn(INITIAL_PPU, before), e);
      }
    } else {
      assert INITIAL_PPU.dot == 0 && INITIAL_PPU.ly == 0;
    }
  }

  /** Over every run from power-on, LY writes, LCD toggles and all other accesses included: as long as no
      LY write came at dot 247 or later of a VBlank line since the last pulse, a pulse announces a frame of
      which each of lines 0 to 143 was drawn since that pulse. */
  lemma PulsesAnnounceWholeFrames(events: seq<PpuEvent>, e: PpuEvent)
    requires NoLateLyWrite(INITIAL_PPU, events)
    ensures var p := PpuTrace(INITIAL_PPU, events);
      PpuApply(p, e).frames > p.frames ==>
        forall line | 0 <= line < VISIBLE_SCANLINES :: line in Drawn(INITIAL_PPU, events)
  {
    hide PpuApply, DrawnAfter, PpuInv, Covered;
    CoveredTrace(events);
    var p := PpuTrace(INITIAL_PPU, events);
    if e.Tick? {
      CoveredEvent(p, Drawn(INITIAL_PPU, events), e);
    } else {
      OnlyDotsPulse(p, e);
    }
  }

  lemma OnlyDotsPulse(p: PpuState, e: PpuEvent)
    requires !e.Tick?
    ensures PpuApply(p, e).frames == p.frames
  {
    hide StatCondition, StatEdge, StatGlitch, WriteVideo, VramOffset;
  }
}
