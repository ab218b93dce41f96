/** Whole-frame facts about the PPU automaton: positions, rendered lines, VBlank pulses, and the
    exactness of the interrupt hint. */
module PpuFrames {
  import opened Base
  import opened PpuDevice

  const FRAME_DOTS := 70224          // 154 lines of 456 dots
  const VBLANK_POSITION := 65664     // line 144, dot 0

  function Position(p: PpuState): int { p.ly * CYCLES_PER_SCANLINE + p.dot }

  predicate Running(p: PpuState) { PpuInv(p) && LcdOn(p) }

  /** Running past the start-up delay with the mode that belongs to the position; position 0 just
      after the delay still shows HBlank. */
  predicate OnTrack(p: PpuState) {
    Running(p) && p.delay == 0 &&
    (p.mode == ModeAt(p.ly, p.dot) || (Position(p) == 0 && p.mode == HBlank))
  }

  /** The positions at which a line is rendered: the start of HBlank of a visible line. */
  predicate Renders(r: int) { r % CYCLES_PER_SCANLINE == 248 && r < VBLANK_POSITION }

  function LineOf(r: int): int { r / CYCLES_PER_SCANLINE }

  /** Lines rendered and pulses raised on the way from position 0 to the unwrapped position `x`. */
  function LinesBy(x: nat): nat { 144 * (x / FRAME_DOTS) + Min(144, (x % FRAME_DOTS + 208) / CYCLES_PER_SCANLINE) }

  function PulsesBy(x: nat): nat { (x + 4560) / FRAME_DOTS }

  /** The a-th to the (b-1)-th scanline of the endless top-to-bottom raster. */
  function Lines(p: PpuState, a: nat, b: nat): (s: seq<FrameOp>)
    requires a <= b
    ensures |s| == b - a
  {
    if a == b then [] else Lines(p, a, b - 1) + [Scanline((b - 1) % 144, p.lcdc, p.video)]
  }

  lemma {:induction false} LineAt(p: PpuState, a: nat, b: nat, i: nat)
    requires a + i < b
    ensures Lines(p, a, b)[i] == Scanline((a + i) % 144, p.lcdc, p.video)
  {
    if a + i < b - 1 {
      LineAt(p, a, b - 1, i);
    }
  }

  lemma PositionSplit(p: PpuState)
    requires PpuInv(p)
    ensures Position(p) / CYCLES_PER_SCANLINE == p.ly && Position(p) % CYCLES_PER_SCANLINE == p.dot
    ensures 0 <= Position(p) < FRAME_DOTS
  {
  }

  lemma LinesStep(x: nat)
    ensures var r := (x + 1) % FRAME_DOTS;
      LinesBy(x + 1) == LinesBy(x) + (if Renders(r) then 1 else 0) && (Renders(r) ==> LinesBy(x) % 144 == LineOf(r))
  {
    var c, r := x / FRAME_DOTS, x % FRAME_DOTS;
    if r == FRAME_DOTS - 1 {
      assert (x + 1) / FRAME_DOTS == c + 1 && (x + 1) % FRAME_DOTS == 0;
    } else {
      assert (x + 1) / FRAME_DOTS == c && (x + 1) % FRAME_DOTS == r + 1;
      DivSucc(r + 208, CYCLES_PER_SCANLINE);
    }
  }

  lemma PulsesStep(x: nat)
    ensures PulsesBy(x + 1) == PulsesBy(x) + (if (x + 1) % FRAME_DOTS == VBLANK_POSITION then 1 else 0)
  {
    DivSucc(x + 4560, FRAME_DOTS);
  }

  /** What one dot does, in terms of the position it reaches. */
  lemma TrackStep(p: PpuState)
    requires OnTrack(p)
    ensures var q, r := Next(p), (Position(p) + 1) % FRAME_DOTS;
      OnTrack(q) && q.mode == ModeAt(q.ly, q.dot) && Position(q) == r &&
      q.frames == p.frames + (if r == VBLANK_POSITION then 1 else 0) &&
      q.log == p.log + (if Renders(r) then [Scanline(LineOf(r), p.lcdc, p.video)] else [])
  {
    hide StatCondition, StatEdge;
    InvTick(p);
    var q := Dot(p);
    assert Next(p) == Latched(q);
    PositionSplit(p);
    if p.ly == 153 && p.dot == 455 {
      assert Position(q) == 0;
    } else {
      assert Position(q) == Position(p) + 1;
    }
    PositionSplit(Next(p));
  }

  lemma ModSucc(x: nat, m: int)
    requires m > 0
    ensures (x % m + 1) % m == (x + 1) % m
  {
    DivShift(x % m + 1, m, x / m);
  }

  /** `q` is where the raster is `n` dots after `p`: the position has moved by n modulo the frame, the
      mode is a function of the position, the pulses raised are the crossings of the VBlank position,
      and the lines rendered are exactly the ones passed, in raster order. */
  predicate FrameAfter(p: PpuState, q: PpuState, n: nat)
    requires 0 <= Position(p)
  {
    var x: nat := Position(p);
    OnTrack(q) && Position(q) == (x + n) % FRAME_DOTS && (n > 0 ==> q.mode == ModeAt(q.ly, q.dot)) &&
    q.frames == p.frames + (PulsesBy(x + n) - PulsesBy(x)) &&
    LinesBy(x) <= LinesBy(x + n) && q.log == p.log + Lines(p, LinesBy(x), LinesBy(x + n))
  }

  lemma FrameStep(p: PpuState, u: PpuState, n: nat)
    requires OnTrack(p) && 0 <= Position(p) && FrameAfter(p, u, n) && SameControls(p, u)
    ensures FrameAfter(p, Next(u), n + 1)
  {
    var x: nat := Position(p) + n;
    hide Next, LinesBy, PulsesBy, OnTrack, Position, ModeAt, Renders, LineOf, Lines;
    LinesAfterStep(p, u, x);
    TrackStep(u);
    ModSucc(x, FRAME_DOTS);
    PulsesStep(x);
  }

  lemma LinesAfterStep(p: PpuState, u: PpuState, x: nat)
    requires OnTrack(u) && Position(u) == x % FRAME_DOTS && SameControls(p, u) && 0 <= Position(p)
    requires LinesBy(Position(p)) <= LinesBy(x) && u.log == p.log + Lines(p, LinesBy(Position(p)), LinesBy(x))
    ensures LinesBy(Position(p)) <= LinesBy(x + 1)
    ensures Next(u).log == p.log + Lines(p, LinesBy(Position(p)), LinesBy(x + 1))
  {
    LogGrows(p, u.log, LinesBy(Position(p)), LinesBy(x));
    hide Next, LinesBy, OnTrack, Position, ModeAt, Renders, LineOf, Lines;
    TrackStep(u);
    ModSucc(x, FRAME_DOTS);
    LinesStep(x);
  }

  lemma LogGrows(p: PpuState, log: seq<FrameOp>, a: nat, b: nat)
    requires a <= b && log == p.log + Lines(p, a, b)
    ensures log + [Scanline(b % 144, p.lcdc, p.video)] == p.log + Lines(p, a, b + 1)
  {
  }

  /** The frame theorem, for every number of steps with the LCD on and no register writes. */
  lemma {:induction false} FrameTheorem(p: PpuState, n: nat)
    requires OnTrack(p)
    ensures 0 <= Position(p) < FRAME_DOTS && FrameAfter(p, PpuRun(p, n), n)
  {
    PositionSplitOnTrack(p);
    hide Next, LinesBy, PulsesBy, OnTrack, Position;
    if n > 0 {
      hide FrameAfter;
      FrameTheorem(p, n - 1);
      PpuRunControls(p, n - 1);
      FrameStep(p, PpuRun(p, n - 1), n - 1);
    } else {
      SmallMod(Position(p), FRAME_DOTS);
    }
  }

  lemma SmallMod(x: int, m: int)
    requires 0 <= x < m
    ensures x % m == x
  {
  }

  lemma PositionSplitOnTrack(p: PpuState)
    requires OnTrack(p)
    ensures 0 <= Position(p) < FRAME_DOTS
  {
    PositionSplit(p);
  }

  /** Between two consecutive VBlank pulses lines 0 to 143 are each rendered exactly once, in order. */
  lemma FrameBetweenPulses(p: PpuState)
    requires OnTrack(p) && Position(p) == VBLANK_POSITION
    ensures var q := PpuRun(p, FRAME_DOTS);
      Position(q) == VBLANK_POSITION && q.frames == p.frames + 1 &&
      PpuRun(p, FRAME_DOTS - 1).frames == p.frames &&
      |q.log| == |p.log| + 144 &&
      forall i | 0 <= i < 144 :: q.log[|p.log| + i] == Scanline(i, p.lcdc, p.video)
  {
    hide PpuRun, OnTrack, PpuInv, Lines, ModeAt, Position;
    FrameTheorem(p, FRAME_DOTS);
    FrameTheorem(p, FRAME_DOTS - 1);
    var q := PpuRun(p, FRAME_DOTS);
    forall i | 0 <= i < 144 ensures q.log[|p.log| + i] == Scanline(i, p.lcdc, p.video) {
      LineAt(p, 144, 288, i);
    }
  }

  /** A dot of the start-up delay; the last one is followed by position 0. */
  lemma DelayStep(p: PpuState)
    requires Running(p) && p.delay > 0
    ensures var q := Next(p);
      Running(q) && q.delay == p.delay - 1 && q.log == p.log && q.frames == p.frames && SameControls(p, q) &&
      (q.delay == 0 ==> Position(q) == 0 && q.mode == HBlank)
  {
    InvTick(p);
    hide StatCondition, StatEdge;
  }

  lemma RunFirst(p: PpuState, n: nat)
    requires n > 0
    ensures PpuRun(p, n) == PpuRun(Next(p), n - 1)
  {
    hide Next;
    assert PpuRun(p, 0) == p && PpuRun(p, 1) == Next(p);
    RunSplit(Next, p, 1, n - 1);
  }

  lemma {:induction false} StartupRun(p: PpuState)
    requires Running(p)
    ensures var q := PpuRun(p, p.delay);
      Running(q) && q.delay == 0 && q.log == p.log && q.frames == p.frames && SameControls(p, q) &&
      (p.delay > 0 ==> Position(q) == 0 && q.mode == HBlank)
    decreases p.delay
  {
    PpuRunControls(p, p.delay);
    if p.delay > 0 {
      var q := Next(p);
      DelayStep(p);
      hide Next, Position, Running, PpuRun;
      StartupRun(q);
      RunFirst(p, p.delay);
    }
  }

  lemma SwitchedOn(off: PpuState, value: byte)
    requires PpuInv(off) && !LcdOn(off) && value >= 0x80
    ensures var p := WriteLcdc(off, value);
      Running(p) && p.delay == 16 && p.log == off.log && p.frames == off.frames && p.video == off.video &&
      p.lcdc == value
  {
    InvLcdc(off, value);
    hide StatCondition, StatEdge;
  }

  /** From position 0 the first pulse comes after exactly lines 0 to 143. */
  lemma FrameFromTop(p: PpuState)
    requires OnTrack(p) && Position(p) == 0
    ensures var q := PpuRun(p, VBLANK_POSITION);
      q.frames == p.frames + 1 && PpuRun(p, VBLANK_POSITION - 1).frames == p.frames &&
      |q.log| == |p.log| + 144 &&
      forall i | 0 <= i < 144 :: q.log[|p.log| + i] == Scanline(i, p.lcdc, p.video)
  {
    hide PpuRun, OnTrack, PpuInv, Lines, ModeAt, Position;
    FrameTheorem(p, VBLANK_POSITION);
    FrameTheorem(p, VBLANK_POSITION - 1);
    var q := PpuRun(p, VBLANK_POSITION);
    forall i | 0 <= i < 144 ensures q.log[|p.log| + i] == Scanline(i, p.lcdc, p.video) {
      LineAt(p, 0, 144, i);
    }
  }

  /** The first frame after the LCD is switched on is complete: its first pulse comes after the
      start-up delay and lines 0 to 143, each rendered exactly once in order. */
  lemma FirstFrameComplete(off: PpuState, value: byte)
    requires PpuInv(off) && !LcdOn(off) && value >= 0x80
    ensures var p := WriteLcdc(off, value);
      var q := PpuRun(p, 16 + VBLANK_POSITION);
      q.frames == off.frames + 1 && PpuRun(p, 16 + VBLANK_POSITION - 1).frames == off.frames &&
      |q.log| == |off.log| + 144 &&
      forall i | 0 <= i < 144 :: q.log[|off.log| + i] == Scanline(i, value, off.video)
  {
    hide WriteLcdc, LcdOn, PpuInv, Running, ModeAt, PpuRun, OnTrack, Position;
    SwitchedOn(off, value);
    var p := WriteLcdc(off, value);
    StartupRun(p);
    var u := PpuRun(p, 16);
    StartIsOnTrack(u);
    FrameFromTop(u);
    RunSplits(p, 16, VBLANK_POSITION);
    RunSplits(p, 16, VBLANK_POSITION - 1);
  }

  lemma RunSplits(p: PpuState, m: nat, n: nat)
    ensures PpuRun(p, m + n) == PpuRun(PpuRun(p, m), n)
  {
    hide Next;
    RunSplit(Next, p, m, n);
  }

  lemma StartIsOnTrack(u: PpuState)
    requires Running(u) && u.delay == 0 && Position(u) == 0 && u.mode == HBlank
    ensures OnTrack(u)
  {
  }

  // ------------------------------------------------------------ pulse spacing

  /** Dots until the next VBlank pulse of a running LCD. */
  function DotsToPulse(p: PpuState): int {
    if p.delay > 0 then p.delay + VBLANK_POSITION
    else if Position(p) < VBLANK_POSITION then VBLANK_POSITION - Position(p)
    else VBLANK_POSITION + FRAME_DOTS - Position(p)
  }

  /** A clock that every dot of a running LCD advances by one, LY writes aside. */
  function RasterClock(p: PpuState): int { p.frames * FRAME_DOTS - DotsToPulse(p) }

  lemma DotsToPulseBounds(p: PpuState)
    requires Running(p)
    ensures 1 <= DotsToPulse(p) <= FRAME_DOTS
  {
  }

  lemma RasterStep(p: PpuState)
    requires Running(p)
    ensures Running(Next(p)) && RasterClock(Next(p)) == RasterClock(p) + 1
  {
    hide StatCondition, StatEdge;
    InvTick(p);
    if p.delay == 0 {
      assert Next(p) == Latched(Dot(p));
    }
  }

  lemma {:induction false} RasterRun(p: PpuState, n: nat)
    requires Running(p)
    ensures Running(PpuRun(p, n)) && RasterClock(PpuRun(p, n)) == RasterClock(p) + n
  {
    hide Next, Running, RasterClock;
    if n > 0 {
      RasterRun(p, n - 1);
      RasterStep(PpuRun(p, n - 1));
    }
  }

  /** Register writes other than to LY and other than those that toggle the LCD leave the raster alone. */
  lemma QuietWrite(p: PpuState, address: word, value: byte)
    requires PpuInv(p) && address != 0xFF44 && (address == 0xFF40 ==> (value >= 0x80 <==> LcdOn(p)))
    ensures var q := WriteRegister(p, address, value);
      RasterClock(q) == RasterClock(p) && LcdOn(q) == LcdOn(p) && q.frames == p.frames && q.frameReady == p.frameReady
  {
    hide StatCondition, StatEdge, WriteVideo, StatGlitch, PpuInv;
  }

  /** Away from VBlank an LY write only puts the next pulse off. */
  lemma VisibleLyWrite(p: PpuState, value: byte)
    requires PpuInv(p) && (LcdOn(p) ==> p.ly < VISIBLE_SCANLINES)
    ensures var q := WriteRegister(p, 0xFF44, value);
      LcdOn(q) == LcdOn(p) && q.frames == p.frames && q.frameReady == p.frameReady &&
      (LcdOn(p) ==> RasterClock(q) <= RasterClock(p))
  {
    hide StatCondition, StatEdge;
  }

  /** Fewer than a frame's dots, however split by writes that bring no pulse nearer, raise at most one: any
      two running states, the later raster clock less than a frame ahead, differ by at most one pulse. */
  lemma AtMostOnePulse(p: PpuState, q: PpuState)
    requires Running(p) && Running(q)
    requires p.frames <= q.frames && RasterClock(q) < RasterClock(p) + FRAME_DOTS
    ensures p.frames <= q.frames <= p.frames + 1
  {
    DotsToPulseBounds(p);
    DotsToPulseBounds(q);
    hide PpuInv, DotsToPulse;
  }

  // ------------------------------------------------------ the hint is exact

  predicate ConditionAt(p: PpuState, x: int) {
    ModeEnabled(p.sources, ModeAt(x / CYCLES_PER_SCANLINE, x % CYCLES_PER_SCANLINE)) ||
    (p.sources.lyc && x / CYCLES_PER_SCANLINE == p.lyc)
  }

  /** Steps, at least one, from `p` to the position `x`. */
  function StepsTo(p: PpuState, x: nat): int {
    if x > Position(p) then x - Position(p) else x + FRAME_DOTS - Position(p)
  }

  lemma RunPosition(p: PpuState, n: nat)
    requires OnTrack(p)
    ensures var q := PpuRun(p, n);
      OnTrack(q) && Position(q) == (Position(p) + n) % FRAME_DOTS && (n > 0 ==> q.mode == ModeAt(q.ly, q.dot)) &&
      Position(q) / CYCLES_PER_SCANLINE == q.ly && Position(q) % CYCLES_PER_SCANLINE == q.dot
  {
    hide PpuRun, OnTrack, Position, ModeAt, Lines, LinesBy, PulsesBy;
    FrameTheorem(p, n);
    PositionSplitFrom(PpuRun(p, n));
  }

  lemma StepsToLand(p: PpuState, x: nat)
    requires OnTrack(p) && x < FRAME_DOTS
    ensures StepsTo(p, x) > 0 && (Position(p) + StepsTo(p, x)) % FRAME_DOTS == x
  {
    PositionSplitOnTrack(p);
    hide OnTrack, Position;
  }

  lemma Arrives(p: PpuState, x: nat)
    requires OnTrack(p) && x < FRAME_DOTS
    ensures StepsTo(p, x) > 0
    ensures var q := PpuRun(p, StepsTo(p, x));
      OnTrack(q) && Position(q) == x && q.mode == ModeAt(q.ly, q.dot) && SameControls(p, q) &&
      q.ly == x / CYCLES_PER_SCANLINE && q.dot == x % CYCLES_PER_SCANLINE
  {
    hide PpuRun, OnTrack, Position, ModeAt, SameControls, StepsTo;
    StepsToLand(p, x);
    RunPosition(p, StepsTo(p, x));
    PpuRunControls(p, StepsTo(p, x));
  }

  lemma PositionSplitFrom(p: PpuState)
    requires OnTrack(p)
    ensures Position(p) / CYCLES_PER_SCANLINE == p.ly && Position(p) % CYCLES_PER_SCANLINE == p.dot
  {
    PositionSplit(p);
  }

  function Before(x: nat): nat
    requires x < FRAME_DOTS
  {
    if x == 0 then FRAME_DOTS - 1 else x - 1
  }

  /** A position where the STAT condition starts to hold raises the interrupt when it is reached. */
  lemma EdgeRequests(p: PpuState, x: nat)
    requires OnTrack(p) && x < FRAME_DOTS && !ConditionAt(p, Before(x)) && ConditionAt(p, x)
    ensures StepsTo(p, Before(x)) > 0
    ensures PpuRaised(p, StepsTo(p, Before(x)) + 1) & 2 == 2
  {
    Arrives(p, Before(x));
    var n: nat := StepsTo(p, Before(x));
    var u := PpuRun(p, n);
    hide OnTrack, Next, PpuRun, ConditionAt, Before, StepsTo, Position, ModeAt, SameControls;
    LineRises(p, u, x);
    LastStepRaises(p, n);
  }

  /** The dot that reaches a position where the condition holds, from one where it does not, is an edge. */
  lemma LineRises(p: PpuState, u: PpuState, x: nat)
    requires x < FRAME_DOTS && OnTrack(u) && Position(u) == Before(x) && SameControls(p, u)
    requires u.mode == ModeAt(u.ly, u.dot)
    requires u.ly == Before(x) / CYCLES_PER_SCANLINE && u.dot == Before(x) % CYCLES_PER_SCANLINE
    requires !ConditionAt(p, Before(x)) && ConditionAt(p, x)
    ensures PpuStep(u).stat
  {
    assert !u.lineHigh;
    TrackStep(u);
    StepControls(u);
    var q := Next(u);
    assert Position(q) == x;
    PositionSplit(q);
    assert StatCondition(q) by { InvTick(u); }
  }

  lemma LastStepRaises(p: PpuState, n: nat)
    requires PpuStep(PpuRun(p, n)).stat
    ensures PpuRaised(p, n + 1) & 2 == 2
  {
    hide PpuStep;
  }

  lemma PulseRequests(p: PpuState)
    requires OnTrack(p)
    ensures StepsTo(p, VBLANK_POSITION - 1) > 0
    ensures PpuRaised(p, StepsTo(p, VBLANK_POSITION - 1) + 1) & 1 == 1
  {
    Arrives(p, VBLANK_POSITION - 1);
    var n: nat := StepsTo(p, VBLANK_POSITION - 1);
    var u := PpuRun(p, n);
    TrackStep(u);
    assert PpuStep(u).vblank;
    hide PpuStep;
  }

  /** A dot position at which the STAT condition rises, when the hint says one exists. */
  function RisingPosition(p: PpuState): nat {
    if p.sources.hblank then (if p.lyc == 0 then 456 + 248 else 248)
    else if p.sources.vblank then (if p.sources.lyc && p.lyc == 143 then 143 * 456 else VBLANK_POSITION)
    else if p.sources.oam then (if p.lyc == 0 then 2 * 456 else 456)
    else p.lyc * 456
  }

  lemma ConditionRises(p: PpuState)
    requires p.sources.hblank || p.sources.vblank || p.sources.oam || (p.sources.lyc && p.lyc < TOTAL_SCANLINES)
    ensures var x := RisingPosition(p);
      x < FRAME_DOTS && !ConditionAt(p, Before(x)) && ConditionAt(p, x)
  {
  }

  lemma PulseHint(p: PpuState, ie: bv8)
    requires OnTrack(p) && ie & 1 != 0
    ensures exists n: nat :: PpuRaised(p, n) & ie != 0
  {
    hide OnTrack, PpuRaised, StepsTo;
    PulseRequests(p);
    var n: nat := StepsTo(p, VBLANK_POSITION - 1) + 1;
    MaskedOne(PpuRaised(p, n), ie);
  }

  lemma EdgeHint(p: PpuState, ie: bv8, x: nat)
    requires OnTrack(p) && ie & 2 != 0 && x < FRAME_DOTS && !ConditionAt(p, Before(x)) && ConditionAt(p, x)
    ensures exists n: nat :: PpuRaised(p, n) & ie != 0
  {
    hide OnTrack, PpuRaised, StepsTo, ConditionAt;
    EdgeRequests(p, x);
    var n: nat := StepsTo(p, Before(x)) + 1;
    MaskedTwo(PpuRaised(p, n), ie);
  }

  lemma OnTrackHintComplete(p: PpuState, ie: bv8)
    requires OnTrack(p) && MayRequest(p, ie)
    ensures exists n: nat :: PpuRaised(p, n) & ie != 0
  {
    hide OnTrack, PpuRaised, ConditionAt, RisingPosition, LcdOn;
    if ie & 1 != 0 {
      PulseHint(p, ie);
    } else {
      ConditionRises(p);
      EdgeHint(p, ie, RisingPosition(p));
    }
  }

  lemma MaskedOne(raised: bv8, ie: bv8)
    requires raised & 1 == 1 && ie & 1 != 0
    ensures raised & ie != 0
  {
  }

  lemma MaskedTwo(raised: bv8, ie: bv8)
    requires raised & 2 == 2 && ie & 2 != 0
    ensures raised & ie != 0
  {
  }

  lemma Settles(p: PpuState) returns (n: nat)
    requires Running(p)
    ensures OnTrack(PpuRun(p, n)) && SameControls(p, PpuRun(p, n))
  {
    StartupRun(p);
    n := p.delay;
    if p.delay == 0 {
      n := 1;
      assert PpuRun(p, 0) == p && PpuRun(p, 1) == Next(p);
      StepControls(p);
      InvTick(p);
      assert Next(p) == Latched(Dot(p));
    }
  }

  lemma Masking(a: bv8, b: bv8, ie: bv8)
    requires b & ie != 0
    ensures (a | b) & ie != 0
  {
  }

  lemma HintComplete(p: PpuState, ie: bv8)
    requires PpuInv(p) && MayRequest(p, ie)
    ensures exists n: nat :: PpuRaised(p, n) & ie != 0
  {
    var m := Settles(p);
    var u := PpuRun(p, m);
    OnTrackHintComplete(u, ie);
    hide PpuInv, MayRequest, OnTrack;
    var k: nat :| PpuRaised(u, k) & ie != 0;
    RaisedSplit(Mask, Next, p, m, k);
    hide PpuRaised, Raised;
    Masking(Raised(Mask, Next, p, m), PpuRaised(u, k), ie);
    assert PpuRaised(p, m + k) & ie != 0;
  }

  /** The scheduler's hint is exact over all reachable states: it holds just when some number of
      steps requests an interrupt that `ie` enables. */
  lemma PpuHintExact(p: PpuState, ie: bv8)
    requires PpuInv(p)
    ensures MayRequest(p, ie) <==> exists n: nat :: PpuRaised(p, n) & ie != 0
  {
    hide PpuInv, MayRequest, PpuRaised;
    if MayRequest(p, ie) {
      HintComplete(p, ie);
    } else {
      forall n: nat ensures PpuRaised(p, n) & ie == 0 {
        HintSound(p, ie, n);
      }
    }
  }
}
