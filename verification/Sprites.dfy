/** Sprite selection and tile fetch addresses of the PPU (core/src/ppu.rs). */
module Sprites {
  import opened Base
  import opened PpuDevice

  const SPRITES := 40
  const MAX_PER_LINE := 10

  datatype Pixel = Pixel(color: int, useObp1: bool, cgbPalette: int)

  type Sprite = i: int | 0 <= i < SPRITES

  predicate ObjEnabled(lcdc: byte) { Bit(lcdc, 0x02) }

  function Height(lcdc: byte): int { if Bit(lcdc, 0x04) then 16 else 8 }

  function Top(v: Video, i: Sprite): int {
    var y: int := v.oam[i * 4];
    y - 16
  }

  function X(v: Video, i: Sprite): byte { v.oam[i * 4 + 1] }

  function Attributes(v: Video, i: Sprite): byte { v.oam[i * 4 + 3] }

  predicate OnLine(v: Video, lcdc: byte, y: byte, i: Sprite) {
    Top(v, i) <= y < Top(v, i) + Height(lcdc)
  }

  predicate Covers(v: Video, lcdc: byte, x: byte, y: byte, i: Sprite) {
    OnLine(v, lcdc, y, i) && X(v, i) - 8 <= x < X(v, i)
  }

  /** Sprites on the line that come before OAM index `i`. */
  function OnLineBefore(v: Video, lcdc: byte, y: byte, i: nat): nat
    requires i <= SPRITES
  {
    if i == 0 then 0 else OnLineBefore(v, lcdc, y, i - 1) + if OnLine(v, lcdc, y, i - 1) then 1 else 0
  }

  /** The offset of a sprite's tile row in VRAM; the row's second byte follows it. */
  function TileRow(v: Video, lcdc: byte, y: byte, i: Sprite): (offset: nat)
    requires OnLine(v, lcdc, y, i)
    ensures offset + 1 < 0x4000
  {
    var attributes := Attributes(v, i);
    var row := if Bit(attributes, 0x40) then Height(lcdc) - 1 - (y - Top(v, i)) else y - Top(v, i);
    var index: byte := v.oam[i * 4 + 2];
    var tile := if Height(lcdc) == 16 then (index - index % 2 + row / 8) % 256 else index;
    (if v.cgb && Bit(attributes, 0x08) then 0x2000 else 0) + tile * 16 + (row % 8) * 2
  }

  function TwoBits(low: byte, high: byte, bit: int): (color: int)
    requires 0 <= bit < 8
    ensures 0 <= color < 4
  {
    (if Bit(high, BitWeight(bit)) then 2 else 0) + if Bit(low, BitWeight(bit)) then 1 else 0
  }

  function Color(v: Video, lcdc: byte, x: byte, y: byte, i: Sprite): (color: int)
    requires Covers(v, lcdc, x, y, i)
    ensures 0 <= color < 4
  {
    var col := x - (X(v, i) - 8);
    var flipped := if Bit(Attributes(v, i), 0x20) then 7 - col else col;
    var row := TileRow(v, lcdc, y, i);
    TwoBits(v.vram[row], v.vram[row + 1], 7 - flipped)
  }

  /** The first ten sprites on the line compete with their opaque pixels. */
  predicate Candidate(v: Video, lcdc: byte, x: byte, y: byte, i: Sprite) {
    OnLineBefore(v, lcdc, y, i) < MAX_PER_LINE && Covers(v, lcdc, x, y, i) && Color(v, lcdc, x, y, i) != 0
  }

  /** DMG: the smaller X wins, then the smaller OAM index; CGB: the smaller OAM index. */
  predicate Beats(v: Video, i: Sprite, j: Sprite) {
    if v.cgb then i < j else X(v, i) < X(v, j) || (X(v, i) == X(v, j) && i < j)
  }

  predicate Wins(v: Video, lcdc: byte, x: byte, y: byte, i: Sprite) {
    Candidate(v, lcdc, x, y, i) &&
    forall j: Sprite :: Candidate(v, lcdc, x, y, j) && j != i ==> Beats(v, i, j)
  }

  function PixelOf(v: Video, lcdc: byte, x: byte, y: byte, i: Sprite): Pixel
    requires Covers(v, lcdc, x, y, i)
  {
    Pixel(Color(v, lcdc, x, y, i), Bit(Attributes(v, i), 0x10), Attributes(v, i) % 8)
  }

  /** The winner's pixel, unless its priority bit lets an enabled nonzero background hide it. */
  function Shown(v: Video, lcdc: byte, x: byte, y: byte, background: int, i: Sprite): Option<Pixel>
    requires Covers(v, lcdc, x, y, i)
  {
    if Bit(Attributes(v, i), 0x80) && Bit(lcdc, 0x01) && background != 0 then None
    else Some(PixelOf(v, lcdc, x, y, i))
  }

  lemma {:induction false} OnLineBeforeMonotone(v: Video, lcdc: byte, y: byte, i: nat, j: nat)
    requires i <= j <= SPRITES
    ensures OnLineBefore(v, lcdc, y, i) <= OnLineBefore(v, lcdc, y, j)
    decreases j - i
  {
    if i < j {
      OnLineBeforeMonotone(v, lcdc, y, i, j - 1);
    }
  }

  /** The first loop: exactly the first ten sprites on the line, in OAM order. */
  method ScanLine(v: Video, lcdc: byte, y: byte) returns (line: seq<Sprite>)
    ensures forall i: Sprite :: i in line <==> OnLine(v, lcdc, y, i) && OnLineBefore(v, lcdc, y, i) < MAX_PER_LINE
    ensures forall a, b | 0 <= a < b < |line| :: line[a] < line[b]
    ensures |line| <= MAX_PER_LINE
  {
    hide OnLine;
    line := [];
    var i := 0;
    while i < SPRITES
      invariant 0 <= i <= SPRITES
      invariant |line| == OnLineBefore(v, lcdc, y, i) < MAX_PER_LINE
      invariant forall k: Sprite :: k in line <==> k < i && OnLine(v, lcdc, y, k)
      invariant forall k: Sprite | k < i :: OnLineBefore(v, lcdc, y, k) < MAX_PER_LINE
      invariant forall a, b | 0 <= a < b < |line| :: line[a] < line[b]
      invariant forall a | 0 <= a < |line| :: line[a] < i
    {
      if OnLine(v, lcdc, y, i) {
        line := line + [i];
        if |line| == MAX_PER_LINE {
          forall k: Sprite | k > i ensures OnLineBefore(v, lcdc, y, k) >= MAX_PER_LINE {
            OnLineBeforeMonotone(v, lcdc, y, i + 1, k);
          }
          return;
        }
      }
      i := i + 1;
    }
  }

  predicate Opaque(v: Video, lcdc: byte, x: byte, y: byte, i: Sprite) {
    Covers(v, lcdc, x, y, i) && Color(v, lcdc, x, y, i) != 0
  }

  /** The second loop: the best opaque sprite of a line in OAM order. */
  method PickCandidate(v: Video, lcdc: byte, x: byte, y: byte, line: seq<Sprite>) returns (best: Option<Sprite>)
    requires forall a, b | 0 <= a < b < |line| :: line[a] < line[b]
    ensures best.None? ==> forall i | i in line :: !Opaque(v, lcdc, x, y, i)
    ensures best.Some? ==> best.value in line && Opaque(v, lcdc, x, y, best.value)
    ensures best.Some? ==>
      forall j | j in line && Opaque(v, lcdc, x, y, j) && j != best.value :: Beats(v, best.value, j)
  {
    hide Opaque, X;
    best := None;
    for n := 0 to |line|
      invariant best.None? ==> forall m | 0 <= m < n :: !Opaque(v, lcdc, x, y, line[m])
      invariant best.Some? ==> best.value in line[..n] && Opaque(v, lcdc, x, y, best.value)
      invariant best.Some? ==>
        (forall m | 0 <= m < n && Opaque(v, lcdc, x, y, line[m]) && line[m] != best.value ::
          Beats(v, best.value, line[m]))
    {
      var i := line[n];
      if Opaque(v, lcdc, x, y, i) {
        if best.None? {
          best := Some(i);
        } else {
          var b := best.value;
          if (!v.cgb && (X(v, i) < X(v, b) || (X(v, i) == X(v, b) && i < b))) || (v.cgb && i < b) {
            best := Some(i);
          }
        }
      }
    }
  }

  /** `sprite_pixel` meets its specification: nothing without a candidate or with sprites disabled,
      otherwise what the one winning sprite shows. */
  method SpritePixel(v: Video, lcdc: byte, x: byte, y: byte, background: int) returns (pixel: Option<Pixel>)
    ensures !ObjEnabled(lcdc) ==> pixel.None?
    ensures (forall i: Sprite :: !Candidate(v, lcdc, x, y, i)) ==> pixel.None?
    ensures ObjEnabled(lcdc) && (exists i: Sprite :: Candidate(v, lcdc, x, y, i)) ==>
      exists i: Sprite :: Wins(v, lcdc, x, y, i) && pixel == Shown(v, lcdc, x, y, background, i)
  {
    if !ObjEnabled(lcdc) {
      return None;
    }
    var line := ScanLine(v, lcdc, y);
    var best := PickCandidate(v, lcdc, x, y, line);
    CandidateIff(v, lcdc, x, y, line);
    hide OnLine, OnLineBefore, Beats, Color, Candidate, Opaque, ObjEnabled;
    match best {
      case None =>
        pixel := None;
      case Some(i) =>
        assert Wins(v, lcdc, x, y, i);
        CandidateCovers(v, lcdc, x, y, i);
        pixel := Shown(v, lcdc, x, y, background, i);
    }
  }

  lemma CandidateCovers(v: Video, lcdc: byte, x: byte, y: byte, i: Sprite)
    requires Candidate(v, lcdc, x, y, i)
    ensures Covers(v, lcdc, x, y, i)
  {
  }

  lemma CandidateIff(v: Video, lcdc: byte, x: byte, y: byte, line: seq<Sprite>)
    requires forall i: Sprite :: i in line <==> OnLine(v, lcdc, y, i) && OnLineBefore(v, lcdc, y, i) < MAX_PER_LINE
    ensures forall i: Sprite :: Candidate(v, lcdc, x, y, i) <==> i in line && Opaque(v, lcdc, x, y, i)
  {
    hide OnLineBefore, Color, OnLine;
  }

  /** At most one sprite wins, so the specification determines the pixel. */
  lemma WinnerUnique(v: Video, lcdc: byte, x: byte, y: byte, i: Sprite, j: Sprite)
    requires Wins(v, lcdc, x, y, i) && Wins(v, lcdc, x, y, j)
    ensures i == j
  {
    hide Candidate, X;
  }

  // -------------------------------------------------- background tile fetches

  /** Signed tile numbers address the block around 0x1000. */
  function TileDataRow(lcdc: byte, tile: byte, row: int): (offset: nat)
    requires 0 <= row < 8
    ensures offset + 1 < 0x1800
  {
    if Bit(lcdc, 0x10) then tile * 16 + row * 2
    else 0x1000 + (if tile >= 128 then tile - 256 else tile) * 16 + row * 2
  }

  predicate WindowVisible(v: Video, lcdc: byte, x: byte, y: byte) {
    Bit(lcdc, 0x20) && y >= v.wy && v.wx <= 166 && x + 7 >= v.wx
  }

  function MapBase(lcdc: byte, window: bool): int {
    if Bit(lcdc, if window then 0x40 else 0x08) then 0x1C00 else 0x1800
  }

  datatype BackgroundPixel = BackgroundPixel(color: int, cgbPalette: int, cgbPriority: bool)

  /** For all memory contents and register values every VRAM index of a background fetch is in range. */
  function Background(v: Video, lcdc: byte, x: byte, y: byte): (p: BackgroundPixel)
    ensures 0 <= p.color < 4 && 0 <= p.cgbPalette < 8
  {
    if !v.cgb && !Bit(lcdc, 0x01) then BackgroundPixel(0, 0, false)
    else
      var window := WindowVisible(v, lcdc, x, y);
      var fetchX := if window then (x + 7 - v.wx) % 256 else (x + v.scx) % 256;
      var fetchY := if window then y - v.wy else (y + v.scy) % 256;
      var cell := MapBase(lcdc, window) + (fetchY / 8) * 32 + fetchX / 8;
      var tile := v.vram[cell];
      var attributes: byte := if v.cgb then v.vram[0x2000 + cell] else 0;
      var row := if Bit(attributes, 0x40) then 7 - fetchY % 8 else fetchY % 8;
      var column := if Bit(attributes, 0x20) then 7 - fetchX % 8 else fetchX % 8;
      var data := (if v.cgb && Bit(attributes, 0x08) then 0x2000 else 0) + TileDataRow(lcdc, tile, row);
      BackgroundPixel(TwoBits(v.vram[data], v.vram[data + 1], 7 - column), attributes % 8, attributes >= 0x80)
  }
}
