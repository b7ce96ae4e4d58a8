/** The scrolling renderer of code/ch8/src/render/mod.rs: it paints the two nametables around the
    scroll split and then the 64 sprites of OAM into a `Frame`. */
module Render {
  import opened Wrappers
  import opened Frame
  import opened TilePixels

  datatype Mirroring = Vertical | Horizontal | FourScreen

  /** The part of the PPU the renderer reads. The pattern-table bases and the nametable base
      are what the control register's `bknd_pattern_addr`, `sprt_pattern_addr` and
      `nametable_addr` report; the register itself is not part of this model. */
  datatype PpuView = PpuView(
    chrRom: seq<bv8>,
    paletteTable: seq<bv8>,
    vram: seq<bv8>,
    oamData: seq<bv8>,
    mirroring: Mirroring,
    nametableAddr: nat,
    bgBank: nat,
    spriteBank: nat,
    scrollX: nat,
    scrollY: nat)

  predicate IsBank(b: nat) {
    b == 0 || b == 0x1000
  }

  /** Palette table, VRAM and OAM have the sizes `NesPPU` allocates; the scroll offsets are the
      two bytes of the scroll register. CHR ROM is the cartridge's and may have any length: a
      tile whose 16 bytes run past its end makes the renderer's slice panic. */
  predicate Valid(v: PpuView) {
    && |v.paletteTable| == 32
    && |v.vram| == 0x800
    && |v.oamData| == 256
    && IsBank(v.bgBank)
    && IsBank(v.spriteBank)
    && v.scrollX < 256 && v.scrollY < 256
  }

  /** `palette::SYSTEM_PALLETE` as a lookup from a palette entry to a colour. */
  type SystemPalette = bv8 -> Rgb

  /** The index into the 64-byte attribute table of the 4 by 4 tile block holding the tile. */
  function AttributeIndex(col: nat, row: nat): (idx: nat)
    requires col < 32 && row < 30
    ensures idx < 64
    ensures idx / 8 == row / 4 && idx % 8 == col / 4
  {
    row / 4 * 8 + col / 4
  }

  /** Which 2 by 2 quadrant of its block a tile lies in: 0 top left, 1 top right, 2 bottom left,
      3 bottom right. */
  function Quadrant(col: nat, row: nat): nat {
    col % 4 / 2 + 2 * (row % 4 / 2)
  }

  /** The palette number of a tile: two bits of its attribute byte, chosen by its quadrant. */
  function PaletteNumber(attr: bv8, col: nat, row: nat): (p: bv8)
    ensures p <= 3
    ensures p == (attr >> (2 * Quadrant(col, row))) & 3
  {
    match (col % 4 / 2, row % 4 / 2)
    case (0, 0) => attr & 0x3
    case (1, 0) => (attr >> 2) & 0x3
    case (0, 1) => (attr >> 4) & 0x3
    case (1, 1) => (attr >> 6) & 0x3
    case (_, _) => assert false; 0
  }

  /** `bg_pallette`: the universal background colour and the three colours of the tile's
      background palette. */
  function BgPalette(pt: seq<bv8>, attributeTable: seq<bv8>, col: nat, row: nat): (pal: seq<bv8>)
    requires |pt| == 32 && |attributeTable| == 64
    requires col < 32 && row < 30
    ensures var p := PaletteNumber(attributeTable[AttributeIndex(col, row)], col, row) as nat;
      && 3 + 4 * p <= 15
      && pal == [pt[0], pt[1 + 4 * p], pt[2 + 4 * p], pt[3 + 4 * p]]
  {
    var attrByte := attributeTable[row / 4 * 8 + col / 4];
    var start := 1 + PaletteNumber(attrByte, col, row) as nat * 4;
    [pt[0], pt[start], pt[start + 1], pt[start + 2]]
  }

  /** One attribute byte covers 32 by 32 pixels, but a palette choice covers a 16 by 16 area:
      tiles in the same quadrant share a palette. */
  lemma SameQuadrantSamePalette(pt: seq<bv8>, attributeTable: seq<bv8>, col: nat, row: nat, col': nat, row': nat)
    requires |pt| == 32 && |attributeTable| == 64
    requires col < 32 && row < 30 && col' < 32 && row' < 30
    requires col / 2 == col' / 2 && row / 2 == row' / 2
    ensures BgPalette(pt, attributeTable, col, row) == BgPalette(pt, attributeTable, col', row')
  {
    Halves(col);
    Halves(col');
    Halves(row);
    Halves(row');
    assert AttributeIndex(col, row) == AttributeIndex(col', row');
    var attr := attributeTable[AttributeIndex(col, row)];
    assert PaletteNumber(attr, col, row) == PaletteNumber(attr, col', row');
  }

  /** Dividing by 4 is halving twice, and the half-bit of `c % 4` is the low bit of `c / 2`. */
  lemma Halves(c: nat)
    ensures c / 4 == c / 2 / 2 && c % 4 / 2 == c / 2 % 2
  {
    var q := c / 4;
    var r := c % 4;
    assert c == 4 * q + r;
    assert c / 2 == 2 * q + r / 2;
  }

  /** `sprite_palette`: transparent, then the three colours of sprite palette `idx`. */
  function SpritePalette(pt: seq<bv8>, idx: bv8): (pal: seq<bv8>)
    requires |pt| == 32 && idx <= 3
    ensures 0x13 + 4 * idx as nat <= 0x1F
    ensures pal == [0, pt[0x11 + 4 * idx as nat], pt[0x12 + 4 * idx as nat], pt[0x13 + 4 * idx as nat]]
  {
    var start := 0x11 + (idx * 4) as nat;
    [0, pt[start], pt[start + 1], pt[start + 2]]
  }

  /** `Rect`: the half-open viewport `[x1, x2) x [y1, y2)`. */
  datatype Rect = Rect(x1: nat, y1: nat, x2: nat, y2: nat)

  predicate Contains(r: Rect, x: nat, y: nat) {
    r.x1 <= x < r.x2 && r.y1 <= y < r.y2
  }

  /** The 16 bytes of a tile start at `bank + 16 * idx`. */
  function TileBase(bank: nat, idx: bv8): nat {
    bank + idx as nat * 16
  }

  // ---------------------------------------------------------------- background

  /** The parameters of one `render_name_table` call. */
  datatype BgJob = BgJob(nameTable: seq<bv8>, viewPort: Rect, shiftX: int, shiftY: int)

  /** The shifted viewport starts on the frame, so no drawn coordinate is negative. */
  predicate JobShape(v: PpuView, j: BgJob) {
    Valid(v) && |j.nameTable| == 0x400 && j.viewPort.x1 + j.shiftX >= 0 && j.viewPort.y1 + j.shiftY >= 0
  }

  /** The 16 bytes of the tile nametable entry `i` names lie inside CHR ROM. */
  predicate TileInRom(v: PpuView, j: BgJob, i: nat)
    requires i < |j.nameTable|
  {
    TileBase(v.bgBank, j.nameTable[i]) + 16 <= |v.chrRom|
  }

  /** The tiles of entries `i < m` all lie inside CHR ROM. */
  predicate TilesInRom(v: PpuView, j: BgJob, m: nat)
    requires m <= |j.nameTable|
  {
    m == 0 || (TilesInRom(v, j, m - 1) && TileInRom(v, j, m - 1))
  }

  /** `TilesInRom` says, one entry at a time, that every entry below `m` names a tile in CHR ROM. */
  lemma {:induction false} TilesInRomAll(v: PpuView, j: BgJob, m: nat)
    requires m <= |j.nameTable|
    ensures TilesInRom(v, j, m) <==> forall i | 0 <= i < m :: TileInRom(v, j, i)
  {
    if m > 0 {
      TilesInRomAll(v, j, m - 1);
    }
  }

  /** Every prefix of a run of tiles in CHR ROM is one. */
  lemma {:induction false} TilesInRomPrefix(v: PpuView, j: BgJob, m: nat, k: nat)
    requires k <= m <= |j.nameTable| && TilesInRom(v, j, m)
    ensures TilesInRom(v, j, k)
  {
    if k < m {
      TilesInRomPrefix(v, j, m - 1, k);
    }
  }

  /** A call that paints all 960 tiles without panicking. */
  predicate JobOk(v: PpuView, j: BgJob) {
    JobShape(v, j) && TilesInRom(v, j, 0x3c0)
  }

  /** How many tiles `render_name_table` paints: those before the first whose slice of CHR ROM
      panics, or all 960. */
  function RomTiles(v: PpuView, j: BgJob): (n: nat)
    requires JobShape(v, j)
    ensures n <= 0x3c0 && TilesInRom(v, j, n)
    ensures n < 0x3c0 ==> !TileInRom(v, j, n)
    ensures n == 0x3c0 <==> JobOk(v, j)
  {
    TilesInRomAll(v, j, 0x3c0);
    RomTilesFrom(v, j, 0)
  }

  function RomTilesFrom(v: PpuView, j: BgJob, i: nat): (n: nat)
    requires JobShape(v, j) && i <= 0x3c0 && TilesInRom(v, j, i)
    ensures i <= n <= 0x3c0 && TilesInRom(v, j, n)
    ensures n < 0x3c0 ==> !TileInRom(v, j, n)
    decreases 0x3c0 - i
  {
    if i == 0x3c0 || !TileInRom(v, j, i) then i else RomTilesFrom(v, j, i + 1)
  }

  /** The tile count is the one place where the tiles so far are in CHR ROM and the next is not. */
  lemma RomTilesAt(v: PpuView, j: BgJob, i: nat)
    requires JobShape(v, j) && i <= 0x3c0 && TilesInRom(v, j, i)
    requires i < 0x3c0 ==> !TileInRom(v, j, i)
    ensures RomTiles(v, j) == i
  {
    TilesInRomAll(v, j, i);
    TilesInRomAll(v, j, RomTiles(v, j));
  }

  /** What `render_name_table` computes for one tile before its row loop: the 16 pattern
      bytes, the palette, the universal background colour `palette_table[0]`, the tile's column
      and row, and the viewport and shift of the call. */
  datatype BgTile = BgTile(tile: seq<bv8>, palette: seq<bv8>, backdrop: bv8, column: nat, tileRow: nat,
                           viewPort: Rect, shiftX: int, shiftY: int)

  predicate TileOk(t: BgTile) {
    |t.tile| == 16 && |t.palette| == 4 && t.viewPort.x1 + t.shiftX >= 0 && t.viewPort.y1 + t.shiftY >= 0
  }

  /** Tile `i` of the nametable: its 16 bytes in the background pattern table, at column
      `i % 32` and row `i / 32`, with the palette `bg_pallette` gives it. */
  function TileOf(v: PpuView, j: BgJob, i: nat): (t: BgTile)
    requires JobShape(v, j) && i < 0x3c0 && TileInRom(v, j, i)
    ensures TileOk(t)
  {
    var base := TileBase(v.bgBank, j.nameTable[i]);
    BgTile(v.chrRom[base..base + 16],
           BgPalette(v.paletteTable, j.nameTable[0x3c0..0x400], i % 32, i / 32), v.paletteTable[0],
           i % 32, i / 32, j.viewPort, j.shiftX, j.shiftY)
  }

  /** What the innermost loop reads for one row of a tile: the two plane bytes, the palette, the
      screen position of the row's left end, and the viewport and shift of the call. */
  datatype BgRow = BgRow(upper: bv8, lower: bv8, palette: seq<bv8>, backdrop: bv8, pixelX: nat, pixelY: nat,
                         viewPort: Rect, shiftX: int, shiftY: int)

  predicate RowOk(r: BgRow) {
    |r.palette| == 4 && r.viewPort.x1 + r.shiftX >= 0 && r.viewPort.y1 + r.shiftY >= 0
  }

  /** Row `y` of a tile: bytes `y` and `y + 8`, at screen position (`8 * column`, `8 * row + y`). */
  function RowOf(t: BgTile, y: nat): (r: BgRow)
    requires TileOk(t) && y < 8
    ensures RowOk(r)
  {
    BgRow(t.tile[y], t.tile[y + 8], t.palette, t.backdrop, t.column * 8, t.tileRow * 8 + y, t.viewPort, t.shiftX, t.shiftY)
  }

  /** What `render_name_table` does for the pixel `x = 7 - k` of a row: decode its colour
      number from bit `k` of the two planes, take the universal background colour for 0 and the
      palette entry otherwise, and paint it moved by the shift if it lies in the viewport. */
  function RowDraw(sys: SystemPalette, r: BgRow, k: nat): Draw
    requires RowOk(r) && k < 8
  {
    var value := PixelValue(r.upper, r.lower, k);
    var px := r.pixelX + (7 - k);
    if Contains(r.viewPort, px, r.pixelY)
    then Put((r.shiftX + px) as nat, (r.shiftY + r.pixelY) as nat,
             if value == 0 then sys(r.backdrop) else sys(r.palette[value]))
    else Skip
  }

  /** The draws of pixels `k < m` of a row, in the order of the innermost loop. */
  function RowDraws(sys: SystemPalette, r: BgRow, m: nat): seq<Draw>
    requires RowOk(r) && m <= 8
  {
    seq(m, k requires 0 <= k < m => RowDraw(sys, r, k))
  }

  /** Painting the first `k + 1` draws of a row is painting the first `k` and then draw `k`. */
  lemma RowDrawsNext(sys: SystemPalette, r: BgRow, k: nat, data: seq<bv8>)
    requires RowOk(r) && k < 8
    ensures PaintAll(data, RowDraws(sys, r, k + 1)) == Apply(PaintAll(data, RowDraws(sys, r, k)), RowDraw(sys, r, k))
  {
    assert RowDraws(sys, r, k + 1) == RowDraws(sys, r, k) + [RowDraw(sys, r, k)];
    PaintAllAppend(data, RowDraws(sys, r, k), RowDraw(sys, r, k));
  }

  /** The draws of rows `y < m` of a tile, top to bottom. */
  function TileDraws(sys: SystemPalette, t: BgTile, m: nat): (ds: seq<Draw>)
    requires TileOk(t) && m <= 8
    ensures |ds| == 8 * m
  {
    if m == 0 then [] else TileDraws(sys, t, m - 1) + RowDraws(sys, RowOf(t, m - 1), 8)
  }

  /** The draws of tiles `i < m` of the nametable, in nametable order. */
  function BgDraws(v: PpuView, sys: SystemPalette, j: BgJob, m: nat): (ds: seq<Draw>)
    requires JobShape(v, j) && m <= 0x3c0 && TilesInRom(v, j, m)
    ensures |ds| == 64 * m
  {
    if m == 0 then [] else BgDraws(v, sys, j, m - 1) + TileDraws(sys, TileOf(v, j, m - 1), 8)
  }

  /** `render_name_table`: paint every pixel of the 960 tiles of `j.nameTable` that falls in the
      viewport, moved by the shift; `ok` is false where a tile's slice of CHR ROM panics, after
      the tiles before it are painted. */
  method RenderNameTable(v: PpuView, sys: SystemPalette, frame: Frame, j: BgJob) returns (ok: bool)
    requires JobShape(v, j)
    modifies frame.data
    ensures ok <==> JobOk(v, j)
    ensures frame.data[..] == PaintAll(old(frame.data[..]), BgDraws(v, sys, j, RomTiles(v, j)))
  {
    ghost var before := frame.data[..];
    var i: nat := 0;
    while i < 0x3c0
      invariant i <= 0x3c0 && TilesInRom(v, j, i)
      invariant frame.data[..] == PaintAll(before, BgDraws(v, sys, j, i))
    {
      ok := NameTableTile(v, sys, frame, j, i);
      if !ok {
        RomTilesAt(v, j, i);
        return;
      }
      BgDrawsStep(v, sys, j, i, before);
      i := i + 1;
    }
    RomTilesAt(v, j, i);
    ok := true;
  }

  /** The body of the tile loop: tile `i`'s position, its 16 pattern bytes and its palette, then
      its rows; false, with nothing painted, where the slice runs past the end of CHR ROM. */
  method NameTableTile(v: PpuView, sys: SystemPalette, frame: Frame, j: BgJob, i: nat) returns (ok: bool)
    requires JobShape(v, j) && i < 0x3c0
    modifies frame.data
    ensures ok <==> TileInRom(v, j, i)
    ensures ok ==> frame.data[..] == PaintAll(old(frame.data[..]), TileDraws(sys, TileOf(v, j, i), 8))
    ensures !ok ==> frame.data[..] == old(frame.data[..])
  {
    var bank := v.bgBank;
    var attributeTable := j.nameTable[0x3c0..0x400];
    var tileColumn := i % 32;
    var tileRow := i / 32;
    var tileIdx := j.nameTable[i];
    if bank + tileIdx as nat * 16 + 16 > |v.chrRom| {
      return false;
    }
    var tile := v.chrRom[bank + tileIdx as nat * 16 .. bank + tileIdx as nat * 16 + 16];
    var palette := BgPalette(v.paletteTable, attributeTable, tileColumn, tileRow);
    var t := BgTile(tile, palette, v.paletteTable[0], tileColumn, tileRow, j.viewPort, j.shiftX, j.shiftY);
    assert t == TileOf(v, j, i);
    RenderTile(sys, frame, TileOf(v, j, i));
    ok := true;
  }

  /** Painting the draws of the first `i + 1` tiles is painting those of the first `i` and then
      those of tile `i`. */
  lemma BgDrawsStep(v: PpuView, sys: SystemPalette, j: BgJob, i: nat, data: seq<bv8>)
    requires JobShape(v, j) && i < 0x3c0 && TilesInRom(v, j, i + 1)
    ensures PaintAll(data, BgDraws(v, sys, j, i + 1)) == PaintAll(PaintAll(data, BgDraws(v, sys, j, i)), TileDraws(sys, TileOf(v, j, i), 8))
  {
    PaintAllConcat(data, BgDraws(v, sys, j, i), TileDraws(sys, TileOf(v, j, i), 8));
  }

  /** The loop over the eight rows of one tile. */
  method RenderTile(sys: SystemPalette, frame: Frame, t: BgTile)
    requires TileOk(t)
    modifies frame.data
    ensures frame.data[..] == PaintAll(old(frame.data[..]), TileDraws(sys, t, 8))
  {
    var y: nat := 0;
    while y < 8
      invariant y <= 8
      invariant frame.data[..] == PaintAll(old(frame.data[..]), TileDraws(sys, t, y))
    {
      var row := BgRow(t.tile[y], t.tile[y + 8], t.palette, t.backdrop, t.column * 8, t.tileRow * 8 + y, t.viewPort, t.shiftX, t.shiftY);
      assert TileDraws(sys, t, y + 1) == TileDraws(sys, t, y) + RowDraws(sys, row, 8);
      PaintAllConcat(old(frame.data[..]), TileDraws(sys, t, y), RowDraws(sys, row, 8));
      RenderTileRow(sys, frame, row);
      y := y + 1;
    }
  }

  /** The innermost loop of `render_name_table`: one row of one tile, decoded by shifting the
      two plane bytes right once per pixel, right to left. */
  method RenderTileRow(sys: SystemPalette, frame: Frame, r: BgRow)
    requires RowOk(r)
    modifies frame.data
    ensures frame.data[..] == PaintAll(old(frame.data[..]), RowDraws(sys, r, 8))
  {
    var upper := r.upper;
    var lower := r.lower;
    var k: nat := 0;
    while k < 8
      invariant k <= 8
      invariant upper == Shifted(r.upper, k) && lower == Shifted(r.lower, k)
      invariant frame.data[..] == PaintAll(old(frame.data[..]), RowDraws(sys, r, k))
    {
      upper, lower := TileRowStep(sys, frame, r, k, upper, lower, old(frame.data[..]));
      k := k + 1;
    }
  }

  /** One pass of the pixel loop: take the colour number from the low bits of the two planes, draw pixel `7 - k` when it is in the viewport, and shift both planes right. */
  method TileRowStep(sys: SystemPalette, frame: Frame, r: BgRow, k: nat, upper: bv8, lower: bv8,
      ghost before: seq<bv8>) returns (upper': bv8, lower': bv8)
    requires RowOk(r) && k < 8
    requires upper == Shifted(r.upper, k) && lower == Shifted(r.lower, k)
    requires frame.data[..] == PaintAll(before, RowDraws(sys, r, k))
    modifies frame.data
    ensures upper' == Shifted(r.upper, k + 1) && lower' == Shifted(r.lower, k + 1)
    ensures frame.data[..] == PaintAll(before, RowDraws(sys, r, k + 1))
  {
    var value := ((1 & lower) << 1) | (1 & upper);
    ShiftedValue(r.upper, r.lower, k);
    upper' := upper >> 1;
    lower' := lower >> 1;
    RowDrawsNext(sys, r, k, before);
    DrawBgPixel(sys, frame, r, k, value);
  }

  /** The body of the innermost loop for pixel `x = 7 - k` once its colour number is known. */
  method DrawBgPixel(sys: SystemPalette, frame: Frame, r: BgRow, k: nat, value: bv8)
    requires RowOk(r) && k < 8 && value == PixelValue(r.upper, r.lower, k)
    modifies frame.data
    ensures frame.data[..] == Apply(old(frame.data[..]), RowDraw(sys, r, k))
  {
    var rgb;
    match value {
      case 0 => rgb := sys(r.backdrop);
      case 1 => rgb := sys(r.palette[1]);
      case 2 => rgb := sys(r.palette[2]);
      case 3 => rgb := sys(r.palette[3]);
    }
    var x := 7 - k;
    var pixelX := r.pixelX + x;
    if pixelX >= r.viewPort.x1 && pixelX < r.viewPort.x2 && r.pixelY >= r.viewPort.y1 && r.pixelY < r.viewPort.y2 {
      frame.SetPixel((r.shiftX + pixelX) as nat, (r.shiftY + r.pixelY) as nat, rgb);
    }
  }

  // ---------------------------------------------------------------- nametables

  /** The match at the head of `render`: the nametable the control register selects comes first,
      the one beside it second; four-screen mirroring and any other base panic. */
  function Nametables(v: PpuView): (r: Outcome<(seq<bv8>, seq<bv8>)>)
    requires |v.vram| == 0x800
    ensures r.Ok? ==> |r.value.0| == 0x400 && |r.value.1| == 0x400
  {
    var m := v.mirroring;
    var a := v.nametableAddr;
    if (m == Vertical && (a == 0x2000 || a == 0x2800)) || (m == Horizontal && (a == 0x2000 || a == 0x2400))
    then Ok((v.vram[0..0x400], v.vram[0x400..0x800]))
    else if (m == Vertical && (a == 0x2400 || a == 0x2C00)) || (m == Horizontal && (a == 0x2800 || a == 0x2C00))
    then Ok((v.vram[0x400..0x800], v.vram[0..0x400]))
    else Panic
  }

  /** The logical nametable 0..3 a base address names. */
  function LogicalTable(addr: nat): Option<nat> {
    if addr == 0x2000 then Some(0)
    else if addr == 0x2400 then Some(1)
    else if addr == 0x2800 then Some(2)
    else if addr == 0x2C00 then Some(3)
    else None
  }

  /** The 1 KiB half of VRAM that logical nametable `n` mirrors: vertical mirroring pairs the
      tables side by side (0 with 2, 1 with 3), horizontal mirroring pairs them one above the
      other (0 with 1, 2 with 3). */
  function PhysicalTable(m: Mirroring, n: nat): nat
    requires m != FourScreen && n < 4
  {
    if m == Vertical then n % 2 else n / 2
  }

  function VramTable(vram: seq<bv8>, p: nat): seq<bv8>
    requires |vram| == 0x800 && p < 2
  {
    vram[p * 0x400..p * 0x400 + 0x400]
  }

  /** The match agrees with the mirroring arrangement: it succeeds exactly for the two mirrorings
      and the four base addresses, and then the main nametable is the VRAM half the selected
      logical table mirrors and the second is the other half. */
  lemma NametablesMirror(v: PpuView)
    requires |v.vram| == 0x800
    ensures Nametables(v).Ok? <==> v.mirroring != FourScreen && LogicalTable(v.nametableAddr).Some?
    ensures Nametables(v).Ok? ==>
      var p := PhysicalTable(v.mirroring, LogicalTable(v.nametableAddr).value);
      Nametables(v).value == (VramTable(v.vram, p), VramTable(v.vram, 1 - p))
  {
  }

  // ---------------------------------------------------------------- the frame

  /** The first `render_name_table` call: the main nametable from the scroll offset on, moved
      left and up by it. */
  function MainJob(v: PpuView, main: seq<bv8>): (j: BgJob)
    requires Valid(v) && |main| == 0x400
    ensures JobShape(v, j)
  {
    var sx := v.scrollX;
    var sy := v.scrollY;
    BgJob(main, Rect(sx, sy, 256, 240), -(sx as int), -(sy as int))
  }

  /** What the first call paints before it returns or panics. */
  function MainDraws(v: PpuView, sys: SystemPalette, main: seq<bv8>): seq<Draw>
    requires Valid(v) && |main| == 0x400
  {
    BgDraws(v, sys, MainJob(v, main), RomTiles(v, MainJob(v, main)))
  }

  /** With no horizontal scroll and a vertical scroll past 240, the `usize` subtraction
      `240 - scroll_y` of the second call underflows, which panics. */
  predicate ScrollUnderflows(v: PpuView) {
    v.scrollX == 0 && v.scrollY > 240
  }

  /** The second call, if any: with a horizontal scroll the left `scroll_x` columns of the second
      nametable fill the right edge; otherwise with a vertical scroll its top `scroll_y` rows fill
      the bottom edge. */
  function SecondJob(v: PpuView, second: seq<bv8>): (r: Option<BgJob>)
    requires Valid(v) && |second| == 0x400 && !ScrollUnderflows(v)
    ensures r.Some? ==> JobShape(v, r.value)
  {
    var sx := v.scrollX;
    var sy := v.scrollY;
    if sx > 0 then Some(BgJob(second, Rect(0, 0, sx, 240), 256 - sx as int, 0))
    else if sy > 0 then Some(BgJob(second, Rect(0, 0, 256, sy), 0, 240 - sy as int))
    else None
  }

  /** The second call, if there is one, paints all its tiles without panicking. */
  predicate SecondOk(v: PpuView, second: seq<bv8>)
    requires Valid(v) && |second| == 0x400 && !ScrollUnderflows(v)
  {
    SecondJob(v, second).None? || JobOk(v, SecondJob(v, second).value)
  }

  /** What the second call, if there is one, paints before it returns or panics. */
  function SecondDraws(v: PpuView, sys: SystemPalette, second: seq<bv8>): seq<Draw>
    requires Valid(v) && |second| == 0x400 && !ScrollUnderflows(v)
  {
    match SecondJob(v, second)
    case Some(j) => BgDraws(v, sys, j, RomTiles(v, j))
    case None => []
  }

  /** Both background calls run to their end. */
  predicate BackgroundOk(v: PpuView, main: seq<bv8>, second: seq<bv8>)
    requires Valid(v) && |main| == 0x400 && |second| == 0x400
  {
    JobOk(v, MainJob(v, main)) && !ScrollUnderflows(v) && SecondOk(v, second)
  }

  /** What the two `render_name_table` calls paint before `render` goes on to the sprites or
      panics: the second call starts only once the first has finished and the scroll has not
      underflowed. */
  function BackgroundDraws(v: PpuView, sys: SystemPalette, main: seq<bv8>, second: seq<bv8>): seq<Draw>
    requires Valid(v) && |main| == 0x400 && |second| == 0x400
  {
    if JobOk(v, MainJob(v, main)) && !ScrollUnderflows(v)
    then MainDraws(v, sys, main) + SecondDraws(v, sys, second)
    else MainDraws(v, sys, main)
  }

  /** What `render` paints after the nametable match: the background, then, if it finished, the
      sprites from the last down to the first whose tile panics. */
  function LayerDraws(v: PpuView, sys: SystemPalette, main: seq<bv8>, second: seq<bv8>): seq<Draw>
    requires Valid(v) && |main| == 0x400 && |second| == 0x400
  {
    if BackgroundOk(v, main, second)
    then BackgroundDraws(v, sys, main, second) + SpriteDraws(v, sys, RomSprites(v))
    else BackgroundDraws(v, sys, main, second)
  }

  /** Every `set_pixel` call `render` makes before it returns or panics: nothing when the
      nametables cannot be selected. */
  function DrawnBy(v: PpuView, sys: SystemPalette): seq<Draw>
    requires Valid(v)
  {
    match Nametables(v)
    case Panic => []
    case Ok((main, second)) => LayerDraws(v, sys, main, second)
  }

  /** `render` returns without panicking. */
  predicate RenderOk(v: PpuView)
    requires Valid(v)
  {
    && Nametables(v).Ok?
    && BackgroundOk(v, Nametables(v).value.0, Nametables(v).value.1)
    && SpritesInRom(v, 0)
  }

  /** `render`: `ok` is false where the source panics, and the frame holds what was painted
      up to there. */
  method RenderFrame(v: PpuView, sys: SystemPalette, frame: Frame) returns (ok: bool)
    requires Valid(v)
    modifies frame.data
    ensures ok <==> RenderOk(v)
    ensures frame.data[..] == PaintAll(old(frame.data[..]), DrawnBy(v, sys))
  {
    var tables := Nametables(v);
    if tables.Panic? {
      return false;
    }
    var (main, second) := tables.value;
    ok := RenderLayers(v, sys, frame, main, second);
  }

  /** The body of `render` after the nametable match: background, then sprites. */
  method RenderLayers(v: PpuView, sys: SystemPalette, frame: Frame, main: seq<bv8>, second: seq<bv8>)
    returns (ok: bool)
    requires Valid(v) && |main| == 0x400 && |second| == 0x400
    modifies frame.data
    ensures ok <==> BackgroundOk(v, main, second) && SpritesInRom(v, 0)
    ensures frame.data[..] == PaintAll(old(frame.data[..]), LayerDraws(v, sys, main, second))
  {
    ok := RenderBackground(v, sys, frame, main, second);
    if ok {
      ok := RenderSprites(v, sys, frame);
      PaintAllConcat(old(frame.data[..]), BackgroundDraws(v, sys, main, second), SpriteDraws(v, sys, RomSprites(v)));
    }
  }

  /** The two `render_name_table` calls of `render`, around the scroll split; false when either
      panics. */
  method RenderBackground(v: PpuView, sys: SystemPalette, frame: Frame, main: seq<bv8>, second: seq<bv8>)
    returns (ok: bool)
    requires Valid(v) && |main| == 0x400 && |second| == 0x400
    modifies frame.data
    ensures ok <==> BackgroundOk(v, main, second)
    ensures frame.data[..] == PaintAll(old(frame.data[..]), BackgroundDraws(v, sys, main, second))
  {
    var scrollX := v.scrollX;
    var scrollY := v.scrollY;
    var mainJob := BgJob(main, Rect(scrollX, scrollY, 256, 240), -(scrollX as int), -(scrollY as int));
    assert mainJob == MainJob(v, main);
    ok := RenderNameTable(v, sys, frame, mainJob);
    if !ok {
      return;
    }
    ok := RenderSecond(v, sys, frame, second);
    if !ScrollUnderflows(v) {
      PaintAllConcat(old(frame.data[..]), MainDraws(v, sys, main), SecondDraws(v, sys, second));
    }
  }

  /** The `if scroll_x > 0 … else if scroll_y > 0 …` part of `render`: false when the
      subtraction underflows, before anything is painted, or when the call panics. */
  method RenderSecond(v: PpuView, sys: SystemPalette, frame: Frame, second: seq<bv8>) returns (ok: bool)
    requires Valid(v) && |second| == 0x400
    modifies frame.data
    ensures ok <==> !ScrollUnderflows(v) && SecondOk(v, second)
    ensures !ScrollUnderflows(v) ==> frame.data[..] == PaintAll(old(frame.data[..]), SecondDraws(v, sys, second))
    ensures ScrollUnderflows(v) ==> frame.data[..] == old(frame.data[..])
  {
    var scrollX := v.scrollX;
    var scrollY := v.scrollY;
    if scrollX > 0 {
      var job := BgJob(second, Rect(0, 0, scrollX, 240), 256 - scrollX as int, 0);
      assert SecondJob(v, second) == Some(job);
      ok := RenderNameTable(v, sys, frame, job);
    } else if scrollY > 0 {
      if scrollY > 240 {
        return false;
      }
      var job := BgJob(second, Rect(0, 0, 256, scrollY), 0, 240 - scrollY as int);
      assert SecondJob(v, second) == Some(job);
      ok := RenderNameTable(v, sys, frame, job);
    } else {
      ok := true;
    }
  }

  // ---------------------------------------------------------------- sprites

  /** One OAM entry as the sprite loop reads it: the 16 bytes of its tile in the sprite pattern
      table, its palette, its position, and the two flip bits of its attribute byte. */
  datatype Sprite = Sprite(tile: seq<bv8>, palette: seq<bv8>, x: nat, y: nat, flipH: bool, flipV: bool)

  predicate SpriteOk(s: Sprite) {
    |s.tile| == 16 && |s.palette| == 4
  }

  /** The 16 bytes of the tile OAM entry `n` names lie inside CHR ROM. */
  predicate SpriteInRom(v: PpuView, n: nat)
    requires Valid(v) && n < 64
  {
    TileBase(v.spriteBank, v.oamData[4 * n + 1]) + 16 <= |v.chrRom|
  }

  /** The tiles of OAM entries `n` to 63 all lie inside CHR ROM. */
  predicate SpritesInRom(v: PpuView, n: nat)
    requires Valid(v)
    decreases 64 - n
  {
    n >= 64 || (SpriteInRom(v, n) && SpritesInRom(v, n + 1))
  }

  /** `SpritesInRom` says, one entry at a time, that every entry from `n` on names a tile in
      CHR ROM. */
  lemma {:induction false} SpritesInRomAll(v: PpuView, n: nat)
    requires Valid(v)
    ensures SpritesInRom(v, n) <==> forall k | n <= k < 64 :: SpriteInRom(v, k)
    decreases 64 - n
  {
    if n < 64 {
      SpritesInRomAll(v, n + 1);
    }
  }

  /** Every suffix of a run of OAM entries in CHR ROM is one. */
  lemma {:induction false} SpritesInRomSuffix(v: PpuView, n: nat, k: nat)
    requires Valid(v) && n <= k && SpritesInRom(v, n)
    ensures SpritesInRom(v, k)
    decreases k - n
  {
    if n < k && n < 64 {
      SpritesInRomSuffix(v, n + 1, k);
    }
  }

  /** The first OAM entry the sprite loop paints: the loop runs from entry 63 down and panics at
      the first entry whose tile runs past the end of CHR ROM. */
  function RomSprites(v: PpuView): (n: nat)
    requires Valid(v)
    ensures n <= 64 && SpritesInRom(v, n)
    ensures n > 0 ==> !SpriteInRom(v, n - 1)
    ensures n == 0 <==> SpritesInRom(v, 0)
  {
    SpritesInRomAll(v, 0);
    RomSpritesFrom(v, 64)
  }

  function RomSpritesFrom(v: PpuView, n: nat): (r: nat)
    requires Valid(v) && n <= 64 && SpritesInRom(v, n)
    ensures r <= n && SpritesInRom(v, r)
    ensures r > 0 ==> !SpriteInRom(v, r - 1)
  {
    if n == 0 || !SpriteInRom(v, n - 1) then n else RomSpritesFrom(v, n - 1)
  }

  /** The first painted entry is the one place where the entries from it on are in CHR ROM and the
      one below is not. */
  lemma RomSpritesAt(v: PpuView, n: nat)
    requires Valid(v) && n <= 64 && SpritesInRom(v, n)
    requires n > 0 ==> !SpriteInRom(v, n - 1)
    ensures RomSprites(v) == n
  {
    SpritesInRomAll(v, n);
    SpritesInRomAll(v, RomSprites(v));
  }

  /** OAM entry `n`: bytes `4n` (y), `4n + 1` (tile), `4n + 2` (attributes: bit 7 vertical flip,
      bit 6 horizontal flip, bits 0-1 palette) and `4n + 3` (x). */
  function SpriteOf(v: PpuView, n: nat): (s: Sprite)
    requires Valid(v) && n < 64 && SpriteInRom(v, n)
    ensures SpriteOk(s)
  {
    var i := 4 * n;
    var attr := v.oamData[i + 2];
    var base := TileBase(v.spriteBank, v.oamData[i + 1]);
    Sprite(v.chrRom[base..base + 16], SpritePalette(v.paletteTable, attr & 3),
           v.oamData[i + 3] as nat, v.oamData[i] as nat, (attr >> 6) & 1 == 1, (attr >> 7) & 1 == 1)
  }

  /** Row `row` of a sprite, with everything its pixel loop needs. */
  datatype SpriteRow = SpriteRow(upper: bv8, lower: bv8, palette: seq<bv8>, x: nat, y: nat, row: nat,
                                 flipH: bool, flipV: bool)

  predicate SpriteRowOk(r: SpriteRow) {
    |r.palette| == 4 && r.row < 8
  }

  function SpriteRowOf(s: Sprite, row: nat): (r: SpriteRow)
    requires SpriteOk(s) && row < 8
    ensures SpriteRowOk(r)
  {
    SpriteRow(s.tile[row], s.tile[row + 8], s.palette, s.x, s.y, row, s.flipH, s.flipV)
  }

  /** Pixel `x = 7 - k` of a sprite row: colour number 0 is transparent and draws nothing; a
      horizontal flip mirrors the column and a vertical flip the row within the 8 by 8 tile. */
  function SpriteDraw(sys: SystemPalette, r: SpriteRow, k: nat): Draw
    requires SpriteRowOk(r) && k < 8
  {
    var value := PixelValue(r.upper, r.lower, k);
    var x := 7 - k;
    if value == 0 then Skip
    else Put(if r.flipH then r.x + 7 - x else r.x + x,
             if r.flipV then r.y + 7 - r.row else r.y + r.row,
             sys(r.palette[value]))
  }

  function SpriteRowDraws(sys: SystemPalette, r: SpriteRow, m: nat): seq<Draw>
    requires SpriteRowOk(r) && m <= 8
  {
    seq(m, k requires 0 <= k < m => SpriteDraw(sys, r, k))
  }

  /** The draws of rows `row < m` of a sprite. */
  function SpriteTileDraws(sys: SystemPalette, s: Sprite, m: nat): seq<Draw>
    requires SpriteOk(s) && m <= 8
  {
    if m == 0 then [] else SpriteTileDraws(sys, s, m - 1) + SpriteRowDraws(sys, SpriteRowOf(s, m - 1), 8)
  }

  /** The draws of each OAM entry; an entry whose tile is not in CHR ROM is never reached, since
      the loop panics there, and draws nothing here. */
  function SpriteLayer(v: PpuView, sys: SystemPalette): nat -> seq<Draw>
    requires Valid(v)
  {
    (n: nat) => if n < 64 && SpriteInRom(v, n) then SpriteTileDraws(sys, SpriteOf(v, n), 8) else []
  }

  /** The draws of sprites 63 down to `n`, in that order. */
  function SpriteDraws(v: PpuView, sys: SystemPalette, n: nat): seq<Draw>
    requires Valid(v) && n <= 64
  {
    Layered(SpriteLayer(v, sys), n, 64)
  }

  /** The sprite loop of `render`: OAM entries from the last to the first; `ok` is false where an
      entry's slice of CHR ROM panics, after the entries above it are painted. */
  method RenderSprites(v: PpuView, sys: SystemPalette, frame: Frame) returns (ok: bool)
    requires Valid(v)
    modifies frame.data
    ensures ok <==> SpritesInRom(v, 0)
    ensures frame.data[..] == PaintAll(old(frame.data[..]), SpriteDraws(v, sys, RomSprites(v)))
  {
    ghost var before := frame.data[..];
    var n: nat := 64;
    while n > 0
      invariant n <= 64 && SpritesInRom(v, n)
      invariant frame.data[..] == PaintAll(before, SpriteDraws(v, sys, n))
    {
      ok := SpriteEntry(v, sys, frame, n - 1);
      if !ok {
        RomSpritesAt(v, n);
        return;
      }
      n := n - 1;
      assert SpriteDraws(v, sys, n) == SpriteDraws(v, sys, n + 1) + SpriteTileDraws(sys, SpriteOf(v, n), 8);
      PaintAllConcat(before, SpriteDraws(v, sys, n + 1), SpriteTileDraws(sys, SpriteOf(v, n), 8));
    }
    RomSpritesAt(v, 0);
    ok := true;
  }

  /** The body of the sprite loop for OAM entry `n` at `i = 4n`: decode the entry, slice its tile
      and paint its rows; false, with nothing painted, where the slice runs past the end of
      CHR ROM. */
  method SpriteEntry(v: PpuView, sys: SystemPalette, frame: Frame, n: nat) returns (ok: bool)
    requires Valid(v) && n < 64
    modifies frame.data
    ensures ok <==> SpriteInRom(v, n)
    ensures ok ==> frame.data[..] == PaintAll(old(frame.data[..]), SpriteTileDraws(sys, SpriteOf(v, n), 8))
    ensures !ok ==> frame.data[..] == old(frame.data[..])
  {
    var i := 4 * n;
    var tileIdx := v.oamData[i + 1];
    var tileX := v.oamData[i + 3] as nat;
    var tileY := v.oamData[i] as nat;
    var flipVertical := (v.oamData[i + 2] >> 7) & 1 == 1;
    var flipHorizontal := (v.oamData[i + 2] >> 6) & 1 == 1;
    var paletteIdx := v.oamData[i + 2] & 0x3;
    var palette := SpritePalette(v.paletteTable, paletteIdx);
    var bank := v.spriteBank;
    if bank + tileIdx as nat * 16 + 15 + 1 > |v.chrRom| {
      return false;
    }
    var tile := v.chrRom[bank + tileIdx as nat * 16 .. bank + tileIdx as nat * 16 + 15 + 1];
    var s := Sprite(tile, palette, tileX, tileY, flipHorizontal, flipVertical);
    assert s == SpriteOf(v, n);
    RenderSprite(sys, frame, SpriteOf(v, n));
    ok := true;
  }

  /** The row loop of one sprite. */
  method RenderSprite(sys: SystemPalette, frame: Frame, s: Sprite)
    requires SpriteOk(s)
    modifies frame.data
    ensures frame.data[..] == PaintAll(old(frame.data[..]), SpriteTileDraws(sys, s, 8))
  {
    var y: nat := 0;
    while y < 8
      invariant y <= 8
      invariant frame.data[..] == PaintAll(old(frame.data[..]), SpriteTileDraws(sys, s, y))
    {
      var row := SpriteRow(s.tile[y], s.tile[y + 8], s.palette, s.x, s.y, y, s.flipH, s.flipV);
      assert SpriteTileDraws(sys, s, y + 1) == SpriteTileDraws(sys, s, y) + SpriteRowDraws(sys, row, 8);
      PaintAllConcat(old(frame.data[..]), SpriteTileDraws(sys, s, y), SpriteRowDraws(sys, row, 8));
      RenderSpriteRow(sys, frame, row);
      y := y + 1;
    }
  }

  /** The pixel loop of one sprite row, right to left. */
  method RenderSpriteRow(sys: SystemPalette, frame: Frame, r: SpriteRow)
    requires SpriteRowOk(r)
    modifies frame.data
    ensures frame.data[..] == PaintAll(old(frame.data[..]), SpriteRowDraws(sys, r, 8))
  {
    var upper := r.upper;
    var lower := r.lower;
    var k: nat := 0;
    while k < 8
      invariant k <= 8
      invariant upper == Shifted(r.upper, k) && lower == Shifted(r.lower, k)
      invariant frame.data[..] == PaintAll(old(frame.data[..]), SpriteRowDraws(sys, r, k))
    {
      upper, lower := SpriteRowStep(sys, frame, r, k, upper, lower, old(frame.data[..]));
      k := k + 1;
    }
  }

  /** One pass of the sprite pixel loop: colour number, the pixel unless it is transparent, and the shift of both planes. */
  method SpriteRowStep(sys: SystemPalette, frame: Frame, r: SpriteRow, k: nat, upper: bv8, lower: bv8,
      ghost before: seq<bv8>) returns (upper': bv8, lower': bv8)
    requires SpriteRowOk(r) && k < 8
    requires upper == Shifted(r.upper, k) && lower == Shifted(r.lower, k)
    requires frame.data[..] == PaintAll(before, SpriteRowDraws(sys, r, k))
    modifies frame.data
    ensures upper' == Shifted(r.upper, k + 1) && lower' == Shifted(r.lower, k + 1)
    ensures frame.data[..] == PaintAll(before, SpriteRowDraws(sys, r, k + 1))
  {
    var value := ((1 & lower) << 1) | (1 & upper);
    ShiftedValue(r.upper, r.lower, k);
    upper' := upper >> 1;
    lower' := lower >> 1;
    SpriteRowDrawsNext(sys, r, k, before);
    DrawSpritePixel(sys, frame, r, k, value);
  }

  /** Painting the first `k + 1` draws of a sprite row is painting the first `k` and then draw `k`. */
  lemma SpriteRowDrawsNext(sys: SystemPalette, r: SpriteRow, k: nat, data: seq<bv8>)
    requires SpriteRowOk(r) && k < 8
    ensures PaintAll(data, SpriteRowDraws(sys, r, k + 1)) == Apply(PaintAll(data, SpriteRowDraws(sys, r, k)), SpriteDraw(sys, r, k))
  {
    assert SpriteRowDraws(sys, r, k + 1) == SpriteRowDraws(sys, r, k) + [SpriteDraw(sys, r, k)];
    PaintAllAppend(data, SpriteRowDraws(sys, r, k), SpriteDraw(sys, r, k));
  }

  /** The body of the sprite pixel loop once the colour number is known. */
  method DrawSpritePixel(sys: SystemPalette, frame: Frame, r: SpriteRow, k: nat, value: bv8)
    requires SpriteRowOk(r) && k < 8 && value == PixelValue(r.upper, r.lower, k)
    modifies frame.data
    ensures frame.data[..] == Apply(old(frame.data[..]), SpriteDraw(sys, r, k))
  {
    var x := 7 - k;
    var rgb;
    match value {
      case 0 => return;
      case 1 => rgb := sys(r.palette[1]);
      case 2 => rgb := sys(r.palette[2]);
      case 3 => rgb := sys(r.palette[3]);
    }
    assert SpriteDraw(sys, r, k) == Put(if r.flipH then r.x + 7 - x else r.x + x,
                                        if r.flipV then r.y + 7 - r.row else r.y + r.row, rgb);
    SetFlippedPixel(frame, r, x, rgb);
  }

  /** The flip match of the sprite loop: draw column `x` of the row, mirrored as the flip bits say. */
  method SetFlippedPixel(frame: Frame, r: SpriteRow, x: nat, rgb: Rgb)
    requires x < 8 && r.row < 8
    modifies frame.data
    ensures frame.data[..] == Painted(old(frame.data[..]),
      if r.flipH then r.x + 7 - x else r.x + x, if r.flipV then r.y + 7 - r.row else r.y + r.row, rgb)
  {
    var y := r.row;
    match (r.flipH, r.flipV) {
      case (false, false) => frame.SetPixel(r.x + x, r.y + y, rgb);
      case (true, false) => frame.SetPixel(r.x + 7 - x, r.y + y, rgb);
      case (false, true) => frame.SetPixel(r.x + x, r.y + 7 - y, rgb);
      case (true, true) => frame.SetPixel(r.x + 7 - x, r.y + 7 - y, rgb);
    }
  }

  // ---------------------------------------------------------------- properties

  /** Viewport clipping: every pixel a tile paints lies in the viewport moved by the shift. */
  lemma {:induction false} TileDrawsClipped(sys: SystemPalette, t: BgTile, m: nat)
    requires TileOk(t) && m <= 8
    ensures AllInBox(TileDraws(sys, t, m), t.viewPort.x1 + t.shiftX, t.viewPort.y1 + t.shiftY,
                                           t.viewPort.x2 + t.shiftX, t.viewPort.y2 + t.shiftY)
  {
    if m > 0 {
      TileDrawsClipped(sys, t, m - 1);
      AllInBoxConcat(TileDraws(sys, t, m - 1), RowDraws(sys, RowOf(t, m - 1), 8),
                     t.viewPort.x1 + t.shiftX, t.viewPort.y1 + t.shiftY,
                     t.viewPort.x2 + t.shiftX, t.viewPort.y2 + t.shiftY);
    }
  }

  /** Viewport clipping for a whole `render_name_table` call. */
  lemma {:induction false} BgDrawsClipped(v: PpuView, sys: SystemPalette, j: BgJob, m: nat)
    requires JobShape(v, j) && m <= 0x3c0 && TilesInRom(v, j, m)
    ensures AllInBox(BgDraws(v, sys, j, m), j.viewPort.x1 + j.shiftX, j.viewPort.y1 + j.shiftY,
                                            j.viewPort.x2 + j.shiftX, j.viewPort.y2 + j.shiftY)
  {
    if m > 0 {
      BgDrawsClipped(v, sys, j, m - 1);
      TileDrawsClipped(sys, TileOf(v, j, m - 1), 8);
      AllInBoxConcat(BgDraws(v, sys, j, m - 1), TileDraws(sys, TileOf(v, j, m - 1), 8),
                     j.viewPort.x1 + j.shiftX, j.viewPort.y1 + j.shiftY,
                     j.viewPort.x2 + j.shiftX, j.viewPort.y2 + j.shiftY);
    }
  }

  /** The scroll split: the main nametable fills the top-left `256 - scroll_x` by `240 - scroll_y`
      of the screen; with a horizontal scroll the second one fills the strip to its right, and
      otherwise with a vertical scroll the strip below it. The background never paints outside
      the left 256 by 240 screen of the frame, even when a call panics part way. */
  lemma ScrollSplit(v: PpuView, sys: SystemPalette, main: seq<bv8>, second: seq<bv8>)
    requires Valid(v) && |main| == 0x400 && |second| == 0x400 && !ScrollUnderflows(v)
    ensures AllInBox(MainDraws(v, sys, main), 0, 0, 256 - v.scrollX, 240 - v.scrollY)
    ensures v.scrollX > 0 ==> AllInBox(SecondDraws(v, sys, second), 256 - v.scrollX, 0, 256, 240)
    ensures v.scrollX == 0 && v.scrollY > 0 ==> AllInBox(SecondDraws(v, sys, second), 0, 240 - v.scrollY, 256, 240)
    ensures v.scrollX == 0 && v.scrollY == 0 ==> SecondDraws(v, sys, second) == []
  {
    MainClipped(v, sys, main);
    SecondClipped(v, sys, second);
  }

  /** The main nametable's part of the scroll split. */
  lemma MainClipped(v: PpuView, sys: SystemPalette, main: seq<bv8>)
    requires Valid(v) && |main| == 0x400
    ensures AllInBox(MainDraws(v, sys, main), 0, 0, 256 - v.scrollX, 240 - v.scrollY)
  {
    BgDrawsClipped(v, sys, MainJob(v, main), RomTiles(v, MainJob(v, main)));
  }

  /** The second nametable's part of the scroll split. */
  lemma SecondClipped(v: PpuView, sys: SystemPalette, second: seq<bv8>)
    requires Valid(v) && |second| == 0x400 && !ScrollUnderflows(v)
    ensures v.scrollX > 0 ==> AllInBox(SecondDraws(v, sys, second), 256 - v.scrollX, 0, 256, 240)
    ensures v.scrollX == 0 && v.scrollY > 0 ==> AllInBox(SecondDraws(v, sys, second), 0, 240 - v.scrollY, 256, 240)
    ensures v.scrollX == 0 && v.scrollY == 0 ==> SecondDraws(v, sys, second) == []
  {
    if SecondJob(v, second).Some? {
      var j := SecondJob(v, second).value;
      BgDrawsClipped(v, sys, j, RomTiles(v, j));
    }
  }

  /** A `render` that does not panic paints the whole of both background calls and every sprite. */
  lemma FullFrame(v: PpuView, sys: SystemPalette)
    requires Valid(v) && RenderOk(v)
    ensures var (main, second) := Nametables(v).value;
      DrawnBy(v, sys) == BgDraws(v, sys, MainJob(v, main), 0x3c0)
        + (match SecondJob(v, second) case Some(j) => BgDraws(v, sys, j, 0x3c0) case None => [])
        + SpriteDraws(v, sys, 0)
  {
  }

  /** With the 8 KiB of CHR ROM an NROM cartridge carries, every tile of either pattern table is
      in CHR ROM, so no call of `render_name_table` panics on it … */
  lemma FullRomJob(v: PpuView, j: BgJob)
    requires JobShape(v, j) && |v.chrRom| >= 0x2000
    ensures JobOk(v, j) && RomTiles(v, j) == 0x3c0
  {
    forall i | 0 <= i < 0x3c0
      ensures TileInRom(v, j, i)
    {
      assert TileBase(v.bgBank, j.nameTable[i]) <= 0x1000 + 255 * 16;
    }
    TilesInRomAll(v, j, 0x3c0);
  }

  /** … and `render` panics exactly where the nametable match or the scroll subtraction does. */
  lemma FullRomFrame(v: PpuView)
    requires Valid(v) && |v.chrRom| >= 0x2000
    ensures RenderOk(v) <==> Nametables(v).Ok? && !ScrollUnderflows(v)
  {
    forall k | 0 <= k < 64
      ensures SpriteInRom(v, k)
    {
      assert TileBase(v.spriteBank, v.oamData[4 * k + 1]) <= 0x1000 + 255 * 16;
    }
    SpritesInRomAll(v, 0);
    if Nametables(v).Ok? && !ScrollUnderflows(v) {
      var (main, second) := Nametables(v).value;
      FullRomJob(v, MainJob(v, main));
      if SecondJob(v, second).Some? {
        FullRomJob(v, SecondJob(v, second).value);
      }
    }
  }

  /** A CHR ROM too short for one tile makes `render` panic once the nametables are selected, at
      the first tile of the main nametable, with nothing painted. */
  lemma NoRomPanics(v: PpuView, sys: SystemPalette)
    requires Valid(v) && |v.chrRom| < 16 && Nametables(v).Ok?
    ensures !RenderOk(v) && DrawnBy(v, sys) == []
  {
    var (main, second) := Nametables(v).value;
    assert !TileInRom(v, MainJob(v, main), 0);
    RomTilesAt(v, MainJob(v, main), 0);
  }

  /** Colour number 0 is transparent: a sprite pixel paints exactly when its colour number is not
      0, and then in one of the sprite's three colours. */
  lemma SpriteTransparency(sys: SystemPalette, r: SpriteRow, k: nat)
    requires SpriteRowOk(r) && k < 8
    ensures SpriteDraw(sys, r, k).Put? <==> PixelValue(r.upper, r.lower, k) != 0
    ensures SpriteDraw(sys, r, k).Put? ==>
      exists c | 1 <= c <= 3 :: SpriteDraw(sys, r, k).colour == sys(r.palette[c])
  {
    if SpriteDraw(sys, r, k).Put? {
      var c := PixelValue(r.upper, r.lower, k);
      assert SpriteDraw(sys, r, k).colour == sys(r.palette[c]);
    }
  }

  /** Flipping a sprite horizontally mirrors every pixel it paints about the vertical axis of its
      8 by 8 square and keeps its colour; flipping it vertically mirrors about the horizontal
      axis. */
  lemma SpriteFlips(sys: SystemPalette, s: Sprite, row: nat, k: nat)
    requires SpriteOk(s) && row < 8 && k < 8
    ensures var d := SpriteDraw(sys, SpriteRowOf(s, row), k);
      var h := SpriteDraw(sys, SpriteRowOf(s.(flipH := !s.flipH), row), k);
      var u := SpriteDraw(sys, SpriteRowOf(s.(flipV := !s.flipV), row), k);
      && (d.Put? <==> h.Put?) && (d.Put? <==> u.Put?)
      && (d.Put? ==> h.colour == d.colour && h.y == d.y && h.x + d.x == 2 * s.x + 7)
      && (d.Put? ==> u.colour == d.colour && u.x == d.x && u.y + d.y == 2 * s.y + 7)
  {
  }

  /** An unflipped sprite puts pixel `x` of row `row` at (`x_pos + x`, `y_pos + row`). */
  lemma SpriteUnflipped(sys: SystemPalette, s: Sprite, row: nat, x: nat)
    requires SpriteOk(s) && row < 8 && x < 8 && !s.flipH && !s.flipV
    ensures var d := SpriteDraw(sys, SpriteRowOf(s, row), 7 - x);
      d.Put? ==> d.x == s.x + x && d.y == s.y + row
  {
  }

  /** Sprites are drawn from the last OAM entry to the first, so where sprite `n` paints pixel
      `p` and no sprite before it in OAM does, the rendered pixel shows sprite `n`'s colour. */
  lemma SpriteOnTop(v: PpuView, sys: SystemPalette, m: nat, n: nat, p: nat, c: Rgb)
    requires Valid(v) && m <= n < 64 && SpritesInRom(v, m) && SpriteInRom(v, n)
    requires LastDraw(SpriteTileDraws(sys, SpriteOf(v, n), 8), p) == Some(c)
    requires forall i | m <= i < n :: SpriteInRom(v, i) ==> LastDraw(SpriteTileDraws(sys, SpriteOf(v, i), 8), p) == None
    ensures LastDraw(SpriteDraws(v, sys, m), p) == Some(c)
  {
    var f := SpriteLayer(v, sys);
    forall i | m <= i < n
      ensures LastDraw(f(i), p) == None
    {
      SpritesInRomSuffix(v, m, i);
    }
    LayeredOnTop(f, m, n, 64, p, c);
  }

  /** Sprites cover the background: in the rendered frame a pixel painted by sprite `n` and by no
      lower-numbered sprite shows sprite `n`'s colour, whatever the background put there. */
  lemma SpriteCoversBackground(v: PpuView, sys: SystemPalette, data: seq<bv8>, n: nat, p: nat, c: Rgb)
    requires Valid(v) && RenderOk(v) && n < 64 && SpriteInRom(v, n)
    requires 3 * p + 2 < |data|
    requires LastDraw(SpriteTileDraws(sys, SpriteOf(v, n), 8), p) == Some(c)
    requires forall i | 0 <= i < n :: SpriteInRom(v, i) ==> LastDraw(SpriteTileDraws(sys, SpriteOf(v, i), 8), p) == None
    ensures Pixel(PaintAll(data, DrawnBy(v, sys)), p) == c
  {
    var (main, second) := Nametables(v).value;
    SpriteOnTop(v, sys, 0, n, p, c);
    LastDrawConcat(BackgroundDraws(v, sys, main, second), SpriteDraws(v, sys, 0), p);
    PaintAllPixel(data, DrawnBy(v, sys), p);
  }

  lemma {:induction false} TileDrawsAt(sys: SystemPalette, t: BgTile, m: nat, y: nat, k: nat)
    requires TileOk(t) && y < m <= 8 && k < 8
    ensures |TileDraws(sys, t, m)| == 8 * m
    ensures TileDraws(sys, t, m)[8 * y + k] == RowDraw(sys, RowOf(t, y), k)
  {
    if y < m - 1 {
      TileDrawsAt(sys, t, m - 1, y, k);
    }
  }

  lemma BgDrawsAt(v: PpuView, sys: SystemPalette, j: BgJob, m: nat, i: nat, n: nat)
    requires JobShape(v, j) && i < m <= 0x3c0 && TilesInRom(v, j, m) && TileInRom(v, j, i) && n < 64
    ensures |BgDraws(v, sys, j, m)| == 64 * m && |TileDraws(sys, TileOf(v, j, i), 8)| == 64
    ensures BgDraws(v, sys, j, m)[64 * i + n] == TileDraws(sys, TileOf(v, j, i), 8)[n]
  {
    TilesInRomPrefix(v, j, m, i + 1);
    BgDrawsLast(v, sys, j, i, n);
    var k := i + 1;
    while k < m
      invariant i + 1 <= k <= m && TilesInRom(v, j, k)
      invariant |BgDraws(v, sys, j, k)| == 64 * k
      invariant BgDraws(v, sys, j, k)[64 * i + n] == TileDraws(sys, TileOf(v, j, i), 8)[n]
    {
      TilesInRomPrefix(v, j, m, k + 1);
      BgDrawsKeep(v, sys, j, k, i, n, TileDraws(sys, TileOf(v, j, i), 8)[n]);
      k := k + 1;
    }
  }

  /** Appending tile `k` keeps draw `64 i + n` of an earlier tile `i` where it was. */
  lemma BgDrawsKeep(v: PpuView, sys: SystemPalette, j: BgJob, k: nat, i: nat, n: nat, d: Draw)
    requires JobShape(v, j) && i < k < 0x3c0 && TilesInRom(v, j, k + 1) && n < 64
    requires BgDraws(v, sys, j, k)[64 * i + n] == d
    ensures BgDraws(v, sys, j, k + 1)[64 * i + n] == d
  {
    BgDrawsPrefix(v, sys, j, k + 1, 64 * i + n);
  }

  /** The draws of the first `m - 1` tiles are a prefix of those of the first `m`. */
  lemma BgDrawsPrefix(v: PpuView, sys: SystemPalette, j: BgJob, m: nat, k: nat)
    requires JobShape(v, j) && 0 < m <= 0x3c0 && TilesInRom(v, j, m) && k < 64 * (m - 1)
    ensures |BgDraws(v, sys, j, m)| == 64 * m && |BgDraws(v, sys, j, m - 1)| == 64 * (m - 1)
    ensures BgDraws(v, sys, j, m)[k] == BgDraws(v, sys, j, m - 1)[k]
  {
    PrefixAt(BgDraws(v, sys, j, m - 1), TileDraws(sys, TileOf(v, j, m - 1), 8), k);
  }

  /** The last 64 draws of the first `i + 1` tiles are those of tile `i`. */
  lemma BgDrawsLast(v: PpuView, sys: SystemPalette, j: BgJob, i: nat, n: nat)
    requires JobShape(v, j) && i < 0x3c0 && TilesInRom(v, j, i + 1) && n < 64
    ensures |BgDraws(v, sys, j, i + 1)| == 64 * (i + 1) && |TileDraws(sys, TileOf(v, j, i), 8)| == 64
    ensures BgDraws(v, sys, j, i + 1)[64 * i + n] == TileDraws(sys, TileOf(v, j, i), 8)[n]
  {
    AppendAt(BgDraws(v, sys, j, i), TileDraws(sys, TileOf(v, j, i), 8), n);
  }

  /** Pixel (x, y) of tile `i` is the `set_pixel` call number `64 i + 8 y + 7 - x` of
      `render_name_table`, in the draws of any run of tiles that reaches it. */
  lemma BgPixelOrder(v: PpuView, sys: SystemPalette, j: BgJob, m: nat, i: nat, x: nat, y: nat)
    requires JobShape(v, j) && i < m <= 0x3c0 && TilesInRom(v, j, m) && TileInRom(v, j, i) && x < 8 && y < 8
    ensures |BgDraws(v, sys, j, m)| == 64 * m
    ensures BgDraws(v, sys, j, m)[64 * i + 8 * y + (7 - x)] == RowDraw(sys, RowOf(TileOf(v, j, i), y), 7 - x)
  {
    BgDrawsAt(v, sys, j, m, i, 8 * y + (7 - x));
    TileDrawsAt(sys, TileOf(v, j, i), 8, y, 7 - x);
  }

  /** Where `render_name_table` paints pixel (x, y) of tile `i`: at (`8 col + x`, `8 row + y`)
      moved by the shift, and only when that position is in the viewport. */
  lemma BgPixelPlace(v: PpuView, sys: SystemPalette, j: BgJob, i: nat, x: nat, y: nat)
    requires JobShape(v, j) && i < 0x3c0 && TileInRom(v, j, i) && x < 8 && y < 8
    ensures var d := RowDraw(sys, RowOf(TileOf(v, j, i), y), 7 - x);
      && (d.Put? <==> Contains(j.viewPort, 8 * (i % 32) + x, 8 * (i / 32) + y))
      && (d.Put? ==> d.x == j.shiftX + 8 * (i % 32) + x && d.y == j.shiftY + 8 * (i / 32) + y)
  {
    RowOfTile(v, j, i, y);
    RowDrawPixel(sys, RowOf(TileOf(v, j, i), y), x);
  }

  /** The colour `render_name_table` paints for pixel (x, y) of tile `i`: its colour number takes
      bit `7 - x` of pattern byte `y` as bit 0 and bit `7 - x` of byte `y + 8` as bit 1, and
      selects that entry of the tile's palette, so that colour number 0 shows the universal
      background colour `palette_table[0]`. */
  lemma BgPixelColour(v: PpuView, sys: SystemPalette, j: BgJob, i: nat, x: nat, y: nat)
    requires JobShape(v, j) && i < 0x3c0 && TileInRom(v, j, i) && x < 8 && y < 8
    ensures var base := TileBase(v.bgBank, j.nameTable[i]);
      var value := PixelValue(v.chrRom[base + y], v.chrRom[base + y + 8], 7 - x);
      var d := RowDraw(sys, RowOf(TileOf(v, j, i), y), 7 - x);
      && (d.Put? ==> d.colour == sys(BgPalette(v.paletteTable, j.nameTable[0x3c0..0x400], i % 32, i / 32)[value]))
      && (d.Put? && value == 0 ==> d.colour == sys(v.paletteTable[0]))
  {
    RowOfTile(v, j, i, y);
    RowDrawPixel(sys, RowOf(TileOf(v, j, i), y), x);
  }

  /** Row `y` of tile `i` holds pattern bytes `y` and `y + 8` of the tile, the tile's palette and
      its screen position. */
  lemma RowOfTile(v: PpuView, j: BgJob, i: nat, y: nat)
    requires JobShape(v, j) && i < 0x3c0 && TileInRom(v, j, i) && y < 8
    ensures var base := TileBase(v.bgBank, j.nameTable[i]);
      RowOf(TileOf(v, j, i), y) == BgRow(v.chrRom[base + y], v.chrRom[base + y + 8],
        BgPalette(v.paletteTable, j.nameTable[0x3c0..0x400], i % 32, i / 32), v.paletteTable[0],
        8 * (i % 32), 8 * (i / 32) + y, j.viewPort, j.shiftX, j.shiftY)
  {
  }

  /** Pixel `x` of a row, drawn by the loop step `k = 7 - x`. */
  lemma RowDrawPixel(sys: SystemPalette, r: BgRow, x: nat)
    requires RowOk(r) && x < 8
    ensures var d := RowDraw(sys, r, 7 - x);
      var value := PixelValue(r.upper, r.lower, 7 - x);
      && (d.Put? <==> Contains(r.viewPort, r.pixelX + x, r.pixelY))
      && (d.Put? ==> d.x == r.shiftX + r.pixelX + x && d.y == r.shiftY + r.pixelY)
      && (d.Put? ==> d.colour == if value == 0 then sys(r.backdrop) else sys(r.palette[value]))
  {
  }
}
