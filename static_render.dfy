/** The static renderer of code/ch6.4/src/render/mod.rs: the 960 tiles of the first nametable,
    drawn once each at their grid position, with no scrolling and no sprites. */
module StaticRender {
  import opened Wrappers
  import opened Frame
  import opened TilePixels
  import opened Render

  /** The ch6.4 `bg_pallette`: the attribute byte always comes from the first nametable,
      `vram[0x3c0 + 8 (row / 4) + col / 4]`. It picks the same palette the scrolling renderer
      picks for a tile of the first nametable. */
  function StaticBgPalette(v: PpuView, col: nat, row: nat): (pal: seq<bv8>)
    requires Valid(v) && col < 32 && row < 30
    ensures pal == BgPalette(v.paletteTable, VramTable(v.vram, 0)[0x3c0..0x400], col, row)
  {
    var attrTableIdx := row / 4 * 8 + col / 4;
    var attrByte := v.vram[0x3c0 + attrTableIdx];
    assert VramTable(v.vram, 0)[0x3c0..0x400][AttributeIndex(col, row)] == attrByte;
    var palletStart := 1 + PaletteNumber(attrByte, col, row) as nat * 4;
    [v.paletteTable[0], v.paletteTable[palletStart], v.paletteTable[palletStart + 1], v.paletteTable[palletStart + 2]]
  }

  /** The left 256 by 240 screen of the frame. */
  const Screen := Rect(0, 0, 256, 240)

  /** The static render as a `render_name_table` call: the first nametable, the whole screen as
      viewport, no shift. */
  function StaticJob(v: PpuView): (j: BgJob)
    requires Valid(v)
    ensures JobShape(v, j)
  {
    BgJob(VramTable(v.vram, 0), Screen, 0, 0)
  }

  /** A row that lies on the screen with no shift, so that every pixel of it is drawn. */
  predicate OnScreenRow(r: BgRow) {
    RowOk(r) && r.viewPort == Screen && r.shiftX == 0 && r.shiftY == 0 && r.pixelX + 8 <= 256 && r.pixelY < 240
  }

  /** What the static render paints before it returns or panics. */
  function StaticDraws(v: PpuView, sys: SystemPalette): (ds: seq<Draw>)
    requires Valid(v)
    ensures |ds| == 64 * RomTiles(v, StaticJob(v))
  {
    BgDraws(v, sys, StaticJob(v), RomTiles(v, StaticJob(v)))
  }

  /** `render`: paints exactly what the scrolling renderer paints for the first nametable
      unscrolled; `ok` is false where a tile's slice of CHR ROM panics, after the tiles before it
      are painted. */
  method StaticRenderFrame(v: PpuView, sys: SystemPalette, frame: Frame) returns (ok: bool)
    requires Valid(v)
    modifies frame.data
    ensures ok <==> JobOk(v, StaticJob(v))
    ensures frame.data[..] == PaintAll(old(frame.data[..]), StaticDraws(v, sys))
  {
    var i: nat := 0;
    while i < 0x3c0
      invariant i <= 0x3c0 && TilesInRom(v, StaticJob(v), i)
      invariant frame.data[..] == PaintAll(old(frame.data[..]), BgDraws(v, sys, StaticJob(v), i))
    {
      var fetched := FetchStaticTile(v, i);
      if fetched.None? {
        RomTilesAt(v, StaticJob(v), i);
        return false;
      }
      var t := fetched.value;
      PaintAllConcat(old(frame.data[..]), BgDraws(v, sys, StaticJob(v), i), TileDraws(sys, t, 8));
      StaticTile(sys, frame, t);
      i := i + 1;
    }
    RomTilesAt(v, StaticJob(v), i);
    ok := true;
  }

  /** The head of the loop body: tile number `vram[i]`, its 16 bytes in the background pattern
      table, and its palette; none where those bytes run past the end of CHR ROM. */
  method FetchStaticTile(v: PpuView, i: nat) returns (r: Option<BgTile>)
    requires Valid(v) && i < 0x3c0
    ensures r.Some? <==> TileInRom(v, StaticJob(v), i)
    ensures r.Some? ==> r.value == TileOf(v, StaticJob(v), i)
  {
    var bank := v.bgBank;
    var tileIdx := v.vram[i];
    var tileColumn := i % 32;
    var tileRow := i / 32;
    var start := TileBase(bank, tileIdx);
    assert StaticJob(v).nameTable[i] == tileIdx;
    if start + 15 + 1 > |v.chrRom| {
      return None;
    }
    var tile := v.chrRom[start .. start + 15 + 1];
    var palette := StaticBgPalette(v, tileColumn, tileRow);
    StaticTileOf(v, i);
    r := Some(BgTile(tile, palette, v.paletteTable[0], tileColumn, tileRow, Screen, 0, 0));
  }

  /** Tile `i` of the first nametable as the scrolling renderer fetches it, written with the
      ch6.4 palette lookup. */
  lemma StaticTileOf(v: PpuView, i: nat)
    requires Valid(v) && i < 0x3c0 && TileInRom(v, StaticJob(v), i)
    ensures var start := TileBase(v.bgBank, v.vram[i]);
      TileOf(v, StaticJob(v), i)
        == BgTile(v.chrRom[start..start + 16], StaticBgPalette(v, i % 32, i / 32), v.paletteTable[0], i % 32, i / 32, Screen, 0, 0)
  {
    assert StaticJob(v).nameTable[i] == v.vram[i];
  }

  /** The row loop of one tile. */
  method StaticTile(sys: SystemPalette, frame: Frame, t: BgTile)
    requires TileOk(t) && t.viewPort == Screen && t.shiftX == 0 && t.shiftY == 0
    requires t.column < 32 && t.tileRow < 30
    modifies frame.data
    ensures frame.data[..] == PaintAll(old(frame.data[..]), TileDraws(sys, t, 8))
  {
    var y: nat := 0;
    while y < 8
      invariant y <= 8
      invariant frame.data[..] == PaintAll(old(frame.data[..]), TileDraws(sys, t, y))
    {
      var row := BgRow(t.tile[y], t.tile[y + 8], t.palette, t.backdrop, t.column * 8, t.tileRow * 8 + y, t.viewPort, t.shiftX, t.shiftY);
      assert row == RowOf(t, y);
      PaintAllConcat(old(frame.data[..]), TileDraws(sys, t, y), RowDraws(sys, row, 8));
      StaticRow(sys, frame, row);
      y := y + 1;
    }
  }

  /** The pixel loop of one row, right to left, with no viewport test. */
  method StaticRow(sys: SystemPalette, frame: Frame, r: BgRow)
    requires OnScreenRow(r)
    modifies frame.data
    ensures frame.data[..] == PaintAll(old(frame.data[..]), RowDraws(sys, r, 8))
  {
    var upper := r.upper;
    var lower := r.lower;
    var k: nat := 0;
    while k < 8
      invariant k <= 8
      invariant upper == Shifted(r.upper, k) && lower == Shifted(r.lower, k)
      invariant frame.data[..] == PaintAll(old(frame.data[..]), RowDraws(sys, r, k))
    {
      upper, lower := StaticRowStep(sys, frame, r, k, upper, lower, old(frame.data[..]));
      k := k + 1;
    }
  }

  /** One pass of the pixel loop: take the colour number from the low bits of the two planes,
      draw pixel `7 - k`, and shift both planes right. */
  method StaticRowStep(sys: SystemPalette, frame: Frame, r: BgRow, k: nat, upper: bv8, lower: bv8,
                       ghost before: seq<bv8>) returns (upper': bv8, lower': bv8)
    requires OnScreenRow(r) && k < 8
    requires upper == Shifted(r.upper, k) && lower == Shifted(r.lower, k)
    requires frame.data[..] == PaintAll(before, RowDraws(sys, r, k))
    modifies frame.data
    ensures upper' == Shifted(r.upper, k + 1) && lower' == Shifted(r.lower, k + 1)
    ensures frame.data[..] == PaintAll(before, RowDraws(sys, r, k + 1))
  {
    var value := ((1 & lower) << 1) | (1 & upper);
    ShiftedValue(r.upper, r.lower, k);
    upper' := upper >> 1;
    lower' := lower >> 1;
    RowDrawsNext(sys, r, k, before);
    StaticPixel(sys, frame, r, k, value);
  }

  /** The body of the pixel loop once the colour number is known: the pixel is always drawn. */
  method StaticPixel(sys: SystemPalette, frame: Frame, r: BgRow, k: nat, value: bv8)
    requires OnScreenRow(r) && k < 8 && value == PixelValue(r.upper, r.lower, k)
    modifies frame.data
    ensures frame.data[..] == Apply(old(frame.data[..]), RowDraw(sys, r, k))
  {
    var rgb;
    match value {
      case 0 => rgb := sys(r.backdrop);
      case 1 => rgb := sys(r.palette[1]);
      case 2 => rgb := sys(r.palette[2]);
      case 3 => rgb := sys(r.palette[3]);
    }
    var x := 7 - k;
    frame.SetPixel(r.pixelX + x, r.pixelY, rgb);
  }

  /** Row `y` of tile `i` of the static render: bytes `y` and `y + 8` of the tile named by
      `vram[i]`, the ch6.4 palette of the tile, at (`8 col`, `8 row + y`) on the screen. */
  lemma StaticRowOf(v: PpuView, i: nat, y: nat)
    requires Valid(v) && i < 0x3c0 && TileInRom(v, StaticJob(v), i) && y < 8
    ensures var base := TileBase(v.bgBank, v.vram[i]);
      RowOf(TileOf(v, StaticJob(v), i), y)
        == BgRow(v.chrRom[base + y], v.chrRom[base + y + 8], StaticBgPalette(v, i % 32, i / 32),
                 v.paletteTable[0], 8 * (i % 32), 8 * (i / 32) + y, Screen, 0, 0)
  {
    assert StaticJob(v).nameTable[i] == v.vram[i];
    RowOfTile(v, StaticJob(v), i, y);
  }

  /** Every row of the static render lies on the screen. */
  lemma StaticRowOnScreen(v: PpuView, i: nat, y: nat)
    requires Valid(v) && i < 0x3c0 && TileInRom(v, StaticJob(v), i) && y < 8
    ensures OnScreenRow(RowOf(TileOf(v, StaticJob(v), i), y))
  {
    TileOnScreen(i, 0, y);
    TileOnScreen(i, 7, y);
  }

  /** A row on the screen draws every one of its eight pixels, unmoved. */
  lemma OnScreenRowDraw(sys: SystemPalette, r: BgRow, x: nat)
    requires OnScreenRow(r) && x < 8
    ensures var value := PixelValue(r.upper, r.lower, 7 - x);
      RowDraw(sys, r, 7 - x) == Put(r.pixelX + x, r.pixelY, if value == 0 then sys(r.backdrop) else sys(r.palette[value]))
  {
  }

  /** Pixel (x, y) of tile `i` as the ch6.4 loop paints it: at (`8 col + x`, `8 row + y`), in the
      colour its two bit planes select from the tile's palette, colour number 0 showing the
      universal background colour. */
  function TilePixelDraw(v: PpuView, sys: SystemPalette, i: nat, x: nat, y: nat): Draw
    requires Valid(v) && i < 0x3c0 && x < 8 && y < 8 && TileBase(v.bgBank, v.vram[i]) + 16 <= |v.chrRom|
  {
    var base := TileBase(v.bgBank, v.vram[i]);
    var value := PixelValue(v.chrRom[base + y], v.chrRom[base + y + 8], 7 - x);
    Put(8 * (i % 32) + x, 8 * (i / 32) + y,
        if value == 0 then sys(v.paletteTable[0]) else sys(StaticBgPalette(v, i % 32, i / 32)[value]))
  }

  /** Pixel `7 - x` of the on-screen row `y` of tile `i` is pixel (x, y) of the tile. */
  lemma TilePixelOfRow(v: PpuView, sys: SystemPalette, i: nat, x: nat, y: nat, r: BgRow)
    requires Valid(v) && i < 0x3c0 && x < 8 && y < 8 && TileBase(v.bgBank, v.vram[i]) + 16 <= |v.chrRom|
    requires OnScreenRow(r)
    requires r.upper == v.chrRom[TileBase(v.bgBank, v.vram[i]) + y]
    requires r.lower == v.chrRom[TileBase(v.bgBank, v.vram[i]) + y + 8]
    requires r.palette == StaticBgPalette(v, i % 32, i / 32) && r.backdrop == v.paletteTable[0]
    requires r.pixelX == 8 * (i % 32) && r.pixelY == 8 * (i / 32) + y
    ensures RowDraw(sys, r, 7 - x) == TilePixelDraw(v, sys, i, x, y)
  {
    OnScreenRowDraw(sys, r, x);
    var value := PixelValue(r.upper, r.lower, 7 - x);
    var c := if value == 0 then sys(r.backdrop) else sys(r.palette[value]);
    assert c == if value == 0 then sys(v.paletteTable[0]) else sys(StaticBgPalette(v, i % 32, i / 32)[value]);
    assert RowDraw(sys, r, 7 - x) == Put(8 * (i % 32) + x, 8 * (i / 32) + y, c);
  }

  /** Every tile the static render reaches is drawn in full: draw `64 i + 8 y + 7 - x` of the
      render is pixel (x, y) of tile `i`. */
  lemma StaticPixelDrawn(v: PpuView, sys: SystemPalette, i: nat, x: nat, y: nat)
    requires Valid(v) && i < RomTiles(v, StaticJob(v)) && x < 8 && y < 8
    ensures TileBase(v.bgBank, v.vram[i]) + 16 <= |v.chrRom|
    ensures StaticDraws(v, sys)[64 * i + 8 * y + (7 - x)] == TilePixelDraw(v, sys, i, x, y)
  {
    var m := RomTiles(v, StaticJob(v));
    TilesInRomPrefix(v, StaticJob(v), m, i + 1);
    assert StaticJob(v).nameTable[i] == v.vram[i];
    BgPixelOrder(v, sys, StaticJob(v), m, i, x, y);
    StaticRowOf(v, i, y);
    StaticRowOnScreen(v, i, y);
    var r := RowOf(TileOf(v, StaticJob(v), i), y);
    TilePixelOfRow(v, sys, i, x, y, r);
    assert StaticDraws(v, sys)[64 * i + 8 * y + (7 - x)] == RowDraw(sys, r, 7 - x);
  }

  lemma TileOnScreen(i: nat, x: nat, y: nat)
    requires i < 0x3c0 && x < 8 && y < 8
    ensures 8 * (i % 32) + x < 256 && 8 * (i / 32) + y < 240
  {
  }
}
