/** The CHR ROM viewer of code/ch7/src/tiles_viewer.rs: it draws one tile, or the first 255 tiles
    of a pattern table in a grid of 20 per row, each in four fixed colours. */
module TilesViewer {
  import opened Wrappers
  import opened Frame
  import opened TilePixels

  /** The system-palette entries of the four colour numbers. */
  function ViewerEntry(value: bv8): bv8
    requires value <= 3
  {
    match value
    case 0 => 0x01
    case 1 => 0x23
    case 2 => 0x27
    case 3 => 0x30
  }

  /** The viewer's colour number of pixel `7 - k`: unlike the renderers it takes bit `k` of
      `tile[y]` (`upper`) as bit 1 and of `tile[y + 8]` (`lower`) as bit 0. */
  function ViewerValue(upper: bv8, lower: bv8, k: nat): (v: bv8)
    requires k < 8
    ensures v <= 3
    ensures v >> 1 == Bit(upper, k) && v & 1 == Bit(lower, k)
  {
    PixelValue(lower, upper, k)
  }

  /** The viewer's plane order is the renderers' with the two bits of the colour number swapped. */
  lemma PlaneOrderSwapped(upper: bv8, lower: bv8, k: nat)
    requires k < 8
    ensures var r := PixelValue(upper, lower, k);
      ViewerValue(upper, lower, k) == ((r & 1) << 1) | (r >> 1)
  {
    var r := PixelValue(upper, lower, k);
    assert r & 1 == Bit(upper, k) && r >> 1 == Bit(lower, k);
  }

  /** A tile is in the ROM when all 16 of its bytes are. */
  predicate TileInRom(chrRom: seq<bv8>, bank: nat, n: nat) {
    bank * 0x1000 + n * 16 + 16 <= |chrRom|
  }

  /** The 16 bytes of tile `n` of pattern table `bank`. */
  function TileBytes(chrRom: seq<bv8>, bank: nat, n: nat): (t: seq<bv8>)
    requires TileInRom(chrRom, bank, n)
    ensures |t| == 16
  {
    chrRom[bank * 0x1000 + n * 16..bank * 0x1000 + n * 16 + 16]
  }

  /** Row `y` of a tile drawn with its top-left corner at (`ox`, `oy`). */
  datatype ViewerRow = ViewerRow(upper: bv8, lower: bv8, ox: nat, oy: nat, y: nat)

  /** Pixel `x = 7 - k` of a row: always drawn, at (`ox + x`, `oy + y`). */
  function ViewerDraw(sys: bv8 -> Rgb, r: ViewerRow, k: nat): Draw
    requires k < 8
  {
    Put(r.ox + (7 - k), r.oy + r.y, sys(ViewerEntry(ViewerValue(r.upper, r.lower, k))))
  }

  function ViewerRowDraws(sys: bv8 -> Rgb, r: ViewerRow, m: nat): seq<Draw>
    requires m <= 8
  {
    seq(m, k requires 0 <= k < m => ViewerDraw(sys, r, k))
  }

  /** Painting the first `k + 1` draws of a viewer row is painting the first `k` and then draw `k`. */
  lemma ViewerRowDrawsNext(sys: bv8 -> Rgb, r: ViewerRow, k: nat, data: seq<bv8>)
    requires k < 8
    ensures PaintAll(data, ViewerRowDraws(sys, r, k + 1)) == Apply(PaintAll(data, ViewerRowDraws(sys, r, k)), ViewerDraw(sys, r, k))
  {
    assert ViewerRowDraws(sys, r, k + 1) == ViewerRowDraws(sys, r, k) + [ViewerDraw(sys, r, k)];
    PaintAllAppend(data, ViewerRowDraws(sys, r, k), ViewerDraw(sys, r, k));
  }

  function ViewerRowOf(tile: seq<bv8>, ox: nat, oy: nat, y: nat): ViewerRow
    requires |tile| == 16 && y < 8
  {
    ViewerRow(tile[y], tile[y + 8], ox, oy, y)
  }

  /** The draws of rows `y < m` of a tile at (`ox`, `oy`). */
  function ViewerTileDraws(sys: bv8 -> Rgb, tile: seq<bv8>, ox: nat, oy: nat, m: nat): seq<Draw>
    requires |tile| == 16 && m <= 8
  {
    if m == 0 then [] else ViewerTileDraws(sys, tile, ox, oy, m - 1) + ViewerRowDraws(sys, ViewerRowOf(tile, ox, oy, m - 1), 8)
  }

  /** The grid cell of tile `n` in `show_tile_bank`: 20 tiles per row, 10 pixels apart. */
  function GridX(n: nat): nat {
    10 * (n % 20)
  }

  function GridY(n: nat): nat {
    10 * (n / 20)
  }

  /** The counters `(tile_x, tile_y)` at the top of the loop for tile `n`, before the wrap test:
      the cell of tile `n - 1` moved 10 pixels right. */
  function Cursor(n: nat): (nat, nat) {
    if n == 0 then (0, 0) else (GridX(n - 1) + 10, GridY(n - 1))
  }

  /** The draws of tiles `n < m` of `show_tile_bank`. */
  function BankDraws(sys: bv8 -> Rgb, chrRom: seq<bv8>, bank: nat, m: nat): seq<Draw>
    requires m <= 255 && (m > 0 ==> TileInRom(chrRom, bank, m - 1))
  {
    if m == 0 then [] else
      BankDraws(sys, chrRom, bank, m - 1) + ViewerTileDraws(sys, TileBytes(chrRom, bank, m - 1), GridX(m - 1), GridY(m - 1), 8)
  }

  /** The frame `Frame::new` returns. */
  const Blank: seq<bv8> := seq(Size, _ => 0)

  /** `show_tile`: `ok` is false where the source panics, on a bank other than 0 or 1 (the
      assertion) or a tile past the end of the ROM (the slice). */
  method ShowTile(sys: bv8 -> Rgb, chrRom: seq<bv8>, bank: nat, tileN: nat) returns (ok: bool, frame: Frame)
    ensures ok <==> bank <= 1 && TileInRom(chrRom, bank, tileN)
    ensures ok ==> frame.data[..] == PaintAll(Blank, ViewerTileDraws(sys, TileBytes(chrRom, bank, tileN), 0, 0, 8))
  {
    frame := new Frame();
    if bank > 1 {
      return false, frame;
    }
    var bankBase := bank * 0x1000;
    if bankBase + tileN * 16 + 15 >= |chrRom| {
      return false, frame;
    }
    var tile := chrRom[bankBase + tileN * 16..bankBase + tileN * 16 + 15 + 1];
    ViewerTile(sys, frame, tile, 0, 0);
    ok := true;
  }

  /** `show_tile_bank`: `ok` is false where the source panics, on a bank other than 0 or 1 or a
      ROM that ends before tile 254 does. */
  method ShowTileBank(sys: bv8 -> Rgb, chrRom: seq<bv8>, bank: nat) returns (ok: bool, frame: Frame)
    ensures ok <==> bank <= 1 && TileInRom(chrRom, bank, 254)
    ensures ok ==> frame.data[..] == PaintAll(Blank, BankDraws(sys, chrRom, bank, 255))
  {
    frame := new Frame();
    if bank > 1 {
      return false, frame;
    }
    var tileY := 0;
    var tileX := 0;
    var bankBase := bank * 0x1000;
    var tileN: nat := 0;
    while tileN < 255
      invariant tileN <= 255
      invariant fresh(frame.data)
      invariant (tileX, tileY) == Cursor(tileN)
      invariant tileN > 0 ==> TileInRom(chrRom, bank, tileN - 1)
      invariant frame.data[..] == PaintAll(Blank, BankDraws(sys, chrRom, bank, tileN))
    {
      var inRom;
      inRom, tileX, tileY := BankStep(sys, frame, chrRom, bank, bankBase, tileN, tileX, tileY);
      if !inRom {
        return false, frame;
      }
      tileN := tileN + 1;
    }
    ok := true;
  }

  /** One pass of the tile loop: move to the next grid cell, slice the tile out of the ROM
      (`inRom` false where that panics) and paint it. */
  method BankStep(sys: bv8 -> Rgb, frame: Frame, chrRom: seq<bv8>, bank: nat, bankBase: nat, tileN: nat,
                  tileX: nat, tileY: nat) returns (inRom: bool, tileX': nat, tileY': nat)
    requires bankBase == bank * 0x1000 && tileN < 255
    requires (tileX, tileY) == Cursor(tileN)
    requires tileN > 0 ==> TileInRom(chrRom, bank, tileN - 1)
    requires frame.data[..] == PaintAll(Blank, BankDraws(sys, chrRom, bank, tileN))
    modifies frame.data
    ensures !inRom ==> !TileInRom(chrRom, bank, 254)
    ensures inRom ==> TileInRom(chrRom, bank, tileN)
    ensures inRom ==> (tileX', tileY') == Cursor(tileN + 1)
    ensures inRom ==> frame.data[..] == PaintAll(Blank, BankDraws(sys, chrRom, bank, tileN + 1))
  {
    tileX', tileY' := WrapRow(tileN, tileX, tileY);
    var tile;
    inRom, tile := SliceTile(chrRom, bank, bankBase, tileN);
    if !inRom {
      return;
    }
    BankTile(sys, frame, chrRom, bank, tileN, tile, tileX', tileY');
    tileX' := tileX' + 10;
  }

  /** The slice `chr_rom[bank + n * 16 ..= bank + n * 16 + 15]`, which panics (`ok` false)
      when it runs past the end of the ROM; then no later tile, and so not tile 254, lies inside
      it either. */
  method SliceTile(chrRom: seq<bv8>, bank: nat, bankBase: nat, n: nat) returns (ok: bool, tile: seq<bv8>)
    requires bankBase == bank * 0x1000 && n <= 254
    ensures ok <==> TileInRom(chrRom, bank, n)
    ensures ok ==> tile == TileBytes(chrRom, bank, n)
    ensures !ok ==> !TileInRom(chrRom, bank, 254)
  {
    if bankBase + n * 16 + 15 >= |chrRom| {
      return false, [];
    }
    tile := chrRom[bankBase + n * 16..bankBase + n * 16 + 15 + 1];
    ok := true;
  }

  /** The body of the tile loop once the tile's bytes and grid cell are known. */
  method BankTile(sys: bv8 -> Rgb, frame: Frame, chrRom: seq<bv8>, bank: nat, tileN: nat, tile: seq<bv8>, tileX: nat, tileY: nat)
    requires tileN < 255 && TileInRom(chrRom, bank, tileN) && tile == TileBytes(chrRom, bank, tileN)
    requires tileX == GridX(tileN) && tileY == GridY(tileN)
    requires frame.data[..] == PaintAll(Blank, BankDraws(sys, chrRom, bank, tileN))
    modifies frame.data
    ensures frame.data[..] == PaintAll(Blank, BankDraws(sys, chrRom, bank, tileN + 1))
  {
    var done := BankDraws(sys, chrRom, bank, tileN);
    var next := ViewerTileDraws(sys, tile, tileX, tileY, 8);
    assert BankDraws(sys, chrRom, bank, tileN + 1) == done + next;
    PaintAllConcat(Blank, done, next);
    ViewerTile(sys, frame, tile, tileX, tileY);
  }

  /** The wrap test at the head of iteration `n`: every 20 tiles the counters move to the start
      of the next grid row, so that they then hold the grid cell of tile `n`. */
  method WrapRow(n: nat, tileX: nat, tileY: nat) returns (x: nat, y: nat)
    requires (tileX, tileY) == Cursor(n)
    ensures x == GridX(n) && y == GridY(n)
  {
    if n > 0 {
      GridStep(n);
    }
    x, y := tileX, tileY;
    if n != 0 && n % 20 == 0 {
      y := tileY + 10;
      x := 0;
    }
  }

  /** From one grid cell to the next: 10 pixels right, or back to column 0 of the next grid row
      after every 20 tiles. */
  lemma GridStep(n: nat)
    requires n > 0
    ensures n % 20 == 0 ==> GridX(n) == 0 && GridY(n) == GridY(n - 1) + 10
    ensures n % 20 != 0 ==> GridX(n) == GridX(n - 1) + 10 && GridY(n) == GridY(n - 1)
  {
    var q := (n - 1) / 20;
    var r := (n - 1) % 20;
    assert n - 1 == 20 * q + r;
    if r == 19 {
      assert n == 20 * (q + 1);
    } else {
      assert n == 20 * q + (r + 1);
    }
  }

  /** The row loop of one tile at (`ox`, `oy`). */
  method ViewerTile(sys: bv8 -> Rgb, frame: Frame, tile: seq<bv8>, ox: nat, oy: nat)
    requires |tile| == 16
    modifies frame.data
    ensures frame.data[..] == PaintAll(old(frame.data[..]), ViewerTileDraws(sys, tile, ox, oy, 8))
  {
    var y: nat := 0;
    while y < 8
      invariant y <= 8
      invariant frame.data[..] == PaintAll(old(frame.data[..]), ViewerTileDraws(sys, tile, ox, oy, y))
    {
      var row := ViewerRow(tile[y], tile[y + 8], ox, oy, y);
      assert ViewerTileDraws(sys, tile, ox, oy, y + 1) == ViewerTileDraws(sys, tile, ox, oy, y) + ViewerRowDraws(sys, row, 8);
      PaintAllConcat(old(frame.data[..]), ViewerTileDraws(sys, tile, ox, oy, y), ViewerRowDraws(sys, row, 8));
      ViewerRowLoop(sys, frame, row);
      y := y + 1;
    }
  }

  /** The pixel loop of one row, right to left. */
  method ViewerRowLoop(sys: bv8 -> Rgb, frame: Frame, r: ViewerRow)
    modifies frame.data
    ensures frame.data[..] == PaintAll(old(frame.data[..]), ViewerRowDraws(sys, r, 8))
  {
    var upper := r.upper;
    var lower := r.lower;
    var k: nat := 0;
    while k < 8
      invariant k <= 8
      invariant upper == Shifted(r.upper, k) && lower == Shifted(r.lower, k)
      invariant frame.data[..] == PaintAll(old(frame.data[..]), ViewerRowDraws(sys, r, k))
    {
      upper, lower := ViewerRowStep(sys, frame, r, k, upper, lower, old(frame.data[..]));
      k := k + 1;
    }
  }

  /** One pass of the viewer pixel loop: colour number, pixel `7 - x`, and the shift of both planes. */
  method ViewerRowStep(sys: bv8 -> Rgb, frame: Frame, r: ViewerRow, k: nat, upper: bv8, lower: bv8,
      ghost before: seq<bv8>) returns (upper': bv8, lower': bv8)
    requires k < 8
    requires upper == Shifted(r.upper, k) && lower == Shifted(r.lower, k)
    requires frame.data[..] == PaintAll(before, ViewerRowDraws(sys, r, k))
    modifies frame.data
    ensures upper' == Shifted(r.upper, k + 1) && lower' == Shifted(r.lower, k + 1)
    ensures frame.data[..] == PaintAll(before, ViewerRowDraws(sys, r, k + 1))
  {
    var value := ((1 & upper) << 1) | (1 & lower);
    ShiftedValue(r.lower, r.upper, k);
    upper' := upper >> 1;
    lower' := lower >> 1;
    ViewerRowDrawsNext(sys, r, k, before);
    ViewerPixel(sys, frame, r, k, value);
  }

  /** The body of the pixel loop once the colour number is known. */
  method ViewerPixel(sys: bv8 -> Rgb, frame: Frame, r: ViewerRow, k: nat, value: bv8)
    requires k < 8 && value == ViewerValue(r.upper, r.lower, k)
    modifies frame.data
    ensures frame.data[..] == Apply(old(frame.data[..]), ViewerDraw(sys, r, k))
  {
    var rgb;
    match value {
      case 0 => rgb := sys(0x01);
      case 1 => rgb := sys(0x23);
      case 2 => rgb := sys(0x27);
      case 3 => rgb := sys(0x30);
    }
    var x := 7 - k;
    frame.SetPixel(r.ox + x, r.oy + r.y, rgb);
  }

  /** The colour the viewer shows for pixel (x, y) of a tile. */
  function ViewerColour(sys: bv8 -> Rgb, tile: seq<bv8>, x: nat, y: nat): Rgb
    requires |tile| == 16 && x < 8 && y < 8
  {
    sys(ViewerEntry(ViewerValue(tile[y], tile[y + 8], 7 - x)))
  }

  /** A row stays on its own line, within the eight columns from `ox`. */
  lemma ViewerRowInBox(sys: bv8 -> Rgb, r: ViewerRow, m: nat)
    requires m <= 8
    ensures |ViewerRowDraws(sys, r, m)| == m
    ensures AllInBox(ViewerRowDraws(sys, r, m), r.ox, r.oy + r.y, r.ox + 8, r.oy + r.y + 1)
  {
  }

  /** A tile drawn at (`ox`, `oy`) stays in the 8 by 8 square there, its rows in rows `y < m`. */
  lemma {:induction false} ViewerTileInBox(sys: bv8 -> Rgb, tile: seq<bv8>, ox: nat, oy: nat, m: nat)
    requires |tile| == 16 && m <= 8
    ensures |ViewerTileDraws(sys, tile, ox, oy, m)| == 8 * m
    ensures AllInBox(ViewerTileDraws(sys, tile, ox, oy, m), ox, oy, ox + 8, oy + m)
  {
    if m > 0 {
      var init := ViewerTileDraws(sys, tile, ox, oy, m - 1);
      var row := ViewerRowDraws(sys, ViewerRowOf(tile, ox, oy, m - 1), 8);
      ViewerTileInBox(sys, tile, ox, oy, m - 1);
      ViewerRowInBox(sys, ViewerRowOf(tile, ox, oy, m - 1), 8);
      assert AllInBox(init, ox, oy, ox + 8, oy + m);
      AllInBoxConcat(init, row, ox, oy, ox + 8, oy + m);
    }
  }

  /** Within a row, pixel `x` is painted by the draw of bit `7 - x`, once the row has reached it. */
  lemma {:induction false} ViewerRowLast(sys: bv8 -> Rgb, r: ViewerRow, m: nat, x: nat)
    requires 7 - x < m <= 8 && x < 8 && r.ox + 8 <= Width
    ensures LastDraw(ViewerRowDraws(sys, r, m), Index(r.ox + x, r.oy + r.y))
      == Some(sys(ViewerEntry(ViewerValue(r.upper, r.lower, 7 - x))))
    decreases m
  {
    var ds := ViewerRowDraws(sys, r, m);
    assert ds[..m - 1] == ViewerRowDraws(sys, r, m - 1);
    if m - 1 != 7 - x {
      ViewerRowLast(sys, r, m - 1, x);
      assert Index(r.ox + (7 - (m - 1)), r.oy + r.y) != Index(r.ox + x, r.oy + r.y);
    }
  }

  /** Within a tile, pixel (x, y) shows the colour its two bit planes select, once row `y` is
      drawn: no later row touches it. */
  lemma {:induction false} ViewerTileLast(sys: bv8 -> Rgb, tile: seq<bv8>, ox: nat, oy: nat, m: nat, x: nat, y: nat)
    requires |tile| == 16 && y < m <= 8 && x < 8 && ox + 8 <= Width
    ensures LastDraw(ViewerTileDraws(sys, tile, ox, oy, m), Index(ox + x, oy + y)) == Some(ViewerColour(sys, tile, x, y))
    decreases m
  {
    if m == y + 1 {
      ViewerRowHit(sys, tile, ox, oy, x, y);
    } else {
      ViewerRowMiss(sys, tile, ox, oy, m - 1, x, y);
      ViewerTileLast(sys, tile, ox, oy, m - 1, x, y);
    }
  }

  /** Row `y` of a tile is the last to touch pixel (x, y). */
  lemma ViewerRowHit(sys: bv8 -> Rgb, tile: seq<bv8>, ox: nat, oy: nat, x: nat, y: nat)
    requires |tile| == 16 && y < 8 && x < 8 && ox + 8 <= Width
    ensures LastDraw(ViewerTileDraws(sys, tile, ox, oy, y + 1), Index(ox + x, oy + y)) == Some(ViewerColour(sys, tile, x, y))
  {
    var r := ViewerRowOf(tile, ox, oy, y);
    LastDrawConcat(ViewerTileDraws(sys, tile, ox, oy, y), ViewerRowDraws(sys, r, 8), Index(ox + x, oy + y));
    ViewerRowLast(sys, r, 8, x);
  }

  /** Any other row `n` of a tile leaves pixel (x, y) alone. */
  lemma ViewerRowMiss(sys: bv8 -> Rgb, tile: seq<bv8>, ox: nat, oy: nat, n: nat, x: nat, y: nat)
    requires |tile| == 16 && n < 8 && n != y && x < 8 && ox + 8 <= Width
    ensures LastDraw(ViewerTileDraws(sys, tile, ox, oy, n + 1), Index(ox + x, oy + y))
      == LastDraw(ViewerTileDraws(sys, tile, ox, oy, n), Index(ox + x, oy + y))
  {
    var r := ViewerRowOf(tile, ox, oy, n);
    LastDrawConcat(ViewerTileDraws(sys, tile, ox, oy, n), ViewerRowDraws(sys, r, 8), Index(ox + x, oy + y));
    ViewerRowInBox(sys, r, 8);
    LastDrawMiss(ViewerRowDraws(sys, r, 8), ox, oy + n, ox + 8, oy + n + 1, ox + x, oy + y);
  }

  /** `show_tile`'s picture: the tile in the top-left 8 by 8 square, in its four colours, and
      every other pixel black. */
  lemma ShowTilePixel(sys: bv8 -> Rgb, tile: seq<bv8>, x: nat, y: nat)
    requires |tile| == 16 && x < Width && y < Height
    ensures Base(x, y) + 2 < Size
    ensures Pixel(PaintAll(Blank, ViewerTileDraws(sys, tile, 0, 0, 8)), Index(x, y))
      == if x < 8 && y < 8 then ViewerColour(sys, tile, x, y) else Rgb(0, 0, 0)
  {
    OnScreen(x, y);
    PaintAllPixel(Blank, ViewerTileDraws(sys, tile, 0, 0, 8), Index(x, y));
    if x < 8 && y < 8 {
      ViewerTileLast(sys, tile, 0, 0, 8, x, y);
    } else {
      ViewerTileInBox(sys, tile, 0, 0, 8);
      LastDrawMiss(ViewerTileDraws(sys, tile, 0, 0, 8), 0, 0, 8, 8, x, y);
    }
  }

  /** The grid cells of two different tiles of `show_tile_bank` do not overlap: they are 10
      pixels apart and 8 wide. */
  lemma GridCellsDisjoint(n: nat, n': nat, x: nat, y: nat)
    requires n < 255 && n' < 255 && n != n'
    requires GridX(n) <= x < GridX(n) + 8 && GridY(n) <= y < GridY(n) + 8
    ensures !(GridX(n') <= x < GridX(n') + 8 && GridY(n') <= y < GridY(n') + 8)
  {
    if n % 20 == n' % 20 {
      assert n / 20 != n' / 20;
    }
  }

  /** Every grid cell lies in the 198 by 128 corner of the frame. */
  lemma GridOnScreen(n: nat)
    requires n < 255
    ensures GridX(n) + 8 <= 198 && GridY(n) + 8 <= 128
  {
  }

  /** After the tiles `n < m`, pixel (x, y) of tile `n` shows the tile's colour: later tiles
      paint only their own cells. */
  lemma {:induction false} BankLast(sys: bv8 -> Rgb, chrRom: seq<bv8>, bank: nat, m: nat, n: nat, x: nat, y: nat)
    requires n < m <= 255 && TileInRom(chrRom, bank, m - 1) && x < 8 && y < 8
    ensures TileInRom(chrRom, bank, n)
    ensures LastDraw(BankDraws(sys, chrRom, bank, m), Index(GridX(n) + x, GridY(n) + y))
      == Some(ViewerColour(sys, TileBytes(chrRom, bank, n), x, y))
    decreases m
  {
    if m == n + 1 {
      BankHit(sys, chrRom, bank, n, x, y);
    } else {
      BankMiss(sys, chrRom, bank, m - 1, n, x, y);
      BankLast(sys, chrRom, bank, m - 1, n, x, y);
    }
  }

  /** Tile `n` is the last so far to touch the pixels of its own cell. */
  lemma BankHit(sys: bv8 -> Rgb, chrRom: seq<bv8>, bank: nat, n: nat, x: nat, y: nat)
    requires n < 255 && TileInRom(chrRom, bank, n) && x < 8 && y < 8
    ensures LastDraw(BankDraws(sys, chrRom, bank, n + 1), Index(GridX(n) + x, GridY(n) + y))
      == Some(ViewerColour(sys, TileBytes(chrRom, bank, n), x, y))
  {
    var last := ViewerTileDraws(sys, TileBytes(chrRom, bank, n), GridX(n), GridY(n), 8);
    LastDrawConcat(BankDraws(sys, chrRom, bank, n), last, Index(GridX(n) + x, GridY(n) + y));
    GridOnScreen(n);
    ViewerTileLast(sys, TileBytes(chrRom, bank, n), GridX(n), GridY(n), 8, x, y);
  }

  /** Tile `t` leaves the pixels of the cell of every other tile `n` as they were. */
  lemma BankMiss(sys: bv8 -> Rgb, chrRom: seq<bv8>, bank: nat, t: nat, n: nat, x: nat, y: nat)
    requires t < 255 && n < 255 && t != n && TileInRom(chrRom, bank, t) && x < 8 && y < 8
    ensures LastDraw(BankDraws(sys, chrRom, bank, t + 1), Index(GridX(n) + x, GridY(n) + y))
      == LastDraw(BankDraws(sys, chrRom, bank, t), Index(GridX(n) + x, GridY(n) + y))
  {
    var last := ViewerTileDraws(sys, TileBytes(chrRom, bank, t), GridX(t), GridY(t), 8);
    LastDrawConcat(BankDraws(sys, chrRom, bank, t), last, Index(GridX(n) + x, GridY(n) + y));
    OtherCellMiss(sys, TileBytes(chrRom, bank, t), t, n, x, y);
  }

  /** The tile drawn in cell `t` leaves the pixels of every other cell `n` untouched. */
  lemma OtherCellMiss(sys: bv8 -> Rgb, tile: seq<bv8>, t: nat, n: nat, x: nat, y: nat)
    requires |tile| == 16 && t < 255 && n < 255 && t != n && x < 8 && y < 8
    ensures LastDraw(ViewerTileDraws(sys, tile, GridX(t), GridY(t), 8), Index(GridX(n) + x, GridY(n) + y)) == None
  {
    GridOnScreen(n);
    GridOnScreen(t);
    ViewerTileInBox(sys, tile, GridX(t), GridY(t), 8);
    GridCellsDisjoint(n, t, GridX(n) + x, GridY(n) + y);
    LastDrawMiss(ViewerTileDraws(sys, tile, GridX(t), GridY(t), 8), GridX(t), GridY(t), GridX(t) + 8, GridY(t) + 8, GridX(n) + x, GridY(n) + y);
  }

  /** `show_tile_bank`'s picture: pixel (x, y) of tile `n < 255` appears at (`10 (n % 20) + x`,
      `10 (n / 20) + y`) in the tile's colour. */
  lemma BankPixel(sys: bv8 -> Rgb, chrRom: seq<bv8>, bank: nat, n: nat, x: nat, y: nat)
    requires n < 255 && TileInRom(chrRom, bank, 254) && x < 8 && y < 8
    ensures TileInRom(chrRom, bank, n) && Base(GridX(n) + x, GridY(n) + y) + 2 < Size
    ensures Pixel(PaintAll(Blank, BankDraws(sys, chrRom, bank, 255)), Index(GridX(n) + x, GridY(n) + y))
      == ViewerColour(sys, TileBytes(chrRom, bank, n), x, y)
  {
    GridOnScreen(n);
    OnScreen(GridX(n) + x, GridY(n) + y);
    BankLast(sys, chrRom, bank, 255, n, x, y);
    PaintAllPixel(Blank, BankDraws(sys, chrRom, bank, 255), Index(GridX(n) + x, GridY(n) + y));
  }
}
