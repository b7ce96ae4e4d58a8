# A verified model of the NES tutorial emulator's hardware pieces

The model covers the self-contained parts of a step-by-step NES emulator written in Rust, and the book's sidebar
script. Each part is modelled in the form its source has and proved against a specification.

- **Joypad** (`code/ch7/src/joypad.rs`). The first controller's shift register:
  - a strobe bit;
  - a button index that saturates at 8;
  - the eight button bits, reported serially in the order A, B, Select, Start, Up, Down, Left, Right.
- **Scroll register** (`code/ch6.4/src/ppu/registers/scroll.rs`). The PPU's two-write latch: it sets X, then Y.
- **Frame** (`code/ch8/src/render/frame.rs`). A 512×240 RGB byte buffer whose `set_pixel` is bounds-checked on the
  byte offset only.
- **Bus** (`code/ch8/src/bus.rs`). The CPU address-space decoder:
  - 2 KiB of RAM mirrored up to 0x1FFF;
  - the PPU registers mirrored every 8 bytes up to 0x3FFF;
  - the APU and the second controller, which are ignored;
  - the first controller;
  - PRG ROM, with a 16 KiB ROM mirrored into 0xC000–0xFFFF;
  - OAM DMA at 0x4014;
  - the cycle counter and the NMI-edge rule that drives the game loop;
  - the panics on writes to 0x2002 and to ROM.
- **Scrolling renderer** (`code/ch8/src/render/mod.rs`). It covers:
  - attribute-table palette selection;
  - sprite palettes;
  - nametable selection by mirroring;
  - the two-call scroll split;
  - the background tile loops with their viewport clipping;
  - the sprite loop with transparency, flips and drawing order.
- **Static renderer** (`code/ch6.4/src/render/mod.rs`). The first version, which always reads the first nametable.
- **Tile viewer** (`code/ch7/src/tiles_viewer.rs`). Draws one CHR tile, or a whole bank laid out 20 tiles per row.
- **Opcode table** (`code/ch3.3/src/opcodes.rs`). The 151 `OpCode` rows and the `OPCODES_MAP` built from them.
- **6502 arithmetic as the instruction tests pin it down** (`code/ch3.3/src/test.rs`). The CPU source is not part
  of this model. The tests' asserted results are modelled as functions on bytes and registers:
  - loads and transfers;
  - INX, INY, INC, DEC, DEX and DEY;
  - ADC and SBC;
  - CMP, CPX and CPY;
  - ASL, LSR, ROL and ROR;
  - BIT;
  - the JMP-indirect page wrap.

  Each group of test vectors is a lemma.
- **Sidebar script** (`toc.js`). It covers:
  - canonicalising the current page URL;
  - the relative-link test and rewrite;
  - the active-link rule;
  - the walk that expands the active link's ancestors;
  - the section toggle;
  - the saved scroll position.

Classes with `modifies` clauses model the parts the source updates in place:
- `Joypad.Joypad` and `Scroll.ScrollRegister`;
- `Frame.Frame` over an `array<bv8>`;
- `Bus.Bus`, holding the RAM array, the controller and the PPU call log;
- `Toc.Sidebar`, holding the class sets and hrefs of the element tree.

Every loop of the renderers and the viewer is a `method` with a `while` loop. Each such method is proved equal to
painting a flat list of draws (`Frame.PaintAll`). The function that produces that list is the specification, and
the pixel-level lemmas are proved about it.

Byte-level register logic uses `bv8` and `bv16`. The ALU uses integers in 0..255 with explicit wrap-around.

## Model

| member | source | states |
|---|---|---|
| Joypad.Response | code/ch7/src/joypad.rs:37-46 | a read returns 0 or 1; it returns 1 once the index is past the eighth button, and otherwise 1 exactly when the button at that position of the serial order A, B, Select, Start, Up, Down, Left, Right is pressed |
| Joypad.ButtonBit | code/ch7/src/joypad.rs:41 | bit `index` of the status moved down to bit 0 is 0 or 1, and 1 exactly when the button at that position of the serial order is pressed |
| Joypad.WithButton | code/ch7/src/joypad.rs:48-50 | the bits outside `button` are unchanged; the bits of `button` are all set when pressed and all clear otherwise |
| Joypad.AfterWrite | code/ch7/src/joypad.rs:30-35 | strobe becomes bit 0 of the data; strobe on rewinds the index to 0; strobe off keeps the index; the buttons are unchanged; index ≤ 8 is preserved |
| Joypad.AfterRead | code/ch7/src/joypad.rs:37-46 | the index advances by one only with strobe off and index ≤ 7, and is unchanged otherwise; strobe and buttons are unchanged; index ≤ 8 is preserved |
| Joypad.StrobeOnRepeats | code/ch7/src/joypad.rs:58-65 | with strobe on, every read of a run returns the same response and the state does not change |
| Joypad.StrobeOffShifts | code/ch7/src/joypad.rs:42-44 | with strobe off, read k of a run reports the button at index min(index + k, 8), and the index ends saturated at 8 |
| Joypad.SerialReport | code/ch7/src/joypad.rs:67-93 | after writing 1 then 0, read k < 8 returns 1 exactly when the k-th button of the serial order is pressed, and every later read returns 1 |
| Joypad.StrobeOnOffVector | code/ch7/src/joypad.rs:68-93 | from the state `Joypad::new` gives, after `write(0)` and pressing RIGHT, LEFT, SELECT and B, reads give 0,1,1,0,0,0,1,1 followed by ten 1s, and writing 1 then 0 restores the state, so the second pass repeats |
| Joypad.StrobeModeVector | code/ch7/src/joypad.rs:58-65 | from the state `Joypad::new` gives, after `write(1)` and pressing A, every read returns 1 |
| Joypad.Joypad.constructor | code/ch7/src/joypad.rs:22-28 | strobe off, index 0, no button pressed |
| Joypad.Joypad.Write | code/ch7/src/joypad.rs:30-35 | the new state is `AfterWrite` of the old one |
| Joypad.Joypad.Read | code/ch7/src/joypad.rs:37-46 | returns `Response` of the old state; the new state is `AfterRead` of the old one; past index 7 it returns 1 and changes nothing |
| Joypad.Joypad.SetButtonPressedStatus | code/ch7/src/joypad.rs:48-50 | the buttons become `WithButton`; strobe and index are unchanged |
| Scroll.AfterWrite | code/ch6.4/src/ppu/registers/scroll.rs:16-23 | with the latch clear, X becomes the data and Y is kept; with it set, Y becomes the data and X is kept; the latch flips |
| Scroll.LatchParity | code/ch6.4/src/ppu/registers/scroll.rs:16-23 | after any sequence of writes the latch has flipped exactly when the number of writes is odd |
| Scroll.LastPairWins | code/ch6.4/src/ppu/registers/scroll.rs:16-23 | from a clear latch, an even non-empty sequence of writes leaves X and Y equal to the last two bytes written and the latch clear |
| Scroll.ScrollRegister.constructor | code/ch6.4/src/ppu/registers/scroll.rs:8-14 | both offsets 0 and the latch clear |
| Scroll.ScrollRegister.Write | code/ch6.4/src/ppu/registers/scroll.rs:16-23 | the new state is `AfterWrite` of the old one |
| Scroll.ScrollRegister.ResetLatch | code/ch6.4/src/ppu/registers/scroll.rs:25-27 | the latch is cleared and both offsets are kept |
| Frame.OnScreen | code/ch8/src/render/frame.rs:16-17 | the bounds check passes exactly when the linear pixel index y·512 + x is inside the buffer, so every x < 512, y < 240 is written |
| Frame.IndexInjective | code/ch8/src/render/frame.rs:16 | two pixels with x < 512 share a byte offset only if they are the same pixel |
| Frame.Painted | code/ch8/src/render/frame.rs:15-22 | the length is kept; inside the buffer, the three bytes of (x, y) become the colour and no other byte changes; outside, the buffer is unchanged |
| Frame.PaintAllPixel | code/ch8/src/render/frame.rs:15-22 | after a sequence of `set_pixel` calls each pixel shows the colour of the last call that hit it, or its old colour if none did |
| Frame.LayeredOnTop | code/ch8/src/render/mod.rs:132 | when a stack of draw layers is painted from the top index down, a pixel hit by layer n and by none of the layers painted after it ends with layer n's colour |
| Frame.Frame.constructor | code/ch8/src/render/frame.rs:9-13 | 512 × 240 × 3 zero bytes |
| Frame.Frame.SetPixel | code/ch8/src/render/frame.rs:15-22 | the buffer becomes `Painted` of the old buffer |
| TilePixels.PixelValue | code/ch8/src/render/mod.rs:76 | a value of at most 3 whose bit 0 is bit k of the low plane and whose bit 1 is bit k of the high plane |
| TilePixels.ShiftedIsShift | code/ch8/src/render/mod.rs:75-78 | shifting a byte right by one k times is the same as shifting it by k |
| TilePixels.ShiftedValue | code/ch8/src/render/mod.rs:76-78 | after k one-bit shifts of `upper` and `lower`, the loop's expression gives the pixel value of bit k |
| Render.AttributeIndex | code/ch8/src/render/mod.rs:9 | for a tile on the 32 × 30 screen the index is below 64; its row and column in the 8 × 8 attribute grid are row/4 and col/4 |
| Render.PaletteNumber | code/ch8/src/render/mod.rs:12-18 | the palette number is at most 3 and is the two-bit field of the attribute byte at bit 2·quadrant, with quadrant = col%4/2 + 2·(row%4/2); the panic arm cannot be reached |
| Render.BgPalette | code/ch8/src/render/mod.rs:8-27 | the palette is [pt[0], pt[1+4p], pt[2+4p], pt[3+4p]] for the tile's palette number p, and every index is at most 15 |
| Render.SameQuadrantSamePalette | code/ch8/src/render/mod.rs:8-27 | two tiles in the same 2 × 2 block get the same palette |
| Render.SpritePalette | code/ch8/src/render/mod.rs:30-38 | the palette is [0, pt[0x11+4p], pt[0x12+4p], pt[0x13+4p]], and every index is at most 0x1F |
| Render.TilesInRomAll | code/ch8/src/render/mod.rs:64-68 | the tiles below m are in CHR ROM exactly when every nametable entry below m names a tile whose 16 bytes lie inside CHR ROM |
| Render.TilesInRomPrefix | code/ch8/src/render/mod.rs:64-68 | when the tiles below m are in CHR ROM, so are the tiles below any k ≤ m |
| Render.RomTiles | code/ch8/src/render/mod.rs:64-68 | the tile loop paints n ≤ 960 tiles: every tile below n lies in CHR ROM, tile n does not when n < 960, and n = 960 exactly when no slice panics |
| Render.RomTilesAt | code/ch8/src/render/mod.rs:64-68 | any i ≤ 960 with every tile below i in CHR ROM and tile i (when i < 960) outside it is that tile count |
| Render.TileOf | code/ch8/src/render/mod.rs:64-69 | for an entry whose 16 pattern bytes lie in CHR ROM, tile i has those 16 bytes and a four-entry palette; its pixels are stated by `Render.BgPixelPlace` and `Render.BgPixelColour` |
| Render.RowOf | code/ch8/src/render/mod.rs:71-73 | a row of a tile carries a four-entry palette and the call's clipping data |
| Render.RenderNameTable | code/ch8/src/render/mod.rs:58-95 | ok exactly when all 960 tiles lie in CHR ROM; the frame is the old frame painted with the 64 draws per tile of `BgDraws`, in loop order, for the tiles before the first whose slice panics (all 960 when none does) |
| Render.NameTableTile | code/ch8/src/render/mod.rs:64-93 | ok exactly when the 16 bytes of tile i lie in CHR ROM, where the slice of line 68 panics otherwise; then the frame is painted with the 64 draws of `TileOf`; otherwise it is unchanged |
| Render.RenderTile | code/ch8/src/render/mod.rs:71-93 | one tile paints its 8 rows of draws in order |
| Render.RenderTileRow | code/ch8/src/render/mod.rs:72-92 | one row paints its 8 pixels from x = 7 down to 0 |
| Render.TileRowStep | code/ch8/src/render/mod.rs:76-91 | one pixel step takes the colour number from the low bits of both planes, draws pixel 7 − k when visible, and leaves both planes shifted k + 1 times |
| Render.RowDrawsNext | code/ch8/src/render/mod.rs:75-92 | each pass of the pixel loop adds exactly the next draw of the row, so painting k + 1 draws is painting k and then draw k |
| Render.DrawBgPixel | code/ch8/src/render/mod.rs:79-91 | one pixel is painted with its palette colour when it is inside the viewport, and skipped otherwise |
| Render.Nametables | code/ch8/src/render/mod.rs:101-111 | when selection succeeds, the two nametables are 1 KiB halves of VRAM |
| Render.NametablesMirror | code/ch8/src/render/mod.rs:101-111 | selection succeeds exactly for vertical or horizontal mirroring with one of the four nametable bases; the main table is the half that base mirrors (vertical pairs 0 with 2, horizontal pairs 0 with 1) and the second is the other half |
| Render.MainJob | code/ch8/src/render/mod.rs:113-117 | the first call is well formed: its viewport, moved by its shift, starts on the frame |
| Render.SecondJob | code/ch8/src/render/mod.rs:118-130 | the second call, when there is one, is well formed |
| Render.ScrollUnderflows | code/ch8/src/render/mod.rs:124-129 | the `usize` subtraction `240 - scroll_y` underflows: no horizontal scroll and scroll_y > 240; it has no contract of its own, and `Render.RenderSecond` and `Render.FullRomFrame` state that the render fails exactly then, with nothing painted by the second call |
| Render.RenderFrame | code/ch8/src/render/mod.rs:97-189 | ok exactly when the nametables can be selected, both background calls and the sprite loop find every tile in CHR ROM, and 240 − scroll_y does not underflow; the frame is painted with `DrawnBy`, the background followed by the sprites, each cut off where the source panics |
| Render.RenderLayers | code/ch8/src/render/mod.rs:113-188 | ok exactly when the background finishes and every sprite's tile lies in CHR ROM; the sprites are painted, from entry 63 down, only after the whole background |
| Render.RenderBackground | code/ch8/src/render/mod.rs:113-130 | ok exactly when the main call finishes, the scroll does not underflow and the second call, if any, finishes; the second call paints only after the main one has finished |
| Render.RenderSecond | code/ch8/src/render/mod.rs:118-130 | the second nametable is painted on the right edge when scroll_x > 0, on the bottom edge when only scroll_y > 0, and not at all when unscrolled; ok is false, with nothing painted, when 240 − scroll_y underflows, and false when a tile lies outside CHR ROM |
| Render.SpritesInRomAll | code/ch8/src/render/mod.rs:132-153 | the entries from n on are in CHR ROM exactly when every OAM entry from n to 63 names a tile whose 16 bytes lie inside CHR ROM |
| Render.SpritesInRomSuffix | code/ch8/src/render/mod.rs:132-153 | when the entries from n on are in CHR ROM, so are the entries from any k ≥ n |
| Render.RomSprites | code/ch8/src/render/mod.rs:132-153 | the sprite loop paints entries 63 down to n: every entry from n on lies in CHR ROM, entry n − 1 does not, and n = 0 exactly when no slice panics |
| Render.RomSpritesAt | code/ch8/src/render/mod.rs:132-153 | any n ≤ 64 with every entry from n on in CHR ROM and entry n − 1 outside it is that first painted entry |
| Render.SpriteOf | code/ch8/src/render/mod.rs:133-152 | an OAM entry whose tile lies in CHR ROM gives a sprite with 16 pattern bytes and a four-entry palette |
| Render.SpriteRowOf | code/ch8/src/render/mod.rs:154-156 | a sprite row carries a four-entry palette and a row number below 8 |
| Render.RenderSprites | code/ch8/src/render/mod.rs:132-188 | ok exactly when every OAM entry's tile lies in CHR ROM; the frame is painted with the draws of the entries from 63 down, stopping before the first entry whose slice panics |
| Render.SpriteEntry | code/ch8/src/render/mod.rs:133-187 | ok exactly when the 16 bytes of entry n's tile lie in CHR ROM, where the slice of lines 151-152 panics otherwise; then the frame is painted with the draws of `SpriteOf`; otherwise it is unchanged |
| Render.RenderSprite | code/ch8/src/render/mod.rs:154-187 | one sprite paints its 8 rows of draws in order |
| Render.RenderSpriteRow | code/ch8/src/render/mod.rs:155-186 | one sprite row paints its 8 pixels from x = 7 down to 0 |
| Render.SpriteRowStep | code/ch8/src/render/mod.rs:158-185 | one pixel step draws sprite pixel 7 − k unless it is transparent and leaves both planes shifted k + 1 times |
| Render.SpriteRowDrawsNext | code/ch8/src/render/mod.rs:157-186 | each pass of the sprite pixel loop adds exactly the next draw of the row |
| Render.DrawSpritePixel | code/ch8/src/render/mod.rs:158-185 | one sprite pixel is skipped when its value is 0, and painted with its palette colour at its flipped position otherwise |
| Render.SetFlippedPixel | code/ch8/src/render/mod.rs:168-185 | the pixel goes to x + 7 − x′ when flipped horizontally and to y + 7 − row when flipped vertically, and to x + x′ and y + row otherwise |
| Render.TileDrawsClipped | code/ch8/src/render/mod.rs:89-91 | every pixel a tile draws lies inside the viewport moved by the call's shift |
| Render.BgDrawsClipped | code/ch8/src/render/mod.rs:89-91 | every pixel drawn by the first m tiles of a nametable call lies inside its viewport moved by its shift |
| Render.ScrollSplit | code/ch8/src/render/mod.rs:113-130 | the main table draws only in [0, 256 − scroll_x) × [0, 240 − scroll_y); the second draws only on the right strip when scroll_x > 0, only on the bottom strip when only scroll_y > 0, and nothing when unscrolled; this holds also for calls cut short by a panic |
| Render.MainClipped | code/ch8/src/render/mod.rs:113-117 | whatever the main call paints lies in [0, 256 − scroll_x) × [0, 240 − scroll_y) |
| Render.SecondClipped | code/ch8/src/render/mod.rs:118-130 | whatever the second call paints lies in the right strip when scroll_x > 0 and in the bottom strip when only scroll_y > 0, and it paints nothing when unscrolled |
| Render.FullFrame | code/ch8/src/render/mod.rs:97-189 | a render that does not panic paints all 960 tiles of the main nametable, then all 960 of the second when there is a scroll, then all 64 sprites from entry 63 down |
| Render.FullRomJob | code/ch8/src/render/mod.rs:58-68 | with at least 8 KiB of CHR ROM, no tile slice of a nametable call panics and all 960 tiles are painted |
| Render.FullRomFrame | code/ch8/src/render/mod.rs:97-189 | with at least 8 KiB of CHR ROM, the render panics exactly when the nametable match does or 240 − scroll_y underflows |
| Render.NoRomPanics | code/ch8/src/render/mod.rs:64-68 | with less than 16 bytes of CHR ROM and a supported mirroring, the render panics at the first tile, with nothing painted |
| Render.SpriteTransparency | code/ch8/src/render/mod.rs:161-167 | a sprite pixel is drawn exactly when its value is not 0, and its colour is one of palette entries 1 to 3 |
| Render.SpriteFlips | code/ch8/src/render/mod.rs:137-185 | toggling the horizontal flip mirrors a drawn pixel's x about the sprite's centre and keeps its y and colour; toggling the vertical flip does the same for y |
| Render.SpriteUnflipped | code/ch8/src/render/mod.rs:168-172 | without flips, column x of row `row` is drawn at (tile_x + x, tile_y + row) |
| Render.SpriteOnTop | code/ch8/src/render/mod.rs:132 | a pixel drawn by sprite n and by none of the sprites in CHR ROM that come after it in the loop (entries m to n − 1) ends with sprite n's colour |
| Render.SpriteCoversBackground | code/ch8/src/render/mod.rs:132-188 | in the frame of a render that does not panic, a pixel drawn by sprite n and by no lower-numbered sprite shows sprite n's colour, whatever the background drew there |
| Render.BgPixelOrder | code/ch8/src/render/mod.rs:64-75 | for i < m, draw number 64i + 8y + (7 − x) of the first m tiles of a nametable call is pixel x of row y of tile i |
| Render.BgPixelPlace | code/ch8/src/render/mod.rs:79-91 | pixel (x, y) of tile i is drawn exactly when (8·col + x, 8·row + y) is inside the viewport, and then at that position moved by the shift |
| Render.BgPixelColour | code/ch8/src/render/mod.rs:71-91 | a drawn pixel (x, y) of tile i has the colour of entry `value` of the tile's palette, where `value` takes bit 7 − x of `tile[y]` as bit 0 and of `tile[y+8]` as bit 1; value 0 gives `palette_table[0]` |
| StaticRender.StaticBgPalette | code/ch6.4/src/render/mod.rs:7-21 | the palette is the scrolling renderer's `BgPalette` over the attribute table of the first nametable, `vram[0x3c0..0x400]` |
| StaticRender.StaticJob | code/ch6.4/src/render/mod.rs:24-27 | the static render is a well-formed call on the first nametable, full screen and unshifted |
| StaticRender.StaticDraws | code/ch6.4/src/render/mod.rs:24-53 | the static render makes 64 draws for each tile it paints before a panic |
| StaticRender.StaticRenderFrame | code/ch6.4/src/render/mod.rs:24-53 | ok exactly when every tile's 16 bytes lie in CHR ROM, where the slice of line 31 panics otherwise; the frame is painted with exactly the draws of the scrolling renderer on the first nametable, unscrolled, up to the first tile that panics |
| StaticRender.FetchStaticTile | code/ch6.4/src/render/mod.rs:28-32 | a tile is returned exactly when the 16 bytes of tile i lie in CHR ROM, where the slice of line 31 panics otherwise, and it is tile i of the first nametable |
| StaticRender.StaticTileOf | code/ch6.4/src/render/mod.rs:28-32 | the scrolling renderer's tile i of the first nametable has the static renderer's bytes, palette and position |
| StaticRender.StaticTile | code/ch6.4/src/render/mod.rs:34-51 | one tile paints its 8 rows of draws in order |
| StaticRender.StaticRow | code/ch6.4/src/render/mod.rs:35-50 | one row paints its 8 pixels from x = 7 down to 0 |
| StaticRender.StaticRowStep | code/ch6.4/src/render/mod.rs:39-48 | one pixel step always draws pixel 7 − k and leaves both planes shifted k + 1 times |
| StaticRender.StaticPixel | code/ch6.4/src/render/mod.rs:39-49 | one pixel is painted with its palette colour |
| StaticRender.StaticRowOf | code/ch6.4/src/render/mod.rs:28-36 | row y of tile i is pattern bytes base + y and base + y + 8, with the static palette, at (8·col, 8·row + y), on the full-screen viewport with no shift |
| StaticRender.StaticRowOnScreen | code/ch6.4/src/render/mod.rs:29-49 | every row of every tile lies wholly on the 256 × 240 screen, so none of its pixels is clipped |
| StaticRender.OnScreenRowDraw | code/ch6.4/src/render/mod.rs:42-49 | every pixel of an on-screen row is drawn at (pixelX + x, pixelY), and value 0 takes the backdrop colour |
| StaticRender.TilePixelOfRow | code/ch6.4/src/render/mod.rs:39-49 | pixel 7 − x of the on-screen row y of tile i is drawn at (8·col + x, 8·row + y) in the colour its two plane bits select |
| StaticRender.StaticPixelDrawn | code/ch6.4/src/render/mod.rs:27-49 | for each tile i painted before a panic, its 16 bytes lie in CHR ROM, and the draw for pixel (x, y) puts, at (8·col + x, 8·row + y), the colour of the value from bit 7 − x of the two planes, with value 0 taking `palette_table[0]` |
| TilesViewer.ViewerValue | code/ch7/src/tiles_viewer.rs:44 | a value of at most 3 whose bit 1 comes from `upper` and whose bit 0 comes from `lower` |
| TilesViewer.PlaneOrderSwapped | code/ch7/src/tiles_viewer.rs:44 | the viewer's value is the renderers' value with its two bits swapped |
| TilesViewer.TileBytes | code/ch7/src/tiles_viewer.rs:35-37 | tile n of bank b is the 16 bytes from b·0x1000 + 16n |
| TilesViewer.ShowTile | code/ch7/src/tiles_viewer.rs:31-59 | succeeds exactly when bank ≤ 1 and the tile lies inside CHR ROM; the frame is a blank frame painted with the tile's 64 draws at the origin |
| TilesViewer.ShowTileBank | code/ch7/src/tiles_viewer.rs:62-99 | succeeds exactly when bank ≤ 1 and tile 254 lies inside CHR ROM; the frame is a blank frame painted with the draws of tiles 0 to 254 in order |
| TilesViewer.BankTile | code/ch7/src/tiles_viewer.rs:75-96 | one iteration adds tile n's draws at its grid cell |
| TilesViewer.WrapRow | code/ch7/src/tiles_viewer.rs:71-74 | the counters hold tile n's cell (10·(n%20), 10·(n/20)) |
| TilesViewer.BankStep | code/ch7/src/tiles_viewer.rs:71-96 | one pass of the tile loop either paints tile n at its cell and leaves the counters 10 pixels to its right, or panics only when tile 254 is not in CHR ROM |
| TilesViewer.GridStep | code/ch7/src/tiles_viewer.rs:70-96 | from tile n − 1 to tile n the cell moves 10 pixels right, or, when n is a multiple of 20, back to column 0 and 10 pixels down |
| TilesViewer.SliceTile | code/ch7/src/tiles_viewer.rs:75 | the slice succeeds exactly when tile n lies inside CHR ROM and is then its 16 bytes; when it fails, tile 254 lies outside the ROM too |
| TilesViewer.ViewerTile | code/ch7/src/tiles_viewer.rs:77-94 | one tile paints its 8 rows of draws in order |
| TilesViewer.ViewerRowLoop | code/ch7/src/tiles_viewer.rs:78-93 | one row paints its 8 pixels from x = 7 down to 0 |
| TilesViewer.ViewerRowStep | code/ch7/src/tiles_viewer.rs:81-90 | one pixel step draws pixel 7 − k of the viewer tile and leaves both planes shifted k + 1 times |
| TilesViewer.ViewerRowDrawsNext | code/ch7/src/tiles_viewer.rs:80-91 | each pass of the viewer pixel loop adds exactly the next draw of the row |
| TilesViewer.ViewerPixel | code/ch7/src/tiles_viewer.rs:82-92 | one pixel is painted with the fixed colour of its value |
| TilesViewer.ViewerEntry | code/ch7/src/tiles_viewer.rs:47-53 | the fixed system-palette entries 0x01, 0x23, 0x27 and 0x30 of the four colour numbers; it has no contract of its own; `TilesViewer.ViewerPixel` proves that the match of the source's pixel loop draws exactly these entries, and `TilesViewer.ShowTilePixel` states the colours of the finished frame with them |
| TilesViewer.ViewerTileInBox | code/ch7/src/tiles_viewer.rs:39-56 | a tile draws 64 pixels, all inside its 8 × 8 square |
| TilesViewer.ShowTilePixel | code/ch7/src/tiles_viewer.rs:39-58 | `show_tile`'s frame shows the tile's colour at each (x, y) inside the 8 × 8 square and black everywhere else |
| TilesViewer.GridCellsDisjoint | code/ch7/src/tiles_viewer.rs:70-96 | the 8 × 8 cells of two different tiles do not overlap |
| TilesViewer.GridOnScreen | code/ch7/src/tiles_viewer.rs:70-96 | all 255 cells fit in the top-left 198 × 128 pixels |
| TilesViewer.BankPixel | code/ch7/src/tiles_viewer.rs:62-99 | pixel (x, y) of tile n's cell in the bank frame shows tile n's colour at (x, y) |
| Bus.RamIndex | code/ch8/src/bus.rs:96 | the RAM cell of an address is below 0x800 |
| Bus.RamPeriod | code/ch8/src/bus.rs:95-98 | addresses 0x800 apart reach the same RAM cell |
| Bus.RamAlias | code/ch8/src/bus.rs:95-98 | two RAM addresses with the same cell read and write identically |
| Bus.RamWriteArm | code/ch8/src/bus.rs:135-138 | a write to 0x0000..0x1FFF never fails and changes only the RAM cell of the address, which takes the byte |
| Bus.RamReadArm | code/ch8/src/bus.rs:95-98 | a read of 0x0000..0x1FFF returns the RAM cell of the address and changes nothing |
| Bus.RamWriteRead | code/ch8/src/bus.rs:135-138 | after a RAM write the PPU and the controller are untouched, and a RAM read returns the written byte at an aliasing address and the old byte elsewhere |
| Bus.PpuMirror | code/ch8/src/bus.rs:121 | a mirrored PPU address lands in 0x2000..0x2007 |
| Bus.PpuMirrorAlias | code/ch8/src/bus.rs:120-123 | reads and writes in 0x2008..0x3FFF behave as at the mirrored register, which repeats every 8 bytes |
| Bus.ReadStep | code/ch8/src/bus.rs:93-131 | when a read succeeds, RAM is unchanged and the state stays well formed |
| Bus.ReadPrgRom | code/ch8/src/bus.rs:66-73 | `read_prg_rom`: the offset from 0x8000, folded onto the first 16 KiB for a 16 KiB ROM, or a panic past the end; it has no contract of its own and is pinned by `Bus.PrgRomLow`, `Bus.PrgRomMirror`, `Bus.PrgRomFlat` and `Bus.PrgRomInBounds` |
| Bus.WriteStep | code/ch8/src/bus.rs:133-202 | the arms of `mem_write` in match order; it has no contract of its own and is pinned by `Bus.WritePanics`, `Bus.RamWriteArm`, `Bus.RamWriteRead` and `Bus.PpuMirrorAlias` |
| Bus.DmaReads | code/ch8/src/bus.rs:177-185 | when the DMA reads succeed they produce exactly n bytes |
| Bus.PrgRomInBounds | code/ch8/src/bus.rs:66-73 | a PRG ROM read never goes out of bounds for 16 KiB and 32 KiB ROMs |
| Bus.PrgRomLow | code/ch8/src/bus.rs:66-73 | with a 16 KiB ROM, addresses below 0xC000 read byte addr − 0x8000 |
| Bus.PrgRomMirror | code/ch8/src/bus.rs:68-71 | with a 16 KiB ROM, 0xC000..0xFFFF reads the same as 0x4000 lower |
| Bus.PrgRomFlat | code/ch8/src/bus.rs:66-72 | with a 32 KiB ROM, every address ≥ 0x8000 reads byte addr − 0x8000 |
| Bus.ZeroReads | code/ch8/src/bus.rs:99-129 | the write-only registers, 0x4000..0x4015, 0x4017 and 0x4018..0x7FFF read 0 and change nothing |
| Bus.ReadTotal | code/ch8/src/bus.rs:93-131 | with a 16 KiB or 32 KiB ROM, no read fails |
| Bus.DmaTotal | code/ch8/src/bus.rs:177-185 | with a 16 KiB or 32 KiB ROM, the 256 DMA reads never fail |
| Bus.WritePanics | code/ch8/src/bus.rs:133-202 | a write fails exactly at 0x2002, at a mirror of 0x2002, or at 0x8000 and above |
| Bus.DmaRamPage | code/ch8/src/bus.rs:177-185 | a DMA from a page inside RAM reads that page's bytes in order and changes nothing |
| Bus.Bus.constructor | code/ch8/src/bus.rs:50-64 | zeroed RAM, an empty PPU log, a fresh controller, cycle count 0, and the given ROM and callback |
| Bus.Bus.Tick | code/ch8/src/bus.rs:75-85 | the cycle count grows by n; the PPU is ticked 3n times; the game loop runs on the controller, and the frame count grows, exactly when the NMI goes from absent to present |
| Bus.NmiEdge | code/ch8/src/bus.rs:78-84 | the test `!nmi_before && nmi_after` of `tick`; it has no contract of its own, and `Bus.Bus.Tick` states that the game loop runs exactly on this edge |
| Bus.Bus.MemRead | code/ch8/src/bus.rs:93-131 | returns the byte and leaves the state `ReadStep` gives, or fails where it panics |
| Bus.Bus.MemWrite | code/ch8/src/bus.rs:133-202 | leaves the state `WriteStep` gives, or fails where it panics |
| Bus.Bus.OamDma | code/ch8/src/bus.rs:177-185 | reads the 256 bytes of page `data` in order through `mem_read`, then hands them to the PPU |
| Bus.Bus.DmaByte | code/ch8/src/bus.rs:180-182 | one loop iteration extends the buffer by the next `mem_read`, or reports the panic |
| Opcodes.CodesDistinct | code/ch3.3/src/opcodes.rs:25-220 | no two rows of the table share an opcode byte |
| Opcodes.RowShapes | code/ch3.3/src/opcodes.rs:25-220 | the table has 151 rows; each row's length is the one its addressing mode calls for (1 to 3 bytes); each takes 2 to 7 cycles |
| Opcodes.BuildOpcodesMap | code/ch3.3/src/opcodes.rs:223-229 | the keys are exactly the rows' codes, and each code maps to the last row with that code |
| Opcodes.OpcodesMap | code/ch3.3/src/opcodes.rs:223-229 | the keys are exactly the table's codes; the entry of each row's code is that row; every entry has the code it is stored under and a well-formed shape |
| Alu.AddWithCarry | code/ch3.3/src/test.rs:383-413 | the byte and the carry together are the exact sum a + m + c; carry is set exactly when the sum exceeds 255; overflow is set exactly when the signed sum leaves −128..127, and otherwise the signed result is that sum |
| Alu.SubWithBorrow | code/ch3.3/src/test.rs:640-670 | the byte is (a − m − borrow) mod 256; carry is set exactly when that difference is not negative; overflow is set exactly when the signed difference leaves −128..127 |
| Alu.Compare | code/ch3.3/src/test.rs:1585-1604 | carry is set exactly when reg ≥ m; zero exactly when reg = m; negative is bit 7 of (reg − m) mod 256 |
| Alu.RotateLeft | code/ch3.3/src/test.rs:1241-1254 | the byte and the carry together are 2v + c; the carry is bit 7 of v; bit 0 is the old carry |
| Alu.RotateRight | code/ch3.3/src/test.rs:1328-1341 | twice the byte plus the carry is v + 256c; the carry is bit 0 of v; bit 7 is the old carry |
| Alu.ShiftLeft | code/ch3.3/src/test.rs:1113-1124 | the byte is 2v mod 256 and the carry is bit 7 of v |
| Alu.ShiftRight | code/ch3.3/src/test.rs:1177-1188 | the byte is v / 2, the carry is bit 0 of v, and bit 7 is clear |
| Alu.Increment | code/ch3.3/src/test.rs:59-65 | the result is (v + 1) mod 256, and it is 0 exactly when v = 0xFF |
| Alu.Decrement | code/ch3.3/src/test.rs:1560-1571 | the result is (v − 1) mod 256, and it is 0xFF exactly when v = 0 |
| Alu.RotateRoundTrip | code/ch3.3/src/test.rs:1241-1341 | ROL followed by ROR restores the byte and the carry, and so does ROR followed by ROL |
| Alu.IncrementDecrement | code/ch3.3/src/test.rs:1415-1505 | increment and decrement undo each other |
| Alu.SubtractAddBack | code/ch3.3/src/test.rs:383-670 | subtracting m without borrow and adding m back without carry restores a, and the two carries are complementary unless m is 0 |
| Alu.BitFlags | code/ch3.3/src/test.rs:1969-1985 | zero is set exactly when a and m share no set bit; negative is bit 7 of m; overflow is bit 6 of m |
| Alu.PointerHigh | code/ch3.3/src/test.rs:1878-1890 | the high byte of the target is read from the same page as the pointer, at the next offset modulo 0x100 |
| Alu.IndirectTarget | code/ch3.3/src/test.rs:1878-1890 | the target's low byte is the byte at the pointer and its high byte is the byte at `PointerHigh` |
| Alu.PageWrapQuirk | code/ch3.3/src/test.rs:1878-1890 | the high byte comes from pointer + 1 exactly when the pointer is not the last byte of a page |
| CpuVectors.Lda | code/ch3.3/src/test.rs:3-17 | A becomes the value, X and Y are kept, Z and N report the value, and C and V are kept |
| CpuVectors.Ldx | code/ch3.3/src/test.rs:111-125 | X becomes the value, A and Y are kept, Z and N report the value, and C and V are kept |
| CpuVectors.Ldy | code/ch3.3/src/test.rs:254-268 | Y becomes the value, A and X are kept, Z and N report the value, and C and V are kept |
| CpuVectors.Tax | code/ch3.3/src/test.rs:19-29 | TAX is LDX of A |
| CpuVectors.Tay | code/ch3.3/src/test.rs:30-40 | TAY is LDY of A |
| CpuVectors.Txa | code/ch3.3/src/test.rs:167-177 | TXA is LDA of X |
| CpuVectors.Tya | code/ch3.3/src/test.rs:178-188 | TYA is LDA of Y |
| CpuVectors.Inx | code/ch3.3/src/test.rs:59-65 | X becomes (X + 1) mod 256, with the flags of loading that value |
| CpuVectors.Iny | code/ch3.3/src/test.rs:189-194 | Y becomes (Y + 1) mod 256, with the flags of loading that value |
| CpuVectors.Dex | code/ch3.3/src/test.rs:1560-1571 | X becomes (X − 1) mod 256, with the flags of loading that value |
| CpuVectors.Dey | code/ch3.3/src/test.rs:1572-1583 | Y becomes (Y − 1) mod 256, with the flags of loading that value |
| CpuVectors.Inc | code/ch3.3/src/test.rs:1415-1432 | the stored byte is (M + 1) mod 256; only Z and N change, and they report it |
| CpuVectors.Dec | code/ch3.3/src/test.rs:1488-1505 | the stored byte is (M − 1) mod 256; only Z and N change, and they report it |
| CpuVectors.Adc | code/ch3.3/src/test.rs:383-413 | A and C together are the exact sum A + M + C; V is set exactly when the signed sum leaves −128..127; Z and N report A; X and Y are kept |
| CpuVectors.Sbc | code/ch3.3/src/test.rs:640-670 | A becomes (A − M) mod 256; C is set exactly when A ≥ M; V is set exactly when the signed difference leaves −128..127; Z and N report A |
| CpuVectors.Sbc6502 | code/ch3.3/src/test.rs:640-670 | A becomes (A − M − (1 − C)) mod 256; C is set exactly when that difference is not negative; Z and N report A |
| CpuVectors.SbcAgainst6502 | code/ch3.3/src/test.rs:640-670 | the tested SBC equals the 6502's when carry is set, and with carry clear the 6502 result is one less |
| CpuVectors.Sec | code/ch3.3/src/test.rs:220-225 | the carry is set, and every register and every other flag is kept |
| CpuVectors.Clc | code/ch3.3/src/test.rs:214-219 | the carry is cleared, and every register and every other flag is kept |
| CpuVectors.Cmp | code/ch3.3/src/test.rs:1585-1604 | C is set exactly when A ≥ M and Z exactly when A = M; N is bit 7 of A − M; the registers and V are kept |
| CpuVectors.Cpy | code/ch3.3/src/test.rs:1744-1764 | C is set exactly when Y ≥ M and Z exactly when Y = M; N is bit 7 of Y − M; the registers and V are kept |
| CpuVectors.Cpx | code/ch3.3/src/test.rs:1807-1827 | C is set exactly when X ≥ M and Z exactly when X = M; N is bit 7 of X − M; the registers and V are kept |
| CpuVectors.CompareWith | code/ch3.3/src/test.rs:1585-1604 | C is set exactly when reg ≥ M; Z exactly when reg = M; N is bit 7 of the difference; the registers and V are kept |
| CpuVectors.AslA | code/ch3.3/src/test.rs:1113-1124 | A becomes 2A mod 256 and C gets bit 7 |
| CpuVectors.LsrA | code/ch3.3/src/test.rs:1177-1188 | A becomes A / 2 and C gets bit 0 |
| CpuVectors.RolA | code/ch3.3/src/test.rs:1241-1254 | A and the new C together are 2A + old C |
| CpuVectors.RorA | code/ch3.3/src/test.rs:1328-1341 | twice A plus the new C is the old A + 256 · old C |
| CpuVectors.Bit | code/ch3.3/src/test.rs:1969-1985 | the registers and C are kept, and Z, N and V are those of `BitFlags(A, M)` |
| CpuVectors.LoadTransferVectors | code/ch3.3/src/test.rs:3-65 | LDA #$05 gives A = 5 with Z and N clear; LDA #$00 gives A = 0 with Z set; LDA #$05 followed by TAX or TAY gives A, and X or Y, equal to 5 with Z and N clear; LDA #$C0, TAX, INX gives X = 0xC1; LDA #$FF, TAX, INX, INX wraps X to 1 (the TAX-of-zero vector of lines 42-49 is `CpuVectors.TaxZeroVectors`) |
| CpuVectors.TaxZeroVectors | code/ch3.3/src/test.rs:42-49 | from reset, LDA #$00 then TAX gives A = X = 0 with Z set, and TAX run alone gives X = 0 with Z set |
| CpuVectors.TransferVectors | code/ch3.3/src/test.rs:167-194 | LDX #$10, TXA and LDA #$10, TAY, TYA give A = 0x10 with Z and N clear; the same programs with 0 give A = 0 with Z set; LDA #$10, TAY, INY gives Y = 0x11 |
| CpuVectors.AdcVectors | code/ch3.3/src/test.rs:383-413 | the five ADC vectors give the asserted A, C, V and N |
| CpuVectors.SbcVectors | code/ch3.3/src/test.rs:640-670 | the five SBC vectors give the asserted A, C, V and N |
| CpuVectors.CompareVectors | code/ch3.3/src/test.rs:1585-1826 | the equal, greater and smaller vectors of CMP, CPY and CPX give the asserted C, Z and N |
| CpuVectors.ShiftVectors | code/ch3.3/src/test.rs:1113-1341 | the accumulator vectors of ASL, LSR, ROL and ROR give the asserted A and C |
| CpuVectors.IncDecVectors | code/ch3.3/src/test.rs:1415-1583 | the INC, DEC, DEX and DEY vectors give the asserted values and flags, including the wraps at 0xFF and 0 |
| CpuVectors.BitVectors | code/ch3.3/src/test.rs:1969-2002 | the two BIT vectors give the asserted Z, N and V |
| CpuVectors.JmpIndirectVectors | code/ch3.3/src/test.rs:1878-1890 | through pointer 0x11FF the target's high byte comes from 0x1100, giving 0x1035; through 0x1150 the target is 0x1040 |
| Toc.Before | toc.js:13 | the prefix before the first occurrence of the separator; it contains no separator; all of the string when the separator is absent |
| Toc.CurrentPage | toc.js:13-16 | the page has no `#` and no `?` and does not end with `/`; it is the location cut at its first `#` and then at its first `?`, followed by `index.html` exactly when that stem ends with `/` |
| Toc.IsActive | toc.js:26 | the active-link rule: the resolved href equals the current page, or the link is the first one, `path_to_root` is empty and the page ends with `/index.html`; it has no contract of its own, and `Toc.Sidebar.MarkLink` and `Toc.Sidebar.MarkLinks` state what it selects |
| Toc.CurrentPageIdempotent | toc.js:13-16 | canonicalising twice is the same as canonicalising once |
| Toc.SchemeLength | toc.js:22 | the length of the longest leading run of `[a-z+]` |
| Toc.MatcherIsRegex | toc.js:22 | the matcher accepts an href exactly when it matches `^(?:[a-z+]+:)?//` |
| Toc.LinkHref | toc.js:26 | the `link.href` property: the attribute as the browser resolves it, or the empty string when there is none; it has no contract of its own; `Toc.Sidebar.MarkLinks` states that the href compared with the current page is this one, taken after the rewrite of lines 21-24 |
| Toc.Rewritten | toc.js:21-24 | a missing href stays missing; an empty href, a fragment href or an absolute URL is kept; every other href gets `path_to_root` in front |
| Toc.Toggled | toc.js:63 | `expanded` is present exactly when it was absent, and every other class is unchanged |
| Toc.ToggleTwice | toc.js:62-64 | toggling twice restores the class set |
| Toc.SaveScroll | toc.js:43-47 | the scroll key holds the scroll position, and every other entry is kept |
| Toc.RestoreScroll | toc.js:48-53 | the key is removed; a position is applied exactly when the stored value was present and non-empty, and it is that value |
| Toc.ScrollUsedOnce | toc.js:48-53 | a second restore applies nothing |
| Toc.ScrollRoundTrip | toc.js:43-53 | restoring after saving a non-empty position applies that position |
| Toc.Sidebar.constructor | toc.js:17-18 | the sidebar holds the given element tree, class sets and hrefs |
| Toc.Sidebar.WalkExpands | toc.js:32-39 | the walk from p changes only `expanded`, and adds it to an element exactly when that element is a `chapter-item` and the previous sibling of an LI on the parent chain from p |
| Toc.Sidebar.MarkedWalk | toc.js:26-40 | marking a link active and walking its ancestors only adds `active` and `expanded`; it adds `active` only to that link, and `expanded` exactly to the `chapter-item` elements that are its parent or the previous sibling of an LI among its ancestors |
| Toc.Sidebar.MarkActive | toc.js:27-39 | the classes become the walk from the link's parent after adding `active` and the parent's `expanded`; no class is removed; `active` is added only to the link; `expanded` is added exactly to the `chapter-item` elements the link expands |
| Toc.Sidebar.ExpandAncestors | toc.js:32-39 | the `while (parent)` loop leaves the classes the walk from its start gives |
| Toc.Sidebar.ToggleSection | toc.js:62-64 | only the clicked element's parent changes, and its classes become `Toggled` |
| Toc.Sidebar.MarkLinks | toc.js:17-41 | every link's href is rewritten and other hrefs are kept; no class is removed and only `active` and `expanded` are added; an element gains `active` exactly when it is a link that the active-link rule selects, and gains `expanded` exactly when it is a `chapter-item` that is the parent of such a link or the previous sibling of an LI ancestor of one |
| Toc.Sidebar.MarkLink | toc.js:20-40 | one iteration rewrites the link's href; when the active-link rule selects the link, the classes become the mark-and-walk of `Marked` and `Walk`, and otherwise they are unchanged; `active` and `expanded` land exactly where that says |

## Left out

- The SDL window, event pump, texture upload and ROM file reading in the `main.rs` files and in `main` of `code/ch7/src/tiles_viewer.rs` are I/O. So is the key-to-button map in `code/ch8/src/main.rs`. None of them is modelled.
- `NesPPU`, the CPU, `Rom` and `SYSTEM_PALLETE` are not part of this model.
  - The renderers read a `PpuView` value holding the PPU fields they use.
  - The system palette is a caller-supplied function from entries to colours.
  - The bus records every call it makes into the PPU in a log. The bytes the PPU returns, and whether an NMI is pending after a log, are caller-supplied functions of that log.
- `poll_nmi_status` only forwards to the PPU and is not modelled.
- The game-loop closure is a caller-supplied function from the PPU log and the controller state to the new controller state. `Bus.Bus.Tick` counts the frames it has run.
- Bus.Bus.Tick: requires n ≤ 85, because the source's `cycles * 3` is a `u8` product that overflows above 85. No wrap-around semantics are given to the PPU's tick.
- The `println!` of an ignored write is output only. The commented-out DMA cycle accounting and sprite double draws are not code.
- Mnemonics are an enumeration instead of strings.
- The CPU's program counter, addressing modes, memory, stack and the BRK that ends every test program are not modelled. The test vectors are compositions of the register functions, run from a state with carry clear.
  - The AND, EOR and ORA tests are not modelled.
  - The flag, stack, jump, branch, store and NOP tests are not modelled either.
- Only the C, Z, V and N status flags are modelled.
- The ALU works on integers in 0..255. Its agreement with a bit-vector rotate is not proved.
- A panic of a renderer is modelled as `ok == false`, with the frame holding what was painted before it. This covers a tile slice that runs past the end of CHR ROM, an unsupported mirroring and the scroll underflow below. Unwinding itself is not modelled.
- Render.RenderSecond: the source's `240 - scroll_y` is a `usize` subtraction that underflows when scroll_x is 0 and scroll_y > 240. It is modelled as a failed render (`ok == false`) rather than a wrap.
- For `toc.js`:
  - The DOM is an arena of elements, held as parent and previous-sibling indices, LI flags and class sets. `innerHTML`, `addEventListener`, `scrollIntoView` and `customElements.define` are not modelled.
  - The browser's URL resolution of `link.href` is a caller-supplied function.
  - `sessionStorage` is a map value, and `scrollTop` is kept as its string.
- The frame buffers are `code/ch8/src/render/frame.rs`. The ch6.4 and ch7 copies of `frame.rs` are not part of this model. Those two programs upload a frame 256 pixels wide (pitch `256 * 3` at `code/ch6.4/src/main.rs:54` and `code/ch7/src/tiles_viewer.rs:127`), while `StaticRender` and `TilesViewer` paint into the 512-pixel-wide ch8 `Frame`. The buffer length and the byte offset of each pixel therefore differ from those programs; the colour drawn at each (x, y) is the same.
- The SBC vectors run from reset with carry clear, which is the state the ADC vectors rely on, and assert A − M. A 6502 would give A − M − 1 there.
  - `CpuVectors.Sbc` follows the tests.
  - `CpuVectors.Sbc6502` is the 6502 definition.
  - `CpuVectors.SbcAgainst6502` relates the two.
