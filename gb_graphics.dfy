/** The Game Boy renderer's frame state and its row renderers: draw_row renders line LY into the 160 by 144
  * ARGB frame, keeping for each pixel the colour id (old_buffer) and, in colour mode, the background's
  * priority flag (cgb_bg_prio), which the sprites drawn after it consult. The two-dimensional buffers are
  * kept row-major, so pixel (row, column) is entry row * 160 + column of each. */
module GbGraphics {
  import opened GbPalette
  import opened GbScanline

  /** SCREEN_WIDTH * SCREEN_HEIGHT entries. */
  const FRAME_PIXELS := 23040

  /** The first entry of a row: SCREEN_WIDTH entries per row. */
  function RowStart(r: int): int
  {
    r * 160
  }

  /** Row r of a frame-sized buffer. */
  function RowOf(a: seq<int>, r: int): (s: seq<int>)
    requires |a| == FRAME_PIXELS && 0 <= r < SCREEN_HEIGHT
    ensures |s| == SCREEN_WIDTH
  {
    a[RowStart(r)..RowStart(r) + SCREEN_WIDTH]
  }

  /** A frame-sized buffer with row r replaced by s. */
  function WithRow(a: seq<int>, r: int, s: seq<int>): (b: seq<int>)
    requires |a| == FRAME_PIXELS && 0 <= r < SCREEN_HEIGHT && |s| == SCREEN_WIDTH
    ensures |b| == FRAME_PIXELS
  {
    a[..RowStart(r)] + s + a[RowStart(r) + SCREEN_WIDTH..]
  }

  /** Replacing a row changes that row and nothing else. */
  lemma WithRowAt(a: seq<int>, r: int, s: seq<int>)
    requires |a| == FRAME_PIXELS && 0 <= r < SCREEN_HEIGHT && |s| == SCREEN_WIDTH
    ensures forall c :: 0 <= c < SCREEN_WIDTH ==> WithRow(a, r, s)[RowStart(r) + c] == s[c]
    ensures forall k :: 0 <= k < FRAME_PIXELS && !(RowStart(r) <= k < RowStart(r) + SCREEN_WIDTH) ==> WithRow(a, r, s)[k] == a[k]
    ensures RowOf(WithRow(a, r, s), r) == s
  {
    assert RowOf(WithRow(a, r, s), r) == s;
  }

  /** Putting a row back as it was leaves the buffer as it was. */
  lemma WithOwnRow(a: seq<int>, r: int)
    requires |a| == FRAME_PIXELS && 0 <= r < SCREEN_HEIGHT
    ensures WithRow(a, r, RowOf(a, r)) == a
  {
    assert a == a[..RowStart(r)] + RowOf(a, r) + a[RowStart(r) + SCREEN_WIDTH..];
  }

  /** Writing one entry of a replaced row is replacing the row with that entry written. */
  lemma WithRowUpdate(a: seq<int>, r: int, s: seq<int>, c: int, x: int)
    requires |a| == FRAME_PIXELS && 0 <= r < SCREEN_HEIGHT && |s| == SCREEN_WIDTH && 0 <= c < SCREEN_WIDTH
    ensures WithRow(a, r, s)[RowStart(r) + c := x] == WithRow(a, r, s[c := x])
  {
    var left := WithRow(a, r, s)[RowStart(r) + c := x];
    var right := WithRow(a, r, s[c := x]);
    forall k | 0 <= k < FRAME_PIXELS
      ensures left[k] == right[k]
    {
      if k < RowStart(r) {
        assert left[k] == a[k] == right[k];
      } else if k < RowStart(r) + SCREEN_WIDTH {
        assert left[k] == s[c := x][k - RowStart(r)] == right[k];
      }
    }
  }

  /** k clamped into lo..160. */
  function Upto(lo: int, k: int): (u: int)
    ensures 0 <= lo <= SCREEN_WIDTH ==> lo <= u <= SCREEN_WIDTH
  {
    if k < lo then lo else if k > SCREEN_WIDTH then SCREEN_WIDTH else k
  }

  /** Row o with columns lo..hi-1 taken from row n. */
  function Overlay(o: seq<int>, n: seq<int>, lo: int, hi: int): (s: seq<int>)
    requires |o| == SCREEN_WIDTH && |n| == SCREEN_WIDTH && 0 <= lo <= hi <= SCREEN_WIDTH
    ensures |s| == SCREEN_WIDTH
  {
    o[..lo] + n[lo..hi] + o[hi..]
  }

  /** One more column of the overlay. */
  lemma OverlayExtend(o: seq<int>, n: seq<int>, lo: int, hi: int)
    requires |o| == SCREEN_WIDTH && |n| == SCREEN_WIDTH && 0 <= lo <= hi < SCREEN_WIDTH
    ensures Overlay(o, n, lo, hi)[hi := n[hi]] == Overlay(o, n, lo, hi + 1)
  {
    var left := Overlay(o, n, lo, hi)[hi := n[hi]];
    var right := Overlay(o, n, lo, hi + 1);
    forall c | 0 <= c < SCREEN_WIDTH
      ensures left[c] == right[c]
    {
      if c < lo {
        assert left[c] == o[c] == right[c];
      } else if c < hi {
        assert left[c] == n[c] == right[c];
      } else if c > hi {
        assert left[c] == o[c] == right[c];
      }
    }
  }

  lemma OverlayEnds(o: seq<int>, n: seq<int>, lo: int)
    requires |o| == SCREEN_WIDTH && |n| == SCREEN_WIDTH && 0 <= lo <= SCREEN_WIDTH
    ensures Overlay(o, n, lo, lo) == o && Overlay(o, n, 0, SCREEN_WIDTH) == n
  {
    assert o[..lo] + o[lo..] == o;
  }

  /** Column c of an overlay. */
  lemma OverlayAt(o: seq<int>, n: seq<int>, lo: int, hi: int, c: int)
    requires |o| == SCREEN_WIDTH && |n| == SCREEN_WIDTH && 0 <= lo <= hi <= SCREEN_WIDTH && 0 <= c < SCREEN_WIDTH
    ensures Overlay(o, n, lo, hi)[c] == if lo <= c < hi then n[c] else o[c]
  {
  }

  /** The colours, ids and priorities of a line of pixels. */
  function Rgbs(s: seq<Pixel>): (r: seq<int>)
    ensures |r| == |s|
  {
    seq(|s|, i requires 0 <= i < |s| => s[i].rgb)
  }

  function Ids(s: seq<Pixel>): (r: seq<int>)
    ensures |r| == |s|
  {
    seq(|s|, i requires 0 <= i < |s| => s[i].id)
  }

  function Prios(s: seq<Pixel>): (r: seq<int>)
    ensures |r| == |s|
  {
    seq(|s|, i requires 0 <= i < |s| => s[i].prio)
  }

  /** The 256 pixels of the background map's row under line LY: map pixel x is pixel x mod 8 of the tile in
    * map column x / 8. */
  function BgMapLine(v: VideoState, bgPalette: seq<int>, tileMem: int, bgMem: int): (s: seq<Pixel>)
    requires |bgPalette| == PALETTE_ENTRIES && IsTileSet(tileMem) && IsTileMap(bgMem)
    ensures |s| == 256
  {
    seq(256, x requires 0 <= x < 256 => TilePixel(v, bgPalette, BgTile(v, tileMem, bgMem, x / 8), x % 8))
  }

  /** A 256-pixel map line scrolled left by s pixels, wrapping around. */
  function Rotated(line: seq<Pixel>, s: int): (r: seq<Pixel>)
    requires |line| == 256 && 0 <= s < 256
    ensures |r| == 256
  {
    line[s..] + line[..s]
  }

  /** Column c of a scrolled line is map pixel (c + s) mod 256. */
  lemma RotatedAt(line: seq<Pixel>, s: int, c: int)
    requires |line| == 256 && 0 <= s < 256 && 0 <= c < 256
    ensures Rotated(line, s)[c] == line[(c + s) % 256]
  {
    if c + s >= 256 {
      assert (c + s) % 256 == c + s - 256;
    }
  }

  /** The background line: the map line scrolled by SCX. */
  function BgLine(v: VideoState, bgPalette: seq<int>, tileMem: int, bgMem: int): (s: seq<Pixel>)
    requires |bgPalette| == PALETTE_ENTRIES && IsTileSet(tileMem) && IsTileMap(bgMem)
    ensures |s| == SCREEN_WIDTH
  {
    Rotated(BgMapLine(v, bgPalette, tileMem, bgMem), v.scx)[..SCREEN_WIDTH]
  }

  /** Column c of the background line is the background pixel of column c. */
  lemma BgLineColumn(v: VideoState, bgPalette: seq<int>, tileMem: int, bgMem: int, c: int)
    requires |bgPalette| == PALETTE_ENTRIES && IsTileSet(tileMem) && IsTileMap(bgMem) && 0 <= c < SCREEN_WIDTH
    ensures BgLine(v, bgPalette, tileMem, bgMem)[c] == BgPixel(v, bgPalette, tileMem, bgMem, c)
  {
    RotatedAt(BgMapLine(v, bgPalette, tileMem, bgMem), v.scx, c);
  }

  /** The window map's row under line LY: window pixel x is pixel x mod 8 of the tile in map column x / 8. */
  function WindowMapLine(v: VideoState, bgPalette: seq<int>, tileMem: int, winMem: int): (s: seq<Pixel>)
    requires |bgPalette| == PALETTE_ENTRIES && IsTileSet(tileMem) && IsTileMap(winMem)
    requires WindowOnLine(v) && v.ly < SCREEN_HEIGHT
    ensures |s| == 256
  {
    seq(256, x requires 0 <= x < 256 => TilePixel(v, bgPalette, WindowTile(v, tileMem, winMem, x / 8), x % 8))
  }

  /** A screen line showing a map line from column edge on, with zero pixels left of it. */
  function Windowed(line: seq<Pixel>, edge: int): (r: seq<Pixel>)
    requires |line| == 256 && 0 <= edge < SCREEN_WIDTH
    ensures |r| == SCREEN_WIDTH
  {
    seq(edge, _ => Pixel(0, 0, 0)) + line[..SCREEN_WIDTH - edge]
  }

  /** Column c of a windowed line, at or right of the edge, is map pixel c - edge. */
  lemma WindowedAt(line: seq<Pixel>, edge: int, c: int)
    requires |line| == 256 && 0 <= edge <= c < SCREEN_WIDTH
    ensures Windowed(line, edge)[c] == line[c - edge]
  {
  }

  /** The window line: the window map line from the window's edge on (zero pixels left of it, where
    * nothing is written). */
  function WinLine(v: VideoState, bgPalette: seq<int>, tileMem: int, winMem: int): (s: seq<Pixel>)
    requires |bgPalette| == PALETTE_ENTRIES && IsTileSet(tileMem) && IsTileMap(winMem)
    requires WindowOnLine(v) && v.ly < SCREEN_HEIGHT
    ensures |s| == SCREEN_WIDTH
  {
    Windowed(WindowMapLine(v, bgPalette, tileMem, winMem), WindowX(v))
  }

  /** Column c of the window line, at or right of the edge, is the window pixel of column c. */
  lemma WinLineColumn(v: VideoState, bgPalette: seq<int>, tileMem: int, winMem: int, c: int)
    requires |bgPalette| == PALETTE_ENTRIES && IsTileSet(tileMem) && IsTileMap(winMem)
    requires WindowOnLine(v) && v.ly < SCREEN_HEIGHT && WindowX(v) <= c < SCREEN_WIDTH
    ensures WinLine(v, bgPalette, tileMem, winMem)[c] == WindowPixel(v, bgPalette, tileMem, winMem, c)
  {
    WindowedAt(WindowMapLine(v, bgPalette, tileMem, winMem), WindowX(v), c);
  }

  /** The background loop walks tiles from -(SCX mod 8) in steps of 8, so each tile starts at a map column
    * that is a multiple of 8, and pixel j of the tile at i is column i + j's map pixel. */
  lemma BgColumn(i: int, j: int, scx: int)
    requires (i + scx) % 8 == 0 && 0 <= j < 8
    ensures (i + j + scx) % 256 / 8 == (i + scx) % 256 / 8 && (i + j + scx) % 256 % 8 == j
  {
  }

  /** A background tile line fetched at column i, a multiple of 8 in the map, holds the background line's
    * pixels i..i+7. */
  lemma BgTileLine(v: VideoState, bgPalette: seq<int>, tileMem: int, bgMem: int, i: int, t: Tile)
    requires |bgPalette| == PALETTE_ENTRIES && IsTileSet(tileMem) && IsTileMap(bgMem)
    requires (i + v.scx) % 8 == 0 && t == BgTile(v, tileMem, bgMem, (i + v.scx) % 256 / 8)
    ensures forall j :: 0 <= j < 8 && 0 <= i + j < SCREEN_WIDTH ==>
              TileLine(v, bgPalette, t)[j] == BgLine(v, bgPalette, tileMem, bgMem)[i + j]
  {
    forall j | 0 <= j < 8 && 0 <= i + j < SCREEN_WIDTH
      ensures TileLine(v, bgPalette, t)[j] == BgLine(v, bgPalette, tileMem, bgMem)[i + j]
    {
      BgLineAt(v, bgPalette, tileMem, bgMem, i, t, j);
    }
  }

  /** Pixel j of the background tile at column i is the background line's column i + j. */
  lemma BgLineAt(v: VideoState, bgPalette: seq<int>, tileMem: int, bgMem: int, i: int, t: Tile, j: int)
    requires |bgPalette| == PALETTE_ENTRIES && IsTileSet(tileMem) && IsTileMap(bgMem)
    requires (i + v.scx) % 8 == 0 && t == BgTile(v, tileMem, bgMem, (i + v.scx) % 256 / 8)
    requires 0 <= j < 8 && 0 <= i + j < SCREEN_WIDTH
    ensures TileLine(v, bgPalette, t)[j] == BgLine(v, bgPalette, tileMem, bgMem)[i + j]
  {
    BgColumn(i, j, v.scx);
    var line, x := BgMapLine(v, bgPalette, tileMem, bgMem), (i + j + v.scx) % 256;
    RotatedAt(line, v.scx, i + j);
    var r := Rotated(line, v.scx);
    assert BgLine(v, bgPalette, tileMem, bgMem) == r[..SCREEN_WIDTH];
    assert r[i + j] == line[x];
    assert line[x] == TilePixel(v, bgPalette, t, j);
  }

  /** A window tile line fetched at column i, a multiple of 8 right of the edge, holds the window line's
    * pixels i..i+7. */
  lemma WindowTileLine(v: VideoState, bgPalette: seq<int>, tileMem: int, winMem: int, i: int, t: Tile)
    requires |bgPalette| == PALETTE_ENTRIES && IsTileSet(tileMem) && IsTileMap(winMem)
    requires WindowOnLine(v) && v.ly < SCREEN_HEIGHT && WindowX(v) <= i < WindowX(v) + 256
    requires (i - WindowX(v)) % 8 == 0 && t == WindowTile(v, tileMem, winMem, (i - WindowX(v)) / 8)
    ensures forall j :: 0 <= j < 8 && 0 <= i + j < SCREEN_WIDTH ==>
              TileLine(v, bgPalette, t)[j] == WinLine(v, bgPalette, tileMem, winMem)[i + j]
  {
    forall j | 0 <= j < 8 && 0 <= i + j < SCREEN_WIDTH
      ensures TileLine(v, bgPalette, t)[j] == WinLine(v, bgPalette, tileMem, winMem)[i + j]
    {
      WindowLineAt(v, bgPalette, tileMem, winMem, i, t, j);
    }
  }

  /** Pixel j of the window tile at column i is the window line's column i + j. */
  lemma WindowLineAt(v: VideoState, bgPalette: seq<int>, tileMem: int, winMem: int, i: int, t: Tile, j: int)
    requires |bgPalette| == PALETTE_ENTRIES && IsTileSet(tileMem) && IsTileMap(winMem)
    requires WindowOnLine(v) && v.ly < SCREEN_HEIGHT && WindowX(v) <= i && 0 <= j < 8 && i + j < SCREEN_WIDTH
    requires (i - WindowX(v)) % 8 == 0 && t == WindowTile(v, tileMem, winMem, (i - WindowX(v)) / 8)
    ensures TileLine(v, bgPalette, t)[j] == WinLine(v, bgPalette, tileMem, winMem)[i + j]
  {
    WindowColumn(i, j, WindowX(v));
    WindowedAt(WindowMapLine(v, bgPalette, tileMem, winMem), WindowX(v), i + j);
  }

  /** Tile k of the background loop starts at a multiple of 8 in the map. */
  lemma TileStart(i: int, scx: int, k: int)
    requires i == 8 * k - scx % 8
    ensures (i + scx) % 8 == 0
  {
    assert i + scx == 8 * (k + scx / 8);
  }

  /** Tile k of the window loop starts at the window's edge minus a multiple of 8. */
  lemma WindowStart(i: int, winX: int, k: int)
    requires 0 <= winX && i == 8 * k - (8 - winX % 8) % 8
    ensures (i - winX) % 8 == 0
  {
    if winX % 8 == 0 {
      assert i - winX == 8 * (k - winX / 8);
    } else {
      assert i - winX == 8 * (k - 1 - winX / 8);
    }
  }

  /** The window loop walks tiles from the window's edge minus a multiple of 8, so no tile starts less than
    * 8 columns left of the edge: a tile is either wholly left of it or starts at or right of it. */
  lemma WindowTiles(i: int, winX: int)
    requires (i - winX) % 8 == 0
    ensures i < winX ==> i + 8 <= winX
  {
  }

  /** The 8 pixels of a fetched tile line, leftmost first. */
  function TileLine(v: VideoState, bgPalette: seq<int>, t: Tile): (px: seq<Pixel>)
    requires |bgPalette| == PALETTE_ENTRIES && 0 <= t.paletteNo < 8
    ensures |px| == 8 && forall j :: 0 <= j < 8 ==> px[j] == TilePixel(v, bgPalette, t, j)
  {
    seq(8, j requires 0 <= j < 8 => TilePixel(v, bgPalette, t, j))
  }

  /** Pixel j of a window tile starting at column i (at or right of the edge) is window column i + j. */
  lemma WindowColumn(i: int, j: int, winX: int)
    requires (i - winX) % 8 == 0 && winX <= i && 0 <= j < 8
    ensures (i + j - winX) / 8 == (i - winX) / 8 && (i + j - winX) % 8 == j
  {
  }

  /** Replacing a row twice is replacing it with the second row. */
  lemma WithRowTwice(a: seq<int>, r: int, s: seq<int>, t: seq<int>)
    requires |a| == FRAME_PIXELS && 0 <= r < SCREEN_HEIGHT && |s| == SCREEN_WIDTH && |t| == SCREEN_WIDTH
    ensures WithRow(WithRow(a, r, s), r, t) == WithRow(a, r, t)
  {
    var b := WithRow(a, r, s);
    assert b[..RowStart(r)] == a[..RowStart(r)];
    assert b[RowStart(r) + SCREEN_WIDTH..] == a[RowStart(r) + SCREEN_WIDTH..];
  }

  /** Writing column c of an overlay that has reached c moves it on by one column. */
  lemma Written(a: seq<int>, r: int, o: seq<int>, n: seq<int>, lo: int, c: int)
    requires |a| == FRAME_PIXELS && 0 <= r < SCREEN_HEIGHT && |o| == SCREEN_WIDTH && |n| == SCREEN_WIDTH
    requires 0 <= lo <= c < SCREEN_WIDTH
    ensures WithRow(a, r, Overlay(o, n, lo, c))[RowStart(r) + c := n[c]] == WithRow(a, r, Overlay(o, n, lo, c + 1))
  {
    WithRowUpdate(a, r, Overlay(o, n, lo, c), c, n[c]);
    OverlayExtend(o, n, lo, c);
  }

  /** The frame buffers: colours, colour ids and background priorities. */
  datatype Frame = Frame(rgb: seq<int>, ids: seq<int>, prio: seq<int>)

  predicate ValidFrame(f: Frame)
  {
    |f.rgb| == FRAME_PIXELS && |f.ids| == FRAME_PIXELS && |f.prio| == FRAME_PIXELS
  }

  /** draw_tile_bg_row: line LY gets background pixels 0..159; the priorities only in colour mode. */
  function BgDrawn(f: Frame, v: VideoState, bgPalette: seq<int>, tileMem: int, bgMem: int): (g: Frame)
    requires ValidFrame(f) && v.ly < SCREEN_HEIGHT && |bgPalette| == PALETTE_ENTRIES
    requires IsTileSet(tileMem) && IsTileMap(bgMem)
    ensures ValidFrame(g)
  {
    var n := BgLine(v, bgPalette, tileMem, bgMem);
    Frame(WithRow(f.rgb, v.ly, Rgbs(n)), WithRow(f.ids, v.ly, Ids(n)),
          if ColourMode(v) then WithRow(f.prio, v.ly, Prios(n)) else f.prio)
  }

  /** draw_tile_window_row: when the window is on the line, columns from its edge to 159 get window pixels;
    * the priorities only in colour mode. */
  function WindowDrawn(f: Frame, v: VideoState, bgPalette: seq<int>, tileMem: int, winMem: int): (g: Frame)
    requires ValidFrame(f) && v.ly < SCREEN_HEIGHT && |bgPalette| == PALETTE_ENTRIES
    requires IsTileSet(tileMem) && IsTileMap(winMem)
    ensures ValidFrame(g)
  {
    if !WindowOnLine(v) then f
    else
      var x, n := WindowX(v), WinLine(v, bgPalette, tileMem, winMem);
      Frame(WithRow(f.rgb, v.ly, Overlay(RowOf(f.rgb, v.ly), Rgbs(n), x, SCREEN_WIDTH)),
            WithRow(f.ids, v.ly, Overlay(RowOf(f.ids, v.ly), Ids(n), x, SCREEN_WIDTH)),
            if ColourMode(v) then WithRow(f.prio, v.ly, Overlay(RowOf(f.prio, v.ly), Prios(n), x, SCREEN_WIDTH))
            else f.prio)
  }

  /** A background row written over columns 0..159 is the background drawn. */
  lemma BgRowDone(f: Frame, v: VideoState, bgPalette: seq<int>, tileMem: int, bgMem: int, n: seq<Pixel>,
                  rgb: seq<int>, ids: seq<int>, prio: seq<int>)
    requires ValidFrame(f) && v.ly < SCREEN_HEIGHT && |bgPalette| == PALETTE_ENTRIES
    requires IsTileSet(tileMem) && IsTileMap(bgMem) && n == BgLine(v, bgPalette, tileMem, bgMem)
    requires rgb == WithRow(f.rgb, v.ly, Overlay(RowOf(f.rgb, v.ly), Rgbs(n), 0, SCREEN_WIDTH))
    requires ids == WithRow(f.ids, v.ly, Overlay(RowOf(f.ids, v.ly), Ids(n), 0, SCREEN_WIDTH))
    requires ColourMode(v) ==> prio == WithRow(f.prio, v.ly, Overlay(RowOf(f.prio, v.ly), Prios(n), 0, SCREEN_WIDTH))
    requires !ColourMode(v) ==> prio == f.prio
    ensures Frame(rgb, ids, prio) == BgDrawn(f, v, bgPalette, tileMem, bgMem)
  {
    OverlayEnds(RowOf(f.rgb, v.ly), Rgbs(n), 0);
    OverlayEnds(RowOf(f.ids, v.ly), Ids(n), 0);
    OverlayEnds(RowOf(f.prio, v.ly), Prios(n), 0);
  }

  /** A window row written from the window's edge to column 159 is the window drawn. */
  lemma WindowRowDone(f: Frame, v: VideoState, bgPalette: seq<int>, tileMem: int, winMem: int, n: seq<Pixel>,
                      rgb: seq<int>, ids: seq<int>, prio: seq<int>)
    requires ValidFrame(f) && v.ly < SCREEN_HEIGHT && |bgPalette| == PALETTE_ENTRIES
    requires IsTileSet(tileMem) && IsTileMap(winMem) && WindowOnLine(v) && n == WinLine(v, bgPalette, tileMem, winMem)
    requires rgb == WithRow(f.rgb, v.ly, Overlay(RowOf(f.rgb, v.ly), Rgbs(n), WindowX(v), SCREEN_WIDTH))
    requires ids == WithRow(f.ids, v.ly, Overlay(RowOf(f.ids, v.ly), Ids(n), WindowX(v), SCREEN_WIDTH))
    requires ColourMode(v) ==> prio == WithRow(f.prio, v.ly, Overlay(RowOf(f.prio, v.ly), Prios(n), WindowX(v), SCREEN_WIDTH))
    requires !ColourMode(v) ==> prio == f.prio
    ensures Frame(rgb, ids, prio) == WindowDrawn(f, v, bgPalette, tileMem, winMem)
  {
  }

  /** The window map's row and column under a window pixel (y, x) with y a visible line. */
  lemma WindowTileIndex(y: int, x: int)
    requires 0 <= y < SCREEN_HEIGHT && 0 <= x < SCREEN_WIDTH + 8
    ensures 0 <= y / 8 < 18 && 0 <= x / 8 < 21 && 0 <= y % 8 < 8
  {
  }

  /** draw_sprite_row: the selected sprites drawn over line LY, last selected first. */
  function SpritesDrawn(f: Frame, v: VideoState, spritePalette: seq<int>): (g: Frame)
    requires ValidFrame(f) && v.ly < SCREEN_HEIGHT && |spritePalette| == PALETTE_ENTRIES
    ensures ValidFrame(g) && g.prio == f.prio
  {
    var sel := Selected(v);
    var r := Sprites(v, spritePalette, RowOf(f.prio, v.ly), Row(RowOf(f.rgb, v.ly), RowOf(f.ids, v.ly)), sel, |sel|);
    Frame(WithRow(f.rgb, v.ly, r.rgb), WithRow(f.ids, v.ly, r.ids), f.prio)
  }

  /** The frame the sprite loop leaves: line LY holds the row after all selected sprites. */
  lemma SpritesRowDone(f: Frame, v: VideoState, spritePalette: seq<int>, sel: seq<int>, rgb: seq<int>, ids: seq<int>, prio: seq<int>)
    requires ValidFrame(f) && v.ly < SCREEN_HEIGHT && |spritePalette| == PALETTE_ENTRIES && sel == Selected(v)
    requires var t := Sprites(v, spritePalette, RowOf(f.prio, v.ly), Row(RowOf(f.rgb, v.ly), RowOf(f.ids, v.ly)), sel, |sel|);
             rgb == WithRow(f.rgb, v.ly, t.rgb) && ids == WithRow(f.ids, v.ly, t.ids) && prio == f.prio
    ensures Frame(rgb, ids, prio) == SpritesDrawn(f, v, spritePalette)
  {
  }

  /** LCDC bit 4 selects tile set 0, else tile set 1; bits 3 and 6 select the second map for the background
    * and the window. */
  function TileSet(v: VideoState): (t: int)
    ensures IsTileSet(t)
  {
    if Bit(v.lcdc, 4) == 1 then TILE_SET_0_START else TILE_SET_1_START
  }

  function BgMap(v: VideoState): (m: int)
    ensures IsTileMap(m)
  {
    if Bit(v.lcdc, 3) == 1 then BG_MAP_DATA1_START else BG_MAP_DATA0_START
  }

  function WindowMap(v: VideoState): (m: int)
    ensures IsTileMap(m)
  {
    if Bit(v.lcdc, 6) == 1 then BG_MAP_DATA1_START else BG_MAP_DATA0_START
  }

  /** The window is drawn when LCDC bit 5 is set and WY <= LY. */
  predicate WindowEnabled(v: VideoState)
  {
    Bit(v.lcdc, 5) == 1 && v.wy <= v.ly
  }

  /** draw_tile_row: the background, then the window when it is enabled. */
  function TileRowDrawn(f: Frame, v: VideoState, bgPalette: seq<int>): (g: Frame)
    requires ValidFrame(f) && v.ly < SCREEN_HEIGHT && |bgPalette| == PALETTE_ENTRIES
    ensures ValidFrame(g)
  {
    var b := BgDrawn(f, v, bgPalette, TileSet(v), BgMap(v));
    if WindowEnabled(v) then WindowDrawn(b, v, bgPalette, TileSet(v), WindowMap(v)) else b
  }

  /** Only line LY of the frame changes when a line is rendered. */
  lemma TileRowOnly(f: Frame, v: VideoState, bgPalette: seq<int>, k: int)
    requires ValidFrame(f) && v.ly < SCREEN_HEIGHT && |bgPalette| == PALETTE_ENTRIES
    requires 0 <= k < FRAME_PIXELS && !(RowStart(v.ly) <= k < RowStart(v.ly) + SCREEN_WIDTH)
    ensures var g := TileRowDrawn(f, v, bgPalette); g.rgb[k] == f.rgb[k] && g.ids[k] == f.ids[k] && g.prio[k] == f.prio[k]
    ensures var g := SpritesDrawn(f, v, bgPalette); g.rgb[k] == f.rgb[k] && g.ids[k] == f.ids[k]
  {
    var sel := Selected(v);
    var r := Sprites(v, bgPalette, RowOf(f.prio, v.ly), Row(RowOf(f.rgb, v.ly), RowOf(f.ids, v.ly)), sel, |sel|);
    WithRowAt(f.rgb, v.ly, r.rgb);
    WithRowAt(f.ids, v.ly, r.ids);
    var b := BgDrawn(f, v, bgPalette, TileSet(v), BgMap(v));
    var n := BgLine(v, bgPalette, TileSet(v), BgMap(v));
    WithRowAt(f.rgb, v.ly, Rgbs(n));
    WithRowAt(f.ids, v.ly, Ids(n));
    WithRowAt(f.prio, v.ly, Prios(n));
    if WindowEnabled(v) && WindowOnLine(v) {
      var x, w := WindowX(v), WinLine(v, bgPalette, TileSet(v), WindowMap(v));
      WithRowAt(b.rgb, v.ly, Overlay(RowOf(b.rgb, v.ly), Rgbs(w), x, SCREEN_WIDTH));
      WithRowAt(b.ids, v.ly, Overlay(RowOf(b.ids, v.ly), Ids(w), x, SCREEN_WIDTH));
      WithRowAt(b.prio, v.ly, Overlay(RowOf(b.prio, v.ly), Prios(w), x, SCREEN_WIDTH));
    }
  }

  /** With the window on the line, columns left of its edge keep the background and the others show the
    * window; with the window enabled but its edge or WY off screen, the line is the background alone. */
  lemma WindowColumns(f: Frame, v: VideoState, bgPalette: seq<int>, c: int)
    requires ValidFrame(f) && v.ly < SCREEN_HEIGHT && |bgPalette| == PALETTE_ENTRIES
    requires WindowEnabled(v) && 0 <= c < SCREEN_WIDTH
    ensures var g := TileRowDrawn(f, v, bgPalette); var k := RowStart(v.ly) + c;
            (c < WindowX(v) || !WindowOnLine(v) ==>
               (g.rgb[k] == BgPixel(v, bgPalette, TileSet(v), BgMap(v), c).rgb
                && g.ids[k] == BgPixel(v, bgPalette, TileSet(v), BgMap(v), c).id))
            && (WindowOnLine(v) && WindowX(v) <= c ==>
                  (g.rgb[k] == WindowPixel(v, bgPalette, TileSet(v), WindowMap(v), c).rgb
                   && g.ids[k] == WindowPixel(v, bgPalette, TileSet(v), WindowMap(v), c).id))
  {
    var b := BgDrawn(f, v, bgPalette, TileSet(v), BgMap(v));
    BgColumnShown(f, v, bgPalette, c);
    if WindowOnLine(v) {
      OverlayColumn(b, v, bgPalette, c);
      if WindowX(v) <= c {
        WinLineColumn(v, bgPalette, TileSet(v), WindowMap(v), c);
      }
    }
  }

  /** After the background pass, column c of line LY is the background pixel of column c. */
  lemma BgColumnShown(f: Frame, v: VideoState, bgPalette: seq<int>, c: int)
    requires ValidFrame(f) && v.ly < SCREEN_HEIGHT && |bgPalette| == PALETTE_ENTRIES && 0 <= c < SCREEN_WIDTH
    ensures var b := BgDrawn(f, v, bgPalette, TileSet(v), BgMap(v)); var k := RowStart(v.ly) + c;
            b.rgb[k] == BgPixel(v, bgPalette, TileSet(v), BgMap(v), c).rgb
            && b.ids[k] == BgPixel(v, bgPalette, TileSet(v), BgMap(v), c).id
  {
    var n := BgLine(v, bgPalette, TileSet(v), BgMap(v));
    WithRowAt(f.rgb, v.ly, Rgbs(n));
    WithRowAt(f.ids, v.ly, Ids(n));
    BgLineColumn(v, bgPalette, TileSet(v), BgMap(v), c);
  }

  /** The window pass over frame b keeps the columns left of the edge and writes the window line's from it on. */
  lemma OverlayColumn(b: Frame, v: VideoState, bgPalette: seq<int>, c: int)
    requires ValidFrame(b) && v.ly < SCREEN_HEIGHT && |bgPalette| == PALETTE_ENTRIES && 0 <= c < SCREEN_WIDTH
    requires WindowOnLine(v)
    ensures var g := WindowDrawn(b, v, bgPalette, TileSet(v), WindowMap(v)); var k := RowStart(v.ly) + c;
            var w := WinLine(v, bgPalette, TileSet(v), WindowMap(v));
            (c < WindowX(v) ==> g.rgb[k] == b.rgb[k] && g.ids[k] == b.ids[k])
            && (WindowX(v) <= c ==> g.rgb[k] == w[c].rgb && g.ids[k] == w[c].id)
  {
    var x, w := WindowX(v), WinLine(v, bgPalette, TileSet(v), WindowMap(v));
    WithRowAt(b.rgb, v.ly, Overlay(RowOf(b.rgb, v.ly), Rgbs(w), x, SCREEN_WIDTH));
    WithRowAt(b.ids, v.ly, Overlay(RowOf(b.ids, v.ly), Ids(w), x, SCREEN_WIDTH));
    OverlayAt(RowOf(b.rgb, v.ly), Rgbs(w), x, SCREEN_WIDTH, c);
    OverlayAt(RowOf(b.ids, v.ly), Ids(w), x, SCREEN_WIDTH, c);
  }

  /** The buffer after columns lo..hi-1 of line `row` were written, left to right, with the new line n. */
  function Painted(base: seq<int>, row: int, n: seq<int>, lo: int, hi: int): (s: seq<int>)
    requires |base| == FRAME_PIXELS && 0 <= row < SCREEN_HEIGHT && |n| == SCREEN_WIDTH && 0 <= lo && hi <= SCREEN_WIDTH
    ensures |s| == FRAME_PIXELS
    decreases hi - lo
  {
    if hi <= lo then base else Painted(base, row, n, lo, hi - 1)[RowStart(row) + hi - 1 := n[hi - 1]]
  }

  /** Writing those columns one by one is replacing them in the line. */
  lemma {:induction false} PaintedOverlay(base: seq<int>, row: int, n: seq<int>, lo: int, hi: int)
    requires |base| == FRAME_PIXELS && 0 <= row < SCREEN_HEIGHT && |n| == SCREEN_WIDTH && 0 <= lo <= hi <= SCREEN_WIDTH
    ensures Painted(base, row, n, lo, hi) == WithRow(base, row, Overlay(RowOf(base, row), n, lo, hi))
    decreases hi - lo
  {
    if hi == lo {
      WithOwnRow(base, row);
      OverlayEnds(RowOf(base, row), n, lo);
    } else {
      PaintedOverlay(base, row, n, lo, hi - 1);
      Written(base, row, RowOf(base, row), n, lo, hi - 1);
    }
  }

  /** draw_row draws tiles when the screen is on (LCDC bit 7) and either the Color is in colour mode or
    * LCDC bit 0 is set, and sprites when the screen is on and LCDC bit 1 is set. */
  predicate DrawsTiles(v: VideoState)
  {
    Bit(v.lcdc, 7) == 1 && (ColourMode(v) || Bit(v.lcdc, 0) == 1)
  }

  predicate DrawsSprites(v: VideoState)
  {
    Bit(v.lcdc, 7) == 1 && Bit(v.lcdc, 1) == 1
  }

  /** The frame after draw_row: tiles first, then sprites over them. */
  function RowDrawn(f: Frame, v: VideoState, bgPalette: seq<int>, spritePalette: seq<int>): (g: Frame)
    requires ValidFrame(f) && (Bit(v.lcdc, 7) == 1 ==> v.ly < SCREEN_HEIGHT)
    requires |bgPalette| == PALETTE_ENTRIES && |spritePalette| == PALETTE_ENTRIES
    ensures ValidFrame(g)
  {
    var t := if DrawsTiles(v) then TileRowDrawn(f, v, bgPalette) else f;
    if DrawsSprites(v) then SpritesDrawn(t, v, spritePalette) else t
  }

  /** With the screen off nothing is drawn; with it on, only line LY can change. */
  lemma RowDrawnOnly(f: Frame, v: VideoState, bgPalette: seq<int>, spritePalette: seq<int>, k: int)
    requires ValidFrame(f) && (Bit(v.lcdc, 7) == 1 ==> v.ly < SCREEN_HEIGHT)
    requires |bgPalette| == PALETTE_ENTRIES && |spritePalette| == PALETTE_ENTRIES
    requires 0 <= k < FRAME_PIXELS
    ensures Bit(v.lcdc, 7) == 0 ==> RowDrawn(f, v, bgPalette, spritePalette) == f
    ensures !(RowStart(v.ly) <= k < RowStart(v.ly) + SCREEN_WIDTH) ==>
              var g := RowDrawn(f, v, bgPalette, spritePalette); g.rgb[k] == f.rgb[k] && g.ids[k] == f.ids[k] && g.prio[k] == f.prio[k]
  {
    if Bit(v.lcdc, 7) == 1 && !(RowStart(v.ly) <= k < RowStart(v.ly) + SCREEN_WIDTH) {
      var t := if DrawsTiles(v) then TileRowDrawn(f, v, bgPalette) else f;
      TileRowOnly(f, v, bgPalette, k);
      TileRowOnly(t, v, spritePalette, k);
    }
  }
}
