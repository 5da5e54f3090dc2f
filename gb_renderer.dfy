/** The Game Boy renderer's state and its row renderers: draw_row renders line LY into the 160 by 144 ARGB
  * frame, keeping for each pixel the colour id (old_buffer) and, in colour mode, the background's priority
  * flag (cgb_bg_prio), which the sprites drawn after it consult. Each renderer is proved to leave the frame
  * as the row functions of GbGraphics describe. */
module GbRenderer {
  import opened GbPalette
  import opened GbScanline
  import opened GbGraphics

  /** Column c of n is column c of the window's line; loops over the window state their knowledge of the
    * line this way, column by column, so that the line itself is only taken apart where a tile is drawn. */
  ghost predicate WindowAt(n: seq<Pixel>, v: VideoState, bgPalette: seq<int>, tileMem: int, winMem: int, c: int)
  {
    v.ly < SCREEN_HEIGHT && IsTileSet(tileMem) && IsTileMap(winMem) && WindowOnLine(v) && |bgPalette| == PALETTE_ENTRIES
    && |n| == SCREEN_WIDTH && 0 <= c < SCREEN_WIDTH && n[c] == WinLine(v, bgPalette, tileMem, winMem)[c]
  }

  /** The renderer's state: the frame, the two rendered palettes and their dirty flags, whether a frame was
    * completed, and how many frames were handed to the screen. */
  class Renderer {
    const rgb: array<int>
    const oldBuffer: array<int>
    const bgPrio: array<int>
    const renderedBg: array<int>
    const renderedSprite: array<int>
    var bgDirty: bool
    var spriteDirty: bool
    var frameDrawn: bool
    var screensOutput: nat

    predicate Valid()
      reads this
    {
      rgb.Length == FRAME_PIXELS && oldBuffer.Length == FRAME_PIXELS && bgPrio.Length == FRAME_PIXELS
      && renderedBg.Length == PALETTE_ENTRIES && renderedSprite.Length == PALETTE_ENTRIES
      && rgb != oldBuffer && rgb != bgPrio && oldBuffer != bgPrio && renderedBg != renderedSprite
      && renderedBg != rgb && renderedBg != oldBuffer && renderedBg != bgPrio
      && renderedSprite != rgb && renderedSprite != oldBuffer && renderedSprite != bgPrio
    }

    /** The three frame buffers: all of the frame's size, and three distinct arrays. */
    predicate Buffers()
      reads this
    {
      rgb.Length == FRAME_PIXELS && oldBuffer.Length == FRAME_PIXELS && bgPrio.Length == FRAME_PIXELS
      && rgb != oldBuffer && rgb != bgPrio && oldBuffer != bgPrio
    }

    ghost function Abs(): Frame
      reads this, rgb, oldBuffer, bgPrio
    {
      Frame(rgb[..], oldBuffer[..], bgPrio[..])
    }

    /** init_gfx: the buffers start cleared, and both palettes are refreshed from palette memory (the dirty
      * flags are those palette memory starts with). */
    constructor(v: VideoState, bgDirtyAtStart: bool, spriteDirtyAtStart: bool)
      ensures Valid() && !bgDirty && !spriteDirty && !frameDrawn && screensOutput == 0
      ensures Abs() == Frame(seq(FRAME_PIXELS, _ => 0), seq(FRAME_PIXELS, _ => 0), seq(FRAME_PIXELS, _ => 0))
      ensures renderedBg[..] == if bgDirtyAtStart then RenderedPalette(v.bgPaletteMemory) else seq(PALETTE_ENTRIES, _ => 0)
      ensures renderedSprite[..] == if spriteDirtyAtStart then RenderedPalette(v.spritePaletteMemory) else seq(PALETTE_ENTRIES, _ => 0)
    {
      rgb := new int[FRAME_PIXELS](_ => 0);
      oldBuffer := new int[FRAME_PIXELS](_ => 0);
      bgPrio := new int[FRAME_PIXELS](_ => 0);
      renderedBg := new int[PALETTE_ENTRIES](_ => 0);
      renderedSprite := new int[PALETTE_ENTRIES](_ => 0);
      bgDirty, spriteDirty, frameDrawn, screensOutput := bgDirtyAtStart, spriteDirtyAtStart, false, 0;
      new;
      RefreshPalette(renderedBg, v.bgPaletteMemory, bgDirty);
      RefreshPalette(renderedSprite, v.spritePaletteMemory, spriteDirty);
      bgDirty, spriteDirty := false, false;
    }

    /** refresh_gbc_bg_palettes: when dirty, the rendered background table is rebuilt and the flag cleared;
      * otherwise nothing changes, so a second refresh in a row changes nothing. */
    method RefreshBgPalettes(data: seq<int>)
      requires Valid() && ValidPaletteMemory(data)
      modifies this, renderedBg
      ensures Valid() && !bgDirty && renderedBg[..] == if old(bgDirty) then RenderedPalette(data) else old(renderedBg[..])
      ensures spriteDirty == old(spriteDirty) && frameDrawn == old(frameDrawn) && screensOutput == old(screensOutput)
    {
      RefreshPalette(renderedBg, data, bgDirty);
      bgDirty := false;
    }

    /** refresh_gbc_sprite_palettes, the same for the sprite table. */
    method RefreshSpritePalettes(data: seq<int>)
      requires Valid() && ValidPaletteMemory(data)
      modifies this, renderedSprite
      ensures Valid() && !spriteDirty && renderedSprite[..] == if old(spriteDirty) then RenderedPalette(data) else old(renderedSprite[..])
      ensures bgDirty == old(bgDirty) && frameDrawn == old(frameDrawn) && screensOutput == old(screensOutput)
    {
      RefreshPalette(renderedSprite, data, spriteDirty);
      spriteDirty := false;
    }

    /** The frame with columns lo up to hi of line `row` written with the pixels of line n; the priorities
      * only when withPrio holds, and left as in f otherwise. */
    ghost predicate Reached(f: Frame, row: int, n: seq<Pixel>, lo: int, hi: int, withPrio: bool)
      reads this, rgb, oldBuffer, bgPrio
      requires ValidFrame(f) && 0 <= row < SCREEN_HEIGHT && |n| == SCREEN_WIDTH && 0 <= lo <= SCREEN_WIDTH
    {
      rgb[..] == Painted(f.rgb, row, Rgbs(n), lo, Upto(lo, hi))
      && oldBuffer[..] == Painted(f.ids, row, Ids(n), lo, Upto(lo, hi))
      && (withPrio ==> bgPrio[..] == Painted(f.prio, row, Prios(n), lo, Upto(lo, hi)))
      && (!withPrio ==> bgPrio[..] == f.prio)
    }

    /** One pixel of a tile line written at column c, the next column of the line's overlay. */
    method DrawPixel(p: Pixel, withPrio: bool, row: int, c: int, ghost f: Frame, ghost n: seq<Pixel>, ghost lo: int)
      requires Buffers() && ValidFrame(f) && 0 <= row < SCREEN_HEIGHT && |n| == SCREEN_WIDTH && 0 <= lo <= c < SCREEN_WIDTH
      requires p == n[c] && Reached(f, row, n, lo, c, withPrio)
      modifies rgb, oldBuffer, bgPrio
      ensures Reached(f, row, n, lo, c + 1, withPrio)
    {
      var k := RowStart(row) + c;
      rgb[k] := p.rgb;
      oldBuffer[k] := p.id;
      if withPrio {
        bgPrio[k] := p.prio;
      }
    }

    /** The inner loop of both tile renderers: the 8 pixels of a tile line starting at column i, each
      * written where it falls on screen, with the priority only in colour mode. */
    method DrawTileLine(pixels: seq<Pixel>, withPrio: bool, row: int, i: int, ghost f: Frame, ghost n: seq<Pixel>, ghost lo: int)
      requires Buffers() && ValidFrame(f) && 0 <= row < SCREEN_HEIGHT && |n| == SCREEN_WIDTH
      requires |pixels| == 8 && 0 <= lo <= SCREEN_WIDTH && (lo == 0 || lo <= i)
      requires forall j :: 0 <= j < 8 && 0 <= i + j < SCREEN_WIDTH ==> pixels[j] == n[i + j]
      requires Reached(f, row, n, lo, i, withPrio)
      modifies rgb, oldBuffer, bgPrio
      ensures Reached(f, row, n, lo, i + 8, withPrio)
    {
      var c := i;
      while c < i + 8
        invariant i <= c <= i + 8 && Reached(f, row, n, lo, c, withPrio)
      {
        if c >= 0 && c < SCREEN_WIDTH {
          DrawPixel(pixels[c - i], withPrio, row, c, f, n, lo);
        } else {
          OffScreen(f, row, n, lo, c, withPrio);
        }
        c := c + 1;
      }
    }

    /** One iteration of draw_tile_bg_row: the map tile under column i (a multiple of 8 in the map) is
      * fetched and its line drawn in the colours of bgPalette. */
    method DrawBgTile(v: VideoState, bgPalette: seq<int>, tileMem: int, bgMem: int, i: int, ghost k: int, ghost f: Frame, ghost n: seq<Pixel>)
      requires Buffers() && v.ly < SCREEN_HEIGHT && IsTileSet(tileMem) && IsTileMap(bgMem)
      requires |bgPalette| == PALETTE_ENTRIES && ValidFrame(f) && n == BgLine(v, bgPalette, tileMem, bgMem)
      requires i == 8 * k - v.scx % 8 && Reached(f, v.ly, n, 0, i, ColourMode(v))
      modifies rgb, oldBuffer, bgPrio
      ensures Reached(f, v.ly, n, 0, i + 8, ColourMode(v))
    {
      TileStart(i, v.scx, k);
      var t := BgTile(v, tileMem, bgMem, (i + v.scx) % 256 / 8);
      var pixels := TileLine(v, bgPalette, t);
      BgTileLine(v, bgPalette, tileMem, bgMem, i, t);
      DrawTileLine(pixels, ColourMode(v), v.ly, i, f, n, 0);
    }

    /** draw_tile_bg_row: tiles from column -(SCX mod 8) in steps of 8, each tile's 8 pixels written where
      * they fall on screen. */
    method DrawTileBgRow(v: VideoState, tileMem: int, bgMem: int)
      requires Buffers() && renderedBg.Length == PALETTE_ENTRIES && v.ly < SCREEN_HEIGHT && IsTileSet(tileMem) && IsTileMap(bgMem)
      modifies rgb, oldBuffer, bgPrio
      ensures Abs() == BgDrawn(old(Abs()), v, old(renderedBg[..]), tileMem, bgMem)
    {
      var bgPalette := renderedBg[..];
      ghost var f := Abs();
      ghost var n := BgLine(v, bgPalette, tileMem, bgMem);
      DrawBgTiles(v, bgPalette, tileMem, bgMem, f, n);
      EndLine(f, v.ly, n, 0, SCREEN_WIDTH, ColourMode(v));
      BgRowDone(f, v, bgPalette, tileMem, bgMem, n, rgb[..], oldBuffer[..], bgPrio[..]);
    }

    /** The loop of draw_tile_bg_row: tiles from column -(SCX mod 8) in steps of 8 until the line is full. */
    method DrawBgTiles(v: VideoState, bgPalette: seq<int>, tileMem: int, bgMem: int, ghost f: Frame, ghost n: seq<Pixel>)
      requires Buffers() && v.ly < SCREEN_HEIGHT && IsTileSet(tileMem) && IsTileMap(bgMem)
      requires |bgPalette| == PALETTE_ENTRIES && ValidFrame(f) && n == BgLine(v, bgPalette, tileMem, bgMem)
      requires Abs() == f
      modifies rgb, oldBuffer, bgPrio
      ensures Reached(f, v.ly, n, 0, SCREEN_WIDTH, ColourMode(v))
    {
      var scrollX := v.scx;
      var skewLeft := scrollX % 8;
      var skewRight := (8 - skewLeft) % 8;
      var i := 0 - skewLeft;
      assert Upto(0, i) == Upto(0, -8);
      assert Reached(f, v.ly, n, 0, -8, ColourMode(v));
      ghost var k := 0;
      while i < SCREEN_WIDTH + skewRight
        invariant i == 8 * k - skewLeft
        invariant Reached(f, v.ly, n, 0, i, ColourMode(v))
        decreases SCREEN_WIDTH + skewRight - i
      {
        DrawBgTile(v, bgPalette, tileMem, bgMem, i, k, f, n);
        i, k := i + 8, k + 1;
      }
      assert Upto(0, i) == Upto(0, SCREEN_WIDTH);
    }

    /** One iteration of draw_tile_window_row for a tile starting at or right of the window's edge: the
      * window-map tile under column i is fetched and its line drawn. */
    method DrawWindowTile(v: VideoState, bgPalette: seq<int>, tileMem: int, winMem: int, i: int, ghost f: Frame, ghost n: seq<Pixel>)
      requires Buffers() && v.ly < SCREEN_HEIGHT && IsTileSet(tileMem) && IsTileMap(winMem)
      requires WindowOnLine(v) && WindowX(v) <= i < SCREEN_WIDTH + 8 && (i - WindowX(v)) % 8 == 0
      requires |bgPalette| == PALETTE_ENTRIES && ValidFrame(f) && n == WinLine(v, bgPalette, tileMem, winMem)
      requires Reached(f, v.ly, n, WindowX(v), i, ColourMode(v))
      modifies rgb, oldBuffer, bgPrio
      ensures Reached(f, v.ly, n, WindowX(v), i + 8, ColourMode(v))
    {
      WindowTileIndex(v.ly - v.wy, i - WindowX(v));
      var t := WindowTile(v, tileMem, winMem, (i - WindowX(v)) / 8);
      var pixels := TileLine(v, bgPalette, t);
      WindowTileLine(v, bgPalette, tileMem, winMem, i, t);
      DrawTileLine(pixels, ColourMode(v), v.ly, i, f, n, WindowX(v));
    }

    /** One iteration of draw_tile_window_row: a tile wholly left of the window's edge is skipped, one at or
      * right of it drawn. */
    method DrawWindowStep(v: VideoState, bgPalette: seq<int>, tileMem: int, winMem: int, i: int, ghost f: Frame, ghost n: seq<Pixel>)
      requires Buffers() && v.ly < SCREEN_HEIGHT && IsTileSet(tileMem) && IsTileMap(winMem)
      requires WindowOnLine(v) && i < SCREEN_WIDTH + 8 && (i - WindowX(v)) % 8 == 0
      requires |bgPalette| == PALETTE_ENTRIES && ValidFrame(f) && n == WinLine(v, bgPalette, tileMem, winMem)
      requires Reached(f, v.ly, n, WindowX(v), i, ColourMode(v))
      modifies rgb, oldBuffer, bgPrio
      ensures Reached(f, v.ly, n, WindowX(v), i + 8, ColourMode(v))
    {
      var winX := WindowX(v);
      WindowTiles(i, winX);
      if i < winX {
        if i < winX - 7 {
          // The whole tile lies left of the edge.
          return;
        } else {
          // A tile starting fewer than 8 columns left of the edge would be drawn from its pixel
          // winX - i on; tiles start at the edge minus a multiple of 8, so there is none.
          assert false;
        }
      }
      DrawWindowTile(v, bgPalette, tileMem, winMem, i, f, n);
    }

    /** The loop of draw_tile_window_row: tiles from column -((8 - WX') mod 8) in steps of 8 until the line
      * is full, each drawn from the window's edge on. */
    method DrawWindowTiles(v: VideoState, winX: int, bgPalette: seq<int>, tileMem: int, winMem: int, ghost f: Frame, ghost n: seq<Pixel>)
      requires Buffers() && v.ly < SCREEN_HEIGHT && IsTileSet(tileMem) && IsTileMap(winMem) && WindowOnLine(v)
      requires winX == WindowX(v) && winX < SCREEN_WIDTH
      requires |bgPalette| == PALETTE_ENTRIES && ValidFrame(f) && |n| == SCREEN_WIDTH
      requires forall c :: 0 <= c < SCREEN_WIDTH ==> WindowAt(n, v, bgPalette, tileMem, winMem, c)
      requires Abs() == f
      modifies rgb, oldBuffer, bgPrio
      ensures rgb[..] == WithRow(f.rgb, v.ly, Overlay(RowOf(f.rgb, v.ly), Rgbs(n), winX, SCREEN_WIDTH))
      ensures oldBuffer[..] == WithRow(f.ids, v.ly, Overlay(RowOf(f.ids, v.ly), Ids(n), winX, SCREEN_WIDTH))
      ensures ColourMode(v) ==> bgPrio[..] == WithRow(f.prio, v.ly, Overlay(RowOf(f.prio, v.ly), Prios(n), winX, SCREEN_WIDTH))
      ensures !ColourMode(v) ==> bgPrio[..] == f.prio
    {
      var skew := (8 - winX % 8) % 8;
      var i := 0 - skew;
      StartLine(f, v.ly, n, winX, i, ColourMode(v));
      ghost var k := 0;
      while i < SCREEN_WIDTH + skew
        invariant i == 8 * k - skew
        invariant Reached(f, v.ly, n, winX, i, ColourMode(v))
        decreases SCREEN_WIDTH + skew - i
      {
        DrawWindowColumn(v, winX, skew, i, k, bgPalette, tileMem, winMem, f, n);
        i, k := i + 8, k + 1;
      }
      EndLine(f, v.ly, n, winX, i, ColourMode(v));
    }

    /** Iteration k of draw_tile_window_row's loop, at column 8k - skew. */
    method DrawWindowColumn(v: VideoState, winX: int, skew: int, i: int, ghost k: int, bgPalette: seq<int>, tileMem: int, winMem: int, ghost f: Frame, ghost n: seq<Pixel>)
      requires Buffers() && v.ly < SCREEN_HEIGHT && IsTileSet(tileMem) && IsTileMap(winMem) && WindowOnLine(v)
      requires winX == WindowX(v) && skew == (8 - winX % 8) % 8 && i == 8 * k - skew && i < SCREEN_WIDTH + skew
      requires |bgPalette| == PALETTE_ENTRIES && ValidFrame(f) && |n| == SCREEN_WIDTH
      requires forall c :: 0 <= c < SCREEN_WIDTH ==> WindowAt(n, v, bgPalette, tileMem, winMem, c)
      requires Reached(f, v.ly, n, winX, i, ColourMode(v))
      modifies rgb, oldBuffer, bgPrio
      ensures Reached(f, v.ly, n, winX, i + 8, ColourMode(v))
    {
      WindowStart(i, winX, k);
      assert n == WinLine(v, bgPalette, tileMem, winMem) by {
        forall c | 0 <= c < SCREEN_WIDTH ensures n[c] == WinLine(v, bgPalette, tileMem, winMem)[c] {
          assert WindowAt(n, v, bgPalette, tileMem, winMem, c);
        }
      }
      DrawWindowStep(v, bgPalette, tileMem, winMem, i, f, n);
    }

    /** draw_tile_window_row: nothing unless the window is on the line; otherwise tiles from the window's
      * edge, each of the window map's tiles written from its left pixel. */
    method DrawTileWindowRow(v: VideoState, tileMem: int, winMem: int)
      requires Buffers() && renderedBg.Length == PALETTE_ENTRIES && v.ly < SCREEN_HEIGHT && IsTileSet(tileMem) && IsTileMap(winMem)
      modifies rgb, oldBuffer, bgPrio
      ensures Abs() == WindowDrawn(old(Abs()), v, old(renderedBg[..]), tileMem, winMem)
    {
      var winX := WindowX(v);
      if winX > 159 || v.wy > 143 || v.ly < v.wy {
        return;
      }
      var bgPalette := renderedBg[..];
      ghost var f := Abs();
      ghost var n := WinLine(v, bgPalette, tileMem, winMem);
      assert forall c :: 0 <= c < SCREEN_WIDTH ==> WindowAt(n, v, bgPalette, tileMem, winMem, c);
      DrawWindowTiles(v, winX, bgPalette, tileMem, winMem, f, n);
      WindowRowDone(f, v, bgPalette, tileMem, winMem, n, rgb[..], oldBuffer[..], bgPrio[..]);
    }

    /** One pixel of a sprite line, drawn at column s.x + x of line LY when it is on screen and the priority
      * rules let it through. */
    method DrawSpritePixel(v: VideoState, spritePalette: seq<int>, s: SpriteLine, x: int, ghost f: Frame, ghost r: Row)
      requires Buffers() && v.ly < SCREEN_HEIGHT && 0 <= x < 8 && |spritePalette| == PALETTE_ENTRIES
      requires (s.paletteNo == 0 || s.paletteNo == 1) && 0 <= s.cgbPalette < 8
      requires ValidFrame(f) && ValidRow(r) && bgPrio[..] == f.prio
      requires rgb[..] == WithRow(f.rgb, v.ly, r.rgb) && oldBuffer[..] == WithRow(f.ids, v.ly, r.ids)
      modifies rgb, oldBuffer
      ensures var t := SpritePixel(v, spritePalette, RowOf(f.prio, v.ly), r, s, x);
              rgb[..] == WithRow(f.rgb, v.ly, t.rgb) && oldBuffer[..] == WithRow(f.ids, v.ly, t.ids)
    {
      var col := s.x + x;
      if col >= SCREEN_WIDTH || col < 0 {
        return;
      }
      var k := RowStart(v.ly) + col;
      WithRowAt(f.rgb, v.ly, r.rgb);
      WithRowAt(f.ids, v.ly, r.ids);
      assert bgPrio[k] == RowOf(f.prio, v.ly)[col] && oldBuffer[k] == r.ids[col];
      var id := SpriteId(s, x);
      var draws, colour := SpriteDecision(v, spritePalette, s, x, bgPrio[k], oldBuffer[k], RowOf(f.prio, v.ly), r);
      if draws {
        WithRowUpdate(f.rgb, v.ly, r.rgb, col, colour);
        WithRowUpdate(f.ids, v.ly, r.ids, col, id);
        rgb[k] := colour;
        oldBuffer[k] := id;
      }
    }

    /** The pixel loop of draw_sprite_row for one selected sprite: its 8 pixels, left to right. */
    method DrawSpriteLine(v: VideoState, spritePalette: seq<int>, n: int, ghost f: Frame, ghost r: Row)
      requires Buffers() && v.ly < SCREEN_HEIGHT && |spritePalette| == PALETTE_ENTRIES
      requires 0 <= n < MAX_SPRITES && Crosses(v, n)
      requires ValidFrame(f) && ValidRow(r) && bgPrio[..] == f.prio
      requires rgb[..] == WithRow(f.rgb, v.ly, r.rgb) && oldBuffer[..] == WithRow(f.ids, v.ly, r.ids)
      modifies rgb, oldBuffer
      ensures var t := SpritePixels(v, spritePalette, RowOf(f.prio, v.ly), r, FetchSprite(v, n), 8);
              rgb[..] == WithRow(f.rgb, v.ly, t.rgb) && oldBuffer[..] == WithRow(f.ids, v.ly, t.ids)
    {
      var s := FetchSprite(v, n);
      var x := 0;
      while x < 8
        invariant 0 <= x <= 8 && bgPrio[..] == f.prio
        invariant var t := SpritePixels(v, spritePalette, RowOf(f.prio, v.ly), r, s, x);
                  rgb[..] == WithRow(f.rgb, v.ly, t.rgb) && oldBuffer[..] == WithRow(f.ids, v.ly, t.ids)
      {
        DrawSpritePixel(v, spritePalette, s, x, f, SpritePixels(v, spritePalette, RowOf(f.prio, v.ly), r, s, x));
        x := x + 1;
      }
    }

    /** One iteration of the drawing loop of draw_sprite_row: the selected sprite k places from the end. */
    method DrawSelected(v: VideoState, spritePalette: seq<int>, ghost sel: seq<int>, ghost k: int, spriteNo: int, ghost f: Frame)
      requires Buffers() && v.ly < SCREEN_HEIGHT && |spritePalette| == PALETTE_ENTRIES
      requires sel == Selected(v) && 0 <= k < |sel| && spriteNo == sel[|sel| - k - 1]
      requires ValidFrame(f) && bgPrio[..] == f.prio
      requires var t := Sprites(v, spritePalette, RowOf(f.prio, v.ly), Row(RowOf(f.rgb, v.ly), RowOf(f.ids, v.ly)), sel, k);
               rgb[..] == WithRow(f.rgb, v.ly, t.rgb) && oldBuffer[..] == WithRow(f.ids, v.ly, t.ids)
      modifies rgb, oldBuffer
      ensures var t := Sprites(v, spritePalette, RowOf(f.prio, v.ly), Row(RowOf(f.rgb, v.ly), RowOf(f.ids, v.ly)), sel, k + 1);
              rgb[..] == WithRow(f.rgb, v.ly, t.rgb) && oldBuffer[..] == WithRow(f.ids, v.ly, t.ids)
    {
      ghost var prioRow := RowOf(f.prio, v.ly);
      ghost var r := Row(RowOf(f.rgb, v.ly), RowOf(f.ids, v.ly));
      SpritesNext(v, spritePalette, prioRow, r, sel, k);
      DrawSpriteLine(v, spritePalette, spriteNo, f, Sprites(v, spritePalette, prioRow, r, sel, k));
    }

    /** The drawing loop of draw_sprite_row: the sprites crossing line LY selected (at most 10, in the
      * priority list's order), drawn from the last selected to the first, so that the first ends on top. */
    method DrawSprites(v: VideoState, spritePalette: seq<int>)
      requires Buffers() && v.ly < SCREEN_HEIGHT && |spritePalette| == PALETTE_ENTRIES
      modifies rgb, oldBuffer
      ensures Abs() == SpritesDrawn(old(Abs()), v, spritePalette)
    {
      var nos, count := SelectSprites(v);
      var selected := nos[..count];
      ghost var f := Abs();
      WithOwnRow(f.rgb, v.ly);
      WithOwnRow(f.ids, v.ly);
      var i := count - 1;
      ghost var k := 0;
      while i >= 0
        invariant -1 <= i < count && k == count - 1 - i && bgPrio[..] == f.prio
        invariant var t := Sprites(v, spritePalette, RowOf(f.prio, v.ly), Row(RowOf(f.rgb, v.ly), RowOf(f.ids, v.ly)), selected, k);
                  rgb[..] == WithRow(f.rgb, v.ly, t.rgb) && oldBuffer[..] == WithRow(f.ids, v.ly, t.ids)
      {
        DrawSelected(v, spritePalette, selected, k, selected[i], f);
        i, k := i - 1, k + 1;
      }
      SpritesRowDone(f, v, spritePalette, selected, rgb[..], oldBuffer[..], bgPrio[..]);
    }

    /** draw_sprite_row: the sprite palettes are refreshed, then the sprites drawn. */
    method DrawSpriteRow(v: VideoState)
      requires Valid() && v.ly < SCREEN_HEIGHT
      modifies this, renderedSprite, rgb, oldBuffer
      ensures Valid() && !spriteDirty && bgDirty == old(bgDirty)
      ensures frameDrawn == old(frameDrawn) && screensOutput == old(screensOutput)
      ensures renderedSprite[..] == if old(spriteDirty) then RenderedPalette(v.spritePaletteMemory) else old(renderedSprite[..])
      ensures Abs() == SpritesDrawn(old(Abs()), v, renderedSprite[..])
    {
      RefreshSpritePalettes(v.spritePaletteMemory);
      DrawSprites(v, renderedSprite[..]);
    }

    /** draw_tile_row: tile set from LCDC bit 4, the background palettes refreshed, the background drawn
      * from the map LCDC bit 3 selects, then the window from the map of bit 6 when bit 5 is set and
      * WY <= LY. */
    method DrawTileRow(v: VideoState)
      requires Valid() && v.ly < SCREEN_HEIGHT
      modifies this, renderedBg, rgb, oldBuffer, bgPrio
      ensures Valid() && !bgDirty && spriteDirty == old(spriteDirty)
      ensures frameDrawn == old(frameDrawn) && screensOutput == old(screensOutput)
      ensures renderedBg[..] == if old(bgDirty) then RenderedPalette(v.bgPaletteMemory) else old(renderedBg[..])
      ensures Abs() == TileRowDrawn(old(Abs()), v, renderedBg[..])
    {
      var tileMem := TileSet(v);
      RefreshBgPalettes(v.bgPaletteMemory);
      ghost var f := Abs();
      var bgMem := BgMap(v);
      DrawTileBgRow(v, tileMem, bgMem);
      ghost var b := Abs();
      assert b == BgDrawn(f, v, renderedBg[..], TileSet(v), BgMap(v));
      if WindowEnabled(v) {
        var winMem := WindowMap(v);
        DrawTileWindowRow(v, tileMem, winMem);
      }
    }

    /** draw_row: with the screen on (LCDC bit 7), tiles when the Color is in colour mode or LCDC bit 0 is
      * set, then sprites when LCDC bit 1 is set, each refreshing its palettes first; from line 143 on the
      * frame is handed to the screen and marked drawn, whether the screen is on or not. */
    method DrawRow(v: VideoState)
      requires Valid() && (Bit(v.lcdc, 7) == 1 ==> v.ly < SCREEN_HEIGHT)
      modifies this, renderedBg, renderedSprite, rgb, oldBuffer, bgPrio
      ensures Valid()
      ensures Abs() == RowDrawn(old(Abs()), v, renderedBg[..], renderedSprite[..])
      ensures bgDirty == (old(bgDirty) && !DrawsTiles(v)) && spriteDirty == (old(spriteDirty) && !DrawsSprites(v))
      ensures renderedBg[..] == if old(bgDirty) && DrawsTiles(v) then RenderedPalette(v.bgPaletteMemory) else old(renderedBg[..])
      ensures renderedSprite[..] == if old(spriteDirty) && DrawsSprites(v) then RenderedPalette(v.spritePaletteMemory) else old(renderedSprite[..])
      ensures frameDrawn == (old(frameDrawn) || v.ly >= 143)
      ensures screensOutput == old(screensOutput) + if v.ly >= 143 then 1 else 0
    {
      if Bit(v.lcdc, 7) == 1 {
        var renderSprites := Bit(v.lcdc, 1) == 1;
        var renderTiles := Bit(v.lcdc, 0) == 1;
        if (v.cgb && v.colour) || renderTiles {
          DrawTileRow(v);
        }
        if renderSprites {
          DrawSpriteRow(v);
        }
      }
      if v.ly >= 143 {
        screensOutput := screensOutput + 1;
        frameDrawn := true;
      }
    }

    /** A column off screen writes nothing. */
    lemma OffScreen(f: Frame, row: int, n: seq<Pixel>, lo: int, c: int, withPrio: bool)
      requires ValidFrame(f) && 0 <= row < SCREEN_HEIGHT && |n| == SCREEN_WIDTH && 0 <= lo <= SCREEN_WIDTH
      requires (c < 0 && lo == 0) || c >= SCREEN_WIDTH
      requires Reached(f, row, n, lo, c, withPrio)
      ensures Reached(f, row, n, lo, c + 1, withPrio)
    {
      assert Upto(lo, c) == Upto(lo, c + 1);
    }

    /** Nothing of a line is written yet while the loop stands left of the first column. */
    lemma StartLine(f: Frame, row: int, n: seq<Pixel>, lo: int, hi: int, withPrio: bool)
      requires ValidFrame(f) && 0 <= row < SCREEN_HEIGHT && |n| == SCREEN_WIDTH && 0 <= lo <= SCREEN_WIDTH
      requires hi <= lo && Abs() == f
      ensures Reached(f, row, n, lo, hi, withPrio)
    {
      assert Upto(lo, hi) == lo;
    }

    /** Past the last column the whole overlay has been written. */
    lemma EndLine(f: Frame, row: int, n: seq<Pixel>, lo: int, hi: int, withPrio: bool)
      requires ValidFrame(f) && 0 <= row < SCREEN_HEIGHT && |n| == SCREEN_WIDTH && 0 <= lo <= SCREEN_WIDTH
      requires hi >= SCREEN_WIDTH && Reached(f, row, n, lo, hi, withPrio)
      ensures rgb[..] == WithRow(f.rgb, row, Overlay(RowOf(f.rgb, row), Rgbs(n), lo, SCREEN_WIDTH))
      ensures oldBuffer[..] == WithRow(f.ids, row, Overlay(RowOf(f.ids, row), Ids(n), lo, SCREEN_WIDTH))
      ensures withPrio ==> bgPrio[..] == WithRow(f.prio, row, Overlay(RowOf(f.prio, row), Prios(n), lo, SCREEN_WIDTH))
      ensures !withPrio ==> bgPrio[..] == f.prio
    {
      PaintedOverlay(f.rgb, row, Rgbs(n), lo, SCREEN_WIDTH);
      PaintedOverlay(f.ids, row, Ids(n), lo, SCREEN_WIDTH);
      PaintedOverlay(f.prio, row, Prios(n), lo, SCREEN_WIDTH);
    }
  }

  /** The selection loop of draw_sprite_row: sprites from the priority list, kept when they cross line LY,
    * until the list is used up or 10 are kept. */
  method SelectSprites(v: VideoState) returns (nos: array<int>, count: int)
    ensures fresh(nos) && nos.Length == SPRITES_PER_LINE && 0 <= count <= SPRITES_PER_LINE
    ensures nos[..count] == Selected(v)
  {
    nos := new int[SPRITES_PER_LINE];
    count := 0;
    var idx := 0;
    while idx < |v.order| && count < SPRITES_PER_LINE
      invariant 0 <= idx <= |v.order| && 0 <= count <= SPRITES_PER_LINE
      invariant nos[..count] == Crossing(v, v.order[..idx])
    {
      var spriteNo := v.order[idx];
      CrossingNext(v, idx);
      idx := idx + 1;
      if Crosses(v, spriteNo) {
        nos[count] := spriteNo;
        count := count + 1;
      }
    }
    Selection(v, idx);
  }

  /** The priority rules of draw_sprite_row for pixel x of a sprite line, given the background priority and
    * the colour id already at its column: whether it is drawn, and in which colour. */
  method SpriteDecision(v: VideoState, spritePalette: seq<int>, s: SpriteLine, x: int, prioHere: int, idHere: int,
                        ghost prioRow: seq<int>, ghost r: Row) returns (draws: bool, colour: int)
    requires |spritePalette| == PALETTE_ENTRIES && 0 <= x < 8 && (s.paletteNo == 0 || s.paletteNo == 1) && 0 <= s.cgbPalette < 8
    requires ValidRow(r) && |prioRow| == SCREEN_WIDTH && 0 <= s.x + x < SCREEN_WIDTH
    requires prioHere == prioRow[s.x + x] && idHere == r.ids[s.x + x]
    ensures draws == SpriteDraws(v, prioRow, r, s, x)
    ensures draws ==> colour == SpriteColour(v, spritePalette, s, SpriteId(s, x))
  {
    var id := SpriteId(s, x);
    var finalId := Shade(if s.paletteNo == 1 then v.obp1 else v.obp0, id);
    draws, colour := false, 0;
    if Bit(s.attributes, 7) == 1 {
      if id != 0 && prioHere == 0 && idHere == 0 {
        draws := true;
        if !ColourMode(v) {
          colour := spritePalette[s.paletteNo * 4 + finalId];
        } else {
          colour := spritePalette[s.cgbPalette * 4 + id];
        }
      }
    } else {
      if id != 0 && (!v.cgb || prioHere == 0 || idHere == 0) {
        draws := true;
        if !ColourMode(v) {
          colour := SpriteShade(v.cgb, spritePalette, finalId, s.paletteNo);
        } else {
          colour := spritePalette[s.cgbPalette * 4 + id];
        }
      }
    }
  }

  /** The body of both palette refreshes: when dirty, entry i of the table becomes colour i of palette
    * memory. */
  method RefreshPalette(table: array<int>, data: seq<int>, dirty: bool)
    requires table.Length == PALETTE_ENTRIES && ValidPaletteMemory(data)
    modifies table
    ensures table[..] == if dirty then RenderedPalette(data) else old(table[..])
  {
    if dirty {
      var i := 0;
      while i < PALETTE_ENTRIES
        invariant 0 <= i <= PALETTE_ENTRIES
        invariant forall k :: 0 <= k < i ==> table[k] == RenderedPalette(data)[k]
      {
        var colour := data[i * 2] + data[i * 2 + 1] % 0x80 * 0x100;
        table[i] := ColourToRgb(colour);
        i := i + 1;
      }
      assert table[..] == RenderedPalette(data);
    }
  }
}
