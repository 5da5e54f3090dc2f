/** What the Game Boy renderer draws on one scanline, column by column: the background pixel at column c
  * is the tile-map pixel at ((c + SCX) mod 256, (LY + SCY) mod 256); the window pixel is the window-map
  * pixel at (c - WX + 7, LY - WY); a sprite pixel comes from the sprite's tile row at the line it
  * crosses. The registers, both video RAM banks, the sprite attribute table and the order in which the
  * sprite priority list yields sprites are inputs (a Video). */
module GbScanline {
  import opened GbPalette

  const SCREEN_WIDTH := 160
  const SCREEN_HEIGHT := 144
  const VRAM_START := 0x8000
  const VRAM_BANK_SIZE := 0x2000
  const TILE_SET_0_START := 0x8000
  const TILE_SET_1_START := 0x8800
  const BG_MAP_DATA0_START := 0x9800
  const BG_MAP_DATA1_START := 0x9C00
  const OAM_SIZE := 0xA0
  const MAX_SPRITES := 40
  const SPRITES_PER_LINE := 10

  function Pow2(k: nat): (p: nat)
    ensures p >= 1
  {
    if k == 0 then 1 else 2 * Pow2(k - 1)
  }

  /** Bit k of b. */
  function Bit(b: int, k: nat): (r: int)
    ensures r == 0 || r == 1
  {
    b / Pow2(k) % 2
  }

  /** Entry id (0..3) of a monochrome palette register: bits 2id and 2id+1. */
  function Shade(p: int, id: int): (r: int)
    requires 0 <= id < 4
    ensures 0 <= r < 4
  {
    p / Pow2(2 * id) % 4
  }

  /** The renderer's inputs: whether the machine is a Color and runs in colour mode (booting or a Color
    * cartridge), the LCD registers, the video RAM's two banks, the sprite attribute table, the sprite
    * numbers in the order the priority list yields them, and both palette memories of the Color. */
  datatype Video = Video(cgb: bool, colour: bool, lcdc: int, ly: int, scy: int, scx: int, wy: int, wx: int,
                         bgp: int, obp0: int, obp1: int, vram: seq<int>, oam: seq<int>, order: seq<int>,
                         bgPaletteMemory: seq<int>, spritePaletteMemory: seq<int>)

  predicate ValidVideo(v: Video)
  {
    IsByte(v.lcdc) && IsByte(v.ly) && IsByte(v.scy) && IsByte(v.scx) && IsByte(v.wy) && IsByte(v.wx)
    && IsByte(v.bgp) && IsByte(v.obp0) && IsByte(v.obp1)
    && |v.vram| == 2 * VRAM_BANK_SIZE && (forall i :: 0 <= i < |v.vram| ==> IsByte(v.vram[i]))
    && |v.oam| == OAM_SIZE && (forall i :: 0 <= i < |v.oam| ==> IsByte(v.oam[i]))
    && (forall i :: 0 <= i < |v.order| ==> 0 <= v.order[i] < MAX_SPRITES)
    && ValidPaletteMemory(v.bgPaletteMemory) && ValidPaletteMemory(v.spritePaletteMemory)
  }

  /** The renderer's inputs with every register a byte, both banks of video RAM and the sprite attribute
    * table at their sizes, and palette memory valid. */
  type VideoState = v: Video | ValidVideo(v)
    witness Video(false, false, 0, 0, 0, 0, 0, 0, 0, 0, 0, seq(2 * VRAM_BANK_SIZE, _ => 0), seq(OAM_SIZE, _ => 0), [],
                  seq(2 * PALETTE_ENTRIES, _ => 0), seq(2 * PALETTE_ENTRIES, _ => 0))

  /** The pixels use the Color's own palettes: a Color booting or running a Color cartridge. Otherwise the
    * monochrome palettes apply (on a Color through the palettes the boot code set up). */
  predicate ColourMode(v: Video)
  {
    v.cgb && v.colour
  }

  /** get_vram: a byte of video RAM bank 0 or 1. */
  function Vram(v: VideoState, addr: int, bank: int): (b: int)
    requires VRAM_START <= addr < VRAM_START + VRAM_BANK_SIZE && 0 <= bank <= 1
    ensures IsByte(b)
  {
    v.vram[bank * 0x2000 + addr - VRAM_START]
  }

  /** The offset a tile number selects in tile set 1: (n & 127) - (n & 128) + 128. */
  function SignedTile(n: int): int
  {
    n % 128 - n / 128 % 2 * 128 + 128
  }

  /** Tile set 1 reads the number as signed and puts tile 0 at 0x9000: numbers 0..127 lie at 0x9000..0x97F0
    * and 128..255 at 0x8800..0x8FF0. */
  lemma SignedTileAddress(n: int)
    requires IsByte(n)
    ensures TILE_SET_1_START + SignedTile(n) * 16 == 0x9000 + (if n < 128 then n else n - 256) * 16
  {
  }

  /** The address of tile n's first byte in the tile set at tileMem. */
  function TileAddress(tileMem: int, n: int): (a: int)
    requires tileMem == TILE_SET_0_START || tileMem == TILE_SET_1_START
    requires IsByte(n)
    ensures VRAM_START <= a && a + 15 < BG_MAP_DATA0_START && a % 16 == 0
  {
    tileMem + (if tileMem == TILE_SET_1_START then SignedTile(n) else n) * 16
  }

  predicate IsTileSet(tileMem: int)
  {
    tileMem == TILE_SET_0_START || tileMem == TILE_SET_1_START
  }

  predicate IsTileMap(mapMem: int)
  {
    mapMem == BG_MAP_DATA0_START || mapMem == BG_MAP_DATA1_START
  }

  /** One tile as a row renderer uses it: its map attributes (read from bank 1 on a Color), the colour
    * palette and priority they give in colour mode, and the two bytes of the tile line. */
  datatype Tile = Tile(attributes: int, paletteNo: int, prio: bool, byte0: int, byte1: int)

  /** The tile at map address mapAddr and its line `line`, turned upside down by attribute bit 6 when
    * `flips` is set (the background) and not otherwise (the window). */
  function FetchTile(v: VideoState, tileMem: int, mapAddr: int, line: int, flips: bool): (t: Tile)
    requires IsTileSet(tileMem) && BG_MAP_DATA0_START <= mapAddr < VRAM_START + VRAM_BANK_SIZE
    requires 0 <= line < 8
    ensures 0 <= t.paletteNo < 8 && IsByte(t.attributes)
  {
    var tileNo := Vram(v, mapAddr, 0);
    var attributes := if v.cgb then Vram(v, mapAddr, 1) else 0;
    var bank := if ColourMode(v) && Bit(attributes, 3) == 1 then 1 else 0;
    var loc := TileAddress(tileMem, tileNo);
    var offset := (if flips && Bit(attributes, 6) == 1 then 7 - line else line) * 2;
    Tile(attributes, if ColourMode(v) then attributes % 8 else 0, ColourMode(v) && Bit(attributes, 7) == 1,
         Vram(v, loc + offset, bank), Vram(v, loc + offset + 1, bank))
  }

  /** What a row renderer writes for one column: the colour, the colour id kept for sprite priority, and
    * (in colour mode only) the background-priority flag. */
  datatype Pixel = Pixel(rgb: int, id: int, prio: int)

  /** Pixel j (0 = leftmost) of a fetched tile line, mirrored by attribute bit 5. */
  function TilePixel(v: VideoState, bgPalette: seq<int>, t: Tile, j: int): (p: Pixel)
    requires |bgPalette| == PALETTE_ENTRIES && 0 <= j < 8 && 0 <= t.paletteNo < 8
    ensures 0 <= p.id < 4 && (p.prio == 0 || p.prio == 1)
    ensures var pos := if Bit(t.attributes, 5) == 1 then j else 7 - j; p.id == Bit(t.byte1, pos) * 2 + Bit(t.byte0, pos)
    ensures ColourMode(v) ==> p.rgb == bgPalette[t.paletteNo * 4 + p.id] && (p.prio == 1 <==> t.prio)
    ensures !ColourMode(v) ==> p.rgb == BgShade(v.cgb, bgPalette, Shade(v.bgp, p.id))
  {
    var pos := if Bit(t.attributes, 5) == 1 then j else 7 - j;
    var id := Bit(t.byte1, pos) * 2 + Bit(t.byte0, pos);
    if ColourMode(v) then Pixel(bgPalette[t.paletteNo * 4 + id], id, if t.prio then 1 else 0)
    else Pixel(BgShade(v.cgb, bgPalette, Shade(v.bgp, id)), id, 0)
  }

  /** The background tile at map column col (0..31) of line LY's map row ((LY + SCY) mod 256) / 8, at line
    * (LY + SCY) mod 8 of the tile. */
  function BgTile(v: VideoState, tileMem: int, bgMem: int, col: int): Tile
    requires IsTileSet(tileMem) && IsTileMap(bgMem) && 0 <= col < 32
  {
    var y := (v.ly + v.scy) % 256;
    FetchTile(v, tileMem, bgMem + y / 8 * 32 + col, y % 8, true)
  }

  /** The background pixel at column c: pixel x mod 8 of tile column x / 8, for x = (c + SCX) mod 256. */
  function BgPixel(v: VideoState, bgPalette: seq<int>, tileMem: int, bgMem: int, c: int): Pixel
    requires |bgPalette| == PALETTE_ENTRIES && IsTileSet(tileMem) && IsTileMap(bgMem)
    requires 0 <= c < SCREEN_WIDTH
  {
    var x := (c + v.scx) % 256;
    TilePixel(v, bgPalette, BgTile(v, tileMem, bgMem, x / 8), x % 8)
  }

  /** The window's left edge on screen: WX - 7, with WX below 7 taken as 7. */
  function WindowX(v: Video): (x: int)
    ensures 0 <= x && (IsByte(v.wx) ==> x <= 248)
  {
    if v.wx < 7 then 0 else v.wx - 7
  }

  /** The window appears on this line: its edge is on screen, WY is a visible line, and LY has reached WY. */
  predicate WindowOnLine(v: Video)
  {
    !(WindowX(v) > 159 || v.wy > 143 || v.ly < v.wy)
  }

  /** The window tile at window-map column col of window line LY - WY, at line (LY - WY) mod 8 of the
    * tile. Window tiles are never turned upside down. */
  function WindowTile(v: VideoState, tileMem: int, winMem: int, col: int): Tile
    requires IsTileSet(tileMem) && IsTileMap(winMem)
    requires WindowOnLine(v) && v.ly < SCREEN_HEIGHT && 0 <= col < 32
  {
    var y := v.ly - v.wy;
    FetchTile(v, tileMem, winMem + y / 8 * 32 + col, y % 8, false)
  }

  /** The window pixel at column c (at or right of the window's edge): window-map pixel (c - edge, LY - WY). */
  function WindowPixel(v: VideoState, bgPalette: seq<int>, tileMem: int, winMem: int, c: int): Pixel
    requires |bgPalette| == PALETTE_ENTRIES && IsTileSet(tileMem) && IsTileMap(winMem)
    requires WindowOnLine(v) && v.ly < SCREEN_HEIGHT && WindowX(v) <= c < SCREEN_WIDTH
  {
    var x := c - WindowX(v);
    TilePixel(v, bgPalette, WindowTile(v, tileMem, winMem, x / 8), x % 8)
  }

  /** Sprites are 8 by 16 when LCDC bit 2 is set, 8 by 8 otherwise. */
  function SpriteHeight(v: VideoState): (h: int)
    ensures h == 8 || h == 16
  {
    if Bit(v.lcdc, 2) == 1 then 16 else 8
  }

  function SpriteY(v: VideoState, n: int): int
    requires 0 <= n < MAX_SPRITES
  {
    v.oam[n * 4] - 16
  }

  function SpriteX(v: VideoState, n: int): int
    requires 0 <= n < MAX_SPRITES
  {
    v.oam[n * 4 + 1] - 8
  }

  /** Sprite n crosses line LY and does not start right of the screen. */
  predicate Crosses(v: VideoState, n: int)
    requires 0 <= n < MAX_SPRITES
  {
    !(SpriteY(v, n) > v.ly || v.ly >= SpriteY(v, n) + SpriteHeight(v) || SpriteX(v, n) >= SCREEN_WIDTH)
  }

  /** The sprites of q that cross the line, in q's order. */
  function Crossing(v: VideoState, q: seq<int>): (r: seq<int>)
    requires forall i :: 0 <= i < |q| ==> 0 <= q[i] < MAX_SPRITES
    ensures |r| <= |q| && forall i :: 0 <= i < |r| ==> 0 <= r[i] < MAX_SPRITES && Crosses(v, r[i])
  {
    if |q| == 0 then []
    else
      var n := q[|q| - 1];
      Crossing(v, q[..|q| - 1]) + if Crosses(v, n) then [n] else []
  }

  /** A sprite is in Crossing exactly when it is in q and crosses the line. */
  lemma {:induction false} CrossingMembers(v: VideoState, q: seq<int>, n: int)
    requires forall i :: 0 <= i < |q| ==> 0 <= q[i] < MAX_SPRITES
    ensures n in Crossing(v, q) <==> n in q && 0 <= n < MAX_SPRITES && Crosses(v, n)
  {
    if |q| > 0 {
      CrossingMembers(v, q[..|q| - 1], n);
      assert q == q[..|q| - 1] + [q[|q| - 1]];
    }
  }

  /** The crossing sprites of a prefix of q are a prefix of those of q. */
  lemma {:induction false} CrossingPrefix(v: VideoState, q: seq<int>, k: int)
    requires forall i :: 0 <= i < |q| ==> 0 <= q[i] < MAX_SPRITES
    requires 0 <= k <= |q|
    ensures var p := Crossing(v, q[..k]); |p| <= |Crossing(v, q)| && Crossing(v, q)[..|p|] == p
    decreases |q| - k
  {
    if k < |q| {
      CrossingPrefix(v, q[..|q| - 1], k);
      assert q[..|q| - 1][..k] == q[..k];
    } else {
      assert q[..k] == q;
    }
  }

  /** The sprites drawn on the line: the first 10 crossing it, in the priority list's order. */
  function Selected(v: VideoState): (s: seq<int>)
    ensures |s| <= SPRITES_PER_LINE && |s| <= |Crossing(v, v.order)| && s == Crossing(v, v.order)[..|s|]
    ensures |s| < SPRITES_PER_LINE ==> s == Crossing(v, v.order)
  {
    var c := Crossing(v, v.order);
    if |c| <= SPRITES_PER_LINE then c else c[..SPRITES_PER_LINE]
  }

  /** The selection loop stops with the crossing sprites of a prefix of the list: when the list is used up
    * or 10 have been found, those are the selected sprites. */
  lemma Selection(v: VideoState, k: int)
    requires 0 <= k <= |v.order| && |Crossing(v, v.order[..k])| <= SPRITES_PER_LINE
    requires k == |v.order| || |Crossing(v, v.order[..k])| == SPRITES_PER_LINE
    ensures Crossing(v, v.order[..k]) == Selected(v)
  {
    CrossingPrefix(v, v.order, k);
    var c, p := Crossing(v, v.order), Crossing(v, v.order[..k]);
    if k == |v.order| {
      assert v.order[..k] == v.order;
    } else if |c| == SPRITES_PER_LINE {
      assert c[..|p|] == c;
    }
  }

  /** One more sprite from the list: the crossing sprites grow by it exactly when it crosses the line. */
  lemma CrossingNext(v: VideoState, k: int)
    requires 0 <= k < |v.order|
    ensures Crossing(v, v.order[..k + 1]) == Crossing(v, v.order[..k]) + if Crosses(v, v.order[k]) then [v.order[k]] else []
  {
    assert v.order[..k + 1][..k] == v.order[..k];
  }

  /** The line of a crossing sprite that is drawn, and its tile line: the tile number's low bit is cleared
    * for 8 by 16 sprites, and attribute bit 6 turns the sprite upside down. In colour mode the colour
    * palette is attribute bits 0-2 and the bank bit 3; on a Color in monochrome mode the palette is
    * attribute bit 4. */
  datatype SpriteLine = SpriteLine(x: int, attributes: int, paletteNo: int, cgbPalette: int, high: int, low: int)

  function FetchSprite(v: VideoState, n: int): (s: SpriteLine)
    requires 0 <= n < MAX_SPRITES && Crosses(v, n)
    ensures IsByte(s.attributes) && (s.paletteNo == 0 || s.paletteNo == 1) && 0 <= s.cgbPalette < 8
    ensures s.x == SpriteX(v, n) && s.x < SCREEN_WIDTH
  {
    var h := SpriteHeight(v);
    var y := SpriteY(v, n);
    var tileNo := if h == 16 then v.oam[n * 4 + 2] - v.oam[n * 4 + 2] % 2 else v.oam[n * 4 + 2];
    var attributes := v.oam[n * 4 + 3];
    var cgbPalette := if v.cgb then (if v.colour then attributes % 8 else Bit(attributes, 4)) else 0;
    var bank := if v.cgb && v.colour && Bit(attributes, 3) == 1 then 1 else 0;
    var loc := TILE_SET_0_START + tileNo * 16;
    var line := if Bit(attributes, 6) == 0 then v.ly - y else h + y - v.ly - 1;
    SpriteLine(SpriteX(v, n), attributes, Bit(attributes, 4), cgbPalette,
               Vram(v, loc + 2 * line, bank), Vram(v, loc + 2 * line + 1, bank))
  }

  /** The colour ids and colours of line LY. */
  datatype Row = Row(rgb: seq<int>, ids: seq<int>)

  predicate ValidRow(r: Row)
  {
    |r.rgb| == SCREEN_WIDTH && |r.ids| == SCREEN_WIDTH
  }

  /** The colour id of pixel x (0 = leftmost) of a sprite line, mirrored by attribute bit 5. */
  function SpriteId(s: SpriteLine, x: int): (id: int)
    requires 0 <= x < 8
    ensures 0 <= id < 4
  {
    var pos := if Bit(s.attributes, 5) == 1 then x else 7 - x;
    Bit(s.low, pos) * 2 + Bit(s.high, pos)
  }

  /** The colour a sprite pixel is drawn in: in colour mode from its colour palette; otherwise through OBP0
    * or OBP1, looked up in the rendered sprite table when it is behind the background and as a monochrome
    * shade otherwise. */
  function SpriteColour(v: VideoState, spritePalette: seq<int>, s: SpriteLine, id: int): int
    requires |spritePalette| == PALETTE_ENTRIES && 0 <= id < 4
    requires (s.paletteNo == 0 || s.paletteNo == 1) && 0 <= s.cgbPalette < 8
  {
    var shade := Shade(if s.paletteNo == 1 then v.obp1 else v.obp0, id);
    if ColourMode(v) then spritePalette[s.cgbPalette * 4 + id]
    else if Bit(s.attributes, 7) == 1 then spritePalette[s.paletteNo * 4 + shade]
    else SpriteShade(v.cgb, spritePalette, shade, s.paletteNo)
  }

  /** Whether sprite pixel x is drawn over what the row holds: never colour 0; behind the background
    * (attribute bit 7) only where the background has priority 0 and colour id 0; in front, off a Color
    * always and on a Color unless the background has both priority and a non-zero id. */
  predicate SpriteDraws(v: VideoState, prioRow: seq<int>, r: Row, s: SpriteLine, x: int)
    requires ValidRow(r) && |prioRow| == SCREEN_WIDTH && 0 <= x < 8 && 0 <= s.x + x < SCREEN_WIDTH
  {
    var col := s.x + x;
    SpriteId(s, x) != 0
    && if Bit(s.attributes, 7) == 1 then prioRow[col] == 0 && r.ids[col] == 0
       else !v.cgb || prioRow[col] == 0 || r.ids[col] == 0
  }

  /** The row after pixel x of a sprite line. */
  function SpritePixel(v: VideoState, spritePalette: seq<int>, prioRow: seq<int>, r: Row, s: SpriteLine, x: int): (t: Row)
    requires ValidRow(r) && |prioRow| == SCREEN_WIDTH && |spritePalette| == PALETTE_ENTRIES && 0 <= x < 8
    requires (s.paletteNo == 0 || s.paletteNo == 1) && 0 <= s.cgbPalette < 8
    ensures ValidRow(t)
  {
    var col := s.x + x;
    var draws := 0 <= col < SCREEN_WIDTH && SpriteDraws(v, prioRow, r, s, x);
    Row(if draws then r.rgb[col := SpriteColour(v, spritePalette, s, SpriteId(s, x))] else r.rgb,
        if draws then r.ids[col := SpriteId(s, x)] else r.ids)
  }

  /** A sprite pixel changes only its own column, and only to the pixel's colour and id; colour id 0 and a
    * pixel behind a non-zero background id are never drawn. */
  lemma SpritePixelRule(v: VideoState, spritePalette: seq<int>, prioRow: seq<int>, r: Row, s: SpriteLine, x: int)
    requires ValidRow(r) && |prioRow| == SCREEN_WIDTH && |spritePalette| == PALETTE_ENTRIES && 0 <= x < 8
    requires (s.paletteNo == 0 || s.paletteNo == 1) && 0 <= s.cgbPalette < 8
    ensures var t := SpritePixel(v, spritePalette, prioRow, r, s, x);
            (forall c :: 0 <= c < SCREEN_WIDTH && c != s.x + x ==> t.rgb[c] == r.rgb[c] && t.ids[c] == r.ids[c])
            && (SpriteId(s, x) == 0 ==> t == r)
            && (Bit(s.attributes, 7) == 1 && 0 <= s.x + x < SCREEN_WIDTH && r.ids[s.x + x] != 0 ==> t == r)
            && (0 <= s.x + x < SCREEN_WIDTH && t != r ==>
                  t.ids[s.x + x] == SpriteId(s, x) != 0 && t.rgb[s.x + x] == SpriteColour(v, spritePalette, s, SpriteId(s, x)))
  {
  }

  /** The row after pixels 0..x-1 of a sprite line. */
  function SpritePixels(v: VideoState, spritePalette: seq<int>, prioRow: seq<int>, r: Row, s: SpriteLine, x: int): (t: Row)
    requires ValidRow(r) && |prioRow| == SCREEN_WIDTH && |spritePalette| == PALETTE_ENTRIES && 0 <= x <= 8
    requires (s.paletteNo == 0 || s.paletteNo == 1) && 0 <= s.cgbPalette < 8
    ensures ValidRow(t)
  {
    if x == 0 then r else SpritePixel(v, spritePalette, prioRow, SpritePixels(v, spritePalette, prioRow, r, s, x - 1), s, x - 1)
  }

  /** A sprite line writes only the columns it covers, 8 from its x position. */
  lemma {:induction false} SpritePixelsFrame(v: VideoState, spritePalette: seq<int>, prioRow: seq<int>, r: Row, s: SpriteLine, x: int)
    requires ValidRow(r) && |prioRow| == SCREEN_WIDTH && |spritePalette| == PALETTE_ENTRIES && 0 <= x <= 8
    requires (s.paletteNo == 0 || s.paletteNo == 1) && 0 <= s.cgbPalette < 8
    ensures var t := SpritePixels(v, spritePalette, prioRow, r, s, x);
            forall c :: 0 <= c < SCREEN_WIDTH && !(s.x <= c < s.x + x) ==> t.rgb[c] == r.rgb[c] && t.ids[c] == r.ids[c]
  {
    if x > 0 {
      SpritePixelsFrame(v, spritePalette, prioRow, r, s, x - 1);
      SpritePixelRule(v, spritePalette, prioRow, SpritePixels(v, spritePalette, prioRow, r, s, x - 1), s, x - 1);
    }
  }

  /** The row after the last k of the selected sprites, drawn from the last selected towards the first, so
    * that the first selected is drawn last and ends on top. */
  function Sprites(v: VideoState, spritePalette: seq<int>, prioRow: seq<int>, r: Row, sel: seq<int>, k: int): (t: Row)
    requires ValidRow(r) && |prioRow| == SCREEN_WIDTH && |spritePalette| == PALETTE_ENTRIES
    requires forall i :: 0 <= i < |sel| ==> 0 <= sel[i] < MAX_SPRITES && Crosses(v, sel[i])
    requires 0 <= k <= |sel|
    ensures ValidRow(t)
  {
    if k == 0 then r
    else SpritePixels(v, spritePalette, prioRow, Sprites(v, spritePalette, prioRow, r, sel, k - 1),
                      FetchSprite(v, sel[|sel| - k]), 8)
  }

  /** One more sprite, taken from the end of the selection towards its start. */
  lemma SpritesNext(v: VideoState, spritePalette: seq<int>, prioRow: seq<int>, r: Row, sel: seq<int>, k: int)
    requires ValidRow(r) && |prioRow| == SCREEN_WIDTH && |spritePalette| == PALETTE_ENTRIES
    requires forall i :: 0 <= i < |sel| ==> 0 <= sel[i] < MAX_SPRITES && Crosses(v, sel[i])
    requires 0 <= k < |sel|
    ensures Sprites(v, spritePalette, prioRow, r, sel, k + 1)
            == SpritePixels(v, spritePalette, prioRow, Sprites(v, spritePalette, prioRow, r, sel, k), FetchSprite(v, sel[|sel| - k - 1]), 8)
  {
  }

  /** Sprites leave every column that no selected sprite covers as it was. */
  lemma {:induction false} SpritesFrame(v: VideoState, spritePalette: seq<int>, prioRow: seq<int>, r: Row, sel: seq<int>, k: int, c: int)
    requires ValidRow(r) && |prioRow| == SCREEN_WIDTH && |spritePalette| == PALETTE_ENTRIES
    requires forall i :: 0 <= i < |sel| ==> 0 <= sel[i] < MAX_SPRITES && Crosses(v, sel[i])
    requires 0 <= k <= |sel| && 0 <= c < SCREEN_WIDTH
    requires forall i :: |sel| - k <= i < |sel| ==> !(SpriteX(v, sel[i]) <= c < SpriteX(v, sel[i]) + 8)
    ensures Sprites(v, spritePalette, prioRow, r, sel, k).rgb[c] == r.rgb[c]
    ensures Sprites(v, spritePalette, prioRow, r, sel, k).ids[c] == r.ids[c]
  {
    if k > 0 {
      SpritesFrame(v, spritePalette, prioRow, r, sel, k - 1, c);
      var n := sel[|sel| - k];
      SpritePixelsFrame(v, spritePalette, prioRow, Sprites(v, spritePalette, prioRow, r, sel, k - 1), FetchSprite(v, n), 8);
    }
  }
}
