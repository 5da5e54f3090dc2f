/** Colour conversion of the Game Boy renderer: a Game Boy Color colour is three 5-bit channels in a 16-bit
  * word (red in bits 0-4, green in 5-9, blue in 10-14), shown as 32-bit ARGB; a monochrome Game Boy's four
  * shades are fixed colours; the Color's palette memory holds 32 colours as little-endian byte pairs. */
module GbPalette {

  /** The four monochrome shades, lightest first, as Game Boy Color colours. */
  const DMG_SHADES: seq<int> := [0x7FFF, 0x56B5, 0x294A, 0x0000]

  /** Colours in one rendered palette table: 8 palettes of 4 colours. */
  const PALETTE_ENTRIES := 0x20

  predicate IsByte(b: int)
  {
    0 <= b < 0x100
  }

  /** A 5-bit channel scaled to 8 bits, truncating: 0 stays 0 and 31 becomes 255. */
  function Expand(c: int): (r: int)
    requires 0 <= c < 32
    ensures 0 <= r < 0x100 && (c == 0 ==> r == 0) && (c == 31 ==> r == 0xFF)
  {
    c * 255 / 31
  }

  /** A brighter channel never scales to a darker byte. */
  lemma ExpandMonotone(c: int, d: int)
    requires 0 <= c <= d < 32
    ensures Expand(c) <= Expand(d)
  {
    assert c * 255 <= d * 255;
  }

  /** cgb_color_to_rgb: an opaque colour, with the three scaled channels packed below the alpha byte. */
  function ColourToRgb(c: int): (r: int)
    requires 0 <= c < 0x10000
    ensures 0xFF000000 <= r <= 0xFFFFFFFF
  {
    var red, green, blue := Expand(c % 32), Expand(c / 32 % 32), Expand(c / 1024 % 32);
    0xFF000000 + red * 0x10000 + green * 0x100 + blue
  }

  /** Red is bits 16-23 of the result, green bits 8-15 and blue bits 0-7, each the scaled channel of the
    * colour; bit 15 of the colour is ignored. */
  lemma ColourChannels(c: int)
    requires 0 <= c < 0x10000
    ensures ColourToRgb(c) / 0x10000 % 0x100 == Expand(c % 32)
    ensures ColourToRgb(c) / 0x100 % 0x100 == Expand(c / 32 % 32)
    ensures ColourToRgb(c) % 0x100 == Expand(c / 1024 % 32)
    ensures ColourToRgb(c) == ColourToRgb(c % 0x8000)
  {
    Packed(Expand(c % 32), Expand(c / 32 % 32), Expand(c / 1024 % 32));
    HighBitIgnored(c);
  }

  /** Dropping bit 15 leaves the three 5-bit channels as they were. */
  lemma HighBitIgnored(c: int)
    requires 0 <= c < 0x10000
    ensures var d := c % 0x8000; c % 32 == d % 32 && c / 32 % 32 == d / 32 % 32 && c / 1024 % 32 == d / 1024 % 32
  {
    var d := c % 0x8000;
    if c >= 0x8000 {
      assert c == d + 0x8000;
      assert c / 32 == d / 32 + 1024;
      assert c / 1024 == d / 1024 + 32;
    }
  }

  /** Three bytes packed under an opaque alpha byte come back out of their positions. */
  lemma Packed(red: int, green: int, blue: int)
    requires IsByte(red) && IsByte(green) && IsByte(blue)
    ensures var r := 0xFF000000 + red * 0x10000 + green * 0x100 + blue;
            r / 0x10000 % 0x100 == red && r / 0x100 % 0x100 == green && r % 0x100 == blue
  {
    var r := 0xFF000000 + red * 0x10000 + green * 0x100 + blue;
    assert r / 0x10000 == 0xFF00 + red;
    assert r / 0x100 == 0xFF0000 + red * 0x100 + green;
  }

  /** A colour with the same value ch in all three channels is the grey Expand(ch) in all three bytes. */
  lemma Grey(ch: int)
    requires 0 <= ch < 32
    ensures ColourToRgb(ch * 0x421) == 0xFF000000 + Expand(ch) * 0x10101
  {
    var c := ch * 0x421;
    assert c == ch + ch * 32 + ch * 1024;
    assert c % 32 == ch && c / 32 % 32 == ch && c / 1024 % 32 == ch;
  }

  /** White is opaque white and black opaque black; the two greys are 0xAC and 0x52 in every channel. */
  lemma ColourExamples()
    ensures ColourToRgb(0x7FFF) == 0xFFFFFFFF && ColourToRgb(0x0000) == 0xFF000000
    ensures ColourToRgb(0x56B5) == 0xFFACACAC && ColourToRgb(0x294A) == 0xFF525252
  {
    Grey(31);
    Grey(21);
    assert Expand(21) == 0xAC;
    Grey(10);
    assert Expand(10) == 0x52;
    Grey(0);
  }

  /** The monochrome shades as shown: opaque greys (red, green and blue equal), each darker than the one
    * before. */
  const SHADES_SHOWN: seq<int> := [0xFFFFFFFF, 0xFFACACAC, 0xFF525252, 0xFF000000]

  lemma ShadesShown(i: int)
    requires 0 <= i < 4
    ensures ColourToRgb(DMG_SHADES[i]) == SHADES_SHOWN[i]
    ensures forall j :: i < j < 4 ==> SHADES_SHOWN[j] < SHADES_SHOWN[i]
  {
    ColourExamples();
  }

  /** Colour i of a palette memory: byte 2i low, byte 2i+1 high with its top bit masked off. */
  function PaletteColour(data: seq<int>, i: int): (c: int)
    requires |data| == 2 * PALETTE_ENTRIES && 0 <= i < PALETTE_ENTRIES
    requires IsByte(data[2 * i]) && IsByte(data[2 * i + 1])
    ensures 0 <= c < 0x8000 && c % 0x100 == data[2 * i] && c / 0x100 == data[2 * i + 1] % 0x80
  {
    data[2 * i] + data[2 * i + 1] % 0x80 * 0x100
  }

  predicate ValidPaletteMemory(data: seq<int>)
  {
    |data| == 2 * PALETTE_ENTRIES && forall i :: 0 <= i < |data| ==> IsByte(data[i])
  }

  /** The rendered table a refresh builds from palette memory. */
  function RenderedPalette(data: seq<int>): (t: seq<int>)
    requires ValidPaletteMemory(data)
    ensures |t| == PALETTE_ENTRIES
  {
    seq(PALETTE_ENTRIES, i requires 0 <= i < PALETTE_ENTRIES => ColourToRgb(PaletteColour(data, i)))
  }

  /** Every rendered entry is opaque and depends only on its own two bytes. */
  lemma {:induction false} RenderedEntries(data: seq<int>, other: seq<int>, i: int)
    requires ValidPaletteMemory(data) && ValidPaletteMemory(other) && 0 <= i < PALETTE_ENTRIES
    ensures RenderedPalette(data)[i] / 0x1000000 == 0xFF
    ensures data[2 * i] == other[2 * i] && data[2 * i + 1] % 0x80 == other[2 * i + 1] % 0x80
            ==> RenderedPalette(data)[i] == RenderedPalette(other)[i]
  {
    var c := PaletteColour(data, i);
    var d := PaletteColour(other, i);
    if data[2 * i] == other[2 * i] && data[2 * i + 1] % 0x80 == other[2 * i + 1] % 0x80 {
      assert c == d;
    }
  }

  /** get_dmg_bg_col: on a Color the rendered background colour c; otherwise the colour shade c is shown as
    * (see ShadesShown), and 0 for an id outside 0..3. */
  function BgShade(cgb: bool, rendered: seq<int>, c: int): (r: int)
    requires cgb ==> 0 <= c < |rendered|
    ensures cgb ==> r == rendered[c]
    ensures !cgb && 0 <= c < 4 ==> r == SHADES_SHOWN[c]
    ensures !cgb && !(0 <= c < 4) ==> r == 0
  {
    if cgb then rendered[c]
    else if 0 <= c < 4 then SHADES_SHOWN[c]
    else 0
  }

  /** get_dmg_sprite_col: on a Color entry c of sprite palette paletteNo; otherwise the colour shade c is
    * shown as, and opaque black (the conversion of colour 0) for an id outside 0..3. */
  function SpriteShade(cgb: bool, rendered: seq<int>, c: int, paletteNo: int): (r: int)
    requires cgb ==> 0 <= paletteNo * 4 + c < |rendered|
    ensures cgb ==> r == rendered[paletteNo * 4 + c]
    ensures !cgb && 0 <= c < 4 ==> r == SHADES_SHOWN[c]
    ensures !cgb && !(0 <= c < 4) ==> r == 0xFF000000
  {
    if cgb then rendered[paletteNo * 4 + c]
    else if 0 <= c < 4 then SHADES_SHOWN[c]
    else 0xFF000000
  }

  /** Off a Color both lookups show shade c as the conversion of the monochrome colour DMG_SHADES[c], and
    * the sprite lookup's fallback is the conversion of colour 0. */
  lemma ShadesConverted(c: int, paletteNo: int, rendered: seq<int>)
    ensures 0 <= c < 4 ==> BgShade(false, rendered, c) == ColourToRgb(DMG_SHADES[c])
    ensures 0 <= c < 4 ==> SpriteShade(false, rendered, c, paletteNo) == ColourToRgb(DMG_SHADES[c])
    ensures !(0 <= c < 4) ==> SpriteShade(false, rendered, c, paletteNo) == ColourToRgb(0)
  {
    ColourExamples();
    if 0 <= c < 4 {
      ShadesShown(c);
    }
  }

  /** Off a Color the two lookups agree on the four shades and differ only outside them. */
  lemma ShadeLookupsAgree(c: int, paletteNo: int, rendered: seq<int>)
    ensures 0 <= c < 4 ==> BgShade(false, rendered, c) == SpriteShade(false, rendered, c, paletteNo)
    ensures !(0 <= c < 4) ==> BgShade(false, rendered, c) != SpriteShade(false, rendered, c, paletteNo)
  {
  }
}
