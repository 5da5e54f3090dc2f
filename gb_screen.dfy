/** The emulator's EFI screen output: the 160x144 Game Boy frame is shown centred on the GOP screen, either
  * as is (scale 1) or enlarged by an integer scale into an output buffer by pixel replication. The GOP
  * block transfers are returned as values instead of being performed. */
module GbScreen {

  const GB_RES_X := 160
  const GB_RES_Y := 144
  const FRAME_PIXELS := GB_RES_X * GB_RES_Y
  const U32_RANGE := 0x1_0000_0000
  /** Resolutions and scales below this bound keep every 32-bit product in draw_screen from wrapping. */
  const SCREEN_LIMIT := 0x1_0000

  /** A GOP block transfer: the screen saved at start-up put back, or a frame shown at an offset. */
  datatype Blit = RestoreScreen | Show(frame: seq<int>, x: int, y: int, width: int, height: int)

  /** An unsigned 32-bit subtraction. */
  function Minus32(a: int, b: int): (r: int)
    ensures 0 <= r < U32_RANGE
    ensures 0 <= b <= a < U32_RANGE ==> r == a - b
  {
    (a - b) % U32_RANGE
  }

  /** The offset that centres a span of `size` pixels on a screen of `res`, computed in unsigned 32 bits. */
  function Centre(res: int, size: int): (r: int)
    ensures 0 <= size <= res < U32_RANGE ==> 2 * r + size == res || 2 * r + size + 1 == res
  {
    Minus32(res, size) / 2
  }

  /** The scale asked for fits the screen. */
  predicate Fits(scale: int, xRes: int, yRes: int)
  {
    !(scale < 1 || GB_RES_X * scale > xRes || GB_RES_Y * scale > yRes)
  }

  function Div(a: nat, b: nat): (q: nat)
    requires b >= 1
  {
    a / b
  }

  function Mod(a: nat, b: nat): (m: nat)
    requires b >= 1
    ensures m < b
  {
    a % b
  }

  lemma DivMod(a: nat, b: nat)
    requires b >= 1
    ensures a == Div(a, b) * b + Mod(a, b)
  {
  }

  lemma MulLe(a: nat, b: nat, c: nat)
    ensures a <= b ==> a * c <= b * c
  {
  }

  lemma MulSucc(a: nat, c: nat)
    ensures (a + 1) * c == a * c + c
  {
  }

  lemma DivBelow(k: nat, w: nat, h: nat)
    requires w >= 1 && k < h * w
    ensures Div(k, w) < h
  {
    DivMod(k, w);
    MulLe(h, Div(k, w), w);
  }

  /** Division undoes a row-major position. */
  lemma RowMajor(row: nat, col: nat, w: nat)
    requires col < w
    ensures Div(row * w + col, w) == row && Mod(row * w + col, w) == col
  {
    var k := row * w + col;
    var q := Div(k, w);
    DivMod(k, w);
    MulLe(row + 1, q, w);
    MulSucc(row, w);
    MulLe(q + 1, row, w);
    MulSucc(q, w);
  }

  /** The index of the frame pixel that enlarges onto output index k, at scale s: output row k / (160·s)
    * and column k % (160·s) come from frame row and column at that position divided by s. */
  function Source(k: nat, s: nat): (r: nat)
    requires s >= 1
    ensures k < FRAME_PIXELS * s * s ==> r < FRAME_PIXELS
  {
    var w := GB_RES_X * s;
    var row, col := Div(Div(k, w), s), Div(Mod(k, w), s);
    if k < FRAME_PIXELS * s * s then
      assert FRAME_PIXELS * s * s == (GB_RES_Y * s) * w;
      DivBelow(k, w, GB_RES_Y * s);
      DivBelow(Div(k, w), s, GB_RES_Y);
      DivBelow(Mod(k, w), s, GB_RES_X);
      row * GB_RES_X + col
    else
      row * GB_RES_X + col
  }

  /** The frame enlarged by s: each frame pixel becomes an s-by-s block. */
  function Enlarged(frame: seq<int>, s: nat): (r: seq<int>)
    requires s >= 1 && |frame| == FRAME_PIXELS
    ensures |r| == FRAME_PIXELS * s * s
  {
    seq(FRAME_PIXELS * s * s, k requires 0 <= k < FRAME_PIXELS * s * s => frame[Source(k, s)])
  }

  /** Pixel (X, Y) of the enlarged frame, in rows of 160·s, shows frame pixel (X / s, Y / s). */
  lemma EnlargedPixel(frame: seq<int>, s: nat, px: nat, py: nat)
    requires s >= 1 && |frame| == FRAME_PIXELS && px < GB_RES_X * s && py < GB_RES_Y * s
    ensures py * (GB_RES_X * s) + px < FRAME_PIXELS * s * s && Div(py, s) < GB_RES_Y && Div(px, s) < GB_RES_X
    ensures Enlarged(frame, s)[py * (GB_RES_X * s) + px] == frame[Div(py, s) * GB_RES_X + Div(px, s)]
  {
    var w := GB_RES_X * s;
    MulLe(py + 1, GB_RES_Y * s, w);
    MulSucc(py, w);
    assert (GB_RES_Y * s) * w == FRAME_PIXELS * s * s;
    RowMajor(py, px, w);
    DivBelow(py, s, GB_RES_Y);
    DivBelow(px, s, GB_RES_X);
  }

  /** The output index the copying loops reach for frame pixel (x, y), copy row dy and copy column i, in
    * row-major form: output row y·s + dy, column x·s + i, in rows of 160·s. */
  function Cursor(y: nat, dy: nat, x: nat, i: nat, s: nat): nat
  {
    (y * s + dy) * (GB_RES_X * s) + (x * s + i)
  }

  /** The cursor is the index draw_screen writes: y·s·s·160 + 160·s·dy + x·s + i. */
  lemma CursorAsWritten(y: nat, dy: nat, x: nat, i: nat, s: nat)
    ensures Cursor(y, dy, x, i, s) == y * s * s * GB_RES_X + GB_RES_X * s * dy + x * s + i
  {
  }

  /** The copying loops write frame pixel (x, y) at every index they reach for it. */
  lemma CursorSource(y: nat, dy: nat, x: nat, i: nat, s: nat)
    requires s >= 1 && dy < s && x < GB_RES_X && i < s
    ensures Source(Cursor(y, dy, x, i, s), s) == y * GB_RES_X + x
  {
    MulSucc(x, s);
    MulLe(x + 1, GB_RES_X, s);
    RowMajor(y * s + dy, x * s + i, GB_RES_X * s);
    RowMajor(y, dy, s);
    RowMajor(x, i, s);
  }

  /** The state behind draw_screen: the emulator's frame, the output buffer, the scale in use and the GOP
    * resolution found by init_screen. */
  class Screen {
    const pixels: array<int>
    var output: array<int>
    var currentScale: nat
    const xRes: nat
    const yRes: nat
    /** The screen contents were saved at start-up and can be put back. */
    const saved: bool

    predicate Valid()
      reads this
    {
      pixels.Length == FRAME_PIXELS && output != pixels && xRes < SCREEN_LIMIT && yRes < SCREEN_LIMIT
      && currentScale >= 1
      && (currentScale > 1 ==> Fits(currentScale, xRes, yRes) && output.Length == FRAME_PIXELS * currentScale * currentScale)
    }

    /** init_screen once a GOP is found: scale 1 and no output buffer yet. */
    constructor(frame: array<int>, width: nat, height: nat, screenSaved: bool)
      requires frame.Length == FRAME_PIXELS && width < SCREEN_LIMIT && height < SCREEN_LIMIT
      ensures Valid() && pixels == frame && currentScale == 1 && xRes == width && yRes == height && saved == screenSaved
    {
      pixels, xRes, yRes, saved := frame, width, height, screenSaved;
      currentScale := 1;
      output := new int[0];
    }

    /** draw_screen with the requested scale: a different scale is taken when it fits the screen (the saved
      * screen is put back and a new output buffer is allocated) and refused otherwise; the frame is then
      * shown centred, enlarged when the scale in use is above 1. Returns the scale variable's new value. */
    method DrawScreen(requested: nat) returns (scale: nat, blits: seq<Blit>)
      requires Valid() && requested < SCREEN_LIMIT
      modifies this, output
      ensures Valid() && scale == currentScale
      ensures scale == if requested == old(currentScale) || Fits(requested, xRes, yRes) then requested else old(currentScale)
      ensures scale != old(currentScale) ==> fresh(output)
      ensures scale > 1 ==> output[..] == Enlarged(pixels[..], scale)
      ensures blits == (if scale != old(currentScale) && saved then [RestoreScreen] else [])
                       + [Show(if scale <= 1 then pixels[..] else output[..],
                               Centre(xRes, GB_RES_X * scale), Centre(yRes, GB_RES_Y * scale),
                               GB_RES_X * scale, GB_RES_Y * scale)]
    {
      scale := requested;
      blits := [];
      if scale != currentScale {
        if scale < 1 || GB_RES_X * scale > xRes || GB_RES_Y * scale > yRes {
          scale := currentScale;
        } else {
          if saved {
            blits := [RestoreScreen];
          }
          output := new int[FRAME_PIXELS * scale * scale];
          currentScale := scale;
        }
      }
      if currentScale <= 1 {
        blits := blits + [Show(pixels[..], Centre(xRes, GB_RES_X * scale), Centre(yRes, GB_RES_Y * scale),
                               GB_RES_X, GB_RES_Y)];
      } else {
        Enlarge(pixels, output, currentScale);
        blits := blits + [Show(output[..], Centre(xRes, GB_RES_X * scale), Centre(yRes, GB_RES_Y * scale),
                               GB_RES_X * scale, GB_RES_Y * scale)];
      }
    }
  }

  /** Everything below output index c holds its source pixel. */
  ghost predicate Done(frame: array<int>, out: array<int>, s: nat, c: nat)
    requires s >= 1 && frame.Length == FRAME_PIXELS && out.Length == FRAME_PIXELS * s * s && c <= out.Length
    reads frame, out
  {
    forall k :: 0 <= k < c ==> out[k] == frame[Source(k, s)]
  }

  /** The copying loops of draw_screen: frame rows, their s copies, frame columns, their s copies. */
  method Enlarge(frame: array<int>, out: array<int>, s: nat)
    requires s >= 1 && frame.Length == FRAME_PIXELS && out.Length == FRAME_PIXELS * s * s && frame != out
    modifies out
    ensures out[..] == Enlarged(frame[..], s)
  {
    var w := GB_RES_X * s;
    assert (GB_RES_Y * s) * w == out.Length;
    var y := 0;
    while y < GB_RES_Y
      invariant 0 <= y <= GB_RES_Y && Cursor(y, 0, 0, 0, s) <= out.Length
      invariant Done(frame, out, s, Cursor(y, 0, 0, 0, s))
    {
      MulLe(y + 1, GB_RES_Y, s);
      MulLe((y + 1) * s, GB_RES_Y * s, w);
      EnlargeRow(frame, out, s, y);
      y := y + 1;
    }
  }

  /** The s copies of frame row y. */
  method EnlargeRow(frame: array<int>, out: array<int>, s: nat, y: nat)
    requires s >= 1 && frame.Length == FRAME_PIXELS && out.Length == FRAME_PIXELS * s * s && frame != out
    requires y < GB_RES_Y && Cursor(y + 1, 0, 0, 0, s) <= out.Length
    requires Done(frame, out, s, Cursor(y, 0, 0, 0, s))
    modifies out
    ensures Done(frame, out, s, Cursor(y + 1, 0, 0, 0, s))
  {
    var w := GB_RES_X * s;
    MulSucc(y, s);
    assert Cursor(y, s, 0, 0, s) == Cursor(y + 1, 0, 0, 0, s);
    var dy := 0;
    while dy < s
      invariant 0 <= dy <= s && Cursor(y, dy, 0, 0, s) <= Cursor(y + 1, 0, 0, 0, s)
      invariant Done(frame, out, s, Cursor(y, dy, 0, 0, s))
    {
      MulLe(y * s + dy + 1, (y + 1) * s, w);
      EnlargeLine(frame, out, s, y, dy);
      dy := dy + 1;
    }
  }

  /** One output line: each pixel of frame row y copied s times. */
  method EnlargeLine(frame: array<int>, out: array<int>, s: nat, y: nat, dy: nat)
    requires s >= 1 && frame.Length == FRAME_PIXELS && out.Length == FRAME_PIXELS * s * s && frame != out
    requires y < GB_RES_Y && dy < s && Cursor(y, dy + 1, 0, 0, s) <= out.Length
    requires Done(frame, out, s, Cursor(y, dy, 0, 0, s))
    modifies out
    ensures Done(frame, out, s, Cursor(y, dy + 1, 0, 0, s))
  {
    var w := GB_RES_X * s;
    MulSucc(y * s + dy, w);
    var x := 0;
    while x < GB_RES_X
      invariant 0 <= x <= GB_RES_X && Cursor(y, dy, x, 0, s) <= Cursor(y, dy + 1, 0, 0, s)
      invariant Done(frame, out, s, Cursor(y, dy, x, 0, s))
    {
      MulSucc(x, s);
      MulLe(x + 1, GB_RES_X, s);
      EnlargePixel(frame, out, s, y, dy, x);
      x := x + 1;
    }
  }

  /** The s copies of frame pixel (x, y) on one output line. */
  method EnlargePixel(frame: array<int>, out: array<int>, s: nat, y: nat, dy: nat, x: nat)
    requires s >= 1 && frame.Length == FRAME_PIXELS && out.Length == FRAME_PIXELS * s * s && frame != out
    requires y < GB_RES_Y && dy < s && x < GB_RES_X && Cursor(y, dy, x, 0, s) + s <= out.Length
    requires Done(frame, out, s, Cursor(y, dy, x, 0, s))
    modifies out
    ensures Done(frame, out, s, Cursor(y, dy, x, 0, s) + s)
  {
    var c := Cursor(y, dy, x, 0, s);
    var v := frame[y * GB_RES_X + x];
    var i := 0;
    while i < s
      invariant 0 <= i <= s && Done(frame, out, s, c + i)
    {
      CursorSource(y, dy, x, i, s);
      out[c + i] := v;
      i := i + 1;
    }
  }
}
