/** Semantics of the CHIP-8 sprite drawing instruction DXYN on the screen buffer: N rows of eight pixels,
  * read from memory at I, drawn by exclusive or at (VX, VY).  Bit b of a row byte lands in column
  * VX + 7 - b; pixels off the screen are not drawn (the display reports them as errors).  The drawing is
  * one pass over (row, bit) pairs in the order of the two nested loops of the handler. */
module C8Sprite {
  import opened C8Display

  datatype Option<T> = None | Some(value: T)

  /** The eight bits of a sprite row, least significant first. */
  function Bits(row: bv8): (r: seq<bool>)
    ensures |r| == 8
  {
    [row & 0x01 != 0, row & 0x02 != 0, row & 0x04 != 0, row & 0x08 != 0,
     row & 0x10 != 0, row & 0x20 != 0, row & 0x40 != 0, row & 0x80 != 0]
  }

  /** Bit `b` of a sprite row, the loop's test `((row >> b) & 1) == 1`. */
  predicate Bit(row: bv8, b: nat)
    requires b < 8
  {
    Bits(row)[b]
  }

  predicate OnScreen(px: int, py: int)
  {
    0 <= px < WIDTH && 0 <= py < HEIGHT
  }

  /** Drawing one filled pixel by exclusive or at (x, y) with a successful transfer. */
  function XorAt(s: seq<Px>, x: int, y: int): (r: (seq<Px>, PxStatus))
    requires |s| == CELLS
    ensures |r.0| == CELLS
  {
    if OnScreen(x, y) then
      var o := XorOutcome(s[Index(x, y)], Filled, true);
      (s[Index(x, y) := o.0], o.1)
    else (s, PxError)
  }

  /** Pixel `b` of a sprite row at screen row `y`: drawn at column vx + 7 - b when the bit is set. */
  function DrawBit(s: seq<Px>, row: bv8, vx: int, y: int, b: nat): (r: (seq<Px>, PxStatus))
    requires |s| == CELLS && b < 8
    ensures |r.0| == CELLS
  {
    if Bit(row, b) then XorAt(s, vx + 7 - b, y) else (s, PxClean)
  }

  /** The pixel loop of a sprite read from `mem` at `i`, drawn at (vx, vy), from row `r` and bit `b` on;
    * `hit` records a collision so far.  The row byte is read before each bit is tested, and None is a read
    * beyond memory. */
  function DrawFrom(s: seq<Px>, mem: seq<bv8>, i: int, vx: int, vy: int, n: nat, r: nat, b: nat, hit: bool)
    : (res: Option<(seq<Px>, bool)>)
    requires |s| == CELLS && r <= n && b <= 8 && 0 <= i
    ensures res.Some? ==> |res.value.0| == CELLS
    ensures res.None? <==> i + n > |mem| && (if b == 8 then r + 1 else r) < n
    decreases n - r, 8 - b
  {
    if r == n then Some((s, hit))
    else if b == 8 then DrawFrom(s, mem, i, vx, vy, n, r + 1, 0, hit)
    else if i + r >= |mem| then None
    else
      var d := DrawBit(s, mem[i + r], vx, vy + r, b);
      DrawFrom(d.0, mem, i, vx, vy, n, r, b + 1, hit || d.1 == PxDirty)
  }

  /** The sprite drawing of DXYN with the collision flag the instruction table promises: the buffer after the
    * sprite is drawn and whether any filled pixel was cleared; None when the sprite lies beyond memory. */
  function Draw(s: seq<Px>, mem: seq<bv8>, i: int, vx: int, vy: int, n: nat): (res: Option<(seq<Px>, bool)>)
    requires |s| == CELLS && 0 <= i
    ensures res.None? <==> n > 0 && i + n > |mem|
    ensures res.Some? ==> |res.value.0| == CELLS
  {
    DrawFrom(s, mem, i, vx, vy, n, 0, 0, false)
  }

  /** Reference definition of the pixels a sprite covers: pixel (px, py) lies on sprite row py - vy, whose
    * byte has the bit for column px set. */
  predicate SpriteCovers(mem: seq<bv8>, i: int, vx: int, vy: int, n: nat, px: int, py: int)
  {
    Covers(mem, i, vx, vy, n, 0, 0, px, py)
  }

  /** The pixels the loop still covers from row `r` and bit `b` on. */
  predicate Covers(mem: seq<bv8>, i: int, vx: int, vy: int, n: nat, r: nat, b: nat, px: int, py: int)
  {
    vy + r <= py < vy + n && 0 <= i + (py - vy) < |mem| && 0 <= vx + 7 - px < 8
    && (py == vy + r ==> b <= vx + 7 - px) && Bit(mem[i + (py - vy)], vx + 7 - px)
  }

  /** Distinct pixels occupy distinct cells. */
  lemma IndexInjective(px: int, py: int, qx: int, qy: int)
    requires OnScreen(px, py) && OnScreen(qx, qy) && (px, py) != (qx, qy)
    ensures Index(px, py) != Index(qx, qy)
  {
    IndexInverse(px, py);
    IndexInverse(qx, qy);
  }

  /** Drawing bit `b` of row `r` covers the pixel at column vx + 7 - b of that row exactly when the bit is set,
    * and leaves every other pixel's coverage as it is for bit `b + 1`. */
  lemma CoversStep(mem: seq<bv8>, i: int, vx: int, vy: int, n: nat, r: nat, b: nat, px: int, py: int)
    requires r < n && b < 8 && 0 <= i + r < |mem|
    ensures (px, py) == (vx + 7 - b, vy + r) ==>
              Covers(mem, i, vx, vy, n, r, b, px, py) == Bit(mem[i + r], b)
              && !Covers(mem, i, vx, vy, n, r, b + 1, px, py)
    ensures (px, py) != (vx + 7 - b, vy + r) ==>
              Covers(mem, i, vx, vy, n, r, b, px, py) == Covers(mem, i, vx, vy, n, r, b + 1, px, py)
  {
  }

  /** Pixel `b` of a row changes at most the cell of the pixel it covers. */
  lemma DrawBitCell(s: seq<Px>, row: bv8, vx: int, y: int, b: nat, px: int, py: int)
    requires |s| == CELLS && b < 8 && OnScreen(px, py)
    ensures DrawBit(s, row, vx, y, b).0[Index(px, py)] ==
            if (px, py) == (vx + 7 - b, y) && Bit(row, b) then XorPx(s[Index(px, py)], Filled) else s[Index(px, py)]
  {
    if OnScreen(vx + 7 - b, y) && (px, py) != (vx + 7 - b, y) {
      IndexInjective(px, py, vx + 7 - b, y);
    }
  }

  /** The pixel loop from row `r` and bit `b` on flips exactly the pixels it still covers. */
  lemma {:induction false} DrawFromCell(s: seq<Px>, mem: seq<bv8>, i: int, vx: int, vy: int, n: nat, r: nat, b: nat,
                                       hit: bool, px: int, py: int)
    requires |s| == CELLS && r <= n && b <= 8 && 0 <= i && i + n <= |mem| && OnScreen(px, py)
    ensures DrawFrom(s, mem, i, vx, vy, n, r, b, hit).value.0[Index(px, py)] ==
            if Covers(mem, i, vx, vy, n, r, b, px, py) then XorPx(s[Index(px, py)], Filled) else s[Index(px, py)]
    decreases n - r, 8 - b
  {
    if r == n {
    } else if b == 8 {
      DrawFromCell(s, mem, i, vx, vy, n, r + 1, 0, hit, px, py);
    } else {
      var d := DrawBit(s, mem[i + r], vx, vy + r, b);
      DrawFromCell(d.0, mem, i, vx, vy, n, r, b + 1, hit || d.1 == PxDirty, px, py);
      DrawBitCell(s, mem[i + r], vx, vy + r, b, px, py);
      CoversStep(mem, i, vx, vy, n, r, b, px, py);
    }
  }

  /** Pixel (px, py) is on the screen, still covered from row `r` and bit `b` on, and filled. */
  ghost predicate HitAt(s: seq<Px>, mem: seq<bv8>, i: int, vx: int, vy: int, n: nat, r: nat, b: nat, px: int, py: int)
    requires |s| == CELLS
  {
    OnScreen(px, py) && Covers(mem, i, vx, vy, n, r, b, px, py) && s[Index(px, py)] == Filled
  }

  /** Some pixel still covered from row `r` and bit `b` on is filled. */
  ghost predicate Hits(s: seq<Px>, mem: seq<bv8>, i: int, vx: int, vy: int, n: nat, r: nat, b: nat)
    requires |s| == CELLS
  {
    exists px, py :: HitAt(s, mem, i, vx, vy, n, r, b, px, py)
  }

  /** Past the last row nothing is covered. */
  lemma HitsPastEnd(s: seq<Px>, mem: seq<bv8>, i: int, vx: int, vy: int, n: nat, b: nat)
    requires |s| == CELLS
    ensures !Hits(s, mem, i, vx, vy, n, n, b)
  {
    forall px, py
      ensures !HitAt(s, mem, i, vx, vy, n, n, b, px, py)
    {
    }
  }

  /** The end of row `r` is the start of row `r + 1`. */
  lemma HitsNextRow(s: seq<Px>, mem: seq<bv8>, i: int, vx: int, vy: int, n: nat, r: nat)
    requires |s| == CELLS
    ensures Hits(s, mem, i, vx, vy, n, r, 8) == Hits(s, mem, i, vx, vy, n, r + 1, 0)
  {
    if Hits(s, mem, i, vx, vy, n, r, 8) {
      var px, py :| HitAt(s, mem, i, vx, vy, n, r, 8, px, py);
      assert HitAt(s, mem, i, vx, vy, n, r + 1, 0, px, py);
    }
    if Hits(s, mem, i, vx, vy, n, r + 1, 0) {
      var px, py :| HitAt(s, mem, i, vx, vy, n, r + 1, 0, px, py);
      assert HitAt(s, mem, i, vx, vy, n, r, 8, px, py);
    }
  }

  /** A filled pixel covered from bit `b` on other than the one bit `b` draws is untouched by it and covered
    * from bit `b + 1` on. */
  lemma HitsForward(s: seq<Px>, mem: seq<bv8>, i: int, vx: int, vy: int, n: nat, r: nat, b: nat, px: int, py: int)
    requires |s| == CELLS && r < n && b < 8 && 0 <= i + r < |mem|
    requires HitAt(s, mem, i, vx, vy, n, r, b, px, py) && (px, py) != (vx + 7 - b, vy + r)
    ensures HitAt(DrawBit(s, mem[i + r], vx, vy + r, b).0, mem, i, vx, vy, n, r, b + 1, px, py)
  {
    CoversStep(mem, i, vx, vy, n, r, b, px, py);
    DrawBitCell(s, mem[i + r], vx, vy + r, b, px, py);
  }

  /** A filled pixel covered from bit `b + 1` on after bit `b` is drawn was filled and covered before. */
  lemma HitsBackward(s: seq<Px>, mem: seq<bv8>, i: int, vx: int, vy: int, n: nat, r: nat, b: nat, px: int, py: int)
    requires |s| == CELLS && r < n && b < 8 && 0 <= i + r < |mem|
    requires HitAt(DrawBit(s, mem[i + r], vx, vy + r, b).0, mem, i, vx, vy, n, r, b + 1, px, py)
    ensures HitAt(s, mem, i, vx, vy, n, r, b, px, py)
  {
    CoversStep(mem, i, vx, vy, n, r, b, px, py);
    DrawBitCell(s, mem[i + r], vx, vy + r, b, px, py);
  }

  /** Bit `b` reports a collision exactly when the pixel it draws is a filled covered one. */
  lemma HitsDirty(s: seq<Px>, mem: seq<bv8>, i: int, vx: int, vy: int, n: nat, r: nat, b: nat)
    requires |s| == CELLS && r < n && b < 8 && 0 <= i + r < |mem|
    ensures DrawBit(s, mem[i + r], vx, vy + r, b).1 == PxDirty <==> HitAt(s, mem, i, vx, vy, n, r, b, vx + 7 - b, vy + r)
  {
    CoversStep(mem, i, vx, vy, n, r, b, vx + 7 - b, vy + r);
  }

  /** A filled covered pixel from bit `b` on is either the one bit `b` draws, found dirty, or one from bit
    * `b + 1` on, which bit `b` leaves alone. */
  lemma HitsStep(s: seq<Px>, mem: seq<bv8>, i: int, vx: int, vy: int, n: nat, r: nat, b: nat)
    requires |s| == CELLS && r < n && b < 8 && 0 <= i + r < |mem|
    ensures var d := DrawBit(s, mem[i + r], vx, vy + r, b);
            Hits(s, mem, i, vx, vy, n, r, b) == (d.1 == PxDirty || Hits(d.0, mem, i, vx, vy, n, r, b + 1))
  {
    var d := DrawBit(s, mem[i + r], vx, vy + r, b);
    HitsDirty(s, mem, i, vx, vy, n, r, b);
    if Hits(s, mem, i, vx, vy, n, r, b) {
      var px, py :| HitAt(s, mem, i, vx, vy, n, r, b, px, py);
      if (px, py) != (vx + 7 - b, vy + r) {
        HitsForward(s, mem, i, vx, vy, n, r, b, px, py);
      }
    }
    if Hits(d.0, mem, i, vx, vy, n, r, b + 1) {
      var px, py :| HitAt(d.0, mem, i, vx, vy, n, r, b + 1, px, py);
      HitsBackward(s, mem, i, vx, vy, n, r, b, px, py);
    }
  }

  /** The pixel loop from row `r` and bit `b` on reports a collision exactly when a pixel it still covers was
    * filled. */
  lemma {:induction false} DrawFromFlag(s: seq<Px>, mem: seq<bv8>, i: int, vx: int, vy: int, n: nat, r: nat, b: nat,
                                       hit: bool)
    requires |s| == CELLS && r <= n && b <= 8 && 0 <= i && i + n <= |mem|
    ensures DrawFrom(s, mem, i, vx, vy, n, r, b, hit).value.1 == (hit || Hits(s, mem, i, vx, vy, n, r, b))
    decreases n - r, 8 - b
  {
    if r == n {
      HitsPastEnd(s, mem, i, vx, vy, n, b);
    } else if b == 8 {
      DrawFromFlag(s, mem, i, vx, vy, n, r + 1, 0, hit);
      HitsNextRow(s, mem, i, vx, vy, n, r);
    } else {
      var d := DrawBit(s, mem[i + r], vx, vy + r, b);
      DrawFromFlag(d.0, mem, i, vx, vy, n, r, b + 1, hit || d.1 == PxDirty);
      HitsStep(s, mem, i, vx, vy, n, r, b);
    }
  }

  /** Some pixel the sprite covers is filled. */
  ghost predicate Collides(s: seq<Px>, mem: seq<bv8>, i: int, vx: int, vy: int, n: nat)
    requires |s| == CELLS
  {
    exists px, py :: OnScreen(px, py) && SpriteCovers(mem, i, vx, vy, n, px, py) && s[Index(px, py)] == Filled
  }

  /** Drawing a sprite flips exactly the covered cells and sets the flag exactly when a covered cell was filled. */
  lemma DrawSpec(s: seq<Px>, mem: seq<bv8>, i: int, vx: int, vy: int, n: nat)
    requires |s| == CELLS && 0 <= i && i + n <= |mem|
    ensures forall px, py :: OnScreen(px, py) ==>
              Draw(s, mem, i, vx, vy, n).value.0[Index(px, py)] ==
              if SpriteCovers(mem, i, vx, vy, n, px, py) then XorPx(s[Index(px, py)], Filled) else s[Index(px, py)]
    ensures Draw(s, mem, i, vx, vy, n).value.1 <==> Collides(s, mem, i, vx, vy, n)
  {
    forall px, py | OnScreen(px, py)
      ensures Draw(s, mem, i, vx, vy, n).value.0[Index(px, py)] ==
              if SpriteCovers(mem, i, vx, vy, n, px, py) then XorPx(s[Index(px, py)], Filled) else s[Index(px, py)]
    {
      DrawFromCell(s, mem, i, vx, vy, n, 0, 0, false, px, py);
    }
    DrawFromFlag(s, mem, i, vx, vy, n, 0, 0, false);
    if Collides(s, mem, i, vx, vy, n) {
      var px, py :| OnScreen(px, py) && SpriteCovers(mem, i, vx, vy, n, px, py) && s[Index(px, py)] == Filled;
      assert HitAt(s, mem, i, vx, vy, n, 0, 0, px, py);
    }
    if Hits(s, mem, i, vx, vy, n, 0, 0) {
      var px, py :| HitAt(s, mem, i, vx, vy, n, 0, 0, px, py);
      assert OnScreen(px, py) && SpriteCovers(mem, i, vx, vy, n, px, py) && s[Index(px, py)] == Filled;
    }
  }

  /** Drawing the same sprite twice at the same place restores the screen, which is how programs erase
    * sprites. */
  lemma DrawTwiceRestores(s: seq<Px>, mem: seq<bv8>, i: int, vx: int, vy: int, n: nat)
    requires |s| == CELLS && 0 <= i && i + n <= |mem|
    ensures Draw(Draw(s, mem, i, vx, vy, n).value.0, mem, i, vx, vy, n).value.0 == s
  {
    var s1 := Draw(s, mem, i, vx, vy, n).value.0;
    DrawSpec(s, mem, i, vx, vy, n);
    DrawSpec(s1, mem, i, vx, vy, n);
    var s2 := Draw(s1, mem, i, vx, vy, n).value.0;
    forall k | 0 <= k < CELLS
      ensures s2[k] == s[k]
    {
      CellPixel(k);
      assert OnScreen(k % WIDTH, k / WIDTH);
    }
  }

  /** Drawing a sprite on a blank screen never reports a collision. */
  lemma DrawOnBlankNoCollision(s: seq<Px>, mem: seq<bv8>, i: int, vx: int, vy: int, n: nat)
    requires |s| == CELLS && 0 <= i && i + n <= |mem|
    requires forall k :: 0 <= k < CELLS ==> s[k] == Blank
    ensures !Draw(s, mem, i, vx, vy, n).value.1
  {
    DrawSpec(s, mem, i, vx, vy, n);
    assert forall px, py :: OnScreen(px, py) ==> s[Index(px, py)] == Blank;
  }

  /** The pixel loop as written: the coordinates are re-read from registers `x` and `y` of `v` for every
    * pixel, and VF (register 15) is overwritten after every set bit with whether that one pixel collided. */
  function DrawFromAsWritten(s: seq<Px>, v: seq<bv8>, x: nat, y: nat, mem: seq<bv8>, i: int, n: nat, r: nat, b: nat)
    : (res: Option<(seq<Px>, seq<bv8>)>)
    requires |s| == CELLS && |v| == 16 && x < 16 && y < 16 && r <= n && b <= 8 && 0 <= i
    ensures res.Some? ==> |res.value.0| == CELLS && |res.value.1| == 16
    ensures res.None? <==> i + n > |mem| && (if b == 8 then r + 1 else r) < n
    decreases n - r, 8 - b
  {
    if r == n then Some((s, v))
    else if b == 8 then DrawFromAsWritten(s, v, x, y, mem, i, n, r + 1, 0)
    else if i + r >= |mem| then None
    else if Bit(mem[i + r], b) then
      var d := XorAt(s, v[x] as int + (7 - b), v[y] as int + r);
      DrawFromAsWritten(d.0, v[15 := if d.1 == PxDirty then 1 else 0], x, y, mem, i, n, r, b + 1)
    else DrawFromAsWritten(s, v, x, y, mem, i, n, r, b + 1)
  }

  /** A one-row sprite 0x03 at (0, 0) over a screen whose only filled pixel is (7, 0): bit 0 clears pixel
    * (7, 0), a collision, but bit 1 then draws pixel (6, 0) without one, and the loop as written leaves VF
    * at 0.  The drawing with the promised flag reports the collision. */
  lemma CollisionLostAsWritten()
    ensures var s := seq(CELLS, k => if k == 7 then Filled else Blank);
            var v := seq(16, _ => 0 as bv8);
            var mem := [0x03 as bv8];
            DrawFromAsWritten(s, v, 0, 1, mem, 0, 1, 0, 0).Some?
            && DrawFromAsWritten(s, v, 0, 1, mem, 0, 1, 0, 0).value.1[15] == 0
            && Draw(s, mem, 0, 0, 0, 1).value.1
  {
    var s := seq(CELLS, k => if k == 7 then Filled else Blank);
    var v := seq(16, _ => 0 as bv8);
    var mem := [0x03 as bv8];
    assert Bit(0x03, 0) && Bit(0x03, 1);
    var d0 := XorAt(s, 7, 0);
    assert d0.1 == PxDirty;
    var v1 := v[15 := 1];
    var d1 := XorAt(d0.0, 6, 0);
    assert d0.0[6] == Blank;
    assert d1.1 == PxClean;
    var v2 := v1[15 := 0];
    assert forall b :: 2 <= b < 8 ==> !Bit(0x03, b);
    assert DrawFromAsWritten(d1.0, v2, 0, 1, mem, 0, 1, 0, 2).value.1 == v2 by {
      assert DrawFromAsWritten(d1.0, v2, 0, 1, mem, 0, 1, 0, 2) == DrawFromAsWritten(d1.0, v2, 0, 1, mem, 0, 1, 0, 3);
      assert DrawFromAsWritten(d1.0, v2, 0, 1, mem, 0, 1, 0, 3) == DrawFromAsWritten(d1.0, v2, 0, 1, mem, 0, 1, 0, 4);
      assert DrawFromAsWritten(d1.0, v2, 0, 1, mem, 0, 1, 0, 4) == DrawFromAsWritten(d1.0, v2, 0, 1, mem, 0, 1, 0, 5);
      assert DrawFromAsWritten(d1.0, v2, 0, 1, mem, 0, 1, 0, 5) == DrawFromAsWritten(d1.0, v2, 0, 1, mem, 0, 1, 0, 6);
      assert DrawFromAsWritten(d1.0, v2, 0, 1, mem, 0, 1, 0, 6) == DrawFromAsWritten(d1.0, v2, 0, 1, mem, 0, 1, 0, 7);
      assert DrawFromAsWritten(d1.0, v2, 0, 1, mem, 0, 1, 0, 7) == DrawFromAsWritten(d1.0, v2, 0, 1, mem, 0, 1, 0, 8);
      assert DrawFromAsWritten(d1.0, v2, 0, 1, mem, 0, 1, 0, 8) == DrawFromAsWritten(d1.0, v2, 0, 1, mem, 0, 1, 1, 0);
    }
    assert DrawFromAsWritten(s, v, 0, 1, mem, 0, 1, 0, 0) == DrawFromAsWritten(d0.0, v1, 0, 1, mem, 0, 1, 0, 1);
    assert DrawFromAsWritten(d0.0, v1, 0, 1, mem, 0, 1, 0, 1) == DrawFromAsWritten(d1.0, v2, 0, 1, mem, 0, 1, 0, 2);
    DrawSpec(s, mem, 0, 0, 0, 1);
    assert OnScreen(7, 0) && SpriteCovers(mem, 0, 0, 0, 1, 7, 0) && s[Index(7, 0)] == Filled;
  }

  /** One pixel of the corrected loop. */
  lemma DrawFromStep(s: seq<Px>, mem: seq<bv8>, i: int, vx: int, vy: int, n: nat, r: nat, b: nat, hit: bool)
    requires |s| == CELLS && r < n && b < 8 && 0 <= i && i + r < |mem|
    ensures var d := DrawBit(s, mem[i + r], vx, vy + r, b);
            DrawFrom(s, mem, i, vx, vy, n, r, b, hit) == DrawFrom(d.0, mem, i, vx, vy, n, r, b + 1, hit || d.1 == PxDirty)
  {
  }

  /** One pixel of the loop as written, which draws and writes VF only for a set bit. */
  lemma AsWrittenStep(s: seq<Px>, v: seq<bv8>, x: nat, y: nat, mem: seq<bv8>, i: int, n: nat, r: nat, b: nat)
    requires |s| == CELLS && |v| == 16 && x < 16 && y < 16 && r < n && b < 8 && 0 <= i && i + r < |mem|
    ensures var d := DrawBit(s, mem[i + r], v[x] as int, v[y] as int + r, b);
            DrawFromAsWritten(s, v, x, y, mem, i, n, r, b) ==
            if Bit(mem[i + r], b) then DrawFromAsWritten(d.0, v[15 := if d.1 == PxDirty then 1 else 0], x, y, mem, i, n, r, b + 1)
            else DrawFromAsWritten(s, v, x, y, mem, i, n, r, b + 1)
  {
  }

  /** The loop as written writes no register other than VF, and never faults on a sprite inside memory. */
  lemma {:induction false} AsWrittenKeepsRegisters(s: seq<Px>, v: seq<bv8>, x: nat, y: nat, mem: seq<bv8>, i: int,
                                                  n: nat, r: nat, b: nat)
    requires |s| == CELLS && |v| == 16 && x < 16 && y < 16 && r <= n && b <= 8 && 0 <= i && i + n <= |mem|
    ensures DrawFromAsWritten(s, v, x, y, mem, i, n, r, b).Some?
    ensures forall k :: 0 <= k < 15 ==> DrawFromAsWritten(s, v, x, y, mem, i, n, r, b).value.1[k] == v[k]
    decreases n - r, 8 - b
  {
    if r == n {
    } else if b == 8 {
      AsWrittenKeepsRegisters(s, v, x, y, mem, i, n, r + 1, 0);
    } else {
      var d := DrawBit(s, mem[i + r], v[x] as int, v[y] as int + r, b);
      AsWrittenStep(s, v, x, y, mem, i, n, r, b);
      if Bit(mem[i + r], b) {
        AsWrittenKeepsRegisters(d.0, v[15 := if d.1 == PxDirty then 1 else 0], x, y, mem, i, n, r, b + 1);
      } else {
        AsWrittenKeepsRegisters(s, v, x, y, mem, i, n, r, b + 1);
      }
    }
  }

  /** With X and Y other than F, the loop as written and the corrected drawing produce the same screen: VF is
    * the only register the loop writes, so the coordinates it re-reads never change, and the two differ only
    * in the value left in VF. */
  lemma {:induction false} AsWrittenSameScreen(s: seq<Px>, v: seq<bv8>, x: nat, y: nat, mem: seq<bv8>, i: int, n: nat,
                                              r: nat, b: nat, hit: bool)
    requires |s| == CELLS && |v| == 16 && x < 15 && y < 15 && r <= n && b <= 8 && 0 <= i && i + n <= |mem|
    ensures DrawFromAsWritten(s, v, x, y, mem, i, n, r, b).Some?
    ensures DrawFromAsWritten(s, v, x, y, mem, i, n, r, b).value.0 ==
            DrawFrom(s, mem, i, v[x] as int, v[y] as int, n, r, b, hit).value.0
    decreases n - r, 8 - b
  {
    if r == n {
    } else if b == 8 {
      AsWrittenSameScreen(s, v, x, y, mem, i, n, r + 1, 0, hit);
    } else {
      var d := DrawBit(s, mem[i + r], v[x] as int, v[y] as int + r, b);
      DrawFromStep(s, mem, i, v[x] as int, v[y] as int, n, r, b, hit);
      AsWrittenStep(s, v, x, y, mem, i, n, r, b);
      if Bit(mem[i + r], b) {
        var v' := v[15 := if d.1 == PxDirty then 1 else 0];
        assert v'[x] == v[x] && v'[y] == v[y];
        AsWrittenSameScreen(d.0, v', x, y, mem, i, n, r, b + 1, hit || d.1 == PxDirty);
      } else {
        AsWrittenSameScreen(s, v, x, y, mem, i, n, r, b + 1, hit || d.1 == PxDirty);
      }
    }
  }
}
