/** The CHIP-8 screen: a 64 x 32 grid of pixels kept in a buffer, each change of a pixel mirrored by a
  * block transfer to the firmware's graphics output.  The outcome of each firmware call (clearing the
  * console, filling a block) is a parameter. */
module C8Display {
  const WIDTH: nat := 64
  const HEIGHT: nat := 32
  const CELLS: nat := 2048
  /** Each CHIP-8 pixel is drawn as a square block of this many screen pixels. */
  const SCALE: nat := 8

  datatype DisplayStatus = DsOk | DsBusy | DsError
  datatype PxStatus = PxClean | PxDirty | PxError
  datatype Px = Blank | Filled

  /** Position of pixel (x, y) in the row-major buffer. */
  function Index(x: nat, y: nat): (k: nat)
    requires x < WIDTH && y < HEIGHT
    ensures k < CELLS
  {
    x + y * WIDTH
  }

  /** Every cell is the position of exactly one pixel. */
  lemma IndexInverse(x: nat, y: nat)
    requires x < WIDTH && y < HEIGHT
    ensures Index(x, y) % WIDTH == x && Index(x, y) / WIDTH == y
  {
  }

  /** Cell `k` is the position of pixel (k mod 64, k div 64). */
  lemma CellPixel(k: nat)
    requires k < CELLS
    ensures k % WIDTH < WIDTH && k / WIDTH < HEIGHT && Index(k % WIDTH, k / WIDTH) == k
  {
  }

  /** Reference definition of drawing by exclusive or: a filled pixel drawn over a filled one clears it. */
  function XorPx(a: Px, b: Px): Px
  {
    if a == b then Blank else Filled
  }

  /** Effect of setting a pixel whose current content is `cur` to `value`: the new content and the status.
    * A block transfer happens only when the content changes; `bltOk` is its outcome. */
  function SetOutcome(cur: Px, value: Px, bltOk: bool): (r: (Px, PxStatus))
    ensures r.1 == PxClean <==> cur == value
    ensures r.1 == PxError <==> cur != value && !bltOk
    ensures r.0 == (if r.1 == PxDirty then value else cur)
  {
    if cur == value then (cur, PxClean)
    else if !bltOk then (cur, PxError)
    else (value, PxDirty)
  }

  /** Effect of drawing `value` over a pixel by exclusive or.  Drawing a filled pixel needs a block
    * transfer (white over blank, black over filled); drawing a blank one changes nothing.  The status is
    * dirty exactly when a filled pixel was cleared, which is how sprite collisions are detected. */
  function XorOutcome(cur: Px, value: Px, bltOk: bool): (r: (Px, PxStatus))
    ensures r.1 == PxError <==> value == Filled && !bltOk
    ensures r.1 != PxError ==> r.0 == XorPx(cur, value)
    ensures r.1 == PxError ==> r.0 == cur
    ensures r.1 == PxDirty <==> cur == Filled && value == Filled && bltOk
  {
    match (cur, value)
    case (Blank, Blank) => (cur, PxClean)
    case (Filled, Filled) => if bltOk then (Blank, PxDirty) else (cur, PxError)
    case (Blank, Filled) => if bltOk then (Filled, PxClean) else (cur, PxError)
    case (Filled, Blank) => (cur, PxClean)
  }

  /** Effect of inverting a pixel: always a block transfer, and dirty when it succeeds. */
  function FlipOutcome(cur: Px, bltOk: bool): (r: (Px, PxStatus))
    ensures r.1 == PxError <==> !bltOk
    ensures bltOk ==> r.0 != cur && r.1 == PxDirty
    ensures !bltOk ==> r.0 == cur
  {
    if !bltOk then (cur, PxError)
    else if cur == Blank then (Filled, PxDirty)
    else (Blank, PxDirty)
  }

  /** Drawing the same pixel twice by exclusive or restores it, the basis of erasing a sprite by redrawing it. */
  lemma XorTwiceRestores(cur: Px, value: Px)
    ensures XorOutcome(XorOutcome(cur, value, true).0, value, true).0 == cur
  {
  }

  /** Setting a pixel to the value it already has is clean and needs no block transfer. */
  lemma SetIdempotent(cur: Px, value: Px, bltOk: bool)
    ensures SetOutcome(SetOutcome(cur, value, true).0, value, bltOk) == (value, PxClean)
  {
  }

  /** Flipping twice restores the pixel. */
  lemma FlipTwiceRestores(cur: Px)
    ensures FlipOutcome(FlipOutcome(cur, true).0, true).0 == cur
  {
  }

  /** The screen buffer and whether the graphics output has been located. */
  class Display {
    var cells: array<Px>
    var attached: bool

    ghost predicate Valid()
      reads this
    {
      cells.Length == CELLS
    }

    /** The static buffer starts blank and no graphics output is known yet. */
    constructor ()
      ensures Valid() && fresh(cells) && !attached
      ensures forall k :: 0 <= k < CELLS ==> cells[k] == Blank
    {
      cells := new Px[CELLS](_ => Blank);
      attached := false;
    }

    /** Clearing the console and, when that succeeds, the buffer. */
    method Clear(clearOk: bool) returns (st: DisplayStatus)
      requires Valid()
      modifies cells
      ensures st == (if clearOk then DsOk else DsError)
      ensures clearOk ==> forall k :: 0 <= k < CELLS ==> cells[k] == Blank
      ensures !clearOk ==> cells[..] == old(cells[..])
    {
      if !clearOk {
        return DsError;
      }
      var k := 0;
      while k < CELLS
        invariant 0 <= k <= CELLS
        invariant forall j :: 0 <= j < k ==> cells[j] == Blank
      {
        cells[k] := Blank;
        k := k + 1;
      }
      return DsOk;
    }

    /** Locating the graphics output (skipped when already located), resetting the console, hiding its
      * cursor, then clearing.  Each firmware call's outcome is a parameter. */
    method Init(locateOk: bool, handleOk: bool, resetOk: bool, cursorOk: bool, clearOk: bool)
      returns (st: DisplayStatus)
      requires Valid()
      modifies this, cells
      ensures cells == old(cells)
      ensures attached == (old(attached) || (locateOk && handleOk))
      ensures old(attached) ==> st == (if clearOk then DsOk else DsError)
      ensures !old(attached) ==>
                st == (if locateOk && handleOk && resetOk && cursorOk && clearOk then DsOk else DsError)
      ensures st == DsOk ==> forall k :: 0 <= k < CELLS ==> cells[k] == Blank
      ensures st != DsOk && (old(attached) || (locateOk && handleOk && resetOk && cursorOk)) ==>
                cells[..] == old(cells[..])
      ensures !old(attached) && !(locateOk && handleOk && resetOk && cursorOk) ==> cells[..] == old(cells[..])
    {
      if attached {
        st := Clear(clearOk);
        return;
      }
      if !locateOk || !handleOk {
        return DsError;
      }
      attached := true;
      if !resetOk || !cursorOk {
        return DsError;
      }
      st := Clear(clearOk);
    }

    /** Setting pixel (x, y) to `value`; off-screen pixels and a missing graphics output are errors. */
    method PxSet(x: nat, y: nat, value: Px, bltOk: bool) returns (st: PxStatus)
      requires Valid()
      modifies cells
      ensures x >= WIDTH || y >= HEIGHT || !attached ==> st == PxError && cells[..] == old(cells[..])
      ensures x < WIDTH && y < HEIGHT && attached ==>
                var r := SetOutcome(old(cells[Index(x, y)]), value, bltOk);
                st == r.1 && cells[..] == old(cells[..])[Index(x, y) := r.0]
    {
      if x > WIDTH - 1 || y > HEIGHT - 1 || !attached {
        return PxError;
      }
      var k := Index(x, y);
      if cells[k] == value {
        return PxClean;
      }
      if !bltOk {
        return PxError;
      }
      cells[k] := value;
      return PxDirty;
    }

    /** Drawing `value` over pixel (x, y) by exclusive or. */
    method PxXor(x: nat, y: nat, value: Px, bltOk: bool) returns (st: PxStatus)
      requires Valid()
      modifies cells
      ensures x >= WIDTH || y >= HEIGHT || !attached ==> st == PxError && cells[..] == old(cells[..])
      ensures x < WIDTH && y < HEIGHT && attached ==>
                var r := XorOutcome(old(cells[Index(x, y)]), value, bltOk);
                st == r.1 && cells[..] == old(cells[..])[Index(x, y) := r.0]
    {
      if x > WIDTH - 1 || y > HEIGHT - 1 || !attached {
        return PxError;
      }
      var k := Index(x, y);
      if cells[k] == Blank && value == Blank {
        return PxClean;
      } else if cells[k] == Filled && value == Filled {
        if !bltOk {
          return PxError;
        }
        cells[k] := Blank;
        return PxDirty;
      } else if cells[k] == Blank && value == Filled {
        if !bltOk {
          return PxError;
        }
        cells[k] := Filled;
        return PxClean;
      }
      return PxClean;
    }

    /** Inverting pixel (x, y). */
    method PxFlip(x: nat, y: nat, bltOk: bool) returns (st: PxStatus)
      requires Valid()
      modifies cells
      ensures x >= WIDTH || y >= HEIGHT || !attached ==> st == PxError && cells[..] == old(cells[..])
      ensures x < WIDTH && y < HEIGHT && attached ==>
                var r := FlipOutcome(old(cells[Index(x, y)]), bltOk);
                st == r.1 && cells[..] == old(cells[..])[Index(x, y) := r.0]
    {
      if x > WIDTH - 1 || y > HEIGHT - 1 || !attached {
        return PxError;
      }
      var k := Index(x, y);
      if !bltOk {
        return PxError;
      }
      if cells[k] == Blank {
        cells[k] := Filled;
      } else {
        cells[k] := Blank;
      }
      return PxDirty;
    }
  }
}
