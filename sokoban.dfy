/** The `sokoban` game's board logic: a level file is read into a 50x50 character grid, the destinations and
  * the player are found by a row-major scan, a move walks the player or pushes a box, and after every move
  * the destinations are redrawn and the level is won when each of them holds a box.
  *
  * The grid `map[50][50]` is kept as one row-major array of 2500 cells (cell (x, y) at index 50 * y + x) and
  * the two 10-entry coordinate arrays `x_pos`/`y_pos` as one array of positions. Like the source's static
  * grid, the array is not cleared between loads. */
module Sokoban {

  const SIZE := 50
  const CELLS := 2500
  const MAX_DESTINATIONS := 10

  const WALL := '#'
  const DESTINATION := 'X'
  const BOX := 'O'
  const REACHED := 'Q'
  const EMPTY := ' '
  const PLAYER := '@'

  /** A cell position: x is the column, y the row. */
  datatype Pos = Pos(x: int, y: int)

  datatype Direction = Up | Down | Left | Right

  predicate InGrid(p: Pos)
  {
    0 <= p.x < SIZE && 0 <= p.y < SIZE
  }

  function Index(p: Pos): (k: int)
    requires InGrid(p)
    ensures 0 <= k < CELLS
  {
    SIZE * p.y + p.x
  }

  lemma IndexInjective(p: Pos, q: Pos)
    requires InGrid(p) && InGrid(q)
    ensures Index(p) == Index(q) <==> p == q
  {
  }

  function Offset(d: Direction): (o: Pos)
    ensures (o.x == 0) != (o.y == 0) && -1 <= o.x <= 1 && -1 <= o.y <= 1
  {
    match d
    case Up => Pos(0, -1)
    case Down => Pos(0, 1)
    case Left => Pos(-1, 0)
    case Right => Pos(1, 0)
  }

  function Ahead(p: Pos, d: Direction): Pos
  {
    Pos(p.x + Offset(d).x, p.y + Offset(d).y)
  }

  predicate IsDestination(c: char)
  {
    c == DESTINATION || c == REACHED
  }

  predicate Boxed(c: char)
  {
    c == BOX || c == REACHED
  }

  predicate Free(c: char)
  {
    c == EMPTY || c == DESTINATION
  }

  // ----- load_map: the parse -----

  datatype Parse = Parsed(cells: seq<char>, row: nat, col: nat) | MapError(cells: seq<char>)

  /** The parse loop from byte i on, at grid position (col, row): NUL bytes are skipped, a newline starts the
    * next row, any other byte is stored and advances the column, and a byte that would land outside the
    * 50x50 grid ends the load with an error, keeping what was stored before it. */
  function Load(cells: seq<char>, buf: seq<char>, i: nat, row: nat, col: nat): (r: Parse)
    requires |cells| == CELLS && i <= |buf| && col <= SIZE && (col > 0 ==> row < SIZE)
    decreases |buf| - i
    ensures |r.cells| == CELLS
    ensures r.Parsed? ==> r.col <= SIZE && (r.col > 0 ==> r.row < SIZE)
  {
    if i == |buf| then Parsed(cells, row, col)
    else if buf[i] == '\0' then Load(cells, buf, i + 1, row, col)
    else if buf[i] == '\n' then Load(cells, buf, i + 1, row + 1, 0)
    else if row < SIZE && col < SIZE then Load(cells[SIZE * row + col := buf[i]], buf, i + 1, row, col + 1)
    else MapError(cells)
  }

  /** The number of newlines in s. */
  function Newlines(s: seq<char>): nat
  {
    if |s| == 0 then 0 else Newlines(s[..|s| - 1]) + if s[|s| - 1] == '\n' then 1 else 0
  }

  /** The number of stored (non-NUL) bytes after the last newline of s. */
  function Width(s: seq<char>): nat
  {
    if |s| == 0 then 0
    else if s[|s| - 1] == '\n' then 0
    else if s[|s| - 1] == '\0' then Width(s[..|s| - 1])
    else Width(s[..|s| - 1]) + 1
  }

  /** Byte k is stored and would land outside the grid. */
  predicate Overflows(buf: seq<char>, k: int)
    requires 0 <= k < |buf|
  {
    buf[k] != '\0' && buf[k] != '\n' && (Newlines(buf[..k]) >= SIZE || Width(buf[..k]) >= SIZE)
  }

  /** A load ends with the row at the newline count and the column at the last line's length, and fails
    * exactly when some stored byte would land outside the grid. */
  lemma {:induction false} LoadShape(cells: seq<char>, buf: seq<char>, i: nat, row: nat, col: nat)
    requires |cells| == CELLS && i <= |buf| && col <= SIZE && (col > 0 ==> row < SIZE)
    requires row == Newlines(buf[..i]) && col == Width(buf[..i])
    requires forall k :: 0 <= k < i ==> !Overflows(buf, k)
    decreases |buf| - i
    ensures var r := Load(cells, buf, i, row, col);
            (r.Parsed? ==> r.row == Newlines(buf) && r.col == Width(buf))
            && (r.MapError? <==> exists k :: 0 <= k < |buf| && Overflows(buf, k))
  {
    if i == |buf| {
      assert buf[..i] == buf;
    } else {
      assert buf[..i + 1][..i] == buf[..i];
      if buf[i] == '\0' || buf[i] == '\n' || (row < SIZE && col < SIZE) {
        assert !Overflows(buf, i);
        var cells' := if buf[i] == '\0' || buf[i] == '\n' then cells else cells[SIZE * row + col := buf[i]];
        var row' := if buf[i] == '\n' then row + 1 else row;
        var col' := if buf[i] == '\n' then 0 else if buf[i] == '\0' then col else col + 1;
        LoadShape(cells', buf, i + 1, row', col');
      } else {
        assert Overflows(buf, i);
      }
    }
  }

  // ----- load_map: the scan -----

  datatype Option<T> = None | Some(value: T)

  /** The destinations ('X' or 'Q') of row r in its first j columns, left to right. */
  function RowDestinations(cells: seq<char>, r: nat, j: nat): (ds: seq<Pos>)
    requires |cells| == CELLS && j <= SIZE && (j > 0 ==> r < SIZE)
    ensures |ds| <= j
  {
    if j == 0 then []
    else if IsDestination(cells[SIZE * r + j - 1]) then RowDestinations(cells, r, j - 1) + [Pos(j - 1, r)]
    else RowDestinations(cells, r, j - 1)
  }

  /** p comes before q in row-major order. */
  predicate Before(p: Pos, q: Pos)
  {
    p.y < q.y || (p.y == q.y && p.x < q.x)
  }

  /** The destinations of the first i rows, cols wide, in row-major order. */
  function Destinations(cells: seq<char>, cols: nat, i: nat): (ds: seq<Pos>)
    requires |cells| == CELLS && cols <= SIZE && (cols > 0 ==> i <= SIZE)
  {
    if i == 0 then [] else Destinations(cells, cols, i - 1) + RowDestinations(cells, i - 1, cols)
  }

  /** A row's list holds exactly its destinations, left to right. */
  lemma RowDestinationsListed(cells: seq<char>, r: nat, j: nat)
    requires |cells| == CELLS && j <= SIZE && (j > 0 ==> r < SIZE)
    ensures var ds := RowDestinations(cells, r, j);
            (forall p :: p in ds <==> p.y == r && 0 <= p.x < j && IsDestination(cells[Index(p)]))
            && forall a, b :: 0 <= a < b < |ds| ==> ds[a].y == r && ds[a].x < ds[b].x && ds[b].y == r
  {
    forall p: Pos {
      RowDestinationFound(cells, r, j, p);
    }
    RowDestinationsInRow(cells, r, j);
    RowDestinationsIncreasing(cells, r, j);
  }

  lemma {:induction false} RowDestinationFound(cells: seq<char>, r: nat, j: nat, p: Pos)
    requires |cells| == CELLS && j <= SIZE && (j > 0 ==> r < SIZE)
    ensures p in RowDestinations(cells, r, j) <==> p.y == r && 0 <= p.x < j && IsDestination(cells[Index(p)])
  {
    if j > 0 {
      RowDestinationFound(cells, r, j - 1, p);
      assert Index(Pos(j - 1, r)) == SIZE * r + j - 1;
    }
  }

  lemma RowDestinationsStep(before: seq<Pos>, cells: seq<char>, r: nat, j: nat)
    requires |cells| == CELLS && j < SIZE && r < SIZE
    ensures before + RowDestinations(cells, r, j + 1)
            == (before + RowDestinations(cells, r, j)) + if IsDestination(cells[SIZE * r + j]) then [Pos(j, r)] else []
  {
  }

  lemma RowDestinationsInGrid(before: seq<Pos>, cells: seq<char>, r: nat, j: nat)
    requires |cells| == CELLS && j <= SIZE && (j > 0 ==> r < SIZE)
    requires forall k :: 0 <= k < |before| ==> InGrid(before[k])
    ensures var ds := before + RowDestinations(cells, r, j); forall k :: 0 <= k < |ds| ==> InGrid(ds[k])
  {
    RowDestinationsInRow(cells, r, j);
  }

  /** The scan records exactly the destinations of the scanned rectangle, in row-major order. */
  lemma DestinationsListed(cells: seq<char>, cols: nat, i: nat)
    requires |cells| == CELLS && cols <= SIZE && (cols > 0 ==> i <= SIZE)
    ensures var ds := Destinations(cells, cols, i);
            (forall p :: p in ds <==> 0 <= p.y < i && 0 <= p.x < cols && IsDestination(cells[Index(p)]))
            && forall a, b :: 0 <= a < b < |ds| ==> Before(ds[a], ds[b])
  {
    forall p: Pos {
      DestinationFound(cells, cols, i, p);
    }
    DestinationsOrdered(cells, cols, i);
  }

  lemma {:induction false} DestinationFound(cells: seq<char>, cols: nat, i: nat, p: Pos)
    requires |cells| == CELLS && cols <= SIZE && (cols > 0 ==> i <= SIZE)
    ensures p in Destinations(cells, cols, i) <==> 0 <= p.y < i && 0 <= p.x < cols && IsDestination(cells[Index(p)])
  {
    if i > 0 {
      DestinationFound(cells, cols, i - 1, p);
      RowDestinationFound(cells, i - 1, cols, p);
    }
  }

  lemma {:induction false} DestinationsOrdered(cells: seq<char>, cols: nat, i: nat)
    requires |cells| == CELLS && cols <= SIZE && (cols > 0 ==> i <= SIZE)
    ensures forall a, b :: 0 <= a < b < |Destinations(cells, cols, i)| ==>
              Before(Destinations(cells, cols, i)[a], Destinations(cells, cols, i)[b])
  {
    if i > 0 {
      DestinationsOrdered(cells, cols, i - 1);
      DestinationsAbove(cells, cols, i - 1);
      RowDestinationsInRow(cells, i - 1, cols);
      RowDestinationsIncreasing(cells, i - 1, cols);
      OrderedAppend(Destinations(cells, cols, i - 1), RowDestinations(cells, i - 1, cols), i - 1);
    }
  }

  /** Every destination listed for row r lies in that row, within its first j columns. */
  lemma {:induction false} RowDestinationsInRow(cells: seq<char>, r: nat, j: nat)
    requires |cells| == CELLS && j <= SIZE && (j > 0 ==> r < SIZE)
    ensures forall k :: 0 <= k < |RowDestinations(cells, r, j)| ==>
              RowDestinations(cells, r, j)[k].y == r && 0 <= RowDestinations(cells, r, j)[k].x < j
  {
    if j > 0 {
      RowDestinationsInRow(cells, r, j - 1);
      var prev, ds := RowDestinations(cells, r, j - 1), RowDestinations(cells, r, j);
      forall k | 0 <= k < |ds|
        ensures ds[k].y == r && 0 <= ds[k].x < j
      {
        if k < |prev| {
          assert ds[k] == prev[k];
        } else {
          assert ds == prev + [Pos(j - 1, r)];
        }
      }
    }
  }

  /** A row's destinations are listed left to right. */
  lemma {:induction false} RowDestinationsIncreasing(cells: seq<char>, r: nat, j: nat)
    requires |cells| == CELLS && j <= SIZE && (j > 0 ==> r < SIZE)
    ensures forall a, b :: 0 <= a < b < |RowDestinations(cells, r, j)| ==>
              RowDestinations(cells, r, j)[a].x < RowDestinations(cells, r, j)[b].x
  {
    if j > 0 {
      RowDestinationsIncreasing(cells, r, j - 1);
      RowDestinationsInRow(cells, r, j - 1);
      var prev, ds := RowDestinations(cells, r, j - 1), RowDestinations(cells, r, j);
      forall a, b | 0 <= a < b < |ds|
        ensures ds[a].x < ds[b].x
      {
        assert ds[a] == prev[a];
        if b < |prev| {
          assert ds[b] == prev[b];
        } else {
          assert ds == prev + [Pos(j - 1, r)];
        }
      }
    }
  }

  /** Every destination the scan of the first i rows lists lies in one of them. */
  lemma {:induction false} DestinationsAbove(cells: seq<char>, cols: nat, i: nat)
    requires |cells| == CELLS && cols <= SIZE && (cols > 0 ==> i <= SIZE)
    ensures forall k :: 0 <= k < |Destinations(cells, cols, i)| ==> Destinations(cells, cols, i)[k].y < i
  {
    if i > 0 {
      DestinationsAbove(cells, cols, i - 1);
      RowDestinationsInRow(cells, i - 1, cols);
      var prev, row := Destinations(cells, cols, i - 1), RowDestinations(cells, i - 1, cols);
      var ds := prev + row;
      forall k | 0 <= k < |ds|
        ensures ds[k].y < i
      {
        if k < |prev| {
          assert ds[k] == prev[k];
        } else {
          assert ds[k] == row[k - |prev|];
        }
      }
    }
  }

  /** Rows above r in order, followed by row r left to right, are in row-major order. */
  lemma OrderedAppend(before: seq<Pos>, row: seq<Pos>, r: int)
    requires forall a, b :: 0 <= a < b < |before| ==> Before(before[a], before[b])
    requires forall k :: 0 <= k < |before| ==> before[k].y < r
    requires forall k :: 0 <= k < |row| ==> row[k].y == r
    requires forall a, b :: 0 <= a < b < |row| ==> row[a].x < row[b].x
    ensures forall a, b :: 0 <= a < b < |before + row| ==> Before((before + row)[a], (before + row)[b])
  {
    var ds := before + row;
    forall a, b | 0 <= a < b < |ds|
      ensures Before(ds[a], ds[b])
    {
      if b < |before| {
        assert ds[a] == before[a] && ds[b] == before[b];
      } else if a >= |before| {
        assert ds[a] == row[a - |before|] && ds[b] == row[b - |before|];
      } else {
        assert ds[a] == before[a] && ds[b] == row[b - |before|];
      }
    }
  }

  /** The last player cell ('@') of row r in its first j columns. */
  function RowPlayer(cells: seq<char>, r: nat, j: nat): Option<Pos>
    requires |cells| == CELLS && j <= SIZE && (j > 0 ==> r < SIZE)
  {
    if j == 0 then None
    else if cells[SIZE * r + j - 1] == PLAYER then Some(Pos(j - 1, r))
    else RowPlayer(cells, r, j - 1)
  }

  /** RowPlayer finds a player cell of the row exactly when there is one, and no player cell follows it. */
  lemma {:induction false} RowPlayerFound(cells: seq<char>, r: nat, j: nat)
    requires |cells| == CELLS && j <= SIZE && (j > 0 ==> r < SIZE)
    ensures var q := RowPlayer(cells, r, j);
            (q.None? <==> forall x :: 0 <= x < j ==> cells[Index(Pos(x, r))] != PLAYER)
            && (q.Some? ==> q.value.y == r && 0 <= q.value.x < j && cells[Index(q.value)] == PLAYER
                            && forall x :: q.value.x < x < j ==> cells[Index(Pos(x, r))] != PLAYER)
  {
    if j > 0 {
      RowPlayerFound(cells, r, j - 1);
    }
  }

  /** The last player cell of the first i rows, cols wide, in row-major order. */
  function Player(cells: seq<char>, cols: nat, i: nat): Option<Pos>
    requires |cells| == CELLS && cols <= SIZE && (cols > 0 ==> i <= SIZE)
  {
    if i == 0 then None
    else
      var row := RowPlayer(cells, i - 1, cols);
      if row.Some? then row else Player(cells, cols, i - 1)
  }

  /** The scan's player is the last player cell of the rectangle in row-major order, and none is found
    * exactly when the rectangle has no player cell. */
  lemma {:induction false} PlayerFound(cells: seq<char>, cols: nat, i: nat)
    requires |cells| == CELLS && cols <= SIZE && (cols > 0 ==> i <= SIZE)
    ensures var q := Player(cells, cols, i);
            (q.None? <==> forall s :: InGrid(s) && s.y < i && s.x < cols ==> cells[Index(s)] != PLAYER)
            && (q.Some? ==> 0 <= q.value.y < i && 0 <= q.value.x < cols && cells[Index(q.value)] == PLAYER
                            && forall s :: InGrid(s) && s.y < i && s.x < cols && Before(q.value, s) ==> cells[Index(s)] != PLAYER)
  {
    if i > 0 {
      PlayerFound(cells, cols, i - 1);
      RowPlayerFound(cells, i - 1, cols);
    }
  }

  /** The player's position: the found one, or p when none was found. */
  function OrElse(q: Option<Pos>, p: Pos): Pos
  {
    if q.Some? then q.value else p
  }

  // ----- filrate -----

  /** How filrate redraws a destination cell: empty becomes 'X', a box becomes 'Q', anything else stays. */
  function Redraw(c: char): (r: char)
    ensures Boxed(r) == Boxed(c)
    ensures r == c || (c == EMPTY && r == DESTINATION) || (Boxed(c) && r == REACHED)
  {
    if c == EMPTY then DESTINATION else if Boxed(c) then REACHED else c
  }

  lemma RedrawIdempotent(c: char)
    ensures Redraw(Redraw(c)) == Redraw(c)
  {
  }

  /** The grid after filrate has redrawn each of the destinations in ds. */
  function Filled(cells: seq<char>, ds: seq<Pos>): (r: seq<char>)
    requires |cells| == CELLS && forall i :: 0 <= i < |ds| ==> InGrid(ds[i])
    ensures |r| == CELLS
  {
    if |ds| == 0 then cells
    else var r := Filled(cells, ds[..|ds| - 1]); r[Index(ds[|ds| - 1]) := Redraw(r[Index(ds[|ds| - 1])])]
  }

  /** Redrawing touches the destination cells only, each once whatever the repetitions. */
  lemma {:induction false} FilledCells(cells: seq<char>, ds: seq<Pos>, k: int)
    requires |cells| == CELLS && forall i :: 0 <= i < |ds| ==> InGrid(ds[i])
    requires 0 <= k < CELLS
    ensures Filled(cells, ds)[k] == if exists i :: 0 <= i < |ds| && Index(ds[i]) == k then Redraw(cells[k]) else cells[k]
  {
    if |ds| > 0 {
      var init := ds[..|ds| - 1];
      FilledCells(cells, init, k);
      RedrawIdempotent(cells[k]);
      if exists i :: 0 <= i < |init| && Index(init[i]) == k {
        var i :| 0 <= i < |init| && Index(init[i]) == k;
        assert ds[i] == init[i];
      }
      if exists i :: 0 <= i < |ds| && Index(ds[i]) == k {
        var i :| 0 <= i < |ds| && Index(ds[i]) == k;
        if i < |init| {
          assert init[i] == ds[i];
        }
      }
    }
  }

  /** One iteration of filrate's loop: destination i is redrawn, and whether it holds a box is read from it
    * as it was before the loop. */
  lemma FillStep(cells: seq<char>, ds: seq<Pos>, i: int)
    requires |cells| == CELLS && forall k :: 0 <= k < |ds| ==> InGrid(ds[k])
    requires 0 <= i < |ds|
    ensures var r := Filled(cells, ds[..i]); var k := Index(ds[i]);
            Filled(cells, ds[..i + 1]) == r[k := Redraw(r[k])] && Boxed(r[k]) == Boxed(cells[k])
            && (AllBoxed(cells, ds[..i + 1]) <==> AllBoxed(cells, ds[..i]) && Boxed(cells[k]))
  {
    assert ds[..i + 1][..i] == ds[..i];
    FilledCells(cells, ds[..i], Index(ds[i]));
  }

  /** Every destination holds a box. */
  predicate AllBoxed(cells: seq<char>, ds: seq<Pos>)
    requires |cells| == CELLS && forall i :: 0 <= i < |ds| ==> InGrid(ds[i])
  {
    forall i :: 0 <= i < |ds| ==> Boxed(cells[Index(ds[i])])
  }

  // ----- play_game -----

  /** The result of one move: the new grid, the player's new position, and whether anything moved. */
  datatype Step = Step(cells: seq<char>, man: Pos, moved: bool)

  /** The cells a move reads lie in the grid: the one ahead, and the one beyond it when that is read. */
  predicate CanLook(cells: seq<char>, man: Pos, d: Direction)
    requires |cells| == CELLS
  {
    InGrid(man) && InGrid(Ahead(man, d))
    && (var ahead := cells[Index(Ahead(man, d))];
        ahead != WALL && !Free(ahead) ==> InGrid(Ahead(Ahead(man, d), d)))
  }

  /** The move rule: a wall ahead blocks; a free cell ahead is walked into; anything else ahead is pushed
    * into the cell beyond when that one is free, and blocks otherwise. */
  function Move(cells: seq<char>, man: Pos, d: Direction): (s: Step)
    requires |cells| == CELLS && CanLook(cells, man, d)
    ensures |s.cells| == CELLS && InGrid(s.man)
    ensures s.moved <==> s.man == Ahead(man, d)
    ensures !s.moved ==> s == Step(cells, man, false)
    ensures cells[Index(Ahead(man, d))] == WALL ==> !s.moved
    ensures Free(cells[Index(Ahead(man, d))]) ==> s.moved && s.cells[Index(Ahead(man, d))] == PLAYER && s.cells[Index(man)] == EMPTY
  {
    var next := Ahead(man, d);
    var ahead := cells[Index(next)];
    if ahead == WALL then Step(cells, man, false)
    else if Free(ahead) then Step(cells[Index(next) := PLAYER][Index(man) := EMPTY], next, true)
    else
      var beyond := Ahead(next, d);
      if Free(cells[Index(beyond)]) then
        Step(cells[Index(beyond) := BOX][Index(next) := PLAYER][Index(man) := EMPTY], next, true)
      else Step(cells, man, false)
  }

  /** The number of boxed cells ('O' or 'Q') among the first n cells. */
  function BoxCount(cells: seq<char>, n: nat): nat
    requires n <= |cells|
  {
    if n == 0 then 0 else BoxCount(cells, n - 1) + if Boxed(cells[n - 1]) then 1 else 0
  }

  lemma {:induction false} BoxCountUpdate(cells: seq<char>, n: nat, k: nat, c: char)
    requires n <= |cells| && k < |cells|
    ensures BoxCount(cells[k := c], n) + (if k < n && Boxed(cells[k]) then 1 else 0)
            == BoxCount(cells, n) + (if k < n && Boxed(c) then 1 else 0)
  {
    if n > 0 {
      BoxCountUpdate(cells, n - 1, k, c);
    }
  }

  /** Standing on a player cell and facing a known symbol, a move neither makes nor loses a box, and the
    * player is again on a player cell. (Facing any other character, a push would make a box out of it.) */
  lemma MoveKeepsBoxes(cells: seq<char>, man: Pos, d: Direction)
    requires |cells| == CELLS && CanLook(cells, man, d) && cells[Index(man)] == PLAYER
    requires var c := cells[Index(Ahead(man, d))]; c == WALL || Free(c) || Boxed(c)
    ensures var s := Move(cells, man, d);
            BoxCount(s.cells, CELLS) == BoxCount(cells, CELLS) && s.cells[Index(s.man)] == PLAYER
  {
    var next := Ahead(man, d);
    IndexInjective(man, next);
    var ahead := cells[Index(next)];
    if ahead != WALL {
      if Free(ahead) {
        var c1 := cells[Index(next) := PLAYER];
        BoxCountUpdate(cells, CELLS, Index(next), PLAYER);
        BoxCountUpdate(c1, CELLS, Index(man), EMPTY);
      } else {
        var beyond := Ahead(next, d);
        IndexInjective(man, beyond);
        IndexInjective(next, beyond);
        if Free(cells[Index(beyond)]) {
          var c1 := cells[Index(beyond) := BOX];
          var c2 := c1[Index(next) := PLAYER];
          BoxCountUpdate(cells, CELLS, Index(beyond), BOX);
          BoxCountUpdate(c1, CELLS, Index(next), PLAYER);
          BoxCountUpdate(c2, CELLS, Index(man), EMPTY);
        }
      }
    }
  }

  /** Redrawing the destinations neither makes nor loses a box. */
  lemma {:induction false} FilledKeepsBoxes(cells: seq<char>, ds: seq<Pos>)
    requires |cells| == CELLS && forall i :: 0 <= i < |ds| ==> InGrid(ds[i])
    ensures BoxCount(Filled(cells, ds), CELLS) == BoxCount(cells, CELLS)
  {
    if |ds| > 0 {
      var init := ds[..|ds| - 1];
      FilledKeepsBoxes(cells, init);
      var r := Filled(cells, init);
      BoxCountUpdate(r, CELLS, Index(ds[|ds| - 1]), Redraw(r[Index(ds[|ds| - 1])]));
    }
  }

  /** What load_map leaves: a loaded level, a map error, or more destinations than the table holds. */
  datatype LoadStatus = Loaded | LoadError | DestinationOverflow

  /** What one call of play_game leaves: the win flag, or a read outside the grid. */
  datatype PlayOutcome = Played(win: bool) | OutOfGrid

  /** The game's board: the grid, the recorded destinations and the player. */
  class Board {
    const grid: array<char>
    const dests: array<Pos>
    var rows: int
    var cols: int
    var boxNum: int
    var man: Pos

    predicate Valid()
      reads this, dests
    {
      grid.Length == CELLS && dests.Length == MAX_DESTINATIONS && 0 <= boxNum <= MAX_DESTINATIONS
      && InGrid(man) && forall i :: 0 <= i < boxNum ==> InGrid(dests[i])
    }

    /** The recorded destinations. */
    function Targets(): (ds: seq<Pos>)
      reads this, dests
      requires Valid()
      ensures |ds| == boxNum && forall i :: 0 <= i < |ds| ==> InGrid(ds[i])
    {
      dests[..boxNum]
    }

    /** The static state before any level is loaded: the grid of NUL bytes, nothing recorded. */
    constructor()
      ensures Valid() && fresh(grid) && fresh(dests)
      ensures grid[..] == seq(CELLS, _ => '\0') && rows == 0 && cols == 0 && boxNum == 0 && man == Pos(0, 0)
    {
      grid := new char[CELLS](_ => '\0');
      dests := new Pos[MAX_DESTINATIONS](_ => Pos(0, 0));
      rows, cols, boxNum, man := 0, 0, 0, Pos(0, 0);
    }

    /** The parse loop of load_map, writing into the grid. */
    method Parse(buffer: seq<char>) returns (ok: bool, row: nat, col: nat)
      requires Valid()
      modifies grid
      ensures var l := Load(old(grid[..]), buffer, 0, 0, 0);
              grid[..] == l.cells && ok == l.Parsed? && (ok ==> row == l.row && col == l.col)
    {
      var i := 0;
      row, col := 0, 0;
      while i < |buffer|
        invariant 0 <= i <= |buffer| && col <= SIZE && (col > 0 ==> row < SIZE)
        invariant Load(old(grid[..]), buffer, 0, 0, 0) == Load(grid[..], buffer, i, row, col)
      {
        var c := buffer[i];
        if c != '\0' {
          if c == '\n' {
            row, col := row + 1, 0;
          } else if row < SIZE && col < SIZE {
            grid[SIZE * row + col] := c;
            col := col + 1;
          } else {
            return false, row, col;
          }
        }
        i := i + 1;
      }
      return true, row, col;
    }

    /** The scan of load_map over rows x cols, recording destinations and the player. */
    method Scan(rows': nat, cols': nat)
      requires Valid() && cols' <= SIZE && (cols' > 0 ==> rows' <= SIZE)
      requires |Destinations(grid[..], cols', rows')| <= MAX_DESTINATIONS
      modifies this, dests
      ensures Valid() && rows == rows' && cols == cols'
      ensures Targets() == Destinations(grid[..], cols', rows')
      ensures man == OrElse(Player(grid[..], cols', rows'), old(man))
    {
      ghost var cells := grid[..];
      ghost var man0 := man;
      rows, cols := rows', cols';
      boxNum := 0;
      var i := 0;
      while i < rows'
        invariant 0 <= i <= rows' && grid[..] == cells && rows == rows' && cols == cols' && InGrid(man)
        invariant 0 <= boxNum <= MAX_DESTINATIONS && forall k :: 0 <= k < boxNum ==> InGrid(dests[k])
        invariant dests[..boxNum] == Destinations(cells, cols', i)
        invariant man == OrElse(Player(cells, cols', i), man0)
      {
        DestinationsGrow(cells, cols', i + 1, rows');
        ScanRow(i);
        i := i + 1;
      }
    }

    /** One row of the scan. */
    method ScanRow(i: nat)
      requires Valid() && 0 <= cols <= SIZE && (cols > 0 ==> i < SIZE)
      requires dests[..boxNum] == Destinations(grid[..], cols, i)
      requires |Destinations(grid[..], cols, i + 1)| <= MAX_DESTINATIONS
      modifies this, dests
      ensures Valid() && rows == old(rows) && cols == old(cols)
      ensures dests[..boxNum] == Destinations(grid[..], cols, i + 1)
      ensures man == OrElse(RowPlayer(grid[..], i, cols), old(man))
    {
      ghost var before := dests[..boxNum];
      var n, m := RowScan(i, cols, boxNum, man);
      RowDestinationsInGrid(before, grid[..], i, cols);
      RowPlayerFound(grid[..], i, cols);
      assert forall k :: 0 <= k < n ==> dests[k] == dests[..n][k];
      boxNum, man := n, m;
    }

    /** The loop over the columns of row i, from n destinations recorded and player position m. */
    method RowScan(i: nat, w: nat, n0: nat, m0: Pos) returns (n: nat, m: Pos)
      requires grid.Length == CELLS && dests.Length == MAX_DESTINATIONS && w <= SIZE && (w > 0 ==> i < SIZE)
      requires n0 + |RowDestinations(grid[..], i, w)| <= MAX_DESTINATIONS
      modifies dests
      ensures n == n0 + |RowDestinations(grid[..], i, w)|
      ensures dests[..n] == old(dests[..n0]) + RowDestinations(grid[..], i, w)
      ensures m == OrElse(RowPlayer(grid[..], i, w), m0)
    {
      ghost var cells := grid[..];
      ghost var before := dests[..n0];
      n, m := n0, m0;
      var j := 0;
      while j < w
        invariant 0 <= j <= w && |cells| == CELLS
        invariant n == n0 + |RowDestinations(cells, i, j)| && |RowDestinations(cells, i, j)| <= |RowDestinations(cells, i, w)|
        invariant dests[..n] == before + RowDestinations(cells, i, j)
        invariant m == OrElse(RowPlayer(cells, i, j), m0)
      {
        RowDestinationsGrow(cells, i, j + 1, w);
        RowDestinationsStep(before, cells, i, j);
        n, m := ScanCell(i, j, n, m);
        j := j + 1;
      }
    }

    /** One cell of the scan: a destination is recorded at index n, a player cell becomes the position. */
    method ScanCell(i: nat, j: nat, n: nat, m: Pos) returns (n': nat, m': Pos)
      requires grid.Length == CELLS && dests.Length == MAX_DESTINATIONS && i < SIZE && j < SIZE
      requires IsDestination(grid[SIZE * i + j]) ==> n < MAX_DESTINATIONS
      requires n <= MAX_DESTINATIONS
      modifies dests
      ensures var c := grid[SIZE * i + j];
              n' == (if IsDestination(c) then n + 1 else n)
              && dests[..n'] == old(dests[..n]) + (if IsDestination(c) then [Pos(j, i)] else [])
              && m' == if c == PLAYER then Pos(j, i) else m
    {
      n', m' := n, m;
      var c := grid[SIZE * i + j];
      if c == DESTINATION || c == REACHED {
        dests[n] := Pos(j, i);
        n' := n + 1;
      }
      if c == PLAYER {
        m' := Pos(j, i);
      }
    }

    /** load_map: on a map error the row, column and destination counts keep their old values. A level
      * with more destinations than x_pos and y_pos hold, which the C scan would write past their end, is
      * reported as DestinationOverflow once rows and cols are set, before the scan. */
    method LoadMap(buffer: seq<char>) returns (status: LoadStatus)
      requires Valid()
      modifies this, grid, dests
      ensures Valid()
      ensures var l := Load(old(grid[..]), buffer, 0, 0, 0);
              grid[..] == l.cells && (status.LoadError? <==> l.MapError?)
              && (status.DestinationOverflow? <==>
                    l.Parsed? && |Destinations(l.cells, l.col, l.row + 1)| > MAX_DESTINATIONS)
              && (status.Loaded? ==> rows == l.row + 1 && cols == l.col
                                     && Targets() == Destinations(l.cells, l.col, l.row + 1)
                                     && man == OrElse(Player(l.cells, l.col, l.row + 1), old(man)))
              && (status.LoadError? ==> rows == old(rows) && cols == old(cols))
              && (status.DestinationOverflow? ==> rows == l.row + 1 && cols == l.col)
              && (!status.Loaded? ==> boxNum == old(boxNum) && man == old(man) && dests[..] == old(dests[..]))
    {
      var ok, row, col := Parse(buffer);
      if !ok {
        return LoadError;
      }
      if |Destinations(grid[..], col, row + 1)| > MAX_DESTINATIONS {
        rows, cols := row + 1, col;
        return DestinationOverflow;
      }
      Scan(row + 1, col);
      return Loaded;
    }

    /** filrate: redraws the destinations and reports whether each of them holds a box. */
    method Fill() returns (win: bool)
      requires Valid()
      modifies grid
      ensures grid[..] == Filled(old(grid[..]), Targets())
      ensures win == AllBoxed(old(grid[..]), Targets())
    {
      ghost var cells := grid[..];
      ghost var ds := Targets();
      var i, j := 0, 0;
      while i < boxNum
        invariant 0 <= j <= i <= boxNum
        invariant grid[..] == Filled(cells, ds[..i])
        invariant j == i <==> AllBoxed(cells, ds[..i])
      {
        var p := dests[i];
        var c := grid[Index(p)];
        FillStep(cells, ds, i);
        if c == EMPTY {
          grid[Index(p)] := DESTINATION;
        }
        if c == BOX || c == REACHED {
          grid[Index(p)] := REACHED;
          j := j + 1;
        }
        i := i + 1;
      }
      assert ds[..boxNum] == ds;
      win := j == boxNum;
    }

    /** play_game: one move; after a move the destinations are redrawn and the win is reported. A move
      * that would read a cell outside the 50x50 grid, which the C code reads unchecked, is reported as
      * OutOfGrid and changes nothing. */
    method Play(d: Direction) returns (r: PlayOutcome)
      requires Valid()
      modifies this, grid
      ensures Valid() && boxNum == old(boxNum) && rows == old(rows) && cols == old(cols)
      ensures r.OutOfGrid? <==> !CanLook(old(grid[..]), old(man), d)
      ensures r.OutOfGrid? ==> grid[..] == old(grid[..]) && man == old(man)
      ensures r.Played? ==> var s := Move(old(grid[..]), old(man), d);
              man == s.man && r.win == (s.moved && AllBoxed(s.cells, Targets()))
              && grid[..] == if s.moved then Filled(s.cells, Targets()) else s.cells
    {
      var next := Ahead(man, d);
      if !InGrid(next) {
        return OutOfGrid;
      }
      var ahead := grid[Index(next)];
      var moved := false;
      if ahead != WALL {
        if ahead == EMPTY || ahead == DESTINATION {
          grid[Index(next)] := PLAYER;
          grid[Index(man)] := EMPTY;
          man := next;
          moved := true;
        } else {
          var beyond := Ahead(next, d);
          if !InGrid(beyond) {
            return OutOfGrid;
          }
          var c := grid[Index(beyond)];
          if c == DESTINATION || c == EMPTY {
            grid[Index(beyond)] := BOX;
            grid[Index(next)] := PLAYER;
            grid[Index(man)] := EMPTY;
            man := next;
            moved := true;
          }
        }
      }
      var win := false;
      if moved {
        win := Fill();
      }
      return Played(win);
    }
  }

  lemma {:induction false} RowDestinationsGrow(cells: seq<char>, r: nat, j: nat, n: nat)
    requires |cells| == CELLS && j <= n <= SIZE && (n > 0 ==> r < SIZE)
    decreases n - j
    ensures |RowDestinations(cells, r, j)| <= |RowDestinations(cells, r, n)|
  {
    if j < n {
      RowDestinationsGrow(cells, r, j + 1, n);
    }
  }

  lemma {:induction false} DestinationsGrow(cells: seq<char>, cols: nat, i: nat, n: nat)
    requires |cells| == CELLS && cols <= SIZE && i <= n && (cols > 0 ==> n <= SIZE)
    decreases n - i
    ensures |Destinations(cells, cols, i)| <= |Destinations(cells, cols, n)|
  {
    if i < n {
      DestinationsGrow(cells, cols, i + 1, n);
    }
  }

  /** After a move, an empty destination shows 'X' again, a boxed one 'Q', and the level is won exactly when
    * every destination holds a box. */
  lemma FilledDestinations(cells: seq<char>, ds: seq<Pos>, i: int)
    requires |cells| == CELLS && forall k :: 0 <= k < |ds| ==> InGrid(ds[k])
    requires 0 <= i < |ds|
    ensures var c := cells[Index(ds[i])]; var f := Filled(cells, ds)[Index(ds[i])];
            (c == EMPTY ==> f == DESTINATION) && (Boxed(c) ==> f == REACHED) && (Boxed(f) <==> Boxed(c))
  {
    FilledCells(cells, ds, Index(ds[i]));
  }
}
