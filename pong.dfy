/** The `pong` game's rules: each tick drains the pending keys, moving the bats, then moves the ball, scoring
  * when it reaches either edge and bouncing it off the bats and the top and bottom edges. Positions are in
  * cells of 10x10 pixels and are unsigned 32-bit values, so arithmetic on them wraps modulo 2^32 as in C.
  * Drawing (EFI blt fills), the 50 ms sleep and the digit patterns' rendering are left out; each tick's keys
  * are an input sequence. */
module Pong {

  const U32_RANGE := 0x1_0000_0000
  const CELL_SIZE := 10
  const BAT_CELLS := 10
  const BAT_SPEED := 4
  const MAX_SCORE := 9
  /** Entries of the digit-pattern table. */
  const DIGITS := 10

  const KEY_NONE := 0
  const KEY_ESC := 0x1B
  const KEY_UP := 0x80_0048
  const KEY_DOWN := 0x80_0050
  const KEY_LEFT_UP := 's' as int
  const KEY_LEFT_DOWN := 'x' as int

  type U32 = n: int | 0 <= n < 0x1_0000_0000

  function Wrap(n: int): (r: U32)
    ensures 0 <= n < U32_RANGE ==> r == n
  {
    n % U32_RANGE
  }

  /** `bat_block_ball`: the unsigned x-distance is 1 and the ball's row lies within the bat's cells. */
  function BatBlocksBall(batx: U32, baty: U32, ballx: U32, bally: U32): bool
  {
    (Wrap(batx - ballx) == 1 || Wrap(ballx - batx) == 1) && baty <= bally && Wrap(baty + BAT_CELLS) >= bally
  }

  /** Away from wrap-around, blocking means being in the column next to the bat and between its rows. */
  lemma BatBlocksBallMeans(batx: U32, baty: U32, ballx: U32, bally: U32)
    requires baty + BAT_CELLS < U32_RANGE && batx + 1 < U32_RANGE && ballx + 1 < U32_RANGE
    ensures BatBlocksBall(batx, baty, ballx, bally) <==>
              (ballx == batx + 1 || batx == ballx + 1) && baty <= bally <= baty + BAT_CELLS
  {
    assert batx - ballx < 0 ==> Wrap(batx - ballx) == batx - ballx + U32_RANGE;
    assert ballx - batx < 0 ==> Wrap(ballx - batx) == ballx - batx + U32_RANGE;
  }

  /** A bat moved up: 4 cells, stopping at 0. */
  function BatUp(pos: U32): (r: U32)
    ensures pos >= BAT_SPEED ==> r == pos - BAT_SPEED
    ensures pos < BAT_SPEED ==> r == 0
  {
    if pos < BAT_SPEED then 0 else pos - BAT_SPEED
  }

  /** A bat moved down: 4 cells, stopping at the lowest position. */
  function BatDown(pos: U32, lowest: U32): (r: U32)
    ensures r <= lowest
    ensures pos + BAT_SPEED < U32_RANGE ==> r == if pos + BAT_SPEED > lowest then lowest else pos + BAT_SPEED
  {
    var p := Wrap(pos + BAT_SPEED);
    if p > lowest then lowest else p
  }

  /** A bat within [0, lowest] stays there whichever way it moves. */
  lemma BatStaysOnScreen(pos: U32, lowest: U32)
    requires pos <= lowest
    ensures BatUp(pos) <= lowest && BatDown(pos, lowest) <= lowest
    ensures BatUp(pos) <= pos && pos - BatUp(pos) <= BAT_SPEED
    ensures pos + BAT_SPEED < U32_RANGE ==> pos <= BatDown(pos, lowest) && BatDown(pos, lowest) - pos <= BAT_SPEED
  {
  }

  datatype Game = Game(width: U32, height: U32, ballx: U32, bally: U32, speedx: int, speedy: int,
                       lScore: nat, rScore: nat, lBat: U32, rBat: U32, stop: bool)

  function Lowest(g: Game): U32
  {
    Wrap(g.height - BAT_CELLS)
  }

  /** The game as the command sets it up for a screen of the given size in pixels. */
  function Initial(screenWidth: U32, screenHeight: U32): (g: Game)
    ensures g.ballx == g.width / 2 && g.bally == g.height / 2 && g.speedx == -1 && g.speedy == 1
    ensures g.lScore == 0 && g.rScore == 0 && g.lBat == g.rBat && !g.stop
    ensures g.height >= BAT_CELLS / 2 * 2 ==> g.lBat + BAT_CELLS / 2 == g.height / 2
  {
    var w, h := screenWidth / CELL_SIZE, screenHeight / CELL_SIZE;
    Game(w, h, w / 2, h / 2, -1, 1, 0, 0, Wrap(h / 2 - BAT_CELLS / 2), Wrap(h / 2 - BAT_CELLS / 2), false)
  }

  /** One key read by the tick's key loop. */
  function Key(g: Game, key: int): (r: Game)
    ensures r.stop == (g.stop || key == KEY_ESC)
    ensures r == g.(lBat := r.lBat, rBat := r.rBat, stop := r.stop)
  {
    var g1 := g.(stop := g.stop || key == KEY_ESC);
    var g2 := if key == KEY_LEFT_UP then g1.(lBat := BatUp(g1.lBat))
              else if key == KEY_LEFT_DOWN then g1.(lBat := BatDown(g1.lBat, Lowest(g1)))
              else g1;
    if key == KEY_UP then g2.(rBat := BatUp(g2.rBat))
    else if key == KEY_DOWN then g2.(rBat := BatDown(g2.rBat, Lowest(g2)))
    else g2
  }

  /** The key loop: keys are read until none is pending (0). */
  function Keys(g: Game, keys: seq<int>): (r: Game)
    decreases |keys|
    ensures r == g.(lBat := r.lBat, rBat := r.rBat, stop := r.stop)
  {
    if |keys| == 0 || keys[0] == KEY_NONE then g else Keys(Key(g, keys[0]), keys[1..])
  }

  /** The horizontal rule: a score at either edge re-centres the ball, a bat reverses it. */
  function Hit(g: Game): (r: Game)
    ensures r == g.(ballx := r.ballx, bally := r.bally, speedx := r.speedx, lScore := r.lScore,
                    rScore := r.rScore, stop := r.stop)
  {
    if g.ballx == 0 then
      g.(rScore := g.rScore + 1, stop := g.stop || g.rScore + 1 >= MAX_SCORE, ballx := g.width / 2,
         bally := g.height / 2, speedx := -g.speedx)
    else if g.ballx == g.width then
      g.(lScore := g.lScore + 1, stop := g.stop || g.lScore + 1 >= MAX_SCORE, ballx := g.width / 2,
         bally := g.height / 2, speedx := -g.speedx)
    else if BatBlocksBall(0, g.lBat, g.ballx, g.bally) || BatBlocksBall(Wrap(g.width - 1), g.rBat, g.ballx, g.bally) then
      g.(speedx := -g.speedx)
    else g
  }

  /** The vertical rule: the top and bottom rows reverse the ball. */
  function Bounce(g: Game): (r: Game)
    ensures r == g.(speedy := r.speedy)
    ensures r.speedy == if g.bally == 0 || g.bally >= g.height then -g.speedy else g.speedy
  {
    if g.bally <= 0 || g.bally >= g.height then g.(speedy := -g.speedy) else g
  }

  /** The ball advances by its speed, in unsigned 32-bit arithmetic. */
  function Advance(g: Game): (r: Game)
    ensures r == g.(ballx := r.ballx, bally := r.bally)
  {
    g.(ballx := Wrap(g.ballx + g.speedx), bally := Wrap(g.bally + g.speedy))
  }

  /** The ball's move at the end of a tick. */
  function Ball(g: Game): Game
  {
    Advance(Bounce(Hit(g)))
  }

  function Tick(g: Game, keys: seq<int>): Game
  {
    Ball(Keys(g, keys))
  }

  /** The game loop over the ticks' keys, ending when the game stops. */
  function Run(g: Game, ticks: seq<seq<int>>): Game
    decreases |ticks|
  {
    if g.stop || |ticks| == 0 then g else Run(Tick(g, ticks[0]), ticks[1..])
  }

  /** A running game: speeds of one cell and scores below 9. */
  predicate Running(g: Game)
  {
    (g.speedx == 1 || g.speedx == -1) && (g.speedy == 1 || g.speedy == -1) && g.lScore < MAX_SCORE && g.rScore < MAX_SCORE
  }

  /** Ball at x = 0 scores for the right player, at x = width for the left; either way the ball re-centres and
    * its horizontal direction reverses. A score reaching 9 stops the game, so every score drawn indexes the
    * 10-entry digit table. */
  lemma BallRules(g: Game)
    requires Running(g)
    ensures var r := Ball(g);
            r.lScore <= MAX_SCORE && r.rScore <= MAX_SCORE && r.lScore < DIGITS && r.rScore < DIGITS
            && (r.lScore == MAX_SCORE || r.rScore == MAX_SCORE ==> r.stop)
            && (g.ballx == 0 ==> r.rScore == g.rScore + 1 && r.lScore == g.lScore && r.speedx == -g.speedx)
            && (g.ballx != 0 && g.ballx == g.width ==> r.lScore == g.lScore + 1 && r.rScore == g.rScore && r.speedx == -g.speedx)
            && (g.ballx != 0 && g.ballx != g.width ==> r.lScore == g.lScore && r.rScore == g.rScore)
  {
  }

  /** A tick of a running game leaves it running or stopped, never with a score past 9. */
  lemma TickKeepsRunning(g: Game, keys: seq<int>)
    requires Running(g)
    ensures var r := Tick(g, keys);
            r.stop || Running(r)
    ensures Tick(g, keys).lScore <= MAX_SCORE && Tick(g, keys).rScore <= MAX_SCORE
  {
    BallRules(Keys(g, keys));
  }

  /** Over a whole game from a running state, no score passes 9; the game ends stopped or out of ticks. */
  lemma {:induction false} RunKeepsScores(g: Game, ticks: seq<seq<int>>)
    requires Running(g)
    decreases |ticks|
    ensures var r := Run(g, ticks);
            r.lScore <= MAX_SCORE && r.rScore <= MAX_SCORE && (r.stop || Running(r))
  {
    if !g.stop && |ticks| > 0 {
      var t := Tick(g, ticks[0]);
      TickKeepsRunning(g, ticks[0]);
      if !t.stop {
        RunKeepsScores(t, ticks[1..]);
      }
    }
  }

  /** The state of `grub_cmd_pong`'s locals. */
  class Pong {
    var width: U32
    var height: U32
    var ballx: U32
    var bally: U32
    var speedx: int
    var speedy: int
    var lScore: nat
    var rScore: nat
    var lBat: U32
    var rBat: U32
    var stop: bool

    function Abs(): Game
      reads this
    {
      Game(width, height, ballx, bally, speedx, speedy, lScore, rScore, lBat, rBat, stop)
    }

    constructor(screenWidth: U32, screenHeight: U32)
      ensures Abs() == Initial(screenWidth, screenHeight)
    {
      width, height := screenWidth / CELL_SIZE, screenHeight / CELL_SIZE;
      ballx, bally := screenWidth / CELL_SIZE / 2, screenHeight / CELL_SIZE / 2;
      lBat := Wrap(screenHeight / CELL_SIZE / 2 - BAT_CELLS / 2);
      rBat := lBat;
      speedx, speedy := -1, 1;
      lScore, rScore := 0, 0;
      stop := false;
    }

    /** The key loop of one tick. */
    method ReadKeys(keys: seq<int>)
      modifies this
      ensures Abs() == Keys(old(Abs()), keys)
    {
      var k := 0;
      var lowest := Wrap(height - BAT_CELLS);
      while k < |keys| && keys[k] != KEY_NONE
        invariant 0 <= k <= |keys| && lowest == Lowest(Abs())
        invariant Keys(old(Abs()), keys) == Keys(Abs(), keys[k..])
      {
        var key := keys[k];
        assert keys[k..][0] == key && keys[k..][1..] == keys[k + 1..];
        if key == KEY_ESC {
          stop := true;
        }
        if key == KEY_LEFT_UP {
          lBat := BatUp(lBat);
        } else if key == KEY_LEFT_DOWN {
          lBat := BatDown(lBat, lowest);
        }
        if key == KEY_UP {
          rBat := BatUp(rBat);
        } else if key == KEY_DOWN {
          rBat := BatDown(rBat, lowest);
        }
        k := k + 1;
      }
    }

    /** The ball's move at the end of the tick. */
    method MoveBall()
      modifies this
      ensures Abs() == Ball(old(Abs()))
    {
      HitBall();
      BounceBall();
      ballx := Wrap(ballx + speedx);
      bally := Wrap(bally + speedy);
    }

    method HitBall()
      modifies this
      ensures Abs() == Hit(old(Abs()))
    {
      if ballx == 0 {
        rScore := rScore + 1;
        if rScore >= MAX_SCORE {
          stop := true;
        }
        ballx, bally := width / 2, height / 2;
        speedx := -speedx;
      } else if ballx == width {
        lScore := lScore + 1;
        if lScore >= MAX_SCORE {
          stop := true;
        }
        ballx, bally := width / 2, height / 2;
        speedx := -speedx;
      } else if BatBlocksBall(0, lBat, ballx, bally) || BatBlocksBall(Wrap(width - 1), rBat, ballx, bally) {
        speedx := -speedx;
      }
    }

    method BounceBall()
      modifies this
      ensures Abs() == Bounce(old(Abs()))
    {
      if bally <= 0 || bally >= height {
        speedy := -speedy;
      }
    }

    /** The game loop, for as many ticks as there are key sequences or until the game stops. */
    method Play(ticks: seq<seq<int>>)
      modifies this
      ensures Abs() == Run(old(Abs()), ticks)
    {
      var t := 0;
      while t < |ticks| && !stop
        invariant 0 <= t <= |ticks|
        invariant Run(old(Abs()), ticks) == Run(Abs(), ticks[t..])
      {
        assert ticks[t..][0] == ticks[t] && ticks[t..][1..] == ticks[t + 1..];
        ReadKeys(ticks[t]);
        MoveBall();
        t := t + 1;
      }
    }
  }
}
