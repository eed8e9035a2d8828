/**
 * The rules of one tick of the game loop, as functions on values.
 *
 * A tick runs these steps in order:
 *  1. The ball moves and bounces off the top and bottom walls.
 *  2. The key read this tick moves a paddle or asks to quit.
 *  3. In the computer mode, the computer moves the right paddle.
 *  4. In the wall mode, the wall rules apply.
 *  5. A ball on a paddle turns back.
 *  6. In the two-player modes, a goal scores and re-centres the ball.
 *  7. A score at the limit ends the game.
 * Each step is one function here.  The session's Game.Tick method is proved
 * to do exactly what Tick says.
 */
module Rules {
  import opened Entities

  datatype Option<T> = None | Some(value: T)

  /** The game's settings, fixed for a whole session. The floating-point speed is not part of the model. */
  datatype Config = Config(maxScore: int, fieldWidth: int, fieldHeight: int, paddleHeight: int)
  {
    /**
     * The settings the game expects: a positive score limit, a field wider
     * and higher than four cells, and a paddle between one row and the
     * field's height less the two walls.
     */
    predicate Valid()
    {
      && maxScore > 0
      && fieldWidth > 4
      && fieldHeight > 4
      && 1 <= paddleHeight <= fieldHeight - 2
    }
  }

  /**
   * The game's `n / 2` on a C++ `int`: the quotient is truncated toward
   * zero, so a negative odd setting is rounded up, not down.
   */
  function HalfTowardZero(n: int): (h: int)
    ensures n >= 0 ==> 0 <= n - 2 * h <= 1
    ensures n < 0 ==> -1 <= n - 2 * h <= 0
  {
    if n >= 0 then n / 2 else -((-n) / 2)
  }

  /** The three ways to play. */
  datatype Mode = PlayerVsPlayer | PlayerVsComputer | PlayerVsWall

  /** The number gameLoop receives for each mode. */
  function ModeNumber(mode: Mode): int
  {
    match mode
    case PlayerVsPlayer => 1
    case PlayerVsComputer => 2
    case PlayerVsWall => 3
  }

  /**
   * The main menu's choice of game: entries 0, 1 and 2 start a game in the
   * mode numbered one more; every other entry is not a game.
   */
  function ModeOfMenuChoice(choice: int): (mode: Option<Mode>)
    ensures mode.Some? <==> 0 <= choice <= 2
    ensures mode.Some? ==> ModeNumber(mode.value) == choice + 1
  {
    if choice == 0 then Some(PlayerVsPlayer)
    else if choice == 1 then Some(PlayerVsComputer)
    else if choice == 2 then Some(PlayerVsWall)
    else None
  }

  /**
   * The key read in one tick: `w` and `s` move the left paddle, the up and
   * down arrows the right paddle, `q` quits; Other stands for no key and for
   * every key the game ignores.
   */
  datatype Key = W | S | Up | Down | Q | Other

  /** Everything one tick reads and writes: both paddles, the ball, both scores and the running flag. */
  datatype World = World(
    player1: PaddleState,
    player2: PaddleState,
    ball: BallState,
    player1Score: int,
    player2Score: int,
    isRunning: bool)

  /**
   * The state gameLoop starts from: the paddles in columns 1 and
   * fieldWidth - 2, vertically centred; the ball in the middle of the field
   * moving right and down; no points; running.
   */
  function Initial(cfg: Config): (w: World)
    ensures w.player1Score == 0 && w.player2Score == 0 && w.isRunning
    ensures w.player1.x == 1 && w.player2.x == cfg.fieldWidth - 2
    ensures w.player1.y == w.player2.y == HalfTowardZero(cfg.fieldHeight) - HalfTowardZero(cfg.paddleHeight)
    ensures w.player1.height == cfg.paddleHeight && w.player2.height == cfg.paddleHeight
    ensures w.ball == BallState(HalfTowardZero(cfg.fieldWidth), HalfTowardZero(cfg.fieldHeight), 1, 1)
  {
    var top := HalfTowardZero(cfg.fieldHeight) - HalfTowardZero(cfg.paddleHeight);
    World(
      PaddleState(1, top, cfg.paddleHeight),
      PaddleState(cfg.fieldWidth - 2, top, cfg.paddleHeight),
      BallState(HalfTowardZero(cfg.fieldWidth), HalfTowardZero(cfg.fieldHeight), 1, 1),
      0, 0, true)
  }

  /** Step 1: the ball moves, then bounces off the top or bottom wall. */
  function Advance(cfg: Config, ball: BallState): (b: BallState)
    ensures b.x == ball.x + ball.dx && b.y == ball.y + ball.dy && b.dx == ball.dx
    ensures b.dy == (if 1 < b.y < cfg.fieldHeight - 2 then ball.dy else -ball.dy)
  {
    ball.Moved().Bounced(cfg.fieldHeight)
  }

  /** Step 2: the key moves one paddle (the right one in every mode) or clears the running flag. */
  function ApplyKey(cfg: Config, key: Key, w: World): (r: World)
    ensures r.ball == w.ball
    ensures r.player1Score == w.player1Score && r.player2Score == w.player2Score
    ensures r.isRunning == (w.isRunning && key != Q)
    ensures r.player1 == (if key == W then w.player1.MovedUp()
                          else if key == S then w.player1.MovedDown(cfg.fieldHeight)
                          else w.player1)
    ensures r.player2 == (if key == Up then w.player2.MovedUp()
                          else if key == Down then w.player2.MovedDown(cfg.fieldHeight)
                          else w.player2)
  {
    match key
    case W => w.(player1 := w.player1.MovedUp())
    case S => w.(player1 := w.player1.MovedDown(cfg.fieldHeight))
    case Up => w.(player2 := w.player2.MovedUp())
    case Down => w.(player2 := w.player2.MovedDown(cfg.fieldHeight))
    case Q => w.(isRunning := false)
    case Other => w
  }

  /**
   * Step 3, in the computer mode only: the right paddle moves up when the
   * ball is above its top row, then down when the ball is below its row
   * y + height.  The second test reads the paddle as the first one left it.
   */
  function ComputerMove(cfg: Config, mode: Mode, w: World): (r: World)
    ensures r == w.(player2 := r.player2)
    ensures mode != PlayerVsComputer ==> r == w
  {
    if mode != PlayerVsComputer then w else
    var up := if w.ball.y < w.player2.y then w.player2.MovedUp() else w.player2;
    var down := if w.ball.y > up.y + up.height then up.MovedDown(cfg.fieldHeight) else up;
    w.(player2 := down)
  }

  /**
   * Step 4, in the wall mode only: on the right edge the player scores and
   * the ball is re-centred and turned twice (once by the reset, once after
   * it); a ball on the left paddle turns; a ball on the left edge turns.
   */
  function WallRules(cfg: Config, mode: Mode, w: World): (r: World)
    ensures r.player1 == w.player1 && r.player2 == w.player2
    ensures r.player2Score == w.player2Score && r.isRunning == w.isRunning
    ensures mode != PlayerVsWall ==> r == w
  {
    if mode != PlayerVsWall then w else
    var atRight := w.ball.x >= cfg.fieldWidth - 1;
    var served := if atRight then w.ball.Reset(HalfTowardZero(cfg.fieldWidth), HalfTowardZero(cfg.fieldHeight)).Reflected() else w.ball;
    var score := if atRight then w.player1Score + 1 else w.player1Score;
    var hit := if served.CheckPaddleCollision(w.player1) then served.Reflected() else served;
    var edge := if hit.x <= 0 then hit.Reflected() else hit;
    w.(ball := edge, player1Score := score)
  }

  /** Step 5 (every mode): a ball on either paddle turns horizontally, once. */
  function PaddleRebound(w: World): (r: World)
    ensures r.ball.x == w.ball.x && r.ball.y == w.ball.y && r.ball.dy == w.ball.dy
    ensures r == w.(ball := r.ball)
    ensures w.ball.CheckPaddleCollision(w.player1) || w.ball.CheckPaddleCollision(w.player2) ==> r.ball == w.ball.Reflected()
    ensures !w.ball.CheckPaddleCollision(w.player1) && !w.ball.CheckPaddleCollision(w.player2) ==> r == w
  {
    if w.ball.CheckPaddleCollision(w.player1) || w.ball.CheckPaddleCollision(w.player2) then
      w.(ball := w.ball.Reflected())
    else
      w
  }

  /**
   * Step 6, outside the wall mode: a ball on the left edge is a point for
   * the right player, one on the right edge a point for the left player,
   * and either way the ball is reset to the centre.
   */
  function Goals(cfg: Config, mode: Mode, w: World): (r: World)
    ensures r.player1 == w.player1 && r.player2 == w.player2 && r.isRunning == w.isRunning
    ensures mode == PlayerVsWall ==> r == w
  {
    if w.ball.OutOfBounds(cfg.fieldWidth) && mode != PlayerVsWall then
      w.(player2Score := if w.ball.x <= 0 then w.player2Score + 1 else w.player2Score,
         player1Score := if w.ball.x >= cfg.fieldWidth - 1 then w.player1Score + 1 else w.player1Score,
         ball := w.ball.Reset(HalfTowardZero(cfg.fieldWidth), HalfTowardZero(cfg.fieldHeight)))
    else
      w
  }

  /** Step 7: a score at or above the limit stops the game. */
  function EndCheck(cfg: Config, w: World): (r: World)
    ensures r == w.(isRunning := r.isRunning)
    ensures r.isRunning <==> w.isRunning && w.player1Score < cfg.maxScore && w.player2Score < cfg.maxScore
  {
    if w.player1Score >= cfg.maxScore || w.player2Score >= cfg.maxScore then w.(isRunning := false) else w
  }

  /**
   * One pass through the body of gameLoop's `while (isRunning)` loop,
   * drawing left out.  No tick moves a paddle to another column or changes
   * its height, and a tick that reads `q` or starts stopped ends stopped.
   */
  function Tick(cfg: Config, mode: Mode, key: Key, w: World): (r: World)
    ensures r.player1.x == w.player1.x && r.player1.height == w.player1.height
    ensures r.player2.x == w.player2.x && r.player2.height == w.player2.height
    ensures r.isRunning ==> w.isRunning && key != Q
  {
    var moved := w.(ball := Advance(cfg, w.ball));
    var keyed := ApplyKey(cfg, key, moved);
    var steered := ComputerMove(cfg, mode, keyed);
    var walled := WallRules(cfg, mode, steered);
    var rebounded := PaddleRebound(walled);
    var scored := Goals(cfg, mode, rebounded);
    EndCheck(cfg, scored)
  }

  /**
   * The session loop fed one key per tick: it ticks while the game is
   * running and keys remain, and returns the state it stops in.  A session
   * still running at the end started running and never read `q`, and the
   * paddles never leave their columns.
   */
  function Run(cfg: Config, mode: Mode, keys: seq<Key>, w: World): (r: World)
    ensures r.isRunning ==> w.isRunning && Q !in keys
    ensures r.player1.x == w.player1.x && r.player2.x == w.player2.x
    decreases |keys|
  {
    if !w.isRunning || keys == [] then w
    else Run(cfg, mode, keys[1..], Tick(cfg, mode, keys[0], w))
  }
}
