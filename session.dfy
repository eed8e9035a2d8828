/**
 * One game session as the game loop runs it: two paddle objects, a ball
 * object, two scores and a running flag, updated in place one tick at a
 * time.  Game.Tick is proved to do what Rules.Tick says; GameLoop runs the
 * ticks over a sequence of keys and returns the two final scores.
 */
module Session {
  import opened Entities
  import opened Rules
  import opened Properties

  /** The state gameLoop keeps in its local variables, for one session. */
  class Game {
    const config: Config
    const mode: Mode
    const player1: Paddle
    const player2: Paddle
    const ball: Ball
    var player1Score: int
    var player2Score: int
    var isRunning: bool

    /** The two paddles are distinct objects. */
    ghost predicate Valid()
      reads this
    {
      player1 != player2
    }

    /** The session's current value. */
    function State(): World
      reads this, player1, player2, ball
    {
      World(player1.State(), player2.State(), ball.State(), player1Score, player2Score, isRunning)
    }

    /** The set-up at the start of gameLoop: scores at zero, paddles and ball placed, running. */
    constructor (config: Config, mode: Mode)
      ensures Valid() && this.config == config && this.mode == mode
      ensures fresh(player1) && fresh(player2) && fresh(ball)
      ensures State() == Initial(config)
    {
      this.config := config;
      this.mode := mode;
      player1Score, player2Score := 0, 0;
      player1 := new Paddle(1, HalfTowardZero(config.fieldHeight) - HalfTowardZero(config.paddleHeight), config.paddleHeight);
      player2 := new Paddle(config.fieldWidth - 2, HalfTowardZero(config.fieldHeight) - HalfTowardZero(config.paddleHeight), config.paddleHeight);
      ball := new Ball(HalfTowardZero(config.fieldWidth), HalfTowardZero(config.fieldHeight));
      isRunning := true;
    }

    /** One pass through the body of gameLoop's loop, with `key` the key read in it. */
    method Tick(key: Key)
      requires Valid()
      modifies this, player1, player2, ball
      ensures Valid()
      ensures State() == Rules.Tick(config, mode, key, old(State()))
    {
      ball.Move();
      ball.Bounce(config.fieldHeight);
      ReadKey(key);
      MoveComputerPaddle();
      ApplyWallRules();
      ReboundOffPaddles();
      ScoreGoals();
      if player1Score >= config.maxScore || player2Score >= config.maxScore {
        isRunning := false;
      }
    }

    /** The key read this tick: `w`/`s` move the left paddle, the arrows the right one, `q` stops the loop. */
    method ReadKey(key: Key)
      requires Valid()
      modifies this, player1, player2
      ensures Valid()
      ensures State() == ApplyKey(config, key, old(State()))
    {
      match key {
        case W => player1.MoveUp();
        case S => player1.MoveDown(config.fieldHeight);
        case Up => player2.MoveUp();
        case Down => player2.MoveDown(config.fieldHeight);
        case Q => isRunning := false;
        case Other =>
      }
    }

    /** In the computer mode, the computer's move of the right paddle toward the ball's row. */
    method MoveComputerPaddle()
      requires Valid()
      modifies player2
      ensures State() == ComputerMove(config, mode, old(State()))
    {
      if mode == PlayerVsComputer {
        if ball.y < player2.y {
          player2.MoveUp();
        }
        if ball.y > player2.y + player2.height {
          player2.MoveDown(config.fieldHeight);
        }
      }
    }

    /** In the wall mode, its rules: the right edge scores and serves, the left paddle and the left edge turn the ball. */
    method ApplyWallRules()
      modifies this, ball
      ensures State() == WallRules(config, mode, old(State()))
    {
      if mode == PlayerVsWall {
        if ball.x >= config.fieldWidth - 1 {
          player1Score := player1Score + 1;
          ball.Reset(HalfTowardZero(config.fieldWidth), HalfTowardZero(config.fieldHeight));
          ball.dx := -ball.dx;
        }
        if ball.CheckPaddleCollision(player1) {
          ball.dx := -ball.dx;
        }
        if ball.x <= 0 {
          ball.dx := -ball.dx;
        }
      }
    }

    /** The shared paddle check: a ball on either paddle turns. */
    method ReboundOffPaddles()
      modifies ball
      ensures State() == PaddleRebound(old(State()))
    {
      if ball.CheckPaddleCollision(player1) || ball.CheckPaddleCollision(player2) {
        ball.dx := -ball.dx;
      }
    }

    /** Outside the wall mode, the goal check: a point for the player on the far side, and the ball re-centred. */
    method ScoreGoals()
      modifies this, ball
      ensures State() == Goals(config, mode, old(State()))
    {
      if ball.OutOfBounds(config.fieldWidth) && mode != PlayerVsWall {
        if ball.x <= 0 {
          player2Score := player2Score + 1;
        }
        if ball.x >= config.fieldWidth - 1 {
          player1Score := player1Score + 1;
        }
        ball.Reset(HalfTowardZero(config.fieldWidth), HalfTowardZero(config.fieldHeight));
      }
    }
  }

  /**
   * gameLoop fed one key per tick: it sets up a session and ticks while the
   * game runs and keys remain.  It returns the two scores the game writes
   * to its score log and the number of ticks it ran.  The scores are those
   * of Rules.Run; the loop stops early only when the game has stopped; with
   * valid settings both scores are within the limit, and the right player
   * has none in the wall mode.
   */
  method GameLoop(config: Config, mode: Mode, keys: seq<Key>) returns (player1Score: int, player2Score: int, ticks: nat)
    ensures ticks <= |keys|
    ensures var w := Run(config, mode, keys, Initial(config));
      player1Score == w.player1Score && player2Score == w.player2Score
    ensures ticks < |keys| ==> !Run(config, mode, keys[..ticks], Initial(config)).isRunning
    ensures config.Valid() ==>
      && 0 <= player1Score <= config.maxScore
      && 0 <= player2Score <= config.maxScore
      && (mode == PlayerVsWall ==> player2Score == 0)
  {
    var game := new Game(config, mode);
    var i := 0;
    while i < |keys| && game.isRunning
      invariant 0 <= i <= |keys|
      invariant game.Valid() && game.config == config && game.mode == mode
      invariant game.State() == Run(config, mode, keys[..i], Initial(config))
    {
      RunPrefixStep(config, mode, keys, i, Initial(config));
      game.Tick(keys[i]);
      i := i + 1;
    }
    RunPrefixDone(config, mode, keys, i, Initial(config));
    if config.Valid() {
      SessionScoresWithinLimit(config, mode, keys);
    }
    player1Score, player2Score, ticks := game.player1Score, game.player2Score, i;
  }
}
