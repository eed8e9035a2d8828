# Pong simulation core in Dafny

This project models the simulation core of a terminal Pong game (`main.cpp`).
That core has three parts:
- the `Paddle` and `Ball` objects and their moves and tests;
- the initial placement done by `gameLoop`;
- the per-tick rules of `gameLoop`'s loop in its three modes: player against player, player against the computer, and player against a wall.

The model does no drawing and reads no terminal input.

The model has four modules, one per file:

- `entities.dfy` (module `Entities`): paddles and the ball. Each exists twice:
  - as a value (`PaddleState`, `BallState`) whose functions are the operations;
  - as a class (`Paddle`, `Ball`) whose methods update the fields in place. Each method is proved to end in the state that the matching function gives.

  The collision and out-of-bounds tests are functions on the values.
- `rules.dfy` (module `Rules`): one tick as seven step functions, in the order the loop body runs them:
  1. the ball moves and bounces;
  2. the key is applied;
  3. the computer moves (computer mode);
  4. the wall rules apply (wall mode);
  5. the shared paddle check runs;
  6. goals are scored (outside wall mode);
  7. the end of the game is checked.

  `Tick` composes these steps. `Run` applies one tick per key while the game is running.

  This module also holds:
  - `Initial`, the starting state of `gameLoop`;
  - the mapping from a main-menu entry to a game mode.
- `properties.dfy` (module `Properties`): the invariant kept between ticks, and the lemmas about `Tick` and `Run`.
- `session.dfy` (module `Session`): class `Game` keeps the objects and variables of `gameLoop`. `Game.Tick` is the loop body, proved equal to `Rules.Tick`. `GameLoop` runs the loop over a sequence of keys and returns the two final scores.

The session's key input is a parameter: one key per tick. `Other` stands for "no key" and for every key the loop ignores.

## Behaviour kept as the code writes it

The model follows the code in each of these cases. Lemmas state the behaviour as written.

- Wall mode, left paddle: a ball on the left paddle is turned twice. This happens at line 319 and again at line 330, so it keeps its direction and the paddle does not return it (`Properties.WallTick`). The comment at line 318 calls this check a paddle collision that changes the ball's direction.
- Wall mode, right edge: the reset turns the ball (line 313) and line 314 turns it again. The re-centred ball therefore leaves with the direction it arrived with: to the right, away from the player (`Properties.WallTick`). The comment at line 314 says that statement sends the ball back toward the player.
- The arrow keys move the right paddle in every mode, including the computer and wall modes. The switch at lines 294-300 does not test the mode (`Rules.ApplyKey`, `Properties.PaddlesFollowKeys`, `Properties.ComputerTracksBall`).
- `saveScore` writes both scores after every mode, wall mode included (lines 350-351).
- The velocity components are only ever +1 or -1 (`Properties.TickKeepsUnitVelocity`).
- The computer moves down only when the ball is below row `y + height` (a strict `>`). It holds while the ball is on the row just below the paddle (`Properties.ComputerTracksBall`).
- Every `/ 2` of the game is C++ integer division, truncated toward zero. The model writes it as `Rules.HalfTowardZero`, so settings with negative values are halved as the game halves them.

## Model

| member | source | states |
|---|---|---|
| Entities.PaddleState.MovedUp | main.cpp:54-56 | moveUp keeps the column and height and moves the paddle up by at most one row |
| Entities.PaddleState.MovedDown | main.cpp:58-60 | moveDown keeps the column and height and moves the paddle down by at most one row |
| Entities.BallState.Moved | main.cpp:76-79 | move adds (dx, dy) to (x, y) and keeps the velocity |
| Entities.BallState.Bounced | main.cpp:81-85 | bounce reverses dy when y <= 1 or y >= fieldHeight - 2 and keeps it strictly between; position and dx are unchanged |
| Entities.BallState.Reflected | main.cpp:329-331 | `ball.dx = -ball.dx` reverses dx and changes nothing else |
| Entities.BallState.Reset | main.cpp:99-103 | reset puts the ball exactly on (startX, startY), negates dx and keeps dy |
| Entities.MoveUpKeepsInField | main.cpp:54-56 | a paddle with 1 <= y and y + height <= fieldHeight - 1 still satisfies both after moveUp |
| Entities.MoveDownKeepsInField | main.cpp:58-60 | a paddle inside the field stays inside it after moveDown |
| Entities.MoveUpClamp | main.cpp:54-56 | moveUp is a no-op exactly when y <= 1 |
| Entities.MoveDownClamp | main.cpp:58-60 | moveDown is a no-op exactly when y + height >= fieldHeight - 1 |
| Entities.MoveUpDownRoundTrip | main.cpp:54-60 | away from the clamps, moveDown undoes moveUp and moveUp undoes moveDown |
| Entities.OperationsKeepUnitVelocity | main.cpp:74-103 | move, bounce, reset and the dx negation all keep dx and dy in {-1, 1} |
| Entities.ResetTwiceKeepsVelocity | main.cpp:99-103 | two resets leave the ball on the start cell with its original velocity |
| Entities.CollisionIsOnPaddleCell | main.cpp:91-93 | checkPaddleCollision holds exactly when the ball is on one of the cells Paddle::draw paints (rows y to y + height - 1 of the paddle's column, lines 62-66): the row range is half-open |
| Entities.BallState.CheckPaddleCollision | main.cpp:91-93 | the ball is in the paddle's column and on a row from y up to but excluding y + height; `Entities.CollisionIsOnPaddleCell` proves these are exactly the drawn cells |
| Entities.BallState.OutOfBounds | main.cpp:95-97 | the ball is on or past column 0 or column fieldWidth - 1; `Entities.PaddleHitIsNotOutOfBounds` proves a paddle hit never is |
| Entities.PaddleHitIsNotOutOfBounds | main.cpp:91-97 | with a paddle in column 1 or fieldWidth - 2, a ball that hits it is not out of bounds |
| Entities.Paddle.constructor | main.cpp:52 | a new paddle has the given column, row and height |
| Entities.Paddle.MoveUp | main.cpp:54-56 | the paddle's new state is the old one moved up with the clamp |
| Entities.Paddle.MoveDown | main.cpp:58-60 | the paddle's new state is the old one moved down with the clamp |
| Entities.Ball.constructor | main.cpp:74 | a new ball is on the given cell with dx = dy = 1 |
| Entities.Ball.Move | main.cpp:76-79 | the ball's new state is the old one moved by its velocity |
| Entities.Ball.Bounce | main.cpp:81-85 | the ball's new state is the old one bounced off the top or bottom wall |
| Entities.Ball.Reset | main.cpp:99-103 | the ball's new state is the old one reset to the start cell with dx negated |
| Entities.Ball.CheckPaddleCollision | main.cpp:91-93 | true exactly when the ball's cell is one of the cells the paddle is drawn on |
| Entities.Ball.OutOfBounds | main.cpp:95-97 | false exactly when the ball's column is strictly between 0 and fieldWidth - 1 |
| Rules.ModeOfMenuChoice | main.cpp:367-376 | menu entries 0, 1 and 2, and only these, start a game, in mode 1, 2 and 3 respectively |
| Rules.HalfTowardZero | main.cpp:265-267 | `n / 2` on a C++ int: twice the result is n or, for odd n, one less toward zero (n - 2h is in [0, 1] for n >= 0 and in [-1, 0] for n < 0) |
| Rules.Initial | main.cpp:263-269 | the game starts with both scores at 0 and running, both paddles on row fieldHeight/2 - paddleHeight/2 (C++ halving) in columns 1 and fieldWidth - 2 with the configured height, and the ball on (fieldWidth/2, fieldHeight/2) with dx = dy = 1 |
| Rules.Advance | main.cpp:284-285 | move then bounce: the ball steps by its velocity, keeps dx, and keeps dy exactly when its new row is strictly between 1 and fieldHeight - 2 |
| Rules.ApplyKey | main.cpp:293-300 | `w` moves the left paddle up and `s` down, the up and down arrows move the right paddle, in every mode; no other key moves a paddle; ball and scores are unchanged; the game stops running exactly on `q` |
| Rules.ComputerMove | main.cpp:303-306 | only the right paddle can change, and only in the computer mode |
| Rules.WallRules | main.cpp:309-326 | the wall rules move no paddle, never change the right player's score or the running flag, and do nothing outside the wall mode |
| Rules.PaddleRebound | main.cpp:329-331 | a ball on either paddle has dx negated, once, and nothing else changes; a ball on neither paddle changes nothing |
| Rules.Goals | main.cpp:334-339 | the goal check moves no paddle and does nothing in the wall mode |
| Rules.EndCheck | main.cpp:342-344 | after the check the game runs exactly when it was running and both scores are below the limit; nothing else changes |
| Rules.Tick | main.cpp:284-344 | one loop pass keeps every paddle in its column at its height, and a game stopped before it or by its `q` stays stopped |
| Rules.Run | main.cpp:273-347 | a session still running after its keys started running and read no `q`; the paddles never change column |
| Properties.InitialSatisfiesInvariant | main.cpp:263-267 | with valid settings the initial placement satisfies the invariant: both centred paddles fit between the walls |
| Properties.TickKeepsUnitVelocity | main.cpp:284-344 | every tick keeps dx and dy in {-1, 1}, whatever the settings |
| Properties.AdvanceInField | main.cpp:284-285 | after move and bounce the ball is still between the walls, not heading into one, and at most one column beyond the field's interior |
| Properties.TickKeepsPaddles | main.cpp:293-306 | every tick keeps both paddles in their columns, at their height and inside the field |
| Properties.TickPreservesInvariant | main.cpp:273-344 | a tick of a running game keeps the whole invariant: paddles placed and clamped, unit velocity, ball on the field, scores within the limit, no right-player score in wall mode, running only below the limit |
| Properties.TickScores | main.cpp:309-339 | no score goes down, each rises by at most 1 per tick, and at most one of them rises |
| Properties.TickRunningIff | main.cpp:293-344 | after a tick the game runs exactly when it was running, the key was not `q` and both new scores are below the limit |
| Properties.QuitTickStillAppliesRules | main.cpp:299-344 | the tick that reads `q` applies every rule of a tick without a key, then stops |
| Properties.PaddlesFollowKeys | main.cpp:293-306 | after a whole tick the left paddle has moved up on `w`, down on `s` and not otherwise; outside the computer mode the right paddle has moved up on the up arrow, down on the down arrow and not otherwise |
| Properties.ComputerTracksBall | main.cpp:303-306 | the computer moves up once when the ball is above the paddle, otherwise down once when the ball is below row y + height, otherwise holds: at most one move per tick |
| Properties.PaddleHitTickScoresNothing | main.cpp:328-339 | a tick whose moved ball is on a paddle changes no score and leaves the ball where it moved, so a hit and a goal never happen in the same tick; outside the wall mode the hit negates dx |
| Properties.TwoPlayerGoals | main.cpp:334-339 | outside the wall mode, the left edge gives the right player exactly one point and the right edge gives the left player exactly one point, and the ball is reset to the centre with dx negated; otherwise no score changes |
| Properties.WallNeverScoresPlayer2 | main.cpp:309-339 | in the wall mode the right player's score never changes |
| Properties.WallTick | main.cpp:309-331 | in the wall mode the right edge gives the player one point and re-centres the ball with its arrival dx (negated twice); a left-paddle hit leaves dx unchanged (negated twice); the left edge negates dx and scores nothing |
| Properties.RunAppend | main.cpp:273-347 | running two key sequences one after the other is running their concatenation |
| Properties.RunSnoc | main.cpp:273-347 | one more key is one more tick if the game is still running, and changes nothing otherwise |
| Properties.RunPrefixStep | main.cpp:273-347 | when the game still runs after the first i keys, the key at index i is read by exactly one more tick |
| Properties.RunPrefixDone | main.cpp:273-347 | a run that has stopped after the first i keys, or has read all keys, equals the run over all the keys |
| Properties.RunStoppedIgnoresRest | main.cpp:273 | once the game has stopped, later keys are never read |
| Properties.RunIgnoresKeysAfterQuit | main.cpp:299 | the session ends with the tick that reads `q`: no later key changes the outcome |
| Properties.RunPreservesInvariant | main.cpp:273-347 | any number of ticks from a state satisfying the invariant keeps it |
| Properties.RunStopsAtScoreLimit | main.cpp:342-344 | once a score reaches the limit, no later key is read |
| Properties.SessionScoresWithinLimit | main.cpp:262-347 | a whole session with valid settings ends with both scores between 0 and the limit, and with the right player's score 0 in the wall mode |
| Properties.RunScoresMonotone | main.cpp:263-347 | over any number of ticks neither score decreases |
| Session.Game.constructor | main.cpp:262-269 | the session starts in the initial state, with two distinct fresh paddles and a fresh ball |
| Session.Game.Tick | main.cpp:283-344 | one pass of the loop body leaves the session in exactly the state `Rules.Tick` gives for the old state and the key |
| Session.Game.ReadKey | main.cpp:293-300 | the key step on the objects matches `Rules.ApplyKey` |
| Session.Game.MoveComputerPaddle | main.cpp:303-306 | the computer step on the objects matches `Rules.ComputerMove` |
| Session.Game.ApplyWallRules | main.cpp:309-326 | the wall step on the objects matches `Rules.WallRules` |
| Session.Game.ReboundOffPaddles | main.cpp:329-331 | the shared paddle check on the objects matches `Rules.PaddleRebound` |
| Session.Game.ScoreGoals | main.cpp:334-339 | the goal step on the objects matches `Rules.Goals` |
| Session.GameLoop | main.cpp:262-352 | the loop returns the final scores of `Rules.Run` from the initial state. It stops before the keys run out only when the game has stopped. With valid settings both scores are between 0 and the limit, and the right player has 0 in the wall mode |

## Left out

- Drawing (`draw`, `mvprintw`, `erase`, `refresh`, the border and score lines): output only, with no effect on the state.
- `getch`, `nodelay` and `timeout(100 / config.speed)`: terminal input and timing. The key of each tick is a parameter, and the float `speed` setting is not modelled.
- `Session.GameLoop`: the session reads a finite sequence of keys and also stops when they run out. The source waits for input without end.
- `loadConfig`/`saveConfig`: file input and output with string-to-number parsing. The settings are a parameter.
- `saveScore` and `showResults`: appending to and reading the score file. `GameLoop` returns the two scores that `saveScore` would write.
- `settingsMenu`, `showMenu` and `main`: interactive menus. Only the mapping from a menu entry to a game mode is modelled.
- 32-bit `int` arithmetic: the model uses unbounded integers. With valid settings every position stays inside the field and every score stays at or below the limit, so no value a tick computes can wrap. Settings near the `int` range are not modelled.
