/**
 * The two kinds of moving entity of the game: paddles and the ball.
 *
 * Each is given twice.  As a value (PaddleState, BallState) it carries the
 * operations as functions, on which the game's rules and their properties
 * are stated.  As a class (Paddle, Ball) it has the fields that the game
 * loop updates in place, and every method is proved to leave the object in
 * the state the value function of the same operation describes.
 */
module Entities {

  /** A paddle: its fixed column `x`, its top row `y` and its number of rows. */
  datatype PaddleState = PaddleState(x: int, y: int, height: int)
  {
    /** The paddle lies strictly between the top wall (row 0) and the bottom wall (row fieldHeight - 1). */
    predicate InField(fieldHeight: int)
    {
      1 <= y && y + height <= fieldHeight - 1
    }

    /**
     * The cells Paddle::draw paints, in drawing order, as (column, row)
     * pairs: for i from 0 below height, row y + i of column x.
     */
    function Cells(): seq<(int, int)>
    {
      seq(if height < 0 then 0 else height, i => (x, y + i))
    }

    /** Paddle::moveUp: one row up, unless the paddle already starts on row 1. */
    function MovedUp(): (p: PaddleState)
      ensures p.x == x && p.height == height
      ensures y - 1 <= p.y <= y
    {
      if y > 1 then this.(y := y - 1) else this
    }

    /** Paddle::moveDown: one row down, unless the paddle already ends on the row above the bottom wall. */
    function MovedDown(fieldHeight: int): (p: PaddleState)
      ensures p.x == x && p.height == height
      ensures y <= p.y <= y + 1
    {
      if y + height < fieldHeight - 1 then this.(y := y + 1) else this
    }
  }

  /** The ball: its cell (`x`, `y`) and its velocity (`dx`, `dy`), one cell per tick on each axis. */
  datatype BallState = BallState(x: int, y: int, dx: int, dy: int)
  {
    /** Both velocity components are +1 or -1. */
    predicate UnitVelocity()
    {
      (dx == 1 || dx == -1) && (dy == 1 || dy == -1)
    }

    /** Ball::move: one step along the velocity. */
    function Moved(): (b: BallState)
      ensures b.x - x == dx && b.y - y == dy
      ensures b.dx == dx && b.dy == dy
    {
      BallState(x + dx, y + dy, dx, dy)
    }

    /** Ball::bounce: the vertical direction turns on row 1 and above, and on row fieldHeight - 2 and below. */
    function Bounced(fieldHeight: int): (b: BallState)
      ensures b.x == x && b.y == y && b.dx == dx
      ensures (y <= 1 || y >= fieldHeight - 2) ==> b.dy == -dy
      ensures 1 < y < fieldHeight - 2 ==> b.dy == dy
    {
      if y <= 1 || y >= fieldHeight - 2 then this.(dy := -dy) else this
    }

    /** The statement `ball.dx = -ball.dx` of the game loop: the horizontal direction turns. */
    function Reflected(): (b: BallState)
      ensures b.x == x && b.y == y && b.dy == dy
      ensures b.dx == -dx
    {
      this.(dx := -dx)
    }

    /** Ball::reset: the ball is put on (startX, startY) and served the other way horizontally. */
    function Reset(startX: int, startY: int): (b: BallState)
      ensures b.x == startX && b.y == startY
      ensures b.dx == -dx && b.dy == dy
    {
      BallState(startX, startY, -dx, dy)
    }

    /** Ball::checkPaddleCollision: the ball is in the paddle's column, on one of its rows. */
    predicate CheckPaddleCollision(paddle: PaddleState)
    {
      x == paddle.x && y >= paddle.y && y < paddle.y + paddle.height
    }

    /** Ball::outOfBounds: the ball is on or past the left or the right edge column. */
    predicate OutOfBounds(fieldWidth: int)
    {
      x <= 0 || x >= fieldWidth - 1
    }
  }

  /** moveUp never takes a paddle that is inside the field out of it. */
  lemma MoveUpKeepsInField(p: PaddleState, fieldHeight: int)
    requires p.InField(fieldHeight)
    ensures p.MovedUp().InField(fieldHeight)
  {
  }

  /** moveDown never takes a paddle that is inside the field out of it. */
  lemma MoveDownKeepsInField(p: PaddleState, fieldHeight: int)
    requires p.InField(fieldHeight)
    ensures p.MovedDown(fieldHeight).InField(fieldHeight)
  {
  }

  /** moveUp leaves the paddle where it is exactly when it is at its top clamp. */
  lemma MoveUpClamp(p: PaddleState)
    ensures p.MovedUp() == p <==> p.y <= 1
  {
  }

  /** moveDown leaves the paddle where it is exactly when it is at its bottom clamp. */
  lemma MoveDownClamp(p: PaddleState, fieldHeight: int)
    ensures p.MovedDown(fieldHeight) == p <==> p.y + p.height >= fieldHeight - 1
  {
  }

  /** Away from the clamps, moveDown undoes moveUp and moveUp undoes moveDown. */
  lemma MoveUpDownRoundTrip(p: PaddleState, fieldHeight: int)
    requires p.InField(fieldHeight)
    ensures p.y > 1 ==> p.MovedUp().MovedDown(fieldHeight) == p
    ensures p.y + p.height < fieldHeight - 1 ==> p.MovedDown(fieldHeight).MovedUp() == p
  {
  }

  /** Every operation on the ball keeps both velocity components in {-1, 1}: each either keeps or negates them. */
  lemma OperationsKeepUnitVelocity(b: BallState, fieldHeight: int, startX: int, startY: int)
    requires b.UnitVelocity()
    ensures b.Moved().UnitVelocity()
    ensures b.Bounced(fieldHeight).UnitVelocity()
    ensures b.Reflected().UnitVelocity()
    ensures b.Reset(startX, startY).UnitVelocity()
  {
  }

  /** Two resets put the ball on the start cell with its original velocity. */
  lemma ResetTwiceKeepsVelocity(b: BallState, startX: int, startY: int)
    ensures b.Reset(startX, startY).Reset(startX, startY) == BallState(startX, startY, b.dx, b.dy)
  {
  }

  /** The collision test is true exactly when the ball is on one of the cells the paddle is drawn on. */
  lemma CollisionIsOnPaddleCell(b: BallState, p: PaddleState)
    ensures b.CheckPaddleCollision(p) <==> (b.x, b.y) in p.Cells()
  {
    if b.CheckPaddleCollision(p) {
      var i := b.y - p.y;
      assert p.Cells()[i] == (b.x, b.y);
    }
  }

  /**
   * With the paddles in their columns (1 and fieldWidth - 2), a ball that
   * hits a paddle is never out of bounds.
   */
  lemma PaddleHitIsNotOutOfBounds(b: BallState, p: PaddleState, fieldWidth: int)
    requires fieldWidth > 2
    requires p.x == 1 || p.x == fieldWidth - 2
    requires b.CheckPaddleCollision(p)
    ensures !b.OutOfBounds(fieldWidth)
  {
  }

  /** A paddle whose fields the game loop updates in place. */
  class Paddle {
    var x: int
    var y: int
    var height: int

    /** The paddle's current value. */
    function State(): PaddleState
      reads this
    {
      PaddleState(x, y, height)
    }

    constructor (x: int, y: int, height: int)
      ensures State() == PaddleState(x, y, height)
    {
      this.x := x;
      this.y := y;
      this.height := height;
    }

    method MoveUp()
      modifies this
      ensures State() == old(State()).MovedUp()
    {
      if y > 1 {
        y := y - 1;
      }
    }

    method MoveDown(fieldHeight: int)
      modifies this
      ensures State() == old(State()).MovedDown(fieldHeight)
    {
      if y + height < fieldHeight - 1 {
        y := y + 1;
      }
    }
  }

  /** The ball, whose fields the game loop updates in place. */
  class Ball {
    var x: int
    var y: int
    var dx: int
    var dy: int

    /** The ball's current value. */
    function State(): BallState
      reads this
    {
      BallState(x, y, dx, dy)
    }

    /** A new ball starts on (x, y) moving right and down. */
    constructor (x: int, y: int)
      ensures State() == BallState(x, y, 1, 1)
    {
      this.x := x;
      this.y := y;
      dx := 1;
      dy := 1;
    }

    method Move()
      modifies this
      ensures State() == old(State()).Moved()
    {
      x := x + dx;
      y := y + dy;
    }

    method Bounce(fieldHeight: int)
      modifies this
      ensures State() == old(State()).Bounced(fieldHeight)
    {
      if y <= 1 || y >= fieldHeight - 2 {
        dy := -dy;
      }
    }

    /** Ball::checkPaddleCollision: true exactly when the ball is on a cell the paddle is drawn on. */
    function CheckPaddleCollision(paddle: Paddle): (hit: bool)
      reads this, paddle
      ensures hit <==> (x, y) in paddle.State().Cells()
    {
      CollisionIsOnPaddleCell(State(), paddle.State());
      State().CheckPaddleCollision(paddle.State())
    }

    /** Ball::outOfBounds: false exactly when the ball is in a column strictly between the two edge columns. */
    function OutOfBounds(fieldWidth: int): (out: bool)
      reads this
      ensures !out <==> 0 < x < fieldWidth - 1
    {
      State().OutOfBounds(fieldWidth)
    }

    method Reset(startX: int, startY: int)
      modifies this
      ensures State() == old(State()).Reset(startX, startY)
    {
      x := startX;
      y := startY;
      dx := -dx;
    }
  }
}
