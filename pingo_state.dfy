/** The game's update routines as they run: each works through references to
    the ball, the score or a paddle and changes their fields one statement at
    a time. Each routine is proved to leave exactly the state the matching
    function of module Pingo computes from the state before. */
module PingoState {
  import opened Geometry
  import opened Pingo

  /** A Ball variable that the game passes by reference. */
  class BallRef {
    var pos: Vector2
    var size: real
    var direction: Vector2
    var velocity: real

    function Value(): Ball
      reads this
    {
      Ball(pos, size, direction, velocity)
    }

    constructor (b: Ball)
      ensures Value() == b
    {
      pos, size, direction, velocity := b.pos, b.size, b.direction, b.velocity;
    }

    /** Overwrites the whole struct with another value. */
    method Assign(b: Ball)
      modifies this
      ensures Value() == b
    {
      pos, size, direction, velocity := b.pos, b.size, b.direction, b.velocity;
    }
  }

  /** The score variable that the game passes by reference. */
  class StatsRef {
    var player1Points: int
    var player2Points: int

    function Value(): Stats
      reads this
    {
      Stats(player1Points, player2Points)
    }

    constructor ()
      ensures Value() == Stats(0, 0)
    {
      player1Points, player2Points := 0, 0;
    }
  }

  /** A paddle variable that the game passes by reference to move it. */
  class RectangleRef {
    var X: real
    var Y: real
    var Width: real
    var Height: real

    function Value(): Rectangle
      reads this
    {
      Rectangle(X, Y, Width, Height)
    }

    constructor (r: Rectangle)
      ensures Value() == r
    {
      X, Y, Width, Height := r.X, r.Y, r.Width, r.Height;
    }
  }

  /** checkGoal: scores a goal and respawns the ball. */
  method CheckGoal(ball: BallRef, stats: StatsRef, normalize: Normalizer, draws: Draws)
    requires draws.InRange()
    modifies ball, stats
    ensures (ball.Value(), stats.Value()) ==
            AfterGoalCheck(old(ball.Value()), old(stats.Value()), normalize, draws)
  {
    if ball.pos.X <= BallSize {
      stats.player2Points := stats.player2Points + 1;
      ball.Assign(CreateBall(normalize, draws));
    }
    if ball.pos.X + ball.size >= WindowWidth {
      stats.player1Points := stats.player1Points + 1;
      ball.Assign(CreateBall(normalize, draws));
    }
  }

  /** updateBallPosition: moves the ball one step, reflecting it off the
      window borders and pushing it off the two paddles. */
  method UpdateBallPosition(ball: BallRef, player1: Rectangle, player2: Rectangle,
                            collides: CircleRecTest)
    modifies ball
    ensures ball.Value() == MoveBall(old(ball.Value()), player1, player2, collides)
  {
    ghost var before := ball.Value();
    var accelerationVec := Vector2Scale(ball.direction, ball.velocity);
    var newPos := Vector2Add(ball.pos, accelerationVec);
    assert newPos == Candidate(before);

    if newPos.X < BallSize {
      newPos := newPos.(X := BallSize);
      ball.direction := ball.direction.(X := ball.direction.X * -1.0);
    }
    if newPos.X + ball.size > WindowWidth {
      newPos := newPos.(X := WindowWidth - ball.size);
      ball.direction := ball.direction.(X := ball.direction.X * -1.0);
    }
    assert (newPos.X, ball.direction.X) == BounceAxis(Candidate(before).X, before.direction.X, before.size, WindowWidth);
    if newPos.Y < BallSize {
      newPos := newPos.(Y := BallSize);
      ball.direction := ball.direction.(Y := ball.direction.Y * -1.0);
    }
    if newPos.Y + ball.size > WindowHeight {
      newPos := newPos.(Y := WindowHeight - ball.size);
      ball.direction := ball.direction.(Y := ball.direction.Y * -1.0);
    }
    assert (newPos.Y, ball.direction.Y) == BounceAxis(Candidate(before).Y, before.direction.Y, before.size, WindowHeight);
    assert (newPos, ball.direction) == ReflectOffBorders(Candidate(before), before.size, before.direction);

    newPos := UpdateBallPositionPlayerCollision(ball, player1, newPos, collides);
    newPos := UpdateBallPositionPlayerCollision(ball, player2, newPos, collides);

    ball.pos := newPos;
  }

  /** updateBallPositionPlayerCollision: the candidate position is passed in
      and the corrected one returned (the source passes a pointer to it). Only
      the ball's heading changes; its position, size and speed do not. */
  method UpdateBallPositionPlayerCollision(ball: BallRef, player: Rectangle, newPos: Vector2,
                                           collides: CircleRecTest)
    returns (corrected: Vector2)
    modifies ball
    ensures ball.pos == old(ball.pos) && ball.size == old(ball.size)
    ensures ball.velocity == old(ball.velocity)
    ensures (corrected, ball.direction) ==
            PushOutOfPlayer(old(ball.pos), old(ball.size), player, newPos, old(ball.direction), collides)
  {
    corrected := newPos;
    if collides(ball.pos, ball.size, player) {
      if ball.pos.X > player.X + player.Width {
        corrected := corrected.(X := player.X + player.Width + BallSize + 1.0);
        ball.direction := ball.direction.(X := ball.direction.X * -1.0);
      }
      if ball.pos.X < player.X {
        corrected := corrected.(X := player.X - BallSize - 1.0);
        ball.direction := ball.direction.(X := ball.direction.X * -1.0);
      }
      if ball.pos.Y > player.Y + player.Height {
        corrected := corrected.(Y := player.Y + player.Height + BallSize + 1.0);
        ball.direction := ball.direction.(Y := ball.direction.Y * -1.0);
      }
      if ball.pos.Y < player.Y {
        corrected := corrected.(Y := player.Y - BallSize - 1.0);
        ball.direction := ball.direction.(Y := ball.direction.Y * -1.0);
      }
    }
  }

  /** updatePlayerPosition: reads the paddle's two keys from the key state
      of this frame, moves the paddle and clamps it into the window. */
  method UpdatePlayerPosition(player: RectangleRef, isPlayer2: bool, isKeyDown: Key -> bool)
    modifies player
    ensures player.Value() ==
            MovePlayer(old(player.Value()),
                       Keys(isKeyDown(ControlsOf(isPlayer2).down), isKeyDown(ControlsOf(isPlayer2).up)))
  {
    var keyUp := KeyW;
    var keyDown := KeyS;
    if isPlayer2 {
      keyUp := KeyUp;
      keyDown := KeyDown;
    }

    if isKeyDown(keyDown) {
      player.Y := player.Y + PaddleStep;
    }
    if isKeyDown(keyUp) {
      player.Y := player.Y - PaddleStep;
    }

    if player.Y < 0.0 {
      player.Y := 0.0;
    }
    if player.Y + player.Height > WindowHeight {
      player.Y := WindowHeight - player.Height;
    }
  }
}
