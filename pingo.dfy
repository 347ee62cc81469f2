/** The update rules of the Pingo Pong clone, as functions on values.
    Each function here is the specification of one imperative routine of the
    game (module PingoState): the routine is proved to leave exactly the
    state this function computes, and the game's promises are proved here. */
module Pingo {
  import opened Geometry

  // The program's constants. Go keeps them untyped; wherever they meet a
  // coordinate they become float32, which is modelled as real.
  const WindowWidth: real := 1280.0
  const WindowHeight: real := 720.0
  const TargetFPS: int := 60
  const BatDistanceToWindow: real := 32.0
  const BatWidth: real := 16.0
  const BatHeight: real := 256.0
  const BallSize: real := 16.0
  /** Declared by the program but never read. */
  const BallSpeed: real := 4.0

  /** How far one held key moves a paddle in one frame. */
  const PaddleStep: real := 8.0

  /** The game's Ball struct: centre, radius, heading and speed. */
  datatype Ball = Ball(pos: Vector2, size: real, direction: Vector2, velocity: real)

  /** The score: one counter per player. */
  datatype Stats = Stats(player1Points: int, player2Points: int)

  /** The two values rand.Float32() returns during one createBall, in the
      order Go evaluates them: first the heading, then the speed. */
  datatype Draws = Draws(heading: real, speed: real)
  {
    /** rand.Float32 returns a value in [0, 1). */
    predicate InRange()
    {
      0.0 <= heading < 1.0 && 0.0 <= speed < 1.0
    }
  }

  /** The keys the game polls. */
  datatype Key = KeyW | KeyS | KeyUp | KeyDown

  /** The pair of keys that move one paddle. */
  datatype Controls = Controls(up: Key, down: Key)

  /** The key state of one frame, as it matters to one paddle. */
  datatype Keys = Keys(downHeld: bool, upHeld: bool)

  // ---------------------------------------------------------------------
  // Spawning a ball

  /** The vertical component of the heading before normalisation; the
      horizontal one is always 1. The range is the half-open [-2.5, 2.5). */
  function Heading(draw: real): (h: real)
    requires 0.0 <= draw < 1.0
    ensures -2.5 <= h < 2.5
    ensures draw == (h + 2.5) / 5.0
  {
    draw * 5.0 - 2.5
  }

  /** The speed of a spawned ball: at least 4 and below 10, and the draw can
      be recovered from it. */
  function Speed(draw: real): (v: real)
    requires 0.0 <= draw < 1.0
    ensures 4.0 <= v < 10.0
    ensures draw == (v - 4.0) / 6.0
  {
    draw * 6.0 + 4.0
  }

  /** createBall: a ball of the fixed size at the centre of the window, with a
      random heading and a random speed. A freshly spawned ball never stands
      on a goal line. */
  function CreateBall(normalize: Normalizer, draws: Draws): (b: Ball)
    requires draws.InRange()
    ensures b.pos == Vector2(632.0, 352.0)
    ensures b.size == BallSize
    ensures 4.0 <= b.velocity < 10.0 && b.velocity == Speed(draws.speed)
    ensures b.direction == normalize(Vector2(1.0, Heading(draws.heading)))
    ensures !IsLeftGoal(b) && !IsRightGoal(b)
  {
    var heading := Heading(draws.heading);
    Ball(pos := Vector2(WindowWidth / 2.0 - BallSize / 2.0, WindowHeight / 2.0 - BallSize / 2.0),
         size := BallSize,
         direction := normalize(Vector2(1.0, heading)),
         velocity := Speed(draws.speed))
  }

  // ---------------------------------------------------------------------
  // Goals and score

  /** The left goal test of checkGoal: it compares with the constant
      BallSize, not with the ball's own size. */
  predicate IsLeftGoal(b: Ball)
  {
    b.pos.X <= BallSize
  }

  /** The right goal test of checkGoal: it uses the ball's own size. */
  predicate IsRightGoal(b: Ball)
  {
    b.pos.X + b.size >= WindowWidth
  }

  /** checkGoal: the two tests run one after the other, the second on the
      ball the first may have replaced. Exactly one of three things happens:
      a left goal scores for player 2, a right goal scores for player 1, or
      nothing changes; and afterwards the ball is never on a goal line.
      Both respawns take the same draws: at most one of them can happen. */
  function AfterGoalCheck(b: Ball, s: Stats, normalize: Normalizer, draws: Draws): (r: (Ball, Stats))
    requires draws.InRange()
    ensures IsLeftGoal(b) ==>
              r == (CreateBall(normalize, draws), Stats(s.player1Points, s.player2Points + 1))
    ensures !IsLeftGoal(b) && IsRightGoal(b) ==>
              r == (CreateBall(normalize, draws), Stats(s.player1Points + 1, s.player2Points))
    ensures !IsLeftGoal(b) && !IsRightGoal(b) ==> r == (b, s)
    ensures s.player1Points <= r.1.player1Points && s.player2Points <= r.1.player2Points
    ensures r.1.player1Points + r.1.player2Points <= s.player1Points + s.player2Points + 1
    ensures !IsLeftGoal(r.0) && !IsRightGoal(r.0)
  {
    var (b1, s1) := if IsLeftGoal(b)
                    then (CreateBall(normalize, draws), s.(player2Points := s.player2Points + 1))
                    else (b, s);
    if IsRightGoal(b1)
    then (CreateBall(normalize, draws), s1.(player1Points := s1.player1Points + 1))
    else (b1, s1)
  }

  // ---------------------------------------------------------------------
  // Paddles

  /** The keys of player 1 are W and S, those of player 2 the arrow keys. */
  function ControlsOf(isPlayer2: bool): (c: Controls)
    ensures c.up != c.down
    ensures isPlayer2 <==> c.up == KeyUp
    ensures isPlayer2 <==> c.down == KeyDown
    ensures c.up in {KeyW, KeyUp} && c.down in {KeyS, KeyDown}
  {
    if isPlayer2 then Controls(KeyUp, KeyDown) else Controls(KeyW, KeyS)
  }

  /** Where the held keys move the paddle before it is clamped: down first,
      then up, one step each. */
  function Target(y: real, keys: Keys): (q: real)
  {
    y + (if keys.downHeld then PaddleStep else 0.0) - (if keys.upHeld then PaddleStep else 0.0)
  }

  /** The paddle lies wholly inside the window, vertically. */
  predicate InArena(p: Rectangle)
  {
    0.0 <= p.Y && p.Y + p.Height <= WindowHeight
  }

  /** updatePlayerPosition: only Y changes. A paddle no taller than the window
      ends inside it, at the point of [0, WindowHeight - Height] nearest to
      where the keys moved it; a taller one ends at WindowHeight - Height,
      because the lower clamp runs last. Holding both keys or neither leaves a
      paddle that was inside where it was, and a paddle that was inside moves
      at most one step. */
  function MovePlayer(p: Rectangle, keys: Keys): (q: Rectangle)
    ensures q.X == p.X && q.Width == p.Width && q.Height == p.Height
    ensures p.Height <= WindowHeight ==> InArena(q)
    ensures p.Height <= WindowHeight ==>
              var t := Target(p.Y, keys);
              (t < 0.0 ==> q.Y == 0.0) &&
              (t + p.Height > WindowHeight ==> q.Y == WindowHeight - p.Height) &&
              (0.0 <= t && t + p.Height <= WindowHeight ==> q.Y == t)
    ensures p.Height > WindowHeight ==> q.Y == WindowHeight - p.Height
    ensures keys.downHeld == keys.upHeld && InArena(p) ==> q == p
    ensures InArena(p) ==> Abs(q.Y - p.Y) <= PaddleStep
  {
    var t := Target(p.Y, keys);
    var y := if t < 0.0 then 0.0 else t;
    p.(Y := if y + p.Height > WindowHeight then WindowHeight - p.Height else y)
  }

  /** The paddles as the game creates them, vertically centred: player 1's
      left edge 32 units from the left border, player 2's left edge 32 plus
      half a paddle width from the right border. */
  const Player1Start: Rectangle :=
    Rectangle(BatDistanceToWindow, WindowHeight / 2.0 - BatHeight / 2.0, BatWidth, BatHeight)
  const Player2Start: Rectangle :=
    Rectangle(WindowWidth - BatWidth / 2.0 - BatDistanceToWindow, WindowHeight / 2.0 - BatHeight / 2.0,
              BatWidth, BatHeight)

  /** The paddle after one updatePlayerPosition per frame, for the key states
      of successive frames. However the keys are held, a paddle no taller than
      the window is inside it after the first frame, and stays inside. */
  function PlayerAfterFrames(p: Rectangle, frames: seq<Keys>): (q: Rectangle)
    ensures q.X == p.X && q.Width == p.Width && q.Height == p.Height
    ensures p.Height <= WindowHeight && (InArena(p) || |frames| > 0) ==> InArena(q)
    decreases |frames|
  {
    if frames == [] then p else PlayerAfterFrames(MovePlayer(p, frames[0]), frames[1..])
  }

  /** A paddle that starts inside the window travels at most one step per
      frame. */
  lemma {:induction false} PaddleSpeedLimit(p: Rectangle, frames: seq<Keys>)
    requires InArena(p)
    ensures Abs(PlayerAfterFrames(p, frames).Y - p.Y) <= PaddleStep * |frames| as real
    decreases |frames|
  {
    if frames != [] {
      var p1 := MovePlayer(p, frames[0]);
      PaddleSpeedLimit(p1, frames[1..]);
      assert PlayerAfterFrames(p, frames) == PlayerAfterFrames(p1, frames[1..]);
    }
  }

  /** Both paddles of the game stay inside the window whatever keys are held
      in whatever frames. */
  lemma GamePaddlesStayInArena(frames1: seq<Keys>, frames2: seq<Keys>)
    ensures InArena(PlayerAfterFrames(Player1Start, frames1))
    ensures InArena(PlayerAfterFrames(Player2Start, frames2))
  {
  }

  // ---------------------------------------------------------------------
  // The ball against the window borders

  /** One axis of the border checks of updateBallPosition: a candidate
      coordinate c below BallSize is set to BallSize, then one whose far edge
      passes `limit` is set to limit - size, each time flipping the heading d.
      For a ball of the standard size the result lies between the walls,
      is the candidate clamped there, and d is flipped exactly when the
      candidate crossed a wall. */
  function BounceAxis(c: real, d: real, size: real, limit: real): (r: (real, real))
    ensures Abs(r.1) == Abs(d)
    ensures size == BallSize && 2.0 * BallSize <= limit ==>
              BallSize <= r.0 <= limit - size &&
              (c < BallSize ==> r == (BallSize, -d)) &&
              (c + size > limit ==> r == (limit - size, -d)) &&
              (BallSize <= c && c + size <= limit ==> r == (c, d))
  {
    var (c1, d1) := if c < BallSize then (BallSize, d * -1.0) else (c, d);
    if c1 + size > limit then (limit - size, d1 * -1.0) else (c1, d1)
  }

  /** The four border checks of updateBallPosition: horizontal against the
      window width, vertical against its height. Returns the corrected
      candidate position and the new heading. */
  function ReflectOffBorders(newPos: Vector2, size: real, dir: Vector2): (r: (Vector2, Vector2))
    ensures Abs(r.1.X) == Abs(dir.X) && Abs(r.1.Y) == Abs(dir.Y)
    ensures size == BallSize ==> InsideBorders(r.0, size)
  {
    var (x, dx) := BounceAxis(newPos.X, dir.X, size, WindowWidth);
    var (y, dy) := BounceAxis(newPos.Y, dir.Y, size, WindowHeight);
    (Vector2(x, y), Vector2(dx, dy))
  }

  /** The centre is at least BallSize from the top and left borders and at
      least `size` from the right and bottom ones. */
  predicate InsideBorders(pos: Vector2, size: real)
  {
    BallSize <= pos.X <= WindowWidth - size && BallSize <= pos.Y <= WindowHeight - size
  }

  // ---------------------------------------------------------------------
  // The ball against a paddle

  /** One axis of the paddle correction: `c` is the ball's centre before the
      move, [lo, lo + extent] the paddle's span, `n` the candidate coordinate
      and `d` the heading. Both tests run; the second overrides the first. */
  function PushAxis(c: real, lo: real, extent: real, n: real, d: real): (r: (real, real))
  {
    var (n1, d1) := if c > lo + extent then (lo + extent + BallSize + 1.0, d * -1.0) else (n, d);
    if c < lo then (lo - BallSize - 1.0, d1 * -1.0) else (n1, d1)
  }

  /** updateBallPositionPlayerCollision: when the ball at its position before
      the move overlaps the paddle, the candidate is pushed one unit plus
      BallSize beyond each paddle edge the old centre lies beyond, and the
      heading flips on that axis; without overlap nothing changes. A
      horizontal and a vertical correction can apply together. */
  function PushOutOfPlayer(ballPos: Vector2, size: real, player: Rectangle, newPos: Vector2,
                           dir: Vector2, collides: CircleRecTest): (r: (Vector2, Vector2))
    ensures !collides(ballPos, size, player) ==> r == (newPos, dir)
    ensures Abs(r.1.X) == Abs(dir.X) && Abs(r.1.Y) == Abs(dir.Y)
    ensures collides(ballPos, size, player) && player.Width >= 0.0 ==>
              (ballPos.X > player.X + player.Width ==>
                 r.0.X == player.X + player.Width + BallSize + 1.0 && r.1.X == -dir.X) &&
              (ballPos.X < player.X ==> r.0.X == player.X - BallSize - 1.0 && r.1.X == -dir.X) &&
              (player.X <= ballPos.X <= player.X + player.Width ==> r.0.X == newPos.X && r.1.X == dir.X)
    ensures collides(ballPos, size, player) && player.Height >= 0.0 ==>
              (ballPos.Y > player.Y + player.Height ==>
                 r.0.Y == player.Y + player.Height + BallSize + 1.0 && r.1.Y == -dir.Y) &&
              (ballPos.Y < player.Y ==> r.0.Y == player.Y - BallSize - 1.0 && r.1.Y == -dir.Y) &&
              (player.Y <= ballPos.Y <= player.Y + player.Height ==> r.0.Y == newPos.Y && r.1.Y == dir.Y)
    ensures collides(ballPos, size, player) && player.Width < 0.0 &&
            player.X + player.Width < ballPos.X < player.X ==>
              r.0.X == player.X - BallSize - 1.0 && r.1.X == dir.X
  {
    if collides(ballPos, size, player) then
      var (x, dx) := PushAxis(ballPos.X, player.X, player.Width, newPos.X, dir.X);
      var (y, dy) := PushAxis(ballPos.Y, player.Y, player.Height, newPos.Y, dir.Y);
      (Vector2(x, y), Vector2(dx, dy))
    else
      (newPos, dir)
  }

  /** A ball that overlaps a paddle while its old centre lies beyond a
      paddle edge ends with its candidate circle clear of that edge. This is
      a consequence of PushOutOfPlayer's postcondition, written out as the
      outward-push property. */
  lemma PushClearsEdge(ballPos: Vector2, player: Rectangle, newPos: Vector2, dir: Vector2,
                       collides: CircleRecTest)
    requires collides(ballPos, BallSize, player)
    requires player.Width >= 0.0 && player.Height >= 0.0
    ensures var r := PushOutOfPlayer(ballPos, BallSize, player, newPos, dir, collides);
            (ballPos.X > player.X + player.Width ==> r.0.X - BallSize > player.X + player.Width) &&
            (ballPos.X < player.X ==> r.0.X + BallSize < player.X) &&
            (ballPos.Y > player.Y + player.Height ==> r.0.Y - BallSize > player.Y + player.Height) &&
            (ballPos.Y < player.Y ==> r.0.Y + BallSize < player.Y)
  {
  }

  /** A ball whose old centre lies beyond a corner of the paddle is corrected
      on both axes in the same call. This is a special case of
      PushOutOfPlayer's postcondition, written out because the two
      corrections are not exclusive. */
  lemma CornerHitCorrectsBothAxes(ballPos: Vector2, player: Rectangle, newPos: Vector2,
                                  dir: Vector2, collides: CircleRecTest)
    requires collides(ballPos, BallSize, player)
    requires player.Width >= 0.0 && player.Height >= 0.0
    requires ballPos.X > player.X + player.Width && ballPos.Y < player.Y
    ensures PushOutOfPlayer(ballPos, BallSize, player, newPos, dir, collides) ==
            (Vector2(player.X + player.Width + BallSize + 1.0, player.Y - BallSize - 1.0),
             Vector2(-dir.X, -dir.Y))
  {
  }

  // ---------------------------------------------------------------------
  // One ball update

  /** The candidate position: one step of `velocity` along `direction`. */
  function Candidate(b: Ball): (c: Vector2)
  {
    Vector2Add(b.pos, Vector2Scale(b.direction, b.velocity))
  }

  /** updateBallPosition: candidate, border reflection, then the correction
      against player 1 and then against player 2, both judged from the ball's
      position before the move. Size and speed never change and the heading
      only changes sign per component; a standard ball that touches no paddle
      ends inside the borders. */
  function MoveBall(b: Ball, player1: Rectangle, player2: Rectangle, collides: CircleRecTest): (r: Ball)
    ensures r.size == b.size && r.velocity == b.velocity
    ensures Abs(r.direction.X) == Abs(b.direction.X) && Abs(r.direction.Y) == Abs(b.direction.Y)
    ensures b.size == BallSize && !collides(b.pos, b.size, player1) && !collides(b.pos, b.size, player2) ==>
              InsideBorders(r.pos, r.size)
  {
    var (p0, d0) := ReflectOffBorders(Candidate(b), b.size, b.direction);
    var (p1, d1) := PushOutOfPlayer(b.pos, b.size, player1, p0, d0, collides);
    var (p2, d2) := PushOutOfPlayer(b.pos, b.size, player2, p1, d1, collides);
    b.(pos := p2, direction := d2)
  }

  /** A standard ball that touches no paddle stands on the left goal line
      after its update exactly when its step reached the left wall, and on
      the right goal line exactly when its step reached the right wall. */
  lemma GoalExactlyWhenStepReachesWall(b: Ball, player1: Rectangle, player2: Rectangle,
                                       collides: CircleRecTest)
    requires b.size == BallSize
    requires !collides(b.pos, b.size, player1) && !collides(b.pos, b.size, player2)
    ensures IsLeftGoal(MoveBall(b, player1, player2, collides)) <==> Candidate(b).X <= BallSize
    ensures IsRightGoal(MoveBall(b, player1, player2, collides)) <==> Candidate(b).X + BallSize >= WindowWidth
  {
  }

  /** The ball at the left border moving left at speed 5 is clamped to the
      border and turned to move right. */
  lemma LeftBorderBounce(y: real, player1: Rectangle, player2: Rectangle, collides: CircleRecTest)
    requires BallSize <= y <= WindowHeight - BallSize
    requires !collides(Vector2(BallSize, y), BallSize, player1)
    requires !collides(Vector2(BallSize, y), BallSize, player2)
    ensures var r := MoveBall(Ball(Vector2(BallSize, y), BallSize, Vector2(-1.0, 0.0), 5.0),
                              player1, player2, collides);
            r.pos == Vector2(BallSize, y) && r.direction.X == 1.0
  {
  }
}
