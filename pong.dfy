/**
 * Pong: two paddles moved by the keyboard and a ball that moves, bounces
 * off the top and bottom walls and off the paddles, and scores for the
 * opposite player when it leaves the court at the left or right edge.
 * The random direction of a served ball is given by two coin parameters.
 */
module Pong {
  import opened Geometry

  const PAD_HEIGHT: real := 100.0
  const PAD_WIDTH: real := 20.0
  const PAD_HEIGHT_HALF: real := PAD_HEIGHT * 0.5
  const PAD_WIDTH_HALF: real := PAD_WIDTH * 0.5
  const PAD_SPEED: real := 1000.0

  const SCREEN_WIDTH: real := 800.0
  const SCREEN_HEIGHT: real := 600.0
  const SCREEN_WIDTH_HALF: real := SCREEN_WIDTH * 0.5
  const SCREEN_HEIGHT_HALF: real := SCREEN_HEIGHT * 0.5

  const BALL_SIZE: real := 30.0
  const BALL_SIZE_HALF: real := BALL_SIZE * 0.5
  const BALL_SPEED: real := 120.0

  /** The left paddle's fixed x coordinate, and the right one's. */
  const PLAYER_1_X: real := PAD_WIDTH_HALF
  const PLAYER_2_X: real := SCREEN_WIDTH - 10.0

  /** The range `bounds` keeps a paddle's centre in. */
  const PAD_LOW: real := PAD_HEIGHT_HALF
  const PAD_HIGH: real := SCREEN_HEIGHT - PAD_HEIGHT_HALF

  function Abs(x: real): (r: real)
    ensures r >= 0.0 && (r == x || r == -x)
  {
    if x < 0.0 then -x else x
  }

  // ---------------------------------------------------------------------
  // bounds
  // ---------------------------------------------------------------------

  /** The value `bounds` leaves behind: raised to `low`, else lowered to `high`. */
  function Clamp(value: real, low: real, high: real): (r: real)
    ensures low <= high ==> low <= r <= high
    ensures low <= value <= high ==> r == value
    ensures value < low ==> r == low
    ensures low <= value && high < value ==> r == high
  {
    if value < low then low else if value > high then high else value
  }

  /** Clamping a clamped value changes nothing. */
  lemma ClampIdempotent(value: real, low: real, high: real)
    requires low <= high
    ensures Clamp(Clamp(value, low, high), low, high) == Clamp(value, low, high)
  {
  }

  /** Clamping never moves a value away from the interval: it goes to the nearest end, or stays. */
  lemma ClampMonotone(a: real, b: real, low: real, high: real)
    requires a <= b && low <= high
    ensures Clamp(a, low, high) <= Clamp(b, low, high)
  {
  }

  /** `bounds`: keeps a value inside `[low, high]`, written back through the reference. */
  method Bounds(value: real, low: real, high: real) returns (r: real)
    ensures r == Clamp(value, low, high)
  {
    r := value;
    if r < low {
      r := low;
    } else if r > high {
      r := high;
    }
  }

  // ---------------------------------------------------------------------
  // Serving the ball
  // ---------------------------------------------------------------------

  /**
   * `random_ball_vec`: each component gets the given magnitude with a sign
   * chosen by its own fair coin (`true` keeps it positive).
   */
  function RandomBallVec(x: real, y: real, coinX: bool, coinY: bool): (r: Vec2)
    ensures Abs(r.x) == Abs(x) && Abs(r.y) == Abs(y)
    ensures x >= 0.0 ==> (r.x >= 0.0 <==> coinX || x == 0.0)
    ensures y >= 0.0 ==> (r.y >= 0.0 <==> coinY || y == 0.0)
  {
    Vec2(if coinX then x else -x, if coinY then y else -y)
  }

  /** Every one of the four diagonal directions can be served. */
  lemma ServeReachesEveryDirection(v: Vec2)
    requires Abs(v.x) == BALL_SPEED && Abs(v.y) == BALL_SPEED
    ensures exists coinX: bool, coinY: bool :: RandomBallVec(BALL_SPEED, BALL_SPEED, coinX, coinY) == v
  {
    assert RandomBallVec(BALL_SPEED, BALL_SPEED, v.x > 0.0, v.y > 0.0) == v;
  }

  // ---------------------------------------------------------------------
  // The game state and one update
  // ---------------------------------------------------------------------

  datatype Game = Game(player1Pos: Vec2, player2Pos: Vec2, ball: Vec2, velocity: Vec2,
                       player1Score: int, player2Score: int)

  /** A paddle's centre is within `[PAD_HEIGHT_HALF, SCREEN_HEIGHT - PAD_HEIGHT_HALF]` vertically. */
  predicate PadOnScreen(pos: Vec2)
  {
    PAD_LOW <= pos.y <= PAD_HIGH
  }

  /** The ball's centre is within the court once an update has finished. */
  predicate BallInCourt(ball: Vec2)
  {
    0.0 <= ball.x <= SCREEN_WIDTH && BALL_SIZE_HALF <= ball.y <= SCREEN_HEIGHT - BALL_SIZE_HALF
  }

  /**
   * What holds of the game for the whole run: paddles on their fixed columns
   * and on screen, the ball in the court moving diagonally at the serving
   * speed, and no negative score.
   */
  predicate Invariant(g: Game)
  {
    g.player1Pos.x == PLAYER_1_X && g.player2Pos.x == PLAYER_2_X &&
    PadOnScreen(g.player1Pos) && PadOnScreen(g.player2Pos) &&
    BallInCourt(g.ball) &&
    Abs(g.velocity.x) == BALL_SPEED && Abs(g.velocity.y) == BALL_SPEED &&
    g.player1Score >= 0 && g.player2Score >= 0
  }

  /** `MainState::new`: paddles centred on their columns, the ball served from the centre, scores zero. */
  function NewGame(coinX: bool, coinY: bool): (g: Game)
    ensures Invariant(g)
    ensures g.ball == Vec2(SCREEN_WIDTH_HALF, SCREEN_HEIGHT_HALF)
    ensures g.player1Score == 0 && g.player2Score == 0
    ensures g.player1Pos == Vec2(10.0, 300.0) && g.player2Pos == Vec2(790.0, 300.0)
    ensures g.velocity == RandomBallVec(BALL_SPEED, BALL_SPEED, coinX, coinY)
  {
    Game(Vec2(PAD_WIDTH_HALF, SCREEN_HEIGHT_HALF), Vec2(SCREEN_WIDTH - 10.0, SCREEN_HEIGHT_HALF),
         Vec2(SCREEN_WIDTH_HALF, SCREEN_HEIGHT_HALF), RandomBallVec(BALL_SPEED, BALL_SPEED, coinX, coinY), 0, 0)
  }

  /** The ball advances by its velocity over the frame time. */
  function MoveBall(g: Game, dt: real): (r: Game)
    ensures r.ball == Add(g.ball, Scale(g.velocity, dt))
    ensures r == g.(ball := r.ball)
  {
    g.(ball := Add(g.ball, Scale(g.velocity, dt)))
  }

  /** The ball goes back to the centre and is served in a random diagonal direction. */
  function Serve(g: Game, coinX: bool, coinY: bool): Game
  {
    g.(ball := Vec2(SCREEN_WIDTH_HALF, SCREEN_HEIGHT_HALF),
       velocity := RandomBallVec(BALL_SPEED, BALL_SPEED, coinX, coinY))
  }

  /**
   * Scoring: a ball past the left edge is a point for player 2, a ball past
   * the right edge a point for player 1; either way it is served again from
   * the centre, so the second test can no longer fire.
   */
  function Score(g: Game, coinX: bool, coinY: bool): (r: Game)
    ensures g.ball.x < 0.0 ==>
      r.player2Score == g.player2Score + 1 && r.player1Score == g.player1Score
    ensures g.ball.x > SCREEN_WIDTH ==>
      r.player1Score == g.player1Score + 1 && r.player2Score == g.player2Score
    ensures (g.ball.x < 0.0 || g.ball.x > SCREEN_WIDTH) ==>
      r.ball == Vec2(SCREEN_WIDTH_HALF, SCREEN_HEIGHT_HALF) &&
      Abs(r.velocity.x) == BALL_SPEED && Abs(r.velocity.y) == BALL_SPEED
    ensures 0.0 <= g.ball.x <= SCREEN_WIDTH ==> r == g
    ensures 0.0 <= r.ball.x <= SCREEN_WIDTH
    ensures r.player1Score + r.player2Score <= g.player1Score + g.player2Score + 1
    ensures r.player1Pos == g.player1Pos && r.player2Pos == g.player2Pos
  {
    var left := if g.ball.x < 0.0 then Serve(g, coinX, coinY).(player2Score := g.player2Score + 1) else g;
    if left.ball.x > SCREEN_WIDTH then Serve(left, coinX, coinY).(player1Score := left.player1Score + 1)
    else left
  }

  /**
   * Wall bounce: a ball over the top edge is put back on it and sent down
   * (positive y), one under the bottom edge is put back on it and sent up;
   * the vertical speed keeps its magnitude.
   */
  function WallBounce(g: Game): (r: Game)
    ensures g.ball.y < BALL_SIZE_HALF ==> r.ball.y == BALL_SIZE_HALF && r.velocity.y >= 0.0
    ensures g.ball.y > SCREEN_HEIGHT - BALL_SIZE_HALF ==>
      r.ball.y == SCREEN_HEIGHT - BALL_SIZE_HALF && r.velocity.y <= 0.0
    ensures BALL_SIZE_HALF <= g.ball.y <= SCREEN_HEIGHT - BALL_SIZE_HALF ==> r == g
    ensures BALL_SIZE_HALF <= r.ball.y <= SCREEN_HEIGHT - BALL_SIZE_HALF
    ensures Abs(r.velocity.y) == Abs(g.velocity.y)
    ensures r == g.(ball := r.ball, velocity := r.velocity)
    ensures r.ball.x == g.ball.x && r.velocity.x == g.velocity.x
  {
    if g.ball.y < BALL_SIZE_HALF then
      g.(ball := g.ball.(y := BALL_SIZE_HALF), velocity := g.velocity.(y := Abs(g.velocity.y)))
    else if g.ball.y > SCREEN_HEIGHT - BALL_SIZE_HALF then
      g.(ball := g.ball.(y := SCREEN_HEIGHT - BALL_SIZE_HALF), velocity := g.velocity.(y := -Abs(g.velocity.y)))
    else g
  }

  /** The ball's square and the paddle's rectangle overlap, both taken as open boxes. */
  predicate PadHit(ball: Vec2, pad: Vec2)
  {
    ball.x - BALL_SIZE_HALF < pad.x + PAD_WIDTH_HALF &&
    ball.x + BALL_SIZE_HALF > pad.x - PAD_WIDTH_HALF &&
    ball.y - BALL_SIZE_HALF < pad.y + PAD_HEIGHT_HALF &&
    ball.y + BALL_SIZE_HALF > pad.y - PAD_HEIGHT_HALF
  }

  /** The overlap test is a distance test between the centres: closer than the half sizes added up on each axis. */
  lemma PadHitIff(ball: Vec2, pad: Vec2)
    ensures PadHit(ball, pad) <==>
      Abs(ball.x - pad.x) < BALL_SIZE_HALF + PAD_WIDTH_HALF &&
      Abs(ball.y - pad.y) < BALL_SIZE_HALF + PAD_HEIGHT_HALF
  {
  }

  /** On their fixed columns the paddles are too far apart for the ball to touch both at once. */
  lemma PadsExclusive(ball: Vec2, pad1: Vec2, pad2: Vec2)
    requires pad1.x == PLAYER_1_X && pad2.x == PLAYER_2_X
    ensures !(PadHit(ball, pad1) && PadHit(ball, pad2))
  {
    PadHitIff(ball, pad1);
    PadHitIff(ball, pad2);
  }

  /**
   * Pad bounce: touching the left paddle sends the ball right, then touching
   * the right paddle sends it left; the horizontal speed keeps its magnitude.
   */
  function PadBounce(g: Game): (r: Game)
    ensures PadHit(g.ball, g.player2Pos) ==> r.velocity.x <= 0.0
    ensures PadHit(g.ball, g.player1Pos) && !PadHit(g.ball, g.player2Pos) ==> r.velocity.x >= 0.0
    ensures !PadHit(g.ball, g.player1Pos) && !PadHit(g.ball, g.player2Pos) ==> r == g
    ensures Abs(r.velocity.x) == Abs(g.velocity.x)
    ensures r == g.(velocity := g.velocity.(x := r.velocity.x))
  {
    var left := if PadHit(g.ball, g.player1Pos) then g.(velocity := g.velocity.(x := Abs(g.velocity.x))) else g;
    if PadHit(left.ball, left.player2Pos) then left.(velocity := left.velocity.(x := -Abs(left.velocity.x)))
    else left
  }

  /**
   * `update`: move the ball, score, bounce off the walls, then off the
   * paddles. The coins decide the direction of a ball served after a point.
   */
  function Step(g: Game, dt: real, coinX: bool, coinY: bool): Game
  {
    PadBounce(WallBounce(Score(MoveBall(g, dt), coinX, coinY)))
  }

  /** Whatever the state before, an update ends with the ball in the court. */
  lemma StepBallInCourt(g: Game, dt: real, coinX: bool, coinY: bool)
    ensures BallInCourt(Step(g, dt, coinX, coinY).ball)
  {
    var scored := Score(MoveBall(g, dt), coinX, coinY);
    assert 0.0 <= WallBounce(scored).ball.x <= SCREEN_WIDTH;
  }

  /**
   * Scores never go down, and an update adds at most one point in total;
   * a point goes to the player on the side opposite to where the ball left.
   */
  lemma StepScores(g: Game, dt: real, coinX: bool, coinY: bool)
    ensures var r := Step(g, dt, coinX, coinY);
      r.player1Score >= g.player1Score && r.player2Score >= g.player2Score &&
      r.player1Score + r.player2Score <= g.player1Score + g.player2Score + 1
    ensures var x := MoveBall(g, dt).ball.x;
      (x < 0.0 ==> Step(g, dt, coinX, coinY).player2Score == g.player2Score + 1) &&
      (x > SCREEN_WIDTH ==> Step(g, dt, coinX, coinY).player1Score == g.player1Score + 1) &&
      (0.0 <= x <= SCREEN_WIDTH ==> Step(g, dt, coinX, coinY).player1Score == g.player1Score &&
                                    Step(g, dt, coinX, coinY).player2Score == g.player2Score)
  {
  }

  /** An update keeps the invariant: in particular the ball keeps its diagonal serving speed. */
  lemma StepKeepsInvariant(g: Game, dt: real, coinX: bool, coinY: bool)
    requires Invariant(g)
    ensures Invariant(Step(g, dt, coinX, coinY))
  {
    StepBallInCourt(g, dt, coinX, coinY);
  }

  /** Under the invariant a paddle touch always sends the ball away from that paddle. */
  lemma StepBouncesAwayFromPads(g: Game, dt: real, coinX: bool, coinY: bool)
    requires Invariant(g)
    ensures var before := WallBounce(Score(MoveBall(g, dt), coinX, coinY));
      (PadHit(before.ball, g.player1Pos) ==> Step(g, dt, coinX, coinY).velocity.x == BALL_SPEED) &&
      (PadHit(before.ball, g.player2Pos) ==> Step(g, dt, coinX, coinY).velocity.x == -BALL_SPEED)
  {
    var before := WallBounce(Score(MoveBall(g, dt), coinX, coinY));
    PadsExclusive(before.ball, g.player1Pos, g.player2Pos);
  }

  // ---------------------------------------------------------------------
  // Paddle movement
  // ---------------------------------------------------------------------

  /** The keys the paddles react to; every other key, or none, is `Other`. */
  datatype KeyCode = Up | Down | W | S | Other

  /**
   * `key_down_event`: Up/Down move the left paddle and W/S the right one by
   * `PAD_SPEED * dt` (up is towards smaller y); then both paddles are
   * clamped to the screen, whichever key was pressed.
   */
  function KeyDown(g: Game, key: KeyCode, dt: real): (r: Game)
    ensures PadOnScreen(r.player1Pos) && PadOnScreen(r.player2Pos)
    ensures r == g.(player1Pos := r.player1Pos, player2Pos := r.player2Pos)
    ensures r.player1Pos.x == g.player1Pos.x && r.player2Pos.x == g.player2Pos.x
    ensures key == Up ==> r.player1Pos.y == Clamp(g.player1Pos.y - PAD_SPEED * dt, PAD_LOW, PAD_HIGH)
    ensures key == Down ==> r.player1Pos.y == Clamp(g.player1Pos.y + PAD_SPEED * dt, PAD_LOW, PAD_HIGH)
    ensures key !in {Up, Down} ==> r.player1Pos.y == Clamp(g.player1Pos.y, PAD_LOW, PAD_HIGH)
    ensures key == W ==> r.player2Pos.y == Clamp(g.player2Pos.y - PAD_SPEED * dt, PAD_LOW, PAD_HIGH)
    ensures key == S ==> r.player2Pos.y == Clamp(g.player2Pos.y + PAD_SPEED * dt, PAD_LOW, PAD_HIGH)
    ensures key !in {W, S} ==> r.player2Pos.y == Clamp(g.player2Pos.y, PAD_LOW, PAD_HIGH)
  {
    var y1 := match key
      case Up => g.player1Pos.y - PAD_SPEED * dt
      case Down => g.player1Pos.y + PAD_SPEED * dt
      case _ => g.player1Pos.y;
    var y2 := match key
      case W => g.player2Pos.y - PAD_SPEED * dt
      case S => g.player2Pos.y + PAD_SPEED * dt
      case _ => g.player2Pos.y;
    g.(player1Pos := g.player1Pos.(y := Clamp(y1, PAD_LOW, PAD_HIGH)),
       player2Pos := g.player2Pos.(y := Clamp(y2, PAD_LOW, PAD_HIGH)))
  }

  /**
   * Up moves the left paddle up and Down moves it down (W and S the right
   * one) by `PAD_SPEED * dt`, or only as far as the screen edge when that
   * step would cross it; the other paddle stays where it is.
   */
  lemma KeyDownMoves(g: Game, key: KeyCode, dt: real)
    requires Invariant(g) && dt >= 0.0
    ensures var r := KeyDown(g, key, dt);
      (key == Up ==> r.player1Pos.y <= g.player1Pos.y) &&
      (key == Down ==> r.player1Pos.y >= g.player1Pos.y) &&
      (key == W ==> r.player2Pos.y <= g.player2Pos.y) &&
      (key == S ==> r.player2Pos.y >= g.player2Pos.y) &&
      (key !in {Up, Down} ==> r.player1Pos == g.player1Pos) &&
      (key !in {W, S} ==> r.player2Pos == g.player2Pos)
    ensures var r := KeyDown(g, key, dt);
      var up1, down1 := g.player1Pos.y - PAD_SPEED * dt, g.player1Pos.y + PAD_SPEED * dt;
      var up2, down2 := g.player2Pos.y - PAD_SPEED * dt, g.player2Pos.y + PAD_SPEED * dt;
      (key == Up ==> r.player1Pos.y == (if up1 >= PAD_LOW then up1 else PAD_LOW)) &&
      (key == Down ==> r.player1Pos.y == (if down1 <= PAD_HIGH then down1 else PAD_HIGH)) &&
      (key == W ==> r.player2Pos.y == (if up2 >= PAD_LOW then up2 else PAD_LOW)) &&
      (key == S ==> r.player2Pos.y == (if down2 <= PAD_HIGH then down2 else PAD_HIGH))
  {
    var low, high := PAD_LOW, PAD_HIGH;
    ClampMonotone(g.player1Pos.y - PAD_SPEED * dt, g.player1Pos.y, low, high);
    ClampMonotone(g.player1Pos.y, g.player1Pos.y + PAD_SPEED * dt, low, high);
    ClampMonotone(g.player2Pos.y - PAD_SPEED * dt, g.player2Pos.y, low, high);
    ClampMonotone(g.player2Pos.y, g.player2Pos.y + PAD_SPEED * dt, low, high);
  }

  /** A key press keeps the invariant. */
  lemma KeyDownKeepsInvariant(g: Game, key: KeyCode, dt: real)
    requires Invariant(g)
    ensures Invariant(KeyDown(g, key, dt))
  {
  }

  // ---------------------------------------------------------------------
  // Runs of events
  // ---------------------------------------------------------------------

  /** What the event loop delivers: a frame update, or a key press, each with its frame time. */
  datatype Event = Tick(dt: real, coinX: bool, coinY: bool) | Press(key: KeyCode, dt: real)

  function Apply(g: Game, e: Event): Game
  {
    match e
    case Tick(dt, coinX, coinY) => Step(g, dt, coinX, coinY)
    case Press(key, dt) => KeyDown(g, key, dt)
  }

  /** The game after a run of events, in order. */
  function Run(g: Game, events: seq<Event>): Game
    decreases |events|
  {
    if events == [] then g else Run(Apply(g, events[0]), events[1..])
  }

  /**
   * Over any run the invariant holds throughout, no score goes down, and the
   * total score grows by at most one per event.
   */
  lemma {:induction false} RunKeepsInvariant(g: Game, events: seq<Event>)
    requires Invariant(g)
    ensures var r := Run(g, events);
      Invariant(r) &&
      r.player1Score >= g.player1Score && r.player2Score >= g.player2Score &&
      r.player1Score + r.player2Score <= g.player1Score + g.player2Score + |events|
    decreases |events|
  {
    if events != [] {
      var next := Apply(g, events[0]);
      RunKeepsInvariant(next, events[1..]);
      match events[0]
      case Tick(dt, coinX, coinY) =>
        StepKeepsInvariant(g, dt, coinX, coinY);
        StepScores(g, dt, coinX, coinY);
      case Press(key, dt) =>
        KeyDownKeepsInvariant(g, key, dt);
    }
  }

  // ---------------------------------------------------------------------
  // The game object
  // ---------------------------------------------------------------------

  /** `MainState`: the paddles, the ball and the scores, updated in place by the event handlers. */
  class MainState {
    var player1Pos: Vec2
    var player2Pos: Vec2
    var ballPosition: Vec2
    var ballVelocity: Vec2
    var player1Score: int
    var player2Score: int

    function State(): Game
      reads this
    {
      Game(player1Pos, player2Pos, ballPosition, ballVelocity, player1Score, player2Score)
    }

    ghost predicate Valid()
      reads this
    {
      Invariant(State())
    }

    constructor (coinX: bool, coinY: bool)
      ensures Valid()
      ensures State() == NewGame(coinX, coinY)
    {
      var ballVelocity := RandomBallVec(BALL_SPEED, BALL_SPEED, coinX, coinY);
      player1Pos := Vec2(PAD_WIDTH_HALF, SCREEN_HEIGHT_HALF);
      player2Pos := Vec2(SCREEN_WIDTH - 10.0, SCREEN_HEIGHT_HALF);
      ballPosition := Vec2(SCREEN_WIDTH_HALF, SCREEN_HEIGHT_HALF);
      this.ballVelocity := ballVelocity;
      player1Score := 0;
      player2Score := 0;
    }

    /** `update`: one frame of ball movement, scoring and bouncing. */
    method Update(dt: real, coinX: bool, coinY: bool)
      requires Valid()
      modifies this
      ensures Valid()
      ensures State() == Step(old(State()), dt, coinX, coinY)
    {
      ghost var g := State();
      ballPosition := Add(ballPosition, Scale(ballVelocity, dt));
      ScorePoints(coinX, coinY);
      BounceOffWalls();
      BounceOffPads();
      StepKeepsInvariant(g, dt, coinX, coinY);
    }

    /** The scoring part of `update`: a ball out on either side is a point, and a new serve. */
    method ScorePoints(coinX: bool, coinY: bool)
      modifies this
      ensures State() == Score(old(State()), coinX, coinY)
    {
      if ballPosition.x < 0.0 {
        ballPosition := Vec2(SCREEN_WIDTH_HALF, SCREEN_HEIGHT_HALF);
        ballVelocity := RandomBallVec(BALL_SPEED, BALL_SPEED, coinX, coinY);
        player2Score := player2Score + 1;
      }
      if ballPosition.x > SCREEN_WIDTH {
        ballPosition := Vec2(SCREEN_WIDTH_HALF, SCREEN_HEIGHT_HALF);
        ballVelocity := RandomBallVec(BALL_SPEED, BALL_SPEED, coinX, coinY);
        player1Score := player1Score + 1;
      }
    }

    /** The wall part of `update`: put the ball back on the edge it crossed and turn it back. */
    method BounceOffWalls()
      modifies this
      ensures State() == WallBounce(old(State()))
    {
      if ballPosition.y < BALL_SIZE_HALF {
        ballPosition := ballPosition.(y := BALL_SIZE_HALF);
        ballVelocity := ballVelocity.(y := Abs(ballVelocity.y));
      } else if ballPosition.y > SCREEN_HEIGHT - BALL_SIZE_HALF {
        ballPosition := ballPosition.(y := SCREEN_HEIGHT - BALL_SIZE_HALF);
        ballVelocity := ballVelocity.(y := -Abs(ballVelocity.y));
      }
    }

    /** The paddle part of `update`: a touched paddle sends the ball away from it. */
    method BounceOffPads()
      modifies this
      ensures State() == PadBounce(old(State()))
    {
      var player1Pad := PadHit(ballPosition, player1Pos);
      if player1Pad {
        ballVelocity := ballVelocity.(x := Abs(ballVelocity.x));
      }
      var player2Pad := PadHit(ballPosition, player2Pos);
      if player2Pad {
        ballVelocity := ballVelocity.(x := -Abs(ballVelocity.x));
      }
    }

    /** `key_down_event`: move the paddle the key belongs to, then clamp both paddles to the screen. */
    method KeyDownEvent(key: KeyCode, dt: real)
      requires Valid()
      modifies this
      ensures Valid()
      ensures State() == KeyDown(old(State()), key, dt)
    {
      match key {
        case Up => player1Pos := player1Pos.(y := player1Pos.y - PAD_SPEED * dt);
        case Down => player1Pos := player1Pos.(y := player1Pos.y + PAD_SPEED * dt);
        case _ =>
      }
      var y1 := Bounds(player1Pos.y, PAD_LOW, PAD_HIGH);
      player1Pos := player1Pos.(y := y1);

      match key {
        case W => player2Pos := player2Pos.(y := player2Pos.y - PAD_SPEED * dt);
        case S => player2Pos := player2Pos.(y := player2Pos.y + PAD_SPEED * dt);
        case _ =>
      }
      var y2 := Bounds(player2Pos.y, PAD_LOW, PAD_HIGH);
      player2Pos := player2Pos.(y := y2);
    }
  }
}
