/**
 * The rocket: its state, the keyboard-driven input state, and the per-tick
 * physics (rotation, fuel-gated thrust, gravity, translation and the
 * re-centring of its collision box).
 */
module RocketPlayer {
  import opened Geometry

  /** Thrust acceleration, in pixels per second squared. */
  const ROCKET_THRUST: real := 30.0
  /** Rotation rate, in radians per second. */
  const ROCKET_TURN_RATE: real := 1.2
  /** The collision box's fixed size. */
  const ROCKET_BBOX: Vec2 := Vec2(37.0, 64.0)
  const ROCKET_FUEL: real := 100.0
  const ROCKET_FUEL_CONSUMPTION: real := 0.12
  /** The hard-coded gravity factor of the position update. */
  const GRAVITY: real := 10.0
  const GRAVITY_ACCELERATION: real := 3.0
  const DESIRED_FPS: real := 60.0
  /** The fixed step every tick is run with: `GRAVITY_ACCELERATION / DESIRED_FPS` seconds. */
  const TICK: real := GRAVITY_ACCELERATION / DESIRED_FPS
  /** `2.0 * PI` as the f32 value the game computes with. */
  const TWO_PI: real := 6.2831855

  // ---------------------------------------------------------------------
  // Input state
  // ---------------------------------------------------------------------

  /** The keys the game reacts to; every other key, or none, is `Other`. */
  datatype KeyCode = Up | Left | Right | Escape | Other

  /** Turning intent (`xaxis`) and thrust intent (`yaxis`). */
  datatype InputState = InputState(xaxis: real, yaxis: real)

  const DEFAULT_INPUT: InputState := InputState(0.0, 0.0)

  /** The values the key handlers ever write: turning -1, 0 or 1, thrust 0 or 1. */
  predicate InputValid(input: InputState)
  {
    (input.xaxis == -1.0 || input.xaxis == 0.0 || input.xaxis == 1.0) &&
    (input.yaxis == 0.0 || input.yaxis == 1.0)
  }

  /**
   * `key_down_event`: Up starts thrust, Left and Right set the turning
   * direction; Escape (a quit request) and other keys leave the input alone.
   */
  function KeyDown(input: InputState, key: KeyCode): (r: InputState)
    ensures InputValid(input) ==> InputValid(r)
    ensures key == Up ==> r.yaxis == 1.0 && r.xaxis == input.xaxis
    ensures key == Left ==> r.xaxis == -1.0 && r.yaxis == input.yaxis
    ensures key == Right ==> r.xaxis == 1.0 && r.yaxis == input.yaxis
    ensures key !in {Up, Left, Right} ==> r == input
  {
    match key
    case Up => input.(yaxis := 1.0)
    case Left => input.(xaxis := -1.0)
    case Right => input.(xaxis := 1.0)
    case _ => input
  }

  /**
   * `key_up_event`: releasing Up stops thrust; releasing either Left or
   * Right stops turning, whichever direction was active.
   */
  function KeyUp(input: InputState, key: KeyCode): (r: InputState)
    ensures InputValid(input) ==> InputValid(r)
    ensures key == Up ==> r.yaxis == 0.0 && r.xaxis == input.xaxis
    ensures key in {Left, Right} ==> r.xaxis == 0.0 && r.yaxis == input.yaxis
    ensures key !in {Up, Left, Right} ==> r == input
  {
    match key
    case Up => input.(yaxis := 0.0)
    case Left => input.(xaxis := 0.0)
    case Right => input.(xaxis := 0.0)
    case _ => input
  }

  /** Whether a key press asks the host to quit. */
  predicate RequestsQuit(key: KeyCode) { key == Escape }

  // ---------------------------------------------------------------------
  // The rocket
  // ---------------------------------------------------------------------

  datatype Player = Player(pos: Vec2, facing: real, velocity: Vec2, fuel: real, key: bool, rect: Rect)

  /** The collision box is centred on the rocket's position. */
  predicate Centred(p: Player)
  {
    p.rect.x + p.rect.w / 2.0 == p.pos.x && p.rect.y + p.rect.h / 2.0 == p.pos.y
  }

  /**
   * What holds of the rocket for the whole run: a box of the fixed size, fuel
   * never above the initial load, and never more than one consumption step
   * below zero.
   */
  predicate PlayerInvariant(p: Player)
  {
    p.rect.w == ROCKET_BBOX.x && p.rect.h == ROCKET_BBOX.y &&
    -ROCKET_FUEL_CONSUMPTION < p.fuel <= ROCKET_FUEL
  }

  /** `create_player`: at rest on the start pad with a full tank and no key. */
  function CreatePlayer(): (p: Player)
    ensures PlayerInvariant(p)
    ensures p.fuel == ROCKET_FUEL && !p.key && p.velocity == ZERO && p.facing == 0.0
    ensures p.pos == Vec2(100.0, 530.0) && p.rect == Rect(0.0, 0.0, 37.0, 64.0)
  {
    Player(Vec2(100.0, 530.0), 0.0, ZERO, ROCKET_FUEL, false, Rect(0.0, 0.0, ROCKET_BBOX.x, ROCKET_BBOX.y))
  }

  /** The angle `a` with `turns` whole turns taken off. */
  function LessTurns(a: real, turns: int): real
  {
    a - turns as real * TWO_PI
  }

  /**
   * `facing % (2.0 * PI)`: Rust's remainder on floats truncates toward zero,
   * so whole turns are taken off toward zero: the result keeps the sign of
   * the angle and lies strictly between -2π and 2π.
   */
  function WrapAngle(a: real): (r: real)
    ensures -TWO_PI < r < TWO_PI
    ensures a >= 0.0 ==> r >= 0.0
    ensures a <= 0.0 ==> r <= 0.0
    ensures -TWO_PI < a < TWO_PI ==> r == a
    ensures exists turns: int :: r == LessTurns(a, turns)
    decreases if a < 0.0 then (-a).Floor else a.Floor
  {
    if a >= TWO_PI then
      var r := WrapAngle(a - TWO_PI);
      ghost var turns: int :| r == LessTurns(a - TWO_PI, turns);
      assert r == LessTurns(a, turns + 1);
      r
    else if a <= -TWO_PI then
      var r := WrapAngle(a + TWO_PI);
      ghost var turns: int :| r == LessTurns(a + TWO_PI, turns);
      assert r == LessTurns(a, turns - 1);
      r
    else
      assert a == LessTurns(a, 0);
      a
  }

  /**
   * `rocket_thrust`: accelerate along the unit vector of the current facing
   * (`heading` stands for the sine/cosine mapping) and burn one unit of
   * consumption when the tank is not empty.
   */
  function RocketThrust(rocket: Player, dt: real, heading: real -> Vec2): (r: Player)
    ensures rocket.fuel > 0.0 ==> r.fuel == rocket.fuel - ROCKET_FUEL_CONSUMPTION
    ensures rocket.fuel <= 0.0 ==> r.fuel == rocket.fuel
    ensures r.velocity == Add(rocket.velocity, Scale(Scale(heading(rocket.facing), ROCKET_THRUST), dt))
    ensures r == rocket.(velocity := r.velocity, fuel := r.fuel)
  {
    var thrust := Scale(heading(rocket.facing), ROCKET_THRUST);
    var accelerated := rocket.(velocity := Add(rocket.velocity, Scale(thrust, dt)));
    if accelerated.fuel > 0.0 then accelerated.(fuel := accelerated.fuel - ROCKET_FUEL_CONSUMPTION)
    else accelerated
  }

  /**
   * `player_handle_input`: turn, wrap the angle, then thrust only while the
   * thrust key is held and fuel is left. Fuel drops by exactly one
   * consumption step when, and only when, thrust was applied.
   */
  function PlayerHandleInput(rocket: Player, input: InputState, dt: real, heading: real -> Vec2): (r: Player)
    ensures r.facing == WrapAngle(rocket.facing + dt * ROCKET_TURN_RATE * input.xaxis)
    ensures -TWO_PI < r.facing < TWO_PI
    ensures r.fuel <= rocket.fuel
    ensures r.fuel < rocket.fuel <==> input.yaxis > 0.0 && rocket.fuel > 0.0
    ensures r.fuel < rocket.fuel ==>
      r.fuel == rocket.fuel - ROCKET_FUEL_CONSUMPTION &&
      r.velocity == Add(rocket.velocity, Scale(Scale(heading(r.facing), ROCKET_THRUST), dt))
    ensures r.fuel == rocket.fuel ==> r.velocity == rocket.velocity
    ensures r.pos == rocket.pos && r.rect == rocket.rect && r.key == rocket.key
    ensures PlayerInvariant(rocket) ==> PlayerInvariant(r)
  {
    var turned := rocket.(facing := WrapAngle(rocket.facing + dt * ROCKET_TURN_RATE * input.xaxis));
    if input.yaxis > 0.0 && turned.fuel > 0.0 then RocketThrust(turned, dt, heading) else turned
  }

  /**
   * `update_player_position`: gravity, then translation, then the box is
   * moved so that it is centred on the new position.
   */
  function UpdatePlayerPosition(rocket: Player, dt: real): (r: Player)
    ensures Centred(r) && r.rect.w == rocket.rect.w && r.rect.h == rocket.rect.h
    ensures r.velocity == Vec2(rocket.velocity.x, rocket.velocity.y + GRAVITY * dt)
    ensures r.pos == Add(rocket.pos, Scale(r.velocity, dt))
    ensures r.facing == rocket.facing && r.fuel == rocket.fuel && r.key == rocket.key
    ensures PlayerInvariant(rocket) ==> PlayerInvariant(r)
  {
    var velocity := rocket.velocity.(y := rocket.velocity.y + GRAVITY * dt);
    var pos := Add(rocket.pos, Scale(velocity, dt));
    rocket.(velocity := velocity, pos := pos,
            rect := rocket.rect.(x := pos.x - rocket.rect.w / 2.0, y := pos.y - rocket.rect.h / 2.0))
  }

  /** The physics part of `n` ticks of the game's fixed step: input handling then the position update. */
  function Fly(n: nat, rocket: Player, input: InputState, heading: real -> Vec2): Player
  {
    if n == 0 then rocket
    else Fly(n - 1, UpdatePlayerPosition(PlayerHandleInput(rocket, input, TICK, heading), TICK), input, heading)
  }

  /** One tick without thrust: one gravity step on the vertical velocity, and no fuel burnt. */
  lemma CoastStep(rocket: Player, input: InputState, heading: real -> Vec2)
    requires input.yaxis <= 0.0
    ensures var next := UpdatePlayerPosition(PlayerHandleInput(rocket, input, TICK, heading), TICK);
      next.velocity == Vec2(rocket.velocity.x, rocket.velocity.y + GRAVITY * TICK) && next.fuel == rocket.fuel
  {
  }

  /**
   * Free fall: without thrust, `n` physics steps (`Fly`, which leaves out the
   * collision pass) add exactly `n` gravity steps
   * (0.5 each) to the vertical velocity and leave the horizontal velocity and
   * the fuel alone.
   */
  lemma {:induction false} FreeFall(n: nat, rocket: Player, input: InputState, heading: real -> Vec2)
    requires input.yaxis <= 0.0
    ensures Fly(n, rocket, input, heading).velocity ==
      Vec2(rocket.velocity.x, rocket.velocity.y + n as real * (GRAVITY * TICK))
    ensures Fly(n, rocket, input, heading).fuel == rocket.fuel
  {
    if n > 0 {
      var next := UpdatePlayerPosition(PlayerHandleInput(rocket, input, TICK, heading), TICK);
      CoastStep(rocket, input, heading);
      FreeFall(n - 1, next, input, heading);
    }
  }

  /**
   * Over `n` physics steps fuel only ever goes down, by one consumption step per thrusting step,
   * and never more than one step below zero.
   */
  lemma {:induction false} FuelBounds(n: nat, rocket: Player, input: InputState, heading: real -> Vec2)
    requires PlayerInvariant(rocket)
    ensures PlayerInvariant(Fly(n, rocket, input, heading))
    ensures Fly(n, rocket, input, heading).fuel <= rocket.fuel
  {
    if n > 0 {
      var next := UpdatePlayerPosition(PlayerHandleInput(rocket, input, TICK, heading), TICK);
      FuelBounds(n - 1, next, input, heading);
    }
  }
}
