/**
 * The rocket game's collision pass (`MainState::check_collision`) as a
 * function of the rocket, the registry and the end-of-game flag: the screen
 * bounds test, the per-object response walked in registry order, the
 * removal of a collected fuel pickup (which sets the key) and the removal of
 * every checkpoint wall once the key is held.
 */
module RocketCollision {
  import opened Geometry
  import opened Sequences
  import opened RocketObjects
  import opened RocketPlayer

  const SCREEN_SIZE: Vec2 := Vec2(1600.0, 900.0)
  const MAX_IMPACT_VELOCITY: real := 30.0
  /** The bounce multiplies the vertical velocity by this factor ... */
  const BOUNCE_Y: real := -0.15
  /** ... and the horizontal velocity by this one. */
  const BOUNCE_X: real := 0.99

  function Abs(x: real): real { if x < 0.0 then -x else x }

  function Pow(b: real, n: nat): real { if n == 0 then 1.0 else Pow(b, n - 1) * b }

  /** The rocket's centre is outside `[0, 1600] x [0, 900]`. */
  predicate OffScreen(pos: Vec2)
  {
    pos.x > SCREEN_SIZE.x || pos.x < 0.0 || pos.y > SCREEN_SIZE.y || pos.y < 0.0
  }

  predicate IsGround(t: Tag) { t == Ground || t == CheckpointGround }

  /** Touching one of these ends the game whatever the speed: walls kill, the checkpoint ground wins. */
  predicate IsTerminal(t: Tag) { t == Wall || t == CheckpointWall || t == CheckpointGround }

  /** A landing that ends the game: at least the maximal impact speed, or tilted by more than 1 and less than 5 radians. */
  predicate FatalLanding(p: Player)
  {
    LengthSq(p.velocity) >= MAX_IMPACT_VELOCITY * MAX_IMPACT_VELOCITY ||
    (1.0 < Abs(p.facing) && Abs(p.facing) < 5.0)
  }

  /**
   * The ground response: damp and reflect the velocity and put the rocket
   * on top of the ground at `groundY` (the registry's entry 0, whichever
   * ground was touched).
   */
  function Bounce(p: Player, groundY: real): Player
  {
    p.(velocity := Vec2(p.velocity.x * BOUNCE_X, p.velocity.y * BOUNCE_Y),
       pos := p.pos.(y := groundY - p.rect.h / 2.0))
  }

  /** The state the object loop updates. */
  datatype Contact = Contact(player: Player, gameEnd: bool)

  /** The loop body for one object, in the source's order of tests. */
  function HitObject(c: Contact, o: GameObject, groundY: real): Contact
  {
    if !Overlaps(o.rect, c.player.rect) then c
    else
      var landed := if IsGround(o.tag) then
                      Contact(Bounce(c.player, groundY), c.gameEnd || FatalLanding(c.player))
                    else c;
      var reached := if o.tag == CheckpointGround then landed.(gameEnd := true) else landed;
      if o.tag == Wall || o.tag == CheckpointWall then reached.(gameEnd := true) else reached
  }

  /** The object loop: every object in registry order. */
  function Collide(c: Contact, objects: seq<GameObject>, groundY: real): Contact
  {
    if objects == [] then c
    else HitObject(Collide(c, objects[..|objects| - 1], groundY), objects[|objects| - 1], groundY)
  }

  function GroundHit(r: Rect): GameObject -> bool
  {
    (o: GameObject) => IsGround(o.tag) && Overlaps(o.rect, r)
  }

  /** How many grounds the box `r` touches. */
  function GroundHits(objects: seq<GameObject>, r: Rect): nat
  {
    |Keep(objects, GroundHit(r))|
  }

  predicate TerminalHit(objects: seq<GameObject>, r: Rect)
  {
    exists i :: 0 <= i < |objects| && IsTerminal(objects[i].tag) && Overlaps(objects[i].rect, r)
  }

  lemma BounceSlows(p: Player, groundY: real)
    ensures LengthSq(Bounce(p, groundY).velocity) <= LengthSq(p.velocity)
  {
    var x, y := p.velocity.x, p.velocity.y;
    assert (x * BOUNCE_X) * (x * BOUNCE_X) == 0.9801 * (x * x);
    assert (y * BOUNCE_Y) * (y * BOUNCE_Y) == 0.0225 * (y * y);
    assert x * x >= 0.0 && y * y >= 0.0;
  }

  /**
   * What the object loop leaves alone: the box, facing, fuel, key and
   * horizontal position never change; with no ground touched the rocket is
   * unchanged, and otherwise it sits on top of entry 0.
   */
  lemma {:induction false} CollideFrame(c: Contact, objects: seq<GameObject>, groundY: real)
    ensures var d := Collide(c, objects, groundY).player;
      var k := GroundHits(objects, c.player.rect);
      d.rect == c.player.rect && d.facing == c.player.facing && d.fuel == c.player.fuel &&
      d.key == c.player.key && d.pos.x == c.player.pos.x &&
      (k == 0 ==> d == c.player) &&
      (k > 0 ==> d.pos.y == groundY - c.player.rect.h / 2.0)
  {
    if objects != [] {
      CollideFrame(c, objects[..|objects| - 1], groundY);
    }
  }

  /** Touching a ground multiplies the velocity by (0.99, -0.15); touching anything else leaves it. */
  lemma HitObjectVelocity(c: Contact, o: GameObject, groundY: real)
    ensures HitObject(c, o, groundY).player.velocity ==
      if GroundHit(c.player.rect)(o) then Vec2(c.player.velocity.x * BOUNCE_X, c.player.velocity.y * BOUNCE_Y)
      else c.player.velocity
  {
  }

  /** One more factor on a product of factors. */
  lemma PowStep(b: real, k: nat, v: real)
    ensures Pow(b, k) * v * b == Pow(b, k + 1) * v
  {
    var p := Pow(b, k);
    assert p * v * b == (p * b) * v;
  }

  /** The number of grounds touched grows by one exactly when the last object is a touched ground. */
  lemma GroundHitsStep(objects: seq<GameObject>, r: Rect)
    requires objects != []
    ensures GroundHits(objects, r) ==
      GroundHits(objects[..|objects| - 1], r) + if GroundHit(r)(objects[|objects| - 1]) then 1 else 0
  {
  }

  /** Each touched ground multiplies the horizontal velocity by 0.99 once. */
  lemma {:induction false} CollideVelocityX(c: Contact, objects: seq<GameObject>, groundY: real)
    ensures Collide(c, objects, groundY).player.velocity.x ==
      Pow(BOUNCE_X, GroundHits(objects, c.player.rect)) * c.player.velocity.x
  {
    if objects != [] {
      var init, last := objects[..|objects| - 1], objects[|objects| - 1];
      CollideVelocityX(c, init, groundY);
      CollideFrame(c, init, groundY);
      HitObjectVelocity(Collide(c, init, groundY), last, groundY);
      GroundHitsStep(objects, c.player.rect);
      PowStep(BOUNCE_X, GroundHits(init, c.player.rect), c.player.velocity.x);
    }
  }

  /** Each touched ground multiplies the vertical velocity by -0.15 once. */
  lemma {:induction false} CollideVelocityY(c: Contact, objects: seq<GameObject>, groundY: real)
    ensures Collide(c, objects, groundY).player.velocity.y ==
      Pow(BOUNCE_Y, GroundHits(objects, c.player.rect)) * c.player.velocity.y
  {
    if objects != [] {
      var init, last := objects[..|objects| - 1], objects[|objects| - 1];
      CollideVelocityY(c, init, groundY);
      CollideFrame(c, init, groundY);
      HitObjectVelocity(Collide(c, init, groundY), last, groundY);
      GroundHitsStep(objects, c.player.rect);
      PowStep(BOUNCE_Y, GroundHits(init, c.player.rect), c.player.velocity.y);
    }
  }

  /** The object loop never speeds the rocket up. */
  lemma {:induction false} CollideSlows(c: Contact, objects: seq<GameObject>, groundY: real)
    ensures LengthSq(Collide(c, objects, groundY).player.velocity) <= LengthSq(c.player.velocity)
  {
    if objects != [] {
      var init := objects[..|objects| - 1];
      CollideSlows(c, init, groundY);
      BounceSlows(Collide(c, init, groundY).player, groundY);
    }
  }

  /**
   * What the object loop does to the rocket: the box, facing, fuel, key and
   * horizontal position never change; each touched ground multiplies the
   * velocity by (0.99, -0.15) once and snaps the rocket onto entry 0; with no
   * ground touched the rocket is unchanged; speed never increases.
   */
  lemma CollidePlayer(c: Contact, objects: seq<GameObject>, groundY: real)
    ensures var d := Collide(c, objects, groundY).player;
      var k := GroundHits(objects, c.player.rect);
      d.rect == c.player.rect && d.facing == c.player.facing && d.fuel == c.player.fuel &&
      d.key == c.player.key && d.pos.x == c.player.pos.x &&
      d.velocity == Vec2(Pow(BOUNCE_X, k) * c.player.velocity.x, Pow(BOUNCE_Y, k) * c.player.velocity.y) &&
      LengthSq(d.velocity) <= LengthSq(c.player.velocity) &&
      (k == 0 ==> d == c.player) &&
      (k > 0 ==> d.pos.y == groundY - c.player.rect.h / 2.0)
  {
    CollideFrame(c, objects, groundY);
    CollideVelocityX(c, objects, groundY);
    CollideVelocityY(c, objects, groundY);
    CollideSlows(c, objects, groundY);
  }

  /**
   * When the object loop ends the game: it was already over, the box touches
   * a wall, a checkpoint wall or the checkpoint ground, or it touches a ground
   * and the landing (judged on arrival) is fatal.
   */
  lemma {:induction false} CollideGameEnd(c: Contact, objects: seq<GameObject>, groundY: real)
    ensures Collide(c, objects, groundY).gameEnd <==>
      c.gameEnd || TerminalHit(objects, c.player.rect) ||
      (GroundHits(objects, c.player.rect) > 0 && FatalLanding(c.player))
  {
    if objects != [] {
      var init, last := objects[..|objects| - 1], objects[|objects| - 1];
      var r := c.player.rect;
      CollideGameEnd(c, init, groundY);
      CollideFrame(c, init, groundY);
      CollideSlows(c, init, groundY);
      var before := Collide(c, init, groundY);
      if GroundHits(init, r) > 0 && FatalLanding(before.player) {
        assert FatalLanding(c.player);
      }
      assert TerminalHit(objects, r) <==> TerminalHit(init, r) || (IsTerminal(last.tag) && Overlaps(last.rect, r)) by {
        if TerminalHit(objects, r) {
          var i :| 0 <= i < |objects| && IsTerminal(objects[i].tag) && Overlaps(objects[i].rect, r);
          if i < |init| {
            assert init[i] == objects[i];
          }
        }
        if TerminalHit(init, r) {
          var i :| 0 <= i < |init| && IsTerminal(init[i].tag) && Overlaps(init[i].rect, r);
          assert objects[i] == init[i];
        }
      }
    }
  }

  // ---------------------------------------------------------------------
  // The two retain passes
  // ---------------------------------------------------------------------

  /** The first retain keeps an object unless it is a fuel pickup the box `r` touches. */
  function FuelKept(r: Rect): GameObject -> bool
  {
    (o: GameObject) => !Overlaps(o.rect, r) || o.tag != Fuel
  }

  /** The second retain keeps an object unless the key is held and it is a checkpoint wall. */
  function CheckpointKept(key: bool): GameObject -> bool
  {
    (o: GameObject) => !key || o.tag != CheckpointWall
  }

  /** The box `r` touches some fuel pickup. */
  predicate FuelHit(objects: seq<GameObject>, r: Rect)
  {
    exists i :: 0 <= i < |objects| && !FuelKept(r)(objects[i])
  }

  function IsFuel(o: GameObject): bool { o.tag == Fuel }

  /** How many fuel pickups the registry holds. */
  function FuelCount(objects: seq<GameObject>): nat { |Keep(objects, IsFuel)| }

  /** The height of entry 0, where every ground landing puts the rocket; unused when the registry is empty. */
  function GroundY(objects: seq<GameObject>): real
  {
    if |objects| > 0 then objects[0].rect.y else 0.0
  }

  datatype Collision = Collision(player: Player, objects: seq<GameObject>, gameEnd: bool)

  /** `check_collision`, pass by pass. */
  function CheckCollisionSpec(player: Player, objects: seq<GameObject>, gameEnd: bool): Collision
  {
    var bounded := gameEnd || OffScreen(player.pos);
    var contact := Collide(Contact(player, bounded), objects, GroundY(objects));
    var key := contact.player.key || FuelHit(objects, player.rect);
    var fuelled := Keep(objects, FuelKept(player.rect));
    Collision(contact.player.(key := key), Keep(fuelled, CheckpointKept(key)), contact.gameEnd)
  }

  /**
   * The end-of-game flag after the pass: set exactly when it was set, the
   * rocket is off screen, it touches a wall, a checkpoint wall or the
   * checkpoint ground, or it touches a ground at a fatal speed or tilt. It is
   * never cleared.
   */
  lemma CheckCollisionGameEnd(player: Player, objects: seq<GameObject>, gameEnd: bool)
    ensures CheckCollisionSpec(player, objects, gameEnd).gameEnd <==>
      gameEnd || OffScreen(player.pos) || TerminalHit(objects, player.rect) ||
      (GroundHits(objects, player.rect) > 0 && FatalLanding(player))
  {
    CollideGameEnd(Contact(player, gameEnd || OffScreen(player.pos)), objects, GroundY(objects));
  }

  /**
   * The rocket after the pass: its box, facing and fuel are untouched (no
   * refill on pickup); the key is set exactly when it was set or a fuel
   * pickup was touched. Touching no ground leaves position and velocity
   * alone; touching exactly one ground scales the velocity by (0.99, -0.15)
   * and puts the rocket on top of entry 0.
   */
  lemma CheckCollisionPlayer(player: Player, objects: seq<GameObject>, gameEnd: bool)
    ensures var p := CheckCollisionSpec(player, objects, gameEnd).player;
      var k := GroundHits(objects, player.rect);
      p.rect == player.rect && p.facing == player.facing && p.fuel == player.fuel &&
      (p.key <==> player.key || FuelHit(objects, player.rect)) &&
      (k == 0 ==> p.pos == player.pos && p.velocity == player.velocity) &&
      (k == 1 ==> p.velocity == Vec2(player.velocity.x * BOUNCE_X, player.velocity.y * BOUNCE_Y) &&
                  p.pos == Vec2(player.pos.x, objects[0].rect.y - player.rect.h / 2.0))
  {
    var k := GroundHits(objects, player.rect);
    var start := Contact(player, gameEnd || OffScreen(player.pos));
    var d := Collide(start, objects, GroundY(objects)).player;
    CollidePlayer(start, objects, GroundY(objects));
    assert CheckCollisionSpec(player, objects, gameEnd).player ==
      d.(key := d.key || FuelHit(objects, player.rect));
    if k == 1 {
      assert Pow(BOUNCE_X, 1) == BOUNCE_X && Pow(BOUNCE_Y, 1) == BOUNCE_Y;
      assert |objects| > 0;
    }
  }

  /**
   * The two retains together: an object survives exactly when it was there,
   * is not a pickup touching `r`, and is not a checkpoint wall while `key` is
   * held; when the key is not held and no pickup was touched, nothing goes.
   */
  lemma RetainsMember(objects: seq<GameObject>, r: Rect, key: bool)
    requires !key ==> !FuelHit(objects, r)
    ensures var out := Keep(Keep(objects, FuelKept(r)), CheckpointKept(key));
      (forall o :: o in out <==>
         o in objects && (o.tag == Fuel ==> !Overlaps(o.rect, r)) && (key ==> o.tag != CheckpointWall)) &&
      (!key ==> out == objects)
  {
    var fuelled := Keep(objects, FuelKept(r));
    forall o
      ensures o in Keep(fuelled, CheckpointKept(key)) <==> o in fuelled && CheckpointKept(key)(o)
      ensures o in fuelled <==> o in objects && FuelKept(r)(o)
    {
      KeepMember(objects, FuelKept(r), o);
      KeepMember(fuelled, CheckpointKept(key), o);
    }
    if !key {
      KeepAll(objects, FuelKept(r));
      KeepAll(fuelled, CheckpointKept(false));
    }
  }

  /**
   * The registry after the pass: an object survives exactly when it was
   * there, is not a touched fuel pickup, and is not a checkpoint wall while
   * the key is held. So once the key is held no checkpoint wall remains,
   * and without the key nothing is removed at all.
   */
  lemma CheckCollisionObjects(player: Player, objects: seq<GameObject>, gameEnd: bool)
    ensures var c := CheckCollisionSpec(player, objects, gameEnd);
      (forall o :: o in c.objects <==>
         o in objects && (o.tag == Fuel ==> !Overlaps(o.rect, player.rect)) &&
         (c.player.key ==> o.tag != CheckpointWall)) &&
      (c.player.key ==> forall o :: o in c.objects ==> o.tag != CheckpointWall) &&
      (!c.player.key ==> c.objects == objects)
  {
    var c := CheckCollisionSpec(player, objects, gameEnd);
    CollideFrame(Contact(player, gameEnd || OffScreen(player.pos)), objects, GroundY(objects));
    assert c.objects == Keep(Keep(objects, FuelKept(player.rect)), CheckpointKept(c.player.key));
    RetainsMember(objects, player.rect, c.player.key);
  }

  /**
   * Positional stability: when the first `k` objects are neither fuel
   * pickups nor checkpoint walls, they keep their indices (and so their
   * tags) after both retains.
   */
  lemma CheckCollisionPrefix(player: Player, objects: seq<GameObject>, gameEnd: bool, k: nat)
    requires k <= |objects|
    requires forall i :: 0 <= i < k ==> objects[i].tag != Fuel && objects[i].tag != CheckpointWall
    ensures var c := CheckCollisionSpec(player, objects, gameEnd);
      k <= |c.objects| && c.objects[..k] == objects[..k]
  {
    var c := CheckCollisionSpec(player, objects, gameEnd);
    var fuelled := Keep(objects, FuelKept(player.rect));
    assert c.objects == Keep(fuelled, CheckpointKept(c.player.key));
    assert forall i :: 0 <= i < k ==> FuelKept(player.rect)(objects[i]);
    KeepPrefix(objects, FuelKept(player.rect), k);
    assert fuelled[..k] == objects[..k];
    KeepPrefix(fuelled, CheckpointKept(c.player.key), k);
  }

  /** The second retain never removes a fuel pickup. */
  lemma CheckpointRetainKeepsFuel(objects: seq<GameObject>, key: bool)
    ensures FuelCount(Keep(objects, CheckpointKept(key))) == FuelCount(objects)
  {
    KeepCommute(objects, CheckpointKept(key), IsFuel);
    var fuels := Keep(objects, IsFuel);
    forall i | 0 <= i < |fuels|
      ensures CheckpointKept(key)(fuels[i])
    {
      KeepMember(objects, IsFuel, fuels[i]);
    }
    KeepAll(fuels, CheckpointKept(key));
  }

  /**
   * With at most one fuel pickup in the registry, the first retain removes
   * it exactly when the box touches it, and leaves it otherwise.
   */
  lemma FuelRetainTakesTheOnlyPickup(objects: seq<GameObject>, r: Rect)
    requires FuelCount(objects) <= 1
    ensures FuelCount(Keep(objects, FuelKept(r))) == if FuelHit(objects, r) then 0 else FuelCount(objects)
  {
    KeepCommute(objects, FuelKept(r), IsFuel);
    var fuels := Keep(objects, IsFuel);
    if FuelHit(objects, r) {
      var i :| 0 <= i < |objects| && !FuelKept(r)(objects[i]);
      KeepMember(objects, IsFuel, objects[i]);
      assert fuels == [objects[i]];
      KeepNone(fuels, FuelKept(r));
    } else if |fuels| == 1 {
      KeepMember(objects, IsFuel, fuels[0]);
      KeepAll(fuels, FuelKept(r));
    }
  }

  /**
   * The registry holds at most one fuel pickup, and it is gone exactly when
   * the key is held: the pass keeps this, so the pickup can be collected
   * only once.
   */
  lemma CheckCollisionFuel(player: Player, objects: seq<GameObject>, gameEnd: bool)
    requires FuelCount(objects) <= 1 && (player.key <==> FuelCount(objects) == 0)
    ensures var c := CheckCollisionSpec(player, objects, gameEnd);
      FuelCount(c.objects) <= 1 && (c.player.key <==> FuelCount(c.objects) == 0)
  {
    var c := CheckCollisionSpec(player, objects, gameEnd);
    CollideFrame(Contact(player, gameEnd || OffScreen(player.pos)), objects, GroundY(objects));
    var fuelled := Keep(objects, FuelKept(player.rect));
    FuelRetainTakesTheOnlyPickup(objects, player.rect);
    CheckpointRetainKeepsFuel(fuelled, c.player.key);
  }
}
