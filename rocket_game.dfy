/**
 * The rocket game's `MainState`: the rocket, the input state, the obstacle
 * registry, the moving-wall flag and the end-of-game flag, updated in place
 * by the collision pass, the per-tick update and the key handlers.
 */
module RocketGame {
  import opened Geometry
  import opened Sequences
  import opened RocketObjects
  import opened RocketPlayer
  import opened RocketCollision

  /** Every obstacle has a positive width and height. */
  ghost predicate Sized(objects: seq<GameObject>)
  {
    forall i :: 0 <= i < |objects| ==> objects[i].rect.w > 0.0 && objects[i].rect.h > 0.0
  }

  /** No checkpoint wall is left. */
  ghost predicate Unlocked(objects: seq<GameObject>)
  {
    forall i :: 0 <= i < |objects| ==> objects[i].tag != CheckpointWall
  }

  /** Entries 0 to 8 hold the layout's grounds and walls, in the layout's order. */
  ghost predicate FixedEntries(objects: seq<GameObject>)
  {
    |objects| >= FIXED && forall i :: 0 <= i < FIXED ==> objects[i].tag == LAYOUT_TAGS[i]
  }

  /** The layout holds exactly one fuel pickup. */
  lemma LayoutFuelCount(objects: seq<GameObject>)
    requires |objects| == |LAYOUT_TAGS|
    requires forall i :: 0 <= i < |objects| ==> objects[i].tag == LAYOUT_TAGS[i]
    ensures FuelCount(objects) == 1
  {
    var n := |objects| - 1;
    assert objects == objects[..n] + [objects[n]];
    KeepConcat(objects[..n], [objects[n]], IsFuel);
    KeepNone(objects[..n], IsFuel);
    assert Keep([objects[n]], IsFuel) == Keep([], IsFuel) + [objects[n]];
  }

  /** A moving-wall step keeps the tags and sizes of every entry, and so the pickup count. */
  lemma WallStepKeepsLayout(w: Walls)
    requires |w.objects| > 5
    ensures var r := WallStep(w).objects;
      (forall i :: 0 <= i < |r| ==> r[i].tag == w.objects[i].tag &&
                                    r[i].rect.w == w.objects[i].rect.w && r[i].rect.h == w.objects[i].rect.h) &&
      FuelCount(r) == FuelCount(w.objects)
  {
    var r := WallStep(w).objects;
    forall i | 0 <= i < |r|
      ensures r[i].tag == w.objects[i].tag && r[i].rect.w == w.objects[i].rect.w && r[i].rect.h == w.objects[i].rect.h
    {
      if 3 <= i <= 5 {
        assert r[i].rect.(y := 0.0).w == r[i].rect.w;
        assert w.objects[i].rect.(y := 0.0).w == w.objects[i].rect.w;
      }
    }
    KeepLengthAgree(r, w.objects, IsFuel);
  }

  /** A registry whose first nine entries are unchanged keeps the layout and the walls' band. */
  lemma PrefixKeepsLayout(objects: seq<GameObject>, objects': seq<GameObject>)
    requires FixedEntries(objects) && WallInvariant(objects)
    requires FIXED <= |objects'| && objects'[..FIXED] == objects[..FIXED]
    ensures FixedEntries(objects') && WallInvariant(objects')
  {
    forall i | 0 <= i < FIXED
      ensures objects'[i] == objects[i]
    {
      assert objects'[..FIXED][i] == objects'[i] && objects[..FIXED][i] == objects[i];
    }
  }

  /** A registry whose entries all come from a sized one, none of them a checkpoint wall when `key`, is sized (and unlocked when `key`). */
  lemma SurvivorsKeepSizes(objects: seq<GameObject>, objects': seq<GameObject>, key: bool)
    requires Sized(objects)
    requires forall o :: o in objects' ==> o in objects && (key ==> o.tag != CheckpointWall)
    ensures Sized(objects') && (key ==> Unlocked(objects'))
  {
    forall i | 0 <= i < |objects'|
      ensures objects'[i].rect.w > 0.0 && objects'[i].rect.h > 0.0
      ensures key ==> objects'[i].tag != CheckpointWall
    {
      assert objects'[i] in objects';
    }
  }

  /** The layout's first nine entries are neither fuel pickups nor checkpoint walls, so no retain removes them. */
  lemma FixedEntriesStay(objects: seq<GameObject>)
    requires FixedEntries(objects)
    ensures forall i :: 0 <= i < FIXED ==> objects[i].tag != Fuel && objects[i].tag != CheckpointWall
  {
    forall i | 0 <= i < FIXED
      ensures objects[i].tag != Fuel && objects[i].tag != CheckpointWall
    {
      assert LAYOUT_TAGS[i] == Ground || LAYOUT_TAGS[i] == CheckpointGround || LAYOUT_TAGS[i] == Wall;
    }
  }

  /** The collision pass keeps the layout's first nine entries and the walls' band. */
  lemma CollisionKeepsLayout(p: Player, objects: seq<GameObject>, end: bool)
    requires FixedEntries(objects) && WallInvariant(objects)
    ensures var c := CheckCollisionSpec(p, objects, end);
      FixedEntries(c.objects) && WallInvariant(c.objects)
  {
    FixedEntriesStay(objects);
    CheckCollisionPrefix(p, objects, end, FIXED);
    PrefixKeepsLayout(objects, CheckCollisionSpec(p, objects, end).objects);
  }

  /** The collision pass keeps every obstacle's size, and removes every checkpoint wall once the key is held. */
  lemma CollisionKeepsSizes(p: Player, objects: seq<GameObject>, end: bool)
    requires Sized(objects)
    ensures var c := CheckCollisionSpec(p, objects, end);
      Sized(c.objects) && (c.player.key ==> Unlocked(c.objects))
  {
    var c := CheckCollisionSpec(p, objects, end);
    CheckCollisionObjects(p, objects, end);
    SurvivorsKeepSizes(objects, c.objects, c.player.key);
  }

  /** The part of the run's invariant that concerns the rocket and the registry. */
  ghost predicate WorldInvariant(p: Player, objects: seq<GameObject>)
  {
    PlayerInvariant(p) && FixedEntries(objects) && WallInvariant(objects) && Sized(objects) &&
    (p.key ==> Unlocked(objects)) &&
    FuelCount(objects) <= 1 && (p.key <==> FuelCount(objects) == 0)
  }

  /** The collision pass preserves the rocket's and the registry's invariant, and never clears the end-of-game flag or the key. */
  lemma CollisionKeepsInvariant(p: Player, objects: seq<GameObject>, end: bool)
    requires WorldInvariant(p, objects)
    ensures var c := CheckCollisionSpec(p, objects, end);
      WorldInvariant(c.player, c.objects) && (end ==> c.gameEnd) && (p.key ==> c.player.key)
  {
    CheckCollisionGameEnd(p, objects, end);
    CheckCollisionPlayer(p, objects, end);
    CollisionKeepsLayout(p, objects, end);
    CollisionKeepsSizes(p, objects, end);
    CheckCollisionFuel(p, objects, end);
  }

  /** A moving-wall step preserves the rocket's and the registry's invariant. */
  lemma WallStepKeepsWorld(p: Player, w: Walls)
    requires WorldInvariant(p, w.objects)
    ensures |w.objects| > 5 && WorldInvariant(p, WallStep(w).objects)
  {
    WallStepKeepsInvariant(w);
    WallStepKeepsLayout(w);
  }

  class MainState {
    var player: Player
    var input: InputState
    var objects: seq<GameObject>
    var moveWall: bool
    var gameEnd: bool

    /**
     * The run's invariant: the rocket's box has its fixed size and its fuel
     * is in (-0.12, 100]; the input axes hold values the key handlers write;
     * the layout's first nine entries are in place and the moving walls are
     * in their band; obstacles have positive sizes; the key is held exactly
     * when the one fuel pickup is gone, and then no checkpoint wall remains.
     */
    ghost predicate Valid()
      reads this
    {
      InputValid(input) && WorldInvariant(player, objects)
    }

    /** `MainState::new`: the start-up state, without assets and text. */
    constructor ()
      ensures Valid()
      ensures player == CreatePlayer() && input == DEFAULT_INPUT && moveWall && !gameEnd
      ensures objects == LAYOUT
      ensures |objects| == |LAYOUT_TAGS| && forall i :: 0 <= i < |objects| ==> objects[i].tag == LAYOUT_TAGS[i]
      ensures objects[4].rect.y == WALL_HIGH
    {
      var created := CreateObjects();
      LayoutFuelCount(created);
      player := CreatePlayer();
      input := DEFAULT_INPUT;
      objects := created;
      moveWall := true;
      gameEnd := false;
    }

    /**
     * `check_collision`: screen bounds, then every object in registry order,
     * then the pickup retain (which sets the key) and the checkpoint-wall
     * retain. The new state is the specification's, and the invariant holds.
     */
    method CheckCollision()
      requires Valid()
      modifies this
      ensures Valid()
      ensures Collision(player, objects, gameEnd) == CheckCollisionSpec(old(player), old(objects), old(gameEnd))
      ensures input == old(input) && moveWall == old(moveWall)
      ensures old(gameEnd) ==> gameEnd
      ensures old(player.key) ==> player.key
    {
      CollideObjects();
      CollectFuel();
      EraseCheckpointWalls();
      CollisionKeepsInvariant(old(player), old(objects), old(gameEnd));
    }

    /** The first part of `check_collision`: the screen bounds, then the object loop. */
    method CollideObjects()
      modifies this
      ensures Contact(player, gameEnd) ==
        Collide(Contact(old(player), old(gameEnd) || OffScreen(old(player.pos))), objects, GroundY(objects))
      ensures player.rect == old(player.rect) && player.key == old(player.key)
      ensures objects == old(objects) && input == old(input) && moveWall == old(moveWall)
    {
      if player.pos.x > SCREEN_SIZE.x || player.pos.x < 0.0 {
        gameEnd := true;
      }
      if player.pos.y > SCREEN_SIZE.y || player.pos.y < 0.0 {
        gameEnd := true;
      }
      ghost var start := Contact(player, gameEnd);
      var i := 0;
      while i < |objects|
        invariant 0 <= i <= |objects|
        invariant objects == old(objects) && input == old(input) && moveWall == old(moveWall)
        invariant Contact(player, gameEnd) == Collide(start, objects[..i], GroundY(objects))
        invariant player.rect == old(player.rect) && player.key == old(player.key)
      {
        assert objects[..i + 1][..i] == objects[..i];
        HitObjectStep(objects[i], objects[0].rect.y);
        i := i + 1;
      }
      assert objects[..i] == objects;
    }

    /** The fuel retain: a touched pickup is removed, and removing one sets the key. */
    method CollectFuel()
      modifies this
      ensures objects == Keep(old(objects), FuelKept(old(player.rect)))
      ensures player == old(player).(key := old(player.key) || FuelHit(old(objects), old(player.rect)))
      ensures gameEnd == old(gameEnd) && input == old(input) && moveWall == old(moveWall)
    {
      var fuelled, collected := Retain(objects, FuelKept(player.rect));
      objects := fuelled;
      if collected {
        player := player.(key := true);
      }
    }

    /** The checkpoint-wall retain: once the key is held, every checkpoint wall is removed. */
    method EraseCheckpointWalls()
      modifies this
      ensures objects == Keep(old(objects), CheckpointKept(player.key))
      ensures player == old(player) && gameEnd == old(gameEnd) && input == old(input) && moveWall == old(moveWall)
    {
      var unlocked, _ := Retain(objects, CheckpointKept(player.key));
      objects := unlocked;
    }

    /**
     * The body of `check_collision`'s object loop for one object: a touched
     * ground judges the landing, bounces the rocket and puts it on `groundY`
     * (entry 0's top); the checkpoint ground and the walls end the game.
     */
    method HitObjectStep(obj: GameObject, groundY: real)
      modifies this
      ensures Contact(player, gameEnd) == HitObject(old(Contact(player, gameEnd)), obj, groundY)
      ensures player.rect == old(player.rect) && player.key == old(player.key)
      ensures input == old(input) && objects == old(objects) && moveWall == old(moveWall)
    {
      if Overlaps(obj.rect, player.rect) {
        if obj.tag == Ground || obj.tag == CheckpointGround {
          if LengthSq(player.velocity) >= MAX_IMPACT_VELOCITY * MAX_IMPACT_VELOCITY ||
             (Abs(player.facing) > 1.0 && Abs(player.facing) < 5.0)
          {
            gameEnd := true;
          }
          player := player.(velocity := player.velocity.(y := player.velocity.y * BOUNCE_Y));
          player := player.(velocity := player.velocity.(x := player.velocity.x * BOUNCE_X));
          player := player.(pos := player.pos.(y := groundY - player.rect.h / 2.0));
        }
        if obj.tag == CheckpointGround {
          gameEnd := true;
        }
        if obj.tag == Wall || obj.tag == CheckpointWall {
          gameEnd := true;
        }
      }
    }

    /**
     * One fixed-step tick of `update`: input handling, the position update,
     * the collision pass, then the moving walls (which move even once the
     * game has ended).
     */
    method Update(heading: real -> Vec2)
      requires Valid()
      modifies this
      ensures Valid()
      ensures var moved := UpdatePlayerPosition(PlayerHandleInput(old(player), old(input), TICK, heading), TICK);
        var c := CheckCollisionSpec(moved, old(objects), old(gameEnd));
        player == c.player && gameEnd == c.gameEnd && |c.objects| > 5 &&
        Walls(moveWall, objects) == WallStep(Walls(old(moveWall), c.objects))
      ensures input == old(input)
      ensures old(gameEnd) ==> gameEnd
      ensures old(player.key) ==> player.key
    {
      player := PlayerHandleInput(player, input, TICK, heading);
      player := UpdatePlayerPosition(player, TICK);
      CheckCollision();
      MoveWalls();
    }

    /** The last step of `update`: `move_wall_func` on the flag and the registry. */
    method MoveWalls()
      requires Valid()
      modifies this
      ensures Valid()
      ensures |old(objects)| > 5 && Walls(moveWall, objects) == WallStep(Walls(old(moveWall), old(objects)))
      ensures player == old(player) && input == old(input) && gameEnd == old(gameEnd)
    {
      WallStepKeepsWorld(player, Walls(moveWall, objects));
      moveWall, objects := MoveWallFunc(moveWall, objects);
    }

    /** `key_down_event`: update the input state; Escape asks the host to quit. */
    method KeyDownEvent(key: KeyCode) returns (quit: bool)
      requires Valid()
      modifies this
      ensures Valid()
      ensures input == KeyDown(old(input), key)
      ensures quit <==> RequestsQuit(key)
      ensures player == old(player) && objects == old(objects) && moveWall == old(moveWall) && gameEnd == old(gameEnd)
    {
      quit := false;
      match key {
        case Up => input := input.(yaxis := 1.0);
        case Left => input := input.(xaxis := -1.0);
        case Right => input := input.(xaxis := 1.0);
        case Escape => quit := true;
        case Other =>
      }
    }

    /** `key_up_event`: update the input state. */
    method KeyUpEvent(key: KeyCode)
      requires Valid()
      modifies this
      ensures Valid()
      ensures input == KeyUp(old(input), key)
      ensures player == old(player) && objects == old(objects) && moveWall == old(moveWall) && gameEnd == old(gameEnd)
    {
      match key {
        case Up => input := input.(yaxis := 0.0);
        case Left => input := input.(xaxis := 0.0);
        case Right => input := input.(xaxis := 0.0);
        case _ =>
      }
    }
  }
}
