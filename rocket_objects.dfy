/**
 * The rocket game's obstacle registry: tagged rectangles, the level layout
 * built at start-up, and the oscillator that moves the three moving walls
 * (registry entries 3, 4 and 5) one unit per tick.
 */
module RocketObjects {
  import opened Geometry

  datatype Tag = CheckpointGround | Ground | Wall | CheckpointWall | Fuel

  datatype GameObject = GameObject(rect: Rect, tag: Tag)

  /** The tags of the level layout, entry by entry. */
  const LAYOUT_TAGS: seq<Tag> :=
    [Ground, CheckpointGround, Wall, Wall, Wall, Wall, Wall, Wall, Wall,
     CheckpointWall, CheckpointWall, CheckpointWall, Fuel]

  /** Entries 0 to 8 are never removed, so their tags are fixed for the whole run. */
  const FIXED: nat := 9

  /** The moving walls' driver (entry 4) turns back at these two heights. */
  const WALL_LOW: real := 0.0
  const WALL_HIGH: real := 300.0

  predicate IsWhole(r: real) { r.Floor as real == r }

  /** The level layout in registry order; entry 8 is the checkpoint's lower wall, tagged as a plain wall. */
  const LAYOUT: seq<GameObject> := [
    GameObject(Rect(50.0, 580.0, 100.0, 20.0), Ground),
    GameObject(Rect(1450.0, 580.0, 100.0, 20.0), CheckpointGround),
    GameObject(Rect(320.0, 300.0, 20.0, 600.0), Wall),
    GameObject(Rect(580.0, -300.0, 20.0, 900.0), Wall),
    GameObject(Rect(800.0, 300.0, 20.0, 900.0), Wall),
    GameObject(Rect(1020.0, -300.0, 20.0, 900.0), Wall),
    GameObject(Rect(1280.0, 300.0, 20.0, 600.0), Wall),
    GameObject(Rect(700.0, 110.0, 220.0, 20.0), Wall),
    GameObject(Rect(1449.0, 582.0, 102.0, 318.0), Wall),
    GameObject(Rect(1430.0, 530.0, 20.0, 50.0), CheckpointWall),
    GameObject(Rect(1450.0, 510.0, 100.0, 20.0), CheckpointWall),
    GameObject(Rect(1550.0, 530.0, 20.0, 50.0), CheckpointWall),
    GameObject(Rect(768.0, 20.0, 64.0, 64.0), Fuel)]

  /**
   * The layout's shape: one entry per tag of `LAYOUT_TAGS`, every rectangle
   * of positive size, the moving walls at -300, 300 and -300, and so inside
   * the oscillator's band.
   */
  lemma LayoutShape()
    ensures |LAYOUT| == |LAYOUT_TAGS|
    ensures forall i :: 0 <= i < |LAYOUT| ==> LAYOUT[i].tag == LAYOUT_TAGS[i]
    ensures forall i :: 0 <= i < |LAYOUT| ==> LAYOUT[i].rect.w > 0.0 && LAYOUT[i].rect.h > 0.0
    ensures LAYOUT[3].rect.y == -WALL_HIGH && LAYOUT[4].rect.y == WALL_HIGH && LAYOUT[5].rect.y == -WALL_HIGH
    ensures WallInvariant(LAYOUT)
  {
    assert (300.0).Floor == 300;
  }

  /**
   * `create_objects`: the level layout, pushed in registry order. The moving
   * walls start at heights -300, 300 and -300.
   */
  method CreateObjects() returns (objects: seq<GameObject>)
    ensures objects == LAYOUT
    ensures |objects| == |LAYOUT_TAGS|
    ensures forall i :: 0 <= i < |objects| ==> objects[i].tag == LAYOUT_TAGS[i]
    ensures forall o :: o in objects ==> o.rect.w > 0.0 && o.rect.h > 0.0
    ensures objects[3].rect.y == -WALL_HIGH && objects[4].rect.y == WALL_HIGH && objects[5].rect.y == -WALL_HIGH
    ensures WallInvariant(objects)
  {
    var ground := GameObject(Rect(50.0, 580.0, 100.0, 20.0), Ground);
    var checkpointGround := GameObject(Rect(1450.0, 580.0, 100.0, 20.0), CheckpointGround);
    var wall1 := GameObject(Rect(320.0, 300.0, 20.0, 600.0), Wall);
    var wall2 := GameObject(Rect(580.0, -300.0, 20.0, 900.0), Wall);
    var wall3 := GameObject(Rect(800.0, 300.0, 20.0, 900.0), Wall);
    var wall4 := GameObject(Rect(1020.0, -300.0, 20.0, 900.0), Wall);
    var wall5 := GameObject(Rect(1280.0, 300.0, 20.0, 600.0), Wall);
    var wall6 := GameObject(Rect(700.0, 110.0, 220.0, 20.0), Wall);
    var checkpointWall1 := GameObject(Rect(1449.0, 582.0, 102.0, 318.0), Wall);
    var checkpointWall2 := GameObject(Rect(1430.0, 530.0, 20.0, 50.0), CheckpointWall);
    var checkpointWall3 := GameObject(Rect(1450.0, 510.0, 100.0, 20.0), CheckpointWall);
    var checkpointWall4 := GameObject(Rect(1550.0, 530.0, 20.0, 50.0), CheckpointWall);
    var fuel := GameObject(Rect(768.0, 20.0, 64.0, 64.0), Fuel);

    objects := [];
    objects := objects + [ground];
    objects := objects + [checkpointGround];
    objects := objects + [wall1];
    objects := objects + [wall2];
    objects := objects + [wall3];
    objects := objects + [wall4];
    objects := objects + [wall5];
    objects := objects + [wall6];
    objects := objects + [checkpointWall1];
    objects := objects + [checkpointWall2];
    objects := objects + [checkpointWall3];
    objects := objects + [checkpointWall4];
    objects := objects + [fuel];

    assert objects == LAYOUT;
    LayoutShape();
    forall o | o in objects
      ensures o.rect.w > 0.0 && o.rect.h > 0.0
    {
      var i :| 0 <= i < |objects| && objects[i] == o;
    }
  }

  /**
   * What the oscillator maintains: walls 3 and 5 at the same height, wall 4
   * mirrored, and the driver (wall 4) at a whole height between the two
   * turning points, so that the exact-equality tests always catch it.
   */
  ghost predicate WallInvariant(objects: seq<GameObject>)
  {
    |objects| > 5 &&
    objects[3].rect.y == objects[5].rect.y &&
    objects[3].rect.y + objects[4].rect.y == 0.0 &&
    WALL_LOW <= objects[4].rect.y <= WALL_HIGH &&
    IsWhole(objects[4].rect.y)
  }

  /** The oscillator's whole state: the direction flag and the registry. */
  datatype Walls = Walls(moveWall: bool, objects: seq<GameObject>)

  function Lift(o: GameObject, d: real): GameObject
  {
    o.(rect := o.rect.(y := o.rect.y + d))
  }

  /** Walls 3 and 5 move by `d`, wall 4 by `-d`. */
  function ShiftWalls(objects: seq<GameObject>, d: real): seq<GameObject>
    requires |objects| > 5
  {
    objects[3 := Lift(objects[3], d)][4 := Lift(objects[4], -d)][5 := Lift(objects[5], d)]
  }

  /**
   * One call of `move_wall_func`: the flag is cleared when the driver is at
   * 0, set when it is at 300 and otherwise kept; walls 3 and 5 then move one
   * unit down (flag set) or up (flag clear), wall 4 the opposite way.
   */
  function WallStep(w: Walls): (r: Walls)
    requires |w.objects| > 5
    ensures w.objects[4].rect.y == WALL_LOW ==> !r.moveWall
    ensures w.objects[4].rect.y == WALL_HIGH ==> r.moveWall
    ensures w.objects[4].rect.y != WALL_LOW && w.objects[4].rect.y != WALL_HIGH ==> r.moveWall == w.moveWall
    ensures |r.objects| == |w.objects|
    ensures forall i :: 0 <= i < |w.objects| && i != 3 && i != 4 && i != 5 ==> r.objects[i] == w.objects[i]
    ensures forall i :: 3 <= i <= 5 ==>
      r.objects[i].tag == w.objects[i].tag && r.objects[i].rect.(y := 0.0) == w.objects[i].rect.(y := 0.0)
    ensures var d := if r.moveWall then 1.0 else -1.0;
      r.objects[3].rect.y == w.objects[3].rect.y + d &&
      r.objects[5].rect.y == w.objects[5].rect.y + d &&
      r.objects[4].rect.y == w.objects[4].rect.y - d
  {
    var y := w.objects[4].rect.y;
    var flag := if y == WALL_HIGH then true else if y == WALL_LOW then false else w.moveWall;
    Walls(flag, ShiftWalls(w.objects, if flag then 1.0 else -1.0))
  }

  /**
   * `move_wall_func`, updating the flag and the registry in place, in the
   * source's order of statements.
   */
  method MoveWallFunc(moveWall: bool, objects: seq<GameObject>) returns (moveWall': bool, objects': seq<GameObject>)
    requires |objects| > 5
    ensures Walls(moveWall', objects') == WallStep(Walls(moveWall, objects))
  {
    moveWall', objects' := moveWall, objects;
    if objects'[4].rect.y == WALL_LOW {
      moveWall' := false;
    }
    if objects'[4].rect.y == WALL_HIGH {
      moveWall' := true;
    }
    if moveWall' {
      objects' := objects'[3 := Lift(objects'[3], 1.0)];
      objects' := objects'[5 := Lift(objects'[5], 1.0)];
      objects' := objects'[4 := Lift(objects'[4], -1.0)];
    } else {
      objects' := objects'[3 := Lift(objects'[3], -1.0)];
      objects' := objects'[5 := Lift(objects'[5], -1.0)];
      objects' := objects'[4 := Lift(objects'[4], 1.0)];
    }
  }

  /** One oscillator step keeps the walls mirrored and the driver inside [0, 300]. */
  lemma WallStepKeepsInvariant(w: Walls)
    requires WallInvariant(w.objects)
    ensures WallInvariant(WallStep(w).objects)
  {
    var y := w.objects[4].rect.y;
    var r := WallStep(w);
    if r.moveWall {
      assert y != WALL_LOW;
      assert y.Floor >= 1;
      assert (y - 1.0).Floor == y.Floor - 1;
    } else {
      assert y != WALL_HIGH;
      assert y.Floor <= 299;
      assert (y + 1.0).Floor == y.Floor + 1;
    }
  }

  /** `n` consecutive calls of `move_wall_func`. */
  function WallSteps(n: nat, w: Walls): (r: Walls)
    requires |w.objects| > 5
    ensures |r.objects| == |w.objects|
  {
    if n == 0 then w else WallSteps(n - 1, WallStep(w))
  }

  /** Any number of calls keeps the oscillator's invariant. */
  lemma {:induction false} WallStepsKeepInvariant(n: nat, w: Walls)
    requires WallInvariant(w.objects)
    ensures WallInvariant(WallSteps(n, w).objects)
  {
    if n > 0 {
      WallStepKeepsInvariant(w);
      WallStepsKeepInvariant(n - 1, WallStep(w));
    }
  }

  /** Calls compose: `a` calls followed by `b` calls are `a + b` calls. */
  lemma {:induction false} WallStepsSplit(a: nat, b: nat, w: Walls)
    requires |w.objects| > 5
    ensures WallSteps(a + b, w) == WallSteps(b, WallSteps(a, w))
  {
    if a > 0 {
      WallStepsSplit(a - 1, b, WallStep(w));
    }
  }

  lemma ShiftWallsCompose(objects: seq<GameObject>, a: real, b: real)
    requires |objects| > 5
    ensures ShiftWalls(ShiftWalls(objects, a), b) == ShiftWalls(objects, a + b)
  {
    var l, r := ShiftWalls(ShiftWalls(objects, a), b), ShiftWalls(objects, a + b);
    assert l[3] == r[3] && l[4] == r[4] && l[5] == r[5];
    assert forall i :: 0 <= i < |l| ==> l[i] == r[i];
  }

  lemma ShiftWallsZero(objects: seq<GameObject>)
    requires |objects| > 5
    ensures ShiftWalls(objects, 0.0) == objects
  {
    var r := ShiftWalls(objects, 0.0);
    assert forall i :: 0 <= i < |r| ==> r[i] == objects[i];
  }

  /**
   * Descent, step by step: with the flag set and the driver at height `k`,
   * after `j <= k` of the next calls the flag is still set, walls 3 and 5
   * have moved by `+j` and the driver by `-j`.
   */
  lemma {:induction false} WallDescentThrough(j: nat, k: nat, w: Walls)
    requires j <= k
    requires |w.objects| > 5 && w.objects[4].rect.y == k as real && k as real <= WALL_HIGH
    requires w.moveWall
    ensures WallSteps(j, w) == Walls(true, ShiftWalls(w.objects, j as real))
  {
    if j == 0 {
      ShiftWallsZero(w.objects);
    } else {
      var next := WallStep(w);
      assert next == Walls(true, ShiftWalls(w.objects, 1.0));
      WallDescentThrough(j - 1, k - 1, next);
      ShiftWallsCompose(w.objects, 1.0, (j - 1) as real);
    }
  }

  /**
   * Descent: with the flag set and the driver at height `k`, the driver
   * goes down one unit per call, reaching `k - j` after `j` calls and 0
   * after `k`, and the flag stays set throughout.
   */
  lemma WallDescent(k: nat, w: Walls)
    requires |w.objects| > 5 && w.objects[4].rect.y == k as real && k as real <= WALL_HIGH
    requires w.moveWall
    ensures forall j: nat :: j <= k ==> WallSteps(j, w) == Walls(true, ShiftWalls(w.objects, j as real))
    ensures forall j: nat :: j <= k ==> WallSteps(j, w).objects[4].rect.y == (k - j) as real
  {
    forall j: nat | j <= k
      ensures WallSteps(j, w) == Walls(true, ShiftWalls(w.objects, j as real))
      ensures WallSteps(j, w).objects[4].rect.y == (k - j) as real
    {
      WallDescentThrough(j, k, w);
    }
  }

  /**
   * Ascent, step by step: from a whole driver height `a` below 300, with
   * the flag clear (or the driver at the turning point 0), after each of the
   * next `j <= 300 - a` calls walls 3 and 5 have moved by `-j` and the
   * driver by `+j`, and the flag is clear after the first call.
   */
  lemma {:induction false} WallAscentThrough(j: nat, a: nat, w: Walls)
    requires a + j <= 300
    requires |w.objects| > 5 && w.objects[4].rect.y == a as real && (a as real) < WALL_HIGH
    requires !w.moveWall || a == 0
    ensures WallSteps(j, w).objects == ShiftWalls(w.objects, -(j as real))
    ensures j > 0 ==> !WallSteps(j, w).moveWall
  {
    if j == 0 {
      ShiftWallsZero(w.objects);
    } else {
      var next := WallStep(w);
      assert next == Walls(false, ShiftWalls(w.objects, -1.0));
      if j == 1 {
      } else {
        WallAscentThrough(j - 1, a + 1, next);
        ShiftWallsCompose(w.objects, -1.0, -((j - 1) as real));
      }
    }
  }

  /**
   * Ascent: from a whole driver height `a` below 300 with the flag clear (or
   * the driver at the turning point 0), the driver goes up one unit per call,
   * reaching `a + j` after `j` calls and 300 after `300 - a`, with the flag
   * clear after the first call.
   */
  lemma WallAscent(a: nat, w: Walls)
    requires |w.objects| > 5 && w.objects[4].rect.y == a as real && (a as real) < WALL_HIGH
    requires !w.moveWall || a == 0
    ensures forall j: nat :: j <= 300 - a ==> WallSteps(j, w).objects == ShiftWalls(w.objects, -(j as real))
    ensures forall j: nat :: 0 < j <= 300 - a ==> !WallSteps(j, w).moveWall
    ensures forall j: nat :: j <= 300 - a ==> WallSteps(j, w).objects[4].rect.y == (a + j) as real
    ensures WallSteps(300 - a, w) == Walls(false, ShiftWalls(w.objects, (a - 300) as real))
  {
    forall j: nat | j <= 300 - a
      ensures WallSteps(j, w).objects == ShiftWalls(w.objects, -(j as real))
      ensures j > 0 ==> !WallSteps(j, w).moveWall
      ensures WallSteps(j, w).objects[4].rect.y == (a + j) as real
    {
      WallAscentThrough(j, a, w);
    }
  }

  /**
   * The moving walls are periodic: from the start-up state (flag set, driver
   * at 300) 600 calls bring every wall back to where it started, having
   * turned exactly once at each end.
   */
  lemma WallPeriod(w: Walls)
    requires |w.objects| > 5 && w.objects[4].rect.y == WALL_HIGH && w.moveWall
    ensures WallSteps(600, w).objects == w.objects
  {
    WallStepsSplit(300, 300, w);
    WallDescent(300, w);
    var low := WallSteps(300, w);
    WallAscent(0, low);
    ShiftWallsCompose(w.objects, 300.0, -300.0);
    ShiftWallsZero(w.objects);
  }
}
