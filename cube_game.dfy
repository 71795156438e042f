/** The cube game: the player is a point flown through a field of grey
    cubes by the arrow keys and N/M. Entering a grey cube loses, entering
    the green cube far ahead wins, and either ends in a new random field.
    `Math.random()` is a stream of draws in [0, 1) handed to the page; the
    `i`-th call of the page reads `random(i)`. */
module CubeGame {
  import opened Geometry
  import Render

  // ------------------------------------------------------ random integers

  /** `getRandomInt(min, max)` on whole-number bounds, with the draw `r` of
      `Math.random()`: `floor(r * (max - min)) + min`. */
  function GetRandomInt(min: int, max: int, r: real): int {
    (r * (max - min) as real).Floor + min
  }

  /** A draw in [0, 1) gives an integer from `min` to `max - 1`. */
  lemma RandomIntRange(min: int, max: int, r: real)
    requires min < max && 0.0 <= r < 1.0
    ensures min <= GetRandomInt(min, max, r) <= max - 1
  {
    var w := (max - min) as real;
    var v := r * w;
    assert 0.0 <= v;
    assert v < w by {
      assert w - v == (1.0 - r) * w;
    }
    assert v.Floor as real <= v;
  }

  /** ... and every one of them is drawn by some `r` in [0, 1). */
  lemma RandomIntReaches(min: int, max: int, k: int)
    requires min <= k < max
    ensures var r := (k - min) as real / (max - min) as real;
      0.0 <= r < 1.0 && GetRandomInt(min, max, r) == k
  {
    var w := (max - min) as real;
    var r := (k - min) as real / w;
    assert r * w == (k - min) as real;
    assert ((k - min) as real).Floor == k - min;
  }

  // ------------------------------------------------------------ the field

  const WinColor: string := "rgba(0,255,0,1)"
  const LossColor: string := "#cccccc"

  /** The number of draws one `reset()` reads: one for the green cube and
      three for each of the 52 grey ones. */
  const DrawsPerReset: nat := 157

  /** How many grey cubes `reset()` lays out. */
  const ColliderCount: nat := 52

  /** The centre of the green cube drawn from `random(base)`. */
  function DestinationCentre(random: nat -> real, base: nat): Vec3 {
    Vec3(GetRandomInt(-100, 100, random(base)) as real, 5500.0, 0.0)
  }

  /** The centre of the `i`-th grey cube, from the three draws after the
      first `3 * i` ones from `base` on, in argument order. */
  function ColliderCentre(random: nat -> real, base: nat, i: nat): Vec3 {
    Vec3(GetRandomInt(-1500, 1500, random(base + 3 * i)) as real,
         GetRandomInt(500, 5000, random(base + 3 * i + 1)) as real,
         GetRandomInt(-500, 500, random(base + 3 * i + 2)) as real)
  }

  /** `cols` are the grey cubes `reset()` lays out, in the order it pushes
      them, from the draws at `base` on: the `i`-th one is centred where
      draws `base + 3i` to `base + 3i + 2` put it. */
  predicate GreyCubes(cols: seq<Shape>, random: nat -> real, base: nat, size: real)
    decreases |cols|
  {
    cols == [] ||
    (GreyCubes(cols[..|cols| - 1], random, base, size) &&
     cols[|cols| - 1] == Cube(ColliderCentre(random, base, |cols| - 1), size, LossColor))
  }

  /** `GreyCubes` holds exactly when every cube is the one its draws give. */
  lemma {:induction false} GreyCubesIndex(cols: seq<Shape>, random: nat -> real, base: nat, size: real)
    ensures GreyCubes(cols, random, base, size) <==>
      forall i :: 0 <= i < |cols| ==> cols[i] == Cube(ColliderCentre(random, base, i), size, LossColor)
    decreases |cols|
  {
    if cols != [] {
      var pre := cols[..|cols| - 1];
      GreyCubesIndex(pre, random, base, size);
      assert forall i :: 0 <= i < |pre| ==> pre[i] == cols[i];
    }
  }

  /** One more cube pushed, the next one the draws give. */
  lemma GreyCubesPush(cols: seq<Shape>, random: nat -> real, base: nat, size: real)
    requires GreyCubes(cols, random, base, size)
    ensures GreyCubes(cols + [Cube(ColliderCentre(random, base, |cols|), size, LossColor)], random, base, size)
  {
    var c := Cube(ColliderCentre(random, base, |cols|), size, LossColor);
    assert (cols + [c])[..|cols|] == cols;
  }

  /** Every edge of the green cube and the grey ones names a corner. */
  lemma FieldEdges(dest: Shape, cols: seq<Shape>, random: nat -> real, base: nat, size: real)
    requires dest == Cube(DestinationCentre(random, base), size, WinColor)
    requires GreyCubes(cols, random, base + 1, size)
    ensures Render.AllEdgesInRange([dest] + cols)
  {
    GreyCubesIndex(cols, random, base + 1, size);
    var objs := [dest] + cols;
    forall k | 0 <= k < |objs|
      ensures EdgesInRange(objs[k])
    {
      if k > 0 {
        assert objs[k] == Cube(ColliderCentre(random, base + 1, k - 1), size, LossColor);
      }
    }
  }

  /** Every draw of the stream lies in [0, 1). */
  ghost predicate Draws(random: nat -> real) {
    forall n: nat :: 0.0 <= random(n) < 1.0
  }

  /** The green cube lies straight ahead at depth 5500, on the horizon,
      shifted sideways by a whole number from -100 to 99. */
  lemma DestinationRange(random: nat -> real, base: nat)
    requires Draws(random)
    ensures var c := DestinationCentre(random, base);
      c.y == 5500.0 && c.z == 0.0 && -100.0 <= c.x <= 99.0 && c.x == c.x.Floor as real
  {
    RandomIntRange(-100, 100, random(base));
  }

  /** A grey cube's centre lies in [-1500, 1499] x [500, 4999] x
      [-500, 499], on whole numbers. */
  lemma ColliderRange(random: nat -> real, base: nat, i: nat)
    requires Draws(random)
    ensures var c := ColliderCentre(random, base, i);
      -1500.0 <= c.x <= 1499.0 && 500.0 <= c.y <= 4999.0 && -500.0 <= c.z <= 499.0
  {
    RandomIntRange(-1500, 1500, random(base + 3 * i));
    RandomIntRange(500, 5000, random(base + 3 * i + 1));
    RandomIntRange(-500, 500, random(base + 3 * i + 2));
  }

  const Origin: Vec3 := Vec3(0.0, 0.0, 0.0)

  /** A new field never ends the game on the spot while the cubes are
      narrower than 1000: every grey centre is at least 500 ahead and the
      green one 5500 ahead, so the start point is in no cube. */
  lemma FreshFieldIsSafe(random: nat -> real, base: nat, size: real, i: nat)
    requires Draws(random) && size < 1000.0
    ensures !IsPointColliding(Cube(DestinationCentre(random, base), size, WinColor), Origin)
    ensures !IsPointColliding(Cube(ColliderCentre(random, base + 1, i), size, LossColor), Origin)
  {
    DestinationRange(random, base);
    CubeCollision(DestinationCentre(random, base), size, WinColor, Origin);
    ColliderRange(random, base + 1, i);
    CubeCollision(ColliderCentre(random, base + 1, i), size, LossColor, Origin);
  }

  // ----------------------------------------------------------- collisions

  /** How many of `cols` the point `p` is inside. */
  function Hits(cols: seq<Shape>, p: Vec3): nat
    decreases |cols|
  {
    if cols == [] then 0
    else Hits(cols[..|cols| - 1], p) + (if IsPointColliding(cols[|cols| - 1], p) then 1 else 0)
  }

  /** No hits exactly when the point is in none of the cubes. */
  lemma {:induction false} HitsNone(cols: seq<Shape>, p: Vec3)
    ensures Hits(cols, p) == 0 <==> forall i :: 0 <= i < |cols| ==> !IsPointColliding(cols[i], p)
    decreases |cols|
  {
    if cols != [] {
      var pre := cols[..|cols| - 1];
      HitsNone(pre, p);
      assert forall i :: 0 <= i < |pre| ==> pre[i] == cols[i];
    }
  }

  /** What `alert` announces. */
  datatype Alert = Lost | Won

  /** `n` losses announced one after the other. */
  function Losses(n: nat): (r: seq<Alert>)
    ensures |r| == n && forall i :: 0 <= i < n ==> r[i] == Lost
  {
    if n == 0 then [] else Losses(n - 1) + [Lost]
  }

  // ------------------------------------------------------------- the keys

  /** The player's whole-number position. */
  datatype Player = Player(x: int, y: int, z: int)

  /** The `switch` of `keyDownCallback` on the key code: the up and down
      arrows (38, 40) move by 40 along y, right and left (39, 37) by 20
      along x, M and N (77, 78) by 20 along z; other keys do not move. */
  function KeyStep(code: int, p: Player): Player {
    if code == 38 then p.(y := p.y + 40)
    else if code == 40 then p.(y := p.y - 40)
    else if code == 39 then p.(x := p.x + 20)
    else if code == 37 then p.(x := p.x - 20)
    else if code == 78 then p.(z := p.z - 20)
    else if code == 77 then p.(z := p.z + 20)
    else p
  }

  /** The opposite keys undo each other. */
  lemma KeyStepInverse(p: Player)
    ensures KeyStep(40, KeyStep(38, p)) == p && KeyStep(38, KeyStep(40, p)) == p
    ensures KeyStep(37, KeyStep(39, p)) == p && KeyStep(39, KeyStep(37, p)) == p
    ensures KeyStep(77, KeyStep(78, p)) == p && KeyStep(78, KeyStep(77, p)) == p
  {
  }

  /** Key presses commute: the order of two presses does not matter. */
  lemma KeyStepsCommute(a: int, b: int, p: Player)
    ensures KeyStep(a, KeyStep(b, p)) == KeyStep(b, KeyStep(a, p))
  {
  }

  /** A key press moves along one axis only, by 40 on y and 20 on x or z,
      and a key that is none of the six does not move at all. */
  lemma KeyStepDistance(code: int, p: Player)
    ensures var q := KeyStep(code, p);
      (q.x == p.x && q.z == p.z && (q.y - p.y == 40 || q.y - p.y == -40)) ||
      (q.y == p.y && q.z == p.z && (q.x - p.x == 20 || q.x - p.x == -20)) ||
      (q.x == p.x && q.y == p.y && (q.z - p.z == 20 || q.z - p.z == -20)) ||
      (q == p && code !in {37, 38, 39, 40, 77, 78})
  {
  }

  function Point(p: Player): Vec3 {
    Vec3(p.x as real, p.y as real, p.z as real)
  }

  /** The green cube the end of `collision()` tests: the one on the page
      when no grey cube was hit, else the one the last of `hits` resets
      laid, resets starting at draw `base`. */
  function TestedGreen(dest: Shape, random: nat -> real, base: nat, size: real, hits: nat): Shape {
    if hits == 0 then dest else Cube(DestinationCentre(random, base + 157 * (hits - 1)), size, WinColor)
  }

  /** After `n` resets from draw `base` on, the green cube on the page is
      the one `TestedGreen` names. */
  lemma GreenAfterScan(d0: Shape, d: Shape, random: nat -> real, base: nat, drawn: nat, size: real, n: nat)
    requires n == 0 ==> d == d0
    requires n > 0 ==> drawn == base + 157 * n && d == Cube(DestinationCentre(random, drawn - 157), size, WinColor)
    ensures d == TestedGreen(d0, random, base, size, n)
  {
  }

  // ------------------------------------------------------------- the page

  /** The state of the page after `load`: the player, the camera that
      follows it, the green cube, the grey cubes and the objects drawn. */
  class Game {
    const random: nat -> real
    /** The cube side: half the canvas height. */
    const size: real
    const engine: Render.Engine

    var drawn: nat
    var x: int
    var y: int
    var z: int
    var camera: Camera
    var destination: Shape
    var colliders: seq<Shape>
    var renderedObjects: seq<Shape>

    function Position(): Player
      reads this
    {
      Player(x, y, z)
    }

    /** The scene is consistent and its cubes are those the last `reset()`
        drew from the last 157 draws. */
    predicate Valid()
      reads this
    {
      Scene() && drawn >= DrawsPerReset && Laid(drawn - DrawsPerReset)
    }

    /** What the page shows: the camera on the player, and the green cube
        then the grey ones, with edges between existing corners. */
    predicate Scene()
      reads this
    {
      camera == Camera(Point(Position()), 500.0) &&
      renderedObjects == [destination] + colliders &&
      Render.AllEdgesInRange(renderedObjects)
    }

    /** The cubes `reset()` lays out from the draws at `base` on. */
    predicate Laid(base: nat)
      reads this
    {
      destination == Cube(DestinationCentre(random, base), size, WinColor) &&
      |colliders| == ColliderCount && GreyCubes(colliders, random, base + 1, size)
    }

    /** The player (and so the camera) at the origin. */
    predicate AtStart()
      reads this
    {
      x == 0 && y == 0 && z == 0
    }

    /** `load`: the engine on the canvas, a first field, a first frame. */
    constructor(random: nat -> real, width: real, height: real)
      requires Draws(random)
      ensures Valid() && AtStart() && Laid(0) && drawn == DrawsPerReset
      ensures size == height / 2.0 && engine.dx == width / 2.0 && engine.dy == height / 2.0
    {
      this.random := random;
      size := height / 2.0;
      engine := new Render.Engine(width, height);
      drawn := 0;
      new;
      Reset();
    }

    /** `getRandomInt(min, max)` on the next draw. */
    method RandomInt(min: int, max: int) returns (k: int)
      modifies this`drawn
      ensures drawn == old(drawn) + 1
      ensures k == GetRandomInt(min, max, random(old(drawn)))
    {
      k := GetRandomInt(min, max, random(drawn));
      drawn := drawn + 1;
    }

    /** `reset()`: the player and the camera back at the origin, a green
        cube and 52 grey ones at random. */
    method Reset()
      modifies this
      ensures drawn == old(drawn) + DrawsPerReset
      ensures AtStart() && Laid(old(drawn)) && Valid()
    {
      ghost var base := drawn;
      camera := Camera(Origin, 500.0);
      x, y, z := 0, 0, 0;
      var cx := RandomInt(-100, 100);
      var center := Vec3(cx as real, 5500.0, 0.0);
      assert center == DestinationCentre(random, base);
      destination := Cube(center, size, WinColor);
      renderedObjects := [destination];
      colliders := [];
      LayColliders();
      FieldEdges(destination, colliders, random, base, size);
    }

    /** The loop of `reset()`: 52 grey cubes pushed onto `colliders` and
        `renderedObjects`, three draws each. */
    method LayColliders()
      requires colliders == [] && renderedObjects == [destination]
      modifies this`drawn, this`colliders, this`renderedObjects
      ensures drawn == old(drawn) + 3 * ColliderCount
      ensures |colliders| == ColliderCount && GreyCubes(colliders, random, old(drawn), size)
      ensures renderedObjects == [destination] + colliders
    {
      ghost var base := drawn;
      var i := 0;
      while i < ColliderCount
        invariant 0 <= i <= ColliderCount
        invariant drawn == base + 3 * i
        invariant |colliders| == i && GreyCubes(colliders, random, base, size)
        invariant renderedObjects == [destination] + colliders
      {
        GreyCubesPush(colliders, random, base, size);
        PushCollider(base, i);
        i := i + 1;
      }
    }

    /** One round of the loop of `reset()`: three draws for the centre,
        then the new grey cube pushed onto both lists. */
    method PushCollider(ghost base: nat, i: nat)
      requires drawn == base + 3 * i
      modifies this`drawn, this`colliders, this`renderedObjects
      ensures drawn == old(drawn) + 3
      ensures colliders == old(colliders) + [Cube(ColliderCentre(random, base, i), size, LossColor)]
      ensures renderedObjects == old(renderedObjects) + [Cube(ColliderCentre(random, base, i), size, LossColor)]
    {
      var nx := RandomInt(-1500, 1500);
      var ny := RandomInt(500, 5000);
      var nz := RandomInt(-500, 500);
      var newCube := Cube(Vec3(nx as real, ny as real, nz as real), size, LossColor);
      colliders := colliders + [newCube];
      renderedObjects := renderedObjects + [newCube];
    }

    /** `collision()`: every grey cube the player is in announces a loss
        and resets, in turn (the scan goes on over the old cubes from the
        same point); then the green cube, the new one after a reset, is
        checked the same way. */
    method Collision() returns (alerts: seq<Alert>)
      requires Valid()
      modifies this
      ensures Valid()
      ensures var p := Point(old(Position()));
        var hits := Hits(old(colliders), p);
        alerts == Losses(hits) + (if IsPointColliding(TestedGreen(old(destination), random, old(drawn), size, hits), p) then [Won] else [])
      ensures drawn == old(drawn) + 157 * |alerts|
      ensures alerts == [] ==> unchanged(this)
      ensures alerts != [] ==> AtStart()
    {
      var player := Point(Position());
      alerts := ScanColliders(player);
      GreenAfterScan(old(destination), destination, random, old(drawn), drawn, size, |alerts|);
      var won := ResetIfInside(destination, player);
      if won {
        alerts := alerts + [Won];
      }
    }

    /** The `forEach` of `collision()` over the grey cubes as they were
        when it started. */
    method ScanColliders(player: Vec3) returns (alerts: seq<Alert>)
      modifies this
      ensures alerts == Losses(Hits(old(colliders), player))
      ensures drawn == old(drawn) + 157 * |alerts|
      ensures alerts == [] ==> unchanged(this)
      ensures alerts != [] ==> AtStart() && Valid()
    {
      var cols := colliders;
      ghost var base := drawn;
      alerts := [];
      var i := 0;
      while i < |cols|
        invariant 0 <= i <= |cols|
        invariant alerts == Losses(Hits(cols[..i], player))
        invariant drawn == base + 157 * |alerts|
        invariant alerts == [] ==> unchanged(this)
        invariant alerts != [] ==> AtStart() && Valid()
      {
        assert cols[..i + 1][..i] == cols[..i];
        var hit := ResetIfInside(cols[i], player);
        if hit {
          alerts := alerts + [Lost];
        }
        i := i + 1;
      }
      assert cols[..i] == cols;
    }

    /** One test of `collision()`: if the player is in `cube`, the game
        resets (the announcement is the caller's). */
    method ResetIfInside(cube: Shape, player: Vec3) returns (hit: bool)
      modifies this
      ensures hit == IsPointColliding(cube, player)
      ensures hit ==> drawn == old(drawn) + DrawsPerReset && AtStart() && Valid()
      ensures !hit ==> unchanged(this)
    {
      hit := IsPointColliding(cube, player);
      if hit {
        Reset();
      }
    }

    /** `keyDownCallback(e)` for the key code `code`: the step, the camera
        moved onto the player, the collision test, and the frame rendered
        at the end. */
    method KeyDown(code: int) returns (alerts: seq<Alert>, frame: seq<Render.Stroke>)
      requires Valid()
      modifies this
      ensures Valid()
      ensures drawn == old(drawn) + 157 * |alerts|
      ensures alerts == [] ==>
        Position() == KeyStep(code, old(Position())) &&
        destination == old(destination) && colliders == old(colliders)
      ensures alerts != [] ==> AtStart()
      ensures var p := Point(KeyStep(code, old(Position())));
        var hits := Hits(old(colliders), p);
        alerts == Losses(hits) + (if IsPointColliding(TestedGreen(old(destination), random, old(drawn), size, hits), p) then [Won] else [])
      ensures frame == Render.Frame(renderedObjects, camera, engine.dx, engine.dy)
    {
      Step(code);
      alerts := Collision();
      frame := engine.Render(renderedObjects, camera);
    }

    /** The arrow and `n`/`m` keys of `keyDownCallback(e)`, with the camera
        moved onto the player. */
    method Step(code: int)
      requires Valid()
      modifies this`x, this`y, this`z, this`camera
      ensures Valid()
      ensures Position() == KeyStep(code, old(Position()))
    {
      if code == 38 {
        y := y + 40;
      } else if code == 40 {
        y := y - 40;
      } else if code == 39 {
        x := x + 20;
      } else if code == 37 {
        x := x - 20;
      } else if code == 78 {
        z := z - 20;
      } else if code == 77 {
        z := z + 20;
      }
      camera := Camera(Point(Position()), 500.0);
    }

    /** The first frame, rendered when the page has loaded. */
    method FirstFrame() returns (frame: seq<Render.Stroke>)
      requires Valid()
      ensures frame == Render.Frame(renderedObjects, camera, engine.dx, engine.dy)
    {
      frame := engine.Render(renderedObjects, camera);
    }
  }
}
