/** The wireframe objects shared by the 3D turtle pages and the cube game:
    points, cubes and lines with their vertex and edge tables, the inclusive
    collision test, the perspective projection of the camera, and the
    rotation applied while the scene is dragged. */
module Geometry {

  datatype Vec3 = Vec3(x: real, y: real, z: real)

  function Add(a: Vec3, b: Vec3): Vec3 {
    Vec3(a.x + b.x, a.y + b.y, a.z + b.z)
  }

  function Sub(a: Vec3, b: Vec3): Vec3 {
    Vec3(a.x - b.x, a.y - b.y, a.z - b.z)
  }

  function Scale(k: real, a: Vec3): Vec3 {
    Vec3(k * a.x, k * a.y, k * a.z)
  }

  function Abs(r: real): real {
    if r < 0.0 then -r else r
  }

  /** An edge joins two entries of a shape's vertex list, by index. */
  datatype Edge = Edge(from: nat, to: nat)

  /** The region a shape collides with: a cube's closed box, or nothing for
      a line. */
  datatype Collider = Box(lo: Vec3, hi: Vec3) | Nowhere

  /** A `Cube` or a `Line` object: vertices, edges, stroke colour, collider. */
  datatype Shape = Shape(vertices: seq<Vec3>, edges: seq<Edge>, color: string, collider: Collider)

  const DefaultColor: string := "rgba(0,0,0,1)"

  /** Every edge of the shape names an existing vertex. */
  predicate EdgesInRange(s: Shape) {
    forall i :: 0 <= i < |s.edges| ==>
      s.edges[i].from < |s.vertices| && s.edges[i].to < |s.vertices|
  }

  const CubeEdges: seq<Edge> := [
    Edge(0, 1), Edge(1, 2), Edge(2, 3), Edge(3, 0),
    Edge(4, 5), Edge(5, 6), Edge(6, 7), Edge(7, 4),
    Edge(1, 6), Edge(2, 5), Edge(3, 4), Edge(0, 7)
  ]

  /** `new Cube(center, size, color)`: the eight corners of the box of half
      side `size / 2` around `center`, the twelve edges between them, and
      the box itself as collider. */
  function Cube(center: Vec3, size: real, color: string): (s: Shape)
    ensures |s.vertices| == 8 && |s.edges| == 12
    ensures EdgesInRange(s)
    ensures s.color == color
  {
    var d := size / 2.0;
    var lo := Vec3(center.x - d, center.y - d, center.z - d);
    var hi := Vec3(center.x + d, center.y + d, center.z + d);
    Shape([Vec3(lo.x, lo.y, hi.z), Vec3(lo.x, lo.y, lo.z), Vec3(hi.x, lo.y, lo.z), Vec3(hi.x, lo.y, hi.z),
           Vec3(hi.x, hi.y, hi.z), Vec3(hi.x, hi.y, lo.z), Vec3(lo.x, hi.y, lo.z), Vec3(lo.x, hi.y, hi.z)],
          CubeEdges, color, Box(lo, hi))
  }

  /** `new Line(p1, p2, color)`: two vertices and one edge, never colliding. */
  function Line(p1: Vec3, p2: Vec3, color: string): (s: Shape)
    ensures s.vertices == [p1, p2] && s.edges == [Edge(0, 1)]
    ensures EdgesInRange(s)
    ensures forall p :: !IsPointColliding(s, p)
  {
    Shape([p1, p2], [Edge(0, 1)], color, Nowhere)
  }

  /** `isPointColiding`: inclusive on all six faces. */
  predicate IsPointColliding(s: Shape, p: Vec3) {
    match s.collider
    case Nowhere => false
    case Box(lo, hi) =>
      lo.x <= p.x && p.x <= hi.x && lo.y <= p.y && p.y <= hi.y && lo.z <= p.z && p.z <= hi.z
  }

  /** A point collides with a cube exactly when it is within half a side of
      the centre along every axis. */
  lemma CubeCollision(center: Vec3, size: real, color: string, p: Vec3)
    ensures IsPointColliding(Cube(center, size, color), p) <==>
      Abs(p.x - center.x) <= size / 2.0 && Abs(p.y - center.y) <= size / 2.0 &&
      Abs(p.z - center.z) <= size / 2.0
  {
  }

  /** A cube of non-negative size collides with its centre and its corners. */
  lemma CubeCollidesWithItself(center: Vec3, size: real, color: string)
    requires size >= 0.0
    ensures IsPointColliding(Cube(center, size, color), center)
    ensures forall i :: 0 <= i < 8 ==>
      IsPointColliding(Cube(center, size, color), Cube(center, size, color).vertices[i])
  {
  }

  /** `u` and `v` differ along exactly one axis, by `size` (the others equal). */
  predicate AxisStep(u: Vec3, v: Vec3, size: real) {
    (Abs(u.x - v.x) == Abs(size) && u.y == v.y && u.z == v.z) ||
    (u.x == v.x && Abs(u.y - v.y) == Abs(size) && u.z == v.z) ||
    (u.x == v.x && u.y == v.y && Abs(u.z - v.z) == Abs(size))
  }

  /** Every edge of a cube runs along one axis and is one side long. */
  lemma CubeEdgesAreSides(center: Vec3, size: real, color: string)
    ensures forall i :: 0 <= i < 12 ==>
      AxisStep(Cube(center, size, color).vertices[CubeEdges[i].from],
               Cube(center, size, color).vertices[CubeEdges[i].to], size)
  {
    var s := Cube(center, size, color);
    var d := size / 2.0;
    assert (center.x + d) - (center.x - d) == size;
    assert (center.y + d) - (center.y - d) == size;
    assert (center.z + d) - (center.z - d) == size;
  }

  /** The number of edge ends at vertex `v`. */
  function Degree(edges: seq<Edge>, v: nat): nat {
    if edges == [] then 0
    else
      (if edges[0].from == v then 1 else 0) + (if edges[0].to == v then 1 else 0)
      + Degree(edges[1..], v)
  }

  /** The ends of one edge at vertex `v`. */
  function Ends(edge: Edge, v: nat): nat {
    (if edge.from == v then 1 else 0) + (if edge.to == v then 1 else 0)
  }

  /** Peeling edge `k` off the edges from `k` on. */
  lemma DegreeStep(edges: seq<Edge>, k: nat, v: nat)
    requires k < |edges|
    ensures Degree(edges[k..], v) == Ends(edges[k], v) + Degree(edges[k + 1..], v)
  {
    assert edges[k..][1..] == edges[k + 1..];
  }

  /** The degree of a vertex of a cube, edge by edge. */
  lemma CubeDegreeSum(v: nat)
    ensures Degree(CubeEdges, v) ==
      Ends(Edge(0, 1), v) + Ends(Edge(1, 2), v) + Ends(Edge(2, 3), v) + Ends(Edge(3, 0), v) +
      Ends(Edge(4, 5), v) + Ends(Edge(5, 6), v) + Ends(Edge(6, 7), v) + Ends(Edge(7, 4), v) +
      Ends(Edge(1, 6), v) + Ends(Edge(2, 5), v) + Ends(Edge(3, 4), v) + Ends(Edge(0, 7), v)
  {
    var e := CubeEdges;
    assert e[12..] == [];
    DegreeStep(e, 11, v);
    DegreeStep(e, 10, v);
    DegreeStep(e, 9, v);
    DegreeStep(e, 8, v);
    DegreeStep(e, 7, v);
    DegreeStep(e, 6, v);
    DegreeStep(e, 5, v);
    DegreeStep(e, 4, v);
    DegreeStep(e, 3, v);
    DegreeStep(e, 2, v);
    DegreeStep(e, 1, v);
    DegreeStep(e, 0, v);
    assert e[0..] == e;
  }

  /** Each corner is an end of three of the twelve edges. */
  lemma CornerEnds(v: nat)
    requires v < 8
    ensures Ends(Edge(0, 1), v) + Ends(Edge(1, 2), v) + Ends(Edge(2, 3), v) + Ends(Edge(3, 0), v) +
      Ends(Edge(4, 5), v) + Ends(Edge(5, 6), v) + Ends(Edge(6, 7), v) + Ends(Edge(7, 4), v) +
      Ends(Edge(1, 6), v) + Ends(Edge(2, 5), v) + Ends(Edge(3, 4), v) + Ends(Edge(0, 7), v) == 3
  {
  }

  /** Every corner of a cube meets exactly three edges. */
  lemma CubeDegrees()
    ensures forall v :: 0 <= v < 8 ==> Degree(CubeEdges, v) == 3
  {
    forall v | 0 <= v < 8
      ensures Degree(CubeEdges, v) == 3
    {
      CubeDegreeSum(v);
      CornerEnds(v);
    }
  }

  // ------------------------------------------------------------ projection

  /** A camera: its position and its zoom `distance`. */
  datatype Camera = Camera(position: Vec3, distance: real)

  /** A projected point: screen coordinates and depth. At depth exactly 0 the
      division yields non-finite coordinates, kept here as `AtEye`. */
  datatype Projected = OnScreen(sx: real, sy: real, depth: real) | AtEye

  function Depth(p: Projected): real {
    if p.OnScreen? then p.depth else 0.0
  }

  /** `PerspectiveProjection.project(a, c, distance)` through the camera:
      the offset from the camera, scaled by `distance / offset.y`, with
      `offset.y` as depth; the screen takes the x and z axes. */
  function Project(cam: Camera, a: Vec3): (p: Projected)
    ensures Depth(p) == a.y - cam.position.y
    ensures p.AtEye? <==> a.y == cam.position.y
    ensures p.OnScreen? ==> p.sx * p.depth == cam.distance * (a.x - cam.position.x)
    ensures p.OnScreen? ==> p.sy * p.depth == cam.distance * (a.z - cam.position.z)
  {
    var d := Sub(a, cam.position);
    if d.y == 0.0 then AtEye
    else
      var r := cam.distance / d.y;
      OnScreen(r * d.x, r * d.z, d.y)
  }

  /** Moving the point and the camera by the same vector changes nothing. */
  lemma ProjectTranslate(cam: Camera, a: Vec3, t: Vec3)
    ensures Project(Camera(Add(cam.position, t), cam.distance), Add(a, t)) == Project(cam, a)
  {
    var c2 := Camera(Add(cam.position, t), cam.distance);
    assert Sub(Add(a, t), c2.position) == Sub(a, cam.position);
  }

  /** Points on one ray from the camera, in front of it, land on the same
      screen point; only their depth differs, by the factor along the ray. */
  lemma ProjectAlongRay(cam: Camera, a: Vec3, k: real)
    requires k > 0.0 && a.y != cam.position.y
    ensures var p, q := Project(cam, a), Project(cam, Add(cam.position, Scale(k, Sub(a, cam.position))));
      p.OnScreen? && q.OnScreen? && q.sx == p.sx && q.sy == p.sy && q.depth == k * p.depth
  {
    var d := Sub(a, cam.position);
    var b := Add(cam.position, Scale(k, d));
    assert Sub(b, cam.position) == Scale(k, d);
    var r := cam.distance / d.y;
    var rk := cam.distance / (k * d.y);
    assert rk * k == r by {
      assert rk * (k * d.y) == cam.distance;
      assert r * d.y == cam.distance;
      assert (rk * k - r) * d.y == 0.0;
    }
    assert rk * (k * d.x) == r * d.x;
    assert rk * (k * d.z) == r * d.z;
  }

  // -------------------------------------------------------------- rotation

  /** The four coefficients `rotate` computes from its two angles:
      cos and sin of theta, cos and sin of phi. */
  datatype Coeffs = Coeffs(ct: real, st: real, cp: real, sp: real)

  /** `rotate(vertex, center, theta, phi)`: the offset from `center` through
      the matrix built from the coefficients, moved back by `center`. */
  function Rotate(v: Vec3, center: Vec3, k: Coeffs): Vec3 {
    var x, y, z := v.x - center.x, v.y - center.y, v.z - center.z;
    Vec3(k.ct * x - k.st * k.cp * y + k.st * k.sp * z + center.x,
         k.st * x + k.ct * k.cp * y - k.ct * k.sp * z + center.y,
         k.sp * y + k.cp * z + center.z)
  }

  /** The centre of rotation stays where it is. */
  lemma RotateFixesCenter(center: Vec3, k: Coeffs)
    ensures Rotate(center, center, k) == center
  {
  }

  /** With angles 0 (cosines 1, sines 0) rotating changes nothing. */
  lemma RotateIdentity(v: Vec3, center: Vec3)
    ensures Rotate(v, center, Coeffs(1.0, 0.0, 1.0, 0.0)) == v
  {
  }

  /** Rotating is linear in the offset from the centre: moving the vertex and
      the centre together moves the image by the same vector. */
  lemma RotateTranslate(v: Vec3, center: Vec3, t: Vec3, k: Coeffs)
    ensures Rotate(Add(v, t), Add(center, t), k) == Add(Rotate(v, center, k), t)
  {
    assert Sub(Add(v, t), Add(center, t)) == Sub(v, center);
  }

  /** A shape with every vertex rotated; edges and colour are kept, as the
      copy made by `JSON.parse(JSON.stringify(...))` keeps them (it drops the
      collision closure, which rendering never uses). */
  function RotateShape(s: Shape, center: Vec3, k: Coeffs): (r: Shape)
    ensures |r.vertices| == |s.vertices|
    ensures forall i :: 0 <= i < |s.vertices| ==> r.vertices[i] == Rotate(s.vertices[i], center, k)
    ensures r.edges == s.edges && r.color == s.color && r.collider == s.collider
    ensures EdgesInRange(s) ==> EdgesInRange(r)
    ensures k == Coeffs(1.0, 0.0, 1.0, 0.0) ==> r == s
  {
    s.(vertices := seq(|s.vertices|, i requires 0 <= i < |s.vertices| => Rotate(s.vertices[i], center, k)))
  }
}
