/** `Engine.render`: every edge of every object is projected through the
    camera and stroked in the object's colour, unless one of its ends lies
    behind the camera. A frame is the list of strokes, in drawing order. */
module Render {
  import opened Geometry

  /** A canvas point: the projected point shifted to the canvas centre with
      the y axis flipped, or a non-finite point when the depth was 0. */
  datatype CanvasPoint = Pt(x: real, y: real) | NonFinite

  datatype Stroke = Stroke(from: CanvasPoint, to: CanvasPoint, color: string)

  function ToCanvas(p: Projected, dx: real, dy: real): CanvasPoint {
    if p.OnScreen? then Pt(p.sx + dx, -p.sy + dy) else NonFinite
  }

  predicate AllEdgesInRange(objects: seq<Shape>) {
    forall i :: 0 <= i < |objects| ==> EdgesInRange(objects[i])
  }

  /** An edge is drawn unless a projected end has negative depth. */
  predicate Visible(s: Shape, e: Edge, cam: Camera)
    requires e.from < |s.vertices| && e.to < |s.vertices|
  {
    !(Depth(Project(cam, s.vertices[e.from])) < 0.0 || Depth(Project(cam, s.vertices[e.to])) < 0.0)
  }

  predicate EdgeListInRange(s: Shape, es: seq<Edge>) {
    forall i :: 0 <= i < |es| ==> es[i].from < |s.vertices| && es[i].to < |s.vertices|
  }

  /** The strokes for the edges `es` of `s`, in order. */
  function EdgeStrokes(s: Shape, es: seq<Edge>, cam: Camera, dx: real, dy: real): seq<Stroke>
    requires EdgeListInRange(s, es)
  {
    if es == [] then []
    else
      var e := es[|es| - 1];
      EdgeStrokes(s, es[..|es| - 1], cam, dx, dy)
      + (if Visible(s, e, cam)
         then [Stroke(ToCanvas(Project(cam, s.vertices[e.from]), dx, dy),
                      ToCanvas(Project(cam, s.vertices[e.to]), dx, dy), s.color)]
         else [])
  }

  /** The frame `render(objects, camera)` draws: object after object, each
      object's edges in table order. */
  function Frame(objects: seq<Shape>, cam: Camera, dx: real, dy: real): seq<Stroke>
    requires AllEdgesInRange(objects)
  {
    if objects == [] then []
    else
      var s := objects[|objects| - 1];
      Frame(objects[..|objects| - 1], cam, dx, dy) + EdgeStrokes(s, s.edges, cam, dx, dy)
  }

  /** The number of visible edges among `es`. */
  function VisibleCount(s: Shape, es: seq<Edge>, cam: Camera): nat
    requires EdgeListInRange(s, es)
  {
    if es == [] then 0
    else VisibleCount(s, es[..|es| - 1], cam) + (if Visible(s, es[|es| - 1], cam) then 1 else 0)
  }

  /** One stroke per visible edge, each in the shape's colour; so an edge
      list is drawn in full exactly when every edge in it is visible. */
  lemma {:induction false} EdgeStrokesCount(s: Shape, es: seq<Edge>, cam: Camera, dx: real, dy: real)
    requires EdgeListInRange(s, es)
    ensures |EdgeStrokes(s, es, cam, dx, dy)| == VisibleCount(s, es, cam) <= |es|
    ensures forall k :: 0 <= k < |EdgeStrokes(s, es, cam, dx, dy)| ==>
      EdgeStrokes(s, es, cam, dx, dy)[k].color == s.color
    ensures VisibleCount(s, es, cam) == |es| <==> forall i :: 0 <= i < |es| ==> Visible(s, es[i], cam)
  {
    if es != [] {
      var pre := es[..|es| - 1];
      EdgeStrokesCount(s, pre, cam, dx, dy);
      assert forall i :: 0 <= i < |pre| ==> pre[i] == es[i];
      if VisibleCount(s, es, cam) == |es| {
        forall i | 0 <= i < |es|
          ensures Visible(s, es[i], cam)
        {
          if i < |pre| {
            assert Visible(s, pre[i], cam);
          }
        }
      }
    }
  }

  /** Drawing a longer list draws the shorter list's frame first. */
  lemma FrameAppend(a: seq<Shape>, b: seq<Shape>, cam: Camera, dx: real, dy: real)
    requires AllEdgesInRange(a) && AllEdgesInRange(b)
    ensures AllEdgesInRange(a + b)
    ensures Frame(a + b, cam, dx, dy) == Frame(a, cam, dx, dy) + Frame(b, cam, dx, dy)
    decreases |b|
  {
    assert AllEdgesInRange(a + b) by {
      forall i | 0 <= i < |a + b|
        ensures EdgesInRange((a + b)[i])
      {
        if i >= |a| {
          assert (a + b)[i] == b[i - |a|];
        }
      }
    }
    if b == [] {
      assert a + b == a;
    } else {
      var pre := b[..|b| - 1];
      assert (a + b)[..|a + b| - 1] == a + pre;
      assert AllEdgesInRange(pre);
      FrameAppend(a, pre, cam, dx, dy);
    }
  }

  /** The part of `Engine` the drawing uses: half the canvas size. */
  class Engine {
    const dx: real
    const dy: real

    constructor(width: real, height: real)
      ensures dx == width / 2.0 && dy == height / 2.0
    {
      dx := width / 2.0;
      dy := height / 2.0;
    }

    /** `render(objects, camera)`: clears the canvas and draws the frame. */
    method Render(objects: seq<Shape>, cam: Camera) returns (frame: seq<Stroke>)
      requires AllEdgesInRange(objects)
      ensures frame == Frame(objects, cam, dx, dy)
    {
      frame := [];
      var i := 0;
      while i < |objects|
        invariant 0 <= i <= |objects|
        invariant AllEdgesInRange(objects[..i])
        invariant frame == Frame(objects[..i], cam, dx, dy)
      {
        var obj := objects[i];
        var j := 0;
        while j < |obj.edges|
          invariant 0 <= j <= |obj.edges|
          invariant EdgeListInRange(obj, obj.edges[..j])
          invariant frame == Frame(objects[..i], cam, dx, dy) + EdgeStrokes(obj, obj.edges[..j], cam, dx, dy)
        {
          var e := obj.edges[j];
          var point1 := Project(cam, obj.vertices[e.from]);
          var point2 := Project(cam, obj.vertices[e.to]);
          assert obj.edges[..j + 1][..j] == obj.edges[..j];
          if !(Depth(point1) < 0.0 || Depth(point2) < 0.0) {
            frame := frame + [Stroke(ToCanvas(point1, dx, dy), ToCanvas(point2, dx, dy), obj.color)];
          }
          j := j + 1;
        }
        assert obj.edges[..j] == obj.edges;
        assert objects[..i + 1][..i] == objects[..i];
        i := i + 1;
      }
      assert objects[..i] == objects;
    }
  }
}
