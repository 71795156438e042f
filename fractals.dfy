/** The Koch and Sierpinski generators of the turtle pages, as the sequences
    of primitive calls they issue, and what those sequences add up to: how
    many forward moves, how long each is, how far the heading turns and where
    the pen ends. */
module Fractals {
  import opened Text
  import opened TurtleOps
  import Angles

  function Pow(b: nat, n: nat): (p: nat)
    ensures b >= 1 ==> p >= 1
  {
    if n == 0 then 1 else b * Pow(b, n - 1)
  }

  // ------------------------------------------------------------------ Koch

  /** `koch_line(level, length)` of the 3D turtle and the synchronous `koch`
      of the 2D turtles: below level 1 one forward move, otherwise four
      curves of a third of the length with turns of 60, 120 and 60 degrees. */
  function KochLineOps(level: int, len: Dist): seq<Op>
    decreases if level < 1 then 0 else level
  {
    if level < 1 then [Fd(len)]
    else
      var sub := KochLineOps(level - 1, Div(len, 3.0));
      sub + [Lt(60)] + sub + [Rt(120)] + sub + [Lt(60)] + sub
  }

  /** Two call sequences joined by one turn. */
  lemma TurnJoin(a: seq<Op>, t: Op, b: seq<Op>, d: Dist)
    requires t.Lt? || t.Rt?
    ensures CountFd(a + [t] + b) == CountFd(a) + CountFd(b)
    ensures NetTurn(a + [t] + b) == NetTurn(a) + (if t.Rt? then t.deg else -t.deg) + NetTurn(b)
    ensures AllFd(a + [t] + b, d) <==> AllFd(a, d) && AllFd(b, d)
  {
    assert [t][1..] == [];
    CountFdAppend(a, [t]);
    CountFdAppend(a + [t], b);
    NetTurnAppend(a, [t]);
    NetTurnAppend(a + [t], b);
    AllFdAppend(a, [t], d);
    AllFdAppend(a + [t], b, d);
  }

  /** Four copies of a curve joined by turns of 60 left, 120 right and 60
      left: four times the moves, of the same length, and no net turn. */
  lemma KochJoin(sub: seq<Op>, d: Dist)
    requires AllFd(sub, d) && NetTurn(sub) == 0
    ensures var ops := sub + [Lt(60)] + sub + [Rt(120)] + sub + [Lt(60)] + sub;
      CountFd(ops) == 4 * CountFd(sub) && AllFd(ops, d) && NetTurn(ops) == 0
  {
    var x1 := sub + [Lt(60)] + sub;
    var x2 := x1 + [Rt(120)] + sub;
    TurnJoin(sub, Lt(60), sub, d);
    TurnJoin(x1, Rt(120), sub, d);
    TurnJoin(x2, Lt(60), sub, d);
  }

  /** A Koch curve of level `n` is `4^n` forward moves, each a `3^n`-th of
      the length, and turns the heading by nothing overall. */
  lemma {:induction false} KochLineFacts(n: nat, len: Dist)
    ensures CountFd(KochLineOps(n, len)) == Pow(4, n)
    ensures AllFd(KochLineOps(n, len), Div(len, Pow(3, n) as real))
    ensures NetTurn(KochLineOps(n, len)) == 0
  {
    if n > 0 {
      var third := Div(len, 3.0);
      var sub := KochLineOps(n - 1, third);
      KochLineFacts(n - 1, third);
      DivTwice(len, 3.0, Pow(3, n - 1) as real);
      assert Pow(3, n) as real == 3.0 * Pow(3, n - 1) as real;
      KochJoin(sub, Div(third, Pow(3, n - 1) as real));
    }
  }

  /** `koch(level, length)` of the 3D turtle: a snowflake of three Koch
      curves, turned 30 degrees right first and 30 left at the end. */
  function Koch3DOps(level: int, len: Dist): seq<Op> {
    var side := KochLineOps(level, len);
    [Rt(30)] + side + [Rt(120)] + side + [Rt(120)] + side + [Rt(120), Lt(30)]
  }

  /** The 3D snowflake is `3 * 4^n` forward moves and a net turn of a full
      circle, so the heading ends congruent to where it started. */
  lemma Koch3DFacts(n: nat, len: Dist)
    ensures CountFd(Koch3DOps(n, len)) == 3 * Pow(4, n)
    ensures NetTurn(Koch3DOps(n, len)) == 360
    ensures Angles.Congruent(NetTurn(Koch3DOps(n, len)), 0, 360)
  {
    var side := KochLineOps(n, len);
    KochLineFacts(n, len);
    var a, b, c, e := [Rt(30)], [Rt(120)], [Rt(120)], [Rt(120), Lt(30)];
    assert Koch3DOps(n, len) == a + side + b + side + c + side + e;
    CountFdAppend(a, side);
    CountFdAppend(a + side, b);
    CountFdAppend(a + side + b, side);
    CountFdAppend(a + side + b + side, c);
    CountFdAppend(a + side + b + side + c, side);
    CountFdAppend(a + side + b + side + c + side, e);
    NetTurnAppend(a, side);
    NetTurnAppend(a + side, b);
    NetTurnAppend(a + side + b, side);
    NetTurnAppend(a + side + b + side, c);
    NetTurnAppend(a + side + b + side + c, side);
    NetTurnAppend(a + side + b + side + c + side, e);
  }

  /** The `koch` command of the 2D pages after its level check: pen up,
      step 100 to the left, pen down, then three Koch curves each followed
      by a right turn of 120 degrees. */
  function Koch2DCommandOps(level: int, len: Dist): seq<Op> {
    [PenUp, Lt(90), Fd(Some(100.0)), Rt(90), PenDown] + Times(KochLineOps(level, len) + [Rt(120)], 3)
  }

  /** The 2D snowflake makes `1 + 3 * 4^n` forward moves (the repositioning
      one included), turns by a full circle overall and leaves the pen down. */
  lemma Koch2DCommandFacts(n: nat, len: Dist, up: bool)
    ensures CountFd(Koch2DCommandOps(n, len)) == 1 + 3 * Pow(4, n)
    ensures NetTurn(Koch2DCommandOps(n, len)) == 360
    ensures !PenUpAfter(Koch2DCommandOps(n, len), up)
  {
    var head := [PenUp, Lt(90), Fd(Some(100.0)), Rt(90), PenDown];
    var block := KochLineOps(n, len) + [Rt(120)];
    KochLineFacts(n, len);
    CountFdAppend(KochLineOps(n, len), [Rt(120)]);
    NetTurnAppend(KochLineOps(n, len), [Rt(120)]);
    CountFdTimes(block, 3);
    NetTurnTimes(block, 3);
    CountFdAppend(head, Times(block, 3));
    NetTurnAppend(head, Times(block, 3));
    PenUpAfterAppend(head, Times(block, 3), up);
    KochLinePenFree(n, len);
    PenFreeAppend(KochLineOps(n, len), [Rt(120)]);
    PenFreeTimes(block, 3);
    PenFreeKeepsPen(Times(block, 3), false);
  }

  /** A block without pen calls leaves the pen where it was. */
  predicate PenFree(ops: seq<Op>) {
    forall i :: 0 <= i < |ops| ==> ops[i].Fd? || ops[i].Lt? || ops[i].Rt?
  }

  lemma {:induction false} PenFreeKeepsPen(ops: seq<Op>, up: bool)
    requires PenFree(ops)
    ensures PenUpAfter(ops, up) == up
  {
    if ops != [] {
      PenFreeKeepsPen(ops[1..], up);
    }
  }

  lemma {:induction false} KochLinePenFree(level: int, len: Dist)
    ensures PenFree(KochLineOps(level, len))
    decreases if level < 1 then 0 else level
  {
    if level >= 1 {
      KochLinePenFree(level - 1, Div(len, 3.0));
    }
  }

  lemma {:induction false} PenFreeAppend(a: seq<Op>, b: seq<Op>)
    requires PenFree(a) && PenFree(b)
    ensures PenFree(a + b)
  {
    forall i | 0 <= i < |a + b|
      ensures (a + b)[i].Fd? || (a + b)[i].Lt? || (a + b)[i].Rt?
    {
      if i < |a| {
        assert (a + b)[i] == a[i];
      } else {
        assert (a + b)[i] == b[i - |a|];
      }
    }
  }

  lemma {:induction false} PenFreeTimes(block: seq<Op>, n: nat)
    requires PenFree(block)
    ensures PenFree(Times(block, n))
  {
    if n > 0 {
      PenFreeTimes(block, n - 1);
      PenFreeAppend(Times(block, n - 1), block);
    }
  }

  // ----------------------------------------------------------- Sierpinski

  /** `sierp(level, length)` of the 3D turtle: below level 1 nothing,
      otherwise three rounds of a half-size triangle, a forward move and a
      right turn of 120 degrees. */
  function Sierp3DOps(level: int, len: Dist): seq<Op>
    decreases if level < 1 then 0 else level
  {
    if level < 1 then []
    else Times(Sierp3DOps(level - 1, Div(len, 2.0)) + [Fd(len), Rt(120)], 3)
  }

  /** One round of the 3D loop: the sub-triangle's moves and turns plus one
      forward move and 120 degrees right. */
  lemma Sierp3DRound(sub: seq<Op>, len: Dist)
    ensures CountFd(sub + [Fd(len), Rt(120)]) == CountFd(sub) + 1
    ensures NetTurn(sub + [Fd(len), Rt(120)]) == NetTurn(sub) + 120
  {
    var tail := [Fd(len), Rt(120)];
    assert tail[1..] == [Rt(120)];
    assert NetTurn([Rt(120)]) == 120 + NetTurn([]);
    assert CountFd(tail[1..]) == 0 && NetTurn(tail[1..]) == 120;
    CountFdAppend(sub, tail);
    NetTurnAppend(sub, tail);
  }

  /** A 3D Sierpinski triangle of level `n` makes `(3^(n+1) - 3) / 2`
      forward moves. */
  lemma {:induction false} Sierp3DCount(n: nat, len: Dist)
    ensures 2 * CountFd(Sierp3DOps(n, len)) == Pow(3, n + 1) - 3
  {
    if n > 0 {
      var sub := Sierp3DOps(n - 1, Div(len, 2.0));
      Sierp3DCount(n - 1, Div(len, 2.0));
      Sierp3DRound(sub, len);
      CountFdTimes(sub + [Fd(len), Rt(120)], 3);
      assert Pow(3, n + 1) == 3 * Pow(3, n);
    } else {
      assert Pow(3, 1) == 3;
    }
  }

  /** ... and turns right by `180 * (3^n - 1)` degrees. */
  lemma {:induction false} Sierp3DTurn(n: nat, len: Dist)
    ensures NetTurn(Sierp3DOps(n, len)) == 180 * (Pow(3, n) - 1)
  {
    if n > 0 {
      var sub := Sierp3DOps(n - 1, Div(len, 2.0));
      Sierp3DTurn(n - 1, Div(len, 2.0));
      Sierp3DRound(sub, len);
      NetTurnTimes(sub + [Fd(len), Rt(120)], 3);
      assert Pow(3, n) == 3 * Pow(3, n - 1);
    }
  }

  /** ... which is a whole number of circles, since `3^n` is odd. */
  lemma Sierp3DTurnCircles(n: nat, len: Dist)
    ensures Angles.Congruent(NetTurn(Sierp3DOps(n, len)), 0, 360)
  {
    Sierp3DTurn(n, len);
    OddPower(n);
    var q := Pow(3, n);
    var k := (q - 1) / 2;
    assert q - 1 == 2 * k;
    HalfCircles(q - 1, k);
    Angles.MultipleMod(k, 360);
  }

  lemma HalfCircles(a: int, k: int)
    requires a == 2 * k
    ensures 180 * a == k * 360
  {
  }

  lemma {:induction false} OddPower(n: nat)
    ensures Pow(3, n) % 2 == 1
  {
    if n > 0 {
      OddPower(n - 1);
    }
  }

  /** The `sierp` command of the 3D turtle: turn 30 right, draw, turn 30 left. */
  function Sierp3DCommandOps(level: int, len: Dist): seq<Op> {
    [Rt(30)] + Sierp3DOps(level, len) + [Lt(30)]
  }

  /** The 3D `sierp` command leaves the heading congruent to where it was. */
  lemma Sierp3DCommandTurn(n: nat, len: Dist)
    ensures Angles.Congruent(NetTurn(Sierp3DCommandOps(n, len)), 0, 360)
  {
    Sierp3DTurnCircles(n, len);
    NetTurnAppend([Rt(30)], Sierp3DOps(n, len));
    NetTurnAppend([Rt(30)] + Sierp3DOps(n, len), [Lt(30)]);
  }

  /** `sierp(level, length, height)` of the 2D turtles: the outline of the
      triangle, then three half-size triangles, each drawn inside a restoring
      block that starts with the turn preceding its recursive call. */
  function Sierp2DOps(level: nat, len: Dist, height: Dist): seq<Op>
    decreases level
  {
    if level == 0 then []
    else
      var sub := Sierp2DOps(level - 1, Div(len, 2.0), Div(height, 2.0));
      Outline(len) + [Restoring([Rt(180)] + sub)]
      + Reposition(height, Div(len, 2.0)) + [Restoring([Rt(330)] + sub)]
      + [Lt(120), Fd(Div(len, 2.0))] + [Restoring([Lt(270)] + sub)]
      + [Lt(120), Fd(Div(len, 2.0))]
  }

  /** The outline of a 2D triangle. */
  function Outline(len: Dist): seq<Op> {
    [Lt(150), Fd(len), Lt(120), Fd(len), Lt(120), Fd(len), Lt(150)]
  }

  /** The move from the outline to the first inner triangle. */
  function Reposition(height: Dist, half: Dist): seq<Op> {
    [PenUp, Fd(height), PenDown, Lt(150), Fd(half)]
  }

  /** Peeling the call at `k` off the calls from `k` on. */
  lemma StepFacts(ops: seq<Op>, k: nat, up: bool)
    requires k < |ops| && !ops[k].Restoring?
    ensures CountFd(ops[k..]) == (if ops[k].Fd? then 1 else 0) + CountFd(ops[k + 1..])
    ensures NetTurn(ops[k..]) == (match ops[k] case Rt(a) => a case Lt(a) => -a case _ => 0) + NetTurn(ops[k + 1..])
    ensures PenUpAfter(ops[k..], up) == PenUpAfter(ops[k + 1..], if ops[k].PenUp? then true else if ops[k].PenDown? then false else up)
  {
    assert ops[k..][1..] == ops[k + 1..];
  }

  /** The outline is three forward moves and 540 degrees left. */
  lemma OutlineFacts(len: Dist)
    ensures CountFd(Outline(len)) == 3
    ensures NetTurn(Outline(len)) == -540
  {
    var p := Outline(len);
    assert p[7..] == [];
    StepFacts(p, 6, false);
    StepFacts(p, 5, false);
    StepFacts(p, 4, false);
    StepFacts(p, 3, false);
    StepFacts(p, 2, false);
    StepFacts(p, 1, false);
    StepFacts(p, 0, false);
    assert p[0..] == p;
  }

  /** The repositioning is two forward moves, 150 degrees left, and leaves
      the pen down whatever it was before. */
  lemma RepositionFacts(height: Dist, half: Dist, up: bool)
    ensures !PenUpAfter(Reposition(height, half), up)
    ensures CountFd(Reposition(height, half)) == 2
    ensures NetTurn(Reposition(height, half)) == -150
  {
    var p := Reposition(height, half);
    assert p[5..] == [];
    StepFacts(p, 4, false);
    StepFacts(p, 3, false);
    StepFacts(p, 2, true);
    StepFacts(p, 1, true);
    StepFacts(p, 0, up);
    assert p[0..] == p;
  }

  /** A side step of the inner triangles: one forward move, 120 left. */
  lemma SideFacts(half: Dist, up: bool)
    ensures CountFd([Lt(120), Fd(half)]) == 1
    ensures NetTurn([Lt(120), Fd(half)]) == -120
    ensures PenUpAfter([Lt(120), Fd(half)], up) == up
  {
    var p := [Lt(120), Fd(half)];
    assert p[2..] == [];
    StepFacts(p, 1, up);
    StepFacts(p, 0, up);
    assert p[0..] == p;
  }

  /** A restoring block counts the moves of its body and turns by nothing. */
  lemma RestoringFacts(turn: Op, sub: seq<Op>)
    requires turn.Lt? || turn.Rt?
    ensures CountFd([Restoring([turn] + sub)]) == CountFd(sub)
    ensures NetTurn([Restoring([turn] + sub)]) == 0
    ensures PenUpAfter([Restoring([turn] + sub)], false) == PenUpAfter(sub, false)
  {
    CountFdAppend([turn], sub);
    PenUpAfterAppend([turn], sub, false);
  }

  /** The moves and turns of three call sequences in a row. */
  lemma Join3(a: seq<Op>, b: seq<Op>, c: seq<Op>)
    ensures CountFd(a + b + c) == CountFd(a) + CountFd(b) + CountFd(c)
    ensures NetTurn(a + b + c) == NetTurn(a) + NetTurn(b) + NetTurn(c)
  {
    CountFdAppend(a, b);
    CountFdAppend(a + b, c);
    NetTurnAppend(a, b);
    NetTurnAppend(a + b, c);
  }

  /** One level of the 2D triangle: three moves of the outline, two of the
      repositioning, two side steps and three copies of the level below. */
  lemma Sierp2DCountStep(n: nat, m: nat, len: Dist, height: Dist)
    requires n == m + 1
    ensures CountFd(Sierp2DOps(n, len, height)) == 7 + 3 * CountFd(Sierp2DOps(m, Div(len, 2.0), Div(height, 2.0)))
  {
    var sub := Sierp2DOps(m, Div(len, 2.0), Div(height, 2.0));
    var p1, r1, p2, r2 := Outline(len), [Restoring([Rt(180)] + sub)], Reposition(height, Div(len, 2.0)), [Restoring([Rt(330)] + sub)];
    var p3, r3, p4 := [Lt(120), Fd(Div(len, 2.0))], [Restoring([Lt(270)] + sub)], [Lt(120), Fd(Div(len, 2.0))];
    var x2 := p1 + r1 + p2;
    var x4 := x2 + r2 + p3;
    assert Sierp2DOps(n, len, height) == x4 + r3 + p4;
    OutlineFacts(len);
    RepositionFacts(height, Div(len, 2.0), false);
    SideFacts(Div(len, 2.0), false);
    RestoringFacts(Rt(180), sub);
    RestoringFacts(Rt(330), sub);
    RestoringFacts(Lt(270), sub);
    Join3(p1, r1, p2);
    Join3(x2, r2, p3);
    Join3(x4, r3, p4);
  }

  /** A 2D Sierpinski triangle of level `n` makes `7 * (3^n - 1) / 2`
      forward moves. */
  lemma {:induction false} Sierp2DCount(n: nat, len: Dist, height: Dist)
    ensures 2 * CountFd(Sierp2DOps(n, len, height)) == 7 * (Pow(3, n) - 1)
  {
    if n > 0 {
      Sierp2DCount(n - 1, Div(len, 2.0), Div(height, 2.0));
      Sierp2DCountStep(n, n - 1, len, height);
      assert Pow(3, n) == 3 * Pow(3, n - 1);
    }
  }

  /** For `n >= 1` it turns the heading 930 degrees left, which is not a
      whole number of circles: unlike the 3D one, the 2D command leaves the
      turtle turned by 150 degrees. */
  lemma Sierp2DTurn(n: nat, len: Dist, height: Dist)
    requires n >= 1
    ensures NetTurn(Sierp2DOps(n, len, height)) == -930
    ensures !Angles.Congruent(NetTurn(Sierp2DOps(n, len, height)), 0, 360)
  {
    var sub := Sierp2DOps(n - 1, Div(len, 2.0), Div(height, 2.0));
    var p1, r1, p2, r2 := Outline(len), [Restoring([Rt(180)] + sub)], Reposition(height, Div(len, 2.0)), [Restoring([Rt(330)] + sub)];
    var p3, r3, p4 := [Lt(120), Fd(Div(len, 2.0))], [Restoring([Lt(270)] + sub)], [Lt(120), Fd(Div(len, 2.0))];
    OutlineFacts(len);
    RepositionFacts(height, Div(len, 2.0), false);
    SideFacts(Div(len, 2.0), false);
    RestoringFacts(Rt(180), sub);
    RestoringFacts(Rt(330), sub);
    RestoringFacts(Lt(270), sub);
    NetTurnAppend(p1, r1);
    NetTurnAppend(p1 + r1, p2);
    NetTurnAppend(p1 + r1 + p2, r2);
    NetTurnAppend(p1 + r1 + p2 + r2, p3);
    NetTurnAppend(p1 + r1 + p2 + r2 + p3, r3);
    NetTurnAppend(p1 + r1 + p2 + r2 + p3 + r3, p4);
  }

  /** For `n >= 1` the pen ends down, whatever it was at the start. */
  lemma {:induction false} Sierp2DPen(n: nat, len: Dist, height: Dist, up: bool)
    requires n >= 1
    ensures !PenUpAfter(Sierp2DOps(n, len, height), up)
  {
    var half := Div(len, 2.0);
    var sub := Sierp2DOps(n - 1, half, Div(height, 2.0));
    var p1, r1, p2, r2 := Outline(len), [Restoring([Rt(180)] + sub)], Reposition(height, half), [Restoring([Rt(330)] + sub)];
    var p3, r3, p4 := [Lt(120), Fd(half)], [Restoring([Lt(270)] + sub)], [Lt(120), Fd(half)];
    assert Sierp2DOps(n, len, height) == p1 + r1 + p2 + r2 + p3 + r3 + p4;
    if n - 1 >= 1 {
      Sierp2DPen(n - 1, half, Div(height, 2.0), false);
    } else {
      assert sub == [];
    }
    SideFacts(half, false);
    RestoringFacts(Rt(330), sub);
    RestoringFacts(Lt(270), sub);
    PenUpAfterAppend(p1 + r1, p2, up);
    RepositionFacts(height, half, PenUpAfter(p1 + r1, up));
    PenUpAfterAppend(p1 + r1 + p2, r2, up);
    PenUpAfterAppend(p1 + r1 + p2 + r2, p3, up);
    PenUpAfterAppend(p1 + r1 + p2 + r2 + p3, r3, up);
    PenUpAfterAppend(p1 + r1 + p2 + r2 + p3 + r3, p4, up);
  }

  /** The `sierp` command of the 2D turtles: pen up, 300 forward, pen down,
      then the triangle (its height is `length * sqrt(3) / 2`). */
  function Sierp2DCommandOps(level: nat, len: Dist, height: Dist): seq<Op> {
    [PenUp, Fd(Some(300.0)), PenDown] + Sierp2DOps(level, len, height)
  }

  // ------------------------------------------------- lengths that are not numbers

  /** With a length that is not a finite number (a missing or unparsable
      argument) every forward move of a Koch curve is by a non-number too:
      `NaN / 3` is `NaN`. */
  lemma {:induction false} KochLineNaN(level: int)
    ensures AllFd(KochLineOps(level, None), None)
    decreases if level < 1 then 0 else level
  {
    if level >= 1 {
      var sub := KochLineOps(level - 1, None);
      KochLineNaN(level - 1);
      var x1 := sub + [Lt(60)] + sub;
      var x2 := x1 + [Rt(120)] + sub;
      TurnJoin(sub, Lt(60), sub, None);
      TurnJoin(x1, Rt(120), sub, None);
      TurnJoin(x2, Lt(60), sub, None);
    }
  }

  /** The 3D snowflake without a numeric length moves nowhere. */
  lemma Koch3DNaN(level: int)
    ensures AllFd(Koch3DOps(level, None), None)
  {
    var side := KochLineOps(level, None);
    KochLineNaN(level);
    var a, b, e := [Rt(30)], [Rt(120)], [Rt(120), Lt(30)];
    assert Koch3DOps(level, None) == a + side + b + side + b + side + e;
    AllFdAppend(a, side, None);
    AllFdAppend(a + side, b, None);
    AllFdAppend(a + side + b, side, None);
    AllFdAppend(a + side + b + side, b, None);
    AllFdAppend(a + side + b + side + b, side, None);
    AllFdAppend(a + side + b + side + b + side, e, None);
  }

  /** The three curves of the 2D snowflake without a numeric length move
      nowhere; only the repositioning step before them does. */
  lemma Koch2DNaN(level: int)
    ensures AllFd(Times(KochLineOps(level, None) + [Rt(120)], 3), None)
  {
    KochLineNaN(level);
    AllFdAppend(KochLineOps(level, None), [Rt(120)], None);
    AllFdTimes(KochLineOps(level, None) + [Rt(120)], 3, None);
  }

  /** The 3D Sierpinski triangle without a numeric length moves nowhere. */
  lemma {:induction false} Sierp3DNaN(level: int)
    ensures AllFd(Sierp3DOps(level, None), None)
    ensures AllFd(Sierp3DCommandOps(level, None), None)
    decreases if level < 1 then 0 else level
  {
    var ops := Sierp3DOps(level, None);
    if level >= 1 {
      var sub := Sierp3DOps(level - 1, None);
      Sierp3DNaN(level - 1);
      AllFdAppend(sub, [Fd(None), Rt(120)], None);
      AllFdTimes(sub + [Fd(None), Rt(120)], 3, None);
    }
    AllFdAppend([Rt(30)], ops, None);
    AllFdAppend([Rt(30)] + ops, [Lt(30)], None);
  }

  /** The 2D Sierpinski triangle with neither a numeric length nor a
      numeric height moves nowhere. */
  lemma {:induction false} Sierp2DNaN(level: nat)
    ensures AllFd(Sierp2DOps(level, None, None), None)
  {
    if level >= 1 {
      var sub := Sierp2DOps(level - 1, None, None);
      Sierp2DNaN(level - 1);
      var p1, p2, p3 := Outline(None), Reposition(None, None), [Lt(120), Fd(None)];
      var r1, r2, r3 := [Restoring([Rt(180)] + sub)], [Restoring([Rt(330)] + sub)], [Restoring([Lt(270)] + sub)];
      assert Sierp2DOps(level, None, None) == p1 + r1 + p2 + r2 + p3 + r3 + p3;
      AllFdAppend([Rt(180)], sub, None);
      AllFdAppend([Rt(330)], sub, None);
      AllFdAppend([Lt(270)], sub, None);
      assert AllFd(p1, None) by {
        assert p1[1..][1..][1..][1..][1..][1..][1..] == [];
      }
      assert AllFd(p2, None) by {
        assert p2[1..][1..][1..][1..][1..] == [];
      }
      assert AllFd(p3, None) by {
        assert p3[1..][1..] == [];
      }
      assert AllFd(r1, None) && AllFd(r2, None) && AllFd(r3, None) by {
        assert r1[1..] == [] && r2[1..] == [] && r3[1..] == [];
      }
      AllFdAppend(p1, r1, None);
      AllFdAppend(p1 + r1, p2, None);
      AllFdAppend(p1 + r1 + p2, r2, None);
      AllFdAppend(p1 + r1 + p2 + r2, p3, None);
      AllFdAppend(p1 + r1 + p2 + r2 + p3, r3, None);
      AllFdAppend(p1 + r1 + p2 + r2 + p3 + r3, p3, None);
    }
  }
}
