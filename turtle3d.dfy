/** The 3D turtle of `turtle_3d.js` and `turtle_3d_pres.js`: a position in
    the closed box [-1000, 1000]^3, a horizontal heading `theta` and a
    vertical heading `phi` in whole degrees, a pen flag, and the list of
    `Line` objects the pen has left. Both pages share every turtle function;
    they differ in `sc` (see `Throws`) and in where `readInput` gets its
    text. The state the commands act on is given as values (`Turtle`,
    `Page3D`) with `Run`/`RunCmds` as their meaning; the class
    `Turtle3DPage` holds the page's globals and its methods are proved to do
    what those functions say. */
module Turtle3D {
  import opened Text
  import opened Angles
  import opened TurtleOps
  import opened Fractals
  import opened Geometry
  import opened Script
  import Render

  /** The two pages that carry this turtle. */
  datatype Variant = Editor | Presentation

  /** Half the side of the box the turtle may move in (`minX = -1000`,
      `maxX = 1000`, and the same for y and z). */
  const Bound: real := 1000.0

  /** `checkCoordinates`: inclusive on all six sides. */
  predicate InBox(p: Vec3) {
    -Bound <= p.x <= Bound && -Bound <= p.y <= Bound && -Bound <= p.z <= Bound
  }

  datatype Turtle = Turtle(pos: Vec3, theta: int, phi: int, drawing: bool, objects: seq<Shape>)

  /** The vector `fd(value)` adds to the position: `(dx, -dy, dz)` with
      `dx = value sin(theta) cos(phi)`, `dy = value cos(theta) cos(phi)`,
      `dz = value sin(phi)`. */
  function Step(trig: Trig, theta: int, phi: int, value: real): Vec3 {
    var st, ct := trig.sinDeg(theta as real), trig.cosDeg(theta as real);
    var sp, cp := trig.sinDeg(phi as real), trig.cosDeg(phi as real);
    Vec3(value * st * cp, -(value * ct * cp), value * sp)
  }

  /** The common tail of `fd` and `bk`: outside the box nothing happens;
      inside, a `Line` from the old to the new position is pushed when the
      pen is down, and the turtle moves. */
  function MoveTo(t: Turtle, target: Vec3): (r: Turtle)
    ensures !InBox(target) ==> r == t
    ensures InBox(target) ==> r.pos == target
    ensures r.theta == t.theta && r.phi == t.phi && r.drawing == t.drawing
    ensures r.objects == t.objects + (if InBox(target) && t.drawing then [Line(t.pos, target, DefaultColor)] else [])
  {
    if !InBox(target) then t
    else if t.drawing then t.(pos := target, objects := t.objects + [Line(t.pos, target, DefaultColor)])
    else t.(pos := target)
  }

  function FdMove(trig: Trig, t: Turtle, value: real): Turtle {
    MoveTo(t, Add(t.pos, Step(trig, t.theta, t.phi, value)))
  }

  function BkMove(trig: Trig, t: Turtle, value: real): Turtle {
    MoveTo(t, Sub(t.pos, Step(trig, t.theta, t.phi, value)))
  }

  /** `fd(v)` followed by `bk(v)`, both inside the box, returns the turtle to
      where it started, and draws the same segment back when the pen is down. */
  lemma FdBkInverse(trig: Trig, t: Turtle, value: real)
    requires InBox(Add(t.pos, Step(trig, t.theta, t.phi, value)))
    requires InBox(t.pos)
    ensures BkMove(trig, FdMove(trig, t, value), value).pos == t.pos
    ensures BkMove(trig, FdMove(trig, t, value), value).theta == t.theta
    ensures |BkMove(trig, FdMove(trig, t, value), value).objects| == |t.objects| + (if t.drawing then 2 else 0)
  {
    var u := FdMove(trig, t, value);
    assert Sub(u.pos, Step(trig, u.theta, u.phi, value)) == t.pos;
  }

  /** Applying one call other than a restoring block. */
  function Prim(trig: Trig, t: Turtle, op: Op): Turtle {
    match op
    case Fd(d) => if d.Some? then FdMove(trig, t, d.value) else t
    case Lt(a) => t.(theta := TruncRem(t.theta - a, 360))
    case Rt(a) => t.(theta := TruncRem(t.theta + a, 360))
    case PenUp => t.(drawing := false)
    case PenDown => t.(drawing := true)
    case Restoring(_) => t
  }

  /** The turtle after the calls `ops`, in order. A restoring block puts the
      position and `theta` back afterwards (the 3D generators issue none). */
  function Run(trig: Trig, t: Turtle, ops: seq<Op>): Turtle
    decreases ops
  {
    if ops == [] then t
    else
      var next :=
        match ops[0]
        case Restoring(b) =>
          var e := Run(trig, t, b);
          e.(pos := t.pos, theta := t.theta)
        case _ => Prim(trig, t, ops[0]);
      Run(trig, next, ops[1..])
  }

  lemma {:induction false} RunAppend(trig: Trig, t: Turtle, a: seq<Op>, b: seq<Op>)
    ensures Run(trig, t, a + b) == Run(trig, Run(trig, t, a), b)
    decreases a
  {
    if a != [] {
      assert (a + b)[0] == a[0];
      assert (a + b)[1..] == a[1..] + b;
      var next :=
        match a[0]
        case Restoring(body) =>
          var e := Run(trig, t, body);
          e.(pos := t.pos, theta := t.theta)
        case _ => Prim(trig, t, a[0]);
      RunAppend(trig, next, a[1..], b);
    } else {
      assert a + b == b;
    }
  }

  /** After any calls `theta` is a reduced heading congruent to the start
      plus the net right turn, and `phi` has not moved. */
  lemma {:induction false} RunHeading(trig: Trig, t: Turtle, ops: seq<Op>)
    requires -360 < t.theta < 360
    ensures -360 < Run(trig, t, ops).theta < 360
    ensures Congruent(Run(trig, t, ops).theta, t.theta + NetTurn(ops), 360)
    ensures Run(trig, t, ops).phi == t.phi
    decreases ops
  {
    if ops == [] {
      assert Congruent(t.theta, t.theta + 0, 360);
    } else {
      var op := ops[0];
      var rest := NetTurn(ops[1..]);
      match op {
        case Restoring(b) =>
          RunHeading(trig, t, b);
          var next := Run(trig, t, b).(pos := t.pos, theta := t.theta);
          RunHeading(trig, next, ops[1..]);
        case Rt(a) =>
          var next := Prim(trig, t, op);
          RunHeading(trig, next, ops[1..]);
          TurnHeading(t.theta, a, next.theta, Run(trig, t, ops).theta, rest);
        case Lt(a) =>
          var next := Prim(trig, t, op);
          RunHeading(trig, next, ops[1..]);
          TurnHeading(t.theta, -a, next.theta, Run(trig, t, ops).theta, rest);
        case _ =>
          RunHeading(trig, Prim(trig, t, op), ops[1..]);
      }
    }
  }

  /** The calls only ever add `Line` objects: the old list stays a prefix,
      at most one object is added per forward move, and every object added
      keeps its edges inside its vertex list. */
  lemma {:induction false} RunObjects(trig: Trig, t: Turtle, ops: seq<Op>)
    requires Render.AllEdgesInRange(t.objects)
    ensures Render.AllEdgesInRange(Run(trig, t, ops).objects)
    ensures t.objects <= Run(trig, t, ops).objects
    ensures |Run(trig, t, ops).objects| <= |t.objects| + CountFd(ops)
    decreases ops
  {
    if ops != [] {
      var op := ops[0];
      match op {
        case Restoring(b) =>
          RunObjects(trig, t, b);
          var next := Run(trig, t, b).(pos := t.pos, theta := t.theta);
          RunObjects(trig, next, ops[1..]);
        case _ =>
          var next := Prim(trig, t, op);
          assert Render.AllEdgesInRange(next.objects);
          RunObjects(trig, next, ops[1..]);
      }
    }
  }

  /** With the pen up no forward move draws. */
  lemma {:induction false} RunPenUpDrawsNothing(trig: Trig, t: Turtle, ops: seq<Op>)
    requires !t.drawing
    requires forall i :: 0 <= i < |ops| ==> ops[i].Fd? || ops[i].Lt? || ops[i].Rt?
    ensures Run(trig, t, ops).objects == t.objects
    ensures !Run(trig, t, ops).drawing
    decreases ops
  {
    if ops != [] {
      RunPenUpDrawsNothing(trig, Prim(trig, t, ops[0]), ops[1..]);
    }
  }

  /** Calls whose every forward move is by a non-number leave the
      position and the objects as they were. */
  lemma {:induction false} RunStill(trig: Trig, t: Turtle, ops: seq<Op>)
    requires AllFd(ops, None)
    ensures Run(trig, t, ops).pos == t.pos && Run(trig, t, ops).objects == t.objects
    decreases ops
  {
    if ops != [] {
      match ops[0] {
        case Restoring(b) =>
          RunStill(trig, t, b);
          var next := Run(trig, t, b).(pos := t.pos, theta := t.theta);
          RunStill(trig, next, ops[1..]);
        case _ =>
          RunStill(trig, Prim(trig, t, ops[0]), ops[1..]);
      }
    }
  }

  // ---------------------------------------------------------- the page

  /** The globals a command can change besides the turtle: the canvas line
      width, the camera and the two drag accumulators. */
  datatype Page3D = Page3D(turtle: Turtle, lineWidth: real, camera: Camera, cumX: real, cumY: real)

  const Origin: Vec3 := Vec3(0.0, 0.0, 0.0)

  /** The camera `initTurtle` creates. */
  const InitCamera: Camera := Camera(Vec3(0.0, -2000.0, 0.0), 350.0)

  /** `initTurtle`: empty scene, turtle in the middle of the box facing
      heading 0/0, camera and drag angles reset. The pen and the line width
      are not touched. */
  function AfterInit(p: Page3D): Page3D {
    Page3D(Turtle(Origin, 0, 0, p.turtle.drawing, []), p.lineWidth, InitCamera, 0.0, -90.0)
  }

  /** What one command leads to: the next page, a thrown exception, or an
      argument the model does not cover (see `ArgsOk`). */
  datatype Outcome = Continue(page: Page3D) | Thrown | Outside

  /** The colour names of the presentation page's `sc`, with the colours
      they stand for. */
  function ScColor(name: string): Option<string> {
    if name == "black" then Some("#000000")
    else if name == "red" then Some("#FF0000")
    else if name == "green" then Some("#00FF00")
    else if name == "blue" then Some("#0000FF")
    else if name == "yellow" then Some("#FFFF00")
    else None
  }

  /** `sc` assigns to `context.strokeStyle`, and no `context` exists, so
      the assignment throws: on the editor page always, on the presentation
      page only for a name of the colour table (any other name falls through
      to `default`). */
  predicate Throws(v: Variant, cmd: seq<string>) {
    Arg(cmd, 0) == Some("sc") &&
    (v == Editor || (Arg(cmd, 1).Some? && ScColor(Arg(cmd, 1).value).Some?))
  }

  /** The names `runCmd` switches on; any other first token is `Unknown`
      and reaches `default`. */
  datatype Name = FdName | BkName | RtName | LtName | UtName | DtName | PuName | PdName
                | KochName | SierpName | ScName | SsName | CsName | Unknown

  function NameOf(cmd: seq<string>): Name {
    if cmd == [] then Unknown
    else
      var s := cmd[0];
      if s == "fd" then FdName else if s == "bk" then BkName
      else if s == "rt" then RtName else if s == "lt" then LtName
      else if s == "ut" then UtName else if s == "dt" then DtName
      else if s == "pu" then PuName else if s == "pd" then PdName
      else if s == "koch" then KochName else if s == "sierp" then SierpName
      else if s == "sc" then ScName else if s == "ss" then SsName
      else if s == "cs" then CsName else Unknown
  }

  /** The arguments the model covers. A turn or tilt by `NaN` makes the
      heading `NaN`, and from then on every move's target is `NaN` and
      every later turn keeps it so: the turtle is stuck, a state the model
      of whole-degree headings does not hold. A `koch` level of `NaN`
      passes the `level > 6` test, and `koch_line` then recurses until the
      call stack runs out (`NaN < 1` is false), so the command throws a
      `RangeError` after the `rt(30)` of `koch`. So does `sierp` for a level
      that is missing, `NaN` or `Infinity`, after the `rt(30)` of the
      command. Lengths are not restricted: a length that is not a number
      makes every move of the figure a move nowhere. */
  predicate ArgsOk(cmd: seq<string>) {
    match NameOf(cmd)
    case RtName | LtName | UtName | DtName => IntArg(cmd, 1).Some?
    case KochName => IntArg(cmd, 1).Some?
    case SierpName => SierpStops(NumArg(cmd, 1))
    case _ => true
  }

  /** The `sierp` recursion stops for a level `r` once `r - k < 1`: for
      every finite level and for `-Infinity`. */
  predicate SierpStops(level: Num) {
    level.Finite? || level == Infinite(true)
  }

  /** Every statement of a scanned input meets `ArgsOk`. */
  predicate AllArgsOk(stmts: seq<Stmt>) {
    forall j :: 0 <= j < |stmts| ==> ArgsOk(stmts[j].tokens)
  }

  /** The number of levels `sierp` recurses through for a level where
      it stops: `floor(r)` of them for a finite `r >= 1`, none below 1
      (`Sierp3DOps` is empty there) or at `-Infinity`. */
  function SierpLevels(level: Num): (n: int)
    requires SierpStops(level)
    ensures level.Finite? && level.value >= 1.0 ==> n >= 1 && n as real <= level.value < n as real + 1.0
    ensures n >= 1 ==> level.Finite? && n as real <= level.value
  {
    if level.Finite? then level.value.Floor else 0
  }

  /** What `runCmd` does with the tokens of one command: the branch of its
      `switch` and the arguments that branch parses. */
  datatype Command =
    | Move(forward: bool, dist: Option<int>)
    | Turn(right: bool, deg: int)
    | Tilt(up: bool, deg: int)
    | Pen(down: bool)
    | KochFigure(level: int, side: Dist)
    | SierpFigure(levels: int, size: Dist)
    | SetColor(throws: bool)
    | SetWidth(width: Num)
    | Clear
    | Ignored

  /** The command the tokens `cmd` select. `koch` parses both arguments
      with `parseInt` before its level test; `sierp` passes its raw strings
      on, and they are coerced to numbers where `sierp` compares, subtracts
      and divides them. */
  function Decode(v: Variant, cmd: seq<string>): Command
    requires ArgsOk(cmd)
  {
    match NameOf(cmd)
    case FdName => Move(true, IntArg(cmd, 1))
    case BkName => Move(false, IntArg(cmd, 1))
    case RtName => Turn(true, IntArg(cmd, 1).value)
    case LtName => Turn(false, IntArg(cmd, 1).value)
    case UtName => Tilt(true, IntArg(cmd, 1).value)
    case DtName => Tilt(false, IntArg(cmd, 1).value)
    case PuName => Pen(false)
    case PdName => Pen(true)
    case KochName =>
      KochFigure(IntArg(cmd, 1).value, IntDist(IntArg(cmd, 2)))
    case SierpName =>
      SierpFigure(SierpLevels(NumArg(cmd, 1)), NumDist(NumArg(cmd, 2)))
    case ScName => SetColor(Throws(v, cmd))
    case SsName => SetWidth(NumArg(cmd, 1))
    case CsName => Clear
    case Unknown => Ignored
  }

  /** The page after one command, up to the final `update_graphics()`. */
  function Exec(trig: Trig, p: Page3D, c: Command): Outcome {
    var t := p.turtle;
    match c
    case Move(forward, d) =>
      Continue(p.(turtle :=
        if d.None? then t else if forward then FdMove(trig, t, d.value as real) else BkMove(trig, t, d.value as real)))
    case Turn(right, a) => Continue(p.(turtle := Prim(trig, t, if right then Rt(a) else Lt(a))))
    case Tilt(up, a) => Continue(p.(turtle := Tilted(t, up, a)))
    case Pen(down) => Continue(p.(turtle := t.(drawing := down)))
    case KochFigure(level, length) =>
      if level > 6 then Continue(p) else Continue(p.(turtle := Run(trig, t, Koch3DOps(level, length))))
    case SierpFigure(n, length) => Continue(p.(turtle := Run(trig, t, Sierp3DCommandOps(n, length))))
    case SetColor(throws) => if throws then Thrown else Continue(p)
    case SetWidth(w) => Continue(if w.Finite? && 1.0 <= w.value <= 6.0 then p.(lineWidth := w.value) else p)
    case Clear => Continue(AfterInit(p))
    case Ignored => Continue(p)
  }

  /** `runCmd(cmd)` up to its final `update_graphics()`. */
  function CmdStep(v: Variant, trig: Trig, p: Page3D, cmd: seq<string>): Outcome {
    if ArgsOk(cmd) then Exec(trig, p, Decode(v, cmd)) else Outside
  }

  /** The commands run one after the other; a thrown exception ends the run
      (it leaves `readInput`). */
  function RunCmds(v: Variant, trig: Trig, p: Page3D, cmds: seq<seq<string>>): Outcome
    decreases |cmds|
  {
    if cmds == [] then Continue(p)
    else
      match CmdStep(v, trig, p, cmds[0])
      case Continue(q) => RunCmds(v, trig, q, cmds[1..])
      case other => other
  }

  /** Headings stay reduced: whatever a command does, `|theta| < 360` and
      `|phi| < 180` keep holding, and the objects keep their edges inside
      their vertex lists. */
  predicate Reduced(p: Page3D) {
    -360 < p.turtle.theta < 360 && -180 < p.turtle.phi < 180 && Render.AllEdgesInRange(p.turtle.objects)
  }

  lemma CmdStepReduced(v: Variant, trig: Trig, p: Page3D, cmd: seq<string>)
    requires Reduced(p)
    ensures CmdStep(v, trig, p, cmd).Continue? ==> Reduced(CmdStep(v, trig, p, cmd).page)
  {
    if ArgsOk(cmd) {
      ExecReduced(trig, p, Decode(v, cmd));
    }
  }

  lemma ExecReduced(trig: Trig, p: Page3D, c: Command)
    requires Reduced(p)
    ensures Exec(trig, p, c).Continue? ==> Reduced(Exec(trig, p, c).page)
  {
    match c {
      case Move(forward, d) =>
        if d.Some? {
          var target := if forward then Add(p.turtle.pos, Step(trig, p.turtle.theta, p.turtle.phi, d.value as real))
                        else Sub(p.turtle.pos, Step(trig, p.turtle.theta, p.turtle.phi, d.value as real));
          MoveReduced(p.turtle, target);
        }
      case Turn(right, a) => PrimTheta(trig, p.turtle, if right then Rt(a) else Lt(a));
      case Tilt(up, a) => TiltFacts(p.turtle, up, a);
      case KochFigure(level, length) =>
        if level <= 6 {
          RunReduced(trig, p, Koch3DOps(level, length));
        }
      case SierpFigure(n, length) => RunReduced(trig, p, Sierp3DCommandOps(n, length));
      case _ =>
    }
  }

  /** A move keeps the headings and adds at most a line, whose one edge
      joins its two vertices. */
  lemma MoveReduced(t: Turtle, target: Vec3)
    requires Render.AllEdgesInRange(t.objects)
    ensures Render.AllEdgesInRange(MoveTo(t, target).objects)
  {
  }

  lemma RunReduced(trig: Trig, p: Page3D, ops: seq<Op>)
    requires Reduced(p)
    ensures Reduced(p.(turtle := Run(trig, p.turtle, ops)))
  {
    RunHeading(trig, p.turtle, ops);
    RunObjects(trig, p.turtle, ops);
  }

  /** `rt`/`lt` leave `theta` reduced below a full turn and congruent to
      the old heading plus the right turn (minus, for `lt`); nothing else
      on the page changes. */
  lemma TurnTheta(v: Variant, trig: Trig, p: Page3D, cmd: seq<string>)
    requires Reduced(p)
    requires NameOf(cmd) in {RtName, LtName} && IntArg(cmd, 1).Some?
    ensures var a, r := IntArg(cmd, 1).value, CmdStep(v, trig, p, cmd);
      r.Continue? && Reduced(r.page) &&
      r.page == p.(turtle := p.turtle.(theta := r.page.turtle.theta)) &&
      Congruent(r.page.turtle.theta, p.turtle.theta + (if NameOf(cmd) == RtName then a else -a), 360)
  {
    DecodeTurn(v, cmd);
    ExecTurn(trig, p, NameOf(cmd) == RtName, IntArg(cmd, 1).value);
  }

  /** `ut`/`dt` leave `phi` reduced below a half turn and congruent to the
      old heading plus the upward turn (minus, for `dt`); nothing else on
      the page changes. */
  lemma TurnPhi(v: Variant, trig: Trig, p: Page3D, cmd: seq<string>)
    requires Reduced(p)
    requires NameOf(cmd) in {UtName, DtName} && IntArg(cmd, 1).Some?
    ensures var a, r := IntArg(cmd, 1).value, CmdStep(v, trig, p, cmd);
      r.Continue? && Reduced(r.page) &&
      r.page == p.(turtle := p.turtle.(phi := r.page.turtle.phi)) &&
      Congruent(r.page.turtle.phi, p.turtle.phi + (if NameOf(cmd) == UtName then a else -a), 180)
  {
    DecodeTilt(v, cmd);
    ExecTilt(trig, p, NameOf(cmd) == UtName, IntArg(cmd, 1).value);
  }

  /** `rt` and `lt` with a numeric argument select a turn. */
  lemma DecodeTurn(v: Variant, cmd: seq<string>)
    requires NameOf(cmd) in {RtName, LtName} && IntArg(cmd, 1).Some?
    ensures ArgsOk(cmd) && Decode(v, cmd) == Turn(NameOf(cmd) == RtName, IntArg(cmd, 1).value)
  {
  }

  /** A turn changes `theta` alone, to a reduced heading congruent to the
      old one plus the turn. */
  lemma ExecTurn(trig: Trig, p: Page3D, right: bool, a: int)
    requires Reduced(p)
    ensures var r := Exec(trig, p, Turn(right, a));
      r.Continue? && Reduced(r.page) &&
      r.page == p.(turtle := p.turtle.(theta := r.page.turtle.theta)) &&
      Congruent(r.page.turtle.theta, p.turtle.theta + (if right then a else -a), 360)
  {
    PrimTheta(trig, p.turtle, if right then Rt(a) else Lt(a));
  }

  /** A tilt changes `phi` alone, to a reduced heading congruent to the
      old one plus the tilt. */
  lemma ExecTilt(trig: Trig, p: Page3D, up: bool, a: int)
    requires Reduced(p)
    ensures var r := Exec(trig, p, Tilt(up, a));
      r.Continue? && Reduced(r.page) &&
      r.page == p.(turtle := p.turtle.(phi := r.page.turtle.phi)) &&
      Congruent(r.page.turtle.phi, p.turtle.phi + (if up then a else -a), 180)
  {
    TiltFacts(p.turtle, up, a);
  }

  /** `ut` and `dt` with a numeric argument select a tilt. */
  lemma DecodeTilt(v: Variant, cmd: seq<string>)
    requires NameOf(cmd) in {UtName, DtName} && IntArg(cmd, 1).Some?
    ensures ArgsOk(cmd) && Decode(v, cmd) == Tilt(NameOf(cmd) == UtName, IntArg(cmd, 1).value)
  {
  }

  /** `fd` and `bk` select a move, whatever their argument. */
  lemma DecodeMove(v: Variant, cmd: seq<string>)
    requires NameOf(cmd) in {FdName, BkName}
    ensures ArgsOk(cmd) && Decode(v, cmd) == Move(NameOf(cmd) == FdName, IntArg(cmd, 1))
  {
  }

  /** `koch` with a numeric level: the length is whatever `parseInt`
      makes of the third token. */
  lemma DecodeKoch(v: Variant, cmd: seq<string>)
    requires NameOf(cmd) == KochName && IntArg(cmd, 1).Some?
    ensures ArgsOk(cmd) && Decode(v, cmd) == KochFigure(IntArg(cmd, 1).value, IntDist(IntArg(cmd, 2)))
  {
  }

  /** `sierp` with a level where the recursion stops. */
  lemma DecodeSierp(v: Variant, cmd: seq<string>)
    requires NameOf(cmd) == SierpName && SierpStops(NumArg(cmd, 1))
    ensures ArgsOk(cmd) && Decode(v, cmd) == SierpFigure(SierpLevels(NumArg(cmd, 1)), NumDist(NumArg(cmd, 2)))
  {
  }

  /** A turn call changes `theta` alone, to a reduced heading congruent to
      the old one plus the turn. */
  lemma PrimTheta(trig: Trig, t: Turtle, op: Op)
    requires op.Rt? || op.Lt?
    requires -360 < t.theta < 360
    ensures var u, turn := Prim(trig, t, op), if op.Rt? then op.deg else -op.deg;
      u == t.(theta := u.theta) && -360 < u.theta < 360 && Congruent(u.theta, t.theta + turn, 360)
  {
    var turn := if op.Rt? then op.deg else -op.deg;
    assert Prim(trig, t, op) == t.(theta := TruncRem(t.theta + turn, 360));
    TruncRemCongruent(t.theta + turn, 360);
  }

  /** `phi` turned modulo 180 by `ut` (`up`) or `dt`. */
  function Tilted(t: Turtle, up: bool, a: int): Turtle {
    t.(phi := if up then TruncRem(t.phi + a, 180) else TruncRem(t.phi - a, 180))
  }

  /** A tilt changes `phi` alone, to a reduced heading congruent to the old
      one plus the tilt. */
  lemma TiltFacts(t: Turtle, up: bool, a: int)
    ensures var u := Tilted(t, up, a);
      u == t.(phi := u.phi) && -180 < u.phi < 180 && Congruent(u.phi, t.phi + (if up then a else -a), 180)
  {
    var turn := if up then a else -a;
    assert Tilted(t, up, a).phi == TruncRem(t.phi + turn, 180);
    TruncRemCongruent(t.phi + turn, 180);
  }

  /** A `fd` whose target leaves the box changes nothing at all. */
  lemma FdOutsideBox(v: Variant, trig: Trig, p: Page3D, cmd: seq<string>)
    requires NameOf(cmd) == FdName && IntArg(cmd, 1).Some?
    requires !InBox(Add(p.turtle.pos, Step(trig, p.turtle.theta, p.turtle.phi, IntArg(cmd, 1).value as real)))
    ensures CmdStep(v, trig, p, cmd) == Continue(p)
  {
    DecodeMove(v, cmd);
  }

  /** An in-box `fd` moves to the target and adds exactly one line, from the
      old to the new position, iff the pen is down; the headings stay. */
  lemma FdInsideBox(v: Variant, trig: Trig, p: Page3D, cmd: seq<string>)
    requires NameOf(cmd) == FdName && IntArg(cmd, 1).Some?
    requires InBox(Add(p.turtle.pos, Step(trig, p.turtle.theta, p.turtle.phi, IntArg(cmd, 1).value as real)))
    ensures var target := Add(p.turtle.pos, Step(trig, p.turtle.theta, p.turtle.phi, IntArg(cmd, 1).value as real));
      var r := CmdStep(v, trig, p, cmd);
      r.Continue? &&
      r.page.turtle.pos == target && r.page.turtle.theta == p.turtle.theta && r.page.turtle.phi == p.turtle.phi &&
      r.page.turtle.objects == p.turtle.objects + (if p.turtle.drawing then [Line(p.turtle.pos, target, DefaultColor)] else [])
  {
    DecodeMove(v, cmd);
  }

  /** A `fd` or `bk` whose argument is not a number changes nothing. */
  lemma MoveNaN(v: Variant, trig: Trig, p: Page3D, cmd: seq<string>)
    requires NameOf(cmd) in {FdName, BkName} && IntArg(cmd, 1).None?
    ensures CmdStep(v, trig, p, cmd) == Continue(p)
  {
    DecodeMove(v, cmd);
  }

  /** `koch` above level 6 does nothing. Otherwise it leaves `theta`
      congruent to where it was and adds at most `3 * 4^level` lines after
      the old ones (a level below 0 draws as level 0 does); with a length
      that is not a number it only turns, and neither moves nor draws. */
  lemma KochCommand(v: Variant, trig: Trig, p: Page3D, cmd: seq<string>)
    requires Reduced(p)
    requires NameOf(cmd) == KochName && IntArg(cmd, 1).Some?
    ensures var level, r := IntArg(cmd, 1).value, CmdStep(v, trig, p, cmd);
      r.Continue? &&
      (level > 6 ==> r.page == p) &&
      (level <= 6 ==>
         Congruent(r.page.turtle.theta, p.turtle.theta, 360) &&
         p.turtle.objects <= r.page.turtle.objects &&
         |r.page.turtle.objects| <= |p.turtle.objects| + 3 * Pow(4, if level < 0 then 0 else level) &&
         (IntArg(cmd, 2).None? ==> r.page.turtle.objects == p.turtle.objects && r.page.turtle.pos == p.turtle.pos))
  {
    DecodeKoch(v, cmd);
    ExecKoch(trig, p, IntArg(cmd, 1).value, IntDist(IntArg(cmd, 2)));
  }

  /** What `koch` does to a page. */
  lemma ExecKoch(trig: Trig, p: Page3D, level: int, side: Dist)
    requires Reduced(p)
    ensures var r := Exec(trig, p, KochFigure(level, side));
      r.Continue? &&
      (level > 6 ==> r.page == p) &&
      (level <= 6 ==>
         Congruent(r.page.turtle.theta, p.turtle.theta, 360) &&
         p.turtle.objects <= r.page.turtle.objects &&
         |r.page.turtle.objects| <= |p.turtle.objects| + 3 * Pow(4, if level < 0 then 0 else level) &&
         (side.None? ==> r.page.turtle.objects == p.turtle.objects && r.page.turtle.pos == p.turtle.pos))
  {
    if level <= 6 {
      var n: nat := if level < 0 then 0 else level;
      var t := p.turtle;
      var ops := Koch3DOps(level, side);
      assert ops == Koch3DOps(n, side);
      Koch3DFacts(n, side);
      RunHeading(trig, t, ops);
      RunObjects(trig, t, ops);
      CongruentTrans(Run(trig, t, ops).theta, t.theta + 360, t.theta, 360);
      if side.None? {
        Koch3DNaN(level);
        RunStill(trig, t, ops);
      }
    }
  }

  /** `sierp` leaves `theta` congruent to where it was and, for a level of
      `n >= 1`, draws at most `(3^(n+1) - 3) / 2` lines (none below 1);
      with a length that is not a number it draws nothing and ends where it
      started. */
  lemma SierpCommand(v: Variant, trig: Trig, p: Page3D, cmd: seq<string>)
    requires Reduced(p)
    requires NameOf(cmd) == SierpName && SierpStops(NumArg(cmd, 1))
    ensures var n, r := SierpLevels(NumArg(cmd, 1)), CmdStep(v, trig, p, cmd);
      r.Continue? &&
      Congruent(r.page.turtle.theta, p.turtle.theta, 360) &&
      p.turtle.objects <= r.page.turtle.objects &&
      (n < 1 ==> r.page.turtle.objects == p.turtle.objects) &&
      (n >= 1 ==> 2 * |r.page.turtle.objects| <= 2 * |p.turtle.objects| + Pow(3, n + 1) - 3) &&
      (!NumArg(cmd, 2).Finite? ==> r.page.turtle.objects == p.turtle.objects && r.page.turtle.pos == p.turtle.pos)
  {
    DecodeSierp(v, cmd);
    ExecSierp(trig, p, SierpLevels(NumArg(cmd, 1)), NumDist(NumArg(cmd, 2)));
  }

  /** What `sierp` does to a page. */
  lemma ExecSierp(trig: Trig, p: Page3D, n: int, len: Dist)
    requires Reduced(p)
    ensures var r := Exec(trig, p, SierpFigure(n, len));
      r.Continue? &&
      Congruent(r.page.turtle.theta, p.turtle.theta, 360) &&
      p.turtle.objects <= r.page.turtle.objects &&
      (n < 1 ==> r.page.turtle.objects == p.turtle.objects) &&
      (n >= 1 ==> 2 * |r.page.turtle.objects| <= 2 * |p.turtle.objects| + Pow(3, n + 1) - 3) &&
      (len.None? ==> r.page.turtle.objects == p.turtle.objects && r.page.turtle.pos == p.turtle.pos)
  {
    SierpRun(trig, p.turtle, n, len);
  }

  /** The turtle after the calls of `sierp`. */
  lemma SierpRun(trig: Trig, t: Turtle, n: int, len: Dist)
    requires -360 < t.theta < 360 && Render.AllEdgesInRange(t.objects)
    ensures var u := Run(trig, t, Sierp3DCommandOps(n, len));
      Congruent(u.theta, t.theta, 360) &&
      t.objects <= u.objects &&
      (n < 1 ==> u.objects == t.objects) &&
      (n >= 1 ==> 2 * |u.objects| <= 2 * |t.objects| + Pow(3, n + 1) - 3) &&
      (len.None? ==> u.objects == t.objects && u.pos == t.pos)
  {
    var ops := Sierp3DCommandOps(n, len);
    var u := Run(trig, t, ops);
    var inner := Sierp3DOps(n, len);
    assert CountFd(ops) == CountFd(inner) by {
      CountFdAppend([Rt(30)], inner);
      CountFdAppend([Rt(30)] + inner, [Lt(30)]);
    }
    RunObjects(trig, t, ops);
    assert Congruent(NetTurn(ops), 0, 360) by {
      if n >= 1 {
        Sierp3DCommandTurn(n, len);
      } else {
        assert inner == [];
        assert ops == [Rt(30), Lt(30)];
        assert NetTurn(ops[1..]) == -30 + NetTurn(ops[1..][1..]) == -30;
        assert NetTurn(ops) == 0;
      }
    }
    RunHeading(trig, t, ops);
    CongruentTrans(u.theta, t.theta + NetTurn(ops), t.theta, 360);
    if n >= 1 {
      Sierp3DCount(n, len);
    }
    if len.None? {
      Sierp3DNaN(n);
      RunStill(trig, t, ops);
    }
  }

  /** `sc` on the editor page always throws; on the presentation page it
      throws exactly for the five table names and otherwise changes
      nothing. */
  lemma ScCommand(v: Variant, trig: Trig, p: Page3D, cmd: seq<string>)
    requires NameOf(cmd) == ScName
    ensures CmdStep(v, trig, p, cmd) ==
      (if v == Editor || (|cmd| >= 2 && cmd[1] in {"black", "red", "green", "blue", "yellow"}) then Thrown else Continue(p))
  {
    assert Decode(v, cmd) == SetColor(Throws(v, cmd));
  }

  /** `cs` forgets everything but the pen and the line width: from any two
      pages that agree on those it leads to the same page, the one
      `initTurtle` sets up. */
  lemma CsResets(v: Variant, trig: Trig, p: Page3D, q: Page3D, cmd: seq<string>)
    requires NameOf(cmd) == CsName
    requires p.turtle.drawing == q.turtle.drawing && p.lineWidth == q.lineWidth
    ensures CmdStep(v, trig, p, cmd) == CmdStep(v, trig, q, cmd)
    ensures var r := CmdStep(v, trig, p, cmd);
      r.Continue? && r.page.turtle.objects == [] && r.page.turtle.pos == Origin &&
      r.page.turtle.theta == 0 && r.page.turtle.phi == 0 &&
      r.page.cumX == 0.0 && r.page.cumY == -90.0 && r.page.camera == InitCamera
  {
    assert Decode(v, cmd) == Clear;
  }

  /** A name that is not a command changes nothing. */
  lemma UnknownCommand(v: Variant, trig: Trig, p: Page3D, cmd: seq<string>)
    requires NameOf(cmd) == Unknown
    ensures CmdStep(v, trig, p, cmd) == Continue(p)
  {
    assert Decode(v, cmd) == Ignored;
  }

  /** Running a list of commands is running its parts in turn. */
  lemma {:induction false} RunCmdsAppend(v: Variant, trig: Trig, p: Page3D, a: seq<seq<string>>, b: seq<seq<string>>)
    ensures RunCmds(v, trig, p, a + b) ==
      match RunCmds(v, trig, p, a)
      case Continue(q) => RunCmds(v, trig, q, b)
      case other => other
    decreases |a|
  {
    if a == [] {
      assert a + b == b;
    } else {
      assert (a + b)[0] == a[0];
      assert (a + b)[1..] == a[1..] + b;
      match CmdStep(v, trig, p, a[0]) {
        case Continue(q) => RunCmdsAppend(v, trig, q, a[1..], b);
        case _ =>
      }
    }
  }

  /** One command that goes on, then the rest. */
  lemma RunCmdsCons(v: Variant, trig: Trig, p: Page3D, q: Page3D, cmd: seq<string>, rest: seq<seq<string>>)
    requires CmdStep(v, trig, p, cmd) == Continue(q)
    ensures RunCmds(v, trig, p, [cmd] + rest) == RunCmds(v, trig, q, rest)
  {
    assert ([cmd] + rest)[1..] == rest;
  }

  /** A command that throws ends the whole run. */
  lemma RunCmdsThrown(v: Variant, trig: Trig, p: Page3D, cmd: seq<string>, rest: seq<seq<string>>)
    requires CmdStep(v, trig, p, cmd) == Thrown
    ensures RunCmds(v, trig, p, [cmd] + rest) == Thrown
  {
    assert ([cmd] + rest)[0] == cmd;
  }

  // ------------------------------------------------------------ drawing

  /** The centre `update_graphics` rotates about. */
  const MapCenter: Vec3 := Origin

  /** The coefficients of `rotate` for the drag angles: `cummulativeX` is
      turned into radians with `PI / 360`, so it is worth half a degree per
      unit, and `cummulativeY` one degree per unit. */
  function DragCoeffs(trig: Trig, cumX: real, cumY: real): Coeffs {
    Coeffs(trig.cosDeg(cumX / 2.0), trig.sinDeg(cumX / 2.0), trig.cosDeg(cumY), trig.sinDeg(cumY))
  }

  /** Every object with every vertex rotated. */
  function RotateAll(objects: seq<Shape>, k: Coeffs): (r: seq<Shape>)
    ensures |r| == |objects|
    ensures forall i :: 0 <= i < |objects| ==> r[i] == RotateShape(objects[i], MapCenter, k)
    ensures Render.AllEdgesInRange(objects) ==> Render.AllEdgesInRange(r)
  {
    seq(|objects|, i requires 0 <= i < |objects| => RotateShape(objects[i], MapCenter, k))
  }

  /** The frame `update_graphics` draws for a page. */
  function Scene(trig: Trig, p: Page3D, dx: real, dy: real): seq<Render.Stroke>
    requires Render.AllEdgesInRange(p.turtle.objects)
  {
    Render.Frame(RotateAll(p.turtle.objects, DragCoeffs(trig, p.cumX, p.cumY)), p.camera, dx, dy)
  }

  /** `cummulativeX` after a press at `press` and the moves `moves` (the
      `clientX` of each event), as `move` accumulates it. */
  function DragX(cum: real, press: real, moves: seq<real>): real
    decreases |moves|
  {
    if moves == [] then cum else DragX(cum + (moves[0] - press), moves[0], moves[1..])
  }

  /** The accumulated differences telescope: over one press the total
      change is the last position minus the press position. */
  lemma {:induction false} DragTelescopes(cum: real, press: real, moves: seq<real>)
    requires moves != []
    ensures DragX(cum, press, moves) == cum + (moves[|moves| - 1] - press)
    decreases |moves|
  {
    if |moves| > 1 {
      DragTelescopes(cum + (moves[0] - press), moves[0], moves[1..]);
    }
  }

  /** A call other than a restoring block, issued after `a`. */
  lemma RunSnoc(trig: Trig, t: Turtle, a: seq<Op>, op: Op)
    requires !op.Restoring?
    ensures Run(trig, t, a + [op]) == Prim(trig, Run(trig, t, a), op)
  {
    RunAppend(trig, t, a, [op]);
    assert [op][1..] == [];
  }

  /** A call other than a restoring block, issued before `a`. */
  lemma RunCons(trig: Trig, t: Turtle, op: Op, a: seq<Op>)
    requires !op.Restoring?
    ensures Run(trig, t, [op] + a) == Run(trig, Prim(trig, t, op), a)
  {
    assert ([op] + a)[0] == op;
    assert ([op] + a)[1..] == a;
  }

  /** The states a level-`level` Koch curve passes through, four curves of
      the level below with the turns between them, make up one run of
      `KochLineOps(level, length)`. */
  lemma KochLineChain(trig: Trig, level: int, length: Dist,
                      t0: Turtle, t1: Turtle, t2: Turtle, t3: Turtle, t4: Turtle, t5: Turtle, t6: Turtle, t7: Turtle)
    requires level >= 1
    requires var sub := KochLineOps(level - 1, Div(length, 3.0));
      t1 == Run(trig, t0, sub) && t2 == Prim(trig, t1, Op.Lt(60)) &&
      t3 == Run(trig, t2, sub) && t4 == Prim(trig, t3, Op.Rt(120)) &&
      t5 == Run(trig, t4, sub) && t6 == Prim(trig, t5, Op.Lt(60)) &&
      t7 == Run(trig, t6, sub)
    ensures t7 == Run(trig, t0, KochLineOps(level, length))
  {
    var sub := KochLineOps(level - 1, Div(length, 3.0));
    RunSnoc(trig, t0, sub, Op.Lt(60));
    var p1 := sub + [Op.Lt(60)];
    RunAppend(trig, t0, p1, sub);
    RunSnoc(trig, t0, p1 + sub, Op.Rt(120));
    var p2 := p1 + sub + [Op.Rt(120)];
    RunAppend(trig, t0, p2, sub);
    RunSnoc(trig, t0, p2 + sub, Op.Lt(60));
    var p3 := p2 + sub + [Op.Lt(60)];
    RunAppend(trig, t0, p3, sub);
  }

  /** One round of the `sierp` loop: the sub-triangle, a forward move and
      a right turn of 120 degrees, after the rounds `before`. */
  lemma SierpRoundChain(trig: Trig, t0: Turtle, before: seq<Op>, sub: seq<Op>, length: Dist,
                        ta: Turtle, tb: Turtle, tc: Turtle, td: Turtle)
    requires ta == Run(trig, t0, before) && tb == Run(trig, ta, sub)
    requires tc == Prim(trig, tb, Op.Fd(length)) && td == Prim(trig, tc, Op.Rt(120))
    ensures td == Run(trig, t0, before + (sub + [Op.Fd(length), Op.Rt(120)]))
  {
    RunAppend(trig, t0, before, sub);
    RunSnoc(trig, t0, before + sub, Op.Fd(length));
    RunSnoc(trig, t0, before + sub + [Op.Fd(length)], Op.Rt(120));
    assert before + sub + [Op.Fd(length)] + [Op.Rt(120)] == before + (sub + [Op.Fd(length), Op.Rt(120)]);
  }

  /** The `sierp` command's states: 30 degrees right, the triangle, 30
      degrees left. */
  lemma SierpCmdChain(trig: Trig, level: int, length: Dist, t0: Turtle, t1: Turtle, t2: Turtle, t3: Turtle)
    requires t1 == Prim(trig, t0, Op.Rt(30)) && t2 == Run(trig, t1, Sierp3DOps(level, length))
    requires t3 == Prim(trig, t2, Op.Lt(30))
    ensures t3 == Run(trig, t0, Sierp3DCommandOps(level, length))
  {
    RunCons(trig, t0, Op.Rt(30), Sierp3DOps(level, length));
    RunSnoc(trig, t0, [Op.Rt(30)] + Sierp3DOps(level, length), Op.Lt(30));
  }

  // ------------------------------------------------------------ the page

  /** The globals of one page. The canvas is `frame`, the strokes the last
      `update_graphics()` drew. */
  class Turtle3DPage {
    const variant: Variant
    const trig: Trig
    const engine: Render.Engine

    var posX: real
    var posY: real
    var posZ: real
    var theta: int
    var phi: int
    var isDrawing: bool
    var objects: seq<Shape>
    var lineWidth: real
    var camera: Camera
    var cumulativeX: real
    var cumulativeY: real
    var mousedown: bool
    var mx: real
    var my: real
    var frame: seq<Render.Stroke>

    function TurtleState(): Turtle
      reads this
    {
      Turtle(Vec3(posX, posY, posZ), theta, phi, isDrawing, objects)
    }

    function PageState(): Page3D
      reads this
    {
      Page3D(TurtleState(), lineWidth, camera, cumulativeX, cumulativeY)
    }

    /** The headings are reduced, every object's edges index its vertices,
        and the canvas shows the current scene. */
    predicate Valid()
      reads this
    {
      Reduced(PageState()) && frame == Scene(trig, PageState(), engine.dx, engine.dy)
    }

    /** Loading the page: `initTurtle()` and a first `update_graphics()`,
        with the pen down and the canvas line width at its default of 1. */
    constructor(variant: Variant, trig: Trig, width: real, height: real)
      ensures Valid()
      ensures this.variant == variant && this.trig == trig
      ensures PageState() == AfterInit(Page3D(Turtle(Origin, 0, 0, true, []), 1.0, InitCamera, 0.0, 0.0))
      ensures !mousedown && mx == 0.0 && my == 0.0
    {
      this.variant := variant;
      this.trig := trig;
      engine := new Render.Engine(width, height);
      isDrawing := true;
      lineWidth := 1.0;
      mousedown := false;
      mx := 0.0;
      my := 0.0;
      new;
      InitTurtle();
      UpdateGraphics();
    }

    /** `initTurtle()`. */
    method InitTurtle()
      modifies this`camera, this`cumulativeX, this`cumulativeY, this`objects
      modifies this`posX, this`posY, this`posZ, this`theta, this`phi
      ensures PageState() == AfterInit(old(PageState()))
    {
      camera := InitCamera;
      cumulativeX := 0.0;
      cumulativeY := -90.0;
      objects := [];
      posX := (Bound + -Bound) / 2.0;
      posY := (Bound + -Bound) / 2.0;
      posZ := (Bound + -Bound) / 2.0;
      theta := 0;
      phi := 0;
    }

    /** `fd(value)`. */
    method Fd(value: real)
      modifies this`posX, this`posY, this`posZ, this`objects
      ensures TurtleState() == FdMove(trig, old(TurtleState()), value)
    {
      var st, ct := trig.sinDeg(theta as real), trig.cosDeg(theta as real);
      var sp, cp := trig.sinDeg(phi as real), trig.cosDeg(phi as real);
      var dx := value * st * cp;
      var dy := value * ct * cp;
      var dz := value * sp;
      var newX, newY, newZ := posX + dx, posY - dy, posZ + dz;
      assert Vec3(newX, newY, newZ) == Add(Vec3(posX, posY, posZ), Step(trig, theta, phi, value));
      if !InBox(Vec3(newX, newY, newZ)) {
        return;
      }
      if isDrawing {
        objects := objects + [Line(Vec3(posX, posY, posZ), Vec3(newX, newY, newZ), DefaultColor)];
      }
      posX, posY, posZ := newX, newY, newZ;
    }

    /** `bk(value)`. */
    method Bk(value: real)
      modifies this`posX, this`posY, this`posZ, this`objects
      ensures TurtleState() == BkMove(trig, old(TurtleState()), value)
    {
      var st, ct := trig.sinDeg(theta as real), trig.cosDeg(theta as real);
      var sp, cp := trig.sinDeg(phi as real), trig.cosDeg(phi as real);
      var dx := value * st * cp;
      var dy := value * ct * cp;
      var dz := value * sp;
      var newX, newY, newZ := posX - dx, posY + dy, posZ - dz;
      assert Vec3(newX, newY, newZ) == Sub(Vec3(posX, posY, posZ), Step(trig, theta, phi, value));
      if !InBox(Vec3(newX, newY, newZ)) {
        return;
      }
      if isDrawing {
        objects := objects + [Line(Vec3(posX, posY, posZ), Vec3(newX, newY, newZ), DefaultColor)];
      }
      posX, posY, posZ := newX, newY, newZ;
    }

    method Lt(value: int)
      modifies this`theta
      ensures TurtleState() == Prim(trig, old(TurtleState()), Op.Lt(value))
    {
      theta := TruncRem(theta - value, 360);
    }

    method Rt(value: int)
      modifies this`theta
      ensures TurtleState() == Prim(trig, old(TurtleState()), Op.Rt(value))
    {
      theta := TruncRem(theta + value, 360);
    }

    method Ut(value: int)
      modifies this`phi
      ensures TurtleState() == Tilted(old(TurtleState()), true, value)
    {
      phi := TruncRem(phi + value, 180);
    }

    method Dt(value: int)
      modifies this`phi
      ensures TurtleState() == Tilted(old(TurtleState()), false, value)
    {
      phi := TruncRem(phi - value, 180);
    }

    method Pu()
      modifies this`isDrawing
      ensures TurtleState() == Prim(trig, old(TurtleState()), PenUp)
    {
      isDrawing := false;
    }

    method Pd()
      modifies this`isDrawing
      ensures TurtleState() == Prim(trig, old(TurtleState()), PenDown)
    {
      isDrawing := true;
    }

    /** `koch_line(level, length)`. */
    method KochLine(level: int, length: Dist)
      modifies this`posX, this`posY, this`posZ, this`objects, this`theta
      ensures TurtleState() == Run(trig, old(TurtleState()), KochLineOps(level, length))
      decreases if level < 1 then 0 else level
    {
      ghost var t0 := TurtleState();
      if level < 1 {
        if length.Some? {
          Fd(length.value);
        }
        RunSnoc(trig, t0, [], Op.Fd(length));
        assert [] + [Op.Fd(length)] == [Op.Fd(length)];
      } else {
        KochLine(level - 1, Div(length, 3.0));
        ghost var t1 := TurtleState();
        Lt(60);
        ghost var t2 := TurtleState();
        KochLine(level - 1, Div(length, 3.0));
        ghost var t3 := TurtleState();
        Rt(120);
        ghost var t4 := TurtleState();
        KochLine(level - 1, Div(length, 3.0));
        ghost var t5 := TurtleState();
        Lt(60);
        ghost var t6 := TurtleState();
        KochLine(level - 1, Div(length, 3.0));
        KochLineChain(trig, level, length, t0, t1, t2, t3, t4, t5, t6, TurtleState());
      }
    }

    /** `koch(level, length)`. */
    method Koch(level: int, length: Dist)
      modifies this`posX, this`posY, this`posZ, this`objects, this`theta
      ensures TurtleState() == Run(trig, old(TurtleState()), Koch3DOps(level, length))
    {
      ghost var t0 := TurtleState();
      ghost var side := KochLineOps(level, length);
      Rt(30);
      RunSnoc(trig, t0, [], Op.Rt(30));
      assert [] + [Op.Rt(30)] == [Op.Rt(30)];
      KochLine(level, length);
      RunAppend(trig, t0, [Op.Rt(30)], side);
      Rt(120);
      RunSnoc(trig, t0, [Op.Rt(30)] + side, Op.Rt(120));
      KochLine(level, length);
      RunAppend(trig, t0, [Op.Rt(30)] + side + [Op.Rt(120)], side);
      Rt(120);
      RunSnoc(trig, t0, [Op.Rt(30)] + side + [Op.Rt(120)] + side, Op.Rt(120));
      KochLine(level, length);
      RunAppend(trig, t0, [Op.Rt(30)] + side + [Op.Rt(120)] + side + [Op.Rt(120)], side);
      Rt(120);
      RunSnoc(trig, t0, [Op.Rt(30)] + side + [Op.Rt(120)] + side + [Op.Rt(120)] + side, Op.Rt(120));
      Lt(30);
      RunSnoc(trig, t0, [Op.Rt(30)] + side + [Op.Rt(120)] + side + [Op.Rt(120)] + side + [Op.Rt(120)], Op.Lt(30));
      assert [Op.Rt(30)] + side + [Op.Rt(120)] + side + [Op.Rt(120)] + side + [Op.Rt(120)] + [Op.Lt(30)]
          == Koch3DOps(level, length);
    }

    /** `sierp(level, length)`, for a level already cut down to the whole
        number of rounds it recurses through (see `SierpLevels`). */
    method Sierp(level: int, length: Dist)
      modifies this`posX, this`posY, this`posZ, this`objects, this`theta
      ensures TurtleState() == Run(trig, old(TurtleState()), Sierp3DOps(level, length))
      decreases if level < 1 then 0 else level
    {
      if level < 1 {
        return;
      }
      ghost var t0 := TurtleState();
      ghost var sub := Sierp3DOps(level - 1, Div(length, 2.0));
      ghost var round := sub + [Op.Fd(length), Op.Rt(120)];
      var i := 0;
      while i < 3
        invariant 0 <= i <= 3
        invariant TurtleState() == Run(trig, t0, Times(round, i))
      {
        ghost var ta := TurtleState();
        Sierp(level - 1, Div(length, 2.0));
        ghost var tb := TurtleState();
        if length.Some? {
          Fd(length.value);
        }
        ghost var tc := TurtleState();
        Rt(120);
        SierpRoundChain(trig, t0, Times(round, i), sub, length, ta, tb, tc, TurtleState());
        i := i + 1;
      }
    }

    /** `update_graphics()`: the objects are copied, every vertex of the copy
        is rotated by the drag angles, and the engine draws the copy; the
        stored objects are left as they were. */
    method UpdateGraphics()
      requires Reduced(PageState())
      modifies this`frame
      ensures frame == Scene(trig, PageState(), engine.dx, engine.dy)
    {
      var k := DragCoeffs(trig, cumulativeX, cumulativeY);
      var rotated := objects;
      var i := 0;
      while i < |rotated|
        invariant 0 <= i <= |rotated| == |objects|
        invariant forall j :: 0 <= j < i ==> rotated[j] == RotateShape(objects[j], MapCenter, k)
        invariant forall j :: i <= j < |rotated| ==> rotated[j] == objects[j]
      {
        var obj := rotated[i];
        var vs := obj.vertices;
        var v := 0;
        while v < |vs|
          invariant 0 <= v <= |vs| == |obj.vertices|
          invariant forall w :: 0 <= w < v ==> vs[w] == Rotate(obj.vertices[w], MapCenter, k)
          invariant forall w :: v <= w < |vs| ==> vs[w] == obj.vertices[w]
        {
          vs := vs[v := Rotate(vs[v], MapCenter, k)];
          v := v + 1;
        }
        rotated := rotated[i := obj.(vertices := vs)];
        i := i + 1;
      }
      assert rotated == RotateAll(objects, k);
      frame := engine.Render(rotated, camera);
    }

    /** `runCmd(cmd)`: one command, then `update_graphics()`; a thrown
        exception skips the redraw and leaves everything as it was. */
    method RunCmd(cmd: seq<string>) returns (thrown: bool)
      requires Valid() && ArgsOk(cmd)
      modifies this`posX, this`posY, this`posZ, this`theta, this`phi, this`isDrawing, this`objects
      modifies this`lineWidth, this`camera, this`cumulativeX, this`cumulativeY, this`frame
      ensures Valid()
      ensures thrown ==> PageState() == old(PageState()) && frame == old(frame)
      ensures CmdStep(variant, trig, old(PageState()), cmd) == (if thrown then Thrown else Continue(PageState()))
    {
      ghost var p0 := PageState();
      var c := Decode(variant, cmd);
      thrown := Switch(c);
      if thrown {
        return;
      }
      ExecReduced(trig, p0, c);
      UpdateGraphics();
    }

    /** The `switch` of `runCmd`, on the branch and arguments `Decode`
        reads from the tokens; `sc` may throw out of it. */
    method Switch(c: Command) returns (thrown: bool)
      modifies this`posX, this`posY, this`posZ, this`theta, this`phi, this`isDrawing, this`objects
      modifies this`lineWidth, this`camera, this`cumulativeX, this`cumulativeY
      ensures thrown ==> PageState() == old(PageState())
      ensures Exec(trig, old(PageState()), c) == (if thrown then Thrown else Continue(PageState()))
    {
      thrown := false;
      match c {
        case Move(_, _) => TurtleCase(c);
        case Turn(_, _) => TurtleCase(c);
        case Tilt(_, _) => TurtleCase(c);
        case Pen(_) => TurtleCase(c);
        case KochFigure(_, _) => FigureCase(c);
        case SierpFigure(_, _) => FigureCase(c);
        case SetColor(throws) =>
          thrown := throws;
        case SetWidth(thickness) =>
          if thickness.Finite? && 1.0 <= thickness.value <= 6.0 {
            lineWidth := thickness.value;
          }
        case Clear => InitTurtle();
        case Ignored =>
      }
    }

    /** The cases of the `switch` that call one turtle primitive; `fd` and
        `bk` with a number that does not parse move nowhere. */
    method TurtleCase(c: Command)
      requires c.Move? || c.Turn? || c.Tilt? || c.Pen?
      modifies this`posX, this`posY, this`posZ, this`theta, this`phi, this`isDrawing, this`objects
      ensures Exec(trig, old(PageState()), c) == Continue(PageState())
    {
      match c {
        case Move(forward, d) =>
          if d.Some? {
            if forward {
              Fd(d.value as real);
            } else {
              Bk(d.value as real);
            }
          }
        case Turn(right, angle) =>
          if right {
            Rt(angle);
          } else {
            Lt(angle);
          }
        case Tilt(up, angle) =>
          if up {
            Ut(angle);
          } else {
            Dt(angle);
          }
        case Pen(down) =>
          if down {
            Pd();
          } else {
            Pu();
          }
      }
    }

    /** The `koch` and `sierp` cases of the `switch`. */
    method FigureCase(c: Command)
      requires c.KochFigure? || c.SierpFigure?
      modifies this`posX, this`posY, this`posZ, this`theta, this`objects
      ensures Exec(trig, old(PageState()), c) == Continue(PageState())
    {
      match c {
        case KochFigure(level, length) =>
          if level <= 6 {
            Koch(level, length);
          }
        case SierpFigure(level, length) =>
          ghost var t0 := TurtleState();
          Rt(30);
          ghost var t1 := TurtleState();
          Sierp(level, length);
          ghost var t2 := TurtleState();
          Lt(30);
          SierpCmdChain(trig, level, length, t0, t1, t2, TurtleState());
      }
    }

    /** `readInput()` on the text of the command box: the statements are
        scanned as `Dispatched` describes (the scan resumes at a block's
        `end`, which is then run as a command of its own) and every command
        goes through `runCmd`; an exception leaves the scan at once. */
    method ReadInput(input: string) returns (thrown: bool)
      requires Valid()
      requires WellFormed(Statements(input), 0, AtEnd)
      requires AllArgsOk(Statements(input))
      modifies this`posX, this`posY, this`posZ, this`theta, this`phi, this`isDrawing, this`objects
      modifies this`lineWidth, this`camera, this`cumulativeX, this`cumulativeY, this`frame
      ensures Valid()
      ensures RunCmds(variant, trig, old(PageState()), Dispatched(Statements(input), 0, AtEnd)) ==
        (if thrown then Thrown else Continue(PageState()))
    {
      var stmts := Statements(input);
      ghost var goal := RunCmds(variant, trig, PageState(), Dispatched(stmts, 0, AtEnd));
      thrown := false;
      var i := 0;
      while i < |stmts|
        invariant Valid()
        invariant WellFormed(stmts, i, AtEnd)
        invariant RunCmds(variant, trig, PageState(), Dispatched(stmts, i, AtEnd)) == goal
        decreases |stmts| - i
      {
        if IsRepeat(stmts[i]) {
          DispatchedRepeat(stmts, i, AtEnd);
          var loopStart := i + 1;
          var value := RepeatCount(stmts[i]);
          thrown, i := RunRepeat(stmts, loopStart, value, Dispatched(stmts, FindEnd(stmts, loopStart), AtEnd), goal);
          if thrown {
            return;
          }
        } else {
          thrown := Dispatch(stmts[i].tokens, Dispatched(stmts, i + 1, AtEnd), goal);
          if thrown {
            return;
          }
          i := i + 1;
        }
      }
    }

    /** One command handed to `runCmd` in the middle of a run: either it
        throws and so does the whole run, or the rest of the run is left. */
    method Dispatch(cmd: seq<string>, ghost rest: seq<seq<string>>, ghost goal: Outcome) returns (thrown: bool)
      requires Valid() && ArgsOk(cmd)
      requires RunCmds(variant, trig, PageState(), [cmd] + rest) == goal
      modifies this`posX, this`posY, this`posZ, this`theta, this`phi, this`isDrawing, this`objects
      modifies this`lineWidth, this`camera, this`cumulativeX, this`cumulativeY, this`frame
      ensures Valid()
      ensures thrown ==> goal == Thrown
      ensures !thrown ==> RunCmds(variant, trig, PageState(), rest) == goal
    {
      ghost var p0 := PageState();
      thrown := RunCmd(cmd);
      if thrown {
        RunCmdsThrown(variant, trig, p0, cmd, rest);
      } else {
        RunCmdsCons(variant, trig, p0, PageState(), cmd, rest);
      }
    }

    /** The `for` loop of the `repeat` branch of `readInput()`: the block
        body starting at `loopStart` is run `value` times, and `k` ends at
        the block's `end`. */
    method RunRepeat(stmts: seq<Stmt>, loopStart: nat, value: nat, ghost rest: seq<seq<string>>, ghost goal: Outcome)
      returns (thrown: bool, k: nat)
      requires Valid() && value >= 1
      requires HasEnd(stmts, loopStart) && AllArgsOk(stmts)
      requires RunCmds(variant, trig, PageState(), Repeat(Body(stmts, loopStart, FindEnd(stmts, loopStart)), value) + rest) == goal
      modifies this`posX, this`posY, this`posZ, this`theta, this`phi, this`isDrawing, this`objects
      modifies this`lineWidth, this`camera, this`cumulativeX, this`cumulativeY, this`frame
      ensures Valid()
      ensures thrown ==> goal == Thrown
      ensures !thrown ==> (k == FindEnd(stmts, loopStart) && RunCmds(variant, trig, PageState(), rest) == goal)
    {
      k := loopStart;
      thrown := false;
      var j := 0;
      ghost var left: nat := value;
      while j < value
        invariant 0 <= j <= value && left == value - j
        invariant Valid()
        invariant j > 0 ==> k == FindEnd(stmts, loopStart)
        invariant RunCmds(variant, trig, PageState(), Repeat(Body(stmts, loopStart, FindEnd(stmts, loopStart)), left) + rest) == goal
      {
        thrown, k, left := RunPass(stmts, loopStart, left, rest, goal);
        if thrown {
          return;
        }
        j := j + 1;
      }
      assert left == 0;
      RepeatZero(Body(stmts, loopStart, FindEnd(stmts, loopStart)), rest);
    }

    /** One turn of the `for` loop of a `repeat` with `left` turns to go. */
    method RunPass(stmts: seq<Stmt>, loopStart: nat, ghost left: nat, ghost rest: seq<seq<string>>, ghost goal: Outcome)
      returns (thrown: bool, k: nat, ghost left': nat)
      requires Valid() && left >= 1
      requires HasEnd(stmts, loopStart) && AllArgsOk(stmts)
      requires RunCmds(variant, trig, PageState(), Repeat(Body(stmts, loopStart, FindEnd(stmts, loopStart)), left) + rest) == goal
      modifies this`posX, this`posY, this`posZ, this`theta, this`phi, this`isDrawing, this`objects
      modifies this`lineWidth, this`camera, this`cumulativeX, this`cumulativeY, this`frame
      ensures Valid() && left' == left - 1
      ensures thrown ==> goal == Thrown
      ensures !thrown ==> (k == FindEnd(stmts, loopStart) &&
        RunCmds(variant, trig, PageState(), Repeat(Body(stmts, loopStart, FindEnd(stmts, loopStart)), left') + rest) == goal)
    {
      left' := left - 1;
      RepeatUnfold(Body(stmts, loopStart, FindEnd(stmts, loopStart)), left, left', rest);
      thrown, k := RunBody(stmts, loopStart, Repeat(Body(stmts, loopStart, FindEnd(stmts, loopStart)), left') + rest, goal);
    }

    /** One pass of the `while` inside a `repeat`: the statements from
        `loopStart` up to the next `end` go through `runCmd`, and `k` stops
        at that `end`. */
    method RunBody(stmts: seq<Stmt>, loopStart: nat, ghost tail: seq<seq<string>>, ghost goal: Outcome)
      returns (thrown: bool, k: nat)
      requires Valid()
      requires HasEnd(stmts, loopStart)
      requires AllArgsOk(stmts)
      requires RunCmds(variant, trig, PageState(), Body(stmts, loopStart, FindEnd(stmts, loopStart)) + tail) == goal
      modifies this`posX, this`posY, this`posZ, this`theta, this`phi, this`isDrawing, this`objects
      modifies this`lineWidth, this`camera, this`cumulativeX, this`cumulativeY, this`frame
      ensures Valid()
      ensures thrown ==> goal == Thrown
      ensures !thrown ==> (k == FindEnd(stmts, loopStart) && RunCmds(variant, trig, PageState(), tail) == goal)
    {
      ghost var e := FindEnd(stmts, loopStart);
      thrown := false;
      k := loopStart;
      while !stmts[k].isEnd
        invariant loopStart <= k <= e
        invariant Valid()
        invariant RunCmds(variant, trig, PageState(), Body(stmts, k, e) + tail) == goal
        decreases e - k
      {
        if k == e {
          assert false;
        }
        BodyCons(stmts, k, e, tail);
        thrown := Dispatch(stmts[k].tokens, Body(stmts, k + 1, e) + tail, goal);
        if thrown {
          return;
        }
        k := k + 1;
      }
      if k < e {
        FindEndFirst(stmts, loopStart, k);
      }
      assert Body(stmts, k, e) + tail == tail;
    }

    /** `initMove(evt)`: a press starts a drag at the pointer. */
    method InitMove(clientX: real, clientY: real)
      modifies this`mousedown, this`mx, this`my
      ensures mousedown && mx == clientX && my == clientY
    {
      mousedown := true;
      mx := clientX;
      my := clientY;
    }

    /** `move(evt)`: while pressed, the drag angles grow by the pointer's
        travel since the last event and the scene is redrawn, so
        `cummulativeX - mx` stays what the press made it; without a press
        nothing happens. */
    method Move(clientX: real, clientY: real)
      requires Valid()
      modifies this`cumulativeX, this`cumulativeY, this`frame, this`mx, this`my
      ensures Valid()
      ensures old(mousedown) ==>
        cumulativeX == DragX(old(cumulativeX), old(mx), [clientX]) && mx == clientX && my == clientY &&
        cumulativeX - mx == old(cumulativeX - mx) && cumulativeY - my == old(cumulativeY - my)
      ensures !old(mousedown) ==> unchanged(this)
    {
      if mousedown {
        cumulativeX := cumulativeX + (clientX - mx);
        cumulativeY := cumulativeY + (clientY - my);
        UpdateGraphics();
        mx := clientX;
        my := clientY;
      }
    }

    /** `stopMove()`. */
    method StopMove()
      modifies this`mousedown
      ensures !mousedown
    {
      mousedown := false;
    }
  }


}
