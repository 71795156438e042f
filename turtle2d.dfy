/** The 2D turtles of `turtle.js` and `turtle_pres.js` (drawing on a canvas)
    and of `svg.js` (appending `<line>` elements to an SVG picture). All three
    keep a position in pixels, a heading `angle` in whole degrees and a pen
    flag; a move whose target leaves the open drawing surface is dropped.
    What the canvas or the picture receives is kept as a trace of `Draw`
    records. The state is given as values (`Turtle`, `Page2D`) with
    `Run`/`RunCmds` as their meaning; the class `Turtle2DPage` holds the
    page's globals and its methods are proved to do what those functions
    say. */
module Turtle2D {
  import opened Text
  import opened Angles
  import opened TurtleOps
  import opened Fractals
  import opened Script

  /** The three pages: `turtle.js`, `turtle_pres.js` and `svg.js`. */
  datatype Variant = CanvasEditor | CanvasPresentation | SvgEditor

  /** `maxX - minX` (and `maxY - minY`): the board is 1000 units across on
      the canvas pages and 500 on the svg page. */
  function Extent(v: Variant): real {
    if v == SvgEditor then 500.0 else 1000.0
  }

  /** The drawing surface: the canvas's size, or `maxX` by `maxY` (500 by
      500) for the svg picture. */
  datatype Board = Board(width: real, height: real)

  /** What stays fixed while a page is open: which page it is, the
      trigonometry, and the drawing surface. */
  datatype Env = Env(variant: Variant, trig: Trig, board: Board)

  /** `rx`: board units to pixels. */
  function Rx(e: Env, x: real): real {
    x / Extent(e.variant) * e.board.width
  }

  /** `ry` scales by the surface's width as well, not its height. */
  function Ry(e: Env, y: real): real {
    y / Extent(e.variant) * e.board.width
  }

  datatype Point = Point(x: real, y: real)

  /** `coordsValidation`: strictly inside the surface on all four sides. */
  predicate InBox(e: Env, p: Point) {
    0.0 < p.x < e.board.width && 0.0 < p.y < e.board.height
  }

  /** Where `initTurtle` puts the turtle: the middle of the board, that is
      `(extent / 2) / extent` of the surface's width and height. */
  function InitPos(e: Env): Point {
    Point(e.board.width / 2.0, e.board.height / 2.0)
  }

  /** The canvas's `strokeStyle` and `lineWidth`, or the svg page's
      `trackColor` and `trackWidth`. `ss` stores the argument as it was
      typed, so both are kept as strings. */
  datatype Style = Style(color: string, width: string)

  /** The style a page starts with: the canvas defaults, or the svg page's
      `"black"` and `2`. */
  function InitStyle(v: Variant): Style {
    if v == SvgEditor then Style("black", "2") else Style("#000000", "1")
  }

  /** What the surface receives: a stroked canvas segment
      (`beginPath`/`moveTo`/`lineTo`/`stroke`), a bare canvas `moveTo`, or
      an svg `<line>` element. */
  datatype Draw =
    | Stroke(from: Point, to: Point, style: Style)
    | MoveTo(to: Point)
    | SvgLine(from: Point, to: Point, style: Style)

  datatype Turtle = Turtle(pos: Point, angle: int, penUp: bool, trace: seq<Draw>)

  /** `(dx, dy)` of a move by `value`: `rx(value) sin(angle)` and
      `ry(value) cos(angle)`. */
  function Delta(e: Env, angle: int, value: real): Point {
    Point(Rx(e, value) * e.trig.sinDeg(angle as real), Ry(e, value) * e.trig.cosDeg(angle as real))
  }

  /** `fd` adds `dx` and subtracts `dy` (the y axis points down). */
  function FdTarget(e: Env, t: Turtle, value: real): Point {
    var d := Delta(e, t.angle, value);
    Point(t.pos.x + d.x, t.pos.y - d.y)
  }

  /** `bk` does the opposite. */
  function BkTarget(e: Env, t: Turtle, value: real): Point {
    var d := Delta(e, t.angle, value);
    Point(t.pos.x - d.x, t.pos.y + d.y)
  }

  /** The record an in-box move from `from` to `to` leaves. */
  function Mark(e: Env, s: Style, from: Point, to: Point, penUp: bool): seq<Draw> {
    if !penUp then [if e.variant == SvgEditor then SvgLine(from, to, s) else Stroke(from, to, s)]
    else if e.variant == SvgEditor then []
    else [MoveTo(to)]
  }

  /** The common tail of `fd` and `bk`. */
  function Go(e: Env, s: Style, t: Turtle, target: Point): (r: Turtle)
    ensures !InBox(e, target) ==> r == t
    ensures InBox(e, target) ==> r.pos == target && t.trace <= r.trace && |r.trace| <= |t.trace| + 1
    ensures r.angle == t.angle && r.penUp == t.penUp
  {
    if !InBox(e, target) then t
    else t.(pos := target, trace := t.trace + Mark(e, s, t.pos, target, t.penUp))
  }

  /** An in-box move leaves exactly one record from the old to the new
      position with the current style when the pen is down; with the pen up
      a canvas only moves its path to the target and the svg picture gets
      nothing. */
  lemma MoveRecords(e: Env, s: Style, t: Turtle, target: Point)
    requires InBox(e, target)
    ensures var r := Go(e, s, t, target);
      (!t.penUp && e.variant != SvgEditor ==> r.trace == t.trace + [Stroke(t.pos, target, s)]) &&
      (!t.penUp && e.variant == SvgEditor ==> r.trace == t.trace + [SvgLine(t.pos, target, s)]) &&
      (t.penUp && e.variant != SvgEditor ==> r.trace == t.trace + [MoveTo(target)]) &&
      (t.penUp && e.variant == SvgEditor ==> r.trace == t.trace)
  {
  }

  /** `fd(v)` then `bk(v)`, both inside the surface, puts the turtle back
      where it started. */
  lemma FdBkInverse(e: Env, s: Style, t: Turtle, value: real)
    requires InBox(e, FdTarget(e, t, value)) && InBox(e, t.pos)
    ensures var u := Go(e, s, t, FdTarget(e, t, value));
      Go(e, s, u, BkTarget(e, u, value)).pos == t.pos &&
      Go(e, s, u, BkTarget(e, u, value)).angle == t.angle
  {
    var u := Go(e, s, t, FdTarget(e, t, value));
    assert BkTarget(e, u, value) == t.pos;
  }

  /** One call other than a restoring block. */
  function Prim(e: Env, s: Style, t: Turtle, op: Op): Turtle {
    match op
    case Fd(d) => if d.Some? then Go(e, s, t, FdTarget(e, t, d.value)) else t
    case Lt(a) => t.(angle := TruncRem(t.angle - a, 360))
    case Rt(a) => t.(angle := TruncRem(t.angle + a, 360))
    case PenUp => t.(penUp := true)
    case PenDown => t.(penUp := false)
    case Restoring(_) => t
  }

  /** The turtle after the calls `ops`. A restoring block is `sierp`'s
      save of `posX`, `posY` and `angle` into locals and their assignment
      back after the recursive call: the pen and the trace are not put
      back. */
  function Run(e: Env, s: Style, t: Turtle, ops: seq<Op>): Turtle
    decreases ops
  {
    if ops == [] then t
    else
      var next :=
        match ops[0]
        case Restoring(b) =>
          var r := Run(e, s, t, b);
          r.(pos := t.pos, angle := t.angle)
        case _ => Prim(e, s, t, ops[0]);
      Run(e, s, next, ops[1..])
  }

  lemma {:induction false} RunAppend(e: Env, s: Style, t: Turtle, a: seq<Op>, b: seq<Op>)
    ensures Run(e, s, t, a + b) == Run(e, s, Run(e, s, t, a), b)
    decreases a
  {
    if a != [] {
      assert (a + b)[0] == a[0];
      assert (a + b)[1..] == a[1..] + b;
      var next :=
        match a[0]
        case Restoring(body) =>
          var r := Run(e, s, t, body);
          r.(pos := t.pos, angle := t.angle)
        case _ => Prim(e, s, t, a[0]);
      RunAppend(e, s, next, a[1..], b);
    } else {
      assert a + b == b;
    }
  }

  lemma RunSnoc(e: Env, s: Style, t: Turtle, a: seq<Op>, op: Op)
    requires !op.Restoring?
    ensures Run(e, s, t, a + [op]) == Prim(e, s, Run(e, s, t, a), op)
  {
    RunAppend(e, s, t, a, [op]);
    assert [op][1..] == [];
  }

  /** A restoring block puts position and heading back and keeps the pen
      and the records its body left. */
  lemma RunRestoring(e: Env, s: Style, t: Turtle, a: seq<Op>, body: seq<Op>)
    ensures var before := Run(e, s, t, a);
      Run(e, s, t, a + [Restoring(body)]) == Run(e, s, before, body).(pos := before.pos, angle := before.angle)
  {
    RunAppend(e, s, t, a, [Restoring(body)]);
    assert [Restoring(body)][1..] == [];
  }

  /** The heading stays reduced below a full turn and congruent to the
      start plus the net right turn. */
  lemma {:induction false} RunHeading(e: Env, s: Style, t: Turtle, ops: seq<Op>)
    requires -360 < t.angle < 360
    ensures -360 < Run(e, s, t, ops).angle < 360
    ensures Congruent(Run(e, s, t, ops).angle, t.angle + NetTurn(ops), 360)
    decreases ops
  {
    if ops == [] {
      assert Congruent(t.angle, t.angle + 0, 360);
    } else {
      var op := ops[0];
      var rest := NetTurn(ops[1..]);
      match op {
        case Restoring(b) =>
          var next := Run(e, s, t, b).(pos := t.pos, angle := t.angle);
          RunHeading(e, s, next, ops[1..]);
        case Rt(a) =>
          var next := Prim(e, s, t, op);
          RunHeading(e, s, next, ops[1..]);
          TurnHeading(t.angle, a, next.angle, Run(e, s, t, ops).angle, rest);
        case Lt(a) =>
          var next := Prim(e, s, t, op);
          RunHeading(e, s, next, ops[1..]);
          TurnHeading(t.angle, -a, next.angle, Run(e, s, t, ops).angle, rest);
        case _ =>
          RunHeading(e, s, Prim(e, s, t, op), ops[1..]);
      }
    }
  }

  /** Records are only ever added, at most one per forward move. */
  lemma {:induction false} RunTrace(e: Env, s: Style, t: Turtle, ops: seq<Op>)
    ensures t.trace <= Run(e, s, t, ops).trace
    ensures |Run(e, s, t, ops).trace| <= |t.trace| + CountFd(ops)
    decreases ops
  {
    if ops != [] {
      match ops[0] {
        case Restoring(b) =>
          RunTrace(e, s, t, b);
          var next := Run(e, s, t, b).(pos := t.pos, angle := t.angle);
          RunTrace(e, s, next, ops[1..]);
        case _ =>
          RunTrace(e, s, Prim(e, s, t, ops[0]), ops[1..]);
      }
    }
  }

  /** The pen ends as `PenUpAfter` says. */
  lemma {:induction false} RunPen(e: Env, s: Style, t: Turtle, ops: seq<Op>)
    ensures Run(e, s, t, ops).penUp == PenUpAfter(ops, t.penUp)
    decreases ops
  {
    if ops != [] {
      match ops[0] {
        case Restoring(b) =>
          RunPen(e, s, t, b);
          var next := Run(e, s, t, b).(pos := t.pos, angle := t.angle);
          RunPen(e, s, next, ops[1..]);
        case _ =>
          RunPen(e, s, Prim(e, s, t, ops[0]), ops[1..]);
      }
    }
  }

  /** Calls whose every forward move is by a non-number leave the
      position and the trace as they were. */
  lemma {:induction false} RunStill(e: Env, s: Style, t: Turtle, ops: seq<Op>)
    requires AllFd(ops, None)
    ensures Run(e, s, t, ops).pos == t.pos && Run(e, s, t, ops).trace == t.trace
    decreases ops
  {
    if ops != [] {
      match ops[0] {
        case Restoring(b) =>
          RunStill(e, s, t, b);
          var next := Run(e, s, t, b).(pos := t.pos, angle := t.angle);
          RunStill(e, s, next, ops[1..]);
        case _ =>
          RunStill(e, s, Prim(e, s, t, ops[0]), ops[1..]);
      }
    }
  }

  // ---------------------------------------------------------- the page

  datatype Page2D = Page2D(turtle: Turtle, style: Style)

  /** What one command leads to: the next page, or an argument the model
      does not cover (see `ArgsOk`). */
  datatype Outcome = Continue(page: Page2D) | Outside

  /** The names `runCmd` switches on; the presentation page has no `sierp`
      case, so there the name reaches `default`. */
  datatype Name = FdName | BkName | RtName | LtName | PuName | PdName
                | KochName | SierpName | ScName | SsName | Unknown

  function NameOf(v: Variant, cmd: seq<string>): Name {
    if cmd == [] then Unknown
    else
      var s := cmd[0];
      if s == "fd" then FdName else if s == "bk" then BkName
      else if s == "rt" then RtName else if s == "lt" then LtName
      else if s == "pu" then PuName else if s == "pd" then PdName
      else if s == "koch" then KochName
      else if s == "sierp" && v != CanvasPresentation then SierpName
      else if s == "sc" then ScName else if s == "ss" then SsName
      else Unknown
  }

  /** How many levels `sierp` draws for its raw level argument, which it
      tests with `!level` before turning it into a number with `level - 1`.
      An absent or empty argument is falsy and draws nothing. Any other
      string is truthy, so the outer call draws, and its recursive calls
      get `level - 1`: for a level that is not a number that is `NaN`,
      falsy, so exactly one level is drawn; a whole number `n >= 1`
      counts down to 0 and draws `n` levels. Any other level is `None`:
      "0", a negative, a fractional number or an infinity never reaches 0,
      and only the exhausted call stack ends the recursion (see
      `DepthRuns`). */
  function SierpDepth(arg: Option<string>): (n: Option<nat>)
    ensures arg == None || arg == Some("") ==> n == Some(0)
    ensures arg.Some? && arg.value != "" ==> n == DepthOf(ToNumber(arg.value))
  {
    match arg
    case None => Some(0)
    case Some(s) => if s == "" then Some(0) else DepthOf(ToNumber(s))
  }

  /** The levels drawn for a truthy level whose `Number` value is `v`. */
  function DepthOf(v: Num): (n: Option<nat>)
    ensures v.NaN? ==> n == Some(1)
    ensures v.Finite? && v.value >= 1.0 && v.value.Floor as real == v.value ==> n == Some(v.value.Floor)
    ensures n.Some? && n.value >= 2 ==> v == Finite(n.value as real)
  {
    match v
    case Finite(r) => if r >= 1.0 && r.Floor as real == r then Some(r.Floor) else None
    case Infinite(_) => None
    case NaN => Some(1)
  }

  /** `level - k` for a level JavaScript has turned into a number. */
  function Minus(n: Num, k: nat): Num {
    match n
    case Finite(r) => Finite(r - k as real)
    case _ => n
  }

  /** The numbers `!level` is true for. */
  predicate Falsy(n: Num) {
    n.NaN? || n == Finite(0.0)
  }

  /** A truthy level whose `Number` value is `v` and for which `DepthOf`
      gives `d`: the calls one to `d - 1` levels down are truthy and draw,
      the calls `d` levels down are falsy and return. */
  lemma DepthStops(v: Num)
    requires DepthOf(v).Some?
    ensures var d := DepthOf(v).value;
      d >= 1 && Falsy(Minus(v, d)) &&
      forall k :: 1 <= k < d ==> !Falsy(Minus(v, k))
  {
  }

  /** A truthy level for which `DepthOf` gives `None`: no call at any
      depth below it is falsy, so the recursion runs until the call stack
      is exhausted. */
  lemma DepthRuns(v: Num)
    requires DepthOf(v).None?
    ensures forall k: nat :: k >= 1 ==> !Falsy(Minus(v, k))
  {
    forall k: nat | k >= 1
      ensures !Falsy(Minus(v, k))
    {
      if v.Finite? {
        var r := v.value;
        if r >= 1.0 {
          assert r.Floor as real != r;
          assert (r - k as real).Floor == r.Floor - k;
        }
      }
    }
  }

  /** The arguments the model covers. A turn by `NaN` makes the angle
      `NaN`; from then on every move's target is `NaN` and every later turn
      keeps it so: the turtle is stuck, a state the model of whole-degree
      angles does not hold. A `koch` level of `NaN` passes the `level > 5`
      test, and `koch` then recurses until the call stack runs out
      (`NaN < 1` is false), so the command ends in a `RangeError` after its
      repositioning prefix. So does `sierp` for a level `SierpDepth` gives
      `None` for, after the outlines it draws on the way down. Lengths are
      not restricted: a length that is not a number makes every move of the
      figure a move nowhere. */
  predicate ArgsOk(v: Variant, cmd: seq<string>) {
    match NameOf(v, cmd)
    case RtName | LtName => IntArg(cmd, 1).Some?
    case KochName => IntArg(cmd, 1).Some?
    case SierpName => SierpDepth(Arg(cmd, 1)).Some?
    case _ => true
  }

  /** Every statement of a scanned input meets `ArgsOk`. */
  predicate AllArgsOk(v: Variant, stmts: seq<Stmt>) {
    forall j :: 0 <= j < |stmts| ==> ArgsOk(v, stmts[j].tokens)
  }

  /** The height of the triangle: `length * sqrt(3) / 2`, not a number
      when the length is not. */
  function Height(trig: Trig, length: Dist): (h: Dist)
    ensures h.Some? <==> length.Some?
  {
    Div(Mul(length, trig.sqrt(3.0)), 2.0)
  }

  /** The template string `${value}`: an absent argument reads
      `"undefined"`. */
  function ShowArg(arg: Option<string>): string {
    match arg
    case None => "undefined"
    case Some(s) => s
  }

  /** The branch of `runCmd` a command takes, with the arguments that
      branch reads. */
  datatype Command =
    | Move(forward: bool, dist: Option<int>)
    | Turn(right: bool, deg: int)
    | Pen(down: bool)
    | KochFigure(level: int, side: Dist)
    | SierpFigure(depth: nat, size: Dist)
    | SetColor(color: Option<string>)
    | SetWidth(width: Option<string>)
    | Ignored

  /** The command the tokens `cmd` select: `koch` reads its length with
      `parseInt`, `sierp` coerces it with `Number`. */
  function Decode(v: Variant, cmd: seq<string>): Command
    requires ArgsOk(v, cmd)
  {
    match NameOf(v, cmd)
    case FdName => Move(true, IntArg(cmd, 1))
    case BkName => Move(false, IntArg(cmd, 1))
    case RtName => Turn(true, IntArg(cmd, 1).value)
    case LtName => Turn(false, IntArg(cmd, 1).value)
    case PuName => Pen(false)
    case PdName => Pen(true)
    case KochName =>
      KochFigure(IntArg(cmd, 1).value, IntDist(IntArg(cmd, 2)))
    case SierpName => SierpFigure(SierpDepth(Arg(cmd, 1)).value, NumDist(NumArg(cmd, 2)))
    case ScName => SetColor(Arg(cmd, 1))
    case SsName => SetWidth(Arg(cmd, 1))
    case Unknown => Ignored
  }

  /** The page after one command. */
  function Exec(e: Env, p: Page2D, c: Command): Page2D {
    var t, s := p.turtle, p.style;
    match c
    case Move(forward, d) =>
      p.(turtle :=
        if d.None? then t
        else if forward then Prim(e, s, t, Fd(Some(d.value as real)))
        else Go(e, s, t, BkTarget(e, t, d.value as real)))
    case Turn(right, a) => p.(turtle := Prim(e, s, t, if right then Rt(a) else Lt(a)))
    case Pen(down) => p.(turtle := t.(penUp := !down))
    case KochFigure(level, length) =>
      if level > 5 then p else p.(turtle := Run(e, s, t, Koch2DCommandOps(level, length)))
    case SierpFigure(n, length) => p.(turtle := Run(e, s, t, Sierp2DCommandOps(n, length, Height(e.trig, length))))
    case SetColor(arg) => p.(style := s.(color := ShowArg(arg)))
    case SetWidth(arg) =>
      var w := if arg.Some? then ToNumber(arg.value) else NaN;
      if w.Finite? && 1.0 <= w.value <= 7.0 then p.(style := s.(width := arg.value)) else p
    case Ignored => p
  }

  /** `runCmd(cmd)`. */
  function CmdStep(e: Env, p: Page2D, cmd: seq<string>): Outcome {
    if ArgsOk(e.variant, cmd) then Continue(Exec(e, p, Decode(e.variant, cmd))) else Outside
  }

  /** The commands run one after the other. */
  function RunCmds(e: Env, p: Page2D, cmds: seq<seq<string>>): Outcome
    decreases |cmds|
  {
    if cmds == [] then Continue(p)
    else
      match CmdStep(e, p, cmds[0])
      case Continue(q) => RunCmds(e, q, cmds[1..])
      case Outside => Outside
  }

  /** `rt`/`lt` leave the angle reduced below a full turn and congruent to
      the old angle plus the right turn (minus, for `lt`); nothing else
      changes. */
  lemma TurnCommand(e: Env, p: Page2D, cmd: seq<string>)
    requires -360 < p.turtle.angle < 360
    requires NameOf(e.variant, cmd) in {RtName, LtName} && IntArg(cmd, 1).Some?
    ensures var a, r := IntArg(cmd, 1).value, CmdStep(e, p, cmd);
      r.Continue? && -360 < r.page.turtle.angle < 360 &&
      r.page == p.(turtle := p.turtle.(angle := r.page.turtle.angle)) &&
      Congruent(r.page.turtle.angle, p.turtle.angle + (if NameOf(e.variant, cmd) == RtName then a else -a), 360)
  {
    var right := NameOf(e.variant, cmd) == RtName;
    DecodeTurn(e.variant, cmd);
    ExecTurn(e, p, right, IntArg(cmd, 1).value);
    assert CmdStep(e, p, cmd) == Continue(Exec(e, p, Turn(right, IntArg(cmd, 1).value)));
  }

  /** `rt` and `lt` with a numeric argument select a turn. */
  lemma DecodeTurn(v: Variant, cmd: seq<string>)
    requires NameOf(v, cmd) in {RtName, LtName} && IntArg(cmd, 1).Some?
    ensures ArgsOk(v, cmd) && Decode(v, cmd) == Turn(NameOf(v, cmd) == RtName, IntArg(cmd, 1).value)
  {
  }

  /** A turn changes the angle alone, to a reduced angle congruent to the
      old one plus the turn. */
  lemma ExecTurn(e: Env, p: Page2D, right: bool, a: int)
    ensures var q := Exec(e, p, Turn(right, a));
      -360 < q.turtle.angle < 360 &&
      q == p.(turtle := p.turtle.(angle := q.turtle.angle)) &&
      Congruent(q.turtle.angle, p.turtle.angle + (if right then a else -a), 360)
  {
    var turn := if right then a else -a;
    assert Exec(e, p, Turn(right, a)).turtle.angle == TruncRem(p.turtle.angle + turn, 360);
    TruncRemCongruent(p.turtle.angle + turn, 360);
  }

  /** `fd` and `bk` select a move, whatever their argument. */
  lemma DecodeMove(v: Variant, cmd: seq<string>)
    requires NameOf(v, cmd) in {FdName, BkName}
    ensures ArgsOk(v, cmd) && Decode(v, cmd) == Move(NameOf(v, cmd) == FdName, IntArg(cmd, 1))
  {
  }

  /** A `fd` or `bk` whose target leaves the surface changes nothing. */
  lemma MoveOutsideBox(e: Env, p: Page2D, cmd: seq<string>)
    requires NameOf(e.variant, cmd) in {FdName, BkName} && IntArg(cmd, 1).Some?
    requires var d := IntArg(cmd, 1).value as real;
      !InBox(e, if NameOf(e.variant, cmd) == FdName then FdTarget(e, p.turtle, d) else BkTarget(e, p.turtle, d))
    ensures CmdStep(e, p, cmd) == Continue(p)
  {
    DecodeMove(e.variant, cmd);
  }

  /** An in-box `fd` or `bk` moves to its target, keeps the angle, pen and
      style, and leaves the record `MoveRecords` describes. */
  lemma MoveInsideBox(e: Env, p: Page2D, cmd: seq<string>)
    requires NameOf(e.variant, cmd) in {FdName, BkName} && IntArg(cmd, 1).Some?
    requires var d := IntArg(cmd, 1).value as real;
      InBox(e, if NameOf(e.variant, cmd) == FdName then FdTarget(e, p.turtle, d) else BkTarget(e, p.turtle, d))
    ensures var d := IntArg(cmd, 1).value as real;
      var target := if NameOf(e.variant, cmd) == FdName then FdTarget(e, p.turtle, d) else BkTarget(e, p.turtle, d);
      var r := CmdStep(e, p, cmd);
      r.Continue? && r.page.style == p.style &&
      r.page.turtle == p.turtle.(pos := target, trace := p.turtle.trace + Mark(e, p.style, p.turtle.pos, target, p.turtle.penUp))
  {
    DecodeMove(e.variant, cmd);
  }

  /** A `fd` or `bk` whose argument is not a number changes nothing. */
  lemma MoveNaN(e: Env, p: Page2D, cmd: seq<string>)
    requires NameOf(e.variant, cmd) in {FdName, BkName} && IntArg(cmd, 1).None?
    ensures CmdStep(e, p, cmd) == Continue(p)
  {
    DecodeMove(e.variant, cmd);
  }

  /** `ss` takes its argument exactly when `value >= 1 && value <= 7`
      holds for it, that is when its `Number` value is finite and lies in
      1..7, bounds included; otherwise nothing changes. */
  lemma SsCommand(e: Env, p: Page2D, cmd: seq<string>)
    requires NameOf(e.variant, cmd) == SsName
    ensures var r, w := CmdStep(e, p, cmd), NumArg(cmd, 1);
      r.Continue? && r.page.turtle == p.turtle && r.page.style.color == p.style.color &&
      (r.page.style.width != p.style.width ==> w.Finite? && 1.0 <= w.value <= 7.0) &&
      (w.Finite? && 1.0 <= w.value <= 7.0 ==> r.page.style.width == cmd[1])
  {
    assert ArgsOk(e.variant, cmd) && Decode(e.variant, cmd) == SetWidth(Arg(cmd, 1));
  }

  /** `sc` stores the string form of its argument, whatever it is. */
  lemma ScCommand(e: Env, p: Page2D, cmd: seq<string>)
    requires NameOf(e.variant, cmd) == ScName
    ensures var r := CmdStep(e, p, cmd);
      r.Continue? && r.page.turtle == p.turtle && r.page.style.width == p.style.width &&
      r.page.style.color == (if |cmd| >= 2 then cmd[1] else "undefined")
  {
    assert ArgsOk(e.variant, cmd) && Decode(e.variant, cmd) == SetColor(Arg(cmd, 1));
  }

  /** `koch` with a numeric level: the length is whatever `parseInt`
      makes of the third token. */
  lemma DecodeKoch(v: Variant, cmd: seq<string>)
    requires NameOf(v, cmd) == KochName && IntArg(cmd, 1).Some?
    ensures ArgsOk(v, cmd) && Decode(v, cmd) == KochFigure(IntArg(cmd, 1).value, IntDist(IntArg(cmd, 2)))
  {
  }

  /** `koch` above level 5 does nothing. Otherwise the turtle ends with the
      pen down, its angle back where it was (up to whole turns), and at most
      `1 + 3 * 4^level` records added after the old ones (a level below 0
      draws as level 0 does); with a length that is not a number only the
      100-unit step before the curves can leave a record. */
  lemma KochCommand(e: Env, p: Page2D, cmd: seq<string>)
    requires -360 < p.turtle.angle < 360
    requires NameOf(e.variant, cmd) == KochName && IntArg(cmd, 1).Some?
    ensures var level, r := IntArg(cmd, 1).value, CmdStep(e, p, cmd);
      r.Continue? && r.page.style == p.style &&
      (level > 5 ==> r.page == p) &&
      (level <= 5 ==>
         !r.page.turtle.penUp &&
         Congruent(r.page.turtle.angle, p.turtle.angle, 360) &&
         p.turtle.trace <= r.page.turtle.trace &&
         |r.page.turtle.trace| <= |p.turtle.trace| + 1 + 3 * Pow(4, if level < 0 then 0 else level) &&
         (IntArg(cmd, 2).None? ==> |r.page.turtle.trace| <= |p.turtle.trace| + 1))
  {
    DecodeKoch(e.variant, cmd);
    ExecKoch(e, p, IntArg(cmd, 1).value, IntDist(IntArg(cmd, 2)));
  }

  /** What `koch` does to a page. */
  lemma ExecKoch(e: Env, p: Page2D, level: int, side: Dist)
    requires -360 < p.turtle.angle < 360
    ensures var q := Exec(e, p, KochFigure(level, side));
      q.style == p.style &&
      (level > 5 ==> q == p) &&
      (level <= 5 ==>
         !q.turtle.penUp &&
         Congruent(q.turtle.angle, p.turtle.angle, 360) &&
         p.turtle.trace <= q.turtle.trace &&
         |q.turtle.trace| <= |p.turtle.trace| + 1 + 3 * Pow(4, if level < 0 then 0 else level) &&
         (side.None? ==> |q.turtle.trace| <= |p.turtle.trace| + 1))
  {
    if level <= 5 {
      KochRunFacts(e, p.style, p.turtle, level, side);
    }
  }

  /** What the `koch` command's calls do to a turtle. */
  lemma KochRunFacts(e: Env, s: Style, t: Turtle, level: int, length: Dist)
    requires -360 < t.angle < 360
    ensures var r := Run(e, s, t, Koch2DCommandOps(level, length));
      !r.penUp && Congruent(r.angle, t.angle, 360) && t.trace <= r.trace &&
      |r.trace| <= |t.trace| + 1 + 3 * Pow(4, if level < 0 then 0 else level) &&
      (length.None? ==> |r.trace| <= |t.trace| + 1)
  {
    var n: nat := if level < 0 then 0 else level;
    var ops := Koch2DCommandOps(level, length);
    assert ops == Koch2DCommandOps(n, length);
    Koch2DCommandFacts(n, length, t.penUp);
    RunHeading(e, s, t, ops);
    RunTrace(e, s, t, ops);
    RunPen(e, s, t, ops);
    CongruentTrans(Run(e, s, t, ops).angle, t.angle + 360, t.angle, 360);
    if length.None? {
      var head := [PenUp, Lt(90), Fd(Some(100.0)), Rt(90), PenDown];
      var curves := Times(KochLineOps(level, None) + [Rt(120)], 3);
      assert ops == head + curves;
      assert CountFd(head) == 1 by {
        assert head[1..][1..][1..][1..][1..] == [];
      }
      RunAppend(e, s, t, head, curves);
      RunTrace(e, s, t, head);
      Koch2DNaN(level);
      RunStill(e, s, Run(e, s, t, head), curves);
    }
  }

  /** `sierp` with a level `SierpDepth` covers. */
  lemma DecodeSierp(v: Variant, cmd: seq<string>)
    requires NameOf(v, cmd) == SierpName && SierpDepth(Arg(cmd, 1)).Some?
    ensures ArgsOk(v, cmd) && Decode(v, cmd) == SierpFigure(SierpDepth(Arg(cmd, 1)).value, NumDist(NumArg(cmd, 2)))
  {
  }

  /** The `sierp` command ends with the pen down and keeps the old
      records. With nothing to draw it only moves 300 forward with the pen
      up and keeps the angle; at depth `n >= 1` it adds at most
      `1 + 7 * (3^n - 1) / 2` records, and with a length that is not a
      number at most the one of the 300-unit step. */
  lemma SierpCommand(e: Env, p: Page2D, cmd: seq<string>)
    requires -360 < p.turtle.angle < 360
    requires NameOf(e.variant, cmd) == SierpName && SierpDepth(Arg(cmd, 1)).Some?
    ensures var n, r := SierpDepth(Arg(cmd, 1)).value, CmdStep(e, p, cmd);
      r.Continue? && r.page.style == p.style && !r.page.turtle.penUp &&
      p.turtle.trace <= r.page.turtle.trace &&
      (n == 0 ==> r.page.turtle.angle == p.turtle.angle && |r.page.turtle.trace| <= |p.turtle.trace| + 1) &&
      (n >= 1 ==> 2 * |r.page.turtle.trace| <= 2 * |p.turtle.trace| + 2 + 7 * (Pow(3, n) - 1)) &&
      (!NumArg(cmd, 2).Finite? ==> |r.page.turtle.trace| <= |p.turtle.trace| + 1)
  {
    DecodeSierp(e.variant, cmd);
    ExecSierp(e, p, SierpDepth(Arg(cmd, 1)).value, NumDist(NumArg(cmd, 2)));
  }

  /** At depth `n >= 1` the `sierp` command leaves the angle turned 930
      degrees left, up to whole turns: the triangle does not bring the
      turtle back to its heading. */
  lemma SierpCommandTurn(e: Env, p: Page2D, cmd: seq<string>)
    requires -360 < p.turtle.angle < 360
    requires NameOf(e.variant, cmd) == SierpName && SierpDepth(Arg(cmd, 1)).Some?
    requires SierpDepth(Arg(cmd, 1)).value >= 1
    ensures var r := CmdStep(e, p, cmd);
      r.Continue? && -360 < r.page.turtle.angle < 360 && Congruent(r.page.turtle.angle, p.turtle.angle - 930, 360)
  {
    DecodeSierp(e.variant, cmd);
    ExecSierp(e, p, SierpDepth(Arg(cmd, 1)).value, NumDist(NumArg(cmd, 2)));
  }

  /** What `sierp` does to a page. */
  lemma ExecSierp(e: Env, p: Page2D, n: nat, len: Dist)
    requires -360 < p.turtle.angle < 360
    ensures var q := Exec(e, p, SierpFigure(n, len));
      q.style == p.style && !q.turtle.penUp &&
      p.turtle.trace <= q.turtle.trace && -360 < q.turtle.angle < 360 &&
      (n == 0 ==> q.turtle.angle == p.turtle.angle && |q.turtle.trace| <= |p.turtle.trace| + 1) &&
      (n >= 1 ==>
         2 * |q.turtle.trace| <= 2 * |p.turtle.trace| + 2 + 7 * (Pow(3, n) - 1) &&
         Congruent(q.turtle.angle, p.turtle.angle - 930, 360)) &&
      (len.None? ==> |q.turtle.trace| <= |p.turtle.trace| + 1)
  {
    SierpRunFacts(e, p.style, p.turtle, n, len, Height(e.trig, len));
  }

  /** What the `sierp` command's calls do to a turtle. */
  lemma SierpRunFacts(e: Env, s: Style, t: Turtle, n: nat, len: Dist, height: Dist)
    requires -360 < t.angle < 360
    requires len.None? ==> height.None?
    ensures var r := Run(e, s, t, Sierp2DCommandOps(n, len, height));
      !r.penUp && t.trace <= r.trace && -360 < r.angle < 360 &&
      (n == 0 ==> r.angle == t.angle && |r.trace| <= |t.trace| + 1) &&
      (n >= 1 ==>
         2 * |r.trace| <= 2 * |t.trace| + 2 + 7 * (Pow(3, n) - 1) &&
         Congruent(r.angle, t.angle - 930, 360)) &&
      (len.None? ==> |r.trace| <= |t.trace| + 1)
  {
    var head := [PenUp, Fd(Some(300.0)), PenDown];
    var inner := Sierp2DOps(n, len, height);
    var ops := Sierp2DCommandOps(n, len, height);
    assert ops == head + inner;
    assert CountFd(head) == 1 && NetTurn(head) == 0 && !PenUpAfter(head, t.penUp) by {
      assert head[1..][1..][1..] == [];
    }
    CountFdAppend(head, inner);
    NetTurnAppend(head, inner);
    PenUpAfterAppend(head, inner, t.penUp);
    RunHeading(e, s, t, ops);
    RunTrace(e, s, t, ops);
    RunPen(e, s, t, ops);
    if n >= 1 {
      Sierp2DCount(n, len, height);
      Sierp2DTurn(n, len, height);
      Sierp2DPen(n, len, height, false);
    } else {
      assert inner == [];
      assert ops == head;
      RunCons(e, s, t, PenUp, [Fd(Some(300.0)), PenDown]);
      var t1 := Prim(e, s, t, PenUp);
      RunCons(e, s, t1, Fd(Some(300.0)), [PenDown]);
    }
    if len.None? {
      RunAppend(e, s, t, head, inner);
      RunTrace(e, s, t, head);
      Sierp2DNaN(n);
      RunStill(e, s, Run(e, s, t, head), inner);
    }
  }

  /** A name that is not a command changes nothing. */
  lemma UnknownCommand(e: Env, p: Page2D, cmd: seq<string>)
    requires NameOf(e.variant, cmd) == Unknown
    ensures CmdStep(e, p, cmd) == Continue(p)
  {
    assert ArgsOk(e.variant, cmd) && Decode(e.variant, cmd) == Ignored;
  }

  /** One command that goes on, then the rest. */
  lemma RunCmdsCons(e: Env, p: Page2D, q: Page2D, cmd: seq<string>, rest: seq<seq<string>>)
    requires CmdStep(e, p, cmd) == Continue(q)
    ensures RunCmds(e, p, [cmd] + rest) == RunCmds(e, q, rest)
  {
    assert ([cmd] + rest)[1..] == rest;
  }

  /** Whatever a command does, the angle stays reduced below a full turn. */
  lemma CmdStepReduced(e: Env, p: Page2D, cmd: seq<string>)
    requires -360 < p.turtle.angle < 360
    ensures CmdStep(e, p, cmd).Continue? ==> -360 < CmdStep(e, p, cmd).page.turtle.angle < 360
  {
    if ArgsOk(e.variant, cmd) {
      ExecReduced(e, p, Decode(e.variant, cmd));
    }
  }

  lemma ExecReduced(e: Env, p: Page2D, c: Command)
    requires -360 < p.turtle.angle < 360
    ensures -360 < Exec(e, p, c).turtle.angle < 360
  {
    match c {
      case Turn(right, a) => ExecTurn(e, p, right, a);
      case KochFigure(level, length) =>
        if level <= 5 {
          RunHeading(e, p.style, p.turtle, Koch2DCommandOps(level, length));
        }
      case SierpFigure(n, length) => RunHeading(e, p.style, p.turtle, Sierp2DCommandOps(n, length, Height(e.trig, length)));
      case _ =>
    }
  }

  /** ... and so it does over any run of commands. */
  lemma {:induction false} RunCmdsReduced(e: Env, p: Page2D, cmds: seq<seq<string>>)
    requires -360 < p.turtle.angle < 360
    ensures RunCmds(e, p, cmds).Continue? ==> -360 < RunCmds(e, p, cmds).page.turtle.angle < 360
    decreases |cmds|
  {
    if cmds != [] {
      CmdStepReduced(e, p, cmds[0]);
      if CmdStep(e, p, cmds[0]).Continue? {
        RunCmdsReduced(e, CmdStep(e, p, cmds[0]).page, cmds[1..]);
      }
    }
  }

  // ------------------------------------------------------ the generators

  /** `koch(level, length)`: four curves of the level below with the turns
      between them. */
  lemma KochChain(e: Env, s: Style, level: int, length: Dist,
                  t0: Turtle, t1: Turtle, t2: Turtle, t3: Turtle, t4: Turtle, t5: Turtle, t6: Turtle, t7: Turtle)
    requires level >= 1
    requires var sub := KochLineOps(level - 1, Div(length, 3.0));
      t1 == Run(e, s, t0, sub) && t2 == Prim(e, s, t1, Op.Lt(60)) &&
      t3 == Run(e, s, t2, sub) && t4 == Prim(e, s, t3, Op.Rt(120)) &&
      t5 == Run(e, s, t4, sub) && t6 == Prim(e, s, t5, Op.Lt(60)) &&
      t7 == Run(e, s, t6, sub)
    ensures t7 == Run(e, s, t0, KochLineOps(level, length))
  {
    var sub := KochLineOps(level - 1, Div(length, 3.0));
    RunSnoc(e, s, t0, sub, Op.Lt(60));
    var p1 := sub + [Op.Lt(60)];
    RunAppend(e, s, t0, p1, sub);
    RunSnoc(e, s, t0, p1 + sub, Op.Rt(120));
    var p2 := p1 + sub + [Op.Rt(120)];
    RunAppend(e, s, t0, p2, sub);
    RunSnoc(e, s, t0, p2 + sub, Op.Lt(60));
    var p3 := p2 + sub + [Op.Lt(60)];
    RunAppend(e, s, t0, p3, sub);
  }

  /** The level and length of `koch`'s recursive calls, computed ahead of
      them. */
  lemma KochSubLevel(level: int, length: Dist, m: int, third: Dist)
    requires level == m + 1 && third == Div(length, 3.0)
    ensures KochLineOps(m, third) == KochLineOps(level - 1, Div(length, 3.0))
  {
  }

  /** One round of the `koch` command's loop: a curve, then 120 degrees
      right, after the steps `before`. */
  lemma KochRoundChain(e: Env, s: Style, t0: Turtle, before: seq<Op>, side: seq<Op>, ta: Turtle, tb: Turtle, tc: Turtle)
    requires ta == Run(e, s, t0, before) && tb == Run(e, s, ta, side) && tc == Prim(e, s, tb, Op.Rt(120))
    ensures tc == Run(e, s, t0, before + (side + [Op.Rt(120)]))
  {
    RunAppend(e, s, t0, before, side);
    RunSnoc(e, s, t0, before + side, Op.Rt(120));
    assert before + side + [Op.Rt(120)] == before + (side + [Op.Rt(120)]);
  }

  /** The states of a run of calls other than restoring blocks, one call
      at a time. */
  predicate Steps(e: Env, s: Style, ts: seq<Turtle>, ops: seq<Op>) {
    |ts| == |ops| + 1 &&
    forall i :: 0 <= i < |ops| ==> !ops[i].Restoring? && ts[i + 1] == Prim(e, s, ts[i], ops[i])
  }

  lemma {:induction false} StepsRun(e: Env, s: Style, ts: seq<Turtle>, ops: seq<Op>)
    requires Steps(e, s, ts, ops)
    ensures ts[|ops|] == Run(e, s, ts[0], ops)
    decreases ops
  {
    if ops != [] {
      assert Steps(e, s, ts[1..], ops[1..]) by {
        forall i | 0 <= i < |ops[1..]|
          ensures !ops[1..][i].Restoring? && ts[1..][i + 1] == Prim(e, s, ts[1..][i], ops[1..][i])
        {
          assert ops[1..][i] == ops[i + 1];
        }
      }
      StepsRun(e, s, ts[1..], ops[1..]);
    }
  }

  /** The outer triangle, one call at a time. */
  lemma OutlineSteps(e: Env, s: Style, length: Dist, t0: Turtle, t1: Turtle, t2: Turtle, t3: Turtle, t4: Turtle, t5: Turtle, t6: Turtle, t7: Turtle)
    requires t1 == Prim(e, s, t0, Op.Lt(150)) && t2 == Prim(e, s, t1, Op.Fd(length))
    requires t3 == Prim(e, s, t2, Op.Lt(120)) && t4 == Prim(e, s, t3, Op.Fd(length))
    requires t5 == Prim(e, s, t4, Op.Lt(120)) && t6 == Prim(e, s, t5, Op.Fd(length))
    requires t7 == Prim(e, s, t6, Op.Lt(150))
    ensures t7 == Run(e, s, t0, Outline(length))
  {
    StepsRun(e, s, [t0, t1, t2, t3, t4, t5, t6, t7], Outline(length));
  }

  /** `sierp`'s level-`n` body as four plain stretches and three restoring
      blocks, put together. */
  lemma SierpChain(e: Env, s: Style, level: nat, length: Dist, height: Dist, m: nat, half: Dist, halfHeight: Dist,
                   t0: Turtle, t1: Turtle, t2: Turtle, t3: Turtle, t4: Turtle, t5: Turtle, t6: Turtle, t7: Turtle)
    requires level == m + 1 && half == Div(length, 2.0) && halfHeight == Div(height, 2.0)
    requires var sub := Sierp2DOps(m, half, halfHeight);
      t1 == Run(e, s, t0, Outline(length)) &&
      t2 == Run(e, s, t1, [Restoring([Rt(180)] + sub)]) &&
      t3 == Run(e, s, t2, Reposition(height, half)) &&
      t4 == Run(e, s, t3, [Restoring([Rt(330)] + sub)]) &&
      t5 == Run(e, s, t4, [Lt(120), Fd(half)]) &&
      t6 == Run(e, s, t5, [Restoring([Lt(270)] + sub)]) &&
      t7 == Run(e, s, t6, [Lt(120), Fd(half)])
    ensures t7 == Run(e, s, t0, Sierp2DOps(level, length, height))
  {
    var sub := Sierp2DOps(m, half, halfHeight);
    var p1, r1, p2, r2 := Outline(length), [Restoring([Rt(180)] + sub)], Reposition(height, half), [Restoring([Rt(330)] + sub)];
    var p3, r3, p4 := [Lt(120), Fd(half)], [Restoring([Lt(270)] + sub)], [Lt(120), Fd(half)];
    SierpUnfold(level, length, height, m, half, halfHeight);
    var a1 := p1 + r1;
    RunAppend(e, s, t0, p1, r1);
    assert Run(e, s, t0, a1) == t2;
    var a2 := a1 + p2;
    RunAppend(e, s, t0, a1, p2);
    assert Run(e, s, t0, a2) == t3;
    var a3 := a2 + r2;
    RunAppend(e, s, t0, a2, r2);
    assert Run(e, s, t0, a3) == t4;
    var a4 := a3 + p3;
    RunAppend(e, s, t0, a3, p3);
    assert Run(e, s, t0, a4) == t5;
    var a5 := a4 + r3;
    RunAppend(e, s, t0, a4, r3);
    assert Run(e, s, t0, a5) == t6;
    RunAppend(e, s, t0, a5, p4);
    assert Run(e, s, t0, a5 + p4) == t7;
  }

  /** `Sierp2DOps` one level down, for a level and sizes computed ahead of
      the calls. */
  lemma SierpUnfold(level: nat, length: Dist, height: Dist, m: nat, half: Dist, halfHeight: Dist)
    requires level == m + 1 && half == Div(length, 2.0) && halfHeight == Div(height, 2.0)
    ensures var sub := Sierp2DOps(m, half, halfHeight);
      Sierp2DOps(level, length, height) ==
        Outline(length) + [Restoring([Rt(180)] + sub)] + Reposition(height, half) + [Restoring([Rt(330)] + sub)]
        + [Lt(120), Fd(half)] + [Restoring([Lt(270)] + sub)] + [Lt(120), Fd(half)]
  {
  }

  /** A restoring block whose body is one turn and a sub-triangle. */
  lemma RestoringChain(e: Env, s: Style, turn: Op, sub: seq<Op>, t0: Turtle, t1: Turtle, t2: Turtle, t3: Turtle)
    requires !turn.Restoring?
    requires t1 == Prim(e, s, t0, turn) && t2 == Run(e, s, t1, sub)
    requires t3 == t2.(pos := t0.pos, angle := t0.angle)
    ensures t3 == Run(e, s, t0, [Restoring([turn] + sub)])
  {
    RunCons(e, s, t0, turn, sub);
    RunBlock(e, s, t0, [turn] + sub);
  }

  lemma RunCons(e: Env, s: Style, t: Turtle, op: Op, rest: seq<Op>)
    requires !op.Restoring?
    ensures Run(e, s, t, [op] + rest) == Run(e, s, Prim(e, s, t, op), rest)
  {
    assert ([op] + rest)[0] == op && ([op] + rest)[1..] == rest;
  }

  lemma RunBlock(e: Env, s: Style, t: Turtle, body: seq<Op>)
    ensures Run(e, s, t, [Restoring(body)]) == Run(e, s, t, body).(pos := t.pos, angle := t.angle)
  {
    assert [Restoring(body)][1..] == [];
  }

  /** The `koch` command's first calls, one at a time. */
  lemma KochHeadSteps(e: Env, s: Style, t0: Turtle, t1: Turtle, t2: Turtle, t3: Turtle, t4: Turtle, t5: Turtle)
    requires t1 == Prim(e, s, t0, PenUp) && t2 == Prim(e, s, t1, Op.Lt(90))
    requires t3 == Prim(e, s, t2, Op.Fd(Some(100.0))) && t4 == Prim(e, s, t3, Op.Rt(90))
    requires t5 == Prim(e, s, t4, PenDown)
    ensures t5 == Run(e, s, t0, [PenUp, Lt(90), Fd(Some(100.0)), Rt(90), PenDown])
  {
    StepsRun(e, s, [t0, t1, t2, t3, t4, t5], [PenUp, Lt(90), Fd(Some(100.0)), Rt(90), PenDown]);
  }

  /** The `koch` command: reposition with the pen up, then three curves
      each followed by 120 degrees right. */
  lemma KochCmdChain(e: Env, s: Style, level: int, length: Dist, t0: Turtle, t5: Turtle, t8: Turtle)
    requires t5 == Run(e, s, t0, [PenUp, Lt(90), Fd(Some(100.0)), Rt(90), PenDown])
    requires t8 == Run(e, s, t5, Times(KochLineOps(level, length) + [Rt(120)], 3))
    ensures t8 == Run(e, s, t0, Koch2DCommandOps(level, length))
  {
    RunAppend(e, s, t0, [PenUp, Lt(90), Fd(Some(100.0)), Rt(90), PenDown], Times(KochLineOps(level, length) + [Rt(120)], 3));
  }

  /** The `sierp` command: pen up, 300 forward, pen down, the triangle. */
  lemma SierpCmdChain(e: Env, s: Style, level: nat, length: Dist, height: Dist, t0: Turtle, t3: Turtle, t4: Turtle)
    requires t3 == Run(e, s, t0, [PenUp, Fd(Some(300.0)), PenDown])
    requires t4 == Run(e, s, t3, Sierp2DOps(level, length, height))
    ensures t4 == Run(e, s, t0, Sierp2DCommandOps(level, length, height))
  {
    RunAppend(e, s, t0, [PenUp, Fd(Some(300.0)), PenDown], Sierp2DOps(level, length, height));
  }

  // ----------------------------------------------------------- the class

  /** The globals of one page. `trace` is what the canvas or the picture
      has received. */
  class Turtle2DPage {
    const env: Env

    var posX: real
    var posY: real
    var angle: int
    var isPenUp: bool
    var trace: seq<Draw>
    var color: string
    var width: string

    function TurtleState(): Turtle
      reads this
    {
      Turtle(Point(posX, posY), angle, isPenUp, trace)
    }

    function CurrentStyle(): Style
      reads this
    {
      Style(color, width)
    }

    function PageState(): Page2D
      reads this
    {
      Page2D(TurtleState(), CurrentStyle())
    }

    /** The angle stays reduced below a full turn. */
    predicate Valid()
      reads this
    {
      -360 < angle < 360
    }

    /** Loading the page: the pen is down, the style is the page's default,
        and `initTurtle()` runs. On the canvas pages the board is the
        canvas; on the svg page it is 500 by 500 whatever the arguments. */
    constructor(variant: Variant, trig: Trig, canvasWidth: real, canvasHeight: real)
      ensures Valid()
      ensures env == Env(variant, trig, if variant == SvgEditor then Board(500.0, 500.0) else Board(canvasWidth, canvasHeight))
      ensures PageState() == Page2D(Turtle(InitPos(env), 0, false, if variant == SvgEditor then [] else [MoveTo(InitPos(env))]), InitStyle(variant))
    {
      env := Env(variant, trig, if variant == SvgEditor then Board(500.0, 500.0) else Board(canvasWidth, canvasHeight));
      isPenUp := false;
      trace := [];
      color := InitStyle(variant).color;
      width := InitStyle(variant).width;
      new;
      InitTurtle();
    }

    /** `initTurtle()`: the middle of the board, angle 0; a canvas also
        moves its path there. */
    method InitTurtle()
      modifies this`posX, this`posY, this`angle, this`trace
      ensures TurtleState() == old(TurtleState()).(pos := InitPos(env), angle := 0,
        trace := old(trace) + (if env.variant == SvgEditor then [] else [MoveTo(InitPos(env))]))
    {
      posX := env.board.width / 2.0;
      posY := env.board.height / 2.0;
      angle := 0;
      if env.variant != SvgEditor {
        trace := trace + [MoveTo(Point(posX, posY))];
      }
    }

    /** `fd(value)`; a value that is not a number gives a target that is
        not a number, which fails the box test. */
    method Fd(value: Dist)
      modifies this`posX, this`posY, this`trace
      ensures TurtleState() == Prim(env, CurrentStyle(), old(TurtleState()), Op.Fd(value))
    {
      if value.None? {
        return;
      }
      var v := value.value;
      var dx := Rx(env, v) * env.trig.sinDeg(angle as real);
      var dy := Ry(env, v) * env.trig.cosDeg(angle as real);
      var newX := posX + dx;
      var newY := posY - dy;
      assert Point(newX, newY) == FdTarget(env, TurtleState(), v);
      if !InBox(env, Point(newX, newY)) {
        return;
      }
      trace := trace + Mark(env, CurrentStyle(), Point(posX, posY), Point(newX, newY), isPenUp);
      posX := newX;
      posY := newY;
    }

    /** `bk(value)`. */
    method Bk(value: real)
      modifies this`posX, this`posY, this`trace
      ensures TurtleState() == Go(env, CurrentStyle(), old(TurtleState()), BkTarget(env, old(TurtleState()), value))
    {
      var dx := Rx(env, value) * env.trig.sinDeg(angle as real);
      var dy := Ry(env, value) * env.trig.cosDeg(angle as real);
      var newX := posX - dx;
      var newY := posY + dy;
      assert Point(newX, newY) == BkTarget(env, TurtleState(), value);
      if !InBox(env, Point(newX, newY)) {
        return;
      }
      trace := trace + Mark(env, CurrentStyle(), Point(posX, posY), Point(newX, newY), isPenUp);
      posX := newX;
      posY := newY;
    }

    /** `lt(value)`. */
    method Lt(value: int)
      modifies this`angle
      ensures TurtleState() == Prim(env, CurrentStyle(), old(TurtleState()), Op.Lt(value))
    {
      angle := TruncRem(angle - value, 360);
    }

    /** `rt(value)`. */
    method Rt(value: int)
      modifies this`angle
      ensures TurtleState() == Prim(env, CurrentStyle(), old(TurtleState()), Op.Rt(value))
    {
      angle := TruncRem(angle + value, 360);
    }

    /** `pu()`. */
    method Pu()
      modifies this`isPenUp
      ensures TurtleState() == Prim(env, CurrentStyle(), old(TurtleState()), PenUp)
    {
      isPenUp := true;
    }

    /** `pd()`. */
    method Pd()
      modifies this`isPenUp
      ensures TurtleState() == Prim(env, CurrentStyle(), old(TurtleState()), PenDown)
    {
      isPenUp := false;
    }

    /** `sc(value)`: the colour becomes the argument's string form. */
    method Sc(value: Option<string>)
      modifies this`color
      ensures color == ShowArg(value)
    {
      color := ShowArg(value);
    }

    /** `ss(value)`: the width is taken only when `value >= 1 && value <= 7`,
        that is when the argument's `Number` value is finite and lies in
        1..7. */
    method Ss(value: Option<string>)
      modifies this`width
      ensures var w := if value.Some? then ToNumber(value.value) else NaN;
        width == (if w.Finite? && 1.0 <= w.value <= 7.0 then value.value else old(width))
    {
      if value.Some? {
        var w := ToNumber(value.value);
        if w.Finite? && 1.0 <= w.value && w.value <= 7.0 {
          width := value.value;
        }
      }
    }

    /** `koch(level, length)`, run to the end before anything else (the
        pauses between its forward moves are left out). */
    method Koch(level: int, length: Dist)
      modifies this`posX, this`posY, this`angle, this`trace
      ensures TurtleState() == Run(env, CurrentStyle(), old(TurtleState()), KochLineOps(level, length))
      decreases if level < 1 then 0 else level
    {
      ghost var t0 := TurtleState();
      if level < 1 {
        Fd(length);
        RunSnoc(env, CurrentStyle(), t0, [], Op.Fd(length));
        assert [] + [Op.Fd(length)] == [Op.Fd(length)];
      } else {
        var m, third := level - 1, Div(length, 3.0);
        Koch(m, third);
        ghost var t1 := TurtleState();
        Lt(60);
        ghost var t2 := TurtleState();
        Koch(m, third);
        ghost var t3 := TurtleState();
        Rt(120);
        ghost var t4 := TurtleState();
        Koch(m, third);
        ghost var t5 := TurtleState();
        Lt(60);
        ghost var t6 := TurtleState();
        Koch(m, third);
        KochSubLevel(level, length, m, third);
        KochChain(env, CurrentStyle(), level, length, t0, t1, t2, t3, t4, t5, t6, TurtleState());
      }
    }

    /** The `koch` case of `runCmd` at level 5 or below: reposition with
        the pen up, then three times a curve and 120 degrees right. */
    method KochCase(level: int, length: Dist)
      modifies this`posX, this`posY, this`angle, this`isPenUp, this`trace
      ensures TurtleState() == Run(env, CurrentStyle(), old(TurtleState()), Koch2DCommandOps(level, length))
    {
      ghost var s := CurrentStyle();
      ghost var t0 := TurtleState();
      Pu();
      ghost var t1 := TurtleState();
      Lt(90);
      ghost var t2 := TurtleState();
      Fd(Some(100.0));
      ghost var t3 := TurtleState();
      Rt(90);
      ghost var t4 := TurtleState();
      Pd();
      KochHeadSteps(env, s, t0, t1, t2, t3, t4, TurtleState());
      ghost var t5 := TurtleState();
      ghost var side := KochLineOps(level, length);
      var i := 0;
      while i < 3
        invariant 0 <= i <= 3
        invariant TurtleState() == Run(env, s, t5, Times(side + [Op.Rt(120)], i))
      {
        ghost var ta := TurtleState();
        Koch(level, length);
        ghost var tb := TurtleState();
        Rt(120);
        KochRoundChain(env, s, t5, Times(side + [Op.Rt(120)], i), side, ta, tb, TurtleState());
        i := i + 1;
      }
      KochCmdChain(env, s, level, length, t0, t5, TurtleState());
    }

    /** `sierp(level, length, height)` for a level already turned into the
        number of levels it draws (see `SierpDepth`); position and angle
        are saved before each recursive call's turn and assigned back after
        it. */
    method Sierp(level: nat, length: Dist, height: Dist)
      modifies this`posX, this`posY, this`angle, this`isPenUp, this`trace
      ensures TurtleState() == Run(env, CurrentStyle(), old(TurtleState()), Sierp2DOps(level, length, height))
      decreases level, 1
    {
      if level == 0 {
        return;
      }
      var m, half, halfHeight := level - 1, Div(length, 2.0), Div(height, 2.0);
      ghost var s := CurrentStyle();
      ghost var t0 := TurtleState();
      DrawOutline(length);
      ghost var t1 := TurtleState();
      SubTriangle(Op.Rt(180), m, half, halfHeight);
      ghost var t2 := TurtleState();
      ToRightCorner(height, half);
      ghost var t3 := TurtleState();
      SubTriangle(Op.Rt(330), m, half, halfHeight);
      ghost var t4 := TurtleState();
      DrawSide(half);
      ghost var t5 := TurtleState();
      SubTriangle(Op.Lt(270), m, half, halfHeight);
      ghost var t6 := TurtleState();
      DrawSide(half);
      SierpChain(env, s, level, length, height, m, half, halfHeight, t0, t1, t2, t3, t4, t5, t6, TurtleState());
    }

    /** The first lines of `sierp`'s body: the outer triangle, ending on
        the heading it started with. */
    method DrawOutline(length: Dist)
      modifies this`posX, this`posY, this`angle, this`trace
      ensures TurtleState() == Run(env, CurrentStyle(), old(TurtleState()), Outline(length))
    {
      ghost var t0 := TurtleState();
      Lt(150);
      ghost var a1 := TurtleState();
      Fd(length);
      ghost var a2 := TurtleState();
      Lt(120);
      ghost var a3 := TurtleState();
      Fd(length);
      ghost var a4 := TurtleState();
      Lt(120);
      ghost var a5 := TurtleState();
      Fd(length);
      ghost var a6 := TurtleState();
      Lt(150);
      OutlineSteps(env, CurrentStyle(), length, t0, a1, a2, a3, a4, a5, a6, TurtleState());
    }

    /** 120 degrees left and half a side forward: from one corner of the
        inner triangle to the next. */
    method DrawSide(half: Dist)
      modifies this`posX, this`posY, this`angle, this`trace
      ensures TurtleState() == Run(env, CurrentStyle(), old(TurtleState()), [Op.Lt(120), Op.Fd(half)])
    {
      ghost var t0 := TurtleState();
      Lt(120);
      ghost var t1 := TurtleState();
      Fd(half);
      StepsRun(env, CurrentStyle(), [t0, t1, TurtleState()], [Op.Lt(120), Op.Fd(half)]);
    }

    /** The pen-up move after the upper sub-triangle, to where the right
        one starts. */
    method ToRightCorner(height: Dist, half: Dist)
      modifies this`posX, this`posY, this`angle, this`isPenUp, this`trace
      ensures TurtleState() == Run(env, CurrentStyle(), old(TurtleState()), Reposition(height, half))
    {
      ghost var t0 := TurtleState();
      Pu();
      ghost var b1 := TurtleState();
      Fd(height);
      ghost var b2 := TurtleState();
      Pd();
      ghost var b3 := TurtleState();
      Lt(150);
      ghost var b4 := TurtleState();
      Fd(half);
      StepsRun(env, CurrentStyle(), [t0, b1, b2, b3, b4, TurtleState()], Reposition(height, half));
    }

    /** One recursive call of `sierp` with the lines around it: save
        `posX`, `posY` and `angle`, turn, recurse, assign them back. */
    method SubTriangle(turn: Op, level: nat, length: Dist, height: Dist)
      requires turn.Lt? || turn.Rt?
      modifies this`posX, this`posY, this`angle, this`isPenUp, this`trace
      ensures TurtleState() == Run(env, CurrentStyle(), old(TurtleState()), [Restoring([turn] + Sierp2DOps(level, length, height))])
      decreases level, 2
    {
      ghost var t0 := TurtleState();
      var currX, currY, currAngle := posX, posY, angle;
      if turn.Lt? {
        Lt(turn.deg);
      } else {
        Rt(turn.deg);
      }
      ghost var t1 := TurtleState();
      Sierp(level, length, height);
      ghost var t2 := TurtleState();
      posX := currX;
      posY := currY;
      angle := currAngle;
      RestoringChain(env, CurrentStyle(), turn, Sierp2DOps(level, length, height), t0, t1, t2, TurtleState());
    }

    /** The `sierp` case of `runCmd`: pen up, 300 forward, pen down, then
        the triangle of `SierpDepth` levels with height
        `length * sqrt(3) / 2`. */
    method SierpCase(depth: nat, length: Dist)
      modifies this`posX, this`posY, this`angle, this`isPenUp, this`trace
      ensures TurtleState() == Run(env, CurrentStyle(), old(TurtleState()),
        Sierp2DCommandOps(depth, length, Height(env.trig, length)))
    {
      ghost var s := CurrentStyle();
      var height := Height(env.trig, length);
      ghost var t0 := TurtleState();
      Pu();
      ghost var t1 := TurtleState();
      Fd(Some(300.0));
      ghost var t2 := TurtleState();
      Pd();
      ghost var t3 := TurtleState();
      StepsRun(env, s, [t0, t1, t2, t3], [PenUp, Op.Fd(Some(300.0)), PenDown]);
      Sierp(depth, length, height);
      SierpCmdChain(env, s, depth, length, height, t0, t3, TurtleState());
    }

    /** `runCmd(cmd)`. */
    method RunCmd(cmd: seq<string>)
      requires Valid() && ArgsOk(env.variant, cmd)
      modifies this`posX, this`posY, this`angle, this`isPenUp, this`trace, this`color, this`width
      ensures Valid()
      ensures CmdStep(env, old(PageState()), cmd) == Continue(PageState())
    {
      ExecReduced(env, PageState(), Decode(env.variant, cmd));
      var c := Decode(env.variant, cmd);
      Switch(c);
    }

    /** The `switch` of `runCmd`, on the branch and arguments `Decode`
        reads from the tokens. */
    method Switch(c: Command)
      modifies this`posX, this`posY, this`angle, this`isPenUp, this`trace, this`color, this`width
      ensures PageState() == Exec(env, old(PageState()), c)
    {
      match c {
        case Move(_, _) => TurtleCase(c);
        case Turn(_, _) => TurtleCase(c);
        case Pen(_) => TurtleCase(c);
        case KochFigure(_, _) => FigureCase(c);
        case SierpFigure(_, _) => FigureCase(c);
        case SetColor(arg) => Sc(arg);
        case SetWidth(arg) => Ss(arg);
        case Ignored =>
      }
    }

    /** The cases of the `switch` that call one turtle primitive; `fd` and
        `bk` with a number that does not parse move nowhere. */
    method TurtleCase(c: Command)
      requires c.Move? || c.Turn? || c.Pen?
      modifies this`posX, this`posY, this`angle, this`isPenUp, this`trace
      ensures PageState() == Exec(env, old(PageState()), c)
    {
      match c {
        case Move(forward, d) =>
          if d.Some? {
            if forward {
              Fd(Some(d.value as real));
            } else {
              Bk(d.value as real);
            }
          }
        case Turn(right, a) =>
          if right {
            Rt(a);
          } else {
            Lt(a);
          }
        case Pen(down) =>
          if down {
            Pd();
          } else {
            Pu();
          }
      }
    }

    /** The `koch` and `sierp` cases of the `switch`. */
    method FigureCase(c: Command)
      requires c.KochFigure? || c.SierpFigure?
      modifies this`posX, this`posY, this`angle, this`isPenUp, this`trace
      ensures PageState() == Exec(env, old(PageState()), c)
    {
      match c {
        case KochFigure(level, length) =>
          if level <= 5 {
            KochCase(level, length);
          }
        case SierpFigure(depth, length) =>
          SierpCase(depth, length);
      }
    }

    /** `readInput()` on the text of the command box: the statements are
        scanned left to right; a `repeat` runs the statements up to the
        next `end` as often as its count says, and the scan goes on after
        that `end`. The commands reach `runCmd` in the order `Dispatched`
        lists them. */
    method ReadInput(input: string)
      requires Valid()
      requires WellFormed(Statements(input), 0, AfterEnd)
      requires AllArgsOk(env.variant, Statements(input))
      modifies this`posX, this`posY, this`angle, this`isPenUp, this`trace, this`color, this`width
      ensures Valid()
      ensures RunCmds(env, old(PageState()), Dispatched(Statements(input), 0, AfterEnd)) == Continue(PageState())
    {
      var stmts := Statements(input);
      ghost var goal := RunCmds(env, PageState(), Dispatched(stmts, 0, AfterEnd));
      var i := 0;
      while i < |stmts|
        invariant Valid()
        invariant WellFormed(stmts, i, AfterEnd)
        invariant RunCmds(env, PageState(), Dispatched(stmts, i, AfterEnd)) == goal
        decreases |stmts| - i
      {
        if IsRepeat(stmts[i]) {
          var k := RepeatStatement(stmts, i, goal);
          i := Next(AfterEnd, k);
        } else {
          Dispatch(stmts[i].tokens, Dispatched(stmts, i + 1, AfterEnd), goal);
          i := i + 1;
        }
      }
    }

    /** The `repeat` branch of `readInput()`'s loop for the statement at
        `i`: `k` ends at the block's `end`, and the scan goes on after it. */
    method RepeatStatement(stmts: seq<Stmt>, i: nat, ghost goal: Outcome) returns (k: nat)
      requires Valid() && i < |stmts| && IsRepeat(stmts[i])
      requires WellFormed(stmts, i, AfterEnd) && AllArgsOk(env.variant, stmts)
      requires RunCmds(env, PageState(), Dispatched(stmts, i, AfterEnd)) == goal
      modifies this`posX, this`posY, this`angle, this`isPenUp, this`trace, this`color, this`width
      ensures Valid() && i < Next(AfterEnd, k) && WellFormed(stmts, Next(AfterEnd, k), AfterEnd)
      ensures RunCmds(env, PageState(), Dispatched(stmts, Next(AfterEnd, k), AfterEnd)) == goal
    {
      DispatchedRepeat(stmts, i, AfterEnd);
      var loopStart := i + 1;
      var value := RepeatCount(stmts[i]);
      ghost var resumeAt := Next(AfterEnd, FindEnd(stmts, loopStart));
      k := RunRepeat(stmts, loopStart, value, Dispatched(stmts, resumeAt, AfterEnd), goal);
    }

    /** One command handed to `runCmd` in the middle of a run. */
    method Dispatch(cmd: seq<string>, ghost rest: seq<seq<string>>, ghost goal: Outcome)
      requires Valid() && ArgsOk(env.variant, cmd)
      requires RunCmds(env, PageState(), [cmd] + rest) == goal
      modifies this`posX, this`posY, this`angle, this`isPenUp, this`trace, this`color, this`width
      ensures Valid()
      ensures RunCmds(env, PageState(), rest) == goal
    {
      ghost var p0 := PageState();
      RunCmd(cmd);
      RunCmdsCons(env, p0, PageState(), cmd, rest);
    }

    /** The `for` loop of the `repeat` branch of `readInput()`: the block
        body starting at `loopStart` is run `value` times, and `k` ends at
        the block's `end`. */
    method RunRepeat(stmts: seq<Stmt>, loopStart: nat, value: nat, ghost rest: seq<seq<string>>, ghost goal: Outcome)
      returns (k: nat)
      requires Valid() && value >= 1
      requires HasEnd(stmts, loopStart) && AllArgsOk(env.variant, stmts)
      requires RunCmds(env, PageState(), Repeat(Body(stmts, loopStart, FindEnd(stmts, loopStart)), value) + rest) == goal
      modifies this`posX, this`posY, this`angle, this`isPenUp, this`trace, this`color, this`width
      ensures Valid()
      ensures k == FindEnd(stmts, loopStart) && RunCmds(env, PageState(), rest) == goal
    {
      k := loopStart;
      var j := 0;
      ghost var left: nat := value;
      while j < value
        invariant 0 <= j <= value && left == value - j
        invariant Valid()
        invariant j > 0 ==> k == FindEnd(stmts, loopStart)
        invariant RunCmds(env, PageState(), Repeat(Body(stmts, loopStart, FindEnd(stmts, loopStart)), left) + rest) == goal
      {
        k, left := RunPass(stmts, loopStart, left, rest, goal);
        j := j + 1;
      }
      assert left == 0;
      RepeatZero(Body(stmts, loopStart, FindEnd(stmts, loopStart)), rest);
    }

    /** One turn of the `for` loop of a `repeat` with `left` turns to go. */
    method RunPass(stmts: seq<Stmt>, loopStart: nat, ghost left: nat, ghost rest: seq<seq<string>>, ghost goal: Outcome)
      returns (k: nat, ghost left': nat)
      requires Valid() && left >= 1
      requires HasEnd(stmts, loopStart) && AllArgsOk(env.variant, stmts)
      requires RunCmds(env, PageState(), Repeat(Body(stmts, loopStart, FindEnd(stmts, loopStart)), left) + rest) == goal
      modifies this`posX, this`posY, this`angle, this`isPenUp, this`trace, this`color, this`width
      ensures Valid() && left' == left - 1
      ensures k == FindEnd(stmts, loopStart)
      ensures RunCmds(env, PageState(), Repeat(Body(stmts, loopStart, FindEnd(stmts, loopStart)), left') + rest) == goal
    {
      left' := left - 1;
      RepeatUnfold(Body(stmts, loopStart, FindEnd(stmts, loopStart)), left, left', rest);
      k := RunBody(stmts, loopStart, Repeat(Body(stmts, loopStart, FindEnd(stmts, loopStart)), left') + rest, goal);
    }

    /** One pass of the `while` inside a `repeat`: the statements from
        `loopStart` up to the next `end` go through `runCmd`, and `k` stops
        at that `end`. */
    method RunBody(stmts: seq<Stmt>, loopStart: nat, ghost tail: seq<seq<string>>, ghost goal: Outcome)
      returns (k: nat)
      requires Valid()
      requires HasEnd(stmts, loopStart)
      requires AllArgsOk(env.variant, stmts)
      requires RunCmds(env, PageState(), Body(stmts, loopStart, FindEnd(stmts, loopStart)) + tail) == goal
      modifies this`posX, this`posY, this`angle, this`isPenUp, this`trace, this`color, this`width
      ensures Valid()
      ensures k == FindEnd(stmts, loopStart) && RunCmds(env, PageState(), tail) == goal
    {
      ghost var e := FindEnd(stmts, loopStart);
      k := loopStart;
      while !stmts[k].isEnd
        invariant loopStart <= k <= e
        invariant Valid()
        invariant RunCmds(env, PageState(), Body(stmts, k, e) + tail) == goal
        decreases e - k
      {
        if k == e {
          assert false;
        }
        BodyCons(stmts, k, e, tail);
        Dispatch(stmts[k].tokens, Body(stmts, k + 1, e) + tail, goal);
        k := k + 1;
      }
      if k < e {
        FindEndFirst(stmts, loopStart, k);
      }
      assert Body(stmts, k, e) + tail == tail;
    }
  }
}
