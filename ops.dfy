/** The primitive turtle calls the fractal generators issue, as data. A
    generator is modelled as the sequence of calls it makes; each turtle gives
    the sequence its meaning by running it (see `Turtle3D.Run` and
    `Turtle2D.Run`). */
module TurtleOps {
  import opened Text

  /** The distance handed to `fd`: a finite number, or `None` for `NaN` or
      an infinity. No such move ever lands inside a board (every coordinate
      of its target is `NaN` or infinite, and the box tests compare with
      finite bounds), so each turtle's `fd` ignores it. */
  type Dist = Option<real>

  /** A `parseInt` result as a distance: `NaN` is not finite. */
  function IntDist(a: Option<int>): (d: Dist)
    ensures d.Some? <==> a.Some?
    ensures a.Some? ==> d.value == a.value as real
  {
    match a
    case None => None
    case Some(v) => Some(v as real)
  }

  /** A `Number` coercion result as a distance. */
  function NumDist(n: Num): (d: Dist)
    ensures d.Some? <==> n.Finite?
    ensures n.Finite? ==> d.value == n.value
  {
    match n
    case Finite(v) => Some(v)
    case _ => None
  }

  /** `d / k`: a finite distance stays finite, `NaN` and the infinities stay
      what they are. */
  function Div(d: Dist, k: real): (r: Dist)
    requires k != 0.0
    ensures r.Some? <==> d.Some?
    ensures d.Some? ==> r.value * k == d.value
  {
    match d
    case None => None
    case Some(x) => Some(x / k)
  }

  /** `d * k`, for a finite factor `k`. */
  function Mul(d: Dist, k: real): (r: Dist)
    ensures r.Some? <==> d.Some?
    ensures d.Some? && k != 0.0 ==> r.value / k == d.value
  {
    match d
    case None => None
    case Some(x) => Some(x * k)
  }

  /** Dividing twice is dividing by the product. */
  lemma DivTwice(d: Dist, a: real, b: real)
    requires a > 0.0 && b > 0.0
    ensures Div(Div(d, a), b) == Div(d, a * b)
  {
    if d.Some? {
      var x := d.value;
      var q := x / (a * b);
      assert q * (a * b) == x;
      assert (q * b) * a == x;
      assert x / a == q * b;
      assert (x / a) / b == q;
    }
  }

  datatype Op =
    | Fd(dist: Dist)
    | Lt(deg: int)
    | Rt(deg: int)
    | PenUp
    | PenDown
      /** Run `body`, then put position and heading back to what they were
          before it (the 2D `sierp` saves `posX`, `posY`, `angle` into locals
          and assigns them back after each recursive call). */
    | Restoring(body: seq<Op>)

  /** The number of `fd` calls, nested bodies included. */
  function CountFd(ops: seq<Op>): nat
    decreases ops
  {
    if ops == [] then 0
    else
      (match ops[0]
       case Fd(_) => 1
       case Restoring(b) => CountFd(b)
       case _ => 0) + CountFd(ops[1..])
  }

  /** Every `fd` call, nested bodies included, moves by `d`. */
  predicate AllFd(ops: seq<Op>, d: Dist)
    decreases ops
  {
    ops == [] ||
    ((match ops[0]
      case Fd(x) => x == d
      case Restoring(b) => AllFd(b, d)
      case _ => true) && AllFd(ops[1..], d))
  }

  /** The net right turn, in degrees, before any reduction; a restoring block
      turns by nothing, since it puts the heading back. */
  function NetTurn(ops: seq<Op>): int
    decreases ops
  {
    if ops == [] then 0
    else
      (match ops[0]
       case Rt(a) => a
       case Lt(a) => -a
       case _ => 0) + NetTurn(ops[1..])
  }

  /** Whether the pen is up after the calls, starting with `up`; restoring
      blocks do not put the pen back. */
  function PenUpAfter(ops: seq<Op>, up: bool): bool
    decreases ops
  {
    if ops == [] then up
    else
      var next :=
        match ops[0]
        case PenUp => true
        case PenDown => false
        case Restoring(b) => PenUpAfter(b, up)
        case _ => up;
      PenUpAfter(ops[1..], next)
  }

  /** `block` issued `n` times in a row (the body of a counted `for` loop). */
  function Times(block: seq<Op>, n: nat): (r: seq<Op>)
    ensures |r| == n * |block|
  {
    if n == 0 then [] else Times(block, n - 1) + block
  }

  lemma {:induction false} CountFdAppend(a: seq<Op>, b: seq<Op>)
    ensures CountFd(a + b) == CountFd(a) + CountFd(b)
  {
    if a != [] {
      assert (a + b)[1..] == a[1..] + b;
      CountFdAppend(a[1..], b);
    } else {
      assert a + b == b;
    }
  }

  lemma {:induction false} NetTurnAppend(a: seq<Op>, b: seq<Op>)
    ensures NetTurn(a + b) == NetTurn(a) + NetTurn(b)
  {
    if a != [] {
      assert (a + b)[1..] == a[1..] + b;
      NetTurnAppend(a[1..], b);
    } else {
      assert a + b == b;
    }
  }

  lemma {:induction false} AllFdAppend(a: seq<Op>, b: seq<Op>, d: Dist)
    ensures AllFd(a + b, d) <==> AllFd(a, d) && AllFd(b, d)
  {
    if a != [] {
      assert (a + b)[1..] == a[1..] + b;
      AllFdAppend(a[1..], b, d);
    } else {
      assert a + b == b;
    }
  }

  lemma {:induction false} PenUpAfterAppend(a: seq<Op>, b: seq<Op>, up: bool)
    ensures PenUpAfter(a + b, up) == PenUpAfter(b, PenUpAfter(a, up))
  {
    if a != [] {
      assert (a + b)[1..] == a[1..] + b;
      var next :=
        match a[0]
        case PenUp => true
        case PenDown => false
        case Restoring(body) => PenUpAfter(body, up)
        case _ => up;
      PenUpAfterAppend(a[1..], b, next);
    } else {
      assert a + b == b;
    }
  }

  lemma MulStep(n: nat, m: nat, c: int)
    requires n == m + 1
    ensures n * c == m * c + c
  {
  }

  lemma {:induction false} CountFdTimes(block: seq<Op>, n: nat)
    ensures CountFd(Times(block, n)) == n * CountFd(block)
  {
    if n > 0 {
      var m := n - 1;
      var prev := Times(block, m);
      assert Times(block, n) == prev + block;
      CountFdTimes(block, m);
      CountFdAppend(prev, block);
      MulStep(n, m, CountFd(block));
    }
  }

  lemma {:induction false} NetTurnTimes(block: seq<Op>, n: nat)
    ensures NetTurn(Times(block, n)) == n * NetTurn(block)
  {
    if n > 0 {
      var m := n - 1;
      var prev := Times(block, m);
      assert Times(block, n) == prev + block;
      NetTurnTimes(block, m);
      NetTurnAppend(prev, block);
      MulStep(n, m, NetTurn(block));
    }
  }

  lemma {:induction false} AllFdTimes(block: seq<Op>, n: nat, d: Dist)
    requires AllFd(block, d)
    ensures AllFd(Times(block, n), d)
  {
    if n > 0 {
      AllFdTimes(block, n - 1, d);
      AllFdAppend(Times(block, n - 1), block, d);
    } else {
      assert Times(block, n) == [];
    }
  }
}
