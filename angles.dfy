/** Headings in degrees. Every turn command reduces its heading with
    JavaScript's `%`, which truncates toward zero, so a negative dividend
    leaves a negative remainder. Sine, cosine and square root are not
    modelled: they reach the model as function values. */
module Angles {

  /** `k * m` is a multiple of `m`. */
  lemma MultipleMod(k: int, m: int)
    requires m > 0
    ensures (k * m) % m == 0
  {
    var q, r := (k * m) / m, (k * m) % m;
    assert (k - q) * m == r;
    if k - q >= 1 {
      ProductSign(k - q - 1, m);
      assert false;
    } else if k - q <= -1 {
      ProductSign(q - k - 1, m);
      assert false;
    }
  }

  lemma ProductSign(x: int, y: int)
    ensures x >= 0 && y >= 0 ==> x * y >= 0
  {
  }

  /** Whatever is divisible by `m` is `k * m` for some `k`. */
  lemma ModZeroMultiple(x: int, m: int)
    requires m > 0 && x % m == 0
    ensures x == (x / m) * m
  {
  }

  /** JavaScript's `a % m` on integers, for a positive modulus. */
  function TruncRem(a: int, m: int): (r: int)
    requires m > 0
    ensures -m < r < m
  {
    if a >= 0 then a % m else -((-a) % m)
  }

  /** The remainder keeps the sign of the dividend and differs from it by a
      multiple of `m`. */
  lemma TruncRemSpec(a: int, m: int)
    requires m > 0
    ensures var r := TruncRem(a, m);
      (a > 0 ==> r >= 0) && (a < 0 ==> r <= 0) && (a - r) % m == 0
  {
    if a >= 0 {
      assert a - a % m == (a / m) * m;
      MultipleMod(a / m, m);
    } else {
      var q := (-a) / m;
      assert a - (-((-a) % m)) == (-q) * m;
      MultipleMod(-q, m);
    }
  }

  /** The three numbers above pin the remainder down: a value in (-m, m)
      that is congruent to `a` and has the sign of `a` is `TruncRem(a, m)`. */
  lemma TruncRemUnique(a: int, m: int, r: int)
    requires m > 0 && -m < r < m
    requires (a > 0 ==> r >= 0) && (a < 0 ==> r <= 0)
    requires (a - r) % m == 0
    ensures r == TruncRem(a, m)
  {
    var t := TruncRem(a, m);
    TruncRemSpec(a, m);
    DiffOfMultiples(a - r, a - t, m);
    assert (a - r) - (a - t) == t - r;
    SmallMultipleIsZero(t - r, m);
  }

  lemma SmallMultipleIsZero(d: int, m: int)
    requires m > 0 && -m < d < m && d % m == 0
    ensures d == 0
  {
  }

  lemma DiffOfMultiples(x: int, y: int, m: int)
    requires m > 0 && x % m == 0 && y % m == 0
    ensures (x - y) % m == 0
  {
    ModZeroMultiple(x, m);
    ModZeroMultiple(y, m);
    var p, q := x / m, y / m;
    assert x - y == (p - q) * m;
    MultipleMod(p - q, m);
  }

  /** `a` and `b` name the same heading modulo `m` degrees. */
  predicate Congruent(a: int, b: int, m: int)
    requires m > 0
  {
    (a - b) % m == 0
  }

  lemma CongruentSym(a: int, b: int, m: int)
    requires m > 0 && Congruent(a, b, m)
    ensures Congruent(b, a, m)
  {
    ModZeroMultiple(a - b, m);
    assert b - a == (-((a - b) / m)) * m;
    MultipleMod(-((a - b) / m), m);
  }

  /** A reduced heading is congruent to the unreduced one. */
  lemma TruncRemCongruent(a: int, m: int)
    requires m > 0
    ensures Congruent(TruncRem(a, m), a, m)
  {
    TruncRemSpec(a, m);
    CongruentSym(a, TruncRem(a, m), m);
  }

  lemma CongruentTrans(a: int, b: int, c: int, m: int)
    requires m > 0 && Congruent(a, b, m) && Congruent(b, c, m)
    ensures Congruent(a, c, m)
  {
    ModZeroMultiple(a - b, m);
    ModZeroMultiple(b - c, m);
    var p, q := (a - b) / m, (b - c) / m;
    assert a - c == (p + q) * m;
    MultipleMod(p + q, m);
  }

  lemma CongruentShift(a: int, b: int, d: int, m: int)
    requires m > 0 && Congruent(a, b, m)
    ensures Congruent(a + d, b + d, m)
  {
    assert (a + d) - (b + d) == a - b;
  }

  /** One turn: the reduced heading is congruent to the old one plus the
      turn, and so stays congruent after the turns `rest` that follow. */
  lemma TurnHeading(angle: int, turn: int, next: int, restAngle: int, rest: int)
    requires next == TruncRem(angle + turn, 360)
    requires Congruent(restAngle, next + rest, 360)
    ensures Congruent(restAngle, angle + (turn + rest), 360)
  {
    TruncRemCongruent(angle + turn, 360);
    CongruentShift(next, angle + turn, rest, 360);
    CongruentTrans(restAngle, next + rest, angle + turn + rest, 360);
  }

  /** Sine and cosine of an angle in degrees (the source converts with
      `deg * Math.PI / 180` and calls `Math.sin`/`Math.cos`), and `Math.sqrt`. */
  datatype Trig = Trig(sinDeg: real -> real, cosDeg: real -> real, sqrt: real -> real)

}
