/** The JavaScript string built-ins the command interpreters rely on:
    `split`, `trim`, `toLowerCase`, `parseInt` and the `Number` coercion that
    relational operators apply to a string operand. */
module Text {

  datatype Option<T> = None | Some(value: T)

  /** Characters removed by `String.prototype.trim`: the ECMAScript
      WhiteSpace (tab, vertical tab, form feed, space, no-break space, the
      byte order mark and every space separator of Unicode category Zs) and
      LineTerminator (line feed, carriage return, U+2028, U+2029) sets. */
  predicate IsWhite(c: char) {
    c == ' ' || c == '\t' || c == '\n' || c == '\r' || c == '\U{000B}' || c == '\U{000C}'
    || c == '\U{00A0}' || c == '\U{FEFF}' || c == '\U{2028}' || c == '\U{2029}'
    || c == '\U{1680}' || '\U{2000}' <= c <= '\U{200A}' || c == '\U{202F}' || c == '\U{205F}'
    || c == '\U{3000}'
  }

  predicate IsDigit(c: char) { '0' <= c <= '9' }

  function DigitValue(c: char): (d: nat)
    requires IsDigit(c)
    ensures d < 10
  {
    (c as int) - ('0' as int)
  }

  /** The value of `c` as a digit of a base up to 36: `0`-`9`, then the
      letters in either case; 36 for any other character. */
  function DigitVal(c: char): (d: nat)
    ensures d <= 36
    ensures IsDigit(c) ==> d == DigitValue(c)
    ensures d < 36 ==> !IsWhite(c)
  {
    if IsDigit(c) then DigitValue(c)
    else if 'a' <= c <= 'z' then (c as int) - ('a' as int) + 10
    else if 'A' <= c <= 'Z' then (c as int) - ('A' as int) + 10
    else 36
  }

  // ---------------------------------------------------------------- case

  function LowerChar(c: char): char {
    if 'A' <= c <= 'Z' then ((c as int) - ('A' as int) + ('a' as int)) as char else c
  }

  /** `toLowerCase`, for the ASCII letters. */
  function Lower(s: string): (r: string)
    ensures |r| == |s|
    ensures forall i :: 0 <= i < |s| ==> r[i] == LowerChar(s[i])
    ensures forall i :: 0 <= i < |r| ==> !('A' <= r[i] <= 'Z') && (s[i] != r[i] ==> 'A' <= s[i] <= 'Z')
  {
    seq(|s|, i requires 0 <= i < |s| => LowerChar(s[i]))
  }

  // ---------------------------------------------------------------- trim

  function TrimStart(s: string): (r: string)
    ensures |r| <= |s| && r == s[|s| - |r|..]
    ensures r == [] || !IsWhite(r[0])
    ensures forall i :: 0 <= i < |s| - |r| ==> IsWhite(s[i])
  {
    if |s| > 0 && IsWhite(s[0]) then TrimStart(s[1..]) else s
  }

  function TrimEnd(s: string): (r: string)
    ensures |r| <= |s| && r == s[..|r|]
    ensures r == [] || !IsWhite(r[|r| - 1])
    ensures forall i :: |r| <= i < |s| ==> IsWhite(s[i])
  {
    if |s| > 0 && IsWhite(s[|s| - 1]) then TrimEnd(s[..|s| - 1]) else s
  }

  /** `String.prototype.trim`. */
  function Trim(s: string): string {
    TrimEnd(TrimStart(s))
  }

  lemma LowerKeepsWhite(c: char)
    ensures IsWhite(LowerChar(c)) == IsWhite(c)
  {
  }

  lemma {:induction false} TrimStartLower(s: string)
    ensures TrimStart(Lower(s)) == Lower(TrimStart(s))
  {
    if |s| > 0 {
      LowerKeepsWhite(s[0]);
      if IsWhite(s[0]) {
        assert Lower(s)[1..] == Lower(s[1..]);
        TrimStartLower(s[1..]);
      }
    }
  }

  lemma {:induction false} TrimEndLower(s: string)
    ensures TrimEnd(Lower(s)) == Lower(TrimEnd(s))
  {
    if |s| > 0 {
      var n := |s| - 1;
      LowerKeepsWhite(s[n]);
      assert Lower(s)[n] == LowerChar(s[n]);
      if IsWhite(s[n]) {
        assert Lower(s)[..n] == Lower(s[..n]);
        TrimEndLower(s[..n]);
      }
    }
  }

  /** Lower-casing and trimming commute, so the `toLowerCase().trim()` of the
      outer scan and the `trim().toLowerCase()` of the 3D repeat body agree. */
  lemma TrimLowerCommute(s: string)
    ensures Trim(Lower(s)) == Lower(Trim(s))
  {
    TrimStartLower(s);
    TrimEndLower(TrimStart(s));
  }

  // ---------------------------------------------------------------- split

  /** `s.split(sep)` for a one-character separator: the maximal runs between
      separators, in order, including empty ones at either end. */
  function Split(s: string, sep: char): (parts: seq<string>)
    ensures |parts| >= 1
    ensures forall i :: 0 <= i < |parts| ==> sep !in parts[i]
  {
    if |s| == 0 then [""]
    else
      var rest := Split(s[1..], sep);
      if s[0] == sep then [""] + rest
      else [[s[0]] + rest[0]] + rest[1..]
  }

  /** How many times `c` occurs in `s`. */
  function Occurrences(s: string, c: char): nat {
    if s == [] then 0 else (if s[0] == c then 1 else 0) + Occurrences(s[1..], c)
  }

  /** `split` yields one more part than there are separators. */
  lemma {:induction false} SplitCount(s: string, sep: char)
    ensures |Split(s, sep)| == 1 + Occurrences(s, sep)
  {
    if |s| > 0 {
      SplitCount(s[1..], sep);
    }
  }

  /** `parts.join(sep)`. */
  function Join(parts: seq<string>, sep: char): string
    requires |parts| >= 1
  {
    if |parts| == 1 then parts[0] else parts[0] + [sep] + Join(parts[1..], sep)
  }

  lemma {:induction false} JoinSplit(s: string, sep: char)
    ensures Join(Split(s, sep), sep) == s
  {
    if |s| > 0 {
      JoinSplit(s[1..], sep);
      var rest := Split(s[1..], sep);
      if s[0] != sep {
        var parts := Split(s, sep);
        assert parts[1..] == rest[1..];
        if |rest| > 1 {
          assert Join(rest, sep) == rest[0] + [sep] + Join(rest[1..], sep);
        }
      }
    }
  }

  lemma {:induction false} SplitNoSep(s: string, sep: char)
    requires sep !in s
    ensures Split(s, sep) == [s]
  {
    if |s| > 0 {
      SplitNoSep(s[1..], sep);
      assert [s[0]] + s[1..] == s;
    }
  }

  /** A string without the separator splits into itself alone. */
  lemma SplitOne(s: string, sep: char)
    ensures sep !in s ==> Split(s, sep) == [s]
  {
    if sep !in s {
      SplitNoSep(s, sep);
    }
  }

  lemma {:induction false} SplitAround(a: string, b: string, sep: char)
    requires sep !in a
    ensures Split(a + [sep] + b, sep) == [a] + Split(b, sep)
  {
    if |a| == 0 {
      assert a + [sep] + b == [sep] + b;
      assert ([sep] + b)[1..] == b;
    } else {
      assert (a + [sep] + b)[1..] == a[1..] + [sep] + b;
      SplitAround(a[1..], b, sep);
      assert [a[0]] + a[1..] == a;
    }
  }

  /** Splitting undoes joining when no part holds the separator. */
  lemma {:induction false} SplitJoin(parts: seq<string>, sep: char)
    requires |parts| >= 1
    requires forall i :: 0 <= i < |parts| ==> sep !in parts[i]
    ensures Split(Join(parts, sep), sep) == parts
  {
    if |parts| == 1 {
      SplitNoSep(parts[0], sep);
    } else {
      SplitJoin(parts[1..], sep);
      SplitAround(parts[0], Join(parts[1..], sep), sep);
      assert parts == [parts[0]] + parts[1..];
    }
  }
  // ---------------------------------------------------------------- numbers

  predicate AllDigits(s: string) { forall i :: 0 <= i < |s| ==> IsDigit(s[i]) }

  /** The longest prefix of `s` made of decimal digits. */
  function DigitRun(s: string): (d: string)
    ensures |d| <= |s| && d == s[..|d|] && AllDigits(d)
    ensures |d| == |s| || !IsDigit(s[|d|])
  {
    if |s| > 0 && IsDigit(s[0]) then [s[0]] + DigitRun(s[1..]) else []
  }

  /** Every character of `s` is a digit of base `base`. */
  predicate AllRadix(s: string, base: nat) { forall i :: 0 <= i < |s| ==> DigitVal(s[i]) < base }

  /** The longest prefix of `s` made of digits of base `base`. */
  function RadixRun(s: string, base: nat): (d: string)
    ensures |d| <= |s| && d == s[..|d|] && AllRadix(d, base)
    ensures |d| == |s| || DigitVal(s[|d|]) >= base
  {
    if |s| > 0 && DigitVal(s[0]) < base then [s[0]] + RadixRun(s[1..], base) else []
  }

  /** The value of a string of decimal digits, most significant first. */
  function DecValue(d: string): nat
    requires AllDigits(d)
  {
    if d == [] then 0 else 10 * DecValue(d[..|d| - 1]) + DigitValue(d[|d| - 1])
  }

  /** The value of a string of base-`base` digits, most significant first. */
  function RadixValue(d: string, base: nat): nat
    requires AllRadix(d, base)
  {
    if d == [] then 0 else base * RadixValue(d[..|d| - 1], base) + DigitVal(d[|d| - 1])
  }

  function Pow10(n: nat): (p: nat)
    ensures p >= 1
  {
    if n == 0 then 1 else 10 * Pow10(n - 1)
  }

  /** `parseInt(s)` without a radix: leading white space is skipped, then an
      optional sign, then a `0x`/`0X` prefix selects base 16; the longest run of
      digits that follows is the value, and an empty run is `NaN` (`None`). */
  function ParseInt(s: string): Option<int>
  {
    var t := TrimStart(s);
    var neg := |t| > 0 && t[0] == '-';
    var u := if |t| > 0 && (t[0] == '-' || t[0] == '+') then t[1..] else t;
    var magnitude :=
      if |u| >= 2 && u[0] == '0' && (u[1] == 'x' || u[1] == 'X') then
        var h := RadixRun(u[2..], 16);
        if h == [] then None else Some(RadixValue(h, 16))
      else
        var d := DigitRun(u);
        if d == [] then None else Some(DecValue(d));
    match magnitude
    case None => None
    case Some(m) => var v: int := m; Some(if neg then -v else v)
  }

  /** What the `Number` coercion of a string gives: a finite value, an
      infinity, or `NaN`. Values are exact: rounding to the nearest double is
      not modelled. */
  datatype Num = Finite(value: real) | Infinite(negative: bool) | NaN

  /** `m * 10^e` for a signed exponent `e`. */
  function Scale(m: real, e: int): real {
    if e >= 0 then m * Pow10(e) as real else m / Pow10(-e) as real
  }

  /** The exponent part of a decimal literal: nothing (exponent 0), or `e`
      or `E`, an optional sign and at least one digit, ending the string. */
  function Exponent(s: string): Option<int> {
    if s == [] then Some(0)
    else if s[0] != 'e' && s[0] != 'E' then None
    else
      var neg := |s| > 1 && s[1] == '-';
      var d := if |s| > 1 && (s[1] == '-' || s[1] == '+') then s[2..] else s[1..];
      if d != [] && AllDigits(d) then Some(if neg then -(DecValue(d) as int) else DecValue(d)) else None
  }

  /** An unsigned decimal literal: digits, an optional `.` with digits
      after it, and an optional exponent, with at least one digit before or
      after the point. */
  function UnsignedDecimal(u: string): Option<real> {
    var ip := DigitRun(u);
    var rest := u[|ip|..];
    if rest != [] && rest[0] == '.' then
      var fd := DigitRun(rest[1..]);
      Decimal(ip, fd, rest[1 + |fd|..])
    else Decimal(ip, [], rest)
  }

  /** The value of the integer digits `ip`, the fraction digits `fd` and
      the exponent part `tail`. */
  function Decimal(ip: string, fd: string, tail: string): Option<real>
    requires AllDigits(ip) && AllDigits(fd)
  {
    if ip == [] && fd == [] then None
    else
      match Exponent(tail)
      case None => None
      case Some(e) => Some(Scale(DecValue(ip) as real + DecValue(fd) as real / Pow10(|fd|) as real, e))
  }

  /** The base a `0x`, `0o` or `0b` prefix (either case) selects, or 0. */
  function PrefixBase(c: char): nat {
    if c == 'x' || c == 'X' then 16 else if c == 'o' || c == 'O' then 8 else if c == 'b' || c == 'B' then 2 else 0
  }

  /** A binary, octal or hexadecimal literal: the prefix, then at least one
      digit of its base and nothing else (no sign is allowed). */
  function NonDecimal(t: string): Option<nat> {
    if |t| >= 3 && t[0] == '0' && PrefixBase(t[1]) != 0 && AllRadix(t[2..], PrefixBase(t[1])) then
      Some(RadixValue(t[2..], PrefixBase(t[1])))
    else None
  }

  /** The `Number` coercion of a string (ECMAScript's StringToNumber): an
      empty or all-white string is 0; otherwise the trimmed text must be a
      whole binary, octal or hexadecimal literal, or an optionally signed
      `Infinity` or decimal literal; anything else is `NaN`. */
  function ToNumber(s: string): Num {
    var t := Trim(s);
    if t == [] then Finite(0.0)
    else
      match NonDecimal(t)
      case Some(v) => Finite(v as real)
      case None =>
        var neg := t[0] == '-';
        var u := if t[0] == '-' || t[0] == '+' then t[1..] else t;
        if u == "Infinity" then Infinite(neg)
        else
          match UnsignedDecimal(u)
          case Some(m) => Finite(if neg then -m else m)
          case None => NaN
  }

  function DigitChar(d: nat): (c: char)
    requires d < 10
    ensures IsDigit(c) && DigitValue(c) == d
  {
    (('0' as int) + d) as char
  }

  /** The decimal numeral of a natural number. */
  function ShowNat(n: nat): (s: string)
    ensures |s| >= 1 && AllDigits(s)
    ensures s[0] == '0' ==> n == 0 && |s| == 1
  {
    if n < 10 then [DigitChar(n)] else ShowNat(n / 10) + [DigitChar(n % 10)]
  }

  /** The decimal numeral of an integer, with a leading `-` when negative. */
  function ShowInt(n: int): string {
    if n < 0 then "-" + ShowNat(-n) else ShowNat(n)
  }

  lemma {:induction false} DecValueShowNat(n: nat)
    ensures DecValue(ShowNat(n)) == n
  {
    if n >= 10 {
      DecValueShowNat(n / 10);
      var s := ShowNat(n);
      assert s[..|s| - 1] == ShowNat(n / 10);
    }
  }

  lemma {:induction false} DigitRunAll(s: string)
    requires AllDigits(s)
    ensures DigitRun(s) == s
  {
    if |s| > 0 {
      DigitRunAll(s[1..]);
      assert [s[0]] + s[1..] == s;
    }
  }

  lemma ShowIntShape(n: int)
    ensures var s := ShowInt(n);
      |s| >= 1 && !IsWhite(s[0]) && !IsWhite(s[|s| - 1]) && (s[0] == '-' <==> n < 0)
      && (n < 0 ==> s[1..] == ShowNat(-n)) && (n >= 0 ==> s == ShowNat(n))
  {
    var s := ShowInt(n);
    var d := ShowNat(if n < 0 then -n else n);
    assert s[|s| - 1] == d[|d| - 1];
  }

  lemma {:induction false} DecimalReadBack(n: nat)
    ensures var d := ShowNat(n);
      DigitRun(d) == d && DecValue(d) == n && d[|DigitRun(d)|..] == []
      && !(|d| >= 2 && d[0] == '0' && (d[1] == 'x' || d[1] == 'X'))
  {
    DecValueShowNat(n);
    DigitRunAll(ShowNat(n));
  }

  /** `parseInt` reads back every integer numeral. */
  lemma ParseShowInt(n: int)
    ensures ParseInt(ShowInt(n)) == Some(n)
  {
    var s := ShowInt(n);
    ShowIntShape(n);
    DecimalReadBack(if n < 0 then -n else n);
    assert TrimStart(s) == s;
  }

  /** Text with no white space at either end is its own trim. */
  lemma TrimUntouched(s: string)
    requires s != [] && !IsWhite(s[0]) && !IsWhite(s[|s| - 1])
    ensures Trim(s) == s
  {
    assert TrimStart(s) == s;
  }

  /** A trimmed, optionally signed text starting with a decimal digit
      (and not a `0x`/`0o`/`0b` prefix) is read as a decimal literal. */
  lemma NumberDecimal(t: string, u: string)
    requires Trim(t) == t && t != []
    requires u == (if t[0] == '-' || t[0] == '+' then t[1..] else t)
    requires u != [] && IsDigit(u[0]) && (|u| < 2 || u[0] != '0' || PrefixBase(u[1]) == 0)
    ensures ToNumber(t) ==
      match UnsignedDecimal(u)
      case Some(m) => Finite(if t[0] == '-' then -m else m)
      case None => NaN
  {
    assert NonDecimal(t) == None by {
      if |t| >= 3 && t[0] == '0' {
        assert u == t;
      }
    }
    assert u != "Infinity";
  }

  lemma NumberOfDigits(t: string, u: string)
    requires Trim(t) == t && t != []
    requires u == (if t[0] == '-' || t[0] == '+' then t[1..] else t)
    requires u != [] && AllDigits(u)
    ensures ToNumber(t) == Finite(if t[0] == '-' then -(DecValue(u) as real) else DecValue(u) as real)
  {
    assert |u| < 2 || IsDigit(u[1]);
    NumberDecimal(t, u);
    DecimalWhole(u);
    WholeDecimal(u, [], 0);
  }

  /** A run of digits is a decimal literal without fraction or exponent. */
  lemma DecimalWhole(u: string)
    requires u != [] && AllDigits(u)
    ensures UnsignedDecimal(u) == Decimal(u, [], [])
  {
    DigitRunAll(u);
    assert u[|u|..] == [];
  }

  /** `Number` reads back every integer numeral too: on integer tokens the two
      conversions the interpreters use agree. */
  lemma NumberShowInt(n: int)
    ensures ToNumber(ShowInt(n)) == Finite(n as real)
  {
    var s := ShowInt(n);
    var d := ShowNat(if n < 0 then -n else n);
    ShowIntShape(n);
    DecimalReadBack(if n < 0 then -n else n);
    assert Trim(s) == s by {
      assert TrimStart(s) == s;
      assert TrimEnd(s) == s;
    }
    var u := if s[0] == '-' || s[0] == '+' then s[1..] else s;
    assert u == d by {
      if n >= 0 {
        assert IsDigit(d[0]);
      }
    }
    NumberOfDigits(s, u);
  }

  /** `Number` reads a numeral with an exponent, `m` followed by `e` and
      `k`, as `m * 10^k` (where `parseInt` stops at the `e`). */
  lemma NumberExponent(m: nat, k: nat)
    ensures ToNumber(ShowNat(m) + "e" + ShowNat(k)) == Finite(Scale(m as real, k))
  {
    DecValueShowNat(m);
    DecValueShowNat(k);
    NumberExponentDigits(ShowNat(m), ShowNat(k));
  }

  /** Digits, `e` and digits, without a leading zero that could start a
      `0x`/`0o`/`0b` prefix. */
  lemma NumberExponentDigits(d: string, x: string)
    requires d != [] && AllDigits(d) && AllDigits(x) && x != [] && (|d| == 1 || d[0] != '0')
    ensures ToNumber(d + "e" + x) == Finite(Scale(DecValue(d) as real, DecValue(x)))
  {
    var s := d + "e" + x;
    assert s == d + ("e" + x);
    assert s[|s| - 1] == x[|x| - 1] && s[0] == d[0];
    TrimUntouched(s);
    assert |d| == 1 ==> s[1] == 'e';
    NumberDecimal(s, s);
    DecimalExponent(d, x);
  }

  /** Digits, `e` and digits make a decimal literal with that exponent. */
  lemma DecimalExponent(d: string, x: string)
    requires d != [] && AllDigits(d) && AllDigits(x) && x != []
    ensures UnsignedDecimal(d + ("e" + x)) == Some(Scale(DecValue(d) as real, DecValue(x)))
  {
    DecimalParts(d, "e" + x);
    ExponentOf(x);
    WholeDecimal(d, "e" + x, DecValue(x));
  }

  /** Whole digits with an exponent `e` are worth their value times `10^e`. */
  lemma WholeDecimal(ip: string, tail: string, e: int)
    requires ip != [] && AllDigits(ip) && Exponent(tail) == Some(e)
    ensures Decimal(ip, [], tail) == Some(Scale(DecValue(ip) as real, e))
  {
    NoFraction();
  }

  /** Digits followed by something that starts neither a digit nor a
      fraction are the whole part, with that something as the exponent. */
  lemma DecimalParts(d: string, tail: string)
    requires d != [] && AllDigits(d) && tail != [] && !IsDigit(tail[0]) && tail[0] != '.'
    ensures UnsignedDecimal(d + tail) == Decimal(d, [], tail)
  {
    DigitRunPrefix(d, tail);
    assert (d + tail)[|d|..] == tail;
  }

  lemma ExponentOf(x: string)
    requires AllDigits(x) && x != []
    ensures Exponent("e" + x) == Some(DecValue(x))
  {
    assert ("e" + x)[1..] == x;
  }

  /** No fraction digits add nothing. */
  lemma NoFraction()
    ensures DecValue([]) as real / Pow10(0) as real == 0.0
  {
  }

  /** The longest digit run of `d` followed by a non-digit is `d`. */
  lemma {:induction false} DigitRunPrefix(d: string, rest: string)
    requires AllDigits(d) && rest != [] && !IsDigit(rest[0])
    ensures DigitRun(d + rest) == d
  {
    if d == [] {
      assert d + rest == rest;
    } else {
      assert (d + rest)[1..] == d[1..] + rest;
      DigitRunPrefix(d[1..], rest);
      assert [d[0]] + d[1..] == d;
    }
  }

  /** `Number` reads a `0x`, `0o` or `0b` literal in its base. */
  lemma NumberNonDecimal(p: char, d: string)
    requires PrefixBase(p) != 0 && d != [] && AllRadix(d, PrefixBase(p))
    ensures ToNumber(['0', p] + d) == Finite(RadixValue(d, PrefixBase(p)) as real)
  {
    var s := ['0', p] + d;
    assert s[|s| - 1] == d[|d| - 1];
    assert Trim(s) == s by {
      assert TrimStart(s) == s;
      assert TrimEnd(s) == s;
    }
    assert s[2..] == d;
  }

  // ---------------------------------------------------------------- tokens

  /** One statement of the command line, as both interpreters cut it:
      lower-cased, trimmed and split on single spaces. */
  function Tokens(stmt: string): seq<string>
  {
    Split(Trim(Lower(stmt)), ' ')
  }
}
