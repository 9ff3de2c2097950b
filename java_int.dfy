/**
 * Java's 32-bit `int` arithmetic where the modelled code depends on it: wrap-around of `*`,
 * `String.hashCode`, `Math.abs`, the truncating `%` and the `%010d` format.
 */
module JavaInt {
  import opened JavaText

  const TWO_32: int := 0x1_0000_0000
  const MIN_INT: int := -0x8000_0000
  const MAX_INT: int := 0x7FFF_FFFF

  predicate IsInt32(x: int) { MIN_INT <= x <= MAX_INT }

  /** Congruence modulo 2^32: the two integers have the same 32-bit representation. */
  predicate Congruent32(x: int, y: int) { (x - y) % TWO_32 == 0 }

  /** The `int` that Java keeps of a mathematical result: its low 32 bits, read as signed. */
  function Wrap32(x: int): (r: int)
    ensures IsInt32(r) && Congruent32(x, r)
    ensures IsInt32(x) ==> r == x
  {
    var q := (x - MIN_INT) / TWO_32;
    assert x - MIN_INT == TWO_32 * q + (x - MIN_INT) % TWO_32;
    (x - MIN_INT) % TWO_32 + MIN_INT
  }

  /** Java's `a * b` on `int`. */
  function Mul32(a: int, b: int): (r: int)
    ensures IsInt32(r) && Congruent32(r, a * b)
    ensures IsInt32(a * b) ==> r == a * b
  {
    Wrap32(a * b)
  }

  /** Java's `Math.abs(int)`: the absolute value, except that `Integer.MIN_VALUE` stays negative. */
  function Abs32(x: int): (r: int)
    requires IsInt32(x)
    ensures IsInt32(r)
    ensures r >= 0 <==> x != MIN_INT
    ensures x != MIN_INT ==> r == x || r == -x
  {
    if x == MIN_INT then MIN_INT else if x < 0 then -x else x
  }

  /** Java's `/` by a positive divisor: the quotient is truncated toward zero. */
  function Quot(a: int, m: int): (r: int)
    requires m > 0
    ensures a >= 0 ==> r == a / m
    ensures a <= 0 ==> r <= 0
    ensures -m < a < m ==> r == 0
  {
    if a >= 0 then a / m else -((-a) / m)
  }

  /** Java's `%` by a positive divisor: the remainder takes the sign of the dividend. */
  function Rem(a: int, m: int): (r: int)
    requires m > 0
    ensures a >= 0 ==> 0 <= r < m
    ensures a < 0 ==> -m < r <= 0
    ensures a == m * Quot(a, m) + r
  {
    if a >= 0 then a % m
    else
      var q := (-a) / m;
      assert -a == m * q + (-a) % m;
      assert m * -q == -(m * q);
      -((-a) % m)
  }

  /** `String.hashCode` as the JDK computes it: `h = 31 * h + c` over the characters, in `int`. */
  function HashCode(s: string): (h: int)
    ensures IsInt32(h)
  {
    if s == [] then 0 else Wrap32(31 * HashCode(s[..|s| - 1]) + s[|s| - 1] as int)
  }

  function Pow(b: int, k: nat): int
  {
    if k == 0 then 1 else b * Pow(b, k - 1)
  }

  /** The documented definition: `s[0]*31^(n-1) + s[1]*31^(n-2) + ... + s[n-1]`. */
  function HashPolynomial(s: string): int
  {
    if s == [] then 0 else s[0] as int * Pow(31, |s| - 1) + HashPolynomial(s[1..])
  }

  lemma {:induction false} HashPolynomialSnoc(s: string, c: char)
    ensures HashPolynomial(s + [c]) == 31 * HashPolynomial(s) + c as int
    decreases |s|
  {
    if s != [] {
      assert (s + [c])[1..] == s[1..] + [c];
      HashPolynomialSnoc(s[1..], c);
      var p := Pow(31, |s| - 1);
      assert Pow(31, |s|) == 31 * p;
      calc {
        HashPolynomial(s + [c]);
        s[0] as int * Pow(31, |s|) + HashPolynomial(s[1..] + [c]);
        s[0] as int * (31 * p) + 31 * HashPolynomial(s[1..]) + c as int;
        { assert s[0] as int * (31 * p) == 31 * (s[0] as int * p); }
        31 * (s[0] as int * p + HashPolynomial(s[1..])) + c as int;
      }
    } else {
      assert s + [c] == [c];
    }
  }

  lemma ScaleCongruent(x: int, y: int)
    requires Congruent32(x, y)
    ensures Congruent32(31 * x, 31 * y)
  {
    var q := (x - y) / TWO_32;
    assert x - y == TWO_32 * q;
    assert 31 * x - 31 * y == TWO_32 * (31 * q);
  }

  lemma ShiftCongruent(x: int, y: int, c: int)
    requires Congruent32(x, y)
    ensures Congruent32(x + c, y + c)
  {
    assert (x + c) - (y + c) == x - y;
  }

  lemma TransCongruent(x: int, y: int, z: int)
    requires Congruent32(x, y) && Congruent32(y, z)
    ensures Congruent32(x, z)
  {
    var a := (x - y) / TWO_32;
    var b := (y - z) / TWO_32;
    assert x - y == TWO_32 * a;
    assert y - z == TWO_32 * b;
    assert x - z == TWO_32 * (a + b);
  }

  lemma SymCongruent(x: int, y: int)
    requires Congruent32(x, y)
    ensures Congruent32(y, x)
  {
    var a := (x - y) / TWO_32;
    assert x - y == TWO_32 * a;
    assert y - x == TWO_32 * -a;
  }

  /** The JDK's loop computes the documented polynomial, reduced to 32 bits. */
  lemma {:induction false} HashCodeIsPolynomial(s: string)
    ensures Congruent32(HashCode(s), HashPolynomial(s))
    ensures HashCode(s) == Wrap32(HashPolynomial(s))
    decreases |s|
  {
    if s != [] {
      var p, c := s[..|s| - 1], s[|s| - 1];
      assert s == p + [c];
      HashCodeIsPolynomial(p);
      HashPolynomialSnoc(p, c);
      ScaleCongruent(HashCode(p), HashPolynomial(p));
      var x := 31 * HashCode(p) + c as int;
      ShiftCongruent(31 * HashCode(p), 31 * HashPolynomial(p), c as int);
      assert Congruent32(x, HashPolynomial(s));
      assert Congruent32(x, HashCode(s));
      SymCongruent(x, HashCode(s));
      TransCongruent(HashCode(s), x, HashPolynomial(s));
    }
    SymCongruent(HashCode(s), HashPolynomial(s));
    WrapOfCongruent(HashPolynomial(s), HashCode(s));
  }

  /** An `int` congruent to `x` is the wrapped `x`. */
  lemma WrapOfCongruent(x: int, r: int)
    requires IsInt32(r) && Congruent32(x, r)
    ensures Wrap32(x) == r
  {
    var w := Wrap32(x);
    assert Congruent32(w, r) by {
      var a := (x - w) / TWO_32;
      var b := (x - r) / TWO_32;
      assert x - w == TWO_32 * a;
      assert x - r == TWO_32 * b;
      assert w - r == TWO_32 * (b - a);
    }
  }

  /** `String.format("%010d", v)`: at least ten characters, zero-padded after the sign. */
  function Format010(v: int): (r: string)
    ensures |r| >= 10
    ensures r[0] == '-' <==> v < 0
    ensures 0 <= v < Pow10(10) ==> |r| == 10 && AllDigits(r) && Value(r) == v
  {
    if v >= 0 then
      if v < Pow10(10) then
        DigitsLength(v, 10);
        DigitsValue(v);
        ZeroPadDigits(Digits(v), 10);
        ZeroPad(Digits(v), 10)
      else
        ZeroPad(Digits(v), 10)
    else "-" + ZeroPad(Digits(-v), 9)
  }
}
