/** C# integer division and remainder truncate toward zero, unlike Dafny's
    Euclidean `/` and `%`. The source's modular tests are written with these. */
module CSharpArith {

  /** C# `a / b`: the quotient truncated toward zero. */
  function CsDiv(a: int, b: int): int
    requires b != 0
  {
    if a >= 0 then (if b > 0 then a / b else -(a / -b))
    else (if b > 0 then -(-a / b) else -a / -b)
  }

  /** C# `a % b`: the remainder that goes with the truncated quotient,
      so it takes the sign of `a`. */
  function CsRem(a: int, b: int): (r: int)
    requires b != 0
    ensures a == CsDiv(a, b) * b + r
    ensures a >= 0 ==> 0 <= r < (if b > 0 then b else -b)
    ensures a < 0 ==> -(if b > 0 then b else -b) < r <= 0
  {
    if a >= 0 then a % (if b > 0 then b else -b)
    else -((-a) % (if b > 0 then b else -b))
  }

  /** Euclidean division is determined by any decomposition with a
      remainder in range. */
  lemma DivModUnique(a: int, b: int, q: int, r: int)
    requires b > 0 && 0 <= r < b && a == q * b + r
    ensures a / b == q && a % b == r
  {
    var q', r' := a / b, a % b;
    assert a == q' * b + r';
    var d := q - q';
    assert d * b == q * b - q' * b;
    assert d * b == r' - r;
    if d >= 1 {
      MulAtLeast(d, b);
    } else if d <= -1 {
      MulAtLeast(-d, b);
    }
  }

  lemma MulAtLeast(k: int, b: int)
    requires k >= 1 && b > 0
    ensures k * b >= b
  {
    assert k * b == (k - 1) * b + b;
  }

  /** Divisibility does not depend on the rounding convention. */
  lemma CsRemZeroIffDivides(a: int, b: int)
    requires b > 0
    ensures CsRem(a, b) == 0 <==> a % b == 0
  {
    if a < 0 {
      var c := -a;
      var q, r := c / b, c % b;
      if r == 0 {
        DivModUnique(a, b, -q, 0);
      } else {
        DivModUnique(a, b, -q - 1, b - r);
      }
    }
  }
}
