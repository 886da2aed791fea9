/** Java's `int` division, which truncates toward zero where Dafny's
    rounds toward negative infinity. */
module JavaInts {

  /** `a / b` in Java for a positive divisor. */
  function TruncDiv(a: int, b: int): (q: int)
    requires b > 0
    ensures a >= 0 ==> q == a / b
    ensures a < 0 ==> q == -((-a) / b)
  {
    if a >= 0 then a / b else -((-a) / b)
  }

  /** The quotient is rounded toward zero: it never exceeds the exact
      quotient in magnitude and falls short of it by less than one. */
  lemma TruncDivRoundsTowardZero(a: int, b: int)
    requires b > 0
    ensures var q := TruncDiv(a, b);
            && (a >= 0 ==> 0 <= q * b <= a < q * b + b)
            && (a < 0 ==> q * b - b < a <= q * b <= 0)
  {
    if a >= 0 {
      NaturalDivision(a, b);
    } else {
      NaturalDivision(-a, b);
      NegatedProduct((-a) / b, b);
    }
  }

  /** Division of a natural number by a positive one leaves a remainder
      below the divisor. */
  lemma NaturalDivision(p: int, b: int)
    requires p >= 0 && b > 0
    ensures 0 <= (p / b) * b <= p < (p / b) * b + b
  {
    var d, r := p / b, p % b;
    assert p == d * b + r && 0 <= r < b;
    assert d >= 0;
    assert d * b >= 0;
  }

  /** Negating a factor negates the product. */
  lemma NegatedProduct(d: int, b: int)
    ensures (-d) * b == -(d * b)
  {
  }
}
