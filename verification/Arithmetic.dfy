/** Division facts: Dafny's `/` is Euclidean, Go's truncates toward zero. */
module Arithmetic {
  lemma {:induction false} DivBelow(a: int, b: int, q: int)
    requires b > 0
    ensures a / b < q <==> a < q * b
  {
    assert a == a / b * b + a % b;
    if a / b < q {
      assert a / b * b <= (q - 1) * b;
    } else {
      assert a / b * b >= q * b;
    }
  }

  lemma {:induction false} Scale(a: int, b: int, c: int)
    requires a <= b && c >= 0
    ensures a * c <= b * c
  {
  }

  /** Go's integer division. */
  function TruncDiv(a: int, b: int): int
    requires b > 0
  {
    if a >= 0 then a / b else -((-a) / b)
  }

  /** q is a/b truncated: less than one away from it, on the side of zero. */
  predicate Truncates(q: int, a: int, b: int)
  {
    var rest := a - q * b;
    -b < rest < b && (a >= 0 ==> rest >= 0) && (a <= 0 ==> rest <= 0)
  }

  lemma {:induction false} TruncDivIs(a: int, b: int)
    requires b > 0
    ensures Truncates(TruncDiv(a, b), a, b)
  {
    if a >= 0 {
      DivMod(a, b);
    } else {
      DivMod(-a, b);
      var q := -a / b;
      assert (-q) * b == -(q * b);
    }
  }

  lemma {:induction false} DivMod(a: int, m: int)
    requires m > 0
    ensures a == a / m * m + a % m && 0 <= a % m < m
  {
  }

  lemma {:induction false} TruncDivBetween(x: int, dst: int, lo: int, hi: int)
    requires dst > 0 && lo <= 0 <= hi && lo * dst <= x <= hi * dst
    ensures lo <= TruncDiv(x, dst) <= hi
  {
    if x >= 0 {
      DivBelow(x, dst, 0);
      DivBelow(x, dst, hi + 1);
    } else {
      DivBelow(-x, dst, 0);
      DivBelow(-x, dst, 1 - lo);
    }
  }

  lemma {:induction false} MultipleDivides(q: int, b: int)
    requires b > 0
    ensures q * b / b == q && q * b % b == 0
  {
    DivBelow(q * b, b, q);
    DivBelow(q * b, b, q + 1);
    assert (q + 1) * b == q * b + b;
  }
}
