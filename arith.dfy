/** C++ integer arithmetic that differs from Dafny's: division that truncates
    toward zero, and the small facts about multiplication and division the
    layout proofs are built from. */
module Arith {

  function Abs(x: int): (r: nat)
    ensures r == x || r == -x
  {
    if x < 0 then -x else x
  }

  function Min(a: int, b: int): (r: int)
    ensures r <= a && r <= b && (r == a || r == b)
  {
    if a <= b then a else b
  }

  function Max(a: int, b: int): (r: int)
    ensures r >= a && r >= b && (r == a || r == b)
  {
    if a >= b then a else b
  }

  /** The quotient of C++'s `a / b` for a positive divisor: it truncates
      toward zero, where Dafny's `/` rounds toward negative infinity. */
  function CDiv(a: int, b: int): (q: int)
    requires b > 0
    ensures a >= 0 ==> q == a / b
    ensures a < 0 ==> q == -((-a) / b)
  {
    if a >= 0 then a / b else -((-a) / b)
  }

  lemma {:induction false} MulLeft(a: int, b: int, c: int)
    requires a <= b && c >= 0
    ensures a * c <= b * c
  {
    assert b * c - a * c == (b - a) * c;
  }

  lemma {:induction false} DivMonotone(a: int, b: int, n: int)
    requires 0 <= a <= b && n > 0
    ensures a / n <= b / n
  {
    var qa, qb := a / n, b / n;
    assert qa * n <= a;
    assert b < qb * n + n;
    if qa > qb {
      MulLeft(qb + 1, qa, n);
    }
  }

  lemma {:induction false} MulDivCancel(a: int, n: int)
    requires n > 0
    ensures (a * n) / n == a
  {
    var q, r := (a * n) / n, (a * n) % n;
    assert a * n == q * n + r && 0 <= r < n;
    assert (a - q) * n == r;
    if a - q >= 1 {
      MulLeft(1, a - q, n);
    } else if a - q <= -1 {
      MulLeft(a - q, -1, n);
    }
  }

  /** For a quotient of a fraction of a non-negative span: `(a*k)/n` stays
      within `[0, a]` whenever `0 <= k <= n`. */
  lemma {:induction false} ScaledBetween(a: int, k: int, n: int)
    requires a >= 0 && 0 <= k <= n && n > 0
    ensures 0 <= (a * k) / n <= a
  {
    MulLeft(k, n, a);
    assert k * a <= n * a;
    assert a * k <= a * n;
    DivMonotone(a * k, a * n, n);
    MulDivCancel(a, n);
  }

  lemma {:induction false} ModOfMultiplePlus(q: int, n: int, r: int)
    requires n > 0 && 0 <= r < n
    ensures (q * n + r) % n == r
  {
    var m, d := (q * n + r) % n, (q * n + r) / n;
    assert q * n + r == d * n + m && 0 <= m < n;
    assert (q - d) * n == m - r;
    if q - d >= 1 {
      MulLeft(1, q - d, n);
    } else if q - d <= -1 {
      MulLeft(q - d, -1, n);
    }
  }

  /** Stepping to the successor commutes with taking the remainder. */
  lemma {:induction false} ModSucc(x: int, n: int)
    requires n > 0
    ensures (x % n + 1) % n == (x + 1) % n
  {
    var q, c := x / n, x % n;
    assert x == q * n + c && 0 <= c < n;
    if c + 1 < n {
      ModOfMultiplePlus(q, n, c + 1);
      ModOfMultiplePlus(0, n, c + 1);
    } else {
      assert x + 1 == (q + 1) * n + 0;
      ModOfMultiplePlus(q + 1, n, 0);
      ModOfMultiplePlus(1, n, 0);
    }
  }
}
