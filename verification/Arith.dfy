/** The few facts about products and quotients that the other proofs use. */
module Arith {
  lemma {:induction false} MulLe(a: int, b: int, c: int)
    requires a <= b && c >= 0
    ensures a * c <= b * c
  {
    assert (b - a) * c >= 0;
  }

  lemma {:induction false} MulAdd(a: int, b: int, c: int)
    ensures (a + b) * c == a * c + b * c
  {
  }

  lemma {:induction false} DivBounds(n: int, i: int)
    requires i >= 1
    ensures (n / i) * i <= n < (n / i) * i + i
  {
    assert n == (n / i) * i + n % i;
  }

  /** The quotient is the greatest multiplier that fits. */
  lemma {:induction false} DivGreatest(d: int, i: int, n: int)
    requires i >= 1
    ensures d <= n / i <==> d * i <= n
  {
    DivBounds(n, i);
    if d <= n / i {
      MulLe(d, n / i, i);
    } else {
      MulLe(n / i + 1, d, i);
      MulAdd(n / i, 1, i);
    }
  }

  lemma {:induction false} DivShift(n: int, i: int)
    requires i >= 1
    ensures (n - i) / i == n / i - 1
  {
    DivBounds(n, i);
    DivBounds(n - i, i);
    DivGreatest(n / i - 1, i, n - i);
    DivGreatest((n - i) / i + 1, i, n);
    MulAdd(n / i, -1, i);
    MulAdd((n - i) / i, 1, i);
  }
}
