/** Integer facts the solver does not find by itself: multiplication order, rounding division. */
module Arithmetic {

  lemma MulLe(x: int, y: int, b: int)
    requires x <= y && b >= 0
    ensures x * b <= y * b
  {
    assert (y - x) * b >= 0;
    assert y * b - x * b == (y - x) * b;
  }

  lemma MulStep(x: int, b: int)
    ensures (x - 1) * b == x * b - b
    ensures (x + 1) * b == x * b + b
  {}

  lemma {:induction false} TimesAdds(m: int, a: nat, b: nat)
    ensures Times(m, a + b) == Times(m, a) + Times(m, b)
  {
    if b > 0 {
      TimesAdds(m, a, b - 1);
    }
  }

  lemma {:induction false} TimesDistributes(a: int, b: int, k: nat)
    ensures Times(a - b, k) == Times(a, k) - Times(b, k)
  {
    if k > 0 {
      TimesDistributes(a, b, k - 1);
    }
  }

  lemma {:induction false} TimesGrows(a: int, b: int, k: nat)
    requires 0 <= a <= b
    ensures 0 <= Times(a, k) <= Times(b, k)
  {
    if k > 0 {
      TimesGrows(a, b, k - 1);
    }
  }

  lemma Distribute(n: int, a: int, b: int)
    ensures n * (a - b) == n * a - n * b
  {}

  /** `m` added up `k` times. */
  function Times(m: int, k: nat): int { if k == 0 then 0 else Times(m, k - 1) + m }

  lemma {:induction false} TimesIsProduct(m: int, k: nat)
    ensures Times(m, k) == k * m
  {
    if k > 0 {
      TimesIsProduct(m, k - 1);
      MulStep(k, m);
    }
  }

  /** Division rounding up, for a positive divisor. */
  function CeilDiv(a: int, b: int): int
    requires b >= 1
  {
    (a + b - 1) / b
  }

  lemma DivUnique(n: int, b: int, q: int, r: int)
    requires b >= 1 && n == q * b + r && 0 <= r < b
    ensures n / b == q
  {
    var p, s := n / b, n % b;
    assert n == p * b + s;
    if p > q {
      MulLe(q + 1, p, b);
      MulStep(q, b);
      assert false;
    } else if p < q {
      MulLe(p + 1, q, b);
      MulStep(p, b);
      assert false;
    }
  }

  lemma ModUnique(n: int, b: int, q: int, r: int)
    requires b >= 1 && n == q * b + r && 0 <= r < b
    ensures n % b == r
  {
    DivUnique(n, b, q, r);
    assert n == (n / b) * b + n % b;
  }

  lemma CeilDivFacts(a: int, b: int)
    requires b >= 1
    ensures (CeilDiv(a, b) - 1) * b < a <= CeilDiv(a, b) * b
    ensures a > 0 ==> CeilDiv(a, b) >= 1
  {
    var q, r := (a + b - 1) / b, (a + b - 1) % b;
    assert a + b - 1 == q * b + r;
    MulStep(q, b);
    if a > 0 && q <= 0 {
      MulLe(q, 0, b);
      assert false;
    }
  }

  /** Only one number of pages fits between neighbouring multiples. */
  lemma CeilDivUnique(a: int, b: int, q: int)
    requires b >= 1 && (q - 1) * b < a <= q * b
    ensures CeilDiv(a, b) == q
  {
    MulStep(q, b);
    DivUnique(a + b - 1, b, q, a + b - 1 - q * b);
  }

  /** `x` to the power of `n`. */
  function Power(x: real, n: nat): real { if n == 0 then 1.0 else x * Power(x, n - 1) }

  lemma {:induction false} PowerInUnit(x: real, n: nat)
    requires 0.0 <= x <= 1.0
    ensures 0.0 <= Power(x, n) <= 1.0
  {
    if n > 0 {
      PowerInUnit(x, n - 1);
      ScaleDown(x, Power(x, n - 1));
    }
  }

  /** What is multiplied by `f` in each step. */
  lemma {:induction false} Geometric(x: seq<real>, f: real, n: nat)
    requires n < |x| && forall i :: 0 <= i < n ==> x[i + 1] == f * x[i]
    ensures x[n] == Power(f, n) * x[0]
  {
    if n > 0 {
      Geometric(x, f, n - 1);
      OneMoreFactor(f, Power(f, n - 1), x[0], x[n - 1]);
    }
  }

  lemma OneMoreFactor(f: real, power: real, start: real, now: real)
    requires now == power * start
    ensures f * now == (f * power) * start
  {}

  lemma ScaleDown(x: real, y: real)
    requires 0.0 <= x <= 1.0 && 0.0 <= y
    ensures 0.0 <= x * y <= y
  {
    assert (1.0 - x) * y >= 0.0;
  }

  /** Higher powers of a number between zero and one are smaller. */
  lemma {:induction false} PowerFalls(x: real, m: nat, n: nat)
    requires 0.0 <= x <= 1.0 && m <= n
    ensures Power(x, n) <= Power(x, m)
    decreases n - m
  {
    if m < n {
      PowerFalls(x, m, n - 1);
      PowerInUnit(x, n - 1);
      ScaleDown(x, Power(x, n - 1));
    }
  }

  /** What holds at `k`, and at each number's successor if at the number, holds from `k` on. */
  lemma {:induction false} CountUp(good: nat -> bool, k: nat, j: nat)
    requires k <= j && good(k)
    requires forall n: nat :: good(n) ==> good(n + 1)
    ensures good(j)
    decreases j - k
  {
    if k < j {
      CountUp(good, k, j - 1);
    }
  }
}
