/** Integer helpers with the semantics of the game's `i32` arithmetic. */
module Numeric {

  function Max(a: int, b: int): int { if a >= b then a else b }

  function Min(a: int, b: int): int { if a <= b then a else b }

  /** Division truncating toward zero, which is what Rust's `/` does on signed integers
      (Dafny's own `/` is Euclidean and differs for a negative dividend). */
  function Quot(a: int, b: int): int
    requires b > 0
  {
    if a >= 0 then a / b else -((-a) / b)
  }

  /** The truncated quotient brackets the dividend between two multiples of the divisor,
      on the dividend's side of zero. */
  lemma QuotBounds(a: int, b: int)
    requires b > 0
    ensures a >= 0 ==> 0 <= Quot(a, b) * b <= a < Quot(a, b) * b + b
    ensures a < 0 ==> Quot(a, b) * b - b < a <= Quot(a, b) * b <= 0
  {
    if a >= 0 {
      DivBounds(a, b);
    } else {
      DivBounds(-a, b);
    }
  }

  /** Euclidean division of a natural brackets the dividend between two multiples of the divisor. */
  lemma DivBounds(a: nat, b: int)
    requires b > 0
    ensures 0 <= (a / b) * b <= a < (a / b) * b + b
  {
    assert a == (a / b) * b + a % b;
  }

  /** Multiplying by a non-negative factor keeps the order. */
  lemma MulMonotone(a: int, b: int, c: int)
    requires a <= b && c >= 0
    ensures a * c <= b * c
  {
  }

  /** Euclidean division by a positive divisor is monotone in the dividend. */
  lemma DivMonotone(a: nat, b: nat, d: int)
    requires a <= b && d > 0
    ensures a / d <= b / d
  {
    DivBounds(a, d);
    DivBounds(b, d);
    if a / d > b / d {
      MulMonotone(b / d + 1, a / d, d);
    }
  }

  /** The integer square root, by halving the root of `n / 4`: the largest `r` with
      `r * r <= n` (see `ISqrtBracket`). */
  function ISqrt(n: nat): nat
  {
    if n < 4 then
      (if n == 0 then 0 else 1)
    else
      var r := 2 * ISqrt(n / 4);
      if (r + 1) * (r + 1) <= n then r + 1 else r
  }

  /** `ISqrt(n)` squared is at most `n`, and one more squared exceeds `n`. */
  lemma {:induction false} ISqrtBracket(n: nat)
    ensures ISqrt(n) * ISqrt(n) <= n < (ISqrt(n) + 1) * (ISqrt(n) + 1)
  {
    if n >= 4 {
      ISqrtBracket(n / 4);
      ISqrtStep(n, ISqrt(n / 4));
    }
  }

  /** The step of `ISqrt`: doubling the root of `n / 4` lands within one of the root of `n`. */
  lemma ISqrtStep(n: nat, s: nat)
    requires s * s <= n / 4 < (s + 1) * (s + 1)
    ensures (2 * s) * (2 * s) <= n < (2 * s + 2) * (2 * s + 2)
  {
    assert (2 * s) * (2 * s) == 4 * (s * s);
    assert (2 * s + 2) * (2 * s + 2) == 4 * ((s + 1) * (s + 1));
  }

  /** Squaring is monotone on naturals. */
  lemma SquareMonotone(a: nat, b: nat)
    requires a <= b
    ensures a * a <= b * b
  {
    assert a * a <= a * b <= b * b;
  }

  /** A square at most `n` bounds its integer square root from below. */
  lemma ISqrtAtLeast(n: nat, k: nat)
    requires k * k <= n
    ensures ISqrt(n) >= k
  {
    ISqrtBracket(n);
    if ISqrt(n) < k {
      SquareMonotone(ISqrt(n) + 1, k);
    }
  }

  /** The integer square root is unique: any `r` bracketing `n` is `ISqrt(n)`. */
  lemma ISqrtUnique(n: nat, r: nat)
    requires r * r <= n < (r + 1) * (r + 1)
    ensures ISqrt(n) == r
  {
    var s := ISqrt(n);
    ISqrtBracket(n);
    if s < r {
      SquareMonotone(s + 1, r);
    } else if r < s {
      SquareMonotone(r + 1, s);
    }
  }

  /** The integer square root is monotone. */
  lemma ISqrtMonotone(m: nat, n: nat)
    requires m <= n
    ensures ISqrt(m) <= ISqrt(n)
  {
    ISqrtBracket(m);
    ISqrtBracket(n);
    if ISqrt(n) < ISqrt(m) {
      SquareMonotone(ISqrt(n) + 1, ISqrt(m));
    }
  }
}
