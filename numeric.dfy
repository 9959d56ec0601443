/** Python's numeric operators used by the generator, over Dafny's unbounded `int` and `real`,
    and the facts about linear interpolation that every dimension rule rests on. */
module Numeric {

  /** Python's `a // b` for a positive divisor: the quotient rounded toward negative infinity.
      (Dafny's `/` is Euclidean; for a positive divisor the two agree, which the contract pins down.) */
  function FloorDiv(a: int, b: int): (q: int)
    requires b > 0
    ensures b * q <= a < b * q + b
  {
    a / b
  }

  /** Python's built-in `max` on two integers. */
  function Max(a: int, b: int): (m: int)
    ensures m >= a && m >= b
    ensures m == a || m == b
  {
    if a >= b then a else b
  }

  /** Python's `int(x)` for a non-negative float: truncation, which is the floor there. */
  function Trunc(x: real): (n: nat)
    requires x >= 0.0
    ensures n as real <= x < n as real + 1.0
  {
    x.Floor
  }

  /** Python's `math.ceil(x)`: the least integer not below `x`. */
  function Ceil(x: real): (n: int)
    ensures n as real - 1.0 < x <= n as real
  {
    -((-x).Floor)
  }

  /** `x` lies between `a` and `b`, whichever of the two is the smaller. */
  predicate Between(x: real, a: real, b: real)
  {
    (a <= x <= b) || (b <= x <= a)
  }

  /** The interpolation both dimension rules share: `small + (large - small) * ratio`. */
  function Lerp(small: real, large: real, ratio: real): (v: real)
    ensures ratio == 0.0 ==> v == small
    ensures ratio == 1.0 ==> v == large
  {
    small + (large - small) * ratio
  }

  /** A ratio in [0, 1] keeps the interpolated value between its two ends. */
  lemma LerpBetween(small: real, large: real, ratio: real)
    requires 0.0 <= ratio <= 1.0
    ensures Between(Lerp(small, large, ratio), small, large)
  {
    var span, rest := large - small, 1.0 - ratio;
    assert span * ratio + span * rest == span;
    if small <= large {
      ProductNonNegative(span, ratio);
      ProductNonNegative(span, rest);
    } else {
      ProductNonNegative(-span, ratio);
      ProductNonNegative(-span, rest);
    }
  }

  /** The product of two non-negative reals is non-negative. */
  lemma ProductNonNegative(a: real, b: real)
    requires a >= 0.0 && b >= 0.0
    ensures a * b >= 0.0
  {
  }

  /** Interpolation follows the ratio: upward when `small <= large`, downward otherwise. */
  lemma LerpMonotone(small: real, large: real, r1: real, r2: real)
    requires r1 <= r2
    ensures small <= large ==> Lerp(small, large, r1) <= Lerp(small, large, r2)
    ensures large <= small ==> Lerp(small, large, r2) <= Lerp(small, large, r1)
  {
    assert (large - small) * r2 - (large - small) * r1 == (large - small) * (r2 - r1);
    if small <= large {
      ProductNonNegative(large - small, r2 - r1);
    } else {
      ProductNonNegative(small - large, r2 - r1);
    }
  }

  /** With distinct ends, two ratios give the same value exactly when they are equal. */
  lemma LerpInjective(small: real, large: real, r1: real, r2: real)
    requires small != large
    ensures Lerp(small, large, r1) == Lerp(small, large, r2) <==> r1 == r2
  {
    assert (large - small) * r2 - (large - small) * r1 == (large - small) * (r2 - r1);
  }

  /** Dividing integers by the same positive integer keeps their order, strictly. */
  lemma RatioMonotone(a: int, b: int, d: int)
    requires d > 0 && a <= b
    ensures a as real / d as real <= b as real / d as real
    ensures a < b ==> a as real / d as real < b as real / d as real
  {
    assert b as real / d as real - a as real / d as real == (b - a) as real / d as real;
  }

  /** Multiplying by a positive factor keeps an order, strict or not. */
  lemma ScaleByPositive(a: real, b: real, c: real)
    requires c > 0.0
    ensures a <= b ==> a * c <= b * c
    ensures a < b ==> a * c < b * c
  {
    var d := b - a;
    assert b * c - a * c == d * c;
  }

  /** One more step of length `c` after `i` steps. */
  lemma NextMultiple(i: int, c: real)
    ensures (i + 1) as real * c == i as real * c + c
  {
  }

  /** `b ==> Between(Lerp(...))`, for use inside function bodies. */
  lemma LerpBetweenIf(b: bool, small: real, large: real, ratio: real)
    requires b ==> 0.0 <= ratio <= 1.0
    ensures b ==> Between(Lerp(small, large, ratio), small, large)
  {
    if b {
      LerpBetween(small, large, ratio);
    }
  }
}
