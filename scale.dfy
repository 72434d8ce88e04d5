/** Arithmetic shared by the questionnaire scorers: Likert items, their sum,
    Python's `round` (half to even) on an exact fraction, and the
    `max(lo, min(hi, x))` clamp. */
module Scale {

  /** One Likert response is accepted when it lies in 1..5. */
  predicate IsLikert(x: int) {
    1 <= x <= 5
  }

  predicate AllLikert(items: seq<int>) {
    forall i :: 0 <= i < |items| ==> IsLikert(items[i])
  }

  /** `sum(items)` */
  function Sum(items: seq<int>): int {
    if items == [] then 0 else Sum(items[..|items| - 1]) + items[|items| - 1]
  }

  /** n accepted items sum to between n and 5n. */
  lemma {:induction false} SumBounds(items: seq<int>)
    requires AllLikert(items)
    ensures |items| <= Sum(items) <= 5 * |items|
  {
    if items != [] {
      SumBounds(items[..|items| - 1]);
    }
  }

  /** The sum of n copies of v is n * v. */
  lemma {:induction false} SumConstant(items: seq<int>, v: int)
    requires forall i :: 0 <= i < |items| ==> items[i] == v
    ensures Sum(items) == |items| * v
  {
    if items != [] {
      SumConstant(items[..|items| - 1], v);
    }
  }

  /** `r` is a nearest integer to a / b, the even one at a tie. */
  predicate RoundsHalfEven(a: int, b: int, r: int)
    requires b > 0
  {
    && -b <= 2 * (a - b * r) <= b
    && (2 * (a - b * r) == b || 2 * (a - b * r) == -b ==> r % 2 == 0)
  }

  /** `round(a / b)` for an exact fraction (Python rounds half to even) */
  function RoundHalfEven(a: int, b: int): (r: int)
    requires b > 0
    ensures RoundsHalfEven(a, b, r)
  {
    var q := a / b;
    var m := a % b;
    assert a == b * q + m;
    if 2 * m < b then q
    else if 2 * m > b then q + 1
    else if q % 2 == 0 then q
    else q + 1
  }

  /** b * x + b <= b * y once x < y, for positive b */
  lemma MulStep(b: int, x: int, y: int)
    requires b > 0 && x < y
    ensures b * x + b <= b * y
  {
    var d := y - x;
    assert b * y == b * x + b * d;
    assert b * d >= b by {
      assert b * d == b + b * (d - 1);
      assert b * (d - 1) >= 0;
    }
  }

  /** Two integers that both round a / b half to even are equal. */
  lemma RoundsHalfEvenOnce(a: int, b: int, r: int, s: int)
    requires b > 0 && RoundsHalfEven(a, b, r) && RoundsHalfEven(a, b, s)
    requires r <= s
    ensures r == s
  {
    if r < s {
      MulStep(b, r, s);
      if r + 1 < s {
        MulStep(b, r + 1, s);
      }
      assert false;
    }
  }

  /** Only one integer rounds a / b half to even. */
  lemma RoundHalfEvenUnique(a: int, b: int, r: int)
    requires b > 0 && RoundsHalfEven(a, b, r)
    ensures r == RoundHalfEven(a, b)
  {
    var s := RoundHalfEven(a, b);
    if r <= s {
      RoundsHalfEvenOnce(a, b, r, s);
    } else {
      RoundsHalfEvenOnce(a, b, s, r);
    }
  }

  /** A larger fraction never rounds to a smaller integer. */
  lemma RoundsHalfEvenMonotone(a1: int, a2: int, b: int, r1: int, r2: int)
    requires b > 0 && a1 < a2 && RoundsHalfEven(a1, b, r1) && RoundsHalfEven(a2, b, r2)
    ensures r1 <= r2
  {
    if r2 < r1 {
      MulStep(b, r2, r1);
      assert false;
    }
  }

  lemma RoundHalfEvenMonotone(a1: int, a2: int, b: int)
    requires b > 0 && a1 <= a2
    ensures RoundHalfEven(a1, b) <= RoundHalfEven(a2, b)
  {
    if a1 < a2 {
      RoundsHalfEvenMonotone(a1, a2, b, RoundHalfEven(a1, b), RoundHalfEven(a2, b));
    }
  }

  /** Scaling a fraction's terms keeps the rounded value. */
  lemma RoundsHalfEvenScaled(a: int, b: int, k: int, r: int)
    requires b > 0 && k > 0 && RoundsHalfEven(a, b, r)
    ensures k * b > 0 && RoundsHalfEven(k * a, k * b, r)
  {
    var d := a - b * r;
    assert k * b > 0 by {
      MulStep(k, 0, b);
    }
    assert k * a - (k * b) * r == k * d;
    assert 2 * (k * d) == k * (2 * d);
    assert k * (2 * d) <= k * b by {
      if 2 * d < b { MulStep(k, 2 * d, b); }
    }
    assert -(k * b) <= k * (2 * d) by {
      assert -(k * b) == k * (-b);
      if -b < 2 * d { MulStep(k, -b, 2 * d); }
    }
    if k * (2 * d) == k * b {
      if 2 * d < b { MulStep(k, 2 * d, b); }
      if b < 2 * d { MulStep(k, b, 2 * d); }
    }
    if k * (2 * d) == -(k * b) {
      assert -(k * b) == k * (-b);
      if 2 * d < -b { MulStep(k, 2 * d, -b); }
      if -b < 2 * d { MulStep(k, -b, 2 * d); }
    }
  }

  lemma RoundHalfEvenScale(a: int, b: int, k: int)
    requires b > 0 && k > 0
    ensures k * b > 0 && RoundHalfEven(k * a, k * b) == RoundHalfEven(a, b)
  {
    RoundsHalfEvenScaled(a, b, k, RoundHalfEven(a, b));
    RoundHalfEvenUnique(k * a, k * b, RoundHalfEven(a, b));
  }

  /** `max(lo, min(hi, x))` */
  function Clamp(lo: int, hi: int, x: int): (r: int)
    requires lo <= hi
    ensures lo <= r <= hi
    ensures lo <= x <= hi ==> r == x
    ensures x < lo ==> r == lo
    ensures hi < x ==> r == hi
  {
    if x < lo then lo else if hi < x then hi else x
  }
}
