/** Rational multipliers: what a number of raw bytes is charged, and how many raw bytes a budget buys. */
module Rates {

  /** The charge for `v` bytes at `num / den`, rounded up. */
  function Priced(v: int, num: int, den: int): int {
    if den > 0 then (v * num + den - 1) / den else 0
  }

  /** The raw bytes that a budget buys, rounded down. */
  function Raw(budget: int, num: int, den: int): int {
    if num > 0 then budget * den / num else 0
  }

  /** Exactly the least integer that is at least `v * num / den`. */
  lemma ChargeIsCeiling(v: int, num: int, den: int)
    requires den > 0
    ensures var c := Priced(v, num, den); v * num <= c * den < v * num + den
  {
    var x := v * num + den - 1;
    assert x == den * (x / den) + x % den;
    assert den * (x / den) == (x / den) * den;
  }

  lemma RawIsFloor(budget: int, num: int, den: int)
    requires num > 0
    ensures var r := Raw(budget, num, den); r * num <= budget * den < r * num + num
  {
    var x := budget * den;
    assert x == num * (x / num) + x % num;
    assert num * (x / num) == (x / num) * num;
  }

  lemma MulLess(a: int, b: int, d: int)
    requires d > 0 && a * d < b * d + d
    ensures a <= b
  {
    if a > b {
      assert a >= b + 1;
      MulMonotone(b + 1, a, d);
    }
  }

  lemma MulMonotone(a: int, b: int, d: int)
    requires a <= b && d >= 0
    ensures a * d <= b * d
  {
    assert (b - a) * d >= 0;
    assert b * d == a * d + (b - a) * d;
  }

  lemma ChargeIsMonotone(v: int, w: int, num: int, den: int)
    requires v <= w && num >= 0 && den > 0
    ensures Priced(v, num, den) <= Priced(w, num, den)
  {
    ChargeIsCeiling(v, num, den);
    ChargeIsCeiling(w, num, den);
    MulMonotone(v, w, num);
    MulLess(Priced(v, num, den), Priced(w, num, den), den);
  }

  lemma ChargeOfNothing(num: int, den: int)
    requires den > 0
    ensures Priced(0, num, den) == 0
  {
    assert 0 * num == 0;
    assert (den - 1) / den == 0;
  }

  /** What a budget buys never costs more than the budget. */
  lemma BudgetCoversItsBytes(budget: int, num: int, den: int)
    requires num > 0 && den > 0
    ensures Priced(Raw(budget, num, den), num, den) <= budget
  {
    var r := Raw(budget, num, den);
    RawIsFloor(budget, num, den);
    ChargeIsCeiling(r, num, den);
    MulLess(Priced(r, num, den), budget, den);
  }
}
