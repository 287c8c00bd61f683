/** What a refunded purchase gives back: quota and commission in proportion, however the refund is split. */
module Refunds {
  import opened Rates

  /** The part `n / d` of a total, rounded down. */
  function Fraction(total: int, n: int, d: int): int {
    if d > 0 then total * n / d else 0
  }

  lemma FractionIsFloor(total: int, n: int, d: int)
    requires d > 0
    ensures var f := Fraction(total, n, d); f * d <= total * n < f * d + d
  {
    var x := total * n;
    assert x == d * (x / d) + x % d;
    assert d * (x / d) == (x / d) * d;
  }

  lemma FractionIsMonotone(total: int, m: int, n: int, d: int)
    requires d > 0 && 0 <= total && m <= n
    ensures Fraction(total, m, d) <= Fraction(total, n, d)
  {
    FractionIsFloor(total, m, d);
    FractionIsFloor(total, n, d);
    MulMonotone(m, n, total);
    MulLess(Fraction(total, m, d), Fraction(total, n, d), d);
  }

  lemma WholeFraction(total: int, d: int)
    requires d > 0
    ensures Fraction(total, d, d) == total && Fraction(total, 0, d) == 0
  {
    FractionIsFloor(total, d, d);
    MulLess(total, Fraction(total, d, d), d);
    MulLess(Fraction(total, d, d), total, d);
    assert total * 0 == 0;
  }

  // ----- Earning a commission -----

  /** The commission on a price at a rate in basis points, multiplied in two parts so that nothing overflows. */
  function CommissionOn(price: int, rate: int): int {
    price / 10000 * rate + price % 10000 * rate / 10000
  }

  /** The split multiplication is exact: it is the share of the price rounded down, and never more than the price. */
  lemma CommissionIsFloor(price: int, rate: int)
    requires 0 <= price && 0 <= rate
    ensures CommissionOn(price, rate) == Fraction(price, rate, 10000) && 0 <= CommissionOn(price, rate)
    ensures rate <= 10000 ==> CommissionOn(price, rate) <= price
  {
    var q, m := price / 10000, price % 10000;
    var x := m * rate;
    assert x == 10000 * (x / 10000) + x % 10000;
    assert price * rate == (10000 * q + m) * rate == 10000 * (q * rate) + x;
    FractionIsFloor(price, rate, 10000);
    assert 10000 * CommissionOn(price, rate) <= price * rate < 10000 * CommissionOn(price, rate) + 10000;
    FractionIsMonotone(price, 0, rate, 10000);
    if rate <= 10000 {
      FractionIsMonotone(price, rate, 10000, 10000);
    }
    WholeFraction(price, 10000);
    hide Fraction;
  }

  // ----- Splitting a refund -----

  function Total(amounts: seq<int>): int {
    if amounts == [] then 0 else amounts[0] + Total(amounts[1..])
  }

  /** What successive refunds remove, each rounding against what was refunded before it. */
  function RemovedBy(quota: int, price: int, refunded: int, amounts: seq<int>): int
    decreases |amounts|
  {
    if amounts == [] then 0
    else Fraction(quota, refunded + amounts[0], price) - Fraction(quota, refunded, price)
         + RemovedBy(quota, price, refunded + amounts[0], amounts[1..])
  }

  /** However a refund is split, exactly the rounded-down share of the whole is removed. */
  lemma {:induction false} SplitRemovesTheSame(quota: int, price: int, refunded: int, amounts: seq<int>)
    ensures RemovedBy(quota, price, refunded, amounts)
         == Fraction(quota, refunded + Total(amounts), price) - Fraction(quota, refunded, price)
    decreases |amounts|
  {
    if amounts != [] {
      SplitRemovesTheSame(quota, price, refunded + amounts[0], amounts[1..]);
    }
  }

  // ----- A purchase, its quota and its commission -----

  datatype Status = Due | Paid | Reversed

  /**
   * `reversed` of the amount was taken back by refunds; `net` is what the inviter's wallet has got for it. An amount
   * of zero stands for a purchase that nobody earns on.
   */
  datatype Commission = Commission(amount: int, status: Status, reversed: int, net: int)

  class Purchase {
    const price: int
    const quota: int
    var refunded: int
    var removed: int
    var commission: Commission

    ghost predicate Valid()
      reads this
    {
      && 0 < price && 0 <= quota && 0 <= refunded <= price && 0 <= commission.amount
      && removed == Fraction(quota, refunded, price)
      && match commission.status
         case Due => commission.reversed == Fraction(commission.amount, refunded, price) && commission.net == 0
         case Paid => commission.reversed == Fraction(commission.amount, refunded, price) && commission.net == commission.amount - commission.reversed
         case Reversed => commission.net == 0
    }

    constructor (price: int, quota: int, amount: int)
      requires 0 < price && 0 <= quota && 0 <= amount
      ensures Valid() && refunded == 0 && removed == 0 && commission == Commission(amount, Due, 0, 0)
      ensures this.price == price && this.quota == quota
    {
      this.price, this.quota, refunded, removed, commission := price, quota, 0, 0, Commission(amount, Due, 0, 0);
      WholeFraction(quota, price);
      WholeFraction(amount, price);
    }

    /**
     * Refund part of the price. `removable` is the quota that is neither used nor reserved, and `held` is what the
     * inviter's wallet holds; the refund is refused if either is too small.
     */
    method RefundPart(amount: int, removable: int, held: int) returns (ok: bool)
      requires Valid()
      modifies this`refunded, this`removed, this`commission
      ensures Valid()
      ensures var share := Fraction(quota, old(refunded) + amount, price) - old(removed);
              var taken := Fraction(old(commission).amount, old(refunded) + amount, price) - old(commission).reversed;
              ok <==> && 0 < amount <= price - old(refunded) && (share == 0 || share <= removable)
                      && (old(commission).status == Paid ==> taken == 0 || taken <= held)
      ensures ok ==> refunded == old(refunded) + amount
      ensures !ok ==> refunded == old(refunded) && removed == old(removed) && commission == old(commission)
      ensures ok ==> removed == Fraction(quota, refunded, price)
      ensures commission.amount == old(commission).amount
      ensures ok ==> old(commission).net - commission.net ==
                     if old(commission).status == Paid then Fraction(commission.amount, refunded, price) - old(commission).reversed else 0
      ensures ok && commission.status == Paid ==> commission.net == commission.amount - Fraction(commission.amount, refunded, price)
      ensures ok && refunded == price ==> removed == quota && commission.net == 0
    {
      if amount <= 0 || amount > price - refunded { return false; }
      FractionIsMonotone(quota, refunded, refunded + amount, price);
      FractionIsMonotone(commission.amount, refunded, refunded + amount, price);
      FractionIsMonotone(commission.amount, refunded + amount, price, price);
      WholeFraction(quota, price);
      WholeFraction(commission.amount, price);
      hide Fraction;
      var share := Fraction(quota, refunded + amount, price) - Fraction(quota, refunded, price);
      if share != 0 && share > removable { return false; }
      var next := commission;
      if commission.status != Reversed {
        var target := Fraction(commission.amount, refunded + amount, price);
        var delta := target - commission.reversed;
        if delta > 0 {
          if commission.status == Paid {
            if held < delta { return false; }
            next := next.(net := next.net - delta);
          }
          next := next.(reversed := target);
          if target == commission.amount {
            next := next.(status := Reversed);
          }
        }
      }
      refunded, removed, commission := refunded + amount, removed + share, next;
      ok := true;
    }

    /** Pay out what refunds have left of a commission. */
    method SettleCommission() returns (ok: bool)
      requires Valid()
      modifies this`commission
      ensures Valid() && ok == (old(commission).status != Reversed && 0 < old(commission).amount)
      ensures ok ==> commission.status == Paid && commission.net == commission.amount - commission.reversed
      ensures ok ==> commission == old(commission).(status := Paid, net := commission.net) && old(commission).net <= commission.net
      ensures !ok ==> commission == old(commission)
    {
      if commission.amount == 0 || commission.status == Reversed { return false; }
      FractionIsMonotone(commission.amount, refunded, price, price);
      WholeFraction(commission.amount, price);
      if commission.status == Paid { return true; }
      commission := commission.(status := Paid, net := commission.net + (commission.amount - commission.reversed));
      ok := true;
    }

    /** Take a commission back; what refunds already took is not taken twice. */
    method ReverseCommission(held: int) returns (ok: bool)
      requires Valid()
      modifies this`commission
      ensures Valid() && (ok ==> commission.status == Reversed && commission.net == 0)
      ensures ok == (0 < old(commission).amount && (old(commission).status != Paid || old(commission).net <= held))
      ensures ok ==> commission == old(commission).(status := Reversed, net := 0) && 0 <= old(commission).net
      ensures !ok ==> commission == old(commission)
    {
      if commission.amount == 0 { return false; }
      if commission.status == Reversed { return true; }
      if commission.status == Paid {
        FractionIsMonotone(commission.amount, refunded, price, price);
        WholeFraction(commission.amount, price);
        if held < commission.amount - commission.reversed { return false; }
        commission := commission.(net := commission.net - (commission.amount - commission.reversed));
      }
      commission := commission.(status := Reversed);
      ok := true;
    }
  }
}
