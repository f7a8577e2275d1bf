/**
 * Integer price arithmetic of the exchange: an order's price is an exact
 * fraction num/den (units of the get-asset per unit of the give-asset), and a
 * fill of `consumed` give-units is settled in whole units only.
 */
module Pricing {

  /** The maker keeps one give-unit in every thousand consumed. */
  const FeeDivisor: nat := 1000

  /** The get-asset amount worth `amount` give-units at price num/den, rounded down. */
  function Convert(amount: nat, num: nat, den: nat): nat
    requires den > 0
  {
    amount * num / den
  }

  /** The part of a fill of `consumed` give-units that stays with the maker. */
  function Fee(consumed: nat): (f: nat)
    ensures f * 1000 <= consumed < f * 1000 + 1000
  {
    consumed / FeeDivisor
  }

  /** Convert is the exact price rounded down: the largest r with r * den <= amount * num. */
  lemma ConvertIsFloor(amount: nat, num: nat, den: nat)
    requires den > 0
    ensures Convert(amount, num, den) * den <= amount * num < Convert(amount, num, den) * den + den
  {
  }

  /** A quotient bracketed by multiples of the divisor lies between their factors. */
  lemma QuotientBetween(x: nat, d: nat, q: nat, lo: nat, hi: nat)
    requires d > 0
    requires q * d <= x < q * d + d
    requires lo * d <= x < hi * d
    ensures lo <= q < hi
  {
    if q < lo {
      MulMonotone(q + 1, lo, d);
    }
    if hi <= q {
      MulMonotone(hi, q, d);
    }
  }

  lemma MulMonotone(a: nat, b: nat, d: nat)
    requires a <= b
    ensures a * d <= b * d
  {
  }

  /** Paying for more give-units never costs less. */
  lemma ConvertMonotone(a: nat, b: nat, num: nat, den: nat)
    requires den > 0 && a <= b
    ensures Convert(a, num, den) <= Convert(b, num, den)
  {
    var rb := Convert(b, num, den);
    MulMonotone(a, b, num);
    ConvertIsFloor(a, num, den);
    ConvertIsFloor(b, num, den);
    QuotientBetween(a * num, den, Convert(a, num, den), 0, rb + 1);
  }

  /**
   * Splitting a fill in two never makes the taker pay more than one fill of
   * the sum, and at most one get-unit less.
   */
  lemma ConvertSplit(a: nat, b: nat, num: nat, den: nat)
    requires den > 0
    ensures Convert(a, num, den) + Convert(b, num, den) <= Convert(a + b, num, den)
    ensures Convert(a + b, num, den) <= Convert(a, num, den) + Convert(b, num, den) + 1
  {
    var ra, rb := Convert(a, num, den), Convert(b, num, den);
    ConvertIsFloor(a, num, den);
    ConvertIsFloor(b, num, den);
    ConvertIsFloor(a + b, num, den);
    assert (a + b) * num == a * num + b * num;
    assert (ra + rb) * den == ra * den + rb * den;
    assert (ra + rb + 2) * den == ra * den + den + rb * den + den;
    QuotientBetween((a + b) * num, den, Convert(a + b, num, den), ra + rb, ra + rb + 2);
  }

  /** Splitting a fill in two never gives the maker a larger fee, and at most one unit less. */
  lemma FeeSplit(a: nat, b: nat)
    ensures Fee(a) + Fee(b) <= Fee(a + b) <= Fee(a) + Fee(b) + 1
  {
    var fa, fb := Fee(a), Fee(b);
    QuotientBetween(a + b, 1000, Fee(a + b), fa + fb, fa + fb + 2);
  }

  /** Fills of fewer than a thousand units carry no fee; every fill leaves the taker most of it. */
  lemma FeeBounds(consumed: nat)
    ensures Fee(consumed) == 0 <==> consumed < 1000
    ensures Fee(consumed) <= consumed
    ensures consumed > 0 ==> consumed - Fee(consumed) > 0
  {
  }

  /** The price is exact: at price k/1 a fill is paid k-fold, at price 1/k it buys a k-th. */
  lemma ConvertWholePrices(amount: nat, k: nat)
    requires k > 0
    ensures Convert(amount, k, 1) == amount * k
    ensures Convert(amount * k, 1, k) == amount
  {
    ConvertIsFloor(amount, k, 1);
    ConvertIsFloor(amount * k, 1, k);
    QuotientBetween(amount * k, 1, Convert(amount, k, 1), amount * k, amount * k + 1);
    QuotientBetween(amount * k, k, Convert(amount * k, 1, k), amount, amount + 1);
  }
}
