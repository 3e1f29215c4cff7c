/** The price walk of one ticker, over real numbers. */
module Prices {

  const MAX_CHANGE_PERCENT := 0.02
  const MIN_PRICE := 0.01
  const MAX_START_PRICE := 100.0

  function Max(a: real, b: real): real {
    if a < b then b else a
  }

  predicate ChangeOk(change: real) {
    -MAX_CHANGE_PERCENT <= change <= MAX_CHANGE_PERCENT
  }

  function NewPrice(previous: real, change: real): real {
    Max(previous * (1.0 + change), MIN_PRICE)
  }

  /** `next` can follow `previous` in the walk, for some random change within the bounds. */
  ghost predicate WalkStep(previous: real, next: real) {
    exists change :: ChangeOk(change) && next == NewPrice(previous, change)
  }

  function Before(first: real, prices: seq<real>, i: nat): real
    requires i <= |prices|
  {
    if i == 0 then first else prices[i - 1]
  }

  ghost predicate Walk(first: real, prices: seq<real>) {
    forall i {:trigger prices[i]} :: 0 <= i < |prices| ==> WalkStep(Before(first, prices, i), prices[i])
  }

  /** p * b^n */
  function Compound(p: real, b: real, n: nat): real {
    if n == 0 then p else b * Compound(p, b, n - 1)
  }

  /** The change is a share of the old price, and one cent is the least price. */
  lemma NewPriceIs(p: real, change: real)
    ensures NewPrice(p, change) == if p + p * change < 0.01 then 0.01 else p + p * change
  {
    assert p * (1.0 + change) == p + p * change;
  }

  /** What can follow a price: everything within two per cent of it, from one cent up. */
  lemma WalkStepExactly(p: real, q: real)
    requires p >= 0.01
    ensures WalkStep(p, q) <==> 0.01 <= q && 0.98 * p <= q <= 1.02 * p
  {
    if WalkStep(p, q) {
      WalkStepBounds(p, q);
    }
    if 0.01 <= q && 0.98 * p <= q <= 1.02 * p {
      Reaches(p, q);
    }
  }

  lemma Reaches(p: real, q: real)
    requires p >= 0.01 && 0.01 <= q && 0.98 * p <= q <= 1.02 * p
    ensures WalkStep(p, q)
  {
    var change := q / p - 1.0;
    assert p * change == q - p;
    Cancel(p, -0.02, change);
    Cancel(p, change, 0.02);
    NewPriceIs(p, change);
  }

  lemma Cancel(p: real, a: real, b: real)
    requires p > 0.0 && p * a <= p * b
    ensures a <= b
  {
    assert p * (b - a) >= 0.0;
  }

  lemma ShareWithin(p: real, c: real)
    requires p >= 0.0 && -0.02 <= c <= 0.02
    ensures -0.02 * p <= p * c <= 0.02 * p
  {
    assert p * (c + 0.02) >= 0.0 && p * (0.02 - c) >= 0.0;
  }

  /** The share of the old price that was added. */
  lemma StepShare(p: real, q: real) returns (share: real)
    requires p >= 0.01 && WalkStep(p, q)
    ensures -0.02 * p <= share <= 0.02 * p && q == if p + share < 0.01 then 0.01 else p + share
  {
    var c :| ChangeOk(c) && q == NewPrice(p, c);
    NewPriceIs(p, c);
    ShareWithin(p, c);
    share := p * c;
  }

  lemma WalkStepBounds(p: real, q: real)
    requires p >= MIN_PRICE && WalkStep(p, q)
    ensures MIN_PRICE <= q <= 1.02 * p
    ensures 0.98 * p <= q
  {
    var share := StepShare(p, q);
  }

  /** Compound bounds on the whole walk: after n steps the price lies between
  max(0.01, p0 * 0.98^n) and p0 * 1.02^n. */
  lemma {:induction false} WalkBounds(first: real, prices: seq<real>, n: nat)
    requires first >= MIN_PRICE && Walk(first, prices) && n <= |prices|
    ensures Max(MIN_PRICE, Compound(first, 0.98, n)) <= Before(first, prices, n) <= Compound(first, 1.02, n)
  {
    if n > 0 {
      assert WalkStep(Before(first, prices, n - 1), prices[n - 1]);
      WalkBounds(first, prices, n - 1);
      WalkStepBounds(Before(first, prices, n - 1), prices[n - 1]);
    }
  }
}
