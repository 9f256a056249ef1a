/** dynamic_pricing: raise every price that lies strictly below
    mean - 1.5 * std by the factor rate. The population standard deviation
    np.std computes is taken as a parameter (there is no square root here);
    SalesFrame.DynamicPricing ties it to Variance. */
module Pricing {
  import opened Table

  const DefaultIncreaseRate: real := 1.1

  function PriceSum(rows: seq<Sale>): real {
    if |rows| == 0 then 0.0 else rows[0].price + PriceSum(rows[1..])
  }

  /** np.mean(df["Price"]). */
  function MeanPrice(rows: seq<Sale>): real
    requires |rows| > 0
  {
    PriceSum(rows) / |rows| as real
  }

  function SquaredDeviations(rows: seq<Sale>, mean: real): real {
    if |rows| == 0 then 0.0
    else (rows[0].price - mean) * (rows[0].price - mean) + SquaredDeviations(rows[1..], mean)
  }

  /** The population variance (np.std squares to it). */
  function Variance(rows: seq<Sale>): real
    requires |rows| > 0
  {
    SquaredDeviations(rows, MeanPrice(rows)) / |rows| as real
  }

  /** Two frames with the same prices, row by row, have the same variance
      (np.std looks only at the Price column). */
  lemma {:induction false} SamePricesSameVariance(a: seq<Sale>, b: seq<Sale>, mean: real)
    requires |a| == |b| && forall i :: 0 <= i < |a| ==> a[i].price == b[i].price
    ensures PriceSum(a) == PriceSum(b)
    ensures SquaredDeviations(a, mean) == SquaredDeviations(b, mean)
  {
    if |a| > 0 {
      SamePricesSameVariance(a[1..], b[1..], mean);
    }
  }

  /** cheap_threshold: never above the mean, as a standard deviation is not negative. */
  function CheapThreshold(rows: seq<Sale>, std: real): (t: real)
    requires |rows| > 0 && std >= 0.0
    ensures t <= MeanPrice(rows)
  {
    MeanPrice(rows) - 1.5 * std
  }

  /** df["Price"] after the np.where: a price strictly below the threshold is
      multiplied by rate, every other row is left exactly as it was. (On an
      empty frame there is nothing to change.) */
  function Repriced(rows: seq<Sale>, std: real, rate: real): (r: seq<Sale>)
    requires std >= 0.0
    ensures |r| == |rows|
    ensures forall i :: 0 <= i < |rows| && rows[i].price < CheapThreshold(rows, std) ==>
      r[i] == rows[i].(price := rows[i].price * rate)
    ensures forall i :: 0 <= i < |rows| && rows[i].price >= CheapThreshold(rows, std) ==>
      r[i] == rows[i]
  {
    if |rows| == 0 then rows
    else
      var t := CheapThreshold(rows, std);
      seq(|rows|, i requires 0 <= i < |rows| =>
        if rows[i].price < t then rows[i].(price := rows[i].price * rate) else rows[i])
  }

  /** Repricing touches the Price column only. */
  lemma OnlyPriceChanges(rows: seq<Sale>, std: real, rate: real)
    requires std >= 0.0
    ensures forall i :: 0 <= i < |rows| ==>
      Repriced(rows, std, rate)[i] == rows[i].(price := Repriced(rows, std, rate)[i].price)
  {
  }

  /** No price at or above the mean ever changes. */
  lemma PricesAtOrAboveMeanKept(rows: seq<Sale>, std: real, rate: real, i: nat)
    requires std >= 0.0 && i < |rows|
    requires rows[i].price >= MeanPrice(rows)
    ensures Repriced(rows, std, rate)[i] == rows[i]
  {
  }

  lemma {:induction false} SumOfEqualPrices(rows: seq<Sale>, p: real)
    requires forall i :: 0 <= i < |rows| ==> rows[i].price == p
    ensures PriceSum(rows) == |rows| as real * p
  {
    if |rows| > 0 {
      var n := |rows[1..]| as real;
      SumOfEqualPrices(rows[1..], p);
      assert PriceSum(rows) == p + n * p;
      assert (n + 1.0) * p == p + n * p;
    }
  }

  /** When every price is the same, nothing changes. */
  lemma EqualPricesKept(rows: seq<Sale>, std: real, rate: real)
    requires std >= 0.0
    requires forall i, j :: 0 <= i < |rows| && 0 <= j < |rows| ==> rows[i].price == rows[j].price
    ensures Repriced(rows, std, rate) == rows
  {
    if |rows| > 0 {
      var p := rows[0].price;
      SumOfEqualPrices(rows, p);
      assert MeanPrice(rows) == p;
    }
  }

  /** With non-negative prices and a rate of at least 1 no price decreases. */
  lemma NoDecreaseForNonNegative(rows: seq<Sale>, std: real, rate: real)
    requires std >= 0.0 && rate >= 1.0
    requires forall s :: s in rows ==> s.price >= 0.0
    ensures forall i :: 0 <= i < |rows| ==> Repriced(rows, std, rate)[i].price >= rows[i].price
  {
  }

  lemma SquareMonotone(x: real, b: real)
    requires x >= 0.0
    ensures x <= b ==> x * x <= b * b
  {
  }

  function PricedAt(p: real): Sale {
    Sale(None, None, p, 1.0, None, 0.0, None, None)
  }

  /** Nothing clamps negative prices: in the prices -5, 0, 0, 0, 0 (mean -1,
      standard deviation 2, threshold -4) the -5 is raised by 10% to -5.5,
      which is lower. */
  lemma NegativePriceFalls()
    ensures var rows := [PricedAt(-5.0), PricedAt(0.0), PricedAt(0.0), PricedAt(0.0), PricedAt(0.0)];
      && Variance(rows) == 2.0 * 2.0
      && Repriced(rows, 2.0, DefaultIncreaseRate)[0].price < rows[0].price
  {
  }

  /** Prices 100, 100, 10: mean 70, variance 1800, so the threshold
      70 - 1.5 * sqrt(1800) is about 6.36 and the 10 is not raised; nothing
      changes. */
  lemma ThreeRowExample(std: real)
    requires std >= 0.0
    requires std * std == Variance([PricedAt(100.0), PricedAt(100.0), PricedAt(10.0)])
    ensures var rows := [PricedAt(100.0), PricedAt(100.0), PricedAt(10.0)];
      Repriced(rows, std, DefaultIncreaseRate) == rows
  {
    var rows := [PricedAt(100.0), PricedAt(100.0), PricedAt(10.0)];
    assert PriceSum(rows) == 210.0 by {
      assert rows[1..][1..][1..] == [];
    }
    assert MeanPrice(rows) == 70.0;
    assert SquaredDeviations(rows, 70.0) == 5400.0 by {
      assert rows[1..][1..][1..] == [];
    }
    assert std * std == 1800.0;
    SquareMonotone(std, 40.0);
    assert CheapThreshold(rows, std) < 10.0;
  }
}
