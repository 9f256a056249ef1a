/** customer_spending_levels: a "Total Spending" column (price times
    quantity) and a "Spending Level" column from pd.cut over right-closed
    intervals (include_lowest=False). */
module Spending {
  import opened Table

  /** A bin edge: a number or float("inf"). */
  datatype Edge = Finite(at: real) | Infinity

  predicate EdgeLess(a: Edge, b: Edge) {
    a.Finite? && (b.Infinity? || a.at < b.at)
  }

  /** pd.cut refuses bins that do not strictly increase. */
  predicate Increasing(bins: seq<Edge>) {
    forall i, j :: 0 <= i < j < |bins| ==> EdgeLess(bins[i], bins[j])
  }

  /** x lies in the i-th interval (bins[i], bins[i + 1]]. */
  predicate InBin(x: real, bins: seq<Edge>, i: int)
    requires 0 <= i && i + 1 < |bins|
  {
    bins[i].Finite? && bins[i].at < x && (bins[i + 1].Infinity? || x <= bins[i + 1].at)
  }

  /** The first interval from the i-th on that holds x. */
  function BinFrom(x: real, bins: seq<Edge>, i: nat): (k: Option<nat>)
    ensures k.Some? ==> i <= k.value && k.value + 1 < |bins| && InBin(x, bins, k.value)
    ensures k.None? ==> forall j :: i <= j && j + 1 < |bins| ==> !InBin(x, bins, j)
    decreases |bins| - i
  {
    if i + 1 >= |bins| then None
    else if InBin(x, bins, i) then Some(i)
    else BinFrom(x, bins, i + 1)
  }

  /** With increasing bins, no value lies in two intervals. */
  lemma BinUnique(x: real, bins: seq<Edge>, i: nat, j: nat)
    requires Increasing(bins)
    requires i + 1 < |bins| && j + 1 < |bins|
    requires InBin(x, bins, i) && InBin(x, bins, j)
    ensures i == j
  {
  }

  /** pd.cut(x, bins, labels): the label of the interval holding x, or NaN
      (None) when no interval holds it. */
  function Cut(x: real, bins: seq<Edge>, labels: seq<string>): (level: Option<string>)
    requires Increasing(bins) && |labels| + 1 == |bins|
    ensures level.Some? <==> exists i :: 0 <= i < |labels| && InBin(x, bins, i)
    ensures forall i :: 0 <= i < |labels| && InBin(x, bins, i) ==> level == Some(labels[i])
  {
    var k := BinFrom(x, bins, 0);
    assert forall i :: 0 <= i < |labels| && InBin(x, bins, i) ==> k == Some(i) by {
      forall i | 0 <= i < |labels| && InBin(x, bins, i) ensures k == Some(i) {
        BinUnique(x, bins, i, k.value);
      }
    }
    if k.Some? then Some(labels[k.value]) else None
  }

  /** The bins and labels the script passes. */
  const SpendingBins: seq<Edge> := [Finite(0.0), Finite(500.0), Finite(1500.0), Finite(3000.0), Infinity]
  const SpendingLabels: seq<string> := ["Düşük", "Orta", "Yüksek", "Premium"]

  /** The script's tiers: (0, 500] Düşük, (500, 1500] Orta, (1500, 3000]
      Yüksek, above 3000 Premium, and no tier for a total of 0 or less. */
  lemma SpendingTiers(total: real)
    ensures Increasing(SpendingBins) && |SpendingLabels| + 1 == |SpendingBins|
    ensures Cut(total, SpendingBins, SpendingLabels) ==
      if total <= 0.0 then None
      else if total <= 500.0 then Some("Düşük")
      else if total <= 1500.0 then Some("Orta")
      else if total <= 3000.0 then Some("Yüksek")
      else Some("Premium")
  {
  }

  /** df["Price"] * df["Quantity_purchased"] on one row. */
  function TotalSpending(s: Sale): real {
    s.price * s.quantity
  }

  /** The frame with the two spending columns set. */
  function WithSpending(rows: seq<Sale>, bins: seq<Edge>, labels: seq<string>): (r: seq<Sale>)
    requires Increasing(bins) && |labels| + 1 == |bins|
    ensures |r| == |rows|
    // every column but the two new ones is as it was
    ensures forall i :: 0 <= i < |rows| ==> r[i].(spending := None) == rows[i].(spending := None)
    ensures forall i :: 0 <= i < |rows| ==>
      && r[i].spending.Some?
      && r[i].spending.value.total == TotalSpending(rows[i])
      && (forall k :: 0 <= k < |labels| && InBin(r[i].spending.value.total, bins, k) ==>
            r[i].spending.value.level == Some(labels[k]))
      && (r[i].spending.value.level.None? <==>
            forall k :: 0 <= k < |labels| ==> !InBin(r[i].spending.value.total, bins, k))
  {
    seq(|rows|, i requires 0 <= i < |rows| =>
      var total := TotalSpending(rows[i]);
      rows[i].(spending := Some(Spending(total, Cut(total, bins, labels)))))
  }
}
