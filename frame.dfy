/** The script's data frame: built from the API records and cleaned in place,
    then given the spending columns and repriced in place. */
module Frame {
  import opened Table
  import opened Cleaning
  import Spending
  import Pricing

  class SalesFrame {
    var rows: seq<Sale>

    /** pd.DataFrame(data) followed by the cleaning block. */
    constructor Load(data: seq<RawSale>)
      requires HasColumn(data, PurchaseDate) && HasColumn(data, Price) && HasColumn(data, Quantity)
      ensures rows == Normalise(data)
    {
      rows := Normalise(data);
    }

    /** customer_spending_levels(df, bins, labels): assigns the two spending
        columns on the frame it is given. */
    method AddSpendingLevels(bins: seq<Spending.Edge>, labels: seq<string>)
      requires Spending.Increasing(bins) && |labels| + 1 == |bins|
      modifies this
      ensures rows == Spending.WithSpending(old(rows), bins, labels)
    {
      rows := Spending.WithSpending(rows, bins, labels);
    }

    /** dynamic_pricing(df, rate): overwrites the Price column; std is what
        np.std(df["Price"]) returns, the non-negative square root of the
        population variance. */
    method DynamicPricing(std: real, rate: real)
      requires std >= 0.0
      requires |rows| > 0 ==> std * std == Pricing.Variance(rows)
      modifies this
      ensures rows == Pricing.Repriced(old(rows), std, rate)
    {
      rows := Pricing.Repriced(rows, std, rate);
    }
  }

  /** The script's own sequence of in-place steps: clean, add the spending
      columns with its bins, reprice at 10%. The spending columns keep the
      totals from before repricing. */
  method RunPipeline(data: seq<RawSale>, std: real) returns (frame: SalesFrame)
    requires HasColumn(data, PurchaseDate) && HasColumn(data, Price) && HasColumn(data, Quantity)
    requires std >= 0.0
    requires |data| > 0 ==> std * std == Pricing.Variance(Normalise(data))
    ensures frame.rows == Pricing.Repriced(
      Spending.WithSpending(Normalise(data), Spending.SpendingBins, Spending.SpendingLabels),
      std, Pricing.DefaultIncreaseRate)
    ensures |frame.rows| == |data|
    ensures forall i :: 0 <= i < |data| ==>
      && frame.rows[i].spending.Some?
      && frame.rows[i].spending.value.total == Spending.TotalSpending(Normalise(data)[i])
  {
    frame := new SalesFrame.Load(data);
    Spending.SpendingTiers(0.0);
    frame.AddSpendingLevels(Spending.SpendingBins, Spending.SpendingLabels);
    SpendingKeepsVariance(Normalise(data));
    ghost var enriched := frame.rows;
    frame.DynamicPricing(std, Pricing.DefaultIncreaseRate);
    Pricing.OnlyPriceChanges(enriched, std, Pricing.DefaultIncreaseRate);
  }

  /** The spending columns leave the prices, and so their variance, as they were. */
  lemma SpendingKeepsVariance(rows: seq<Sale>)
    ensures |rows| > 0 ==>
      Pricing.Variance(Spending.WithSpending(rows, Spending.SpendingBins, Spending.SpendingLabels)) == Pricing.Variance(rows)
  {
    Spending.SpendingTiers(0.0);
    var enriched := Spending.WithSpending(rows, Spending.SpendingBins, Spending.SpendingLabels);
    if |rows| > 0 {
      forall i | 0 <= i < |rows| ensures enriched[i].price == rows[i].price {
        assert enriched[i].(spending := None) == rows[i].(spending := None);
      }
      Pricing.SamePricesSameVariance(enriched, rows, Pricing.MeanPrice(rows));
    }
  }
}
