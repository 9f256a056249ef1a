# E-commerce sales analysis, modelled in Dafny

The script `ecommerce_system_analysis.py` works through one table of sales.
It loads the records an HTTP API returns into a pandas data frame and cleans
them in place: a default "Category" column, zero defaults for missing
numbers, and coerced dates and numbers. It then runs these analyses:

- the best-selling products, overall and in a date window;
- the mean price per category;
- the best-selling products among satisfied customers;
- a product recommendation for one customer.

It also adds a "Total Spending" column and a "Spending Level" column with
`pd.cut`. Finally it raises by a fixed rate every price that lies more than
1.5 standard deviations below the mean.

The model has seven modules:

- **Table** (`table.dfy`) holds the cleaned row `Sale`. A missing value
  (NaN, NaT) is `None`. It also defines the boolean masks the analyses index
  the frame with (`Filter`, `Keeps`, `Where`), and the group keys and group
  sums of `groupby("Product_name")["Quantity_purchased"].sum()`.
- **Cleaning** (`cleaning.dfy`) models the records as the API returns them.
  A key can be absent, null or present. `Normalise` gives the frame after the
  cleaning block.
- **Ranking** (`ranking.dfy`) models the pattern shared by every top-N
  report: group, sum, sort descending, `head(n)`. `IsTopN` states what the
  result must be without fixing the order of equal sums, because
  `sort_values` is not stable. `TopN` is one concrete result, and it is
  proved to meet `IsTopN`.
- **Analysis** (`analysis.dfy`) holds the read-only analyses.
- **Spending** (`spending.dfy`) models `pd.cut` over right-closed intervals
  and the two spending columns.
- **Pricing** (`pricing.dfy`) models the cheap threshold and the repricing.
- **Frame** (`frame.dfy`) is the frame the script mutates. `SalesFrame` is a
  class whose `rows` field is built by the cleaning step. Its methods
  overwrite `rows` as `customer_spending_levels` and `dynamic_pricing` do.
  `RunPipeline` runs the script's own sequence of these steps.

Some of the script's behaviour is easy to misread; the model follows the
code:

- "Unknown" is written into every row only when no record has a "Category"
  key (`if "Category" not in df.columns`). A record that lacks the category
  while others have it keeps NaN (`Cleaning.CategoryAlwaysFilled`).
- The bins are right-closed and `include_lowest` is false. So a total
  spending of 0 (or less) gets no level, not "Düşük"
  (`Spending.SpendingTiers`).
- The order of equal sums in a top-N report is not fixed. `sort_values`
  defaults to quicksort, which is not stable.
- For the prices 100, 100, 10 the threshold is about 6.36, so the 10 is not
  raised and nothing changes (`Pricing.ThreeRowExample`).
- Repricing can lower a negative price (`Pricing.NegativePriceFalls`). The
  promise that no price decreases holds only for non-negative prices and a
  rate of at least 1 (`Pricing.NoDecreaseForNonNegative`).
- When the customer has purchases, the recommendation sums each of those
  products over the whole table, not only over the customer's own rows
  (`Analysis.RecommendFromHistory`).

## Model

| member | source | states |
|---|---|---|
| Cleaning.Normalise | ecommerce_system_analysis.py:12-25 | One row per record. Product and customer are carried over, with missing values as NaN. "Unknown" is the category of every row exactly when no record has the key. A price or quantity the parser reads is kept, and every other one becomes 0. A missing satisfaction becomes 0. The date is present exactly when the parser read one. |
| Cleaning.CategoryAlwaysFilled | ecommerce_system_analysis.py:16-18 | Every cleaned row has a category if and only if the column is absent altogether or every record carries a category value. |
| Frame.SalesFrame.Load | ecommerce_system_analysis.py:12-25 | The frame built from the records is the cleaned table. |
| Table.TruncToInt | ecommerce_system_analysis.py:100 | `astype(int)` truncates toward zero: the result is within 1 of x, on the side of zero. |
| Table.Where | ecommerce_system_analysis.py:49 | Masked indexing keeps every copy of each row on which the mask is true and no copy of any other row (as multisets), so it never has more rows than it was given. The result is empty exactly when the mask holds on no row. |
| Table.Products | ecommerce_system_analysis.py:30 | The group keys are exactly the product names that occur, with missing names dropped. |
| Table.TotalOfWhere | ecommerce_system_analysis.py:49-50 | A product's group sum over the masked table is the quantity sum over exactly the rows of that product that the mask keeps, duplicates included. |
| Table.KeptTotalAll | ecommerce_system_analysis.py:92 | When the mask keeps every row of product p, the kept sum of p is p's whole sum. |
| Table.TotalWhere | ecommerce_system_analysis.py:92 | A mask that keeps every row of product p keeps p's group sum. |
| Table.WhereAppendDropped | ecommerce_system_analysis.py:49 | Appending a row the mask drops leaves the masked table unchanged. |
| Ranking.HeadCount | ecommerce_system_analysis.py:30 | `head(n)` keeps min(n, m) rows for n ≥ 0, and all but the last -n rows for n < 0. |
| Ranking.Grouped | ecommerce_system_analysis.py:30 | The grouped sums: one entry per product that occurs, with distinct names, each carrying that product's summed quantity. |
| Ranking.SortDescending | ecommerce_system_analysis.py:30 | `sort_values(ascending=False)` returns a permutation (same multiset) in descending order. |
| Ranking.TopN | ecommerce_system_analysis.py:29-30 | Meets `IsTopN`. The length is `head`'s count. Each entry is a product that occurs, with its total. Names are distinct. The order is descending. No product left out sells more than the last entry. |
| Ranking.SortedPrefixIsTopN | ecommerce_system_analysis.py:30 | Any descending ordering of all grouped sums, cut by `head`, meets `IsTopN`, whatever the order of ties. |
| Analysis.MostPurchased | ecommerce_system_analysis.py:29-30 | The result is a top-N series (`IsTopN`) over the whole table. |
| Analysis.InPeriod | ecommerce_system_analysis.py:49 | Keeps every copy of each row with a parsed date inside the inclusive window, and no copy of any other row. |
| Analysis.TopSellingInPeriod | ecommerce_system_analysis.py:48-50 | The result is a top-N series over the rows dated inside the window. |
| Analysis.UndatedRowsIgnored | ecommerce_system_analysis.py:49 | A row with NaT, or with a date outside the window, does not change the period report. |
| Analysis.Satisfied | ecommerce_system_analysis.py:100 | Keeps every copy of each row whose truncated satisfaction score is above `score`, and no copy of any other row. |
| Analysis.HighSatisfaction | ecommerce_system_analysis.py:99-100 | The result is a top-N series over the satisfied rows. |
| Analysis.SatisfactionCutoff | ecommerce_system_analysis.py:100 | A non-negative score passes exactly when it reaches score + 1, so 4.9 fails the default 4. A negative score passes exactly when it is above `score`. |
| Analysis.ScriptDefaults | ecommerce_system_analysis.py:29-32 | With the script's default n = 10, the overall report lists min(10, number of products) entries. With the default score 4, the satisfaction filter keeps exactly the rows scored 5 or more. |
| Analysis.Categories | ecommerce_system_analysis.py:42 | The group keys of `groupby("Category")` are exactly the categories that occur, and each has at least one row. |
| Analysis.AveragePriceByCategory | ecommerce_system_analysis.py:41-42 | One entry per category that occurs. Each entry is the sum of that category's prices divided by its row count. |
| Analysis.AveragePriceBounds | ecommerce_system_analysis.py:41-42 | A category's mean price lies between any lower bound and any upper bound of the prices in that category. |
| Analysis.Purchases | ecommerce_system_analysis.py:82-87 | Keeps exactly the customer's rows. When the category is truthy, it keeps only the rows in that category. |
| Analysis.PurchasesEmpty | ecommerce_system_analysis.py:82-89 | `category_purchases.empty` holds exactly when every row of the customer is outside a truthy category. With no truthy category, it holds exactly when the customer has no row. |
| Analysis.Recommend | ecommerce_system_analysis.py:81-96 | `recommend_products`: never more than five entries, each product at most once. The three branches are stated by `RecommendFallback` (lines 89-90), `RecommendWhenBought` and `RecommendFromHistory` (lines 91-92), and `RecommendNothing` (lines 93-94). |
| Analysis.RecommendNothing | ecommerce_system_analysis.py:93-94 | With no truthy category and no purchases, the recommendation is empty. |
| Analysis.RecommendFallback | ecommerce_system_analysis.py:89-90 | With a truthy category the customer never bought in, the recommendation is the top five of that category over all customers. |
| Analysis.TopNOfProducts | ecommerce_system_analysis.py:92 | The top-n over the rows of a set of products: as many entries as `head(n)` keeps of those products that occur. Each entry is one of those products, summed over the whole table. Names are distinct and the order is descending. No product of the set that is left out sells more than the last entry. |
| Analysis.RecommendWhenBought | ecommerce_system_analysis.py:91-92 | When the customer has purchases (in the category, when one is given), the recommendation is a top-5 series (`IsTopN`) over all rows of the products bought there. |
| Analysis.RecommendFromHistory | ecommerce_system_analysis.py:91-92 | With purchases, the recommendation satisfies `RanksBought`: as many entries as `head(5)` keeps of the products bought, each product once. Each entry is a product the customer bought (in the category, when one is given), summed over the whole table. The order is descending. None of those products that is left out sells more than the last entry. |
| Spending.Cut | ecommerce_system_analysis.py:58 | There is a level exactly when some right-closed interval holds x, and it is that interval's label. |
| Spending.BinUnique | ecommerce_system_analysis.py:58 | With strictly increasing bins, no value lies in two intervals. |
| Spending.SpendingTiers | ecommerce_system_analysis.py:61 | The script's bins are valid. The tiers are (0, 500] Düşük, (500, 1500] Orta, (1500, 3000] Yüksek and above 3000 Premium, and no level is given at 0 or below. |
| Spending.WithSpending | ecommerce_system_analysis.py:56-59 | Same rows with every other column unchanged. The total is price times quantity. The level is the label of the bin holding the total, and NaN exactly when no bin holds it. |
| Frame.SalesFrame.AddSpendingLevels | ecommerce_system_analysis.py:56-59 | The frame's rows become `WithSpending` of the old rows. |
| Pricing.CheapThreshold | ecommerce_system_analysis.py:68-70 | The threshold is never above the mean price. |
| Pricing.Repriced | ecommerce_system_analysis.py:67-72 | Same number of rows. A price strictly below the threshold is multiplied by the rate. Every other row is left exactly as it was. |
| Pricing.OnlyPriceChanges | ecommerce_system_analysis.py:71 | Repricing changes no column but Price. |
| Pricing.SamePricesSameVariance | ecommerce_system_analysis.py:68-69 | Two frames with the same prices, row by row, have the same price sum and the same squared deviations, so the same mean and standard deviation. |
| Pricing.PricesAtOrAboveMeanKept | ecommerce_system_analysis.py:68-71 | No row whose price is at or above the mean changes. |
| Pricing.EqualPricesKept | ecommerce_system_analysis.py:68-71 | When all prices are equal, nothing changes. |
| Pricing.NoDecreaseForNonNegative | ecommerce_system_analysis.py:71 | With non-negative prices and a rate of at least 1, no price decreases. |
| Pricing.NegativePriceFalls | ecommerce_system_analysis.py:71 | For the prices -5, 0, 0, 0, 0 (standard deviation 2), the -5 is raised by 10% to -5.5, which is lower. |
| Pricing.ThreeRowExample | ecommerce_system_analysis.py:67-72 | For the prices 100, 100, 10, repricing at the default rate changes nothing. |
| Frame.SalesFrame.DynamicPricing | ecommerce_system_analysis.py:67-72 | The frame's rows become `Repriced` of the old rows, given the population standard deviation of the prices. |
| Frame.SpendingKeepsVariance | ecommerce_system_analysis.py:62-69 | The script's bins are valid, and adding the spending columns leaves the variance of the prices as it was. |
| Frame.RunPipeline | ecommerce_system_analysis.py:62-74 | The frame's rows are the cleaned records with the spending columns added and then repriced at 10%. So there is one row per record, and each row's total spending is the one computed from the price before repricing. The standard deviation it is given is that of the cleaned prices. |

## Left out

- Fetching the records (lines 7-9) is left out: the records are a parameter. The script's exit on a failed request is left out too.
- The string parsers of `pd.to_numeric` and `pd.to_datetime` are left out. A record carries the parser's verdict: a number or date, or none when the value cannot be read.
- The columns "Product_name", "Customer_id" and "Customer_satisfaction_score" are assumed to exist. Without them the reports stop with a KeyError, and that is not modelled.
- Without "Purchase_date", "Price" or "Quantity_purchased" the cleaning block stops with a KeyError. `Normalise` and `SalesFrame.Load` require the three columns instead.
- A satisfaction score is a real number. A string score, and the error `astype(int)` raises on it, are not modelled.
- Numbers are exact reals, so float rounding is not modelled. The 64-bit overflow of `astype(int)` is not modelled either.
- A timestamp is an unbounded integer.
- Pricing.Repriced: the standard deviation is a parameter. The square root `np.std` takes is not computed. `SalesFrame.DynamicPricing` ties the parameter to the population variance, as the square it must have.
- Spending.Cut: `pd.cut` raises a ValueError for bins that do not increase or a label count that does not match. The model requires valid bins and labels instead.
- `price_sales_correlation` (line 36) is left out: a Pearson correlation needs square roots and floating point.
- Console output and charts are left out (lines 76-77 and 110-192).
- The script rebinds the names `most_purchased_products` and `high_satisfaction_products` to their results (lines 32 and 103). This has no effect on the model.
- The top-N reports do not fix the order of equal sums. `TopN` is one admissible order.
- `AveragePriceByCategory` returns a map, so the key order of the groupby result is left out.
- The cleaning block's intermediate in-place states are not modelled. `Normalise` gives its net effect.
- `Product_name.isin` on a NaN product name is not modelled. Such a row has no group in any report.
