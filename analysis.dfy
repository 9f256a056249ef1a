/** The read-only analyses of the script: top-selling products overall, in a
    date window and among satisfied customers, the mean price per category,
    and the product recommendation for one customer. */
module Analysis {
  import opened Table
  import opened Ranking

  const DefaultTopN: int := 10
  const RecommendationCount: int := 5
  const DefaultSatisfactionScore: int := 4

  /** most_purchased_products(df, n). */
  function MostPurchased(rows: seq<Sale>, n: int): (r: seq<Group>)
    ensures IsTopN(rows, n, r)
  {
    TopN(rows, n)
  }

  // ---------------------------------------------------------------- by period

  /** The rows the date mask keeps: both bounds inclusive, NaT never kept. */
  function InPeriod(rows: seq<Sale>, start: Timestamp, end: Timestamp): (r: seq<Sale>)
    ensures forall s :: s in r <==> s in rows && s.date.Some? && start <= s.date.value <= end
    ensures forall s :: multiset(r)[s] == if s.date.Some? && start <= s.date.value <= end then multiset(rows)[s] else 0
  {
    Where(rows, DatedWithin(start, end))
  }

  /** top_selling_products_in_period(df, start_date, end_date, n). */
  function TopSellingInPeriod(rows: seq<Sale>, start: Timestamp, end: Timestamp, n: int): (r: seq<Group>)
    ensures IsTopN(InPeriod(rows, start, end), n, r)
  {
    TopN(InPeriod(rows, start, end), n)
  }

  /** A row whose date did not parse, or lies outside the window, changes
      nothing in the period report. */
  lemma UndatedRowsIgnored(rows: seq<Sale>, s: Sale, start: Timestamp, end: Timestamp, n: int)
    requires s.date.None? || s.date.value < start || end < s.date.value
    ensures TopSellingInPeriod(rows + [s], start, end, n) == TopSellingInPeriod(rows, start, end, n)
  {
    WhereAppendDropped(rows, s, DatedWithin(start, end));
  }

  // ---------------------------------------------------------- by satisfaction

  /** The rows whose score, truncated to an integer, is strictly above score. */
  function Satisfied(rows: seq<Sale>, score: int): (r: seq<Sale>)
    ensures forall s :: s in r <==> s in rows && TruncToInt(s.satisfaction) > score
    ensures forall s :: multiset(r)[s] == if TruncToInt(s.satisfaction) > score then multiset(rows)[s] else 0
  {
    Where(rows, SatisfactionAbove(score))
  }

  /** high_satisfaction_products(df, score, n). */
  function HighSatisfaction(rows: seq<Sale>, score: int, n: int): (r: seq<Group>)
    ensures IsTopN(Satisfied(rows, score), n, r)
  {
    TopN(Satisfied(rows, score), n)
  }

  /** Truncation before a strict comparison: a non-negative score passes
      exactly when it reaches score + 1 (so 4.9 does not pass the default 4),
      a negative one exactly when it is above score. */
  lemma SatisfactionCutoff(x: real, score: int)
    ensures x >= 0.0 ==> (TruncToInt(x) > score <==> x >= score as real + 1.0)
    ensures x < 0.0 ==> (TruncToInt(x) > score <==> x > score as real)
  {
  }

  /** The script's own calls use the defaults n = 10 and score = 4: the
      overall report lists min(10, number of products) entries, and the
      satisfaction report looks exactly at the rows scored 5 or more. */
  lemma ScriptDefaults(rows: seq<Sale>)
    ensures |MostPurchased(rows, DefaultTopN)| == if |Products(rows)| < 10 then |Products(rows)| else 10
    ensures forall s :: s in Satisfied(rows, DefaultSatisfactionScore) <==> s in rows && s.satisfaction >= 5.0
  {
    forall s: Sale ensures TruncToInt(s.satisfaction) > DefaultSatisfactionScore <==> s.satisfaction >= 5.0 {
      SatisfactionCutoff(s.satisfaction, DefaultSatisfactionScore);
    }
  }

  // ------------------------------------------------------------- by category

  function CategoryCount(rows: seq<Sale>, c: string): nat {
    if |rows| == 0 then 0
    else (if rows[0].category == Some(c) then 1 else 0) + CategoryCount(rows[1..], c)
  }

  function CategoryPriceSum(rows: seq<Sale>, c: string): real {
    if |rows| == 0 then 0.0
    else (if rows[0].category == Some(c) then rows[0].price else 0.0) + CategoryPriceSum(rows[1..], c)
  }

  /** The group keys of groupby("Category"): missing categories dropped. */
  function Categories(rows: seq<Sale>): (r: set<string>)
    ensures forall c :: c in r <==> exists s :: s in rows && s.category == Some(c)
    ensures forall c :: c in r ==> CategoryCount(rows, c) > 0
  {
    if |rows| == 0 then {}
    else
      assert forall s :: s in rows <==> s == rows[0] || s in rows[1..];
      (if rows[0].category.Some? then {rows[0].category.value} else {}) + Categories(rows[1..])
  }

  /** average_price_by_category(df): the mean price of each category that occurs. */
  function AveragePriceByCategory(rows: seq<Sale>): (avg: map<string, real>)
    ensures avg.Keys == Categories(rows)
    ensures forall c :: c in avg ==> avg[c] == Mean(CategoryPriceSum(rows, c), CategoryCount(rows, c))
  {
    map c | c in Categories(rows) :: Mean(CategoryPriceSum(rows, c), CategoryCount(rows, c))
  }

  /** The arithmetic mean of count values summing to sum. */
  function Mean(sum: real, count: nat): real
    requires count > 0
  {
    sum / count as real
  }

  /** count copies of x added up (count * x, kept free of multiplication). */
  function Repeated(count: nat, x: real): real {
    if count == 0 then 0.0 else x + Repeated(count - 1, x)
  }

  lemma {:induction false} CategorySumBounds(rows: seq<Sale>, c: string, lo: real, hi: real)
    requires forall i :: 0 <= i < |rows| && rows[i].category == Some(c) ==> lo <= rows[i].price <= hi
    ensures Repeated(CategoryCount(rows, c), lo) <= CategoryPriceSum(rows, c) <= Repeated(CategoryCount(rows, c), hi)
  {
    if |rows| > 0 {
      CategorySumBounds(rows[1..], c, lo, hi);
    }
  }

  lemma {:induction false} RepeatedIsProduct(count: nat, x: real)
    ensures Repeated(count, x) == count as real * x
  {
    if count > 0 {
      RepeatedIsProduct(count - 1, x);
    }
  }

  /** The mean of values that each lie in [lo, hi] lies in [lo, hi]. */
  lemma MeanBounds(sum: real, count: nat, lo: real, hi: real)
    requires count > 0
    requires Repeated(count, lo) <= sum <= Repeated(count, hi)
    ensures lo <= Mean(sum, count) <= hi
  {
    RepeatedIsProduct(count, lo);
    RepeatedIsProduct(count, hi);
    var n := count as real;
    var m := Mean(sum, count);
    assert m * n == sum;
    assert (m - lo) * n == sum - n * lo;
    assert (hi - m) * n == n * hi - sum;
  }

  /** A category's mean price lies between the lowest and the highest price
      in that category. */
  lemma AveragePriceBounds(rows: seq<Sale>, c: string, lo: real, hi: real)
    requires c in Categories(rows)
    requires forall i :: 0 <= i < |rows| && rows[i].category == Some(c) ==> lo <= rows[i].price <= hi
    ensures lo <= AveragePriceByCategory(rows)[c] <= hi
  {
    CategorySumBounds(rows, c, lo, hi);
    MeanBounds(CategoryPriceSum(rows, c), CategoryCount(rows, c), lo, hi);
  }

  // ---------------------------------------------------------- recommendation

  /** `if category:` in Python: None and the empty string are false. */
  predicate Truthy(category: Option<string>) {
    category.Some? && category.value != ""
  }

  /** The customer's purchases, restricted to the category when one is given. */
  function Purchases(rows: seq<Sale>, id: string, category: Option<string>): (r: seq<Sale>)
    ensures forall s :: s in r <==>
      s in rows && s.customer == Some(id) && (Truthy(category) ==> s.category == category)
  {
    var bought := Where(rows, BoughtBy(id));
    if Truthy(category) then Where(bought, InCategory(category.value)) else bought
  }

  /** category_purchases.empty: the customer bought nothing (in the category,
      when one is given). */
  lemma PurchasesEmpty(rows: seq<Sale>, id: string, category: Option<string>)
    ensures |Purchases(rows, id, category)| == 0 <==>
      forall s :: s in rows && s.customer == Some(id) ==> Truthy(category) && s.category != category
  {
  }

  /** recommend_products(customer_id, df, category). */
  function Recommend(rows: seq<Sale>, id: string, category: Option<string>): (r: seq<Group>)
    ensures |r| <= RecommendationCount
    ensures forall i, j :: 0 <= i < j < |r| ==> r[i].product != r[j].product
  {
    var purchases := Purchases(rows, id, category);
    if |purchases| == 0 && Truthy(category) then
      TopN(Where(rows, InCategory(category.value)), RecommendationCount)
    else if |purchases| != 0 then
      TopN(Where(rows, ProductAmong(Products(purchases))), RecommendationCount)
    else
      []
  }

  /** Without a (truthy) category and without purchases there is nothing to
      recommend. */
  lemma RecommendNothing(rows: seq<Sale>, id: string, category: Option<string>)
    requires !Truthy(category)
    requires forall s :: s in rows ==> s.customer != Some(id)
    ensures Recommend(rows, id, category) == []
  {
  }

  /** With a category the customer never bought in, the recommendation is the
      top five of that category over all customers. */
  lemma RecommendFallback(rows: seq<Sale>, id: string, category: Option<string>)
    requires Truthy(category)
    requires forall s :: s in rows && s.customer == Some(id) ==> s.category != category
    ensures IsTopN(Where(rows, InCategory(category.value)), 5, Recommend(rows, id, category))
  {
    PurchasesEmpty(rows, id, category);
  }

  /** The top-n over the rows of a set of products: as many entries as head
      keeps of those products that occur, each one of them with its sum over
      the whole table, distinct, in descending order, and no product of the
      set that occurs in the table and is left out sells more than the last
      entry. */
  lemma TopNOfProducts(rows: seq<Sale>, names: set<string>, n: int, r: seq<Group>)
    requires r == TopN(Where(rows, ProductAmong(names)), n)
    ensures && |r| == HeadCount(n, |names * Products(rows)|)
      && Descending(r)
      && (forall i :: 0 <= i < |r| ==> r[i].product in names && r[i].quantity == Total(rows, r[i].product))
      && (forall i, j :: 0 <= i < j < |r| ==> r[i].product != r[j].product)
      && (|r| > 0 ==> forall p :: p in names && p in Products(rows) && p !in Names(r) ==>
            Total(rows, p) <= r[|r| - 1].quantity)
  {
    var kept := Where(rows, ProductAmong(names));
    KeptProducts(rows, names);
    assert Products(kept) == names * Products(rows);
    assert IsTopN(kept, n, r);
  }

  /** Selecting the rows of a set of products keeps exactly those of its
      products that occur, and their sums. */
  lemma KeptProducts(rows: seq<Sale>, names: set<string>)
    ensures forall p :: p in Products(Where(rows, ProductAmong(names))) <==> p in names && p in Products(rows)
    ensures forall p :: p in names ==> Total(Where(rows, ProductAmong(names)), p) == Total(rows, p)
  {
  }

  /** With purchases (in the category, when one is given), the
      recommendation is the top five over all rows of the products bought
      there. */
  lemma RecommendWhenBought(rows: seq<Sale>, id: string, category: Option<string>)
    requires exists s :: s in rows && s.customer == Some(id) && (Truthy(category) ==> s.category == category)
    ensures IsTopN(Where(rows, ProductAmong(Products(Purchases(rows, id, category)))), 5, Recommend(rows, id, category))
  {
    var s :| s in rows && s.customer == Some(id) && (Truthy(category) ==> s.category == category);
    assert s in Purchases(rows, id, category);
    HistoryBranch(rows, id, category);
  }

  /** The branch recommend_products takes when there are purchases. */
  lemma HistoryBranch(rows: seq<Sale>, id: string, category: Option<string>)
    requires |Purchases(rows, id, category)| != 0
    ensures Recommend(rows, id, category) == TopN(Where(rows, ProductAmong(Products(Purchases(rows, id, category)))), 5)
  {
  }

  /** r ranks the products the customer bought (in the category, when one is
      given): as many as head(5) keeps of them, each one the customer bought
      there, each with its quantity summed over the whole table, each once,
      in descending order, and no product the customer bought there that is
      left out sells more than the last one. */
  ghost predicate RanksBought(rows: seq<Sale>, id: string, category: Option<string>, r: seq<Group>) {
    && |r| == HeadCount(5, |Products(Purchases(rows, id, category))|)
    && (forall i :: 0 <= i < |r| ==>
          (exists s :: s in rows && s.customer == Some(id) && s.product == Some(r[i].product)
                       && (Truthy(category) ==> s.category == category)))
    && (forall i :: 0 <= i < |r| ==> r[i].quantity == Total(rows, r[i].product))
    && (forall i, j :: 0 <= i < j < |r| ==> r[i].product != r[j].product)
    && Descending(r)
    && (|r| > 0 ==> forall p :: p in Products(Purchases(rows, id, category)) && p !in Names(r) ==>
          Total(rows, p) <= r[|r| - 1].quantity)
  }

  /** With purchases (in the category, when one is given), the
      recommendation ranks the products bought there. */
  lemma RecommendFromHistory(rows: seq<Sale>, id: string, category: Option<string>)
    requires exists s :: s in rows && s.customer == Some(id) && (Truthy(category) ==> s.category == category)
    ensures RanksBought(rows, id, category, Recommend(rows, id, category))
  {
    var purchases := Purchases(rows, id, category);
    var s :| s in rows && s.customer == Some(id) && (Truthy(category) ==> s.category == category);
    assert s in purchases;
    var names := Products(purchases);
    HistoryBranch(rows, id, category);
    var r := Recommend(rows, id, category);
    TopNOfProducts(rows, names, 5, r);
    BoughtProductsOccur(rows, id, category);
    BoughtRanking(rows, id, category, r);
  }

  /** What TopNOfProducts says of a ranking of the customer's products
      makes it RanksBought. */
  lemma BoughtRanking(rows: seq<Sale>, id: string, category: Option<string>, r: seq<Group>)
    requires |r| == HeadCount(5, |Products(Purchases(rows, id, category))|) && Descending(r)
    requires forall i :: 0 <= i < |r| ==>
      r[i].product in Products(Purchases(rows, id, category)) && r[i].quantity == Total(rows, r[i].product)
    requires forall i, j :: 0 <= i < j < |r| ==> r[i].product != r[j].product
    requires |r| > 0 ==> forall p :: p in Products(Purchases(rows, id, category)) && p in Products(rows) && p !in Names(r) ==>
      Total(rows, p) <= r[|r| - 1].quantity
    ensures RanksBought(rows, id, category, r)
  {
    forall i | 0 <= i < |r|
      ensures exists s :: s in rows && s.customer == Some(id) && s.product == Some(r[i].product)
                          && (Truthy(category) ==> s.category == category)
    {
      BoughtProduct(rows, id, category, r[i].product);
    }
    if |r| > 0 {
      forall p | p in Products(Purchases(rows, id, category)) && p !in Names(r)
        ensures Total(rows, p) <= r[|r| - 1].quantity
      {
        BoughtProduct(rows, id, category, p);
      }
    }
  }

  /** Every product the customer bought occurs in the table. */
  lemma BoughtProductsOccur(rows: seq<Sale>, id: string, category: Option<string>)
    ensures Products(Purchases(rows, id, category)) * Products(rows) == Products(Purchases(rows, id, category))
  {
    forall p | p in Products(Purchases(rows, id, category)) ensures p in Products(rows) {
      BoughtProduct(rows, id, category, p);
    }
  }

  /** A product among the customer's purchases was bought by the customer. */
  lemma BoughtProduct(rows: seq<Sale>, id: string, category: Option<string>, p: string)
    requires p in Products(Purchases(rows, id, category))
    ensures p in Products(rows)
    ensures exists s :: s in rows && s.customer == Some(id) && s.product == Some(p)
                        && (Truthy(category) ==> s.category == category)
  {
  }
}
