/** The sales table once it has been loaded and cleaned: one record per
    purchase line, the row filters the analyses apply, and the grouped
    quantity sum that every top-N report is built on. */
module Table {

  datatype Option<T> = None | Some(value: T)

  /** A point in time, as a pandas datetime64 value (nanoseconds since the epoch). */
  type Timestamp = int

  /** The two columns customer_spending_levels adds: "Total Spending" and
      "Spending Level" (None where pd.cut leaves the level NaN). */
  datatype Spending = Spending(total: real, level: Option<string>)

  /** One row of the data frame. None stands for a missing value (NaN, NaT). */
  datatype Sale = Sale(
    product: Option<string>,      // Product_name
    category: Option<string>,     // Category
    price: real,                  // Price
    quantity: real,               // Quantity_purchased
    customer: Option<string>,     // Customer_id
    satisfaction: real,           // Customer_satisfaction_score
    date: Option<Timestamp>,      // Purchase_date
    spending: Option<Spending>)   // absent until the spending columns are added

  /** Python's int(x) on a float (what astype(int) does): truncation toward zero. */
  function TruncToInt(x: real): (k: int)
    ensures x >= 0.0 ==> k as real <= x < k as real + 1.0
    ensures x < 0.0 ==> k as real - 1.0 < x <= k as real
  {
    if x >= 0.0 then x.Floor else -((-x).Floor)
  }

  /** The boolean masks the analyses index the frame with. */
  datatype Filter =
    | DatedWithin(start: Timestamp, end: Timestamp)   // start <= Purchase_date <= end
    | SatisfactionAbove(score: int)                   // Customer_satisfaction_score.astype(int) > score
    | BoughtBy(id: string)                            // Customer_id == id
    | InCategory(name: string)                        // Category == name
    | ProductAmong(names: set<string>)                // Product_name.isin(names)

  /** Whether the mask is true on row s. Comparisons with NaN and NaT are false. */
  predicate Keeps(f: Filter, s: Sale) {
    match f
    case DatedWithin(start, end) => s.date.Some? && start <= s.date.value && s.date.value <= end
    case SatisfactionAbove(score) => TruncToInt(s.satisfaction) > score
    case BoughtBy(id) => s.customer == Some(id)
    case InCategory(name) => s.category == Some(name)
    case ProductAmong(names) => s.product.Some? && s.product.value in names
  }

  /** df[mask]: the rows the mask keeps, in their original order. */
  function Where(rows: seq<Sale>, f: Filter): (r: seq<Sale>)
    ensures |r| <= |rows|
    ensures forall s :: s in r <==> s in rows && Keeps(f, s)
    ensures |r| == 0 <==> forall s :: s in rows ==> !Keeps(f, s)
    // every kept row keeps all of its copies, every other row none
    ensures forall s :: multiset(r)[s] == if Keeps(f, s) then multiset(rows)[s] else 0
  {
    if |rows| == 0 then []
    else
      assert forall s :: s in rows <==> s == rows[0] || s in rows[1..];
      assert rows == [rows[0]] + rows[1..];
      if Keeps(f, rows[0]) then [rows[0]] + Where(rows[1..], f) else Where(rows[1..], f)
  }

  /** The group keys of groupby("Product_name"): the product names that occur,
      missing names dropped. */
  function Products(rows: seq<Sale>): (r: set<string>)
    ensures forall p :: p in r <==> exists s :: s in rows && s.product == Some(p)
  {
    if |rows| == 0 then {}
    else
      assert forall s :: s in rows <==> s == rows[0] || s in rows[1..];
      (if rows[0].product.Some? then {rows[0].product.value} else {}) + Products(rows[1..])
  }

  /** The group value of groupby("Product_name")["Quantity_purchased"].sum()
      for product p: the sum over every row carrying that name. */
  function Total(rows: seq<Sale>, p: string): real {
    if |rows| == 0 then 0.0
    else (if rows[0].product == Some(p) then rows[0].quantity else 0.0) + Total(rows[1..], p)
  }

  /** The quantity sum of the rows of product p that filter f keeps. */
  function KeptTotal(rows: seq<Sale>, f: Filter, p: string): real {
    if |rows| == 0 then 0.0
    else (if rows[0].product == Some(p) && Keeps(f, rows[0]) then rows[0].quantity else 0.0) + KeptTotal(rows[1..], f, p)
  }

  /** The group sum of p in the filtered table is the sum over exactly the
      rows of p the filter keeps, duplicates included. */
  lemma {:induction false} TotalOfWhere(rows: seq<Sale>, f: Filter, p: string)
    ensures Total(Where(rows, f), p) == KeptTotal(rows, f, p)
  {
    if |rows| > 0 {
      TotalOfWhere(rows[1..], f, p);
      var rest := Where(rows[1..], f);
      if Keeps(f, rows[0]) {
        assert Where(rows, f) == [rows[0]] + rest;
        assert ([rows[0]] + rest)[1..] == rest;
      } else {
        assert Where(rows, f) == rest;
      }
    }
  }

  /** A filter that keeps every row of product p keeps its whole sum. */
  lemma {:induction false} KeptTotalAll(rows: seq<Sale>, f: Filter, p: string)
    requires forall i :: 0 <= i < |rows| && rows[i].product == Some(p) ==> Keeps(f, rows[i])
    ensures KeptTotal(rows, f, p) == Total(rows, p)
  {
    if |rows| > 0 {
      KeptTotalAll(rows[1..], f, p);
    }
  }

  /** Rows a filter drops do not contribute to any group sum of the filtered
      table, and a filter that keeps every row of product p keeps its sum. */
  lemma TotalWhere(rows: seq<Sale>, f: Filter, p: string)
    requires forall s :: s in rows && s.product == Some(p) ==> Keeps(f, s)
    ensures Total(Where(rows, f), p) == Total(rows, p)
  {
    TotalOfWhere(rows, f, p);
    KeptTotalAll(rows, f, p);
  }

  /** Appending a row the filter drops changes nothing in the filtered table. */
  lemma {:induction false} WhereAppendDropped(rows: seq<Sale>, s: Sale, f: Filter)
    requires !Keeps(f, s)
    ensures Where(rows + [s], f) == Where(rows, f)
  {
    if |rows| == 0 {
      assert [s][1..] == [];
    } else {
      assert (rows + [s])[1..] == rows[1..] + [s];
      WhereAppendDropped(rows[1..], s, f);
    }
  }
}
