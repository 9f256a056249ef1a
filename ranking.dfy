/** The pattern every top-N report of the script shares:
    groupby("Product_name")["Quantity_purchased"].sum()
      .sort_values(ascending=False).head(n).
    sort_values uses an unstable sort, so the order of equal sums is not
    fixed: IsTopN admits every tie order, and TopN is one result it admits. */
module Ranking {
  import opened Table

  /** One entry of the resulting series: a product name and its summed quantity. */
  datatype Group = Group(product: string, quantity: real)

  predicate NoDuplicates<T(==)>(s: seq<T>) {
    forall i, j :: 0 <= i < j < |s| ==> s[i] != s[j]
  }

  predicate Descending(gs: seq<Group>) {
    forall i, j :: 0 <= i < j < |gs| ==> gs[i].quantity >= gs[j].quantity
  }

  function Names(gs: seq<Group>): set<string> {
    set g | g in gs :: g.product
  }

  /** How many rows head(n) keeps of a series of m rows; a negative n keeps
      all but the last -n. */
  function HeadCount(n: int, m: nat): (k: nat)
    ensures k <= m
    ensures n >= 0 ==> k <= n && (k == n || k == m)
    ensures n < 0 ==> k + (-n) == m || (k == 0 && m <= -n)
  {
    if n >= 0 then (if n < m then n else m)
    else if m + n > 0 then m + n else 0
  }

  /** What the script promises of its top-n series over the table rows. */
  ghost predicate IsTopN(rows: seq<Sale>, n: int, r: seq<Group>) {
    && |r| == HeadCount(n, |Products(rows)|)
    && (forall i :: 0 <= i < |r| ==> r[i].product in Products(rows) && r[i].quantity == Total(rows, r[i].product))
    && (forall i, j :: 0 <= i < j < |r| ==> r[i].product != r[j].product)
    && Descending(r)
    && (|r| > 0 ==>
          forall p :: p in Products(rows) && p !in Names(r) ==> Total(rows, p) <= r[|r| - 1].quantity)
  }

  /** The group keys, each once (in the order their last row appears). */
  function Distinct(rows: seq<Sale>): (d: seq<string>)
    ensures NoDuplicates(d)
    ensures forall p :: p in d <==> p in Products(rows)
  {
    if |rows| == 0 then []
    else
      var rest := Distinct(rows[1..]);
      if rows[0].product.Some? && rows[0].product.value !in rest then [rows[0].product.value] + rest
      else rest
  }

  lemma {:induction false} DistinctCount(rows: seq<Sale>)
    ensures |Distinct(rows)| == |Products(rows)|
  {
    if |rows| > 0 {
      DistinctCount(rows[1..]);
      var rest := Distinct(rows[1..]);
      var head := if rows[0].product.Some? then {rows[0].product.value} else {};
      assert Products(rows) == head + Products(rows[1..]);
      if rows[0].product.Some? && rows[0].product.value !in rest {
        assert rows[0].product.value !in Products(rows[1..]);
        assert |Products(rows)| == |Products(rows[1..])| + 1;
      } else {
        assert Products(rows) == Products(rows[1..]);
      }
    }
  }

  /** The grouped sums, before sorting. */
  function Grouped(rows: seq<Sale>): (gs: seq<Group>)
    ensures |gs| == |Products(rows)|
    ensures NoDuplicates(gs)
    ensures forall g :: g in gs <==> g.product in Products(rows) && g.quantity == Total(rows, g.product)
  {
    var d := Distinct(rows);
    DistinctCount(rows);
    var gs := seq(|d|, i requires 0 <= i < |d| => Group(d[i], Total(rows, d[i])));
    assert forall g: Group :: g.product in Products(rows) && g.quantity == Total(rows, g.product) ==> g in gs by {
      forall g: Group | g.product in Products(rows) && g.quantity == Total(rows, g.product) ensures g in gs {
        var i :| 0 <= i < |d| && d[i] == g.product;
        assert gs[i] == g;
      }
    }
    gs
  }

  /** Index of a largest sum. */
  function MaxIndex(gs: seq<Group>): (m: nat)
    requires |gs| > 0
    ensures m < |gs|
    ensures forall j :: 0 <= j < |gs| ==> gs[j].quantity <= gs[m].quantity
  {
    if |gs| == 1 then 0
    else
      var m := MaxIndex(gs[1..]);
      if gs[0].quantity >= gs[m + 1].quantity then 0 else m + 1
  }

  /** sort_values(ascending=False): a descending permutation (here by
      repeatedly taking a largest remaining sum). */
  function SortDescending(gs: seq<Group>): (r: seq<Group>)
    ensures |r| == |gs|
    ensures multiset(r) == multiset(gs)
    ensures Descending(r)
    ensures NoDuplicates(gs) ==> NoDuplicates(r)
    decreases |gs|
  {
    if |gs| == 0 then []
    else
      var m := MaxIndex(gs);
      var tail := SortDescending(gs[..m] + gs[m + 1..]);
      PutLargestFirst(gs, m, tail);
      [gs[m]] + tail
  }

  /** A largest entry put in front of the sorted remainder gives a sorted
      permutation of the whole. */
  lemma PutLargestFirst(gs: seq<Group>, m: nat, tail: seq<Group>)
    requires m < |gs| && forall j :: 0 <= j < |gs| ==> gs[j].quantity <= gs[m].quantity
    requires multiset(tail) == multiset(gs[..m] + gs[m + 1..]) && Descending(tail)
    requires NoDuplicates(gs[..m] + gs[m + 1..]) ==> NoDuplicates(tail)
    ensures multiset([gs[m]] + tail) == multiset(gs)
    ensures Descending([gs[m]] + tail)
    ensures NoDuplicates(gs) ==> NoDuplicates([gs[m]] + tail)
  {
    var rest := gs[..m] + gs[m + 1..];
    RemoveAt(gs, m);
    SameMembers(tail, rest);
    forall x | x in tail ensures x.quantity <= gs[m].quantity {
      var j :| 0 <= j < |gs| && gs[j] == x;
    }
    Cons(gs[m], tail);
  }

  /** Taking element m out of gs. */
  lemma RemoveAt(gs: seq<Group>, m: nat)
    requires m < |gs|
    ensures multiset(gs) == multiset(gs[..m] + gs[m + 1..]) + multiset{gs[m]}
    ensures forall x :: x in gs[..m] + gs[m + 1..] ==> x in gs
    ensures NoDuplicates(gs) ==> NoDuplicates(gs[..m] + gs[m + 1..]) && gs[m] !in gs[..m] + gs[m + 1..]
  {
    var rest := gs[..m] + gs[m + 1..];
    assert gs == gs[..m] + [gs[m]] + gs[m + 1..];
    if NoDuplicates(gs) {
      forall i, j | 0 <= i < j < |rest| ensures rest[i] != rest[j] {
        var i' := if i < m then i else i + 1;
        var j' := if j < m then j else j + 1;
        assert rest[i] == gs[i'] && rest[j] == gs[j'];
      }
    }
  }

  lemma SameMembers<T>(a: seq<T>, b: seq<T>)
    requires multiset(a) == multiset(b)
    ensures forall x :: x in a <==> x in b
  {
    forall x ensures x in a <==> x in b {
      assert x in a <==> x in multiset(a);
      assert x in b <==> x in multiset(b);
    }
  }

  /** Putting a group in front of a descending tail whose sums do not exceed
      its own, and that does not already hold it. */
  lemma Cons(g: Group, tail: seq<Group>)
    ensures (forall x :: x in tail ==> x.quantity <= g.quantity) && Descending(tail) ==> Descending([g] + tail)
    ensures g !in tail && NoDuplicates(tail) ==> NoDuplicates([g] + tail)
  {
  }

  /** The concrete top-n series: the first HeadCount(n, _) entries of the
      sorted grouped sums. */
  function TopN(rows: seq<Sale>, n: int): (r: seq<Group>)
    ensures IsTopN(rows, n, r)
  {
    var gs := Grouped(rows);
    var sorted := SortDescending(gs);
    SortedPrefixIsTopN(rows, gs, sorted, n);
    sorted[..HeadCount(n, |sorted|)]
  }

  /** Every prefix of a descending ordering of the grouped sums meets IsTopN. */
  lemma SortedPrefixIsTopN(rows: seq<Sale>, gs: seq<Group>, sorted: seq<Group>, n: int)
    requires gs == Grouped(rows)
    requires multiset(sorted) == multiset(gs) && |sorted| == |gs|
    requires Descending(sorted) && NoDuplicates(sorted)
    ensures IsTopN(rows, n, sorted[..HeadCount(n, |sorted|)])
  {
    var k := HeadCount(n, |sorted|);
    SameMembers(sorted, gs);
    PrefixGroups(rows, sorted, k);
    if k > 0 {
      PrefixLeavesSmaller(rows, sorted, k);
    }
  }

  /** The entries of a prefix are grouped sums with distinct names. */
  lemma PrefixGroups(rows: seq<Sale>, sorted: seq<Group>, k: nat)
    requires forall x :: x in sorted ==> x in Grouped(rows)
    requires NoDuplicates(sorted) && k <= |sorted|
    ensures forall i :: 0 <= i < k ==> sorted[i].product in Products(rows) && sorted[i].quantity == Total(rows, sorted[i].product)
    ensures forall i, j :: 0 <= i < j < k ==> sorted[i].product != sorted[j].product
  {
    forall i | 0 <= i < k
      ensures sorted[i].product in Products(rows) && sorted[i].quantity == Total(rows, sorted[i].product)
    {
      assert sorted[i] in sorted;
    }
    forall i, j | 0 <= i < j < k ensures sorted[i].product != sorted[j].product {
      assert sorted[i] in sorted && sorted[j] in sorted;
    }
  }

  /** A product outside a prefix of a descending ordering of all grouped sums
      has a sum no larger than the prefix's last entry. */
  lemma PrefixLeavesSmaller(rows: seq<Sale>, sorted: seq<Group>, k: nat)
    requires forall x :: x in Grouped(rows) ==> x in sorted
    requires Descending(sorted) && 0 < k <= |sorted|
    ensures forall p :: p in Products(rows) && p !in Names(sorted[..k]) ==> Total(rows, p) <= sorted[k - 1].quantity
  {
    forall p | p in Products(rows) && p !in Names(sorted[..k]) ensures Total(rows, p) <= sorted[k - 1].quantity {
      var g := Group(p, Total(rows, p));
      assert g in Grouped(rows);
      var idx :| 0 <= idx < |sorted| && sorted[idx] == g;
      assert idx >= k;
    }
  }
}
