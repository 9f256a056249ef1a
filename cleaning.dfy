/** Loading the API's sale records into the table and cleaning them: the
    "Category" default, the fillna defaults and the coercion of dates and
    numbers. The string parsers of pd.to_numeric and pd.to_datetime are not
    modelled: a record carries the parser's verdict (None when it cannot read
    the value). */
module Cleaning {
  import opened Table

  /** A field of one JSON record as pd.DataFrame sees it: the key is absent,
      its value is null, or it holds a value. */
  datatype Entry<T> = Absent | Null | Value(v: T)

  /** One sale record as the API returns it. */
  datatype RawSale = RawSale(
    product: Entry<string>,
    category: Entry<string>,
    price: Entry<Option<real>>,           // what pd.to_numeric makes of the value
    quantity: Entry<Option<real>>,        // likewise
    customer: Entry<string>,
    satisfaction: Entry<real>,
    date: Entry<Option<Timestamp>>)       // what pd.to_datetime makes of the value

  datatype Column = ProductName | Category | Price | Quantity | CustomerId | Satisfaction | PurchaseDate

  const UnknownCategory: string := "Unknown"

  predicate HasKey(r: RawSale, c: Column) {
    match c
    case ProductName => !r.product.Absent?
    case Category => !r.category.Absent?
    case Price => !r.price.Absent?
    case Quantity => !r.quantity.Absent?
    case CustomerId => !r.customer.Absent?
    case Satisfaction => !r.satisfaction.Absent?
    case PurchaseDate => !r.date.Absent?
  }

  /** pd.DataFrame(data) has column c exactly when some record has the key. */
  predicate HasColumn(data: seq<RawSale>, c: Column) {
    exists r :: r in data && HasKey(r, c)
  }

  /** A cell of the constructed frame: absent keys and nulls are both NaN. */
  function Cell<T>(e: Entry<T>): Option<T> {
    if e.Value? then Some(e.v) else None
  }

  /** A numeric column after fillna(0) and pd.to_numeric(errors="coerce").fillna(0):
      a value the parser reads is kept, anything else becomes 0. */
  function Coerced(e: Entry<Option<real>>): real {
    if e.Value? && e.v.Some? then e.v.value else 0.0
  }

  /** pd.to_datetime(errors="coerce"): NaT unless the parser reads a date. */
  function ParsedDate(e: Entry<Option<Timestamp>>): Option<Timestamp> {
    if e.Value? then e.v else None
  }

  function NormaliseRecord(r: RawSale, categoryColumn: bool): Sale {
    Sale(
      Cell(r.product),
      if categoryColumn then Cell(r.category) else Some(UnknownCategory),
      Coerced(r.price),
      Coerced(r.quantity),
      Cell(r.customer),
      if r.satisfaction.Value? then r.satisfaction.v else 0.0,
      ParsedDate(r.date),
      None)
  }

  /** The frame after the cleaning block. Without a Purchase_date, Price or
      Quantity_purchased column the block stops with a KeyError, so the
      script needs all three. */
  function Normalise(data: seq<RawSale>): (rows: seq<Sale>)
    requires HasColumn(data, PurchaseDate) && HasColumn(data, Price) && HasColumn(data, Quantity)
    ensures |rows| == |data|
    ensures forall i :: 0 <= i < |rows| ==>
      && rows[i].product == Cell(data[i].product)
      && rows[i].customer == Cell(data[i].customer)
      && rows[i].spending == None
    // the "Unknown" default applies only when no record has a Category key
    ensures !HasColumn(data, Category) ==> forall i :: 0 <= i < |rows| ==> rows[i].category == Some(UnknownCategory)
    ensures HasColumn(data, Category) ==> forall i :: 0 <= i < |rows| ==> rows[i].category == Cell(data[i].category)
    // numbers the parser reads are kept; missing and unreadable ones become 0
    ensures forall i :: 0 <= i < |rows| ==>
      && (data[i].price.Value? && data[i].price.v.Some? ==> rows[i].price == data[i].price.v.value)
      && (!(data[i].price.Value? && data[i].price.v.Some?) ==> rows[i].price == 0.0)
      && (data[i].quantity.Value? && data[i].quantity.v.Some? ==> rows[i].quantity == data[i].quantity.v.value)
      && (!(data[i].quantity.Value? && data[i].quantity.v.Some?) ==> rows[i].quantity == 0.0)
    ensures forall i :: 0 <= i < |rows| ==>
      rows[i].satisfaction == (if data[i].satisfaction.Value? then data[i].satisfaction.v else 0.0)
    // a date is present exactly when the record held one the parser reads
    ensures forall i :: 0 <= i < |rows| ==>
      (rows[i].date.Some? <==> data[i].date.Value? && data[i].date.v.Some?) &&
      (rows[i].date.Some? ==> data[i].date == Value(rows[i].date))
  {
    var categoryColumn := HasColumn(data, Category);
    seq(|data|, i requires 0 <= i < |data| => NormaliseRecord(data[i], categoryColumn))
  }

  /** Every cleaned row has a category exactly when the Category column is
      absent altogether or every record carries a category value: a record
      with a missing category beside one that has it stays NaN. */
  lemma CategoryAlwaysFilled(data: seq<RawSale>)
    requires HasColumn(data, PurchaseDate) && HasColumn(data, Price) && HasColumn(data, Quantity)
    ensures (forall s :: s in Normalise(data) ==> s.category.Some?) <==>
            (!HasColumn(data, Category) || forall r :: r in data ==> r.category.Value?)
  {
    var rows := Normalise(data);
    if HasColumn(data, Category) && exists r :: r in data && !r.category.Value? {
      var r :| r in data && !r.category.Value?;
      var i :| 0 <= i < |data| && data[i] == r;
      assert rows[i] in rows && rows[i].category == None;
    }
    if (forall r :: r in data ==> r.category.Value?) {
      forall s | s in rows ensures s.category.Some? {
        var i :| 0 <= i < |rows| && rows[i] == s;
        assert data[i] in data;
      }
    }
  }
}
