/**
 * The sales table as the ETL script sees it once the CSV export has been
 * parsed: a sequence of rows, and the two whole-column operations the script
 * builds everything from, a boolean-mask selection `df[mask]` and the
 * NaN-skipping `Series.sum()` of the `Amount` column.
 */
module Table {
  import opened Wrappers

  /** A calendar day number (days since some fixed epoch). */
  type Day = int

  /**
   * One line of the sales export. An order spans several lines, so `orderId`
   * is not unique. Every cell may be missing (NaN in pandas); `D` is the type
   * of the `Date` cell, which the cleaning step changes.
   */
  datatype Row<D> = Row(
    orderId: Option<string>,   // "Order ID"
    amount: Option<real>,      // "Amount"
    date: D,                   // "Date"
    category: Option<string>,  // "Category"
    region: Option<string>     // "ship-state"
  )

  /** A row as read from the file: the date is still text. */
  type RawRow = Row<Option<string>>

  /** A row after date coercion: the date is a day or missing (NaT). */
  type Sale = Row<Option<Day>>

  /** `df[mask]`: the rows for which `p` holds, in their original order. */
  function Filter<D>(t: seq<Row<D>>, p: Row<D> -> bool): (r: seq<Row<D>>)
    ensures |r| <= |t|
    ensures forall i :: 0 <= i < |r| ==> r[i] in t && p(r[i])
    ensures forall i :: 0 <= i < |t| && p(t[i]) ==> t[i] in r
  {
    if t == [] then [] else (if p(t[0]) then [t[0]] else []) + Filter(t[1..], p)
  }

  /** Selecting from a concatenation selects from each part, keeping the parts in order. */
  lemma {:induction false} FilterConcat<D>(a: seq<Row<D>>, b: seq<Row<D>>, p: Row<D> -> bool)
    ensures Filter(a + b, p) == Filter(a, p) + Filter(b, p)
  {
    if a == [] {
      assert a + b == b;
    } else {
      assert (a + b)[1..] == a[1..] + b;
      FilterConcat(a[1..], b, p);
    }
  }

  /** A mask that holds on every row keeps the table as it is. */
  lemma {:induction false} FilterKeepsAll<D>(t: seq<Row<D>>, p: Row<D> -> bool)
    requires forall i :: 0 <= i < |t| ==> p(t[i])
    ensures Filter(t, p) == t
  {
    if t != [] {
      FilterKeepsAll(t[1..], p);
    }
  }

  /** A mask that holds on no row selects nothing. */
  lemma {:induction false} FilterKeepsNone<D>(t: seq<Row<D>>, p: Row<D> -> bool)
    requires forall i :: 0 <= i < |t| ==> !p(t[i])
    ensures Filter(t, p) == []
  {
    if t != [] {
      FilterKeepsNone(t[1..], p);
    }
  }

  /** The amount a row contributes to a sum: pandas skips NaN. */
  function AmountOf<D>(x: Row<D>): real {
    x.amount.GetOr(0.0)
  }

  /** `df['Amount'].sum()`: the sum of the present amounts, 0 for an empty table. */
  function TotalAmount<D>(t: seq<Row<D>>): real {
    if t == [] then 0.0 else AmountOf(t[0]) + TotalAmount(t[1..])
  }

  lemma {:induction false} TotalAmountConcat<D>(a: seq<Row<D>>, b: seq<Row<D>>)
    ensures TotalAmount(a + b) == TotalAmount(a) + TotalAmount(b)
  {
    if a == [] {
      assert a + b == b;
    } else {
      assert (a + b)[1..] == a[1..] + b;
      TotalAmountConcat(a[1..], b);
    }
  }

  /** A mask and its negation split the total: every row is counted exactly once. */
  lemma {:induction false} TotalAmountSplit<D>(t: seq<Row<D>>, p: Row<D> -> bool)
    ensures TotalAmount(Filter(t, p)) + TotalAmount(Filter(t, x => !p(x))) == TotalAmount(t)
  {
    if t != [] {
      TotalAmountSplit(t[1..], p);
      var q := (x: Row<D>) => !p(x);
      var a := if p(t[0]) then [t[0]] else [];
      var b := if q(t[0]) then [t[0]] else [];
      TotalAmountConcat(a, Filter(t[1..], p));
      TotalAmountConcat(b, Filter(t[1..], q));
    }
  }

  /** No present amount is negative. */
  predicate NonNegativeAmounts<D>(t: seq<Row<D>>) {
    forall i :: 0 <= i < |t| ==> AmountOf(t[i]) >= 0.0
  }

  lemma {:induction false} TotalAmountNonNegative<D>(t: seq<Row<D>>)
    requires NonNegativeAmounts(t)
    ensures TotalAmount(t) >= 0.0
  {
    if t != [] {
      assert NonNegativeAmounts(t[1..]) by {
        forall i | 0 <= i < |t[1..]| ensures AmountOf(t[1..][i]) >= 0.0 {
          assert t[1..][i] == t[i + 1];
        }
      }
      TotalAmountNonNegative(t[1..]);
    }
  }

  /** With non-negative amounts the sum over any selection is between 0 and the whole sum. */
  lemma TotalAmountFilterBound<D>(t: seq<Row<D>>, p: Row<D> -> bool)
    requires NonNegativeAmounts(t)
    ensures 0.0 <= TotalAmount(Filter(t, p)) <= TotalAmount(t)
  {
    var q := (x: Row<D>) => !p(x);
    TotalAmountSplit(t, p);
    FilterSubsetNonNegative(t, p);
    FilterSubsetNonNegative(t, q);
    TotalAmountNonNegative(Filter(t, p));
    TotalAmountNonNegative(Filter(t, q));
  }

  lemma FilterSubsetNonNegative<D>(t: seq<Row<D>>, p: Row<D> -> bool)
    requires NonNegativeAmounts(t)
    ensures NonNegativeAmounts(Filter(t, p))
  {
    var r := Filter(t, p);
    forall i | 0 <= i < |r| ensures AmountOf(r[i]) >= 0.0 {
      assert r[i] in t;
    }
  }
}
