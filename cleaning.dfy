/**
 * The cleaning half of `load_and_clean_data`: drop the rows whose amount is
 * missing, then coerce the `Date` column to dates, turning any cell that
 * does not parse into a missing date instead of failing.
 */
module Cleaning {
  import opened Wrappers
  import opened Table

  predicate HasAmount<D>(x: Row<D>) {
    x.amount.Some?
  }

  /** `df.dropna(subset=['Amount'])`. */
  function DropMissingAmount<D>(t: seq<Row<D>>): (r: seq<Row<D>>)
    ensures |r| <= |t|
    ensures forall i :: 0 <= i < |r| ==> r[i].amount.Some? && r[i] in t
    ensures forall i :: 0 <= i < |t| && t[i].amount.Some? ==> t[i] in r
  {
    Filter(t, HasAmount)
  }

  /** Dropping works row by row and keeps the surviving rows in their original order. */
  lemma DropMissingAmountConcat<D>(a: seq<Row<D>>, b: seq<Row<D>>)
    ensures DropMissingAmount(a + b) == DropMissingAmount(a) + DropMissingAmount(b)
  {
    FilterConcat(a, b, HasAmount);
  }

  /** A row is kept exactly when its amount is present. */
  lemma DropMissingAmountSingleton<D>(x: Row<D>)
    ensures DropMissingAmount([x]) == if x.amount.Some? then [x] else []
  {
    assert [x][1..] == [];
  }

  /** A table whose amounts are all present comes back unchanged. */
  lemma DropMissingAmountKeepsClean<D>(t: seq<Row<D>>)
    requires forall i :: 0 <= i < |t| ==> t[i].amount.Some?
    ensures DropMissingAmount(t) == t
  {
    FilterKeepsAll(t, HasAmount);
  }

  /** Cleaning an already-clean table changes nothing. */
  lemma DropMissingAmountIdempotent<D>(t: seq<Row<D>>)
    ensures DropMissingAmount(DropMissingAmount(t)) == DropMissingAmount(t)
  {
    DropMissingAmountKeepsClean(DropMissingAmount(t));
  }

  /** The dropped rows contributed nothing to any sum, so revenue is unchanged. */
  lemma {:induction false} DropMissingAmountKeepsTotal<D>(t: seq<Row<D>>)
    ensures TotalAmount(DropMissingAmount(t)) == TotalAmount(t)
  {
    if t != [] {
      DropMissingAmountKeepsTotal(t[1..]);
      var head := if HasAmount(t[0]) then [t[0]] else [];
      assert DropMissingAmount(t) == head + DropMissingAmount(t[1..]);
      TotalAmountConcat(head, DropMissingAmount(t[1..]));
    }
  }

  /** `pd.to_datetime(..., errors='coerce')` on one cell: a missing cell stays missing, text is parsed. */
  function CoerceDate(cell: Option<string>, parse: string -> Option<Day>): Option<Day> {
    match cell
    case None => None
    case Some(s) => parse(s)
  }

  /** `x` and `y` agree on every column but the date. */
  predicate SameExceptDate<D, E>(x: Row<D>, y: Row<E>) {
    && x.orderId == y.orderId
    && x.amount == y.amount
    && x.category == y.category
    && x.region == y.region
  }

  /** A row with its date cell coerced and every other cell as it was. */
  function CleanRow(x: RawRow, parse: string -> Option<Day>): Sale {
    Row(x.orderId, x.amount, CoerceDate(x.date, parse), x.category, x.region)
  }

  /** `df['Date'] = pd.to_datetime(df['Date'], errors='coerce')`. */
  function CoerceDates(t: seq<RawRow>, parse: string -> Option<Day>): (r: seq<Sale>)
    ensures |r| == |t|
    ensures forall i :: 0 <= i < |t| ==> SameExceptDate(t[i], r[i])
    ensures forall i :: 0 <= i < |t| ==> r[i].date == CoerceDate(t[i].date, parse)
    ensures forall i :: 0 <= i < |t| && r[i].date.Some? ==> t[i].date.Some? && parse(t[i].date.value) == r[i].date
  {
    if t == [] then []
    else
      [CleanRow(t[0], parse)] + CoerceDates(t[1..], parse)
  }

  /** Coercion changes no amount, so it keeps the total. */
  lemma {:induction false} CoerceDatesKeepsTotal(t: seq<RawRow>, parse: string -> Option<Day>)
    ensures TotalAmount(CoerceDates(t, parse)) == TotalAmount(t)
  {
    if t != [] {
      CoerceDatesKeepsTotal(t[1..], parse);
    }
  }

  /** The cleaning part of `load_and_clean_data`, on an already parsed table. */
  function LoadAndClean(t: seq<RawRow>, parse: string -> Option<Day>): (r: seq<Sale>)
    ensures |r| <= |t|
    ensures forall i :: 0 <= i < |r| ==> r[i].amount.Some?
    ensures forall i :: 0 <= i < |r| ==>
      exists j :: 0 <= j < |t| && SameExceptDate(t[j], r[i]) && r[i].date == CoerceDate(t[j].date, parse)
  {
    var kept := DropMissingAmount(t);
    var r := CoerceDates(kept, parse);
    assert forall i :: 0 <= i < |r| ==> kept[i] in t;
    r
  }

  /** Coercion works row by row. */
  lemma {:induction false} CoerceDatesConcat(a: seq<RawRow>, b: seq<RawRow>, parse: string -> Option<Day>)
    ensures CoerceDates(a + b, parse) == CoerceDates(a, parse) + CoerceDates(b, parse)
  {
    if a == [] {
      assert a + b == b;
    } else {
      assert (a + b)[1..] == a[1..] + b;
      CoerceDatesConcat(a[1..], b, parse);
    }
  }

  /** Cleaning works row by row, so the surviving rows keep their input order. */
  lemma LoadAndCleanConcat(a: seq<RawRow>, b: seq<RawRow>, parse: string -> Option<Day>)
    ensures LoadAndClean(a + b, parse) == LoadAndClean(a, parse) + LoadAndClean(b, parse)
  {
    DropMissingAmountConcat(a, b);
    CoerceDatesConcat(DropMissingAmount(a), DropMissingAmount(b), parse);
  }

  /** Every row with an amount survives cleaning, with only its date coerced. */
  lemma {:induction false} LoadAndCleanKeepsAmountRows(t: seq<RawRow>, parse: string -> Option<Day>)
    ensures forall j :: 0 <= j < |t| && t[j].amount.Some? ==> CleanRow(t[j], parse) in LoadAndClean(t, parse)
  {
    if t != [] {
      var x, rest := t[0], t[1..];
      assert t == [x] + rest;
      LoadAndCleanConcat([x], rest, parse);
      LoadAndCleanSingleton(x, parse);
      LoadAndCleanKeepsAmountRows(rest, parse);
      assert forall j :: 1 <= j < |t| ==> t[j] == rest[j - 1];
    }
  }

  /** One row survives cleaning exactly when its amount is present, and then only its date is coerced. */
  lemma LoadAndCleanSingleton(x: RawRow, parse: string -> Option<Day>)
    ensures LoadAndClean([x], parse)
      == if x.amount.Some? then [CleanRow(x, parse)] else []
  {
    DropMissingAmountSingleton(x);
    assert [x][1..] == [];
  }

  /** Cleaning the output of cleaning changes nothing. */
  lemma LoadAndCleanIdempotent(t: seq<RawRow>, parse: string -> Option<Day>)
    ensures DropMissingAmount(LoadAndClean(t, parse)) == LoadAndClean(t, parse)
  {
    DropMissingAmountKeepsClean(LoadAndClean(t, parse));
  }

  /** Cleaning keeps the revenue of the parsed table: only rows without an amount go. */
  lemma LoadAndCleanKeepsTotal(t: seq<RawRow>, parse: string -> Option<Day>)
    ensures TotalAmount(LoadAndClean(t, parse)) == TotalAmount(t)
  {
    CoerceDatesKeepsTotal(DropMissingAmount(t), parse);
    DropMissingAmountKeepsTotal(t);
  }
}
