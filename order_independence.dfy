/**
 * The aggregation does not depend on the order of the rows: a table and any
 * reordering of it give the same KPI record, the top region included.
 */
module OrderIndependence {
  import opened Wrappers
  import opened Strings
  import opened Table
  import opened Kpis

  /** Every row of one ordering sits somewhere in the other. */
  lemma Locate<D>(a: seq<Row<D>>, b: seq<Row<D>>, i: nat) returns (j: nat)
    requires multiset(a) == multiset(b)
    requires i < |a|
    ensures j < |b| && b[j] == a[i]
  {
    assert a[i] in multiset(b);
    j :| 0 <= j < |b| && b[j] == a[i];
  }

  /** A selection keeps every copy of a selected row and no copy of another. */
  lemma {:induction false} FilterCounts<D>(t: seq<Row<D>>, p: Row<D> -> bool)
    ensures forall x :: multiset(Filter(t, p))[x] == if p(x) then multiset(t)[x] else 0
  {
    if t != [] {
      FilterCounts(t[1..], p);
      assert t == [t[0]] + t[1..];
      var head := if p(t[0]) then [t[0]] else [];
      assert Filter(t, p) == head + Filter(t[1..], p);
      assert multiset(t) == multiset{t[0]} + multiset(t[1..]);
    }
  }

  /** Selecting from two orderings of a table gives two orderings of the selection. */
  lemma FilterPermutation<D>(a: seq<Row<D>>, b: seq<Row<D>>, p: Row<D> -> bool)
    requires multiset(a) == multiset(b)
    ensures multiset(Filter(a, p)) == multiset(Filter(b, p))
  {
    FilterCounts(a, p);
    FilterCounts(b, p);
  }

  /** Taking the first row off one ordering and the same row off another leaves orderings of the same rows. */
  lemma RemoveMatching<D>(a: seq<Row<D>>, b: seq<Row<D>>, j: nat)
    requires multiset(a) == multiset(b)
    requires a != [] && j < |b| && b[j] == a[0]
    ensures multiset(a[1..]) == multiset(b[..j] + b[j + 1..])
  {
    var x, before, after := a[0], b[..j], b[j + 1..];
    assert b == before + [x] + after;
    assert a == [x] + a[1..];
    assert multiset(b) == multiset(before) + multiset{x} + multiset(after);
    assert multiset(a) == multiset{x} + multiset(a[1..]);
    assert multiset(before + after) == multiset(before) + multiset(after);
    forall y ensures multiset(a[1..])[y] == multiset(before + after)[y] {
      assert multiset(a)[y] == multiset(b)[y];
    }
  }

  /** The amount sum does not depend on the order of the rows. */
  lemma {:induction false} TotalAmountPermutation<D>(a: seq<Row<D>>, b: seq<Row<D>>)
    requires multiset(a) == multiset(b)
    ensures TotalAmount(a) == TotalAmount(b)
    decreases |a|
  {
    if a == [] {
      assert |b| == |multiset(b)| == 0;
    } else {
      var x := a[0];
      assert x in multiset(b);
      var j :| 0 <= j < |b| && b[j] == x;
      var before, after := b[..j], b[j + 1..];
      assert b == before + [x] + after;
      RemoveMatching(a, b, j);
      TotalAmountPermutation(a[1..], before + after);
      TotalAmountConcat(before, after);
      TotalAmountConcat(before + [x], after);
      TotalAmountConcat(before, [x]);
    }
  }

  function InRegion(v: string): Sale -> bool {
    (x: Sale) => x.region == Some(v)
  }

  lemma {:induction false} RegionCountIsFilter(t: seq<Sale>, v: string)
    ensures RegionCount(t, v) == |Filter(t, InRegion(v))|
  {
    if t != [] {
      RegionCountIsFilter(t[1..], v);
    }
  }

  /** The count of each region does not depend on the order of the rows. */
  lemma RegionCountPermutation(a: seq<Sale>, b: seq<Sale>, v: string)
    requires multiset(a) == multiset(b)
    ensures RegionCount(a, v) == RegionCount(b, v)
  {
    RegionCountIsFilter(a, v);
    RegionCountIsFilter(b, v);
    FilterPermutation(a, b, InRegion(v));
    assert |Filter(a, InRegion(v))| == |multiset(Filter(a, InRegion(v)))|;
    assert |Filter(b, InRegion(v))| == |multiset(Filter(b, InRegion(v)))|;
  }

  lemma IsTopRegionPermutation(a: seq<Sale>, b: seq<Sale>, m: string)
    requires multiset(a) == multiset(b)
    requires IsTopRegion(a, m)
    ensures IsTopRegion(b, m)
  {
    RegionCountPermutation(a, b, m);
    forall j | 0 <= j < |b| && b[j].region.Some?
      ensures || RegionCount(b, b[j].region.value) < RegionCount(b, m)
              || (RegionCount(b, b[j].region.value) == RegionCount(b, m)
                  && (b[j].region.value == m || StrLess(m, b[j].region.value)))
    {
      var i := Locate(b, a, j);
      RegionCountPermutation(a, b, b[j].region.value);
    }
  }

  lemma TopRegionPermutation(a: seq<Sale>, b: seq<Sale>, hasRegionColumn: bool)
    requires multiset(a) == multiset(b)
    ensures TopRegion(a, hasRegionColumn) == TopRegion(b, hasRegionColumn)
  {
    if hasRegionColumn {
      var ra, rb := TopRegion(a, true), TopRegion(b, true);
      assert (forall i :: 0 <= i < |a| ==> a[i].region.None?) <==> (forall j :: 0 <= j < |b| ==> b[j].region.None?) by {
        forall j | 0 <= j < |b| && b[j].region.Some? ensures exists i :: 0 <= i < |a| && a[i].region.Some? {
          var i := Locate(b, a, j);
        }
        forall i | 0 <= i < |a| && a[i].region.Some? ensures exists j :: 0 <= j < |b| && b[j].region.Some? {
          var j := Locate(a, b, i);
        }
      }
      if ra.Success? && rb.Success? {
        IsTopRegionPermutation(a, b, ra.value);
        TopRegionUnique(b, ra.value, rb.value);
      }
    }
  }

  lemma OrderIdsPermutation(a: seq<Sale>, b: seq<Sale>)
    requires multiset(a) == multiset(b)
    ensures OrderIds(a) == OrderIds(b)
  {
    OrderIdsMembers(a);
    OrderIdsMembers(b);
    forall id ensures id in OrderIds(a) <==> id in OrderIds(b) {
      if id in OrderIds(a) {
        var i :| 0 <= i < |a| && a[i].orderId == Some(id);
        var j := Locate(a, b, i);
      }
      if id in OrderIds(b) {
        var j :| 0 <= j < |b| && b[j].orderId == Some(id);
        var i := Locate(b, a, j);
      }
    }
  }

  lemma SalesByCategoryPermutation(a: seq<Sale>, b: seq<Sale>)
    requires multiset(a) == multiset(b)
    ensures SalesByCategory(a) == SalesByCategory(b)
  {
    var ma, mb := SalesByCategory(a), SalesByCategory(b);
    SalesByCategoryKeys(a);
    SalesByCategoryKeys(b);
    forall c ensures c in ma <==> c in mb {
      if c in ma {
        var i :| 0 <= i < |a| && a[i].category == Some(c);
        var j := Locate(a, b, i);
      }
      if c in mb {
        var j :| 0 <= j < |b| && b[j].category == Some(c);
        var i := Locate(b, a, j);
      }
    }
    forall c | c in ma ensures ma[c] == mb[c] {
      SalesByCategoryValue(a, c);
      SalesByCategoryValue(b, c);
      FilterPermutation(a, b, InCategory(c));
      TotalAmountPermutation(Filter(a, InCategory(c)), Filter(b, InCategory(c)));
    }
  }

  lemma LatestDatePermutation(a: seq<Sale>, b: seq<Sale>)
    requires multiset(a) == multiset(b)
    ensures LatestDate(a) == LatestDate(b)
  {
    LatestDateIsMax(a);
    LatestDateIsMax(b);
    var da, db := LatestDate(a), LatestDate(b);
    if da.Some? {
      var i :| 0 <= i < |a| && a[i].date == da;
      var j := Locate(a, b, i);
    }
    if db.Some? {
      var j :| 0 <= j < |b| && b[j].date == db;
      var i := Locate(b, a, j);
    }
  }

  lemma RecentSalesAt(t: seq<Sale>, p: Sale -> bool)
    requires LatestDate(t).Some? && p == DatedAfter(LatestDate(t).value - RecentWindowDays)
    ensures RecentSales(t) == TotalAmount(Filter(t, p))
  {
  }

  lemma RecentSalesPermutation(a: seq<Sale>, b: seq<Sale>)
    requires multiset(a) == multiset(b)
    ensures RecentSales(a) == RecentSales(b)
  {
    LatestDatePermutation(a, b);
    if LatestDate(a).Some? {
      var p := DatedAfter(LatestDate(a).value - RecentWindowDays);
      RecentSalesAt(a, p);
      RecentSalesAt(b, p);
      FilterPermutation(a, b, p);
      TotalAmountPermutation(Filter(a, p), Filter(b, p));
    }
  }

  /** Any reordering of the rows yields the same KPI record, or the same error. */
  lemma CalculateKpisOrderIndependent(a: seq<Sale>, b: seq<Sale>, hasRegionColumn: bool, generatedAt: string)
    requires multiset(a) == multiset(b)
    ensures CalculateKpis(a, hasRegionColumn, generatedAt) == CalculateKpis(b, hasRegionColumn, generatedAt)
  {
    TotalAmountPermutation(a, b);
    OrderIdsPermutation(a, b);
    TopRegionPermutation(a, b, hasRegionColumn);
    SalesByCategoryPermutation(a, b);
    RecentSalesPermutation(a, b);
  }
}
