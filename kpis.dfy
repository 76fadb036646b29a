/**
 * `calculate_kpis`: the fixed set of summary figures computed from the
 * cleaned sales table, and the seven-key record it returns.
 */
module Kpis {
  import opened Wrappers
  import opened Strings
  import opened Table

  // ---------------------------------------------------------------------
  // total_orders: df['Order ID'].nunique()
  // ---------------------------------------------------------------------

  /** The distinct order identifiers present in the table (NaN is not counted). */
  function OrderIds(t: seq<Sale>): set<string> {
    if t == [] then {}
    else (match t[0].orderId case None => {} case Some(id) => {id}) + OrderIds(t[1..])
  }

  /** An identifier is counted exactly when some row carries it. */
  lemma {:induction false} OrderIdsMembers(t: seq<Sale>)
    ensures forall id :: id in OrderIds(t) <==> exists i :: 0 <= i < |t| && t[i].orderId == Some(id)
  {
    if t != [] {
      OrderIdsMembers(t[1..]);
      forall id ensures id in OrderIds(t) <==> exists i :: 0 <= i < |t| && t[i].orderId == Some(id) {
        if id in OrderIds(t[1..]) {
          var j :| 0 <= j < |t[1..]| && t[1..][j].orderId == Some(id);
          assert t[j + 1].orderId == Some(id);
        }
        if exists i :: 0 <= i < |t| && t[i].orderId == Some(id) {
          var i :| 0 <= i < |t| && t[i].orderId == Some(id);
          if i > 0 {
            assert t[1..][i - 1] == t[i];
          }
        }
      }
    }
  }

  /** An order may span several rows, so there are never more orders than rows. */
  lemma {:induction false} OrderIdsBound(t: seq<Sale>)
    ensures |OrderIds(t)| <= |t|
  {
    if t != [] {
      OrderIdsBound(t[1..]);
    }
  }

  // ---------------------------------------------------------------------
  // average_order_value
  // ---------------------------------------------------------------------

  /** `avg` is the revenue per order, and 0 when there are no orders. */
  predicate IsAverage(avg: real, revenue: real, orders: nat) {
    && (orders == 0 ==> avg == 0.0)
    && (orders > 0 ==> avg * orders as real == revenue)
  }

  /** Revenue per order, 0 when there are no orders: it never divides by zero. */
  function AverageOrderValue(revenue: real, orders: nat): (avg: real)
    ensures IsAverage(avg, revenue, orders)
  {
    if orders > 0 then revenue / orders as real else 0.0
  }

  // ---------------------------------------------------------------------
  // top_region: df['ship-state'].mode()[0]
  // ---------------------------------------------------------------------

  /** How many rows ship to region `v` (its entry in `value_counts()`). */
  function RegionCount(t: seq<Sale>, v: string): nat {
    if t == [] then 0 else (if t[0].region == Some(v) then 1 else 0) + RegionCount(t[1..], v)
  }

  lemma {:induction false} RegionCountPositive(t: seq<Sale>, i: nat)
    requires i < |t| && t[i].region.Some?
    ensures RegionCount(t, t[i].region.value) > 0
  {
    if i > 0 {
      assert t[1..][i - 1] == t[i];
      RegionCountPositive(t[1..], i - 1);
    }
  }

  /** The non-null values of the region column, in row order. */
  function Regions(t: seq<Sale>): seq<string> {
    if t == [] then []
    else (match t[0].region case None => [] case Some(v) => [v]) + Regions(t[1..])
  }

  /** A value is listed exactly when some row ships to it. */
  lemma {:induction false} RegionsMembers(t: seq<Sale>)
    ensures forall v :: v in Regions(t) <==> exists i :: 0 <= i < |t| && t[i].region == Some(v)
  {
    if t != [] {
      RegionsMembers(t[1..]);
      forall v ensures v in Regions(t) <==> exists i :: 0 <= i < |t| && t[i].region == Some(v) {
        if v in Regions(t[1..]) {
          var j :| 0 <= j < |t[1..]| && t[1..][j].region == Some(v);
          assert t[j + 1].region == Some(v);
        }
        if exists i :: 0 <= i < |t| && t[i].region == Some(v) {
          var i :| 0 <= i < |t| && t[i].region == Some(v);
          if i > 0 {
            assert t[1..][i - 1] == t[i];
          }
        }
      }
    }
  }

  /**
   * `v` comes before `w` in the sorted list of modes: it is more frequent, or
   * as frequent and smaller as a string.
   */
  predicate Beats(t: seq<Sale>, v: string, w: string) {
    RegionCount(t, v) > RegionCount(t, w) || (RegionCount(t, v) == RegionCount(t, w) && StrLess(v, w))
  }

  lemma BeatsIrreflexive(t: seq<Sale>, v: string)
    ensures !Beats(t, v, v)
  {
    StrLessIrreflexive(v);
  }

  lemma BeatsTransitive(t: seq<Sale>, u: string, v: string, w: string)
    requires Beats(t, u, v) && Beats(t, v, w)
    ensures Beats(t, u, w)
  {
    if RegionCount(t, u) == RegionCount(t, v) == RegionCount(t, w) {
      StrLessTransitive(u, v, w);
    }
  }

  /** The candidate no other candidate beats: the first entry of `mode()`. */
  function PickMode(t: seq<Sale>, vs: seq<string>): (m: string)
    requires |vs| > 0
    ensures m in vs
    ensures forall k :: 0 <= k < |vs| ==> !Beats(t, vs[k], m)
  {
    if |vs| == 1 then
      BeatsIrreflexive(t, vs[0]);
      vs[0]
    else
      var b := PickMode(t, vs[1..]);
      assert forall k :: 1 <= k < |vs| ==> vs[k] == vs[1..][k - 1];
      if Beats(t, vs[0], b) then
        assert forall k :: 0 <= k < |vs| ==> !Beats(t, vs[k], vs[0]) by {
          forall k | 0 <= k < |vs| ensures !Beats(t, vs[k], vs[0]) {
            BeatsIrreflexive(t, vs[0]);
            if k > 0 && Beats(t, vs[k], vs[0]) {
              BeatsTransitive(t, vs[k], vs[0], b);
            }
          }
        }
        vs[0]
      else
        b
  }

  /**
   * `m` is what `mode()[0]` returns: a region value with the highest count,
   * and the smallest string among the values sharing that count.
   */
  predicate IsTopRegion(t: seq<Sale>, m: string) {
    && RegionCount(t, m) > 0
    && forall i :: 0 <= i < |t| && t[i].region.Some? ==>
         || RegionCount(t, t[i].region.value) < RegionCount(t, m)
         || (RegionCount(t, t[i].region.value) == RegionCount(t, m)
             && (t[i].region.value == m || StrLess(m, t[i].region.value)))
  }

  /** Two top regions are the same value: the tie-break makes the choice deterministic. */
  lemma TopRegionUnique(t: seq<Sale>, a: string, b: string)
    requires IsTopRegion(t, a) && IsTopRegion(t, b)
    ensures a == b
  {
    var i := RegionWitness(t, a);
    var j := RegionWitness(t, b);
    if a != b {
      assert StrLess(b, a) && StrLess(a, b);
      StrLessTransitive(a, b, a);
      StrLessIrreflexive(a);
    }
  }

  /** A region that occurs at all occurs in some row. */
  lemma {:induction false} RegionWitness(t: seq<Sale>, v: string) returns (i: nat)
    requires RegionCount(t, v) > 0
    ensures i < |t| && t[i].region == Some(v)
  {
    if t[0].region == Some(v) {
      i := 0;
    } else {
      var j := RegionWitness(t[1..], v);
      i := j + 1;
    }
  }

  datatype KpiError =
    /** `mode()` of a present but entirely null region column is empty, and `[0]` fails. */
    NoRegionMode

  /** `"Unknown"` when the table has no region column, otherwise the first mode. */
  function TopRegion(t: seq<Sale>, hasRegionColumn: bool): (r: Result<string, KpiError>)
    ensures !hasRegionColumn ==> r == Success("Unknown")
    ensures hasRegionColumn ==> (r.Failure? <==> forall i :: 0 <= i < |t| ==> t[i].region.None?)
    ensures hasRegionColumn && r.Success? ==> IsTopRegion(t, r.value)
  {
    if !hasRegionColumn then Success("Unknown")
    else
      var vs := Regions(t);
      RegionsMembers(t);
      if |vs| == 0 then Failure(NoRegionMode)
      else
        var m := PickMode(t, vs);
        assert IsTopRegion(t, m) by {
          var i0 :| 0 <= i0 < |t| && t[i0].region == Some(m);
          RegionCountPositive(t, i0);
          forall i | 0 <= i < |t| && t[i].region.Some?
            ensures || RegionCount(t, t[i].region.value) < RegionCount(t, m)
                    || (RegionCount(t, t[i].region.value) == RegionCount(t, m)
                        && (t[i].region.value == m || StrLess(m, t[i].region.value)))
          {
            var v := t[i].region.value;
            var kv :| 0 <= kv < |vs| && vs[kv] == v;
            assert !Beats(t, vs[kv], m);
            if v != m {
              StrLessTotal(v, m);
            }
          }
        }
        Success(m)
  }

  // ---------------------------------------------------------------------
  // sales_by_category: df.groupby('Category')['Amount'].sum().to_dict()
  // ---------------------------------------------------------------------

  function InCategory(c: string): Sale -> bool {
    (x: Sale) => x.category == Some(c)
  }

  function HasCategory(): Sale -> bool {
    (x: Sale) => x.category.Some?
  }

  /** Revenue per category; `groupby` leaves out the rows whose category is null. */
  function SalesByCategory(t: seq<Sale>): map<string, real> {
    if t == [] then map[]
    else
      var rest := SalesByCategory(t[1..]);
      match t[0].category
      case None => rest
      case Some(c) => rest[c := (if c in rest then rest[c] else 0.0) + AmountOf(t[0])]
  }

  /** The keys are exactly the categories that occur. */
  lemma {:induction false} SalesByCategoryKeys(t: seq<Sale>)
    ensures forall c :: c in SalesByCategory(t) <==> exists i :: 0 <= i < |t| && t[i].category == Some(c)
  {
    if t != [] {
      SalesByCategoryKeys(t[1..]);
      forall c ensures c in SalesByCategory(t) <==> exists i :: 0 <= i < |t| && t[i].category == Some(c) {
        if c in SalesByCategory(t[1..]) {
          var j :| 0 <= j < |t[1..]| && t[1..][j].category == Some(c);
          assert t[j + 1].category == Some(c);
        }
        if exists i :: 0 <= i < |t| && t[i].category == Some(c) {
          var i :| 0 <= i < |t| && t[i].category == Some(c);
          if i > 0 {
            assert t[1..][i - 1] == t[i];
          }
        }
      }
    }
  }

  /** Each category's entry is the revenue of exactly the rows in that category. */
  lemma {:induction false} SalesByCategoryValue(t: seq<Sale>, c: string)
    requires c in SalesByCategory(t)
    ensures SalesByCategory(t)[c] == TotalAmount(Filter(t, InCategory(c)))
  {
    var rest := SalesByCategory(t[1..]);
    var tail := Filter(t[1..], InCategory(c));
    if c in rest {
      SalesByCategoryValue(t[1..], c);
    } else {
      SalesByCategoryKeys(t[1..]);
      assert forall i :: 0 <= i < |t[1..]| ==> !InCategory(c)(t[1..][i]);
      FilterKeepsNone(t[1..], InCategory(c));
    }
    var head := if InCategory(c)(t[0]) then [t[0]] else [];
    TotalAmountConcat(head, tail);
  }

  /** The sum of a map's values. */
  ghost function MapSum(m: map<string, real>): real
    decreases |m|
  {
    if m == map[] then 0.0
    else
      var k :| k in m;
      m[k] + MapSum(m - {k})
  }

  /** The sum does not depend on which key is taken out first. */
  lemma {:induction false} MapSumRemove(m: map<string, real>, k: string)
    requires k in m
    ensures MapSum(m) == m[k] + MapSum(m - {k})
    decreases |m|
  {
    var k' :| k' in m && MapSum(m) == m[k'] + MapSum(m - {k'});
    if k' != k {
      MapSumRemove(m - {k'}, k);
      MapSumRemove(m - {k}, k');
      assert m - {k'} - {k} == m - {k} - {k'};
    }
  }

  /** Setting one key changes the sum by the difference between the new and the old value. */
  lemma MapSumUpdate(m: map<string, real>, k: string, v: real)
    ensures MapSum(m[k := v]) == MapSum(m) - (if k in m then m[k] else 0.0) + v
  {
    var m' := m[k := v];
    MapSumRemove(m', k);
    assert m' - {k} == m - {k};
    if k in m {
      MapSumRemove(m, k);
    } else {
      assert m - {k} == m;
    }
  }

  /** The category entries add up to the revenue of the rows that have a category. */
  lemma {:induction false} SalesByCategoryPartition(t: seq<Sale>)
    ensures MapSum(SalesByCategory(t)) == TotalAmount(Filter(t, HasCategory()))
  {
    if t != [] {
      var rest := SalesByCategory(t[1..]);
      SalesByCategoryPartition(t[1..]);
      var head := if HasCategory()(t[0]) then [t[0]] else [];
      assert Filter(t, HasCategory()) == head + Filter(t[1..], HasCategory());
      TotalAmountConcat(head, Filter(t[1..], HasCategory()));
      match t[0].category
      case None =>
        assert SalesByCategory(t) == rest;
      case Some(c) =>
        var old0 := if c in rest then rest[c] else 0.0;
        assert SalesByCategory(t) == rest[c := old0 + AmountOf(t[0])];
        MapSumUpdate(rest, c, old0 + AmountOf(t[0]));
    }
  }

  /** With no null category, the category entries add up to the total revenue. */
  lemma SalesByCategoryAddsUp(t: seq<Sale>)
    requires forall i :: 0 <= i < |t| ==> t[i].category.Some?
    ensures MapSum(SalesByCategory(t)) == TotalAmount(t)
  {
    SalesByCategoryPartition(t);
    FilterKeepsAll(t, HasCategory());
  }

  // ---------------------------------------------------------------------
  // recent_sales_30_days
  // ---------------------------------------------------------------------

  /** `pd.Timedelta(days=30)`. */
  const RecentWindowDays: int := 30

  /** `df['Date'].max()`: the latest present date, or NaT (None) when there is none. */
  function LatestDate(t: seq<Sale>): Option<Day> {
    if t == [] then None
    else
      var rest := LatestDate(t[1..]);
      match t[0].date
      case None => rest
      case Some(x) => if rest.Some? && rest.value > x then rest else Some(x)
  }

  /** The latest date is missing only when every date is, and otherwise it is a date of some row and no row is later. */
  lemma {:induction false} LatestDateIsMax(t: seq<Sale>)
    ensures LatestDate(t).None? <==> forall i :: 0 <= i < |t| ==> t[i].date.None?
    ensures LatestDate(t).Some? ==> exists i :: 0 <= i < |t| && t[i].date == LatestDate(t)
    ensures LatestDate(t).Some? ==> forall i :: 0 <= i < |t| && t[i].date.Some? ==> t[i].date.value <= LatestDate(t).value
  {
    if t != [] {
      var rest := LatestDate(t[1..]);
      LatestDateIsMax(t[1..]);
      assert forall i :: 1 <= i < |t| ==> t[i] == t[1..][i - 1];
      if rest.Some? {
        var j :| 0 <= j < |t[1..]| && t[1..][j].date == rest;
        assert t[j + 1].date == rest;
      }
    }
  }

  /** `df['Date'] > start_date`: false for a missing date, and false everywhere when the cutoff is NaT. */
  function DatedAfter(cutoff: Day): Sale -> bool {
    (x: Sale) => x.date.Some? && x.date.value > cutoff
  }

  /** Revenue of the rows dated strictly after (latest date − 30 days). */
  function RecentSales(t: seq<Sale>): real {
    match LatestDate(t)
    case None => 0.0
    case Some(d) => TotalAmount(Filter(t, DatedAfter(d - RecentWindowDays)))
  }

  /** With non-negative amounts the recent figure is a part of the total revenue. */
  lemma RecentSalesBound(t: seq<Sale>)
    requires NonNegativeAmounts(t)
    ensures 0.0 <= RecentSales(t) <= TotalAmount(t)
  {
    TotalAmountNonNegative(t);
    if LatestDate(t).Some? {
      var recent := Filter(t, DatedAfter(LatestDate(t).value - RecentWindowDays));
      TotalAmountFilterBound(t, DatedAfter(LatestDate(t).value - RecentWindowDays));
      assert RecentSales(t) == TotalAmount(recent);
    }
  }

  /** When every row is dated within the last 30 days of the latest date, the recent figure is the whole revenue. */
  lemma RecentSalesAllRecent(t: seq<Sale>)
    requires LatestDate(t).Some?
    requires forall i :: 0 <= i < |t| ==> t[i].date.Some? && t[i].date.value > LatestDate(t).value - RecentWindowDays
    ensures RecentSales(t) == TotalAmount(t)
  {
    FilterKeepsAll(t, DatedAfter(LatestDate(t).value - RecentWindowDays));
  }

  /** With no dated row nothing is recent (the cutoff is NaT and every comparison fails). */
  lemma RecentSalesNoDates(t: seq<Sale>)
    requires forall i :: 0 <= i < |t| ==> t[i].date.None?
    ensures RecentSales(t) == 0.0
  {
    LatestDateIsMax(t);
  }

  // ---------------------------------------------------------------------
  // The KPI record
  // ---------------------------------------------------------------------

  datatype Kpis = Kpis(
    totalRevenue: real,
    totalOrders: nat,
    averageOrderValue: real,
    topRegion: string,
    salesByCategory: map<string, real>,
    recentSales30Days: real,
    generatedAt: string
  )

  /**
   * `calculate_kpis(df)`. `hasRegionColumn` says whether the table has a
   * `ship-state` column; `generatedAt` is the timestamp the caller read from
   * the clock.
   */
  function CalculateKpis(t: seq<Sale>, hasRegionColumn: bool, generatedAt: string): (r: Result<Kpis, KpiError>)
    ensures r.Failure? <==> hasRegionColumn && forall i :: 0 <= i < |t| ==> t[i].region.None?
    ensures r.Success? ==> r.value.totalRevenue == TotalAmount(t)
    ensures r.Success? ==> r.value.totalOrders == |OrderIds(t)| <= |t|
    ensures r.Success? ==> IsAverage(r.value.averageOrderValue, r.value.totalRevenue, r.value.totalOrders)
    ensures r.Success? && !hasRegionColumn ==> r.value.topRegion == "Unknown"
    ensures r.Success? && hasRegionColumn ==> IsTopRegion(t, r.value.topRegion)
    ensures r.Success? ==> forall c :: c in r.value.salesByCategory <==> exists i :: 0 <= i < |t| && t[i].category == Some(c)
    ensures r.Success? ==> forall c :: c in r.value.salesByCategory ==>
      r.value.salesByCategory[c] == TotalAmount(Filter(t, InCategory(c)))
    ensures r.Success? ==> r.value.recentSales30Days == RecentSales(t)
    ensures r.Success? ==> r.value.generatedAt == generatedAt
  {
    var revenue := TotalAmount(t);
    var orders := |OrderIds(t)|;
    OrderIdsBound(t);
    SalesByCategoryKeys(t);
    var avg := AverageOrderValue(revenue, orders);
    var byCategory := SalesByCategory(t);
    assert forall c :: c in byCategory ==> byCategory[c] == TotalAmount(Filter(t, InCategory(c))) by {
      forall c | c in byCategory ensures byCategory[c] == TotalAmount(Filter(t, InCategory(c))) {
        SalesByCategoryValue(t, c);
      }
    }
    match TopRegion(t, hasRegionColumn)
    case Failure(e) => Failure(e)
    case Success(top) =>
      Success(Kpis(revenue, orders, avg, top, byCategory, RecentSales(t), generatedAt))
  }

  // ---------------------------------------------------------------------
  // The returned dictionary
  // ---------------------------------------------------------------------

  /** A value of the returned dictionary, as `json.dump` writes it. */
  datatype Value =
    | Int(i: int)
    | Float(f: real)
    | Str(s: string)
    | FloatMap(entries: map<string, real>)

  /** The dictionary's keys. */
  const KpiKeys: set<string> := {
    "total_revenue", "total_orders", "average_order_value", "top_region",
    "sales_by_category", "recent_sales_30_days", "generated_at"
  }

  /**
   * The dictionary `calculate_kpis` returns. The average is the Python int `0`
   * when there are no orders and a float otherwise.
   */
  function ToRecord(k: Kpis): (d: map<string, Value>)
    ensures d.Keys == KpiKeys
  {
    map[
      "total_revenue" := Float(k.totalRevenue),
      "total_orders" := Int(k.totalOrders),
      "average_order_value" := if k.totalOrders > 0 then Float(k.averageOrderValue) else Int(0),
      "top_region" := Str(k.topRegion),
      "sales_by_category" := FloatMap(k.salesByCategory),
      "recent_sales_30_days" := Float(k.recentSales30Days),
      "generated_at" := Str(k.generatedAt)
    ]
  }

  /** Reads a dictionary of that shape back into a KPI record. */
  function FromRecord(d: map<string, Value>): Option<Kpis> {
    if && KpiKeys <= d.Keys
       && d["total_revenue"].Float?
       && d["total_orders"].Int? && d["total_orders"].i >= 0
       && (d["average_order_value"].Float? || d["average_order_value"].Int?)
       && d["top_region"].Str?
       && d["sales_by_category"].FloatMap?
       && d["recent_sales_30_days"].Float?
       && d["generated_at"].Str?
    then
      var avg := match d["average_order_value"] case Int(i) => i as real case Float(f) => f case _ => 0.0;
      Some(Kpis(d["total_revenue"].f, d["total_orders"].i, avg, d["top_region"].s,
                d["sales_by_category"].entries, d["recent_sales_30_days"].f, d["generated_at"].s))
    else None
  }

  /** The dictionary holds every figure of a record whose average obeys the zero guard. */
  lemma RecordRoundTrip(k: Kpis)
    requires k.totalOrders == 0 ==> k.averageOrderValue == 0.0
    ensures FromRecord(ToRecord(k)) == Some(k)
  {
    var d := ToRecord(k);
    assert KpiKeys <= d.Keys;
  }

  /** Every record `CalculateKpis` produces survives the dictionary unchanged. */
  lemma CalculateKpisRecordRoundTrip(t: seq<Sale>, hasRegionColumn: bool, generatedAt: string)
    requires CalculateKpis(t, hasRegionColumn, generatedAt).Success?
    ensures var k := CalculateKpis(t, hasRegionColumn, generatedAt).value;
      ToRecord(k).Keys == KpiKeys && FromRecord(ToRecord(k)) == Some(k)
  {
    RecordRoundTrip(CalculateKpis(t, hasRegionColumn, generatedAt).value);
  }
}
