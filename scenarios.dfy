/**
 * Worked examples on concrete tables. `TwoOrdersCleaned` and `TwoLinesOneOrder`
 * go through cleaning; the other examples start from a cleaned table.
 */
module Scenarios {
  import opened Wrappers
  import opened Table
  import opened Cleaning
  import opened Kpis

  /** Day numbers since 1970-01-01: 2024-01-01 is day 19723. */
  function ParseIsoDay(s: string): Option<Day> {
    if s == "2024-01-01" then Some(19723)
    else if s == "2024-01-02" then Some(19724)
    else None
  }

  /** Order A1 has two lines; order A2 has no amount. */
  const TwoOrdersRaw: seq<RawRow> := [
    Row(Some("A1"), Some(100.0), Some("2024-01-01"), Some("X"), Some("CA")),
    Row(Some("A1"), Some(50.0), Some("2024-01-01"), Some("Y"), Some("CA")),
    Row(Some("A2"), None, Some("2024-01-02"), Some("X"), Some("NY"))
  ]

  const LineA: Sale := Row(Some("A1"), Some(100.0), Some(19723), Some("X"), Some("CA"))
  const LineB: Sale := Row(Some("A1"), Some(50.0), Some(19723), Some("Y"), Some("CA"))

  /** Cleaning drops the line of A2 and parses the dates of the others. */
  lemma TwoOrdersCleaned()
    ensures LoadAndClean(TwoOrdersRaw, ParseIsoDay) == [LineA, LineB]
  {
    var raw := TwoOrdersRaw;
    assert DropMissingAmount(raw) == raw[..2] by {
      DropMissingAmountConcat(raw[..2], raw[2..]);
      DropMissingAmountKeepsClean(raw[..2]);
      DropMissingAmountSingleton(raw[2]);
      assert raw == raw[..2] + [raw[2]];
    }
  }

  lemma TwoOrdersFigures()
    ensures OrderIds([LineA, LineB]) == {"A1"}
    ensures TopRegion([LineA, LineB], true) == Success("CA")
    ensures SalesByCategory([LineA, LineB]) == map["X" := 100.0, "Y" := 50.0]
    ensures TotalAmount([LineA, LineB]) == 150.0
    ensures RecentSales([LineA, LineB]) == 150.0
  {
    var t := [LineA, LineB];
    assert t[1..] == [LineB] && [LineB][1..] == [];
    assert OrderIds([LineB]) == {"A1"};
    assert RegionCount([LineB], "CA") == 1;
    assert RegionCount(t, "CA") == 2;
    assert Regions([LineB]) == ["CA"];
    assert Regions(t) == ["CA", "CA"];
    assert SalesByCategory([LineB]) == map["Y" := 50.0];
    assert TotalAmount([LineB]) == 50.0;
    assert LatestDate([LineB]) == Some(19723);
    assert LatestDate(t) == Some(19723);
    assert Filter(t, DatedAfter(19723 - RecentWindowDays)) == t;
  }

  /** One order, revenue 150, both categories, CA the top region, everything recent. */
  lemma TwoLinesOneOrder(generatedAt: string)
    ensures CalculateKpis(LoadAndClean(TwoOrdersRaw, ParseIsoDay), true, generatedAt)
      == Success(Kpis(150.0, 1, 150.0, "CA", map["X" := 100.0, "Y" := 50.0], 150.0, generatedAt))
  {
    TwoOrdersCleaned();
    TwoOrdersFigures();
    var t := LoadAndClean(TwoOrdersRaw, ParseIsoDay);
    assert |OrderIds(t)| == 1;
    assert AverageOrderValue(150.0, 1) == 150.0;
  }

  /** An empty table: zero revenue, no orders, average 0, no categories, nothing recent. */
  lemma EmptyTableWithoutRegionColumn(generatedAt: string)
    ensures CalculateKpis([], false, generatedAt) == Success(Kpis(0.0, 0, 0.0, "Unknown", map[], 0.0, generatedAt))
  {
  }

  /** With a region column but no rows, `mode()` is empty and the computation fails. */
  lemma EmptyTableWithRegionColumn(generatedAt: string)
    ensures CalculateKpis([], true, generatedAt) == Failure(NoRegionMode)
  {
  }
}
