# Sales KPI aggregation — a Dafny model

This project models the computational core of a small sales-analytics ETL
job. The job reads a sales export (one row per order line: order ID, amount,
date, category, shipping state) and cleans it. It drops the rows without an
amount and coerces the date column, so that dates which do not parse become
missing. It then computes one KPI record:

- total revenue;
- number of distinct orders;
- average order value, guarded against division by zero;
- top shipping state (the first mode, or `"Unknown"` when the column is absent);
- revenue per category;
- revenue of the last 30 days of the data;
- a generation timestamp.

The model is pure: tables are sequences of rows, and every step is a
recursive function with lemmas about it.

Modules, one file each:

- `Wrappers` (`wrappers.dfy`): `Option` and `Result`.
- `Strings` (`strings.dfy`): Python's `str` ordering. pandas sorts the values
  that `Series.mode()` returns by this order, so it breaks ties between
  equally frequent states.
- `Table` (`table.dfy`): the row type and the two pandas primitives the job is
  built from. `Filter` is a boolean-mask selection. `TotalAmount` is the
  NaN-skipping sum of the amount column.
- `Cleaning` (`cleaning.dfy`): the cleaning part of `load_and_clean_data`.
- `Kpis` (`kpis.dfy`): `calculate_kpis` and the dictionary it returns.
- `OrderIndependence` (`order_independence.dfy`): reordering the rows changes
  no figure of the record, the top region included.
- `Scenarios` (`scenarios.dfy`): worked examples on concrete tables. `TwoOrdersCleaned`
  and `TwoLinesOneOrder` go through cleaning; `TwoOrdersFigures` and the two
  empty-table examples start from an already cleaned table.

Representation choices:

- Amounts are exact `real`s, not floats.
- Every cell may be missing (`None`), as NaN may be in pandas.
  `nunique`, `groupby` and `mode` all skip missing values, and so do the
  corresponding functions here.
- A row is `Row<D>`, generic in its date cell. Raw rows carry
  `Option<string>`; cleaned rows carry `Option<Day>`, where a day is an
  integer day number.
- `pd.to_datetime` is a parameter `parse: string -> Option<Day>`.
- Whether the table has a `ship-state` column is a flag.
- The generation timestamp is a string argument.

Behaviours of the code that are easy to miss:

- With a `ship-state` column present but no non-null value in it (an empty
  table included), `mode()` is empty and `mode()[0]` raises. `CalculateKpis`
  returns `Failure(NoRegionMode)` there. The empty-table result with revenue 0,
  no orders and no categories holds only when the column is absent
  (`Scenarios.EmptyTableWithoutRegionColumn`,
  `Scenarios.EmptyTableWithRegionColumn`).
- Ties for the top region are not implementation-defined in the code:
  `mode()` returns its values sorted, so `[0]` is the smallest of the most
  frequent states. `Kpis.TopRegionUnique` shows the choice is determined.
- `groupby('Category')` leaves out rows whose category is null. So the category
  entries add up to the revenue of the rows that have a category. They equal
  the whole revenue only when no category is null.
- `average_order_value` is the Python integer `0` when there are no orders,
  and a float otherwise. `Kpis.ToRecord` keeps that distinction.

## Model

| member | source | states |
|---|---|---|
| Strings.StrLess | etl_script.py:42 | Python's `<` on strings, the order `mode()` sorts its values by; characterised by StrLessIrreflexive, StrLessTransitive and StrLessTotal |
| Strings.StrLessIrreflexive | etl_script.py:42 | no string sorts before itself |
| Strings.StrLessTransitive | etl_script.py:42 | the string order that sorts the modes is transitive |
| Strings.StrLessTotal | etl_script.py:42 | any two different strings are ordered, so the sorted modes have a single first element |
| Table.Filter | etl_script.py:53 | a mask selection keeps only rows satisfying the mask, never adds rows, and keeps every row that satisfies it |
| Table.FilterConcat | etl_script.py:53 | selection works row by row and keeps the selected rows in their original order |
| Table.FilterKeepsAll | etl_script.py:53 | a mask that holds on every row keeps the table unchanged |
| Table.FilterKeepsNone | etl_script.py:47 | a mask that holds on no row selects nothing |
| Table.TotalAmount | etl_script.py:36 | `df['Amount'].sum()`, skipping missing amounts and 0 for an empty table; characterised by TotalAmountConcat, TotalAmountSplit and TotalAmountPermutation |
| Table.TotalAmountConcat | etl_script.py:36 | the amount sum is additive over concatenation |
| Table.TotalAmountSplit | etl_script.py:53 | a mask and its negation split the amount sum: each row counts exactly once |
| Table.TotalAmountNonNegative | etl_script.py:36 | with non-negative amounts the sum is non-negative |
| Table.TotalAmountFilterBound | etl_script.py:53 | with non-negative amounts, the sum over any selection lies between 0 and the whole sum |
| Cleaning.DropMissingAmount | etl_script.py:25 | no kept row lacks an amount; every kept row is an input row; every input row with an amount is kept |
| Cleaning.DropMissingAmountConcat | etl_script.py:25 | dropping works row by row and keeps the surviving rows in their original order |
| Cleaning.DropMissingAmountSingleton | etl_script.py:25 | a single row is kept exactly when its amount is present |
| Cleaning.DropMissingAmountKeepsClean | etl_script.py:25 | a table whose amounts are all present is returned unchanged |
| Cleaning.DropMissingAmountIdempotent | etl_script.py:25 | cleaning an already-clean table changes nothing |
| Cleaning.DropMissingAmountKeepsTotal | etl_script.py:23-25 | dropping the rows without an amount does not change the revenue |
| Cleaning.CoerceDate | etl_script.py:28 | one cell of the coercion: missing stays missing, text goes through the parser; characterised by CoerceDates |
| Cleaning.CleanRow | etl_script.py:28 | a row with its date coerced and every other cell unchanged; characterised by CoerceDates and LoadAndCleanSingleton |
| Cleaning.CoerceDates | etl_script.py:28 | same number of rows; only the date column changes; each date becomes a parsed day or missing, never an error; a missing cell stays missing |
| Cleaning.CoerceDatesKeepsTotal | etl_script.py:28 | date coercion does not change the revenue |
| Cleaning.LoadAndClean | etl_script.py:23-30 | the cleaned table is no longer than the input; every row has an amount; each row is an input row with only its date coerced; completed by LoadAndCleanKeepsAmountRows, LoadAndCleanConcat and LoadAndCleanSingleton |
| Cleaning.CoerceDatesConcat | etl_script.py:28 | coercion works row by row |
| Cleaning.LoadAndCleanConcat | etl_script.py:23-30 | cleaning works row by row, so the surviving rows keep their input order |
| Cleaning.LoadAndCleanSingleton | etl_script.py:23-30 | one row survives exactly when its amount is present, and then only its date is coerced |
| Cleaning.LoadAndCleanKeepsAmountRows | etl_script.py:25-28 | every input row with an amount appears in the cleaned table with its date coerced |
| Cleaning.LoadAndCleanIdempotent | etl_script.py:25-30 | dropping rows without an amount from the cleaned table changes nothing |
| Cleaning.LoadAndCleanKeepsTotal | etl_script.py:23-30 | cleaning keeps the revenue of the parsed table |
| Kpis.OrderIds | etl_script.py:37 | the distinct order IDs behind `nunique()`; characterised by OrderIdsMembers and OrderIdsBound |
| Kpis.OrderIdsMembers | etl_script.py:37 | an order ID is counted exactly when some row carries it; missing IDs are not counted |
| Kpis.OrderIdsBound | etl_script.py:37 | the number of distinct orders never exceeds the number of rows |
| Kpis.AverageOrderValue | etl_script.py:38 | the average is 0 when there are no orders, otherwise it times the order count gives the revenue; there is no division by zero |
| Kpis.RegionCount | etl_script.py:42 | a state's count, as `mode()` counts it; characterised by RegionCountPositive, RegionWitness and RegionCountIsFilter |
| Kpis.Regions | etl_script.py:42 | the non-null state values `mode()` chooses from; characterised by RegionsMembers |
| Kpis.RegionCountPositive | etl_script.py:42 | a state that occurs in some row has a positive count |
| Kpis.RegionsMembers | etl_script.py:42 | the non-null region values are exactly the states some row ships to |
| Kpis.BeatsTransitive | etl_script.py:42 | the sort order of the modes (count descending, then string) is transitive |
| Kpis.PickMode | etl_script.py:42 | the chosen state is a candidate and no candidate comes before it in the sorted modes |
| Kpis.RegionWitness | etl_script.py:42 | a state with a positive count occurs in some row |
| Kpis.TopRegionUnique | etl_script.py:42 | at most one state is the top region, so the tie-break is deterministic |
| Kpis.TopRegion | etl_script.py:41-44 | "Unknown" without the column; with it, an error exactly when no row has a state, otherwise a most frequent state and the smallest such string |
| Kpis.SalesByCategory | etl_script.py:47 | `groupby('Category')['Amount'].sum()`; characterised by SalesByCategoryKeys, SalesByCategoryValue and SalesByCategoryPartition |
| Kpis.SalesByCategoryKeys | etl_script.py:47 | the keys are exactly the non-null categories that occur |
| Kpis.SalesByCategoryValue | etl_script.py:47 | each entry is the revenue of exactly the rows in that category |
| Kpis.MapSumRemove | etl_script.py:47 | the sum of the category values does not depend on the order the keys are taken in |
| Kpis.MapSumUpdate | etl_script.py:47 | adding to one category changes the sum of the values by that amount |
| Kpis.SalesByCategoryPartition | etl_script.py:36-47 | the category values add up to the revenue of the rows that have a category |
| Kpis.SalesByCategoryAddsUp | etl_script.py:36-47 | with no null category the category values add up to the total revenue |
| Kpis.LatestDate | etl_script.py:51 | `df['Date'].max()`, missing (NaT) when no row is dated; characterised by LatestDateIsMax |
| Kpis.DatedAfter | etl_script.py:52-53 | the mask `df['Date'] > start_date`, false for a missing date; used by RecentSalesAllRecent and RecentSalesBound |
| Kpis.RecentSales | etl_script.py:51-53 | revenue of the rows dated strictly after the latest date minus 30 days, 0 with no dated row; characterised by RecentSalesBound, RecentSalesAllRecent and RecentSalesNoDates |
| Kpis.LatestDateIsMax | etl_script.py:51 | the latest date is missing only when every date is; otherwise it is some row's date and no row is later |
| Kpis.RecentSalesBound | etl_script.py:36-53 | with non-negative amounts the recent figure lies between 0 and the total revenue |
| Kpis.RecentSalesAllRecent | etl_script.py:51-53 | when every row is dated after the cutoff, the recent figure equals the total revenue |
| Kpis.RecentSalesNoDates | etl_script.py:51-53 | with no dated row the recent figure is 0 |
| Kpis.CalculateKpis | etl_script.py:32-65 | an error exactly when the state column exists with no value in it; otherwise revenue is the amount sum, orders the distinct IDs (at most the row count), the average guarded, the top region as above, the category keys and sums exact, the recent figure, and the caller's timestamp |
| Kpis.ToRecord | etl_script.py:55-63 | the dictionary has exactly the seven keys, `recent_sales_30_days` among them |
| Kpis.RecordRoundTrip | etl_script.py:55-63 | a record whose average obeys the zero guard is recovered exactly from its dictionary |
| Kpis.CalculateKpisRecordRoundTrip | etl_script.py:55-65 | every computed record has the seven keys and survives the dictionary unchanged |
| OrderIndependence.FilterCounts | etl_script.py:53 | a selection keeps every copy of a selected row and no copy of any other row |
| OrderIndependence.FilterPermutation | etl_script.py:53 | selecting from two orderings of a table gives two orderings of the same selection |
| OrderIndependence.TotalAmountPermutation | etl_script.py:36 | the amount sum does not depend on the order of the rows |
| OrderIndependence.RegionCountIsFilter | etl_script.py:42 | a state's count is the number of rows selected by that state |
| OrderIndependence.RegionCountPermutation | etl_script.py:42 | each state's count does not depend on the order of the rows |
| OrderIndependence.IsTopRegionPermutation | etl_script.py:42 | a top region of a table is a top region of every reordering of it |
| OrderIndependence.TopRegionPermutation | etl_script.py:41-44 | the top region, or the error, does not depend on the order of the rows |
| OrderIndependence.OrderIdsPermutation | etl_script.py:37 | the set of distinct orders does not depend on the order of the rows |
| OrderIndependence.SalesByCategoryPermutation | etl_script.py:47 | the category map does not depend on the order of the rows |
| OrderIndependence.LatestDatePermutation | etl_script.py:51 | the latest date does not depend on the order of the rows |
| OrderIndependence.RecentSalesPermutation | etl_script.py:51-53 | the recent figure does not depend on the order of the rows |
| OrderIndependence.CalculateKpisOrderIndependent | etl_script.py:32-65 | any reordering of the rows gives the same record, or the same error |
| Scenarios.TwoOrdersCleaned | etl_script.py:23-30 | the line without an amount is dropped and the dates of the others parsed |
| Scenarios.TwoOrdersFigures | etl_script.py:36-53 | on that table: one order, CA on top, categories X 100 and Y 50, revenue 150, recent revenue 150 |
| Scenarios.TwoLinesOneOrder | etl_script.py:23-65 | the whole record for that table |
| Scenarios.EmptyTableWithoutRegionColumn | etl_script.py:32-65 | an empty table without a state column has zero figures and "Unknown" |
| Scenarios.EmptyTableWithRegionColumn | etl_script.py:41-42 | an empty table with a state column is the `mode()[0]` error |

## Left out

- Reading the CSV file and its failure path (`pd.read_csv`): file I/O in a library. The model starts from parsed rows.
- The string rules of `pd.to_datetime`: library behaviour, passed in as the `parse` function.
- Time of day: dates are whole day numbers, so the 30-day window is 30 days.
- `save_local`, `upload_to_blob` and `main`: JSON file writes, blob-storage calls and credential lookup, all I/O.
- The two HTTP read handlers only pass a stored document through. The cloud function answers 500 when its storage address is unset or anything fails. The local file handler answers 200 even with its error envelope.
- `generated_at`: the wall-clock reading is an argument.
- Floating point: amounts and sums are exact reals. So rounding of `float` sums and the division in the average are not modelled.
- Progress messages printed to the console.
- Absent columns: the model assumes the `Order ID`, `Amount`, `Date` and `Category` columns exist. The code raises `KeyError` when one is missing, and it checks only for `ship-state`.
- Key order: Python dictionaries keep insertion order, and `groupby` sorts the categories. Dafny maps have no order, so `ToRecord` and `salesByCategory` say nothing about the order of keys.
