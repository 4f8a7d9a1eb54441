/** The analytics aggregation behind `count_date_by_week` and
    `count_date_by_month`: the listed date columns of the lead table are
    unpivoted into (column, date) events, nulls dropped; each date is
    truncated to its period (the Monday on or before it, or its month);
    events are counted per (period, column); and the counts are pivoted
    back into one row per period, with 0 where a column had no event. */
module Transformation {
  import opened Common
  import opened Dates
  import opened LeadModel
  import opened Normalisation
  import opened DeltaLake

  /** `DATE_COLS`. */
  const DATE_COLS: seq<string> :=
    ["date_appel_booke", "date_appel_propose", "date_prise_contact", "date_relance", "date_reponse_prospect"]

  /** The five columns are distinct and are exactly the schema's date columns. */
  lemma DateColsAreSchemaDates()
    ensures |DATE_COLS| == 5 && forall i, j | 0 <= i < j < 5 :: DATE_COLS[i] != DATE_COLS[j]
    ensures (set c | c in DATE_COLS) == ColumnsOfType(SCHEMA_POLARS, Date32)
  {
    SchemaDateColumns();
  }

  datatype Granularity = Weekly | Monthly

  /** A bucket: the week starting on day number `monday`, or a calendar month. */
  datatype Period = Week(monday: int) | Month(year: int, month: int)

  /** `DATE_TRUNC('week', d)` (weeks start on Monday) or `DATE_TRUNC('month', d)`;
      a month is kept as its year and month, the first day being implied. */
  function PeriodOf(g: Granularity, d: Date): Period {
    match g
    case Weekly => Week(MondayOnOrBefore(DayNumber(d)))
    case Monthly => Month(d.year, d.month)
  }

  /** The name of the period column of an output row. */
  function PeriodKey(g: Granularity): string {
    match g
    case Weekly => "semaine"
    case Monthly => "mois"
  }

  /** The cell of `row` under column `c` is an event (a date, not null). */
  predicate IsEvent(row: Row, c: string) {
    c in row && row[c].Day?
  }

  /** Row `row` has an event in column `c` that falls in period `p`. */
  predicate Hit(row: Row, g: Granularity, p: Period, c: string) {
    IsEvent(row, c) && PeriodOf(g, row[c].date) == p
  }

  /** The number of events of column `c` in period `p`. */
  function Count(rows: seq<Row>, g: Granularity, p: Period, c: string): nat {
    if rows == [] then 0
    else (if Hit(rows[0], g, p, c) then 1 else 0) + Count(rows[1..], g, p, c)
  }

  /** The number of rows whose column `c` is not null. */
  function NonNull(rows: seq<Row>, c: string): nat {
    if rows == [] then 0
    else (if IsEvent(rows[0], c) then 1 else 0) + NonNull(rows[1..], c)
  }

  /** The periods holding at least one event of a listed column. */
  function Periods(rows: seq<Row>, cols: seq<string>, g: Granularity): set<Period> {
    set i, c | 0 <= i < |rows| && c in cols && IsEvent(rows[i], c) :: PeriodOf(g, rows[i][c].date)
  }

  /** A cell of an output row: the period, or a count. */
  datatype OutCell = PeriodCell(period: Period) | CountCell(n: nat)

  /** The output row of period `p`: the period under its key, and one count
      per listed column. */
  function PeriodRow(rows: seq<Row>, cols: seq<string>, g: Granularity, p: Period): map<string, OutCell> {
    (map c | c in cols :: CountCell(Count(rows, g, p, c)))[PeriodKey(g) := PeriodCell(p)]
  }

  /** The pivoted result: for each period, its output row. */
  function Aggregate(rows: seq<Row>, cols: seq<string>, g: Granularity): map<Period, map<string, OutCell>> {
    map p | p in Periods(rows, cols, g) :: PeriodRow(rows, cols, g, p)
  }

  // ---------------------------------------------------------------------
  // The handlers

  /** `scan` lists every row of `content` once: the rows the query reads. */
  predicate IsScan(scan: seq<Row>, content: Content) {
    |scan| == |content|
    && (forall i | 0 <= i < |scan| ::
          "id" in scan[i] && scan[i]["id"].Text? && scan[i]["id"].s in content && content[scan[i]["id"].s] == scan[i])
    && forall i, j | 0 <= i < j < |scan| :: scan[i]["id"] != scan[j]["id"]
  }

  /** A column list the documented aggregation covers: at least one column,
      no column twice, and every one a date column of the table. */
  predicate DateColumns(cols: seq<string>) {
    && |cols| > 0
    && (forall i, j | 0 <= i < j < |cols| :: cols[i] != cols[j])
    && forall c | c in cols :: c in SCHEMA_POLARS && SCHEMA_POLARS[c] == Date32
  }

  /** Running the rendered query over the table at `path`: no table there is
      the not-found error, and a list of date columns gives the documented
      aggregation. The query text is rendered from the column names
      unchecked; what the engine makes of any other list (an empty list, a
      repeated name, a text column, an unknown name, text that changes the
      query) is not modelled and is the caller-supplied outcome `other`. */
  function Query(tables: map<string, Table>, path: string, cols: seq<string>, g: Granularity, scan: seq<Row>,
                 other: Result<map<Period, map<string, OutCell>>>)
    : (r: Result<map<Period, map<string, OutCell>>>)
    requires path in tables ==> IsScan(scan, tables[path].content)
    ensures path !in tables ==> r == Err(TableNotFound)
    ensures path in tables && DateColumns(cols) ==> r == Ok(Aggregate(scan, cols, g))
    ensures path in tables && !DateColumns(cols) ==> r == other
  {
    if path !in tables then Err(TableNotFound)
    else if DateColumns(cols) then Ok(Aggregate(scan, cols, g))
    else other
  }

  /** `count_date_by_week`: the query is rendered from the caller's columns
      and path, with no check of the columns. */
  function CountDateByWeek(tables: map<string, Table>, dateCols: seq<string>, deltaTablePath: string, scan: seq<Row>,
                           other: Result<map<Period, map<string, OutCell>>>)
    : (r: Result<map<Period, map<string, OutCell>>>)
    requires deltaTablePath in tables ==> IsScan(scan, tables[deltaTablePath].content)
    ensures deltaTablePath !in tables ==> r == Err(TableNotFound)
    ensures deltaTablePath in tables && DateColumns(dateCols) ==> r == Ok(Aggregate(scan, dateCols, Weekly))
    ensures deltaTablePath in tables && !DateColumns(dateCols) ==> r == other
  {
    Query(tables, deltaTablePath, dateCols, Weekly, scan, other)
  }

  /** `count_date_by_month`: the query is rendered with `DATE_COLS`, whatever
      columns the caller passed. */
  function CountDateByMonth(tables: map<string, Table>, dateCols: seq<string>, deltaTablePath: string, scan: seq<Row>)
    : (r: Result<map<Period, map<string, OutCell>>>)
    requires deltaTablePath in tables ==> IsScan(scan, tables[deltaTablePath].content)
    ensures r.Err? <==> deltaTablePath !in tables
    ensures r.Err? ==> r.error == TableNotFound
    ensures r.Ok? ==> r.value == Aggregate(scan, DATE_COLS, Monthly)
  {
    DateColsAreSchemaDates();
    assert DateColumns(DATE_COLS);
    // `DATE_COLS` are date columns, so the open outcome is never taken
    Query(tables, deltaTablePath, DATE_COLS, Monthly, scan, Err(QueryExecutionError))
  }

  // ---------------------------------------------------------------------
  // Properties of the handlers

  /** The weekly handler aggregates exactly the columns it is given. */
  lemma WeeklyUsesCallerColumns(tables: map<string, Table>, dateCols: seq<string>, path: string, scan: seq<Row>,
                                other: Result<map<Period, map<string, OutCell>>>)
    requires path in tables && IsScan(scan, tables[path].content)
    requires DateColumns(dateCols)
    ensures CountDateByWeek(tables, dateCols, path, scan, other) == Ok(Aggregate(scan, dateCols, Weekly))
  {
  }

  /** An empty column list, or one naming a column twice, is rendered into
      a query the documented aggregation does not cover: its result is the
      open outcome. */
  lemma WeeklyEmptyOrRepeatedIsOpen(tables: map<string, Table>, dateCols: seq<string>, path: string, scan: seq<Row>,
                                    other: Result<map<Period, map<string, OutCell>>>)
    requires path in tables && IsScan(scan, tables[path].content)
    requires dateCols == [] || exists i, j | 0 <= i < j < |dateCols| :: dateCols[i] == dateCols[j]
    ensures CountDateByWeek(tables, dateCols, path, scan, other) == other
  {
  }

  /** The monthly handler's result does not depend on `date_cols`, and is
      never the query error once a table is there. */
  lemma MonthlyIgnoresDateCols(tables: map<string, Table>, a: seq<string>, b: seq<string>, path: string, scan: seq<Row>)
    requires path in tables ==> IsScan(scan, tables[path].content)
    ensures CountDateByMonth(tables, a, path, scan) == CountDateByMonth(tables, b, path, scan)
    ensures path in tables ==> CountDateByMonth(tables, a, path, scan) == Ok(Aggregate(scan, DATE_COLS, Monthly))
  {
    DateColsAreSchemaDates();
    assert forall c | c in DATE_COLS :: c in SCHEMA_POLARS && SCHEMA_POLARS[c] == Date32;
  }

  // ---------------------------------------------------------------------
  // Properties of the aggregation

  /** Each output row has the period key and one count per listed column,
      and there is a row exactly for each period holding some event. */
  lemma OutputRowShape(rows: seq<Row>, cols: seq<string>, g: Granularity, p: Period)
    requires PeriodKey(g) !in cols
    ensures p in Aggregate(rows, cols, g) <==>
      exists i, c | 0 <= i < |rows| && c in cols :: Hit(rows[i], g, p, c)
    ensures p in Aggregate(rows, cols, g) ==>
      var out := Aggregate(rows, cols, g)[p];
      && out.Keys == {PeriodKey(g)} + (set c | c in cols)
      && out[PeriodKey(g)] == PeriodCell(p)
      && forall c | c in cols :: out[c] == CountCell(Count(rows, g, p, c))
  {
    if exists i, c | 0 <= i < |rows| && c in cols :: Hit(rows[i], g, p, c) {
      var i, c :| 0 <= i < |rows| && c in cols && Hit(rows[i], g, p, c);
      assert PeriodOf(g, rows[i][c].date) in Periods(rows, cols, g);
      PeriodRowShape(rows, cols, g, p);
    }
  }

  lemma PeriodRowShape(rows: seq<Row>, cols: seq<string>, g: Granularity, p: Period)
    requires PeriodKey(g) !in cols
    ensures var out := PeriodRow(rows, cols, g, p);
      && out.Keys == {PeriodKey(g)} + (set c | c in cols)
      && out[PeriodKey(g)] == PeriodCell(p)
      && forall c | c in cols :: out[c] == CountCell(Count(rows, g, p, c))
  {
    var out := PeriodRow(rows, cols, g, p);
    forall k | k in out ensures k in {PeriodKey(g)} + (set c | c in cols) {
    }
    forall k | k in {PeriodKey(g)} + (set c | c in cols) ensures k in out {
    }
  }

  /** A count is 0 exactly when no row has an event of that column in that
      period. */
  lemma {:induction false} CountZeroIff(rows: seq<Row>, g: Granularity, p: Period, c: string)
    ensures Count(rows, g, p, c) == 0 <==> forall i | 0 <= i < |rows| :: !Hit(rows[i], g, p, c)
  {
    if rows != [] {
      CountZeroIff(rows[1..], g, p, c);
      assert forall i | 1 <= i < |rows| :: rows[i] == rows[1..][i - 1];
      if Count(rows, g, p, c) == 0 {
        forall i | 0 <= i < |rows|
          ensures !Hit(rows[i], g, p, c)
        {
          if i > 0 {
            assert rows[i] == rows[1..][i - 1];
          }
        }
      }
    }
  }

  /** One more row adds 1 to the count of the period its date falls in, for
      each column where it has a date, and nothing elsewhere or for a null. */
  lemma {:induction false} CountAppend(rows: seq<Row>, row: Row, g: Granularity, p: Period, c: string)
    ensures Count(rows + [row], g, p, c) == Count(rows, g, p, c) + (if Hit(row, g, p, c) then 1 else 0)
    ensures !IsEvent(row, c) ==> Count(rows + [row], g, p, c) == Count(rows, g, p, c)
  {
    if rows != [] {
      assert (rows + [row])[1..] == rows[1..] + [row];
      CountAppend(rows[1..], row, g, p, c);
    } else {
      assert [row][1..] == [];
    }
  }

  /** The week key is a Monday, and a date is counted under Monday `m`
      exactly when it lies in the seven days `m` to `m + 6`. */
  lemma WeeklyBuckets(row: Row, m: int, c: string)
    requires IsMonday(m)
    ensures Hit(row, Weekly, Week(m), c) <==>
      IsEvent(row, c) && m <= DayNumber(row[c].date) <= m + 6
  {
    if IsEvent(row, c) {
      var n := DayNumber(row[c].date);
      MondayOnOrBeforeBounds(n);
      if m <= n <= m + 6 {
        MondayOnOrBeforeUnique(m, n);
      }
    }
  }

  /** Every weekly output key is a Monday. */
  lemma WeeklyKeysAreMondays(rows: seq<Row>, cols: seq<string>, p: Period)
    requires p in Aggregate(rows, cols, Weekly)
    ensures p.Week? && IsMonday(p.monday)
  {
    var i, c :| 0 <= i < |rows| && c in cols && IsEvent(rows[i], c) && PeriodOf(Weekly, rows[i][c].date) == p;
    MondayOnOrBeforeBounds(DayNumber(rows[i][c].date));
  }

  /** A date is counted under its calendar month. */
  lemma MonthlyBuckets(row: Row, y: int, mo: int, c: string)
    ensures Hit(row, Monthly, Month(y, mo), c) <==>
      IsEvent(row, c) && row[c].date.year == y && row[c].date.month == mo
  {
  }

  /** The counts of a column summed over the periods `ps`. */
  function SumCounts(rows: seq<Row>, g: Granularity, ps: seq<Period>, c: string): nat {
    if ps == [] then 0 else Count(rows, g, ps[0], c) + SumCounts(rows, g, ps[1..], c)
  }

  /** How many of the periods `ps` the row's event falls in. */
  function HitsIn(row: Row, g: Granularity, ps: seq<Period>, c: string): nat {
    if ps == [] then 0 else (if Hit(row, g, ps[0], c) then 1 else 0) + HitsIn(row, g, ps[1..], c)
  }

  lemma {:induction false} SumCountsEmpty(g: Granularity, ps: seq<Period>, c: string)
    ensures SumCounts([], g, ps, c) == 0
  {
    if ps != [] {
      SumCountsEmpty(g, ps[1..], c);
    }
  }

  lemma {:induction false} SumCountsSplit(rows: seq<Row>, g: Granularity, ps: seq<Period>, c: string)
    requires rows != []
    ensures SumCounts(rows, g, ps, c) == HitsIn(rows[0], g, ps, c) + SumCounts(rows[1..], g, ps, c)
  {
    if ps != [] {
      SumCountsSplit(rows, g, ps[1..], c);
    }
  }

  /** Among distinct periods, an event falls in exactly one if that one is
      listed, and in none otherwise. */
  lemma {:induction false} HitsInDistinct(row: Row, g: Granularity, ps: seq<Period>, c: string)
    requires forall i, j | 0 <= i < j < |ps| :: ps[i] != ps[j]
    ensures HitsIn(row, g, ps, c) == if IsEvent(row, c) && PeriodOf(g, row[c].date) in ps then 1 else 0
  {
    if ps != [] {
      assert forall i, j | 0 <= i < j < |ps[1..]| :: ps[1..][i] != ps[1..][j] by {
        forall i, j | 0 <= i < j < |ps[1..]|
          ensures ps[1..][i] != ps[1..][j]
        {
          assert ps[1..][i] == ps[i + 1] && ps[1..][j] == ps[j + 1];
        }
      }
      HitsInDistinct(row, g, ps[1..], c);
      if IsEvent(row, c) && PeriodOf(g, row[c].date) == ps[0] {
        assert forall k | 0 <= k < |ps[1..]| :: ps[1..][k] == ps[k + 1];
        assert PeriodOf(g, row[c].date) !in ps[1..];
      }
      if IsEvent(row, c) && PeriodOf(g, row[c].date) in ps[1..] {
        assert PeriodOf(g, row[c].date) in ps;
      }
      if IsEvent(row, c) && PeriodOf(g, row[c].date) in ps && PeriodOf(g, row[c].date) != ps[0] {
        var k :| 0 <= k < |ps| && ps[k] == PeriodOf(g, row[c].date);
        assert ps[1..][k - 1] == ps[k];
      }
    }
  }

  /** Summed over distinct periods that cover every event of a column, the
      counts of the column are its number of non-null dates. */
  lemma {:induction false} CountsSumToNonNull(rows: seq<Row>, g: Granularity, ps: seq<Period>, c: string)
    requires forall i, j | 0 <= i < j < |ps| :: ps[i] != ps[j]
    requires forall i | 0 <= i < |rows| && IsEvent(rows[i], c) :: PeriodOf(g, rows[i][c].date) in ps
    ensures SumCounts(rows, g, ps, c) == NonNull(rows, c)
  {
    if rows == [] {
      SumCountsEmpty(g, ps, c);
    } else {
      SumCountsSplit(rows, g, ps, c);
      HitsInDistinct(rows[0], g, ps, c);
      assert forall i | 0 <= i < |rows[1..]| :: rows[1..][i] == rows[i + 1];
      CountsSumToNonNull(rows[1..], g, ps, c);
    }
  }

  /** The output preserves the totals: listing its periods once each, the
      counts of any listed column add up to that column's non-null dates. */
  lemma AggregateTotals(rows: seq<Row>, cols: seq<string>, g: Granularity, ps: seq<Period>, c: string)
    requires c in cols
    requires forall i, j | 0 <= i < j < |ps| :: ps[i] != ps[j]
    requires forall p :: p in ps <==> p in Aggregate(rows, cols, g)
    ensures SumCounts(rows, g, ps, c) == NonNull(rows, c)
  {
    forall i | 0 <= i < |rows| && IsEvent(rows[i], c)
      ensures PeriodOf(g, rows[i][c].date) in ps
    {
      assert PeriodOf(g, rows[i][c].date) in Periods(rows, cols, g);
    }
    CountsSumToNonNull(rows, g, ps, c);
  }

  /** One lead contacted on Wednesday 2025-10-01. */
  const EXAMPLE_LEAD: Row := map["id" := Text("a"), "date_prise_contact" := Day(Date(2025, 10, 1))]

  /** Its only event is its contact date, in the week of Monday 2025-09-29. */
  lemma ExampleLeadEvents()
    ensures forall c | c in DATE_COLS :: IsEvent(EXAMPLE_LEAD, c) <==> c == "date_prise_contact"
    ensures PeriodOf(Weekly, EXAMPLE_LEAD["date_prise_contact"].date) == Week(20360)
  {
    assert DayNumber(Date(2025, 10, 1)) == 20362;
  }

  lemma ExampleLeadPeriodAndCounts()
    ensures Periods([EXAMPLE_LEAD], DATE_COLS, Weekly) == {Week(20360)}
    ensures forall c | c in DATE_COLS ::
      Count([EXAMPLE_LEAD], Weekly, Week(20360), c) == if c == "date_prise_contact" then 1 else 0
  {
    ExampleLeadEvents();
    var rows := [EXAMPLE_LEAD];
    assert rows[1..] == [];
    assert "date_prise_contact" in DATE_COLS;
    assert IsEvent(rows[0], "date_prise_contact");
    assert Week(20360) in Periods(rows, DATE_COLS, Weekly);
    forall p | p in Periods(rows, DATE_COLS, Weekly)
      ensures p == Week(20360)
    {
      var i, c :| 0 <= i < 1 && c in DATE_COLS && IsEvent(rows[i], c) && PeriodOf(Weekly, rows[i][c].date) == p;
      assert c == "date_prise_contact";
    }
  }

  /** The documented first output row. */
  const DOCUMENTED_FIRST_ROW: map<string, OutCell> := map["semaine" := PeriodCell(Week(20360)),
    "date_prise_contact" := CountCell(1), "date_reponse_prospect" := CountCell(0),
    "date_appel_booke" := CountCell(0), "date_appel_propose" := CountCell(0), "date_relance" := CountCell(0)]

  lemma ExampleLeadRow()
    ensures PeriodRow([EXAMPLE_LEAD], DATE_COLS, Weekly, Week(20360)) == DOCUMENTED_FIRST_ROW
  {
    ExampleLeadPeriodAndCounts();
    var out := PeriodRow([EXAMPLE_LEAD], DATE_COLS, Weekly, Week(20360));
    PeriodRowShape([EXAMPLE_LEAD], DATE_COLS, Weekly, Week(20360));
    assert out.Keys == DOCUMENTED_FIRST_ROW.Keys;
    forall k | k in out ensures out[k] == DOCUMENTED_FIRST_ROW[k] {
    }
  }

  /** The first row of the documented weekly example: the lead is counted
      once, in the week of Monday 2025-09-29, and every other column is 0. */
  lemma DocumentedFirstWeek()
    ensures Aggregate([EXAMPLE_LEAD], DATE_COLS, Weekly) == map[Week(20360) := DOCUMENTED_FIRST_ROW]
  {
    ExampleLeadPeriodAndCounts();
    ExampleLeadRow();
    var out := Aggregate([EXAMPLE_LEAD], DATE_COLS, Weekly);
    assert out.Keys == {Week(20360)};
    assert out[Week(20360)] == DOCUMENTED_FIRST_ROW;
  }
}
