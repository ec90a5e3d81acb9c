/** The server's data layer: the latest supported year, categorisation of a
    stage of extraction, parsing of summed columns, the SQL for the distinct
    name lists, and the per-year aggregation. The database pool and the
    floating-point steps are parameters. */
module DataService {
  import opened Wrappers
  import opened JsText
  import opened Config

  /** A JavaScript number. */
  datatype Num = Finite(value: real) | NaN | Infinity(negative: bool)

  /** A column of the first result row: missing (no row, or no such column),
      SQL NULL, or present, carrying the number `Number(value)` yields. */
  datatype RawValue = Undefined | Null | Present(asNumber: Num)

  /** A parameterised SQL statement as handed to the pool. */
  datatype SqlQuery = SqlQuery(sql: string, params: seq<string>)

  /** The first row of a summing query. */
  datatype SumRow = SumRow(annualExtractable: RawValue, totalExtraction: RawValue)

  /** The database pool: the rows of a name-listing query and the first row
      of a summing query; `None` when the query rejects. */
  datatype Database = Database(
    names: SqlQuery -> Option<seq<string>>,
    sums: SqlQuery -> Option<SumRow>)

  /** The floating-point steps of the stage computation, left uninterpreted:
      `(total / annual) * 100`, and `Number(x.toFixed(2))`. */
  datatype FloatOps = FloatOps(stagePercent: (real, real) -> Num, round2: Num -> Num)

  /** One entry of the aggregation result. */
  datatype YearSummary = YearSummary(
    year: int,
    annualExtractable: Option<real>,
    totalExtraction: Option<real>,
    stagePercent: Option<Num>,
    categorization: string)

  /** Why an aggregation throws. */
  datatype AggregateError = UnsupportedYear(year: int, validYears: string) | QueryFailed

  /** `Math.max` of a non-empty list. */
  function MaxOf(s: seq<int>): (m: int)
    requires s != []
    ensures m in s && forall x :: x in s ==> x <= m
  {
    if |s| == 1 then s[0]
    else
      var rest := MaxOf(s[1..]);
      assert s == [s[0]] + s[1..];
      if s[0] >= rest then s[0] else rest
  }

  /** The most recent survey year with a table. */
  const LatestYear: int := MaxOf(YearKeys)

  /** The latest year is the largest key of the year table. */
  lemma LatestYearIsLargestKey()
    ensures LatestYear in YearTableMap
    ensures forall y :: y in YearTableMap ==> y <= LatestYear
    ensures LatestYear == 2024
  {
    Config.YearKeysEnumerateMap();
  }

  /** The index of the first band whose test accepts `v`, as `find` scans. */
  function FirstBand(ts: seq<Threshold>, v: real): (r: Option<nat>)
    ensures r.Some? ==> r.value < |ts| && ts[r.value].test(v)
    ensures r.Some? ==> forall j :: 0 <= j < r.value ==> !ts[j].test(v)
    ensures r.None? ==> forall j :: 0 <= j < |ts| ==> !ts[j].test(v)
  {
    if ts == [] then None
    else if ts[0].test(v) then Some(0)
    else match FirstBand(ts[1..], v)
      case None => None
      case Some(k) => Some(k + 1)
  }

  /** The category of a stage of extraction: "Unknown" for a missing, NaN or
      infinite value and for a value no band accepts; otherwise the name of
      the (only) band that accepts it. */
  function Categorize(stagePercent: Option<Num>): (r: string)
    ensures stagePercent.None? || !stagePercent.value.Finite? ==> r == "Unknown"
    ensures stagePercent.Some? && stagePercent.value.Finite? ==>
      var v := stagePercent.value.value;
      (v < 0.0 ==> r == "Unknown") &&
      forall i :: 0 <= i < |CategoryThresholds| && CategoryThresholds[i].test(v) ==>
        r == CategoryThresholds[i].name
  {
    if stagePercent.None? || !stagePercent.value.Finite? then "Unknown"
    else
      var v := stagePercent.value.value;
      match FirstBand(CategoryThresholds, v)
      case None => "Unknown"
      case Some(k) =>
        assert forall i :: 0 <= i < |CategoryThresholds| && i != k ==> !CategoryThresholds[i].test(v) by {
          forall i | 0 <= i < |CategoryThresholds| && i != k
            ensures !CategoryThresholds[i].test(v)
          {
            if i < k { Config.BandsDisjoint(v, i, k); } else { Config.BandsDisjoint(v, k, i); }
          }
        }
        CategoryThresholds[k].name
  }

  /** The band boundaries: 100 is Critical, 90 Semi-critical, 70 and 0
      Safe. */
  lemma CategorizeBoundaries()
    ensures Categorize(Some(Finite(100.0))) == "Critical"
    ensures Categorize(Some(Finite(90.0))) == "Semi-critical"
    ensures Categorize(Some(Finite(70.0))) == "Safe"
    ensures Categorize(Some(Finite(0.0))) == "Safe"
  {
    assert CategoryThresholds[1].test(100.0);
    assert CategoryThresholds[2].test(90.0);
    assert CategoryThresholds[3].test(70.0);
    assert CategoryThresholds[3].test(0.0);
  }

  /** Anything above 100 is Over-extracted, anything below 0 Unknown. */
  lemma CategorizeOutsideBands(v: real)
    ensures v > 100.0 ==> Categorize(Some(Finite(v))) == "Over-extracted"
    ensures v < 0.0 ==> Categorize(Some(Finite(v))) == "Unknown"
  {
    if v > 100.0 {
      assert CategoryThresholds[0].test(v);
    }
  }


  /** `parseNumber`: null and undefined give null, a conversion that is not
      finite gives null, and a finite number passes through unchanged. */
  function ParseNumber(raw: RawValue): (r: Option<real>)
    ensures r.Some? <==> raw.Present? && raw.asNumber.Finite?
    ensures r.Some? ==> r.value == raw.asNumber.value
  {
    match raw
    case Undefined => None
    case Null => None
    case Present(n) => if n.Finite? then Some(n.value) else None
  }

  /** One branch of the distinct-name union, trimmed as the source trims it. */
  function DistinctBranch(column: string, table: string, whereClause: string): string {
    Trim("SELECT DISTINCT \"" + column + "\" AS value FROM " + table + " " + whereClause)
  }

  const DistinctHead: string := "\n    SELECT DISTINCT value\n    FROM ("
  const DistinctTail: string := ") AS combined\n    WHERE value IS NOT NULL\n    ORDER BY value ASC\n  "

  /** `buildDistinctQuery`: one `SELECT DISTINCT` branch per table, joined by
      `UNION`, wrapped in a query that drops nulls and sorts ascending; the
      parameters are passed through. */
  function BuildDistinctQuery(column: string, tables: seq<string>, whereClause: string, params: seq<string>)
    : (q: SqlQuery)
    ensures q.params == params
    ensures DistinctHead <= q.sql
    ensures |DistinctTail| <= |q.sql| && q.sql[|q.sql| - |DistinctTail|..] == DistinctTail
    ensures forall i :: 0 <= i < |tables| ==> Contains(q.sql, DistinctBranch(column, tables[i], whereClause))
  {
    var branches := seq(|tables|, i requires 0 <= i < |tables| => DistinctBranch(column, tables[i], whereClause));
    var union := Join(branches, " UNION ");
    var sql := DistinctHead + union + DistinctTail;
    forall i | 0 <= i < |tables|
      ensures Contains(sql, DistinctBranch(column, tables[i], whereClause))
    {
      JoinContainsPart(branches, " UNION ", i);
      ContainsWithin(DistinctHead, union, DistinctTail, branches[i]);
    }
    assert sql[|sql| - |DistinctTail|..] == DistinctTail;
    SqlQuery(sql, params)
  }

  /** The query behind the states list: every year table, no filter. */
  function StatesQuery(): (q: SqlQuery)
    ensures q.params == []
    ensures forall t :: t in YearTables ==> Contains(q.sql, DistinctBranch("State", t, ""))
  {
    BuildDistinctQuery("State", YearTables, "", [])
  }

  /** The query behind the districts of a state. */
  function DistrictsQuery(state: string): (q: SqlQuery)
    ensures q.params == [state]
    ensures forall t :: t in YearTables ==>
      Contains(q.sql, DistinctBranch("District", t, "WHERE \"State\" = $1"))
  {
    BuildDistinctQuery("District", YearTables, "WHERE \"State\" = $1", [state])
  }

  /** The query behind the blocks of a district. */
  function BlocksQuery(state: string, district: string): (q: SqlQuery)
    ensures q.params == [state, district]
    ensures forall t :: t in YearTables ==>
      Contains(q.sql, DistinctBranch("Assessment Unit Name", t, "WHERE \"State\" = $1 AND \"District\" = $2"))
  {
    BuildDistinctQuery("Assessment Unit Name", YearTables, "WHERE \"State\" = $1 AND \"District\" = $2", [state, district])
  }

  /** A locator filters when it is a non-empty string (JavaScript truthiness). */
  predicate Truthy(s: Option<string>) {
    s.Some? && s.value != ""
  }

  /** A filter on one column. */
  datatype Locator = Locator(column: string, value: string)

  /** The filters of an aggregation, in the order State, District,
      Assessment Unit Name, one for each locator that is present. */
  function PresentLocators(state: Option<string>, district: Option<string>, block: Option<string>)
    : (r: seq<Locator>)
    ensures |r| == (if Truthy(state) then 1 else 0) + (if Truthy(district) then 1 else 0)
                   + (if Truthy(block) then 1 else 0)
    ensures Truthy(state) ==> r[0] == Locator("State", state.value)
    ensures Truthy(district) ==> r[if Truthy(state) then 1 else 0] == Locator("District", district.value)
    ensures Truthy(block) ==> r[|r| - 1] == Locator("Assessment Unit Name", block.value)
  {
    (if Truthy(state) then [Locator("State", state.value)] else [])
    + (if Truthy(district) then [Locator("District", district.value)] else [])
    + (if Truthy(block) then [Locator("Assessment Unit Name", block.value)] else [])
  }

  /** The condition on `column` against placeholder `$k`. */
  function Condition(column: string, k: nat): string {
    "\"" + column + "\" = $" + NatToDecimal(k)
  }

  /** The k-th condition (counting from one) refers to placeholder `$k`. */
  function Conditions(ls: seq<Locator>): seq<string> {
    seq(|ls|, i requires 0 <= i < |ls| => Condition(ls[i].column, i + 1))
  }

  /** The k-th parameter is the value of the k-th filter. */
  function Params(ls: seq<Locator>): seq<string> {
    seq(|ls|, i requires 0 <= i < |ls| => ls[i].value)
  }

  /** The WHERE clause over some conditions: empty when there are none,
      otherwise "WHERE " followed by the conditions joined with " AND ",
      so that every condition appears in it. */
  function WhereClause(conditions: seq<string>): (r: string)
    ensures r == "" <==> conditions == []
    ensures conditions != [] ==> r == "WHERE " + Join(conditions, " AND ")
    ensures forall k :: 0 <= k < |conditions| ==> Contains(r, conditions[k])
  {
    if conditions == [] then ""
    else
      var r := "WHERE " + Join(conditions, " AND ");
      assert forall k :: 0 <= k < |conditions| ==> Contains(r, conditions[k]) by {
        forall k | 0 <= k < |conditions| ensures Contains(r, conditions[k]) {
          JoinContainsPart(conditions, " AND ", k);
          ContainsWithin("WHERE ", Join(conditions, " AND "), "", conditions[k]);
          assert "WHERE " + Join(conditions, " AND ") + "" == r;
        }
      }
      r
  }

  const SumHead: string :=
    "\n      SELECT\n        SUM(\"Annual Extractable Ground Water Resource (Ham)\") AS annual_extractable,"
    + "\n        SUM(\"Total Ground Water Extraction (Ham)\") AS total_extraction\n      FROM "

  /** The summing query over one table. */
  function SumQuery(table: string, whereClause: string, params: seq<string>): SqlQuery {
    SqlQuery(SumHead + table + "\n      " + whereClause + "\n    ", params)
  }

  /** The summing query reads the given table, carries the given filter and
      passes the given parameters. */
  lemma SumQueryMentions(table: string, whereClause: string, params: seq<string>)
    ensures var q := SumQuery(table, whereClause, params);
      q.params == params && Contains(q.sql, table) && Contains(q.sql, whereClause)
  {
    var sql := SumQuery(table, whereClause, params).sql;
    ContainsSelf(table);
    ContainsWithin(SumHead, table, "\n      " + whereClause + "\n    ", table);
    assert SumHead + table + ("\n      " + whereClause + "\n    ") == sql;
    ContainsSelf(whereClause);
    ContainsWithin(SumHead + table + "\n      ", whereClause, "\n    ", whereClause);
  }

  /** The summing query for a supported year under some filters. */
  function YearQuery(year: int, filter: seq<Locator>): SqlQuery
    requires year in YearTableMap
  {
    SumQuery(YearTableMap[year], WhereClause(Conditions(filter)), Params(filter))
  }

  /** The stage of extraction is computed only for a non-zero annual
      extractable resource and a known total extraction. */
  predicate StageComputable(annual: Option<real>, total: Option<real>) {
    annual.Some? && annual.value != 0.0 && total.Some?
  }

  /** The summary of one year from its summed row. */
  function Summarize(year: int, row: SumRow, ops: FloatOps): (s: YearSummary)
    ensures s.year == year
    ensures s.annualExtractable == ParseNumber(row.annualExtractable)
    ensures s.totalExtraction == ParseNumber(row.totalExtraction)
    ensures s.stagePercent.Some? <==> StageComputable(s.annualExtractable, s.totalExtraction)
    ensures s.stagePercent.None? ==> s.categorization == "Unknown"
    ensures StageComputable(s.annualExtractable, s.totalExtraction) ==>
      var stage := ops.stagePercent(s.totalExtraction.value, s.annualExtractable.value);
      s.stagePercent == Some(ops.round2(stage)) && s.categorization == Categorize(Some(stage))
  {
    var annual := ParseNumber(row.annualExtractable);
    var total := ParseNumber(row.totalExtraction);
    var stage: Option<Num> :=
      if StageComputable(annual, total) then Some(ops.stagePercent(total.value, annual.value)) else None;
    YearSummary(year, annual, total,
                if stage.Some? then Some(ops.round2(stage.value)) else None,
                Categorize(stage))
  }

  /** The years an aggregation covers: the given list, or the latest year
      when the list is missing or empty. */
  function SelectedYears(years: Option<seq<int>>): (r: seq<int>)
    ensures r != []
    ensures years.None? || years.value == [] ==> r == [LatestYear]
    ensures years.Some? && years.value != [] ==> r == years.value
  {
    if years.Some? && |years.value| > 0 then years.value else [LatestYear]
  }

  /** A year the aggregation can answer: it has a table and its query succeeds. */
  predicate YearServed(year: int, filter: seq<Locator>, db: Database) {
    year in YearTableMap && db.sums(YearQuery(year, filter)).Some?
  }

  /** The outcome for one year: an error for a year without a table or a
      failed query, otherwise the year's summary. */
  function YearResult(year: int, filter: seq<Locator>, db: Database, ops: FloatOps)
    : Result<YearSummary, AggregateError>
  {
    if year !in YearTableMap then Err(UnsupportedYear(year, ValidYearsText()))
    else match db.sums(YearQuery(year, filter))
      case None => Err(QueryFailed)
      case Some(row) => Ok(Summarize(year, row, ops))
  }

  /** The result of an aggregation prefixed with summaries already collected. */
  function Prepend(done: seq<YearSummary>, r: Result<seq<YearSummary>, AggregateError>)
    : (p: Result<seq<YearSummary>, AggregateError>)
    ensures done == [] ==> p == r
  {
    match r
    case Ok(rest) =>
      assert [] + rest == rest;
      Ok(done + rest)
    case Err(e) => Err(e)
  }

  /** The aggregation over a list of years, one summary per year in order;
      the first year that has no table or whose query fails stops it. */
  function AggregateYears(years: seq<int>, filter: seq<Locator>, db: Database, ops: FloatOps)
    : Result<seq<YearSummary>, AggregateError>
  {
    if years == [] then Ok([])
    else match YearResult(years[0], filter, db, ops)
      case Err(e) => Err(e)
      case Ok(summary) => Prepend([summary], AggregateYears(years[1..], filter, db, ops))
  }

  /** The aggregation succeeds exactly when every year is answered. */
  lemma {:induction false} AggregateYearsSucceeds(
    years: seq<int>, filter: seq<Locator>, db: Database, ops: FloatOps)
    ensures AggregateYears(years, filter, db, ops).Ok?
            <==> forall i :: 0 <= i < |years| ==> YearServed(years[i], filter, db)
  {
    if years != [] {
      AggregateYearsSucceeds(years[1..], filter, db, ops);
      assert forall i :: 1 <= i < |years| ==> years[i] == years[1..][i - 1];
    }
  }

  /** A successful aggregation holds one summary per year, in order, each
      made from that year's row. */
  lemma {:induction false} AggregateYearsSummaries(
    years: seq<int>, filter: seq<Locator>, db: Database, ops: FloatOps)
    requires AggregateYears(years, filter, db, ops).Ok?
    ensures var rs := AggregateYears(years, filter, db, ops).value;
      && |rs| == |years|
      && forall i :: 0 <= i < |years| ==>
           YearServed(years[i], filter, db) &&
           rs[i] == Summarize(years[i], db.sums(YearQuery(years[i], filter)).value, ops)
  {
    if years != [] {
      AggregateYearsSummaries(years[1..], filter, db, ops);
      var rs := AggregateYears(years, filter, db, ops).value;
      var rest := AggregateYears(years[1..], filter, db, ops).value;
      assert rs == [rs[0]] + rest;
      forall i | 1 <= i < |years|
        ensures YearServed(years[i], filter, db)
        ensures rs[i] == Summarize(years[i], db.sums(YearQuery(years[i], filter)).value, ops)
      {
        assert years[i] == years[1..][i - 1] && rs[i] == rest[i - 1];
      }
    }
  }

  /** `aggregateByYear` as a whole, for pure callers. */
  function Aggregate(state: Option<string>, district: Option<string>, block: Option<string>,
                     years: Option<seq<int>>, db: Database, ops: FloatOps)
    : Result<seq<YearSummary>, AggregateError>
  {
    AggregateYears(SelectedYears(years), PresentLocators(state, district, block), db, ops)
  }

  /** The first year without a table makes the aggregation fail with an error
      naming that year and the valid years, provided every earlier year was
      answered. */
  lemma {:induction false} AggregateStopsAtUnsupportedYear(
    years: seq<int>, filter: seq<Locator>, db: Database, ops: FloatOps, k: nat)
    requires k < |years| && years[k] !in YearTableMap
    requires forall j :: 0 <= j < k ==> YearServed(years[j], filter, db)
    ensures AggregateYears(years, filter, db, ops) == Err(UnsupportedYear(years[k], "2023, 2024"))
  {
    if k > 0 {
      AggregateStopsAtUnsupportedYear(years[1..], filter, db, ops, k - 1);
    }
  }

  /** With every year answered, each summary reports its own year, in the
      order the years were asked for; and a summary without a stage is
      "Unknown". */
  lemma AggregateOnePerYear(state: Option<string>, district: Option<string>, block: Option<string>,
                            years: Option<seq<int>>, db: Database, ops: FloatOps)
    requires Aggregate(state, district, block, years, db, ops).Ok?
    ensures var rs := Aggregate(state, district, block, years, db, ops).value;
      var sel := SelectedYears(years);
      |rs| == |sel| && forall i :: 0 <= i < |sel| ==>
        rs[i].year == sel[i] && (rs[i].stagePercent.None? ==> rs[i].categorization == "Unknown")
  {
    AggregateYearsSummaries(SelectedYears(years), PresentLocators(state, district, block), db, ops);
  }

  /** Without years, or with an empty list, exactly the latest year is
      aggregated. */
  lemma {:induction false} AggregateDefaultsToLatestYear(
    state: Option<string>, district: Option<string>, block: Option<string>,
    years: Option<seq<int>>, db: Database, ops: FloatOps)
    requires years.None? || years.value == []
    ensures var r := Aggregate(state, district, block, years, db, ops);
      r.Ok? ==> |r.value| == 1 && r.value[0].year == 2024
  {
    LatestYearIsLargestKey();
    if Aggregate(state, district, block, years, db, ops).Ok? {
      AggregateYearsSummaries([LatestYear], PresentLocators(state, district, block), db, ops);
    }
  }

  /** Prefixing twice is prefixing with the concatenation. */
  lemma PrependTwice(a: seq<YearSummary>, b: seq<YearSummary>, r: Result<seq<YearSummary>, AggregateError>)
    ensures Prepend(a, Prepend(b, r)) == Prepend(a + b, r)
  {
    if r.Ok? {
      assert a + (b + r.value) == (a + b) + r.value;
    }
  }

  /** The filter building of `aggregateByYear`: each present locator pushes
      its value, then a condition on its column against the placeholder
      numbered by the parameter count so far. */
  method FilterConditions(state: Option<string>, district: Option<string>, block: Option<string>)
    returns (conditions: seq<string>, params: seq<string>)
    ensures conditions == Conditions(PresentLocators(state, district, block))
    ensures params == Params(PresentLocators(state, district, block))
  {
    conditions, params := [], [];
    if Truthy(state) {
      params := params + [state.value];
      conditions := conditions + [Condition("State", |params|)];
    }
    if Truthy(district) {
      params := params + [district.value];
      conditions := conditions + [Condition("District", |params|)];
    }
    if Truthy(block) {
      params := params + [block.value];
      conditions := conditions + [Condition("Assessment Unit Name", |params|)];
    }
  }

  /** The tail of one iteration of `aggregateByYear`: parse both sums, compute
      the stage only when it is computable, and assemble the year's entry. */
  method SummarizeRow(year: int, row: SumRow, ops: FloatOps) returns (summary: YearSummary)
    ensures summary == Summarize(year, row, ops)
  {
    var annualExtractable := ParseNumber(row.annualExtractable);
    var totalExtraction := ParseNumber(row.totalExtraction);

    var stagePercent: Option<Num> := None;
    if annualExtractable.Some? && annualExtractable.value != 0.0 && totalExtraction.Some? {
      stagePercent := Some(ops.stagePercent(totalExtraction.value, annualExtractable.value));
    }

    summary := YearSummary(
      year,
      annualExtractable,
      totalExtraction,
      if stagePercent.Some? then Some(ops.round2(stagePercent.value)) else None,
      Categorize(stagePercent));
  }

  /** The body of the loop of `aggregateByYear` for one year: look up the
      table (throwing on an unsupported year), build the filter, run the
      summing query and summarise its row. */
  method AggregateOneYear(year: int, state: Option<string>, district: Option<string>, block: Option<string>,
                          db: Database, ops: FloatOps)
    returns (outcome: Result<YearSummary, AggregateError>)
    ensures outcome == YearResult(year, PresentLocators(state, district, block), db, ops)
  {
    var tableName := if year in YearTableMap then YearTableMap[year] else "";
    if tableName == "" {
      Config.TableNamesNonEmpty();
      return Err(UnsupportedYear(year, ValidYearsText()));
    }

    var conditions, params := FilterConditions(state, district, block);
    var whereClause := if |conditions| > 0 then "WHERE " + Join(conditions, " AND ") else "";
    var rows := db.sums(SumQuery(tableName, whereClause, params));
    if rows.None? {
      return Err(QueryFailed);
    }
    var summary := SummarizeRow(year, rows.value, ops);
    return Ok(summary);
  }

  /** `aggregateByYear`: for each selected year in turn, look up its table
      (throwing on an unsupported year), build the filter with consecutive
      placeholders, run the summing query and push the year's summary. */
  method AggregateByYear(state: Option<string>, district: Option<string>, block: Option<string>,
                         years: Option<seq<int>>, db: Database, ops: FloatOps)
    returns (r: Result<seq<YearSummary>, AggregateError>)
    ensures r == Aggregate(state, district, block, years, db, ops)
  {
    var selectedYears := if years.Some? && |years.value| > 0 then years.value else [LatestYear];
    ghost var filter := PresentLocators(state, district, block);
    var results: seq<YearSummary> := [];
    assert selectedYears == SelectedYears(years) && selectedYears[0..] == selectedYears;
    assert Aggregate(state, district, block, years, db, ops) == AggregateYears(selectedYears, filter, db, ops);
    for i := 0 to |selectedYears|
      invariant Aggregate(state, district, block, years, db, ops)
                == Prepend(results, AggregateYears(selectedYears[i..], filter, db, ops))
    {
      assert selectedYears[i..][1..] == selectedYears[i + 1..];
      var year := selectedYears[i];
      var outcome := AggregateOneYear(year, state, district, block, db, ops);
      if outcome.Err? {
        return Err(outcome.error);
      }
      var summary := outcome.value;
      PrependTwice(results, [summary], AggregateYears(selectedYears[i + 1..], filter, db, ops));
      results := results + [summary];
    }
    assert selectedYears[|selectedYears|..] == [] && results + [] == results;
    return Ok(results);
  }
}
