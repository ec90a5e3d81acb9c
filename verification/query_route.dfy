/** The `POST /api/query` route: normalises the locators and the years of a
    request body, validates them, runs the aggregation and shapes the reply. */
module QueryRoute {
  import opened Wrappers
  import opened JsText
  import opened Config
  import opened DataService

  /** A body field as far as the handlers tell values apart: only strings
      are locators. An object with a non-null `trim` member is told apart
      because the serverless handler tries to call that member. */
  datatype JsValue = JsUndefined | JsNull | JsString(s: string) | JsObjectWithTrim | JsOther

  /** One entry of `years` after `Number(...)`: an integral number, a finite
      number with a fractional part (carrying JavaScript's rendering of it),
      or NaN / an infinity. */
  datatype Coerced = Integral(n: int) | Fractional(text: string) | NotFinite

  /** The `years` field of a body. */
  datatype YearsField = YearsUndefined | YearsNotArray | YearsArray(entries: seq<Coerced>)

  datatype QueryBody = QueryBody(state: JsValue, district: JsValue, block: JsValue, years: YearsField)

  datatype LocationSummary = LocationSummary(state: Option<string>, district: Option<string>, block: Option<string>)

  /** The JSON payloads the API sends back. */
  datatype Payload =
    | ErrorPayload(error: string)
    | QueryPayload(locationSummary: LocationSummary, years: seq<YearSummary>)
    | NamesPayload(names: seq<string>)
    | EmptyPayload

  datatype Response = Response(status: int, payload: Payload)

  const LocatorRequired := "At least one of state, district, or block must be provided"
  const YearsNotArray := "years must be an array of numbers"
  const InternalError := "Internal server error"

  function UnsupportedYearMessage(yearText: string): (m: string)
    ensures m == "Unsupported year " + yearText + ". Valid years: 2023, 2024"
  {
    "Unsupported year " + yearText + ". Valid years: " + ValidYearsText()
  }

  /** A locator: a string with surrounding whitespace removed, or nothing
      when the field is not a string or is blank. */
  function NormalizeString(v: JsValue): (r: Option<string>)
    ensures r.Some? <==> v.JsString? && !AllWhitespace(v.s)
    ensures r.Some? ==> r.value == Trim(v.s) && r.value != []
  {
    if !v.JsString? then None
    else
      var trimmed := Trim(v.s);
      if |trimmed| > 0 then Some(trimmed) else None
  }

  /** Normalising an already normalised locator changes nothing. */
  lemma NormalizeStringIdempotent(v: JsValue)
    requires NormalizeString(v).Some?
    ensures NormalizeString(JsString(NormalizeString(v).value)) == NormalizeString(v)
  {
    TrimIdempotent(v.s);
  }

  /** The finite entries, in order: `filter(Number.isFinite)`. */
  function FiniteYears(entries: seq<Coerced>): (r: seq<Coerced>)
    ensures |r| <= |entries|
    ensures forall c :: c in r <==> c in entries && !c.NotFinite?
    ensures (forall c :: c in entries ==> !c.NotFinite?) ==> r == entries
  {
    if entries == [] then []
    else if entries[0].NotFinite? then FiniteYears(entries[1..])
    else [entries[0]] + FiniteYears(entries[1..])
  }

  /** Filtering distributes over concatenation, so the finite entries keep
      their order and their repetitions. */
  lemma {:induction false} FiniteYearsAppend(a: seq<Coerced>, b: seq<Coerced>)
    ensures FiniteYears(a + b) == FiniteYears(a) + FiniteYears(b)
  {
    if a == [] {
      assert a + b == b;
    } else {
      assert (a + b)[1..] == a[1..] + b;
      FiniteYearsAppend(a[1..], b);
      if !a[0].NotFinite? {
        assert [a[0]] + FiniteYears(a[1..]) + FiniteYears(b) == [a[0]] + (FiniteYears(a[1..]) + FiniteYears(b));
      }
    }
  }

  /** An entry that names a year with a table. */
  predicate Supported(c: Coerced) {
    c.Integral? && c.n in YearTableMap
  }

  /** JavaScript truthiness of a finite number: everything but zero. */
  predicate TruthyNumber(c: Coerced) {
    !(c.Integral? && c.n == 0)
  }

  /** The position of the first entry without a table. */
  function FirstUnsupported(ys: seq<Coerced>): (r: Option<nat>)
    ensures r.Some? ==> r.value < |ys| && !Supported(ys[r.value])
    ensures r.Some? ==> forall j :: 0 <= j < r.value ==> Supported(ys[j])
    ensures r.None? <==> forall j :: 0 <= j < |ys| ==> Supported(ys[j])
  {
    if ys == [] then None
    else if !Supported(ys[0]) then Some(0)
    else match FirstUnsupported(ys[1..])
      case None => None
      case Some(k) => Some(k + 1)
  }

  /** How an entry is written in an error message; exact for an integral
      entry that `PrintsPlain`. */
  function YearText(c: Coerced): string {
    match c
    case Integral(n) => IntToDecimal(n)
    case Fractional(text) => text
    case NotFinite => "NaN"
  }

  /** The years of a body: missing stays missing, anything but an array is
      refused, an array keeps its finite entries (the latest year when none
      is left), and the first entry without a table is refused unless it is
      zero, which is falsy and slips through. */
  function NormalizeYears(field: YearsField): (r: Result<Option<seq<Coerced>>, string>)
    ensures field.YearsUndefined? ==> r == Ok(None)
    ensures field.YearsNotArray? ==> r == Err(YearsNotArray)
    ensures field.YearsArray? ==> r != Ok(None)
    ensures r.Ok? && r.value.Some? ==>
      var ys := r.value.value;
      && ys != []
      && (forall c :: c in ys ==> !c.NotFinite?)
      && (FiniteYears(field.entries) == [] ==> ys == [Integral(LatestYear)])
      && (FiniteYears(field.entries) != [] ==> ys == FiniteYears(field.entries))
      && (FirstUnsupported(ys).None? || ys[FirstUnsupported(ys).value] == Integral(0))
  {
    match field
    case YearsUndefined => Ok(None)
    case YearsNotArray => Err(YearsNotArray)
    case YearsArray(entries) =>
      var finite := FiniteYears(entries);
      var ys := if finite == [] then [Integral(LatestYear)] else finite;
      match FirstUnsupported(ys)
      case Some(k) =>
        if TruthyNumber(ys[k]) then Err(UnsupportedYearMessage(YearText(ys[k])))
        else Ok(Some(ys))
      case None => Ok(Some(ys))
  }

  /** An array of years is refused exactly when its first entry without a
      table is not zero, and the message names that entry and lists the
      valid years. */
  lemma NormalizeYearsRefuses(entries: seq<Coerced>)
    ensures var finite := FiniteYears(entries);
      var ys := if finite == [] then [Integral(LatestYear)] else finite;
      var k := FirstUnsupported(ys);
      && (NormalizeYears(YearsArray(entries)).Err? <==> k.Some? && ys[k.value] != Integral(0))
      && (NormalizeYears(YearsArray(entries)).Err? ==>
            NormalizeYears(YearsArray(entries)).error
              == "Unsupported year " + YearText(ys[k.value]) + ". Valid years: 2023, 2024")
  {
  }

  /** The number handed to the aggregation for an entry. Fractional
      entries never have a table, like zero; they reach the aggregation
      only behind a zero, where it has already failed. */
  function YearNumber(c: Coerced): int {
    if c.Integral? then c.n else 0
  }

  function YearNumbers(ys: Option<seq<Coerced>>): (r: Option<seq<int>>)
    ensures r.Some? <==> ys.Some?
    ensures r.Some? ==> |r.value| == |ys.value|
    ensures r.Some? ==>
      forall i :: 0 <= i < |ys.value| ==> (r.value[i] in YearTableMap <==> Supported(ys.value[i]))
    ensures r.Some? ==>
      forall i :: 0 <= i < |ys.value| && ys.value[i].Integral? ==> r.value[i] == ys.value[i].n
  {
    match ys
    case None => None
    case Some(s) => Some(seq(|s|, i requires 0 <= i < |s| => YearNumber(s[i])))
  }

  /** The route handler: normalise the body, then answer. */
  function HandlePost(body: QueryBody, db: Database, ops: FloatOps): Response {
    Respond(NormalizeString(body.state), NormalizeString(body.district), NormalizeString(body.block),
            NormalizeYears(body.years), db, ops)
  }

  /** The answer to normalised locators and years. An aggregation that
      throws reaches the application's error handler, which answers 500. */
  function Respond(state: Option<string>, district: Option<string>, block: Option<string>,
                   years: Result<Option<seq<Coerced>>, string>, db: Database, ops: FloatOps): Response
  {
    if state.None? && district.None? && block.None? then
      Response(400, ErrorPayload(LocatorRequired))
    else match years
      case Err(message) => Response(400, ErrorPayload(message))
      case Ok(ys) =>
        match Aggregate(state, district, block, YearNumbers(ys), db, ops)
        case Err(_) => Response(500, ErrorPayload(InternalError))
        case Ok(data) => Response(200, QueryPayload(LocationSummary(state, district, block), data))
  }

  /** A body without a usable locator is refused before the database is
      touched: the answer is the same whatever the database holds. */
  lemma NoLocatorRefused(body: QueryBody, db: Database, db': Database, ops: FloatOps)
    requires NormalizeString(body.state).None? && NormalizeString(body.district).None?
             && NormalizeString(body.block).None?
    ensures HandlePost(body, db, ops) == Response(400, ErrorPayload(LocatorRequired))
    ensures HandlePost(body, db, ops) == HandlePost(body, db', ops)
  {
  }

  /** Every reply is a success, a refusal of the request, or an internal
      error. */
  lemma HandlePostStatuses(body: QueryBody, db: Database, ops: FloatOps)
    ensures HandlePost(body, db, ops).status in {200, 400, 500}
    ensures HandlePost(body, db, ops).status != 200 ==> HandlePost(body, db, ops).payload.ErrorPayload?
  {
  }

  /** A successful reply echoes the normalised locators and holds one
      summary per requested year, each for a year that has a table; without
      `years`, exactly the latest year is reported. */
  lemma {:induction false} HandlePostSuccess(body: QueryBody, db: Database, ops: FloatOps)
    requires HandlePost(body, db, ops).status == 200
    ensures var p := HandlePost(body, db, ops).payload;
      && p.QueryPayload?
      && p.locationSummary == LocationSummary(NormalizeString(body.state),
           NormalizeString(body.district), NormalizeString(body.block))
      && (forall s :: s in p.years ==> s.year in YearTableMap)
      && (body.years.YearsUndefined? ==> |p.years| == 1 && p.years[0].year == 2024)
      && (body.years.YearsArray? ==> |p.years| == |NormalizeYears(body.years).value.value|)
  {
    var state := NormalizeString(body.state);
    var district := NormalizeString(body.district);
    var block := NormalizeString(body.block);
    var years := YearNumbers(NormalizeYears(body.years).value);
    var filter := PresentLocators(state, district, block);
    var sel := SelectedYears(years);
    AggregateYearsSummaries(sel, filter, db, ops);
    var rs := AggregateYears(sel, filter, db, ops).value;
    forall s | s in rs ensures s.year in YearTableMap {
      var i :| 0 <= i < |rs| && rs[i] == s;
      assert YearServed(sel[i], filter, db);
    }
    if body.years.YearsUndefined? {
      AggregateDefaultsToLatestYear(state, district, block, years, db, ops);
    }
  }

  /** Some locator of the body is usable. */
  predicate HasLocator(body: QueryBody) {
    NormalizeString(body.state).Some? || NormalizeString(body.district).Some?
    || NormalizeString(body.block).Some?
  }

  /** With a locator, refused years are answered with 400 and the
      refusal's message. */
  lemma RespondRefusesYears(state: Option<string>, district: Option<string>, block: Option<string>,
                            message: string, db: Database, ops: FloatOps)
    requires state.Some? || district.Some? || block.Some?
    ensures Respond(state, district, block, Err(message), db, ops) == Response(400, ErrorPayload(message))
  {
  }

  /** With a locator and accepted years, a failed aggregation is answered
      with 500. */
  lemma RespondAggregationFails(state: Option<string>, district: Option<string>, block: Option<string>,
                                years: Option<seq<Coerced>>, db: Database, ops: FloatOps)
    requires state.Some? || district.Some? || block.Some?
    requires Aggregate(state, district, block, YearNumbers(years), db, ops).Err?
    ensures Respond(state, district, block, Ok(years), db, ops) == Response(500, ErrorPayload(InternalError))
  {
  }

  /** The year zero passes validation. */
  lemma ZeroYearAccepted()
    ensures NormalizeYears(YearsArray([Integral(0)])) == Ok(Some([Integral(0)]))
  {
    assert FiniteYears([Integral(0)]) == [Integral(0)] by {
      assert [Integral(0)][1..] == [];
    }
    assert FirstUnsupported([Integral(0)]) == Some(0);
  }

  /** Aggregating the year zero fails: it has no table. */
  lemma ZeroYearFailsAggregation(state: Option<string>, district: Option<string>, block: Option<string>,
                                 db: Database, ops: FloatOps)
    ensures Aggregate(state, district, block, YearNumbers(Some([Integral(0)])), db, ops).Err?
  {
    var zero := YearNumbers(Some([Integral(0)])).value;
    assert |zero| == 1 && zero[0] == YearNumber(Integral(0));
    assert zero == [0];
    AggregateStopsAtUnsupportedYear([0], PresentLocators(state, district, block), db, ops, 0);
  }

  /** A zero year passes validation (zero is falsy) and then makes the
      aggregation fail, so the caller gets an internal error instead of the
      400 that names the unsupported year. */
  lemma ZeroYearSlipsThrough(body: QueryBody, db: Database, ops: FloatOps)
    requires HasLocator(body) && body.years == YearsArray([Integral(0)])
    ensures NormalizeYears(body.years) == Ok(Some([Integral(0)]))
    ensures HandlePost(body, db, ops) == Response(500, ErrorPayload(InternalError))
  {
    ZeroYearAccepted();
    var state, district, block :=
      NormalizeString(body.state), NormalizeString(body.district), NormalizeString(body.block);
    ZeroYearFailsAggregation(state, district, block, db, ops);
    RespondAggregationFails(state, district, block, Some([Integral(0)]), db, ops);
  }

  /** Any other year without a table is refused with 400 and a message
      naming it and listing the valid years. */
  lemma UnsupportedYearRefused(body: QueryBody, y: int, db: Database, ops: FloatOps)
    requires HasLocator(body) && body.years == YearsArray([Integral(y)])
    requires y != 0 && y !in YearTableMap && PrintsPlain(y)
    ensures HandlePost(body, db, ops)
            == Response(400, ErrorPayload("Unsupported year " + IntToDecimal(y) + ". Valid years: 2023, 2024"))
  {
    SingleUnsupportedYear(y);
    RespondRefusesYears(NormalizeString(body.state), NormalizeString(body.district),
                        NormalizeString(body.block), UnsupportedYearMessage(IntToDecimal(y)), db, ops);
  }

  /** A lone year without a table, other than zero, is refused by name. */
  lemma SingleUnsupportedYear(y: int)
    requires y != 0 && y !in YearTableMap && PrintsPlain(y)
    ensures NormalizeYears(YearsArray([Integral(y)])) == Err(UnsupportedYearMessage(IntToDecimal(y)))
  {
    assert FiniteYears([Integral(y)]) == [Integral(y)] by {
      assert [Integral(y)][1..] == [];
    }
    assert FirstUnsupported([Integral(y)]) == Some(0);
  }

}
