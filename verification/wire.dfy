/** What the chat's query looks like on the server. `runQuery` posts
    `JSON.stringify(payload)`: a missing locator is written as `null`, and
    years that were never chosen are dropped from the JSON altogether. The
    route's reply becomes what the chat reports: anything but a success is
    a request that throws. */
module Wire {
  import opened Wrappers
  import opened JsText
  import opened Config
  import opened DataService
  import QR = QueryRoute
  import CF = ChatFlow
  import ChatText

  /** A locator of the payload as the server reads it back. */
  function LocatorField(v: Option<string>): (j: QR.JsValue)
    ensures v.None? <==> j == QR.JsNull
    ensures v.Some? <==> j.JsString?
    ensures v.Some? ==> j.s == v.value
  {
    if v.Some? then QR.JsString(v.value) else QR.JsNull
  }

  /** The years of the payload as the server reads them back. */
  function YearsFieldOf(years: Option<seq<int>>): (f: QR.YearsField)
    ensures years.None? <==> f.YearsUndefined?
    ensures years.Some? ==> f.YearsArray? && |f.entries| == |years.value|
    ensures years.Some? ==> forall i :: 0 <= i < |years.value| ==> f.entries[i] == QR.Integral(years.value[i])
  {
    if years.None? then QR.YearsUndefined
    else QR.YearsArray(seq(|years.value|, i requires 0 <= i < |years.value| => QR.Integral(years.value[i])))
  }

  /** The body the server receives for a chat query. */
  function BodyOf(p: CF.QueryPayload): QR.QueryBody {
    QR.QueryBody(LocatorField(p.state), LocatorField(p.district), LocatorField(p.block), YearsFieldOf(p.years))
  }

  /** How the chat reads a reply: `fetchJSON` throws unless the status is
      in the 200s. */
  function AnswerOf(response: QR.Response): (a: CF.QueryAnswer)
    ensures a.Answered? <==> 200 <= response.status < 300 && response.payload.QueryPayload?
    ensures a.Answered? ==> a.years == response.payload.years
  {
    if 200 <= response.status < 300 && response.payload.QueryPayload? then
      var s := response.payload.locationSummary;
      CF.Answered(s.state, s.district, s.block, response.payload.years)
    else CF.NoAnswer
  }

  /** The chat's view of the query route over a given database. */
  function Served(db: Database, ops: FloatOps): CF.QueryPayload -> CF.QueryAnswer {
    p => AnswerOf(QR.HandlePost(BodyOf(p), db, ops))
  }

  /** A name as the chat's lists hold it and the server keeps it: not blank
      and without surrounding whitespace. */
  predicate TrimmedName(v: Option<string>) {
    v.Some? ==> !AllWhitespace(v.value) && Trim(v.value) == v.value
  }

  /** The server keeps every locator the chat sends when the names carry
      no surrounding whitespace. */
  lemma LocatorsKept(v: Option<string>)
    requires TrimmedName(v)
    ensures QR.NormalizeString(LocatorField(v)) == v
  {
  }

  lemma {:induction false} IntegralYearsFinite(entries: seq<QR.Coerced>)
    requires forall i :: 0 <= i < |entries| ==> entries[i].Integral?
    ensures QR.FiniteYears(entries) == entries
  {
    if entries != [] {
      IntegralYearsFinite(entries[1..]);
    }
  }

  /** Years the chat can send pass the server's checks, and the server
      aggregates exactly them, or the latest year for "latest" (an empty
      list). */
  lemma ChatYearsAccepted(years: seq<int>)
    requires forall y :: y in years ==> y in YearTableMap
    ensures QR.NormalizeYears(YearsFieldOf(Some(years))).Ok?
    ensures QR.YearNumbers(QR.NormalizeYears(YearsFieldOf(Some(years))).value)
            == Some(if years == [] then [LatestYear] else years)
  {
    var f := YearsFieldOf(Some(years));
    IntegralYearsFinite(f.entries);
    LatestYearIsLargestKey();
    var ys := if years == [] then [QR.Integral(LatestYear)] else f.entries;
    assert forall j :: 0 <= j < |ys| ==> QR.Supported(ys[j]);
    var ns := QR.YearNumbers(Some(ys)).value;
    assert ns == if years == [] then [LatestYear] else years;
  }

  /** The years field of any chat query passes the server's checks. */
  lemma ChatYearsFieldAccepted(years: Option<seq<int>>)
    requires years.Some? ==> forall y :: y in years.value ==> y in YearTableMap
    ensures QR.NormalizeYears(YearsFieldOf(years)).Ok?
  {
    if years.Some? {
      ChatYearsAccepted(years.value);
    }
  }

  /** Whatever years a message asks for are accepted by the server. */
  lemma ParsedYearsAccepted(text: string)
    requires ChatText.ParseYears(text).Some?
    ensures QR.NormalizeYears(YearsFieldOf(ChatText.ParseYears(text))).Ok?
  {
    ChatYearsAccepted(ChatText.ParseYears(text).value);
  }

  /** A body with a usable state and acceptable years is answered or
      fails internally; it is never refused. */
  lemma BodyWithStateNotRefused(body: QR.QueryBody, db: Database, ops: FloatOps)
    requires QR.NormalizeString(body.state).Some? && QR.NormalizeYears(body.years).Ok?
    ensures QR.HandlePost(body, db, ops).status in {200, 500}
  {
    var years := QR.NormalizeYears(body.years);
    var state := QR.NormalizeString(body.state);
    var district := QR.NormalizeString(body.district);
    var block := QR.NormalizeString(body.block);
    assert QR.HandlePost(body, db, ops) == QR.Respond(state, district, block, years, db, ops);
    if Aggregate(state, district, block, QR.YearNumbers(years.value), db, ops).Ok? {
      assert QR.Respond(state, district, block, years, db, ops).status == 200;
    } else {
      assert QR.Respond(state, district, block, years, db, ops).status == 500;
    }
  }

  /** A chat query naming a state that is not blank is never refused as
      a bad request: the server either answers or fails internally. */
  lemma ChatQueryNotRefused(p: CF.QueryPayload, db: Database, ops: FloatOps)
    requires p.state.Some? && !AllWhitespace(p.state.value)
    requires p.years.Some? ==> forall y :: y in p.years.value ==> y in YearTableMap
    ensures QR.HandlePost(BodyOf(p), db, ops).status in {200, 500}
  {
    ChatYearsFieldAccepted(p.years);
    BodyWithStateNotRefused(BodyOf(p), db, ops);
  }

  /** An answered query reports one summary per aggregated year, in
      order, and echoes the normalised locators. */
  lemma RespondAnswered(state: Option<string>, district: Option<string>, block: Option<string>,
                        years: Result<Option<seq<QR.Coerced>>, string>, db: Database, ops: FloatOps)
    requires years.Ok?
    ensures var a := AnswerOf(QR.Respond(state, district, block, years, db, ops));
      a.Answered? ==>
        var sel := SelectedYears(QR.YearNumbers(years.value));
        && a.state == state && a.district == district && a.block == block
        && |a.years| == |sel|
        && forall i :: 0 <= i < |sel| ==> a.years[i].year == sel[i]
  {
    var ys := QR.YearNumbers(years.value);
    if Aggregate(state, district, block, ys, db, ops).Ok? {
      AggregateOnePerYear(state, district, block, ys, db, ops);
    }
  }

  /** The years the server aggregates for a chat query: those sent, or the
      latest year for an empty list. */
  lemma ChatYearsSelected(years: Option<seq<int>>)
    requires years.Some? ==> forall y :: y in years.value ==> y in YearTableMap
    ensures QR.NormalizeYears(YearsFieldOf(years)).Ok?
    ensures SelectedYears(QR.YearNumbers(QR.NormalizeYears(YearsFieldOf(years)).value)) == SelectedYears(years)
  {
    if years.Some? {
      ChatYearsAccepted(years.value);
    }
  }

  /** An answered chat query echoes the record it sent and reports one
      summary per year asked for, in order, or just the latest year when
      the years were "latest" or never chosen. */
  lemma ChatQueryAnswered(p: CF.QueryPayload, db: Database, ops: FloatOps)
    requires TrimmedName(p.state) && TrimmedName(p.district) && TrimmedName(p.block)
    requires p.years.Some? ==> forall y :: y in p.years.value ==> y in YearTableMap
    ensures var a := Served(db, ops)(p);
      a.Answered? ==>
        var sel := SelectedYears(p.years);
        && a.state == p.state && a.district == p.district && a.block == p.block
        && |a.years| == |sel|
        && forall i :: 0 <= i < |sel| ==> a.years[i].year == sel[i]
  {
    var body := BodyOf(p);
    LocatorsKept(p.state);
    LocatorsKept(p.district);
    LocatorsKept(p.block);
    ChatYearsSelected(p.years);
    RespondAnswered(p.state, p.district, p.block, QR.NormalizeYears(body.years), db, ops);
  }

  /** Asking for the latest year, by saying so or by never choosing, gets
      the 2024 figures alone. */
  lemma LatestMeans2024(p: CF.QueryPayload, db: Database, ops: FloatOps)
    requires TrimmedName(p.state) && TrimmedName(p.district) && TrimmedName(p.block)
    requires p.years.None? || p.years == Some([])
    ensures var a := Served(db, ops)(p);
      a.Answered? ==> |a.years| == 1 && a.years[0].year == 2024
  {
    ChatQueryAnswered(p, db, ops);
    LatestYearIsLargestKey();
  }
}
