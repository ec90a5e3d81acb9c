/** The serverless entry point: one handler that answers CORS preflights,
    rewrites the function's path onto the API's routes and serves the three
    catalog lookups and the query. */
module ApiHandler {
  import opened Wrappers
  import opened JsText
  import opened DataService
  import opened QueryRoute

  /** A parsed request URL: its path and its query parameters (the first
      value of each). */
  datatype Url = Url(pathname: string, searchParams: map<string, string>)

  /** The platform's event. `rawUrl` is `None` when it does not parse as a
      URL. */
  datatype Event = Event(httpMethod: string, path: Option<string>, rawUrl: Option<Url>, body: Option<string>)

  /** `JSON.parse` of a body: a syntax error, the literal `null`, or a value
      (any value other than an object reads as one without fields). */
  datatype JsonParse = InvalidJson | ParsedNull | ParsedValue(fields: QueryBody)

  /** What the handler does: answer, or throw before its error handling
      starts. */
  datatype Outcome = Responded(response: Response) | Rejected

  const ApiPrefix := "/api"
  const StatesPath := "/api/meta/states"
  const DistrictsPath := "/api/meta/districts"
  const BlocksPath := "/api/meta/blocks"
  const QueryPath := "/api/query"

  const StateRequired := "Query parameter 'state' is required"
  const StateAndDistrictRequired := "Query parameters 'state' and 'district' are required"
  const BodyRequired := "Request body is required"
  const InvalidJsonBody := "Invalid JSON body"
  const NotFound := "Not found"

  /** The characters a regular-expression `.` does not match. */
  predicate IsLineTerminator(c: char) {
    c == '\n' || c == '\r' || c == '\U{2028}' || c == '\U{2029}'
  }

  /** The length of the first line of `p`. */
  function FirstLineEnd(p: string): (n: nat)
    ensures n <= |p|
    ensures forall j :: 0 <= j < n ==> !IsLineTerminator(p[j])
    ensures n < |p| ==> IsLineTerminator(p[n])
  {
    if p == [] || IsLineTerminator(p[0]) then 0 else 1 + FirstLineEnd(p[1..])
  }

  /** A prefix without line terminators lengthens the first line by its
      length. */
  lemma {:induction false} FirstLineEndOfConcat(a: string, b: string)
    requires forall j :: 0 <= j < |a| ==> !IsLineTerminator(a[j])
    ensures FirstLineEnd(a + b) == |a| + FirstLineEnd(b)
  {
    if a != [] {
      var ab := a + b;
      assert ab[0] == a[0] && !IsLineTerminator(a[0]);
      assert ab[1..] == a[1..] + b;
      FirstLineEndOfConcat(a[1..], b);
      assert FirstLineEnd(ab) == 1 + FirstLineEnd(ab[1..]);
    } else {
      assert a + b == b;
    }
  }

  /** `/api` occurs at `i`, within the first line of `p`: where the
      pattern `^.*\/api` can end its match. */
  predicate ApiAt(p: string, i: nat) {
    i + |ApiPrefix| <= FirstLineEnd(p) && OccursAt(p, ApiPrefix, i)
  }

  /** The last such occurrence below `k`. */
  function LastApiBelow(p: string, k: nat): (r: Option<nat>)
    ensures r.Some? ==> r.value < k && ApiAt(p, r.value)
    ensures r.Some? ==> forall j :: r.value < j < k ==> !ApiAt(p, j)
    ensures r.None? ==> forall j :: 0 <= j < k ==> !ApiAt(p, j)
  {
    if k == 0 then None
    else if ApiAt(p, k - 1) then Some(k - 1)
    else LastApiBelow(p, k - 1)
  }

  /** `path.replace(/^.*\/api/, "/api")`: the greedy match runs from the
      start to the last `/api` of the first line and is replaced by `/api`. */
  function RewritePath(p: string): string {
    match LastApiBelow(p, |p|)
    case None => p
    case Some(i) => ApiPrefix + p[i + |ApiPrefix|..]
  }

  /** Without `/api` on its first line, a path is left alone. */
  lemma RewritePathUnmatched(p: string)
    requires forall j: nat :: !ApiAt(p, j)
    ensures RewritePath(p) == p
  {
  }

  /** With `/api` on its first line, everything up to the end of its last
      occurrence there becomes `/api`. */
  lemma RewritePathMatched(p: string, i: nat)
    requires ApiAt(p, i)
    requires forall j: nat :: i < j ==> !ApiAt(p, j)
    ensures RewritePath(p) == ApiPrefix + p[i + |ApiPrefix|..]
  {
    var r := LastApiBelow(p, |p|);
    assert r.Some? && r.value == i;
  }

  /** Occurrences after a prefix without line terminators are the
      occurrences in the rest, shifted. */
  lemma ApiAtConcat(a: string, b: string, j: nat)
    requires forall k :: 0 <= k < |a| ==> !IsLineTerminator(a[k])
    ensures ApiAt(a + b, |a| + j) <==> ApiAt(b, j)
  {
    FirstLineEndOfConcat(a, b);
    if j + |ApiPrefix| <= |b| {
      assert (a + b)[|a| + j..|a| + j + |ApiPrefix|] == b[j..j + |ApiPrefix|];
    }
  }

  /** No occurrence starts inside a leading `/api`. */
  lemma NoApiInsideApi(b: string, j: nat)
    requires 0 < j < |ApiPrefix|
    ensures !ApiAt(ApiPrefix + b, j)
  {
  }

  /** After a prefix without line terminators, a leading `/api` of the
      rest is the last occurrence on the first line when the remainder has
      none. */
  lemma LastApiAfterPrefix(prefix: string, rest: string)
    requires forall j :: 0 <= j < |prefix| ==> !IsLineTerminator(prefix[j])
    requires forall j: nat :: !ApiAt(rest, j)
    ensures ApiAt(prefix + (ApiPrefix + rest), |prefix|)
    ensures forall j: nat :: |prefix| < j ==> !ApiAt(prefix + (ApiPrefix + rest), j)
  {
    var q := ApiPrefix + rest;
    assert ApiAt(q, 0) by {
      FirstLineEndOfConcat(ApiPrefix, rest);
      assert q[0..|ApiPrefix|] == ApiPrefix;
    }
    ApiAtConcat(prefix, q, 0);
    forall j: nat | |prefix| < j ensures !ApiAt(prefix + q, j) {
      var k := j - |prefix|;
      ApiAtConcat(prefix, q, k);
      if k < |ApiPrefix| {
        NoApiInsideApi(rest, k);
      } else {
        ApiAtConcat(ApiPrefix, rest, k - |ApiPrefix|);
      }
    }
  }

  /** The function's own prefix is stripped: whatever precedes `/api` on
      the first line goes, provided the rest has no further `/api` on that
      line. */
  lemma RewriteStripsPrefix(prefix: string, rest: string)
    requires forall j :: 0 <= j < |prefix| ==> !IsLineTerminator(prefix[j])
    requires forall j: nat :: !ApiAt(rest, j)
    ensures RewritePath(prefix + ApiPrefix + rest) == ApiPrefix + rest
  {
    var p := prefix + (ApiPrefix + rest);
    LastApiAfterPrefix(prefix, rest);
    RewritePathMatched(p, |prefix|);
    assert p[|prefix| + |ApiPrefix|..] == rest;
    assert prefix + ApiPrefix + rest == p;
  }

  /** Rewriting an already rewritten path changes nothing. */
  lemma RewritePathIdempotent(p: string)
    ensures RewritePath(RewritePath(p)) == RewritePath(p)
  {
    match LastApiBelow(p, |p|)
    case None =>
    case Some(i) =>
      var n := i + |ApiPrefix|;
      var head, rest := p[..n], p[n..];
      assert p == head + rest;
      forall j: nat ensures !ApiAt(rest, j) {
        ApiAtConcat(head, rest, j);
      }
      RewriteStripsPrefix([], rest);
      assert [] + ApiPrefix + rest == ApiPrefix + rest;
  }

  /** `url.searchParams.get(name)?.trim()`. A value found neither starts
      nor ends with whitespace, and is blank exactly when the parameter is
      all whitespace. */
  function SearchParam(url: Url, name: string): (r: Option<string>)
    ensures r.Some? <==> name in url.searchParams
    ensures r.Some? ==> r.value == Trim(url.searchParams[name])
    ensures r.Some? ==> r.value == [] || (!IsWhitespace(r.value[0]) && !IsWhitespace(r.value[|r.value| - 1]))
    ensures r.Some? ==> (r.value == "" <==> AllWhitespace(url.searchParams[name]))
  {
    if name in url.searchParams then
      var v := Trim(url.searchParams[name]);
      assert v == [] || (!IsWhitespace(v[0]) && !IsWhitespace(v[|v| - 1]));
      Some(v)
    else None
  }

  /** A catalog lookup's answer: the names, or 500 when the query threw. */
  function NamesResponse(names: Option<seq<string>>): (r: Response)
    ensures names.Some? ==> r == Response(200, NamesPayload(names.value))
    ensures names.None? ==> r == Response(500, ErrorPayload(InternalError))
    ensures r.status == 200 <==> names.Some?
    ensures r.status != 200 ==> r.payload.ErrorPayload?
  {
    match names
    case None => Response(500, ErrorPayload(InternalError))
    case Some(ns) => Response(200, NamesPayload(ns))
  }

  /** `payload.x?.trim?.() || null`: a trimmed non-empty string, or `null`;
      `None` when the value has a non-null `trim` member that is not a function, so
      that calling it throws. */
  function ApiLocator(v: JsValue): (r: Option<Option<string>>)
    ensures r.None? <==> v.JsObjectWithTrim?
  {
    match v
    case JsString(s) => Some(if Trim(s) == "" then None else Some(Trim(s)))
    case JsObjectWithTrim => None
    case _ => Some(None)
  }

  /** Except for an object with a non-null `trim` member, the handler reads a
      locator exactly as the Express route does. */
  lemma ApiLocatorAgreesWithRoute(v: JsValue)
    requires !v.JsObjectWithTrim?
    ensures ApiLocator(v) == Some(NormalizeString(v))
  {
  }

  /** The query branch. A parsed `null` makes reading its fields throw,
      which the handler answers with 500. */
  function Query(body: Option<string>, parse: string -> JsonParse, db: Database, ops: FloatOps)
    : Response
  {
    if body.None? || body.value == "" then Response(400, ErrorPayload(BodyRequired))
    else match parse(body.value)
      case InvalidJson => Response(400, ErrorPayload(InvalidJsonBody))
      case ParsedNull => Response(500, ErrorPayload(InternalError))
      case ParsedValue(fields) =>
        var state, district, block :=
          ApiLocator(fields.state), ApiLocator(fields.district), ApiLocator(fields.block);
        if state.None? || district.None? || block.None? then Response(500, ErrorPayload(InternalError))
        else Respond(state.value, district.value, block.value, NormalizeYears(fields.years), db, ops)
  }

  /** What a request asks for. */
  datatype Endpoint = StatesList | DistrictsList | BlocksList | RunQuery | NoEndpoint

  /** The dispatch on the upper-cased method and the rewritten path. */
  function EndpointOf(verb: string, path: string): Endpoint {
    if verb == "GET" && path == StatesPath then StatesList
    else if verb == "GET" && path == DistrictsPath then DistrictsList
    else if verb == "GET" && path == BlocksPath then BlocksList
    else if verb == "POST" && path == QueryPath then RunQuery
    else NoEndpoint
  }

  /** Each of the four routes reaches its own endpoint, and nothing else
      reaches any. */
  lemma EndpointsOfRoutes(verb: string, path: string)
    ensures EndpointOf("GET", StatesPath) == StatesList
    ensures EndpointOf("GET", DistrictsPath) == DistrictsList
    ensures EndpointOf("GET", BlocksPath) == BlocksList
    ensures EndpointOf("POST", QueryPath) == RunQuery
    ensures EndpointOf(verb, path) == NoEndpoint <==>
      !(verb == "GET" && (path == StatesPath || path == DistrictsPath || path == BlocksPath))
      && !(verb == "POST" && path == QueryPath)
  {
    assert "POST"[0] != "GET"[0];
    assert |DistrictsPath| != |StatesPath| && |DistrictsPath| != |BlocksPath|;
    assert BlocksPath[10] != StatesPath[10];
  }

  /** The answer of an endpoint. */
  function Serve(endpoint: Endpoint, url: Url, body: Option<string>,
                 parse: string -> JsonParse, db: Database, ops: FloatOps): Response
  {
    match endpoint
    case StatesList => NamesResponse(db.names(StatesQuery()))
    case DistrictsList =>
      var state := SearchParam(url, "state");
      if !Truthy(state) then Response(400, ErrorPayload(StateRequired))
      else NamesResponse(db.names(DistrictsQuery(state.value)))
    case BlocksList =>
      var state := SearchParam(url, "state");
      var district := SearchParam(url, "district");
      if !Truthy(state) || !Truthy(district) then Response(400, ErrorPayload(StateAndDistrictRequired))
      else NamesResponse(db.names(BlocksQuery(state.value, district.value)))
    case RunQuery => Query(body, parse, db, ops)
    case NoEndpoint => Response(404, ErrorPayload(NotFound))
  }

  /** The path the handler routes on: the event's path when it is a
      non-empty string, else the URL's, rewritten. */
  function EventPath(event: Event, url: Url): string {
    RewritePath(if event.path.Some? && event.path.value != "" then event.path.value else url.pathname)
  }

  /** The handler. */
  function Handle(event: Event, parse: string -> JsonParse, db: Database, ops: FloatOps): Outcome {
    if event.httpMethod == "OPTIONS" then Responded(Response(200, EmptyPayload))
    else match event.rawUrl
      case None => Rejected
      case Some(url) =>
        Responded(Serve(EndpointOf(ToUpper(event.httpMethod), EventPath(event, url)), url, event.body, parse, db, ops))
  }

  /** A preflight is answered with 200 and an empty body before anything
      else is looked at, even a URL that does not parse. */
  lemma PreflightAnswered(event: Event, parse: string -> JsonParse, db: Database, ops: FloatOps)
    requires event.httpMethod == "OPTIONS"
    ensures Handle(event, parse, db, ops) == Responded(Response(200, EmptyPayload))
  {
  }

  /** Any other request with a URL that does not parse throws. */
  lemma UnparsableUrlRejected(event: Event, parse: string -> JsonParse, db: Database, ops: FloatOps)
    requires event.httpMethod != "OPTIONS" && event.rawUrl.None?
    ensures Handle(event, parse, db, ops) == Rejected
  {
  }

  /** Methods are compared without regard to case, except that only the
      exact spelling `OPTIONS` is a preflight. */
  lemma MethodCaseIgnored(event: Event, verb: string, parse: string -> JsonParse,
                          db: Database, ops: FloatOps)
    requires event.httpMethod != "OPTIONS" && verb != "OPTIONS"
    requires ToUpper(verb) == ToUpper(event.httpMethod)
    ensures Handle(event.(httpMethod := verb), parse, db, ops) == Handle(event, parse, db, ops)
  {
  }

  /** The district list needs a non-blank `state` parameter; with one, it
      is the catalog's answer for the trimmed state. */
  lemma DistrictsNeedState(url: Url, body: Option<string>, parse: string -> JsonParse,
                           db: Database, ops: FloatOps)
    ensures var r := Serve(DistrictsList, url, body, parse, db, ops);
      var state := SearchParam(url, "state");
      && (!Truthy(state) ==> r == Response(400, ErrorPayload(StateRequired)))
      && (Truthy(state) ==> r == NamesResponse(db.names(DistrictsQuery(Trim(url.searchParams["state"])))))
  {
  }

  /** The block list needs non-blank `state` and `district` parameters;
      with both, it is the catalog's answer for the trimmed pair. */
  lemma BlocksNeedStateAndDistrict(url: Url, body: Option<string>, parse: string -> JsonParse,
                                   db: Database, ops: FloatOps)
    ensures var r := Serve(BlocksList, url, body, parse, db, ops);
      var state := SearchParam(url, "state");
      var district := SearchParam(url, "district");
      && (!Truthy(state) || !Truthy(district) ==> r == Response(400, ErrorPayload(StateAndDistrictRequired)))
      && (Truthy(state) && Truthy(district) ==>
            r == NamesResponse(db.names(BlocksQuery(state.value, district.value))))
  {
  }

  /** A query without a body, or with a body that is not JSON, is refused
      with 400; a body of `null` is an internal error. */
  lemma QueryNeedsJsonBody(body: Option<string>, parse: string -> JsonParse, db: Database, ops: FloatOps)
    ensures body.None? || body == Some("") ==>
      Query(body, parse, db, ops) == Response(400, ErrorPayload(BodyRequired))
    ensures body.Some? && body.value != "" && parse(body.value).InvalidJson? ==>
      Query(body, parse, db, ops) == Response(400, ErrorPayload(InvalidJsonBody))
    ensures body.Some? && body.value != "" && parse(body.value).ParsedNull? ==>
      Query(body, parse, db, ops) == Response(500, ErrorPayload(InternalError))
  {
  }

  /** The serverless handler and the Express route give the same answer to
      the same parsed body, unless a locator is an object with a non-null `trim`
      member (an internal error here, an absent locator there). */
  lemma QueryAgreesWithRoute(body: string, fields: QueryBody, parse: string -> JsonParse,
                             db: Database, ops: FloatOps)
    requires body != "" && parse(body) == ParsedValue(fields)
    ensures !fields.state.JsObjectWithTrim? && !fields.district.JsObjectWithTrim?
            && !fields.block.JsObjectWithTrim? ==>
      Query(Some(body), parse, db, ops) == HandlePost(fields, db, ops)
    ensures fields.state.JsObjectWithTrim? || fields.district.JsObjectWithTrim?
            || fields.block.JsObjectWithTrim? ==>
      Query(Some(body), parse, db, ops) == Response(500, ErrorPayload(InternalError))
  {
    if !fields.state.JsObjectWithTrim? && !fields.district.JsObjectWithTrim? && !fields.block.JsObjectWithTrim? {
      ApiLocatorAgreesWithRoute(fields.state);
      ApiLocatorAgreesWithRoute(fields.district);
      ApiLocatorAgreesWithRoute(fields.block);
    }
  }

  /** Anything but the four routes is answered with 404. */
  lemma OtherRoutesNotFound(verb: string, path: string, url: Url, body: Option<string>,
                            parse: string -> JsonParse, db: Database, ops: FloatOps)
    requires !(verb == "GET" && (path == StatesPath || path == DistrictsPath || path == BlocksPath))
    requires !(verb == "POST" && path == QueryPath)
    ensures Serve(EndpointOf(verb, path), url, body, parse, db, ops) == Response(404, ErrorPayload(NotFound))
  {
    EndpointsOfRoutes(verb, path);
  }
}
