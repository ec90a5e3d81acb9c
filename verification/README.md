# Groundwater chat and query API, in Dafny

This project models the core of a small web application that reports
groundwater extraction figures for Indian states, districts and blocks
("assessment units"). The model has three parts.

- **The chat page** (`public/js/chatMode.js`). A dialogue state machine runs
  through the phases AskState, AskDistrictOrLevel, AskYear, ConfirmAndQuery
  and Done. It keeps a conversation record (state, district, block, years)
  and memoises the catalog lists it fetches: states, the districts of a
  state, and the blocks of a district. Three "assisted" selector inputs and
  an apply button offer a second path to a query.
- **The server** (`src/config.js`, `src/dataService.js`,
  `src/routes/queryRoutes.js`). It holds the survey-year table map and the
  categorisation bands. It builds the SQL for the name lists and for the
  per-year sums, and aggregates one summary per requested year. The
  `POST /api/query` route validates the locators and the years.
- **The serverless entry point** (`netlify/functions/api.js`). It answers
  CORS preflights, rewrites the function path onto `/api`, and serves the
  three catalog lookups and the query.

## Layout

- `wrappers.dfy` (`Wrappers`): `Option` and `Result`.
- `js_text.dfy` (`JsText`): the ECMAScript string operations the code relies
  on. These are `trim` (with ECMAScript's whitespace set), ASCII
  `toLowerCase`/`toUpperCase`, `includes`, `join` and decimal printing of
  integers.
- `config.dfy` (`Config`): the year table map, its enumeration order, and
  the four categorisation bands.
- `data_service.dfy` (`DataService`):
  - the latest year, `categorize`, `parseNumber`, and the SQL of the
    distinct-name and summing queries;
  - the aggregation, written twice: as a function (`Aggregate`) and as the
    source's loop (`AggregateByYear`), which is proved equal to it.
- `query_route.dfy` (`QueryRoute`): locator and years normalisation, and the
  route's answers with their status codes.
- `api_handler.dfy` (`ApiHandler`): path rewriting with the regular
  expression `^.*\/api`, dispatch, parameter checks and the query branch.
- `chat_text.dfy` (`ChatText`): `normalizeValue`, `findExact`,
  `detectMatch`, `parseYears`, `wantsStateLevel` and `formatSuggestions`.
- `chat_flow.dfy` (`ChatFlow`): every handler of the page as a pure step
  from one snapshot of the page's state to the next. A snapshot holds the
  phase, the conversation record, the caches, the selector inputs, the
  selector error line, the chat transcript and the log of requests sent.
- `chat_session.dfy` (`ChatSession`): the page as the script runs it. It is
  a class whose fields are the module-level variables, and its methods
  update them statement by statement. Each method is proved to leave the
  fields exactly as the matching `ChatFlow` step says.
- `chat_facts.dfy` (`ChatFacts`): what the dialogue guarantees.
  - The caches always answer what the API would.
  - Between events the page waits for the user in a phase that has the
    state it needs.
  - Events only append to the transcript and to the request log.
  - The typed and assisted paths send the queries they should.
- `wire.dfy` (`Wire`): the chat's query payload as the server reads it.
  Years the chat sends are always accepted, and the reply echoes the record
  and reports one summary per requested year.

How the external world is represented:

- The API as the chat sees it is a `Remote` value: the lists it returns,
  where `None` is a request that throws, and the query's answer.
- The database pool is a `Database` value.
- The floating-point steps `(total / annual) * 100` and
  `Number(x.toFixed(2))` are the uninterpreted functions of a `FloatOps`
  value.
- `JSON.parse` is a parameter of the serverless handler.

### Behaviour worth knowing

The code behaves as follows, and the model follows it.

- Emptying the state selector empties the district and block inputs. It
  does not clear the recorded state, district or block (chatMode.js:170-177).
- Emptying the district selector clears the recorded district but keeps the
  recorded block (chatMode.js:211-216; `ChatFacts.DistrictClearedKeepsBlock`).
- The typed dialogue keeps a district and block recorded earlier, including
  ones recorded through the selectors, even for a different typed state.
  So the chat can skip asking for a district (`ChatFacts.AssistedDistrictSurvives`),
  and the earlier block travels with the query (`ChatFacts.FullSentenceQueries`).
- The year 0 passes the route's validation because `find` returns the falsy
  value 0. The aggregation then throws, so the answer is 500, not the 400
  that lists the valid years (`QueryRoute.ZeroYearSlipsThrough`).
- The block cache is keyed by `state|district`, so two pairs that spell the
  same key share one entry (`ChatFacts.BlocksCacheConflates`).
- An empty state list is not memoised. It is fetched again on the next
  load (`ChatFacts.LoadStatesOnce`).
- `detectMatch` does not trim the options, and an empty option found
  first reads as no match. `findExact` compares trimmed, lower-cased forms
  and also reads an empty option as no match.
- ConfirmAndQuery and Done are set and left within one handler, so the
  page never waits in them (`ChatFacts.Settled`).

## Model

| member | source | states |
|---|---|---|
| JsText.Trim | src/routes/queryRoutes.js:9 | `trim` returns a contiguous piece of the string with only whitespace before and after it; the piece neither starts nor ends with whitespace, and is empty exactly when the string is all whitespace |
| JsText.TrimStart | src/routes/queryRoutes.js:9 | the leading whitespace is dropped and nothing else |
| JsText.TrimEnd | src/routes/queryRoutes.js:9 | the trailing whitespace is dropped and nothing else |
| JsText.TrimIdempotent | src/routes/queryRoutes.js:9 | trimming twice is trimming once |
| JsText.TrimmedIsFixed | src/routes/queryRoutes.js:9 | a string without whitespace at either end is its own trim |
| JsText.ToLower | public/js/chatMode.js:48 | `toLowerCase` maps each character on its own, preserving the length |
| JsText.ToUpper | netlify/functions/api.js:31 | `toUpperCase` maps each character on its own, preserving the length |
| JsText.LowerCharFacts | public/js/chatMode.js:48 | lower-casing a character is idempotent and preserves whether it is whitespace |
| JsText.ToLowerIdempotent | public/js/chatMode.js:48 | lower-casing twice is lower-casing once |
| JsText.TrimOfLowerOfTrimmed | public/js/chatMode.js:48 | lower-casing a trimmed string leaves it trimmed |
| JsText.ContainsIffOccurs | public/js/chatMode.js:139 | `includes` holds exactly when the pattern occurs at some position |
| JsText.OccursImpliesContains | public/js/chatMode.js:139 | an occurrence at a position makes `includes` true |
| JsText.ContainsHasOccurrence | public/js/chatMode.js:139 | a true `includes` has an occurrence position |
| JsText.ContainsWithin | public/js/chatMode.js:139 | a substring of a part is a substring of the whole |
| JsText.ContainsLonger | public/js/chatMode.js:139 | a pattern longer than the text is never included |
| JsText.ContainsSelf | public/js/chatMode.js:139 | every string includes itself |
| JsText.JoinContainsPart | public/js/chatMode.js:161 | every part of a `join` appears in the joined string |
| JsText.NatToDecimal | src/routes/queryRoutes.js:42 | the decimal rendering is a non-empty string of digits |
| JsText.DecimalRoundTrip | src/routes/queryRoutes.js:42 | reading a rendered number back gives the number |
| JsText.IntToDecimal | src/routes/queryRoutes.js:42 | the rendering is non-empty and starts with `-` exactly for negatives; it is JavaScript's for integers below 1e21 in magnitude |
| JsText.IntToDecimalInjective | src/routes/queryRoutes.js:42 | different integers print differently, so an error message names its year unambiguously |
| Config.YearKeysEnumerateMap | src/config.js:1-4 | the key list holds exactly the map's keys in ascending order, and the table list follows it as `Object.values` does |
| Config.TableNamesNonEmpty | src/config.js:1-4 | every table name is non-empty, so a lookup is truthy exactly for supported years |
| Config.ValidYearsText | src/routes/queryRoutes.js:39 | `Object.keys(YEAR_TABLE_MAP).join(", ")` is "2023, 2024" |
| Config.YearsPrinted | src/routes/queryRoutes.js:39 | the two supported years print as "2023" and "2024" |
| Config.BandsDisjoint | src/config.js:6-11 | no value passes two band tests |
| Config.BandsCoverNonNegatives | src/config.js:6-11 | every non-negative value passes exactly one band test and a negative value none |
| DataService.MaxOf | src/dataService.js:4 | `Math.max` returns an element that bounds all the others |
| DataService.LatestYearIsLargestKey | src/dataService.js:4 | the latest year is a supported year, no supported year is later, and it is 2024 |
| DataService.FirstBand | src/dataService.js:11 | `find` returns the first band whose test passes, or none when none passes |
| DataService.Categorize | src/dataService.js:6-13 | a missing, NaN or infinite stage is "Unknown"; a finite stage gets the name of the band that accepts it, and "Unknown" when it is negative |
| DataService.CategorizeBoundaries | src/dataService.js:6-13 | 100 is Critical, 90 is Semi-critical, 70 and 0 are Safe |
| DataService.CategorizeOutsideBands | src/dataService.js:6-13 | above 100 is Over-extracted and below 0 is Unknown |
| DataService.ParseNumber | src/dataService.js:15-19 | the result is a number exactly when the value is present and converts to a finite number, and then it is that number |
| DataService.BuildDistinctQuery | src/dataService.js:21-34 | the SQL starts with the outer `SELECT DISTINCT`, ends with the null filter and ascending sort, holds the trimmed branch of every table, and passes the parameters through |
| DataService.StatesQuery | src/dataService.js:36-39 | the states query covers every year table, with no filter and no parameters |
| DataService.DistrictsQuery | src/dataService.js:41-45 | the districts query covers every year table, filters on State = $1 and passes the state |
| DataService.BlocksQuery | src/dataService.js:47-51 | the blocks query covers every year table, filters on State = $1 and District = $2 and passes both |
| DataService.PresentLocators | src/dataService.js:66-82 | there is one filter per truthy locator, each on its own column with the locator's value, in the order State, District, Assessment Unit Name |
| DataService.WhereClause | src/dataService.js:84 | the WHERE clause is empty exactly when there are no conditions; otherwise it is "WHERE " and the conditions joined by " AND ", and every condition appears in it |
| DataService.SumQueryMentions | src/dataService.js:86-92 | the summing query reads the year's table, carries the filter and passes the parameters |
| DataService.Summarize | src/dataService.js:95-109 | a summary carries its year and the parsed sums; it has a stage exactly when the annual sum is a non-zero number and the total is known, and without a stage it is "Unknown"; with one, the reported percentage is the rounded stage and the category is that of the unrounded stage |
| DataService.SelectedYears | src/dataService.js:54-55 | the years are the given non-empty list, otherwise the latest year alone |
| DataService.AggregateYearsSucceeds | src/dataService.js:59-110 | the aggregation succeeds exactly when every year has a table and its query succeeds |
| DataService.AggregateYearsSummaries | src/dataService.js:59-112 | a successful aggregation holds one summary per year, in order, each made from that year's summed row |
| DataService.AggregateStopsAtUnsupportedYear | src/dataService.js:60-64 | the first year without a table fails the aggregation with a message naming it and the valid years |
| DataService.AggregateOnePerYear | src/dataService.js:53-113 | a successful aggregation reports each selected year in order, and an entry without a stage is "Unknown" |
| DataService.AggregateDefaultsToLatestYear | src/dataService.js:54-55 | without years, or with an empty list, only 2024 is reported |
| DataService.FilterConditions | src/dataService.js:66-82 | the loop's conditions number their placeholders consecutively, in step with the pushed parameters |
| DataService.SummarizeRow | src/dataService.js:95-109 | one iteration's tail gives the year's summary |
| DataService.AggregateOneYear | src/dataService.js:60-109 | one iteration fails on a year without a table or a failed query, and otherwise gives the year's summary |
| DataService.AggregateByYear | src/dataService.js:53-113 | the loop over the selected years returns what `Aggregate` specifies: the summaries in order, or the first error |
| DataService.AggregateYears | src/dataService.js:59-112 | the loop as a recursion over the years left; what it returns is stated by `DataService.AggregateYearsSucceeds` and `DataService.AggregateYearsSummaries` |
| DataService.Aggregate | src/dataService.js:53-113 | `aggregateByYear` as a function; its outcomes are stated by `DataService.AggregateStopsAtUnsupportedYear`, `DataService.AggregateOnePerYear` and `DataService.AggregateDefaultsToLatestYear` |
| QueryRoute.UnsupportedYearMessage | src/routes/queryRoutes.js:39-42 | the refusal names the year and lists "2023, 2024" |
| QueryRoute.NormalizeString | src/routes/queryRoutes.js:7-11 | a locator is present exactly when the field is a string that is not all whitespace, and then it is the trimmed, non-empty string |
| QueryRoute.NormalizeStringIdempotent | src/routes/queryRoutes.js:7-11 | normalising a normalised locator changes nothing |
| QueryRoute.FiniteYears | src/routes/queryRoutes.js:31 | the filter keeps exactly the finite entries, and leaves a list of finite entries as it is |
| QueryRoute.FiniteYearsAppend | src/routes/queryRoutes.js:31 | filtering distributes over concatenation, so the kept entries keep their order and their repetitions |
| QueryRoute.FirstUnsupported | src/routes/queryRoutes.js:37 | `find` returns the first entry without a table, and none when every entry has one |
| QueryRoute.NormalizeYears | src/routes/queryRoutes.js:25-44 | missing years stay missing and a non-array is refused; accepted years are the finite entries, or the latest year when none is left, and the first unsupported entry among them, if any, is 0 |
| QueryRoute.NormalizeYearsRefuses | src/routes/queryRoutes.js:31-43 | an array is refused exactly when its first unsupported entry is not 0, with the message naming that entry |
| QueryRoute.YearNumbers | src/routes/queryRoutes.js:46-51 | the years handed to the aggregation correspond one to one, and each has a table exactly when its entry is supported; an integral entry is handed over as its own value |
| QueryRoute.NoLocatorRefused | src/routes/queryRoutes.js:19-23 | without a usable locator the answer is 400 whatever the database holds |
| QueryRoute.HandlePost | src/routes/queryRoutes.js:13-60 | the POST handler; its answers are stated by `QueryRoute.NoLocatorRefused`, `QueryRoute.HandlePostStatuses` and `QueryRoute.HandlePostSuccess` |
| QueryRoute.Respond | src/routes/queryRoutes.js:19-59 | the handler once the locators are normalised; its outcomes are stated by `QueryRoute.RespondRefusesYears` and `QueryRoute.RespondAggregationFails` |
| QueryRoute.HandlePostStatuses | src/routes/queryRoutes.js:13-60 | every answer is 200, 400 or 500, and every non-200 answer is an error |
| QueryRoute.HandlePostSuccess | src/routes/queryRoutes.js:46-56 | a 200 echoes the normalised locators and reports only supported years, one per accepted year, and exactly 2024 when years are missing |
| QueryRoute.RespondRefusesYears | src/routes/queryRoutes.js:26-43 | with a locator, refused years are answered 400 with the refusal's message |
| QueryRoute.RespondAggregationFails | src/routes/queryRoutes.js:46-59 | with a locator and accepted years, a failed aggregation is answered 500 |
| QueryRoute.ZeroYearAccepted | src/routes/queryRoutes.js:37-38 | the year 0 passes validation |
| QueryRoute.ZeroYearFailsAggregation | src/dataService.js:60-64 | aggregating the year 0 fails |
| QueryRoute.ZeroYearSlipsThrough | src/routes/queryRoutes.js:37-59 | a body with the year 0 gets 500 where other unsupported years get 400 |
| QueryRoute.UnsupportedYearRefused | src/routes/queryRoutes.js:37-43 | any other lone unsupported year below 1e21 in magnitude is refused with 400 and a message naming it in digits |
| QueryRoute.SingleUnsupportedYear | src/routes/queryRoutes.js:31-43 | a lone unsupported year other than 0, below 1e21 in magnitude, fails validation with its message |
| ApiHandler.FirstLineEnd | netlify/functions/api.js:30 | `.` matches up to the first line terminator |
| ApiHandler.LastApiBelow | netlify/functions/api.js:30 | the greedy match ends at the last `/api` on the first line |
| ApiHandler.RewritePathUnmatched | netlify/functions/api.js:30 | a path without `/api` on its first line is left alone |
| ApiHandler.RewritePathMatched | netlify/functions/api.js:30 | everything up to the last `/api` on the first line becomes `/api` |
| ApiHandler.RewriteStripsPrefix | netlify/functions/api.js:29-30 | the function's own prefix before `/api` is stripped |
| ApiHandler.RewritePathIdempotent | netlify/functions/api.js:30 | rewriting a rewritten path changes nothing |
| ApiHandler.ApiLocator | netlify/functions/api.js:72-74 | reading a locator throws exactly for an object with a non-null `trim` member that is not a function |
| ApiHandler.ApiLocatorAgreesWithRoute | netlify/functions/api.js:72-74 | otherwise the handler reads a locator as the Express route does |
| ApiHandler.EndpointsOfRoutes | netlify/functions/api.js:34-60 | each route reaches its own endpoint, and nothing else reaches any |
| ApiHandler.PreflightAnswered | netlify/functions/api.js:24-26 | an OPTIONS request is answered 200 with an empty body before the URL is parsed |
| ApiHandler.UnparsableUrlRejected | netlify/functions/api.js:28 | any other request with an unparsable URL throws |
| ApiHandler.MethodCaseIgnored | netlify/functions/api.js:31 | routing ignores the method's case |
| ApiHandler.DistrictsNeedState | netlify/functions/api.js:39-46 | the district list needs a non-blank state parameter and is the catalog's answer for the trimmed state |
| ApiHandler.BlocksNeedStateAndDistrict | netlify/functions/api.js:48-58 | the block list needs non-blank state and district parameters and is the catalog's answer for the trimmed pair |
| ApiHandler.QueryNeedsJsonBody | netlify/functions/api.js:61-70 | a missing or empty body and invalid JSON get 400; a body of `null` gets 500 |
| ApiHandler.QueryAgreesWithRoute | netlify/functions/api.js:72-104 | the handler answers a parsed body exactly as the Express route does, unless a locator has a `trim` member, which gives 500 |
| ApiHandler.OtherRoutesNotFound | netlify/functions/api.js:107 | anything but the four routes gets 404 |
| ApiHandler.EventPath | netlify/functions/api.js:29 | the event's raw path, or the URL's path when there is none; used by `ApiHandler.RewriteStripsPrefix` |
| ApiHandler.RewritePath | netlify/functions/api.js:30 | the `/api` rewrite; stated by `ApiHandler.RewritePathUnmatched`, `ApiHandler.RewritePathMatched` and `ApiHandler.RewritePathIdempotent` |
| ApiHandler.EndpointOf | netlify/functions/api.js:31-60 | the route table; stated by `ApiHandler.EndpointsOfRoutes`, `ApiHandler.MethodCaseIgnored` and `ApiHandler.OtherRoutesNotFound` |
| ApiHandler.Query | netlify/functions/api.js:60-105 | the query endpoint; stated by `ApiHandler.QueryNeedsJsonBody` and `ApiHandler.QueryAgreesWithRoute` |
| ApiHandler.Serve | netlify/functions/api.js:34-107 | one endpoint's answer; stated by `ApiHandler.DistrictsNeedState` and `ApiHandler.BlocksNeedStateAndDistrict` |
| ApiHandler.Handle | netlify/functions/api.js:23-112 | the whole handler; stated by `ApiHandler.PreflightAnswered`, `ApiHandler.UnparsableUrlRejected` and the route lemmas above |
| ChatText.NormalizeValue | public/js/chatMode.js:47-49 | trimming and lower-casing; stated by `ChatText.NormalizeValueIdempotent` and used by the matching lemmas below |
| ChatText.NormalizeValueIdempotent | public/js/chatMode.js:47-49 | normalising twice is normalising once |
| ChatText.FindExact | public/js/chatMode.js:51-54 | a match is a non-empty listed option |
| ChatText.FindExactMatches | public/js/chatMode.js:51-54 | a match equals the value once both are normalised |
| ChatText.FindExactMisses | public/js/chatMode.js:51-54 | nothing is found when no option normalises to the value |
| ChatText.FindExactFirst | public/js/chatMode.js:51-54 | the first matching option is the one found |
| ChatText.DetectMatch | public/js/chatMode.js:137-140 | a match is a non-empty listed option |
| ChatText.DetectMatchMentioned | public/js/chatMode.js:137-140 | a match is mentioned in the text regardless of case, and nothing is found when no option is |
| ChatText.DetectMatchFirst | public/js/chatMode.js:137-140 | the first mentioned option is the one found |
| ChatText.DetectMatchMissesLongerOption | public/js/chatMode.js:137-140 | an option longer than the text, such as a padded name, is never detected |
| ChatText.ParseYears | public/js/chatMode.js:142-153 | parsed years are supported and strictly ascending |
| ChatText.ParseYearsReads | public/js/chatMode.js:142-153 | "latest" wins and gives the empty list; otherwise "both" or "all" give both years; otherwise exactly the years spelled out, and no signal gives nothing |
| ChatText.WantsStateLevel | public/js/chatMode.js:155-158 | the three phrases; stated by `ChatText.WantsStateLevelReads` |
| ChatText.WantsStateLevelReads | public/js/chatMode.js:155-158 | the user declines a district exactly when "state level", "no district" or "skip" occurs in the lower-cased message, in any case and even inside a longer word |
| ChatText.FormatSuggestions | public/js/chatMode.js:160-162 | an empty list or a zero limit gives an empty suggestion |
| ChatText.FormatSuggestionsMentions | public/js/chatMode.js:160-162 | each of the first `limit` names appears in the suggestion |
| ChatText.FormatSuggestionsUsesPrefix | public/js/chatMode.js:160-162 | only the first `limit` names matter |
| ChatFlow.Report | public/js/chatMode.js:415-445 | a failed request and a reply without years give the same "no data" bubble; otherwise the reply's years are reported |
| ChatFlow.Start | public/js/chatMode.js:509-514 | the page's start; stated by `ChatFacts.StartSettled` |
| ChatFlow.HandleAskState | public/js/chatMode.js:317-357 | the state turn; stated by `ChatFacts.StatesLoaded`, `ChatFacts.UnknownStateSuggests`, `ChatFacts.NamedState`, `ChatFacts.FullSentenceQueries`, `ChatFacts.StateOnlyAsksDistrict`, the three outcome lemmas `ChatFacts.HandleAskStateAsksYear`, `ChatFacts.HandleAskStateQueriesAtOnce` and `ChatFacts.HandleAskStateAsksDistrict`, and `ChatFacts.HandleAskStateSettled` |
| ChatFlow.AfterStateFound | public/js/chatMode.js:336-356 | the end of the state turn; stated by `ChatFacts.AfterStateFoundOutcomes`, `ChatFacts.StateLevelSentenceQueries`, `ChatFacts.NoDistrictAsksForOne`, `ChatFacts.AssistedDistrictSurvives` and `ChatFacts.AfterStateFoundSettled` |
| ChatFlow.HandleAskDistrict | public/js/chatMode.js:359-383 | the district turn; stated by `ChatFacts.HandleAskDistrictOutcomes` and `ChatFacts.HandleAskDistrictSettled` |
| ChatFlow.DistrictChosen | public/js/chatMode.js:362-382 | the end of the district turn; stated by `ChatFacts.HandleAskDistrictOutcomes` and `ChatFacts.DistrictChosenSettled` |
| ChatFlow.HandleAskYear | public/js/chatMode.js:389-398 | the year turn; stated by `ChatFacts.YearAnswerQueries`, `ChatFacts.YearNotUnderstoodAsksAgain` and `ChatFacts.HandleAskYearSettled` |
| ChatFlow.RunQuery | public/js/chatMode.js:400-452 | the query; stated by `ChatFacts.RunQueryStartsOver` and `ChatFacts.RunQuerySettled` |
| ChatFlow.HandleUserInput | public/js/chatMode.js:457-488 | a typed message; stated by `ChatFacts.BlankMessageIgnored`, `ChatFacts.ResetMessageRestarts`, `ChatFacts.AtAskState`, `ChatFacts.AtAskDistrict` and `ChatFacts.HandleUserInputSettled` |
| ChatFlow.HandleStateAssistChange | public/js/chatMode.js:167-198 | the state selector; stated by `ChatFacts.StateAssistSelects` and `ChatFacts.StateAssistSettled` |
| ChatFlow.HandleDistrictAssistChange | public/js/chatMode.js:200-233 | the district selector; stated by `ChatFacts.DistrictAssistSelects`, `ChatFacts.DistrictClearedKeepsBlock` and `ChatFacts.DistrictAssistSettled` |
| ChatFlow.HandleBlockAssistChange | public/js/chatMode.js:235-261 | the block selector; stated by `ChatFacts.BlockAssistSelects` and `ChatFacts.BlockAssistSettled` |
| ChatFlow.ApplyAssistSelection | public/js/chatMode.js:263-312 | the apply button; stated by `ChatFacts.ApplyNeedsState`, `ChatFacts.ApplyUnlistedStateRefused`, `ChatFacts.ApplySelectionQueries`, `ChatFacts.ApplyStateOnlyQueries` and `ChatFacts.ApplySettled` |
| ChatFlow.ApplyTyped | public/js/chatMode.js:265-311 | apply on the typed values; stated by `ChatFacts.ApplyTypedUnlistedState`, `ChatFacts.ApplyTypedSelection`, `ChatFacts.ApplyTypedQueries` and `ChatFacts.ApplyTypedStateOnly` |
| ChatFlow.ApplyDistrict | public/js/chatMode.js:281-303 | the district step of apply; stated by `ChatFacts.ApplyTypedSelection` and `ChatFacts.ApplyDistrictSettled` |
| ChatFlow.ApplyBlock | public/js/chatMode.js:291-303 | the block step of apply; stated by `ChatFacts.ApplyBlockNeedsDistrict` and `ChatFacts.ApplyBlockSettled` |
| ChatFlow.Commit | public/js/chatMode.js:305-311 | the commit; stated by `ChatFacts.CommitSends` and `ChatFacts.CommitSettled` |
| ChatFacts.BlocksKeyInjective | public/js/chatMode.js:117 | the block key identifies its pair when one pair is free of the bar character |
| ChatFacts.LoadersOnlyCaches | public/js/chatMode.js:97-132 | the loaders change only the caches and the request log |
| ChatFacts.LoadStatesTransparent | public/js/chatMode.js:97-102 | with faithful caches, loading the states gives the API's answer and keeps the caches faithful |
| ChatFacts.LoadDistrictsTransparent | public/js/chatMode.js:104-114 | the same for the districts of a state |
| ChatFacts.LoadBlocksTransparent | public/js/chatMode.js:116-132 | the same for blocks, for names free of the bar character |
| ChatFacts.BlocksCacheConflates | public/js/chatMode.js:117-118 | blocks fetched for one pair answer another pair that spells the same key, without a request |
| ChatFacts.LoadStatesOnce | public/js/chatMode.js:98-99 | a non-empty state list is fetched once and an empty one again |
| ChatFacts.LoadDistrictsOnce | public/js/chatMode.js:104-114 | once a state's districts are loaded, loading them again sends nothing, changes nothing and gives the same list; the first load of an uncached state sends one request |
| ChatFacts.StartSettled | public/js/chatMode.js:509-514 | the loaded page is settled, has sent one request, and greets, adding an apology when the states fail to load |
| ChatFacts.RunQueryStartsOver | public/js/chatMode.js:400-452 | a query sends the record as it stands and reports the API's answer to it between "fetching" and the invitation to go on; whatever the outcome it returns to AskState with an empty record, keeping caches and inputs |
| ChatFacts.RunQuerySettled | public/js/chatMode.js:446-451 | after a query the page is settled and has only appended |
| ChatFacts.YearsChosenSettled | public/js/chatMode.js:389-398 | reading years keeps the page settled |
| ChatFacts.HandleAskYearSettled | public/js/chatMode.js:389-398 | answering the year question keeps the page settled and only appends |
| ChatFacts.AfterStateFoundSettled | public/js/chatMode.js:336-356 | the end of the state turn leaves the page settled |
| ChatFacts.DistrictsForMessageSettled | public/js/chatMode.js:332-356 | reading the districts of a named state leaves the page settled |
| ChatFacts.StateDetectedSettled | public/js/chatMode.js:319-356 | a state named or not leaves the page settled |
| ChatFacts.HandleAskStateSettled | public/js/chatMode.js:317-357 | the state turn leaves the page settled and only appends |
| ChatFacts.DistrictChosenSettled | public/js/chatMode.js:362-382 | the end of the district turn leaves the page settled |
| ChatFacts.HandleAskDistrictSettled | public/js/chatMode.js:359-383 | the district turn leaves the page settled and only appends |
| ChatFacts.PhaseTurnSettled | public/js/chatMode.js:470-483 | every phase's handler leaves the page settled |
| ChatFacts.HandleUserInputSettled | public/js/chatMode.js:457-488 | every typed message leaves the page waiting for the user, with a state in the phases that need one and faithful caches, and only appends to the transcript and the request log |
| ChatFacts.HandleMessageSettled | public/js/chatMode.js:459-488 | the same once the message is trimmed |
| ChatFacts.StateAssistFoundQuiet | public/js/chatMode.js:191-197 | a chosen state keeps the page settled without speaking in the chat |
| ChatFacts.StateAssistTypedQuiet | public/js/chatMode.js:169-197 | the state selector keeps the page settled without speaking in the chat |
| ChatFacts.StateAssistSettled | public/js/chatMode.js:167-198 | editing the state selector keeps the page settled, the phase and the transcript as they were, and only adds requests |
| ChatFacts.DistrictAssistFoundQuiet | public/js/chatMode.js:228-232 | a chosen district keeps the page settled without speaking in the chat |
| ChatFacts.DistrictAssistLoadedQuiet | public/js/chatMode.js:219-232 | matching a typed district keeps the page settled without speaking in the chat |
| ChatFacts.DistrictAssistTypedQuiet | public/js/chatMode.js:202-232 | the district selector keeps the page settled without speaking in the chat |
| ChatFacts.DistrictAssistSettled | public/js/chatMode.js:200-233 | editing the district selector keeps the page settled and quiet |
| ChatFacts.BlockAssistLoadedQuiet | public/js/chatMode.js:253-260 | matching a typed block keeps the page settled without speaking in the chat |
| ChatFacts.BlockAssistTypedQuiet | public/js/chatMode.js:237-260 | the block selector keeps the page settled without speaking in the chat |
| ChatFacts.BlockAssistSettled | public/js/chatMode.js:235-261 | editing the block selector keeps the page settled and quiet |
| ChatFacts.CommitSettled | public/js/chatMode.js:305-311 | committing a selection leaves the page settled and only appends |
| ChatFacts.ApplyBlockFoundSettled | public/js/chatMode.js:298-303 | the block step of apply leaves the page settled |
| ChatFacts.ApplyBlocksLoadedSettled | public/js/chatMode.js:297-303 | matching the block input leaves the page settled |
| ChatFacts.ApplyBlockSettled | public/js/chatMode.js:291-303 | the block input of apply leaves the page settled |
| ChatFacts.ApplyDistrictFoundSettled | public/js/chatMode.js:284-288 | the district step of apply leaves the page settled |
| ChatFacts.ApplyDistrictsLoadedSettled | public/js/chatMode.js:283-288 | matching the district input leaves the page settled |
| ChatFacts.ApplyDistrictSettled | public/js/chatMode.js:281-303 | the district and block inputs of apply leave the page settled |
| ChatFacts.ApplyStateFoundSettled | public/js/chatMode.js:272-276 | the state step of apply leaves the page settled |
| ChatFacts.ApplyTypedSettled | public/js/chatMode.js:265-311 | apply, once the inputs are trimmed, leaves the page settled and only appends |
| ChatFacts.ApplySettled | public/js/chatMode.js:263-312 | applying the selection leaves the page settled and only appends |
| ChatFacts.BlankMessageIgnored | public/js/chatMode.js:458-459 | a message that is blank once trimmed changes nothing |
| ChatFacts.ResetMessageRestarts | public/js/chatMode.js:464-467 | "reset" or "start over" restarts after echoing the message |
| ChatFacts.ResetWordsRestart | public/js/chatMode.js:458-467 | these words, in any case and with any padding, restart without clearing the transcript or sending anything |
| ChatFacts.AtAskState | public/js/chatMode.js:469-473 | while asking for a state, a message goes to the state handler |
| ChatFacts.NamedState | public/js/chatMode.js:329-334 | once a state is named and its districts load, the rest of the message is read against them |
| ChatFacts.StatesLoaded | public/js/chatMode.js:318-319 | the message is matched against the API's state list |
| ChatFacts.UnknownStateSuggests | public/js/chatMode.js:321-327 | a message naming no state gets four suggestions and keeps the phase and the record |
| ChatFacts.FullSentenceQueries | public/js/chatMode.js:317-356 | a message naming a state, a district and years sends exactly that query, with any block recorded earlier, and starts over |
| ChatFacts.StateLevelSentenceQueries | public/js/chatMode.js:336-356 | a message naming a state, declining a district and giving years sends the query at once for that state and those years, with whatever district and block were recorded before, and starts over |
| ChatFacts.NoDistrictAsksForOne | public/js/chatMode.js:343-351 | without a district named, recorded or declined, the chat asks for one |
| ChatFacts.StateOnlyAsksDistrict | public/js/chatMode.js:317-351 | a message naming only a state moves to AskDistrictOrLevel and says "Got it" |
| ChatFacts.AfterStateFoundOutcomes | public/js/chatMode.js:336-356 | at the end of the state turn the record takes the district and years the message names, keeping earlier ones otherwise; with a district or a declined one the chat asks for the year and queries at once when years are known, and without either it asks for a district |
| ChatFacts.AfterStateQueries | public/js/chatMode.js:343-355 | in the query case, the request and the report carry the state, the district named or recorded before, the block recorded before and the years |
| ChatFacts.StateTurnReaches | public/js/chatMode.js:317-336 | a message naming a listed state whose districts load reaches the end of the state turn with the state recorded and the message echoed |
| ChatFacts.HandleAskStateAsksYear | public/js/chatMode.js:317-356 | a message naming a state and a district of it, or declining one, with no years known, records the state and the district named (or the one recorded before) and asks for the year |
| ChatFacts.HandleAskStateQueriesAtOnce | public/js/chatMode.js:317-356 | the same with years known sends the query for the state, that district, the block recorded before and the years, reports the answer and starts over |
| ChatFacts.HandleAskStateAsksDistrict | public/js/chatMode.js:317-356 | with no district named, recorded or declined, the state and the years named are recorded and the chat asks for a district |
| ChatFacts.AssistedDistrictSurvives | public/js/chatMode.js:336-345 | a district recorded through the selectors survives a typed state, and the chat skips to the year |
| ChatFacts.YearAnswerQueries | public/js/chatMode.js:389-398 | asked for a year, a message with years sends the record with them and starts over |
| ChatFacts.YearNotUnderstoodAsksAgain | public/js/chatMode.js:390-394 | a message without years asks again and changes nothing else |
| ChatFacts.FailedQueryLikeEmpty | public/js/chatMode.js:416-445 | a failed query and an empty answer leave the same page |
| ChatFacts.StateAssistTypedSelects | public/js/chatMode.js:180-197 | a listed state is recorded, the district and block are cleared in the record and the inputs, and the error stays cleared |
| ChatFacts.StateAssistSelects | public/js/chatMode.js:167-197 | the same for the whole handler, which also clears the error line |
| ChatFacts.DistrictClearedKeepsBlock | public/js/chatMode.js:211-216 | emptying the district selector clears the recorded district but not the recorded block |
| ChatFacts.ApplyBlockNeedsDistrict | public/js/chatMode.js:292-296 | a block without a district is refused and nothing is sent |
| ChatFacts.ApplyNeedsState | public/js/chatMode.js:265-269 | apply with a blank state input only shows the error |
| ChatFacts.ApplyTypedUnlistedState | public/js/chatMode.js:271-276 | apply with a typed state not in the list only shows "Please pick a state from the list": nothing but the state list is loaded, no query is sent, and the record, phase, transcript and inputs stay |
| ChatFacts.ApplyUnlistedStateRefused | public/js/chatMode.js:263-276 | the same for the apply button, whose non-blank state input names no listed state |
| ChatFacts.ApplyTypedStateOnly | public/js/chatMode.js:271-311 | with blank district and block inputs, a listed state is committed alone |
| ChatFacts.CommitSends | public/js/chatMode.js:305-311 | committing announces the selection ("Using selection: " and the state, then the district and block when present), sends exactly it without years, reports the answer and starts over |
| ChatFacts.AtAskDistrict | public/js/chatMode.js:474-476 | while asking for a district, a message goes to the district handler |
| ChatFacts.HandleAskDistrictOutcomes | public/js/chatMode.js:359-383 | asked for a district, a reply declining one clears the district and asks for the year; a reply naming a listed district records it and asks for the year; any other reply gets four suggestions and keeps the phase and the record |
| ChatFacts.DistrictAssistTypedSelects | public/js/chatMode.js:219-232 | a listed district typed in the selector is recorded, the recorded block and the block input are cleared, and nothing is said in the chat |
| ChatFacts.DistrictAssistSelects | public/js/chatMode.js:200-233 | the same for the whole handler, which also clears the error line |
| ChatFacts.BlockAssistTypedSelects | public/js/chatMode.js:253-260 | a listed block typed in the selector is recorded and nothing else but the caches and requests changes |
| ChatFacts.BlockAssistSelects | public/js/chatMode.js:235-261 | the same for the whole handler, which also clears the error line |
| ChatFacts.ApplyTypedSelection | public/js/chatMode.js:271-311 | with a listed state, one of its listed districts and a blank or listed block, apply commits exactly that selection once the lists are loaded |
| ChatFacts.ApplyTypedQueries | public/js/chatMode.js:265-311 | that selection is the last request sent, and the page starts over |
| ChatFacts.ApplySelectionQueries | public/js/chatMode.js:263-312 | the apply button with a listed state and district, and a blank or listed block, sends the query for exactly that selection without years and starts over |
| ChatFacts.ApplyStateOnlyQueries | public/js/chatMode.js:263-312 | applying a listed state with blank district and block sends the state-level query without years and starts over |
| ChatSession.Session.constructor | public/js/chatMode.js:509-514 | loading the page gives the state `ChatFlow.Start` describes |
| ChatSession.Session.ResetConversation | public/js/chatMode.js:73-80 | the record is emptied, the phase is AskState, and the transcript is cleared on request before the greeting |
| ChatSession.Session.LoadStates | public/js/chatMode.js:97-102 | the fields and the returned list are what `ChatFlow.LoadStates` gives |
| ChatSession.Session.LoadDistricts | public/js/chatMode.js:104-114 | the fields and the returned list are what `ChatFlow.LoadDistricts` gives |
| ChatSession.Session.LoadBlocks | public/js/chatMode.js:116-132 | the fields and the returned list are what `ChatFlow.LoadBlocks` gives |
| ChatSession.Session.PromptYear | public/js/chatMode.js:385-387 | the year prompt is appended and nothing else changes |
| ChatSession.Session.RunQuery | public/js/chatMode.js:400-452 | the fields end as `ChatFlow.RunQuery` says (see `ChatFacts.RunQueryStartsOver`) |
| ChatSession.Session.HandleAskYear | public/js/chatMode.js:389-398 | the fields end as `ChatFlow.HandleAskYear` says |
| ChatSession.Session.HandleAskState | public/js/chatMode.js:317-357 | the fields and whether a request threw are as `ChatFlow.HandleAskState` says (outcomes in `ChatFacts.HandleAskStateAsksYear`, `ChatFacts.HandleAskStateQueriesAtOnce` and `ChatFacts.HandleAskStateAsksDistrict`) |
| ChatSession.Session.HandleAskDistrict | public/js/chatMode.js:359-383 | the fields and whether a request threw are as `ChatFlow.HandleAskDistrict` says (outcomes in `ChatFacts.HandleAskDistrictOutcomes`) |
| ChatSession.Session.HandleUserInput | public/js/chatMode.js:457-488 | the fields end as `ChatFlow.HandleUserInput` says (see `ChatFacts.HandleUserInputSettled`) |
| ChatSession.Session.HandleMessage | public/js/chatMode.js:459-488 | the fields end as `ChatFlow.HandleMessage` says |
| ChatSession.Session.EditInputs | public/js/chatMode.js:502-506 | typing in the selectors changes only the inputs |
| ChatSession.Session.StateInputFocused | public/js/chatMode.js:501 | focusing the state input loads the states |
| ChatSession.Session.HandleStateAssistChange | public/js/chatMode.js:167-198 | the fields end as `ChatFlow.HandleStateAssistChange` says (see `ChatFacts.StateAssistSettled`) |
| ChatSession.Session.StateAssistTyped | public/js/chatMode.js:169-197 | the fields end as `ChatFlow.StateAssistTyped` says |
| ChatSession.Session.StateAssistFound | public/js/chatMode.js:191-197 | the fields end as `ChatFlow.StateAssistFound` says |
| ChatSession.Session.HandleDistrictAssistChange | public/js/chatMode.js:200-233 | the fields end as `ChatFlow.HandleDistrictAssistChange` says (see `ChatFacts.DistrictAssistSelects` and `ChatFacts.DistrictClearedKeepsBlock`) |
| ChatSession.Session.DistrictAssistTyped | public/js/chatMode.js:202-232 | the fields end as `ChatFlow.DistrictAssistTyped` says (see `ChatFacts.DistrictAssistTypedSelects`) |
| ChatSession.Session.HandleBlockAssistChange | public/js/chatMode.js:235-261 | the fields end as `ChatFlow.HandleBlockAssistChange` says (see `ChatFacts.BlockAssistSelects`) |
| ChatSession.Session.BlockAssistTyped | public/js/chatMode.js:237-260 | the fields end as `ChatFlow.BlockAssistTyped` says (see `ChatFacts.BlockAssistTypedSelects`) |
| ChatSession.Session.ApplyAssistSelection | public/js/chatMode.js:263-312 | the fields end as `ChatFlow.ApplyAssistSelection` says (see `ChatFacts.ApplyNeedsState`, `ChatFacts.ApplyUnlistedStateRefused`, `ChatFacts.ApplySelectionQueries`, `ChatFacts.ApplyStateOnlyQueries` and `ChatFacts.ApplySettled`) |
| ChatSession.Session.ApplyTyped | public/js/chatMode.js:265-311 | the fields end as `ChatFlow.ApplyTyped` says (see `ChatFacts.ApplyTypedUnlistedState`, `ChatFacts.ApplyTypedQueries` and `ChatFacts.ApplyTypedStateOnly`) |
| ChatSession.Session.ApplyDistrict | public/js/chatMode.js:281-303 | the fields end as `ChatFlow.ApplyDistrict` says (see `ChatFacts.ApplyTypedSelection`) |
| ChatSession.Session.ApplyBlock | public/js/chatMode.js:291-303 | the fields end as `ChatFlow.ApplyBlock` says (see `ChatFacts.ApplyTypedSelection` and `ChatFacts.ApplyBlockNeedsDistrict`) |
| ChatSession.Session.Commit | public/js/chatMode.js:305-311 | the fields end as `ChatFlow.Commit` says (see `ChatFacts.CommitSends`) |
| Wire.LocatorsKept | src/routes/queryRoutes.js:7-11 | the server keeps a name without surrounding whitespace as it is |
| Wire.ChatYearsAccepted | src/routes/queryRoutes.js:25-44 | years the chat sends are accepted, and the server aggregates exactly them, or the latest year for "latest" |
| Wire.ChatYearsFieldAccepted | src/routes/queryRoutes.js:25-44 | the years field of any chat query is accepted |
| Wire.ParsedYearsAccepted | public/js/chatMode.js:142-153 | whatever years a message asks for are accepted by the server |
| Wire.BodyWithStateNotRefused | src/routes/queryRoutes.js:19-59 | a body with a usable state and accepted years gets 200 or 500, never 400 |
| Wire.ChatQueryNotRefused | public/js/chatMode.js:400-413 | a chat query naming a state is never refused with 400 |
| Wire.RespondAnswered | src/routes/queryRoutes.js:46-56 | an answered query echoes the locators and reports the selected years in order |
| Wire.ChatYearsSelected | src/dataService.js:54-55 | the server selects the same years for the chat's query as the chat asked for |
| Wire.ChatQueryAnswered | public/js/chatMode.js:400-415 | an answered chat query echoes the record it sent and reports one summary per year asked for, in order, or the latest year alone |
| Wire.LatestMeans2024 | src/dataService.js:4 | asking for the latest year, or never choosing, gets the 2024 figures alone |

## Left out

- Rendering: bubbles are modelled by what they say, not by their text.
  The per-year result lines (chatMode.js:430-438) are not formatted, nor
  is the text of the prompts. The location line and the selection
  announcement are modelled.
- The DOM: datalists (`fillDatalist`), the `disabled` flags of the
  selectors, scrolling, and the emptying of the chat box after sending.
  The selector error line is modelled as a string.
- `fetchJSON`: URLs, `encodeURIComponent` and headers are not modelled.
  The API is a `Remote` value whose lists may be missing (a request that
  throws) and whose query may have no answer.
- Concurrency: each event handler runs to completion before the next
  event. Overlapping handlers are not modelled, such as a selector edit
  while a query is pending, or the initial state load racing a message.
- Logging (`console.error`) and environment loading (`dotenv`).
- Floating point: the stage computation and its rounding are
  uninterpreted functions. Categorisation is on exact reals.
- JavaScript numbers in the year list are abstracted. An entry is an
  integer, a finite non-integer with its printed form, or NaN/infinity.
  `QueryRoute.YearNumbers` hands a non-integer to the aggregation as 0:
  such an entry is refused with 400 unless a 0 precedes it, and then the
  aggregation has already failed on the 0.
- The database: SQL text is built but not executed. What a query returns
  is whatever the `Database` value says.
- The Express application, its JSON body parser and error handler, and
  the metadata routes, the quick and complex modes, and the database pool
  setup are not part of this model. The error handler is assumed to
  answer 500.
- The serverless handler's CORS and content-type headers and
  `JSON.stringify` of the replies. `JSON.parse` is a parameter.
- `ToLower`/`ToUpper` map ASCII letters only, not the full Unicode case
  mapping.
- ChatSession.Session.HandleAskDistrict: requires a recorded state. The
  page never asks for a district without one (`ChatFacts.HandleUserInputSettled`
  keeps this invariant), so the source's behaviour with a null state is not
  modelled.
- ChatSession.Session.HandleUserInput: requires that the phases asking for
  a district or a year have a recorded state. This is the same invariant,
  established by `ChatFacts.StartSettled` and kept by every handler.
- ChatFacts.LoadBlocksTransparent: promises the API's block list only for
  names free of `|`, because the cache key can conflate other pairs.
- Wire.ChatQueryNotRefused: requires that the state is not all whitespace.
  A catalog name made only of whitespace would be sent, read as absent by
  the server, and refused.
- Wire.ChatQueryAnswered: assumes the names carry no surrounding
  whitespace. The server trims the locators it echoes, so a padded catalog
  name comes back trimmed.
- Wire.LatestMeans2024: makes the same assumption about names.
- JsText.IntToDecimal: renders every integer in plain digits. JavaScript
  switches to exponent form from 1e21 in magnitude on, so for such a year
  the message of `QueryRoute.NormalizeYearsRefuses` names it differently
  from the source.
- QueryRoute.UnsupportedYearRefused: requires a year below 1e21 in
  magnitude, for the reason above.
- QueryRoute.SingleUnsupportedYear: the same bound.
- ChatFacts.BlockAssistTypedSelects: requires state and district names free
  of `|`, because the block cache key can conflate other pairs.
- ChatFacts.BlockAssistSelects: the same condition on names.
- ChatFacts.ApplySelectionQueries: the same condition on names when a block is given.
- ChatFacts.ApplyTypedSelection: the same condition on names when a block is given.
- ChatFacts.ApplyTypedQueries: the same condition on names when a block is given.
