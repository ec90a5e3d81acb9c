/** The chat dialogue as pure steps over a snapshot of the page's state:
    the phase, the conversation record, the three catalog caches, the
    selector inputs, the assisted-selection error line, the transcript of
    chat bubbles and the log of requests sent to the API. Each handler of
    the page is one function from the snapshot before to the snapshot
    after. */
module ChatFlow {
  import opened Wrappers
  import opened JsText
  import opened DataService
  import opened ChatText

  datatype Phase = AskState | AskDistrictOrLevel | AskYear | ConfirmAndQuery | Done

  /** The record being filled in. For `years`, `None` is "not chosen" and
      `Some([])` is "the latest year". */
  datatype Conversation = Conversation(
    state: Option<string>, district: Option<string>, block: Option<string>, years: Option<seq<int>>)

  const EmptyConversation := Conversation(None, None, None, None)

  /** The text in the three selector inputs. */
  datatype Inputs = Inputs(state: string, district: string, block: string)

  /** The body of a query as the chat sends it. */
  datatype QueryPayload = QueryPayload(
    state: Option<string>, district: Option<string>, block: Option<string>, years: Option<seq<int>>)

  datatype Request =
    | StatesRequest
    | DistrictsRequest(state: string)
    | BlocksRequest(state: string, district: string)
    | QueryRequest(payload: QueryPayload)

  /** A query's outcome: a failed request, or the reply's echoed locators
      and yearly summaries. */
  datatype QueryAnswer =
    | NoAnswer
    | Answered(state: Option<string>, district: Option<string>, block: Option<string>, years: seq<YearSummary>)

  /** The API as the chat sees it; a list that is `None` is a request that
      throws. */
  datatype Remote = Remote(
    states: Option<seq<string>>,
    districts: string -> Option<seq<string>>,
    blocks: (string, string) -> Option<seq<string>>,
    query: QueryPayload -> QueryAnswer)

  /** The chat bubbles, by what they say. */
  datatype Message =
    | UserSaid(text: string)
    | Greeting
    | StatesUnavailable
    | StateNotFound(suggestions: string)
    | GotState(state: string)
    | AskYearPrompt
    | DistrictNotFound(state: string, suggestions: string)
    | YearNotUnderstood
    | Fetching
    | Results(location: string, years: seq<YearSummary>)
    | NoData
    | AnotherLocation
    | SomethingWentWrong

  const SelectValidState := "Select a valid state from the list."
  const ChooseStateFirst := "Choose a state first."
  const SelectValidDistrict := "Select a valid district from the list."
  const SelectStateAndDistrictFirst := "Select a state and district first."
  const SelectValidBlock := "Select a valid block from the list."
  const PleaseChooseState := "Please choose a state."
  const PickStateFromList := "Please pick a state from the list."
  const PickDistrictFromList := "Pick a district from the list."
  const SelectDistrictBeforeBlock := "Select a district before choosing a block."
  const PickBlockFromList := "Pick a block from the list."

  /** The page's state between events. */
  datatype Chat = Chat(
    phase: Phase,
    conversation: Conversation,
    statesCache: seq<string>,
    districtsCache: map<string, seq<string>>,
    blocksCache: map<string, seq<string>>,
    inputs: Inputs,
    assistError: string,
    transcript: seq<Message>,
    requests: seq<Request>)

  /** A loader's result: the new state and the list, `None` when the
      request threw. */
  datatype Loaded = Loaded(chat: Chat, list: Option<seq<string>>)

  /** A phase handler's result: the new state and whether it threw. */
  datatype Turn = Turn(chat: Chat, threw: bool)

  /** `resetConversation`. */
  function Reset(c: Chat, clearHistory: bool): Chat {
    c.(conversation := EmptyConversation, phase := AskState,
       transcript := (if clearHistory then [] else c.transcript) + [Greeting])
  }

  /** `loadStates`: the cached list while it is non-empty, else a request. */
  function LoadStates(c: Chat, r: Remote): Loaded {
    if |c.statesCache| > 0 then Loaded(c, Some(c.statesCache))
    else
      var c1 := c.(requests := c.requests + [StatesRequest]);
      match r.states
      case None => Loaded(c1, None)
      case Some(states) => Loaded(c1.(statesCache := states), Some(states))
  }

  /** `loadDistricts`: the cached list for the state, else a request. */
  function LoadDistricts(c: Chat, r: Remote, state: string): Loaded {
    if state in c.districtsCache then Loaded(c, Some(c.districtsCache[state]))
    else
      var c1 := c.(requests := c.requests + [DistrictsRequest(state)]);
      match r.districts(state)
      case None => Loaded(c1, None)
      case Some(districts) => Loaded(c1.(districtsCache := c.districtsCache[state := districts]), Some(districts))
  }

  /** The key of the block cache. */
  function BlocksKey(state: string, district: string): string {
    state + "|" + district
  }

  /** `loadBlocks`: the cached list for the key, else a request. */
  function LoadBlocks(c: Chat, r: Remote, state: string, district: string): Loaded {
    var key := BlocksKey(state, district);
    if key in c.blocksCache then Loaded(c, Some(c.blocksCache[key]))
    else
      var c1 := c.(requests := c.requests + [BlocksRequest(state, district)]);
      match r.blocks(state, district)
      case None => Loaded(c1, None)
      case Some(blocks) => Loaded(c1.(blocksCache := c.blocksCache[key := blocks]), Some(blocks))
  }

  /** The location line of a result: the state or "All states", then the
      district and block when present, separated by " › ". */
  function LocationText(state: Option<string>, district: Option<string>, block: Option<string>): string {
    Join([if Truthy(state) then state.value else "All states"]
         + (if Truthy(district) then [district.value] else [])
         + (if Truthy(block) then [block.value] else []), " \U{203A} ")
  }

  /** The bubble reporting a query's outcome: a failure and a reply
      without years read the same. */
  function Report(answer: QueryAnswer): (m: Message)
    ensures m == NoData <==> answer.NoAnswer? || |answer.years| == 0
    ensures m.Results? ==> m.years == answer.years
  {
    match answer
    case NoAnswer => NoData
    case Answered(state, district, block, years) =>
      if |years| == 0 then NoData else Results(LocationText(state, district, block), years)
  }

  /** The payload of a query: the record as it stands. */
  function PayloadOf(conversation: Conversation): QueryPayload {
    QueryPayload(conversation.state, conversation.district, conversation.block, conversation.years)
  }

  /** `runQuery`: send the record, report, then start a new conversation
      whatever happened. */
  function RunQuery(c: Chat, r: Remote): Chat {
    var payload := PayloadOf(c.conversation);
    c.(phase := AskState, conversation := EmptyConversation,
       transcript := c.transcript + [Fetching, Report(r.query(payload)), AnotherLocation],
       requests := c.requests + [QueryRequest(payload)])
  }

  /** `askYear`. */
  function AskYearNext(c: Chat): Chat {
    c.(phase := AskYear, transcript := c.transcript + [AskYearPrompt])
  }

  /** `handleAskYear`: the years from the message (or, skipping the prompt,
      those already chosen); without any, ask again. */
  function HandleAskYear(c: Chat, r: Remote, message: string, skipPrompt: bool): Chat {
    YearsChosen(c, r, if skipPrompt then c.conversation.years else ParseYears(message))
  }

  /** The end of `handleAskYear`, once the years are read. */
  function YearsChosen(c: Chat, r: Remote, years: Option<seq<int>>): Chat {
    if years.None? then c.(transcript := c.transcript + [YearNotUnderstood])
    else RunQuery(c.(conversation := c.conversation.(years := years), phase := ConfirmAndQuery), r)
  }

  /** The end of `handleAskState`, once the state is recorded and its
      districts loaded: record the district and years the message also
      names, then ask for the year (querying at once when the years are
      known) or for a district. A district recorded earlier is kept. */
  function AfterStateFound(c: Chat, r: Remote, message: string, state: string,
                           district: Option<string>, years: Option<seq<int>>, declined: bool): Chat {
    var conv1 := if district.Some? then c.conversation.(district := district) else c.conversation;
    var conv2 := if years.Some? then conv1.(years := years) else conv1;
    var c1 := c.(conversation := conv2);
    if Truthy(conv2.district) || declined then
      var c2 := AskYearNext(c1);
      if conv2.years.Some? then HandleAskYear(c2, r, message, true) else c2
    else
      c1.(phase := AskDistrictOrLevel, transcript := c1.transcript + [GotState(state)])
  }

  /** `handleAskState`: find the state the message names. */
  function HandleAskState(c: Chat, r: Remote, message: string): Turn {
    StatesForMessage(LoadStates(c, r), r, message)
  }

  function StatesForMessage(loaded: Loaded, r: Remote, message: string): Turn {
    if loaded.list.None? then Turn(loaded.chat, true)
    else StateDetected(loaded.chat, r, message, loaded.list.value, DetectMatch(message, loaded.list.value))
  }

  function StateDetected(c: Chat, r: Remote, message: string, states: seq<string>, found: Option<string>): Turn {
    match found
    case None =>
      Turn(c.(transcript := c.transcript + [StateNotFound(FormatSuggestions(states, 4))]), false)
    case Some(state) =>
      DistrictsForMessage(LoadDistricts(c.(conversation := c.conversation.(state := Some(state))), r, state),
                          r, message, state)
  }

  function DistrictsForMessage(loaded: Loaded, r: Remote, message: string, state: string): Turn {
    if loaded.list.None? then Turn(loaded.chat, true)
    else Turn(AfterStateFound(loaded.chat, r, message, state, DetectMatch(message, loaded.list.value),
                              ParseYears(message), WantsStateLevel(message)), false)
  }

  /** `handleAskDistrict`, which runs only once a state is recorded. */
  function HandleAskDistrict(c: Chat, r: Remote, message: string): Turn
    requires c.conversation.state.Some?
  {
    var state := c.conversation.state.value;
    DistrictReply(LoadDistricts(c, r, state), r, message, state)
  }

  function DistrictReply(loaded: Loaded, r: Remote, message: string, state: string): Turn {
    if loaded.list.None? then Turn(loaded.chat, true)
    else Turn(DistrictChosen(loaded.chat, state, loaded.list.value, WantsStateLevel(message),
                             DetectMatch(message, loaded.list.value)), false)
  }

  /** The end of `handleAskDistrict`: state level, a district, or a retry. */
  function DistrictChosen(c: Chat, state: string, districts: seq<string>, declined: bool, found: Option<string>): Chat {
    if declined then AskYearNext(c.(conversation := c.conversation.(district := None)))
    else match found
      case None => c.(transcript := c.transcript + [DistrictNotFound(state, FormatSuggestions(districts, 4))])
      case Some(district) => AskYearNext(c.(conversation := c.conversation.(district := Some(district))))
  }

  /** A phase in which the page waits for the user. */
  predicate Waiting(phase: Phase) {
    phase == AskState || phase == AskDistrictOrLevel || phase == AskYear
  }

  /** What the handlers rely on: asking for a district or a year happens
      only once a state is recorded. */
  predicate PhaseHasState(c: Chat) {
    (c.phase == AskDistrictOrLevel || c.phase == AskYear) ==> c.conversation.state.Some?
  }

  /** `handleUserInput`: a blank message is ignored; "start over" or
      "reset" restarts; otherwise the phase's handler runs, any other phase
      being handled as asking for a state, and a handler that throws ends
      in an apology. */
  function HandleUserInput(c: Chat, r: Remote, raw: string): Chat
    requires PhaseHasState(c)
  {
    HandleMessage(c, r, Trim(raw))
  }

  function HandleMessage(c: Chat, r: Remote, message: string): Chat
    requires PhaseHasState(c)
  {
    if message == "" then c
    else Dispatch(c.(transcript := c.transcript + [UserSaid(message)]), r, message, ToLower(message))
  }

  function Dispatch(c: Chat, r: Remote, message: string, lower: string): Chat
    requires PhaseHasState(c)
  {
    if lower == "start over" || lower == "reset" then Reset(c, false)
    else Recover(PhaseTurn(c, r, message))
  }

  /** The handler the phase selects. */
  function PhaseTurn(c: Chat, r: Remote, message: string): Turn
    requires PhaseHasState(c)
  {
    match c.phase
    case AskState => HandleAskState(c, r, message)
    case AskDistrictOrLevel => HandleAskDistrict(c, r, message)
    case AskYear => Turn(HandleAskYear(c, r, message, false), false)
    case _ => HandleAskState(c, r, message)
  }

  /** The `catch` of `handleUserInput`. */
  function Recover(turn: Turn): Chat {
    if turn.threw then turn.chat.(transcript := turn.chat.transcript + [SomethingWentWrong])
    else turn.chat
  }

  /** `handleStateAssistChange`. A request that throws ends the handler. */
  function HandleStateAssistChange(c: Chat, r: Remote): Chat {
    StateAssistTyped(c.(assistError := ""), r, Trim(c.inputs.state))
  }

  function StateAssistTyped(c: Chat, r: Remote, value: string): Chat {
    if value == "" then c.(inputs := c.inputs.(district := "", block := ""))
    else StateAssistLoaded(LoadStates(c, r), r, value)
  }

  function StateAssistLoaded(loaded: Loaded, r: Remote, value: string): Chat {
    if loaded.list.None? then loaded.chat
    else StateAssistFound(loaded.chat, r, FindExact(value, loaded.list.value))
  }

  function StateAssistFound(c: Chat, r: Remote, found: Option<string>): Chat {
    match found
    case None => c.(assistError := SelectValidState)
    case Some(state) =>
      LoadDistricts(c.(conversation := c.conversation.(state := Some(state), district := None, block := None),
                       inputs := c.inputs.(district := "", block := "")), r, state).chat
  }

  /** `handleDistrictAssistChange`. */
  function HandleDistrictAssistChange(c: Chat, r: Remote): Chat {
    DistrictAssistTyped(c.(assistError := ""), r, Trim(c.inputs.district))
  }

  function DistrictAssistTyped(c: Chat, r: Remote, value: string): Chat {
    var state := c.conversation.state;
    if !Truthy(state) then c.(assistError := ChooseStateFirst, inputs := c.inputs.(district := ""))
    else if value == "" then c.(conversation := c.conversation.(district := None), inputs := c.inputs.(block := ""))
    else DistrictAssistLoaded(LoadDistricts(c, r, state.value), r, state.value, value)
  }

  function DistrictAssistLoaded(loaded: Loaded, r: Remote, state: string, value: string): Chat {
    if loaded.list.None? then loaded.chat
    else DistrictAssistFound(loaded.chat, r, state, FindExact(value, loaded.list.value))
  }

  function DistrictAssistFound(c: Chat, r: Remote, state: string, found: Option<string>): Chat {
    match found
    case None => c.(assistError := SelectValidDistrict)
    case Some(district) =>
      LoadBlocks(c.(conversation := c.conversation.(district := Some(district), block := None),
                    inputs := c.inputs.(block := "")), r, state, district).chat
  }

  /** `handleBlockAssistChange`. */
  function HandleBlockAssistChange(c: Chat, r: Remote): Chat {
    BlockAssistTyped(c.(assistError := ""), r, Trim(c.inputs.block))
  }

  function BlockAssistTyped(c: Chat, r: Remote, value: string): Chat {
    var state := c.conversation.state;
    var district := c.conversation.district;
    if !Truthy(state) || !Truthy(district) then
      c.(assistError := SelectStateAndDistrictFirst, inputs := c.inputs.(block := ""))
    else if value == "" then c.(conversation := c.conversation.(block := None))
    else BlockAssistLoaded(LoadBlocks(c, r, state.value, district.value), value)
  }

  function BlockAssistLoaded(loaded: Loaded, value: string): Chat {
    if loaded.list.None? then loaded.chat
    else BlockAssistFound(loaded.chat, FindExact(value, loaded.list.value))
  }

  function BlockAssistFound(c: Chat, found: Option<string>): Chat {
    match found
    case None => c.(assistError := SelectValidBlock)
    case Some(block) => c.(conversation := c.conversation.(block := Some(block)))
  }

  /** The user bubble announcing an applied selection. */
  function SelectionText(state: string, district: Option<string>, block: Option<string>): string {
    "Using selection: " + state
    + (if Truthy(district) then ", " + district.value else "")
    + (if Truthy(block) then ", " + block.value else "")
  }

  /** `applyAssistSelection`: the three inputs, trimmed, must each be blank
      or name a listed entry (a block only under a district); then the
      record becomes the selection, without years, and the query runs. */
  function ApplyAssistSelection(c: Chat, r: Remote): Chat {
    ApplyTyped(c.(assistError := ""), r, Trim(c.inputs.state), Trim(c.inputs.district), Trim(c.inputs.block))
  }

  function ApplyTyped(c: Chat, r: Remote, stateValue: string, districtValue: string, blockValue: string): Chat {
    if stateValue == "" then c.(assistError := PleaseChooseState)
    else ApplyStatesLoaded(LoadStates(c, r), r, stateValue, districtValue, blockValue)
  }

  function ApplyStatesLoaded(loaded: Loaded, r: Remote, stateValue: string, districtValue: string, blockValue: string): Chat {
    if loaded.list.None? then loaded.chat
    else ApplyStateFound(loaded.chat, r, FindExact(stateValue, loaded.list.value), districtValue, blockValue)
  }

  function ApplyStateFound(c: Chat, r: Remote, found: Option<string>, districtValue: string, blockValue: string): Chat {
    match found
    case None => c.(assistError := PickStateFromList)
    case Some(state) => ApplyDistrict(c, r, state, districtValue, blockValue)
  }

  function ApplyDistrict(c: Chat, r: Remote, state: string, districtValue: string, blockValue: string): Chat {
    if districtValue == "" then ApplyBlock(c, r, state, None, blockValue)
    else ApplyDistrictsLoaded(LoadDistricts(c, r, state), r, state, districtValue, blockValue)
  }

  function ApplyDistrictsLoaded(loaded: Loaded, r: Remote, state: string, districtValue: string, blockValue: string): Chat {
    if loaded.list.None? then loaded.chat
    else ApplyDistrictFound(loaded.chat, r, state, FindExact(districtValue, loaded.list.value), blockValue)
  }

  function ApplyDistrictFound(c: Chat, r: Remote, state: string, found: Option<string>, blockValue: string): Chat {
    match found
    case None => c.(assistError := PickDistrictFromList)
    case Some(district) => ApplyBlock(c, r, state, Some(district), blockValue)
  }

  function ApplyBlock(c: Chat, r: Remote, state: string, district: Option<string>, blockValue: string): Chat {
    if blockValue == "" then Commit(c, r, state, district, None)
    else if !Truthy(district) then c.(assistError := SelectDistrictBeforeBlock)
    else ApplyBlocksLoaded(LoadBlocks(c, r, state, district.value), r, state, district, blockValue)
  }

  function ApplyBlocksLoaded(loaded: Loaded, r: Remote, state: string, district: Option<string>, blockValue: string): Chat {
    if loaded.list.None? then loaded.chat
    else ApplyBlockFound(loaded.chat, r, state, district, FindExact(blockValue, loaded.list.value))
  }

  function ApplyBlockFound(c: Chat, r: Remote, state: string, district: Option<string>, found: Option<string>): Chat {
    match found
    case None => c.(assistError := PickBlockFromList)
    case Some(block) => Commit(c, r, state, district, Some(block))
  }

  /** The end of `applyAssistSelection`. */
  function Commit(c: Chat, r: Remote, state: string, district: Option<string>, block: Option<string>): Chat {
    RunQuery(c.(conversation := Conversation(Some(state), district, block, None),
                transcript := c.transcript + [UserSaid(SelectionText(state, district, block))],
                phase := ConfirmAndQuery), r)
  }

  /** The page before anything happened. */
  const Blank := Chat(AskState, EmptyConversation, [], map[], map[], Inputs("", "", ""), "", [], [])

  /** The page after loading: a greeting, then the state list is fetched;
      if that fails the user is told. */
  function Start(r: Remote): Chat {
    StartLoaded(LoadStates(Reset(Blank, true), r))
  }

  function StartLoaded(loaded: Loaded): Chat {
    if loaded.list.None? then loaded.chat.(transcript := loaded.chat.transcript + [StatesUnavailable])
    else loaded.chat
  }
}
