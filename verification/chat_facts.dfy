/** What the chat dialogue guarantees: the caches answer what the API
    would, the page always comes back to a phase that waits for the user,
    and the typed and assisted paths send the queries they should. */
module ChatFacts {
  import opened Wrappers
  import opened JsText
  import opened DataService
  import opened ChatText
  import opened ChatFlow

  /** A name without the block-cache separator. */
  predicate NoBar(s: string) {
    forall i :: 0 <= i < |s| ==> s[i] != '|'
  }

  /** The block-cache key identifies its pair when one pair's names are
      free of `|`. */
  lemma BlocksKeyInjective(s: string, d: string, s': string, d': string)
    requires NoBar(s) && NoBar(d) && BlocksKey(s, d) == BlocksKey(s', d')
    ensures s == s' && d == d'
  {
    var k := BlocksKey(s, d);
    assert k == s' + "|" + d';
    assert k[|s|] == '|';
    assert k[|s'|] == '|';
    assert |s| == |s'|;
    assert s == k[..|s|] == s';
    assert d == k[|s| + 1..] == d';
  }

  /** The caches hold what the API answers. For blocks this is promised
      only for names free of `|`, the key's separator. */
  ghost predicate CachesAgree(c: Chat, r: Remote) {
    && (|c.statesCache| > 0 ==> r.states == Some(c.statesCache))
    && (forall s :: s in c.districtsCache ==> r.districts(s) == Some(c.districtsCache[s]))
    && (forall s, d :: NoBar(s) && NoBar(d) && BlocksKey(s, d) in c.blocksCache ==>
          r.blocks(s, d) == Some(c.blocksCache[BlocksKey(s, d)]))
  }

  /** The loaders touch only the caches and the request log. */
  predicate OnlyCaches(c: Chat, d: Chat) {
    d.phase == c.phase && d.conversation == c.conversation && d.inputs == c.inputs
    && d.assistError == c.assistError && d.transcript == c.transcript
  }

  lemma LoadersOnlyCaches(c: Chat, r: Remote, state: string, district: string)
    ensures OnlyCaches(c, LoadStates(c, r).chat)
    ensures OnlyCaches(c, LoadDistricts(c, r, state).chat)
    ensures OnlyCaches(c, LoadBlocks(c, r, state, district).chat)
  {
  }

  /** Loading the states gives what the API gives, and keeps the caches
      faithful. */
  lemma LoadStatesTransparent(c: Chat, r: Remote)
    requires CachesAgree(c, r)
    ensures LoadStates(c, r).list == r.states
    ensures CachesAgree(LoadStates(c, r).chat, r)
  {
  }

  lemma LoadDistrictsTransparent(c: Chat, r: Remote, state: string)
    requires CachesAgree(c, r)
    ensures LoadDistricts(c, r, state).list == r.districts(state)
    ensures CachesAgree(LoadDistricts(c, r, state).chat, r)
  {
  }

  /** Loading blocks keeps the caches faithful; the list is the API's
      when the names are free of `|`. */
  lemma LoadBlocksTransparent(c: Chat, r: Remote, state: string, district: string)
    requires CachesAgree(c, r)
    ensures NoBar(state) && NoBar(district) ==> LoadBlocks(c, r, state, district).list == r.blocks(state, district)
    ensures CachesAgree(LoadBlocks(c, r, state, district).chat, r)
  {
    var key := BlocksKey(state, district);
    if key !in c.blocksCache && r.blocks(state, district).Some? {
      var d := LoadBlocks(c, r, state, district).chat;
      forall s, t | NoBar(s) && NoBar(t) && BlocksKey(s, t) in d.blocksCache
        ensures r.blocks(s, t) == Some(d.blocksCache[BlocksKey(s, t)])
      {
        if BlocksKey(s, t) == key {
          BlocksKeyInjective(s, t, state, district);
        }
      }
    }
  }

  /** Two pairs that spell the same key share one cache entry: blocks
      fetched for one pair are answered for the other without a request. */
  lemma BlocksCacheConflates(c: Chat, r: Remote, blocks: seq<string>)
    requires c.blocksCache == map[] && r.blocks("a|b", "c") == Some(blocks)
    ensures var first := LoadBlocks(c, r, "a|b", "c").chat;
      && LoadBlocks(first, r, "a", "b|c").list == Some(blocks)
      && LoadBlocks(first, r, "a", "b|c").chat.requests == c.requests + [BlocksRequest("a|b", "c")]
  {
    assert BlocksKey("a|b", "c") == BlocksKey("a", "b|c");
  }

  /** A non-empty state list is fetched once; an empty one is fetched
      again on the next load. */
  lemma LoadStatesOnce(c: Chat, r: Remote)
    requires c.statesCache == [] && r.states.Some?
    ensures var first := LoadStates(c, r).chat;
      && first.requests == c.requests + [StatesRequest]
      && (|r.states.value| > 0 ==> LoadStates(first, r) == Loaded(first, r.states))
      && (r.states.value == [] ==> LoadStates(first, r).chat.requests == first.requests + [StatesRequest])
  {
  }

  /** A district list is fetched once per state: a second load sends
      nothing, changes nothing and gives the list the first load gave. */
  lemma LoadDistrictsOnce(c: Chat, r: Remote, state: string)
    requires r.districts(state).Some?
    ensures var first := LoadDistricts(c, r, state).chat;
      && LoadDistricts(first, r, state).chat == first
      && LoadDistricts(first, r, state).list == LoadDistricts(c, r, state).list
      && (state !in c.districtsCache ==> first.requests == c.requests + [DistrictsRequest(state)])
  {
  }

  /** Between events the page waits for the user, asks for a district or a
      year only with a state recorded, and its caches are faithful. */
  ghost predicate Settled(c: Chat, r: Remote) {
    Waiting(c.phase) && PhaseHasState(c) && CachesAgree(c, r)
  }

  /** Events only add to the transcript and to the request log. */
  predicate Extends(c: Chat, d: Chat) {
    c.transcript <= d.transcript && c.requests <= d.requests
  }

  /** The page starts settled, with a greeting and one request. */
  lemma StartSettled(r: Remote)
    ensures Settled(Start(r), r)
    ensures Start(r).requests == [StatesRequest]
    ensures Start(r).transcript == (if r.states.None? then [Greeting, StatesUnavailable] else [Greeting])
  {
  }

  /** `runQuery` sends the record as it stands, reports between "fetching"
      and the invitation to go on, and starts a new conversation whatever
      the outcome; the caches, inputs and selector error stay as they were. */
  lemma RunQueryStartsOver(c: Chat, r: Remote)
    ensures var d := RunQuery(c, r);
      && d.phase == AskState && d.conversation == EmptyConversation
      && d.requests == c.requests + [QueryRequest(PayloadOf(c.conversation))]
      && |d.transcript| == |c.transcript| + 3 && d.transcript[..|c.transcript|] == c.transcript
      && d.transcript[|c.transcript|] == Fetching && d.transcript[|c.transcript| + 2] == AnotherLocation
      && d.transcript[|c.transcript| + 1] == Report(r.query(PayloadOf(c.conversation)))
      && d.statesCache == c.statesCache && d.districtsCache == c.districtsCache
      && d.blocksCache == c.blocksCache && d.inputs == c.inputs && d.assistError == c.assistError
  {
  }

  lemma RunQuerySettled(c: Chat, r: Remote)
    requires CachesAgree(c, r)
    ensures Settled(RunQuery(c, r), r) && Extends(c, RunQuery(c, r))
  {
    RunQueryStartsOver(c, r);
  }

  lemma YearsChosenSettled(c: Chat, r: Remote, years: Option<seq<int>>)
    requires Settled(c, r)
    ensures Settled(YearsChosen(c, r, years), r) && Extends(c, YearsChosen(c, r, years))
  {
    if years.Some? {
      RunQuerySettled(c.(conversation := c.conversation.(years := years), phase := ConfirmAndQuery), r);
    }
  }

  lemma HandleAskYearSettled(c: Chat, r: Remote, message: string, skipPrompt: bool)
    requires Settled(c, r)
    ensures Settled(HandleAskYear(c, r, message, skipPrompt), r)
    ensures Extends(c, HandleAskYear(c, r, message, skipPrompt))
  {
    YearsChosenSettled(c, r, if skipPrompt then c.conversation.years else ParseYears(message));
  }

  lemma AfterStateFoundSettled(c: Chat, r: Remote, message: string, state: string,
                               district: Option<string>, years: Option<seq<int>>, declined: bool)
    requires Waiting(c.phase) && CachesAgree(c, r) && c.conversation.state == Some(state)
    ensures Settled(AfterStateFound(c, r, message, state, district, years, declined), r)
    ensures Extends(c, AfterStateFound(c, r, message, state, district, years, declined))
  {
    var conv1 := if district.Some? then c.conversation.(district := district) else c.conversation;
    var conv2 := if years.Some? then conv1.(years := years) else conv1;
    var c1 := c.(conversation := conv2);
    if (Truthy(conv2.district) || declined) && conv2.years.Some? {
      HandleAskYearSettled(AskYearNext(c1), r, message, true);
    }
  }

  lemma DistrictsForMessageSettled(loaded: Loaded, r: Remote, message: string, state: string)
    requires Waiting(loaded.chat.phase) && CachesAgree(loaded.chat, r)
    requires loaded.chat.conversation.state == Some(state)
    ensures Settled(DistrictsForMessage(loaded, r, message, state).chat, r)
    ensures Extends(loaded.chat, DistrictsForMessage(loaded, r, message, state).chat)
  {
    if loaded.list.Some? {
      AfterStateFoundSettled(loaded.chat, r, message, state, DetectMatch(message, loaded.list.value),
                             ParseYears(message), WantsStateLevel(message));
    }
  }

  lemma StateDetectedSettled(c: Chat, r: Remote, message: string, states: seq<string>, found: Option<string>)
    requires Settled(c, r)
    ensures Settled(StateDetected(c, r, message, states, found).chat, r)
    ensures Extends(c, StateDetected(c, r, message, states, found).chat)
  {
    if found.Some? {
      var c1 := c.(conversation := c.conversation.(state := Some(found.value)));
      LoadDistrictsTransparent(c1, r, found.value);
      DistrictsForMessageSettled(LoadDistricts(c1, r, found.value), r, message, found.value);
    }
  }

  lemma HandleAskStateSettled(c: Chat, r: Remote, message: string)
    requires Settled(c, r)
    ensures Settled(HandleAskState(c, r, message).chat, r)
    ensures Extends(c, HandleAskState(c, r, message).chat)
  {
    LoadStatesTransparent(c, r);
    var loaded := LoadStates(c, r);
    if loaded.list.Some? {
      StateDetectedSettled(loaded.chat, r, message, loaded.list.value, DetectMatch(message, loaded.list.value));
    }
  }

  lemma DistrictChosenSettled(c: Chat, r: Remote, state: string, districts: seq<string>, declined: bool, found: Option<string>)
    requires Settled(c, r) && c.conversation.state.Some?
    ensures Settled(DistrictChosen(c, state, districts, declined, found), r)
    ensures Extends(c, DistrictChosen(c, state, districts, declined, found))
  {
  }

  lemma HandleAskDistrictSettled(c: Chat, r: Remote, message: string)
    requires Settled(c, r) && c.conversation.state.Some?
    ensures Settled(HandleAskDistrict(c, r, message).chat, r)
    ensures Extends(c, HandleAskDistrict(c, r, message).chat)
  {
    var state := c.conversation.state.value;
    LoadDistrictsTransparent(c, r, state);
    var loaded := LoadDistricts(c, r, state);
    if loaded.list.Some? {
      DistrictChosenSettled(loaded.chat, r, state, loaded.list.value, WantsStateLevel(message),
                            DetectMatch(message, loaded.list.value));
    }
  }

  lemma PhaseTurnSettled(c: Chat, r: Remote, message: string)
    requires Settled(c, r)
    ensures Settled(PhaseTurn(c, r, message).chat, r)
    ensures Extends(c, PhaseTurn(c, r, message).chat)
  {
    if c.phase == AskState {
      HandleAskStateSettled(c, r, message);
    } else if c.phase == AskDistrictOrLevel {
      HandleAskDistrictSettled(c, r, message);
    } else {
      HandleAskYearSettled(c, r, message, false);
    }
  }

  /** Every typed message leaves the page settled, only adding to the
      transcript and the request log. */
  lemma HandleUserInputSettled(c: Chat, r: Remote, raw: string)
    requires Settled(c, r)
    ensures Settled(HandleUserInput(c, r, raw), r)
    ensures Extends(c, HandleUserInput(c, r, raw))
  {
    HandleMessageSettled(c, r, Trim(raw));
  }

  lemma HandleMessageSettled(c: Chat, r: Remote, message: string)
    requires Settled(c, r)
    ensures Settled(HandleMessage(c, r, message), r)
    ensures Extends(c, HandleMessage(c, r, message))
  {
    if message != "" {
      var c1 := c.(transcript := c.transcript + [UserSaid(message)]);
      var lower := ToLower(message);
      if !(lower == "start over" || lower == "reset") {
        PhaseTurnSettled(c1, r, message);
      }
    }
  }

  /** An assisted handler's effect: it keeps the page settled, never
      speaks in the chat, keeps the phase and only adds requests. */
  ghost predicate Quiet(c: Chat, d: Chat, r: Remote) {
    Settled(d, r) && d.transcript == c.transcript && d.phase == c.phase && c.requests <= d.requests
  }

  lemma StateAssistFoundQuiet(c: Chat, r: Remote, found: Option<string>)
    requires Settled(c, r)
    ensures Quiet(c, StateAssistFound(c, r, found), r)
  {
    if found.Some? {
      LoadDistrictsTransparent(
        c.(conversation := c.conversation.(state := Some(found.value), district := None, block := None),
           inputs := c.inputs.(district := "", block := "")), r, found.value);
    }
  }

  lemma StateAssistTypedQuiet(c: Chat, r: Remote, value: string)
    requires Settled(c, r)
    ensures Quiet(c, StateAssistTyped(c, r, value), r)
  {
    if value != "" {
      LoadStatesTransparent(c, r);
      var loaded := LoadStates(c, r);
      if loaded.list.Some? {
        StateAssistFoundQuiet(loaded.chat, r, FindExact(value, loaded.list.value));
      }
    }
  }

  lemma StateAssistSettled(c: Chat, r: Remote)
    requires Settled(c, r)
    ensures Quiet(c, HandleStateAssistChange(c, r), r)
  {
    StateAssistTypedQuiet(c.(assistError := ""), r, Trim(c.inputs.state));
  }

  lemma DistrictAssistFoundQuiet(c: Chat, r: Remote, state: string, found: Option<string>)
    requires Settled(c, r)
    ensures Quiet(c, DistrictAssistFound(c, r, state, found), r)
  {
    if found.Some? {
      LoadBlocksTransparent(
        c.(conversation := c.conversation.(district := Some(found.value), block := None),
           inputs := c.inputs.(block := "")), r, state, found.value);
    }
  }

  lemma DistrictAssistLoadedQuiet(loaded: Loaded, r: Remote, state: string, value: string)
    requires Settled(loaded.chat, r)
    ensures Quiet(loaded.chat, DistrictAssistLoaded(loaded, r, state, value), r)
  {
    if loaded.list.Some? {
      DistrictAssistFoundQuiet(loaded.chat, r, state, FindExact(value, loaded.list.value));
    }
  }

  lemma DistrictAssistTypedQuiet(c: Chat, r: Remote, value: string)
    requires Settled(c, r)
    ensures Quiet(c, DistrictAssistTyped(c, r, value), r)
  {
    var state := c.conversation.state;
    if Truthy(state) && value != "" {
      LoadDistrictsTransparent(c, r, state.value);
      LoadersOnlyCaches(c, r, state.value, "");
      DistrictAssistLoadedQuiet(LoadDistricts(c, r, state.value), r, state.value, value);
    }
  }

  lemma DistrictAssistSettled(c: Chat, r: Remote)
    requires Settled(c, r)
    ensures Quiet(c, HandleDistrictAssistChange(c, r), r)
  {
    DistrictAssistTypedQuiet(c.(assistError := ""), r, Trim(c.inputs.district));
  }

  lemma BlockAssistLoadedQuiet(loaded: Loaded, value: string, r: Remote)
    requires Settled(loaded.chat, r)
    ensures Quiet(loaded.chat, BlockAssistLoaded(loaded, value), r)
  {
  }

  lemma BlockAssistTypedQuiet(c: Chat, r: Remote, value: string)
    requires Settled(c, r)
    ensures Quiet(c, BlockAssistTyped(c, r, value), r)
  {
    var state := c.conversation.state;
    var district := c.conversation.district;
    if Truthy(state) && Truthy(district) && value != "" {
      LoadBlocksTransparent(c, r, state.value, district.value);
      BlockAssistLoadedQuiet(LoadBlocks(c, r, state.value, district.value), value, r);
    }
  }

  lemma BlockAssistSettled(c: Chat, r: Remote)
    requires Settled(c, r)
    ensures Quiet(c, HandleBlockAssistChange(c, r), r)
  {
    BlockAssistTypedQuiet(c.(assistError := ""), r, Trim(c.inputs.block));
  }

  lemma CommitSettled(c: Chat, r: Remote, state: string, district: Option<string>, block: Option<string>)
    requires CachesAgree(c, r)
    ensures Settled(Commit(c, r, state, district, block), r)
    ensures Extends(c, Commit(c, r, state, district, block))
  {
    RunQuerySettled(c.(conversation := Conversation(Some(state), district, block, None),
                       transcript := c.transcript + [UserSaid(SelectionText(state, district, block))],
                       phase := ConfirmAndQuery), r);
  }

  lemma ApplyBlockFoundSettled(c: Chat, r: Remote, state: string, district: Option<string>, found: Option<string>)
    requires Settled(c, r)
    ensures Settled(ApplyBlockFound(c, r, state, district, found), r)
    ensures Extends(c, ApplyBlockFound(c, r, state, district, found))
  {
    if found.Some? {
      CommitSettled(c, r, state, district, found);
    }
  }

  lemma ApplyBlocksLoadedSettled(loaded: Loaded, r: Remote, state: string, district: Option<string>, blockValue: string)
    requires Settled(loaded.chat, r)
    ensures Settled(ApplyBlocksLoaded(loaded, r, state, district, blockValue), r)
    ensures Extends(loaded.chat, ApplyBlocksLoaded(loaded, r, state, district, blockValue))
  {
    if loaded.list.Some? {
      ApplyBlockFoundSettled(loaded.chat, r, state, district, FindExact(blockValue, loaded.list.value));
    }
  }

  lemma ApplyBlockSettled(c: Chat, r: Remote, state: string, district: Option<string>, blockValue: string)
    requires Settled(c, r)
    ensures Settled(ApplyBlock(c, r, state, district, blockValue), r)
    ensures Extends(c, ApplyBlock(c, r, state, district, blockValue))
  {
    if blockValue == "" {
      CommitSettled(c, r, state, district, None);
    } else if Truthy(district) {
      LoadBlocksTransparent(c, r, state, district.value);
      ApplyBlocksLoadedSettled(LoadBlocks(c, r, state, district.value), r, state, district, blockValue);
    }
  }

  lemma ApplyDistrictFoundSettled(c: Chat, r: Remote, state: string, found: Option<string>, blockValue: string)
    requires Settled(c, r)
    ensures Settled(ApplyDistrictFound(c, r, state, found, blockValue), r)
    ensures Extends(c, ApplyDistrictFound(c, r, state, found, blockValue))
  {
    if found.Some? {
      ApplyBlockSettled(c, r, state, found, blockValue);
    }
  }

  lemma ApplyDistrictsLoadedSettled(loaded: Loaded, r: Remote, state: string, districtValue: string, blockValue: string)
    requires Settled(loaded.chat, r)
    ensures Settled(ApplyDistrictsLoaded(loaded, r, state, districtValue, blockValue), r)
    ensures Extends(loaded.chat, ApplyDistrictsLoaded(loaded, r, state, districtValue, blockValue))
  {
    if loaded.list.Some? {
      ApplyDistrictFoundSettled(loaded.chat, r, state, FindExact(districtValue, loaded.list.value), blockValue);
    }
  }

  lemma ApplyDistrictSettled(c: Chat, r: Remote, state: string, districtValue: string, blockValue: string)
    requires Settled(c, r)
    ensures Settled(ApplyDistrict(c, r, state, districtValue, blockValue), r)
    ensures Extends(c, ApplyDistrict(c, r, state, districtValue, blockValue))
  {
    if districtValue == "" {
      ApplyBlockSettled(c, r, state, None, blockValue);
    } else {
      LoadDistrictsTransparent(c, r, state);
      LoadersOnlyCaches(c, r, state, "");
      ApplyDistrictsLoadedSettled(LoadDistricts(c, r, state), r, state, districtValue, blockValue);
    }
  }

  lemma ApplyStateFoundSettled(c: Chat, r: Remote, found: Option<string>, districtValue: string, blockValue: string)
    requires Settled(c, r)
    ensures Settled(ApplyStateFound(c, r, found, districtValue, blockValue), r)
    ensures Extends(c, ApplyStateFound(c, r, found, districtValue, blockValue))
  {
    if found.Some? {
      ApplyDistrictSettled(c, r, found.value, districtValue, blockValue);
    }
  }

  lemma ApplyTypedSettled(c: Chat, r: Remote, stateValue: string, districtValue: string, blockValue: string)
    requires Settled(c, r)
    ensures Settled(ApplyTyped(c, r, stateValue, districtValue, blockValue), r)
    ensures Extends(c, ApplyTyped(c, r, stateValue, districtValue, blockValue))
  {
    if stateValue != "" {
      LoadStatesTransparent(c, r);
      var loaded := LoadStates(c, r);
      if loaded.list.Some? {
        ApplyStateFoundSettled(loaded.chat, r, FindExact(stateValue, loaded.list.value), districtValue, blockValue);
      }
    }
  }

  /** Applying the selection keeps the page settled. */
  lemma ApplySettled(c: Chat, r: Remote)
    requires Settled(c, r)
    ensures Settled(ApplyAssistSelection(c, r), r)
    ensures Extends(c, ApplyAssistSelection(c, r))
  {
    ApplyTypedSettled(c.(assistError := ""), r, Trim(c.inputs.state), Trim(c.inputs.district), Trim(c.inputs.block));
  }

  /** A message that is blank once trimmed changes nothing. */
  lemma BlankMessageIgnored(c: Chat, r: Remote, raw: string)
    requires PhaseHasState(c) && AllWhitespace(raw)
    ensures HandleUserInput(c, r, raw) == c
  {
  }

  /** The words that restart, once trimmed and lower-cased. */
  predicate IsResetWord(lower: string) {
    lower == "reset" || lower == "start over"
  }

  lemma ResetMessageRestarts(c: Chat, r: Remote, message: string)
    requires PhaseHasState(c) && IsResetWord(ToLower(message))
    ensures HandleMessage(c, r, message) == Reset(c.(transcript := c.transcript + [UserSaid(message)]), false)
  {
    assert |message| == |ToLower(message)|;
  }

  /** "reset" or "start over", in any case and with any padding, restarts
      the conversation without clearing the transcript or sending anything. */
  lemma ResetWordsRestart(c: Chat, r: Remote, raw: string)
    requires PhaseHasState(c) && IsResetWord(ToLower(Trim(raw)))
    ensures var d := HandleUserInput(c, r, raw);
      && d.phase == AskState && d.conversation == EmptyConversation
      && d.requests == c.requests
      && d.transcript == c.transcript + [UserSaid(Trim(raw)), Greeting]
  {
    ResetMessageRestarts(c, r, Trim(raw));
  }

  /** The chat after the user's bubble for a message. */
  function Said(c: Chat, message: string): Chat {
    c.(transcript := c.transcript + [UserSaid(message)])
  }

  /** While the chat asks for a state, a message is matched against the
      state list. */
  lemma AtAskState(c: Chat, r: Remote, message: string)
    requires c.phase == AskState && message != "" && !IsResetWord(ToLower(message))
    ensures HandleMessage(c, r, message) == Recover(HandleAskState(Said(c, message), r, message))
  {
  }

  /** Once a state is named and its districts load, the rest of the
      message is read against them. */
  lemma NamedState(c: Chat, r: Remote, message: string, states: seq<string>, state: string)
    requires CachesAgree(c, r) && r.districts(state).Some?
    ensures var c1 := LoadDistricts(c.(conversation := c.conversation.(state := Some(state))), r, state).chat;
      && c1.phase == c.phase && c1.conversation == c.conversation.(state := Some(state))
      && c1.transcript == c.transcript
      && StateDetected(c, r, message, states, Some(state))
         == Turn(AfterStateFound(c1, r, message, state, DetectMatch(message, r.districts(state).value),
                                 ParseYears(message), WantsStateLevel(message)), false)
  {
    LoadDistrictsTransparent(c.(conversation := c.conversation.(state := Some(state))), r, state);
  }

  /** The state list, as loaded before a message is read. */
  lemma StatesLoaded(c: Chat, r: Remote, message: string)
    requires CachesAgree(c, r) && r.states.Some?
    ensures var c1 := LoadStates(c, r).chat;
      && c1.phase == c.phase && c1.conversation == c.conversation && c1.transcript == c.transcript
      && CachesAgree(c1, r)
      && HandleAskState(c, r, message)
         == StateDetected(c1, r, message, r.states.value, DetectMatch(message, r.states.value))
  {
    LoadStatesTransparent(c, r);
  }

  /** Asked for a state, a message that names none gets the suggestions
      and changes nothing else the dialogue depends on. */
  lemma UnknownStateSuggests(c: Chat, r: Remote, message: string, states: seq<string>)
    requires CachesAgree(c, r) && c.phase == AskState && r.states == Some(states)
    requires message != "" && !IsResetWord(ToLower(message))
    requires DetectMatch(message, states).None?
    ensures var d := HandleMessage(c, r, message);
      && d.phase == AskState && d.conversation == c.conversation
      && d.transcript == c.transcript + [UserSaid(message), StateNotFound(FormatSuggestions(states, 4))]
  {
    AtAskState(c, r, message);
    StatesLoaded(Said(c, message), r, message);
  }

  /** Asked for a state, a message naming a state, one of its districts and
      a year sends the query for exactly those, carrying any block recorded
      earlier, and starts over. */
  lemma FullSentenceQueries(c: Chat, r: Remote, message: string, state: string, district: string, years: seq<int>)
    requires CachesAgree(c, r) && c.phase == AskState && r.states.Some?
    requires message != "" && !IsResetWord(ToLower(message))
    requires DetectMatch(message, r.states.value) == Some(state)
    requires r.districts(state).Some? && DetectMatch(message, r.districts(state).value) == Some(district)
    requires ParseYears(message) == Some(years)
    ensures var d := HandleMessage(c, r, message);
      && d.requests == HandleAskState(Said(c, message), r, message).chat.requests
      && d.requests[|d.requests| - 1]
           == QueryRequest(QueryPayload(Some(state), Some(district), c.conversation.block, Some(years)))
      && d.phase == AskState && d.conversation == EmptyConversation
  {
    AtAskState(c, r, message);
    StatesLoaded(Said(c, message), r, message);
    NamedState(LoadStates(Said(c, message), r).chat, r, message, r.states.value, state);
  }

  /** Asked for a state, a message naming a state, declining a district
      and giving years sends the state-level query at once, with whatever
      district and block were recorded before (none in a new conversation). */
  lemma StateLevelSentenceQueries(c: Chat, r: Remote, message: string, state: string, years: seq<int>)
    requires CachesAgree(c, r) && c.phase == AskState && r.states.Some?
    requires message != "" && !IsResetWord(ToLower(message))
    requires DetectMatch(message, r.states.value) == Some(state)
    requires r.districts(state).Some? && DetectMatch(message, r.districts(state).value).None?
    requires WantsStateLevel(message) && ParseYears(message) == Some(years)
    ensures var d := HandleMessage(c, r, message);
      && d.requests[|d.requests| - 1]
           == QueryRequest(QueryPayload(Some(state), c.conversation.district, c.conversation.block, Some(years)))
      && d.phase == AskState && d.conversation == EmptyConversation
  {
    AtAskState(c, r, message);
    StatesLoaded(Said(c, message), r, message);
    NamedState(LoadStates(Said(c, message), r).chat, r, message, r.states.value, state);
  }

  /** With no district recorded, named or declined, the chat asks for one. */
  lemma NoDistrictAsksForOne(c: Chat, r: Remote, message: string, state: string, years: Option<seq<int>>)
    requires !Truthy(c.conversation.district)
    ensures var d := AfterStateFound(c, r, message, state, None, years, false);
      && d.phase == AskDistrictOrLevel && d.conversation.state == c.conversation.state
      && d.transcript == c.transcript + [GotState(state)]
  {
  }

  /** Asked for a state, a message naming only a state asks for a district,
      unless a district is already recorded or the user declines one. */
  lemma StateOnlyAsksDistrict(c: Chat, r: Remote, message: string, state: string)
    requires CachesAgree(c, r) && c.phase == AskState && r.states.Some?
    requires message != "" && !IsResetWord(ToLower(message))
    requires DetectMatch(message, r.states.value) == Some(state)
    requires r.districts(state).Some? && DetectMatch(message, r.districts(state).value).None?
    requires !Truthy(c.conversation.district) && !WantsStateLevel(message)
    ensures var d := HandleMessage(c, r, message);
      && d.phase == AskDistrictOrLevel && d.conversation.state == Some(state)
      && d.transcript[|d.transcript| - 1] == GotState(state)
  {
    AtAskState(c, r, message);
    StatesLoaded(Said(c, message), r, message);
    var c1 := LoadStates(Said(c, message), r).chat;
    NamedState(c1, r, message, r.states.value, state);
    var c2 := LoadDistricts(c1.(conversation := c1.conversation.(state := Some(state))), r, state).chat;
    NoDistrictAsksForOne(c2, r, message, state, ParseYears(message));
  }

  /** A district picked with the selectors while the chat asks for a state
      survives the typed state: the chat skips asking for a district. */
  lemma AssistedDistrictSurvives(c: Chat, r: Remote, message: string, state: string, district: string)
    requires CachesAgree(c, r) && c.phase == AskState && r.states.Some?
    requires message != "" && !IsResetWord(ToLower(message))
    requires DetectMatch(message, r.states.value) == Some(state)
    requires r.districts(state).Some? && DetectMatch(message, r.districts(state).value).None?
    requires ParseYears(message).None? && c.conversation.years.None?
    requires c.conversation.district == Some(district) && district != ""
    ensures var d := HandleMessage(c, r, message);
      && d.phase == AskYear && d.conversation.state == Some(state) && d.conversation.district == Some(district)
  {
    AtAskState(c, r, message);
    StatesLoaded(Said(c, message), r, message);
    NamedState(LoadStates(Said(c, message), r).chat, r, message, r.states.value, state);
  }

  /** The end of the state turn: the record takes the district and years
      the message names, keeping earlier ones otherwise. With a district or
      a declined one, the chat asks for the year, and queries at once when
      the years are known; without either, it asks for a district. */
  lemma AfterStateFoundOutcomes(c: Chat, r: Remote, message: string, state: string,
                                found: Option<string>, years: Option<seq<int>>, declined: bool)
    ensures var district := if found.Some? then found else c.conversation.district;
      var ys := if years.Some? then years else c.conversation.years;
      var rec := c.conversation.(district := district, years := ys);
      var d := AfterStateFound(c, r, message, state, found, years, declined);
      && ((Truthy(district) || declined) && ys.None? ==>
            && d.phase == AskYear && d.conversation == rec
            && d.transcript == c.transcript + [AskYearPrompt] && d.requests == c.requests)
      && ((Truthy(district) || declined) && ys.Some? ==>
            && d.phase == AskState && d.conversation == EmptyConversation
            && d.transcript == c.transcript + [AskYearPrompt, Fetching, Report(r.query(PayloadOf(rec))), AnotherLocation]
            && d.requests == c.requests + [QueryRequest(PayloadOf(rec))])
      && (!Truthy(district) && !declined ==>
            && d.phase == AskDistrictOrLevel && d.conversation == rec
            && d.transcript == c.transcript + [GotState(state)] && d.requests == c.requests)
  {
  }

  /** Asked for a state, a message naming a listed state and then a
      district of it, or declining one, with no years known, records the
      state with the district named (or the one recorded before) and asks
      for the year. */
  lemma HandleAskStateAsksYear(c: Chat, r: Remote, message: string, state: string)
    requires CachesAgree(c, r) && c.phase == AskState && r.states.Some?
    requires message != "" && !IsResetWord(ToLower(message))
    requires DetectMatch(message, r.states.value) == Some(state) && r.districts(state).Some?
    requires ParseYears(message).None? && c.conversation.years.None?
    ensures var found := DetectMatch(message, r.districts(state).value);
      var district := if found.Some? then found else c.conversation.district;
      var d := HandleMessage(c, r, message);
      Truthy(district) || WantsStateLevel(message) ==>
        && d.phase == AskYear && d.conversation == c.conversation.(state := Some(state), district := district)
        && d.transcript == c.transcript + [UserSaid(message), AskYearPrompt]
  {
    StateTurnReaches(c, r, message, state);
    AfterStateFoundOutcomes(AfterStateLoads(c, r, message, state), r, message, state,
                            DetectMatch(message, r.districts(state).value), None, WantsStateLevel(message));
  }

  /** Asked for a state, a message naming a listed state and then a
      district of it, or declining one, with years known sends the record
      at once: the state, the district named (or the one recorded before),
      the block recorded before and the years, then starts over. */
  lemma HandleAskStateQueriesAtOnce(c: Chat, r: Remote, message: string, state: string)
    requires CachesAgree(c, r) && c.phase == AskState && r.states.Some?
    requires message != "" && !IsResetWord(ToLower(message))
    requires DetectMatch(message, r.states.value) == Some(state) && r.districts(state).Some?
    ensures var found := DetectMatch(message, r.districts(state).value);
      var district := if found.Some? then found else c.conversation.district;
      var ys := if ParseYears(message).Some? then ParseYears(message) else c.conversation.years;
      var payload := QueryPayload(Some(state), district, c.conversation.block, ys);
      var d := HandleMessage(c, r, message);
      (Truthy(district) || WantsStateLevel(message)) && ys.Some? ==>
        && d.phase == AskState && d.conversation == EmptyConversation
        && LastRequest(d) == Some(QueryRequest(payload))
        && d.transcript == c.transcript + [UserSaid(message), AskYearPrompt, Fetching,
                                           Report(r.query(payload)), AnotherLocation]
  {
    StateTurnReaches(c, r, message, state);
    var t := c.transcript + [UserSaid(message)];
    AfterStateQueries(AfterStateLoads(c, r, message, state), r, message, state,
                      DetectMatch(message, r.districts(state).value), ParseYears(message), WantsStateLevel(message),
                      c.conversation, t);
    assert forall m1: Message, m2, m3, m4 :: t + [m1, m2, m3, m4] == c.transcript + [UserSaid(message), m1, m2, m3, m4];
  }

  /** The query case of `AfterStateFoundOutcomes`, over the record and the
      transcript before the state was recorded. */
  lemma AfterStateQueries(c: Chat, r: Remote, message: string, state: string,
                          found: Option<string>, years: Option<seq<int>>, declined: bool,
                          before: Conversation, t: seq<Message>)
    requires c.conversation == before.(state := Some(state)) && c.transcript == t
    ensures var district := if found.Some? then found else before.district;
      var ys := if years.Some? then years else before.years;
      var payload := QueryPayload(Some(state), district, before.block, ys);
      var d := AfterStateFound(c, r, message, state, found, years, declined);
      (Truthy(district) || declined) && ys.Some? ==>
        && d.phase == AskState && d.conversation == EmptyConversation
        && LastRequest(d) == Some(QueryRequest(payload))
        && d.transcript == t + [AskYearPrompt, Fetching, Report(r.query(payload)), AnotherLocation]
  {
    AfterStateFoundOutcomes(c, r, message, state, found, years, declined);
  }

  /** Asked for a state, a message naming a listed state but no district
      of it, with no district recorded and none declined, records the state
      and the years it names and asks for a district. */
  lemma HandleAskStateAsksDistrict(c: Chat, r: Remote, message: string, state: string)
    requires CachesAgree(c, r) && c.phase == AskState && r.states.Some?
    requires message != "" && !IsResetWord(ToLower(message))
    requires DetectMatch(message, r.states.value) == Some(state) && r.districts(state).Some?
    ensures var found := DetectMatch(message, r.districts(state).value);
      var district := if found.Some? then found else c.conversation.district;
      var ys := if ParseYears(message).Some? then ParseYears(message) else c.conversation.years;
      var d := HandleMessage(c, r, message);
      !Truthy(district) && !WantsStateLevel(message) ==>
        && d.phase == AskDistrictOrLevel && d.conversation == c.conversation.(state := Some(state), years := ys)
        && d.transcript == c.transcript + [UserSaid(message), GotState(state)]
  {
    StateTurnReaches(c, r, message, state);
    AfterStateFoundOutcomes(AfterStateLoads(c, r, message, state), r, message, state,
                            DetectMatch(message, r.districts(state).value), ParseYears(message),
                            WantsStateLevel(message));
  }

  /** The page once the state list and the named state's districts are
      loaded, with the message echoed and the state recorded. */
  function AfterStateLoads(c: Chat, r: Remote, message: string, state: string): Chat {
    var c1 := LoadStates(Said(c, message), r).chat;
    LoadDistricts(c1.(conversation := c1.conversation.(state := Some(state))), r, state).chat
  }

  /** Asked for a state, a message naming a listed state whose districts
      load reaches the end of the state turn. */
  lemma StateTurnReaches(c: Chat, r: Remote, message: string, state: string)
    requires CachesAgree(c, r) && c.phase == AskState && r.states.Some?
    requires message != "" && !IsResetWord(ToLower(message))
    requires DetectMatch(message, r.states.value) == Some(state) && r.districts(state).Some?
    ensures var c2 := AfterStateLoads(c, r, message, state);
      && c2.conversation == c.conversation.(state := Some(state))
      && c2.transcript == c.transcript + [UserSaid(message)]
      && HandleMessage(c, r, message)
         == AfterStateFound(c2, r, message, state, DetectMatch(message, r.districts(state).value),
                            ParseYears(message), WantsStateLevel(message))
  {
    AtAskState(c, r, message);
    StatesLoaded(Said(c, message), r, message);
    NamedState(LoadStates(Said(c, message), r).chat, r, message, r.states.value, state);
  }

  /** Asked for a year, a message with years sends the record with them
      and starts over. */
  lemma YearAnswerQueries(c: Chat, r: Remote, message: string, years: seq<int>)
    requires c.phase == AskYear && c.conversation.state.Some?
    requires message != "" && !IsResetWord(ToLower(message))
    requires ParseYears(message) == Some(years)
    ensures var d := HandleMessage(c, r, message);
      && d.requests == c.requests + [QueryRequest(PayloadOf(c.conversation.(years := Some(years))))]
      && d.phase == AskState && d.conversation == EmptyConversation
  {
  }

  /** Asked for a year, a message without one asks again and changes
      nothing else. */
  lemma YearNotUnderstoodAsksAgain(c: Chat, r: Remote, message: string)
    requires c.phase == AskYear && c.conversation.state.Some?
    requires message != "" && !IsResetWord(ToLower(message))
    requires ParseYears(message).None?
    ensures HandleMessage(c, r, message)
            == c.(transcript := c.transcript + [UserSaid(message), YearNotUnderstood])
  {
  }

  /** A query that fails and one that finds no years read the same, and
      either way the conversation starts over. */
  lemma FailedQueryLikeEmpty(c: Chat, r: Remote, r': Remote)
    requires r.query(PayloadOf(c.conversation)) == NoAnswer
    requires r'.query(PayloadOf(c.conversation)).Answered? && r'.query(PayloadOf(c.conversation)).years == []
    ensures RunQuery(c, r) == RunQuery(c, r')
  {
  }

  lemma StateAssistTypedSelects(c: Chat, r: Remote, value: string, states: seq<string>, state: string)
    requires CachesAgree(c, r) && r.states == Some(states)
    requires value != "" && FindExact(value, states) == Some(state)
    ensures var d := StateAssistTyped(c, r, value);
      && d.conversation == c.conversation.(state := Some(state), district := None, block := None)
      && d.inputs == c.inputs.(district := "", block := "")
      && d.assistError == c.assistError
  {
    var l := LoadStates(c, r);
    LoadStatesTransparent(c, r);
    LoadersOnlyCaches(c, r, state, "");
    var c1 := l.chat.(conversation := l.chat.conversation.(state := Some(state), district := None, block := None),
                      inputs := l.chat.inputs.(district := "", block := ""));
    LoadersOnlyCaches(c1, r, state, "");
    assert StateAssistTyped(c, r, value) == LoadDistricts(c1, r, state).chat;
  }

  /** Choosing a state in the selector resets the district and block, in
      the record and in the inputs. */
  lemma StateAssistSelects(c: Chat, r: Remote, states: seq<string>, state: string)
    requires CachesAgree(c, r) && r.states == Some(states)
    requires !AllWhitespace(c.inputs.state) && FindExact(Trim(c.inputs.state), states) == Some(state)
    ensures var d := HandleStateAssistChange(c, r);
      && d.conversation == c.conversation.(state := Some(state), district := None, block := None)
      && d.inputs == c.inputs.(district := "", block := "")
      && d.assistError == ""
  {
    StateAssistTypedSelects(c.(assistError := ""), r, Trim(c.inputs.state), states, state);
  }

  /** Clearing the district selector clears the recorded district but not
      the recorded block. */
  lemma DistrictClearedKeepsBlock(c: Chat, r: Remote)
    requires Truthy(c.conversation.state) && AllWhitespace(c.inputs.district)
    ensures var d := HandleDistrictAssistChange(c, r);
      && d.conversation == c.conversation.(district := None)
      && d.inputs == c.inputs.(block := "")
  {
  }

  /** A block typed without a district is refused and nothing is sent. */
  lemma ApplyBlockNeedsDistrict(c: Chat, r: Remote, state: string)
    requires AllWhitespace(c.inputs.district) && !AllWhitespace(c.inputs.block)
    ensures ApplyDistrict(c, r, state, Trim(c.inputs.district), Trim(c.inputs.block))
            == c.(assistError := SelectDistrictBeforeBlock)
  {
  }

  /** Applying with a blank state input only shows the error. */
  lemma ApplyNeedsState(c: Chat, r: Remote)
    requires AllWhitespace(c.inputs.state)
    ensures ApplyAssistSelection(c, r) == c.(assistError := PleaseChooseState)
  {
  }

  /** Applying a typed state that is not in the list only shows "Please
      pick a state from the list": no district or block is loaded, no query
      is sent, and the record, the phase and the transcript stay. */
  lemma ApplyTypedUnlistedState(c: Chat, r: Remote, stateValue: string, districtValue: string,
                                blockValue: string, states: seq<string>)
    requires CachesAgree(c, r) && r.states == Some(states)
    requires stateValue != "" && FindExact(stateValue, states).None?
    ensures var d := ApplyTyped(c, r, stateValue, districtValue, blockValue);
      && d == LoadStates(c, r).chat.(assistError := PickStateFromList)
      && d.phase == c.phase && d.conversation == c.conversation && d.transcript == c.transcript
      && d.inputs == c.inputs
  {
    LoadStatesTransparent(c, r);
    LoadersOnlyCaches(c, r, "", "");
  }

  /** The same for the apply button: a non-blank state input naming no
      listed state is refused with that message. */
  lemma ApplyUnlistedStateRefused(c: Chat, r: Remote, states: seq<string>)
    requires CachesAgree(c, r) && r.states == Some(states)
    requires !AllWhitespace(c.inputs.state) && FindExact(Trim(c.inputs.state), states).None?
    ensures var d := ApplyAssistSelection(c, r);
      && d == LoadStates(c.(assistError := ""), r).chat.(assistError := PickStateFromList)
      && d.phase == c.phase && d.conversation == c.conversation && d.transcript == c.transcript
  {
    ApplyTypedUnlistedState(c.(assistError := ""), r, Trim(c.inputs.state), Trim(c.inputs.district),
                            Trim(c.inputs.block), states);
  }

  lemma ApplyTypedStateOnly(c: Chat, r: Remote, stateValue: string, states: seq<string>, state: string)
    requires CachesAgree(c, r) && r.states == Some(states)
    requires stateValue != "" && FindExact(stateValue, states) == Some(state)
    ensures ApplyTyped(c, r, stateValue, "", "") == Commit(LoadStates(c, r).chat, r, state, None, None)
  {
    LoadStatesTransparent(c, r);
  }

  /** Committing a selection announces it in the chat, sends exactly it
      without years, reports the answer and starts over. */
  lemma CommitSends(c: Chat, r: Remote, state: string, district: Option<string>, block: Option<string>)
    ensures var p := QueryPayload(Some(state), district, block, None);
      var d := Commit(c, r, state, district, block);
      && d.requests == c.requests + [QueryRequest(p)]
      && d.phase == AskState && d.conversation == EmptyConversation
      && d.transcript[|c.transcript|] == UserSaid(SelectionText(state, district, block))
      && d.transcript[|c.transcript| + 2] == Report(r.query(p))
    ensures !Truthy(district) && !Truthy(block) ==> SelectionText(state, district, block) == "Using selection: " + state
    ensures Truthy(district) && Truthy(block) ==>
      SelectionText(state, district, block) == "Using selection: " + state + ", " + district.value + ", " + block.value
  {
    var c1 := c.(conversation := Conversation(Some(state), district, block, None),
                 transcript := c.transcript + [UserSaid(SelectionText(state, district, block))],
                 phase := ConfirmAndQuery);
    RunQueryStartsOver(c1, r);
  }

  /** Applying a listed state with blank district and block inputs sends
      the state-level query without years and starts over. */
  lemma ApplyStateOnlyQueries(c: Chat, r: Remote, states: seq<string>, state: string)
    requires CachesAgree(c, r) && r.states == Some(states)
    requires !AllWhitespace(c.inputs.state) && FindExact(Trim(c.inputs.state), states) == Some(state)
    requires AllWhitespace(c.inputs.district) && AllWhitespace(c.inputs.block)
    ensures var d := ApplyAssistSelection(c, r);
      && d.requests == LoadStates(c.(assistError := ""), r).chat.requests
                       + [QueryRequest(QueryPayload(Some(state), None, None, None))]
      && d.phase == AskState && d.conversation == EmptyConversation
      && UserSaid("Using selection: " + state) in d.transcript
  {
    var c0 := c.(assistError := "");
    assert Trim(c.inputs.district) == "" && Trim(c.inputs.block) == "";
    ApplyTypedStateOnly(c0, r, Trim(c.inputs.state), states, state);
    var c1 := LoadStates(c0, r).chat;
    CommitSends(c1, r, state, None, None);
    assert ApplyAssistSelection(c, r) == Commit(c1, r, state, None, None);
  }

  /** Asked for a district, a message is read against the state's
      district list. */
  lemma AtAskDistrict(c: Chat, r: Remote, message: string)
    requires c.phase == AskDistrictOrLevel && c.conversation.state.Some?
    requires message != "" && !IsResetWord(ToLower(message))
    ensures HandleMessage(c, r, message) == Recover(HandleAskDistrict(Said(c, message), r, message))
  {
  }

  /** Asked for a district, a reply that declines one asks for the year at
      state level; one naming a listed district records it and asks for
      the year; any other reply gets suggestions and the question stays. */
  lemma HandleAskDistrictOutcomes(c: Chat, r: Remote, message: string)
    requires CachesAgree(c, r) && c.phase == AskDistrictOrLevel && c.conversation.state.Some?
    requires message != "" && !IsResetWord(ToLower(message))
    requires r.districts(c.conversation.state.value).Some?
    ensures var state := c.conversation.state.value;
      var districts := r.districts(state).value;
      var d := HandleMessage(c, r, message);
      && (WantsStateLevel(message) ==>
            && d.phase == AskYear && d.conversation == c.conversation.(district := None)
            && d.transcript == c.transcript + [UserSaid(message), AskYearPrompt])
      && (!WantsStateLevel(message) && DetectMatch(message, districts).None? ==>
            && d.phase == AskDistrictOrLevel && d.conversation == c.conversation
            && d.transcript == c.transcript + [UserSaid(message),
                                               DistrictNotFound(state, FormatSuggestions(districts, 4))])
      && (!WantsStateLevel(message) && DetectMatch(message, districts).Some? ==>
            && d.phase == AskYear && d.conversation == c.conversation.(district := DetectMatch(message, districts))
            && d.transcript == c.transcript + [UserSaid(message), AskYearPrompt])
  {
    AtAskDistrict(c, r, message);
    var c1 := Said(c, message);
    var state := c.conversation.state.value;
    LoadDistrictsTransparent(c1, r, state);
    LoadersOnlyCaches(c1, r, state, "");
  }

  /** Choosing a listed district in the selector records it, clears the
      recorded block and the block input, and loads the district's blocks
      without a word in the chat. */
  lemma DistrictAssistTypedSelects(c: Chat, r: Remote, value: string, districts: seq<string>, district: string)
    requires CachesAgree(c, r) && Truthy(c.conversation.state)
    requires r.districts(c.conversation.state.value) == Some(districts)
    requires value != "" && FindExact(value, districts) == Some(district)
    ensures var d := DistrictAssistTyped(c, r, value);
      && d.conversation == c.conversation.(district := Some(district), block := None)
      && d.inputs == c.inputs.(block := "")
      && d.assistError == c.assistError && d.phase == c.phase && d.transcript == c.transcript
  {
    var state := c.conversation.state.value;
    var l := LoadDistricts(c, r, state);
    LoadDistrictsTransparent(c, r, state);
    LoadersOnlyCaches(c, r, state, district);
    var c1 := l.chat.(conversation := l.chat.conversation.(district := Some(district), block := None),
                      inputs := l.chat.inputs.(block := ""));
    LoadersOnlyCaches(c1, r, state, district);
    assert DistrictAssistTyped(c, r, value) == LoadBlocks(c1, r, state, district).chat;
  }

  /** The district selector's handler records a typed listed district and
      clears the block. */
  lemma DistrictAssistSelects(c: Chat, r: Remote, districts: seq<string>, district: string)
    requires CachesAgree(c, r) && Truthy(c.conversation.state)
    requires r.districts(c.conversation.state.value) == Some(districts)
    requires !AllWhitespace(c.inputs.district) && FindExact(Trim(c.inputs.district), districts) == Some(district)
    ensures var d := HandleDistrictAssistChange(c, r);
      && d.conversation == c.conversation.(district := Some(district), block := None)
      && d.inputs == c.inputs.(block := "")
      && d.assistError == ""
  {
    DistrictAssistTypedSelects(c.(assistError := ""), r, Trim(c.inputs.district), districts, district);
  }

  /** Choosing a listed block in the selector records it and changes
      nothing else but the caches and the request log. */
  lemma BlockAssistTypedSelects(c: Chat, r: Remote, value: string, blocks: seq<string>, block: string)
    requires CachesAgree(c, r) && Truthy(c.conversation.state) && Truthy(c.conversation.district)
    requires NoBar(c.conversation.state.value) && NoBar(c.conversation.district.value)
    requires r.blocks(c.conversation.state.value, c.conversation.district.value) == Some(blocks)
    requires value != "" && FindExact(value, blocks) == Some(block)
    ensures var d := BlockAssistTyped(c, r, value);
      && d.conversation == c.conversation.(block := Some(block))
      && d.inputs == c.inputs && d.assistError == c.assistError
      && d.phase == c.phase && d.transcript == c.transcript
  {
    var state, district := c.conversation.state.value, c.conversation.district.value;
    LoadBlocksTransparent(c, r, state, district);
    LoadersOnlyCaches(c, r, state, district);
  }

  /** The block selector's handler records a typed listed block. */
  lemma BlockAssistSelects(c: Chat, r: Remote, blocks: seq<string>, block: string)
    requires CachesAgree(c, r) && Truthy(c.conversation.state) && Truthy(c.conversation.district)
    requires NoBar(c.conversation.state.value) && NoBar(c.conversation.district.value)
    requires r.blocks(c.conversation.state.value, c.conversation.district.value) == Some(blocks)
    requires !AllWhitespace(c.inputs.block) && FindExact(Trim(c.inputs.block), blocks) == Some(block)
    ensures var d := HandleBlockAssistChange(c, r);
      && d.conversation == c.conversation.(block := Some(block))
      && d.inputs == c.inputs && d.assistError == ""
  {
    BlockAssistTypedSelects(c.(assistError := ""), r, Trim(c.inputs.block), blocks, block);
  }

  /** The last request the page sent, if any. */
  function LastRequest(d: Chat): Option<Request> {
    if d.requests == [] then None else Some(d.requests[|d.requests| - 1])
  }

  /** The page after the apply button loaded the states and the state's
      districts. */
  function AfterSelectionLoads(c: Chat, r: Remote, state: string): Chat {
    LoadDistricts(LoadStates(c, r).chat, r, state).chat
  }

  /** Applying a listed state and one of its listed districts, with a blank
      block input or a listed block of that district, commits exactly that
      selection once the lists are loaded. */
  lemma ApplyTypedSelection(c: Chat, r: Remote, stateValue: string, districtValue: string, blockValue: string,
                            state: string, district: string, block: Option<string>)
    requires CachesAgree(c, r) && r.states.Some? && r.districts(state).Some?
    requires stateValue != "" && FindExact(stateValue, r.states.value) == Some(state)
    requires districtValue != "" && FindExact(districtValue, r.districts(state).value) == Some(district)
    requires block.None? <==> blockValue == ""
    requires block.Some? ==>
      NoBar(state) && NoBar(district) && r.blocks(state, district).Some?
      && FindExact(blockValue, r.blocks(state, district).value) == block
    ensures var c2 := AfterSelectionLoads(c, r, state);
      && (block.None? ==> ApplyTyped(c, r, stateValue, districtValue, blockValue)
                          == Commit(c2, r, state, Some(district), None))
      && (block.Some? ==> ApplyTyped(c, r, stateValue, districtValue, blockValue)
                          == Commit(LoadBlocks(c2, r, state, district).chat, r, state, Some(district), block))
  {
    LoadStatesTransparent(c, r);
    var c1 := LoadStates(c, r).chat;
    LoadDistrictsTransparent(c1, r, state);
    var c2 := LoadDistricts(c1, r, state).chat;
    assert ApplyTyped(c, r, stateValue, districtValue, blockValue)
           == ApplyBlock(c2, r, state, Some(district), blockValue);
    if block.Some? {
      LoadBlocksTransparent(c2, r, state, district);
    }
  }

  /** The query a committed selection ends with, once the lists are
      loaded. */
  lemma ApplyTypedQueries(c: Chat, r: Remote, stateValue: string, districtValue: string, blockValue: string,
                          state: string, district: string, block: Option<string>)
    requires CachesAgree(c, r) && r.states.Some? && r.districts(state).Some?
    requires stateValue != "" && FindExact(stateValue, r.states.value) == Some(state)
    requires districtValue != "" && FindExact(districtValue, r.districts(state).value) == Some(district)
    requires block.None? <==> blockValue == ""
    requires block.Some? ==>
      NoBar(state) && NoBar(district) && r.blocks(state, district).Some?
      && FindExact(blockValue, r.blocks(state, district).value) == block
    ensures var d := ApplyTyped(c, r, stateValue, districtValue, blockValue);
      && LastRequest(d) == Some(QueryRequest(QueryPayload(Some(state), Some(district), block, None)))
      && d.phase == AskState && d.conversation == EmptyConversation
  {
    ApplyTypedSelection(c, r, stateValue, districtValue, blockValue, state, district, block);
    var c2 := AfterSelectionLoads(c, r, state);
    var c3 := if block.None? then c2 else LoadBlocks(c2, r, state, district).chat;
    CommittedQuery(ApplyTyped(c, r, stateValue, districtValue, blockValue), c3, r, state, Some(district), block);
  }

  /** What a commit ends with, for a page known to be one. */
  lemma CommittedQuery(d: Chat, c: Chat, r: Remote, state: string, district: Option<string>, block: Option<string>)
    requires d == Commit(c, r, state, district, block)
    ensures LastRequest(d) == Some(QueryRequest(QueryPayload(Some(state), district, block, None)))
    ensures d.phase == AskState && d.conversation == EmptyConversation
  {
    CommitSends(c, r, state, district, block);
  }

  /** The apply button with a listed state, one of its listed districts and
      a blank block input or one of that district's listed blocks sends
      the query for exactly that selection, without years, and starts
      over. */
  lemma ApplySelectionQueries(c: Chat, r: Remote, state: string, district: string, block: Option<string>)
    requires CachesAgree(c, r) && r.states.Some? && r.districts(state).Some?
    requires !AllWhitespace(c.inputs.state) && FindExact(Trim(c.inputs.state), r.states.value) == Some(state)
    requires !AllWhitespace(c.inputs.district)
             && FindExact(Trim(c.inputs.district), r.districts(state).value) == Some(district)
    requires block.None? <==> AllWhitespace(c.inputs.block)
    requires block.Some? ==>
      NoBar(state) && NoBar(district) && r.blocks(state, district).Some?
      && FindExact(Trim(c.inputs.block), r.blocks(state, district).value) == block
    ensures var d := ApplyAssistSelection(c, r);
      && LastRequest(d) == Some(QueryRequest(QueryPayload(Some(state), Some(district), block, None)))
      && d.phase == AskState && d.conversation == EmptyConversation
  {
    var sv, dv, bv := Trim(c.inputs.state), Trim(c.inputs.district), Trim(c.inputs.block);
    assert sv != "" && dv != "" && (bv == "" <==> block.None?);
    ApplyTypedQueries(c.(assistError := ""), r, sv, dv, bv, state, district, block);
  }
}
