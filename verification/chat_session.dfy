/** The chat page as the script runs it: module-level state that the
    handlers update in place, one statement at a time. Every handler is
    proved to leave the page exactly as the matching step of `ChatFlow`
    says, so the dialogue properties proved about those steps hold of the
    running page. */
module ChatSession {
  import opened Wrappers
  import opened JsText
  import opened DataService
  import opened ChatText
  import opened ChatFlow

  class Session {
    var phase: Phase
    var conversation: Conversation
    var statesCache: seq<string>
    var districtsCache: map<string, seq<string>>
    var blocksCache: map<string, seq<string>>
    var inputs: Inputs
    var assistError: string
    var transcript: seq<Message>
    var requests: seq<Request>

    /** The page's state as a value. */
    function Snap(): Chat
      reads this
    {
      Chat(phase, conversation, statesCache, districtsCache, blocksCache, inputs, assistError, transcript, requests)
    }

    /** Loading the page: greet, then fetch the state list, telling the
        user when that fails. */
    constructor (r: Remote)
      ensures Snap() == Start(r)
    {
      phase := AskState;
      conversation := EmptyConversation;
      statesCache := [];
      districtsCache := map[];
      blocksCache := map[];
      inputs := Inputs("", "", "");
      assistError := "";
      transcript := [];
      requests := [];
      new;
      ResetConversation(true);
      var states := LoadStates(r);
      if states.None? {
        transcript := transcript + [StatesUnavailable];
      }
    }

    /** `resetConversation`. */
    method ResetConversation(clearHistory: bool)
      modifies this
      ensures Snap() == Reset(old(Snap()), clearHistory)
    {
      conversation := EmptyConversation;
      phase := AskState;
      if clearHistory {
        transcript := [];
      }
      transcript := transcript + [Greeting];
    }

    /** `loadStates`; `None` is a request that threw. */
    method LoadStates(r: Remote) returns (list: Option<seq<string>>)
      modifies this
      ensures Loaded(Snap(), list) == ChatFlow.LoadStates(old(Snap()), r)
    {
      if |statesCache| > 0 {
        return Some(statesCache);
      }
      requests := requests + [StatesRequest];
      if r.states.None? {
        return None;
      }
      statesCache := r.states.value;
      return Some(statesCache);
    }

    /** `loadDistricts`. */
    method LoadDistricts(r: Remote, state: string) returns (list: Option<seq<string>>)
      modifies this
      ensures Loaded(Snap(), list) == ChatFlow.LoadDistricts(old(Snap()), r, state)
    {
      if state in districtsCache {
        return Some(districtsCache[state]);
      }
      requests := requests + [DistrictsRequest(state)];
      var districts := r.districts(state);
      if districts.None? {
        return None;
      }
      districtsCache := districtsCache[state := districts.value];
      return districts;
    }

    /** `loadBlocks`, memoised under the joined key. */
    method LoadBlocks(r: Remote, state: string, district: string) returns (list: Option<seq<string>>)
      modifies this
      ensures Loaded(Snap(), list) == ChatFlow.LoadBlocks(old(Snap()), r, state, district)
    {
      var key := BlocksKey(state, district);
      if key in blocksCache {
        return Some(blocksCache[key]);
      }
      requests := requests + [BlocksRequest(state, district)];
      var blocks := r.blocks(state, district);
      if blocks.None? {
        return None;
      }
      blocksCache := blocksCache[key := blocks.value];
      return blocks;
    }

    /** `askYear`, after the phase is set. */
    method PromptYear()
      modifies this
      ensures Snap() == old(Snap()).(transcript := old(transcript) + [AskYearPrompt])
    {
      transcript := transcript + [AskYearPrompt];
    }

    /** `runQuery`: the query's outcome is reported, and the conversation
        starts over whatever it was. */
    method RunQuery(r: Remote)
      modifies this
      ensures Snap() == ChatFlow.RunQuery(old(Snap()), r)
    {
      transcript := transcript + [Fetching];
      var payload := PayloadOf(conversation);
      requests := requests + [QueryRequest(payload)];
      var answer := r.query(payload);
      transcript := transcript + [Report(answer)];
      phase := Done;
      transcript := transcript + [AnotherLocation];
      conversation := EmptyConversation;
      phase := AskState;
    }

    /** `handleAskYear`. */
    method HandleAskYear(r: Remote, message: string, skipPrompt: bool)
      modifies this
      ensures Snap() == ChatFlow.HandleAskYear(old(Snap()), r, message, skipPrompt)
    {
      var years := if skipPrompt then conversation.years else ParseYears(message);
      if years.None? {
        transcript := transcript + [YearNotUnderstood];
        return;
      }
      conversation := conversation.(years := years);
      phase := ConfirmAndQuery;
      RunQuery(r);
    }

    /** `handleAskState`; `threw` is a request that threw. */
    method HandleAskState(r: Remote, message: string) returns (threw: bool)
      modifies this
      ensures Turn(Snap(), threw) == ChatFlow.HandleAskState(old(Snap()), r, message)
    {
      var states := LoadStates(r);
      if states.None? {
        return true;
      }
      var state := DetectMatch(message, states.value);
      if state.None? {
        transcript := transcript + [StateNotFound(FormatSuggestions(states.value, 4))];
        return false;
      }
      conversation := conversation.(state := state);
      var districts := LoadDistricts(r, state.value);
      if districts.None? {
        return true;
      }
      ghost var c2 := Snap();
      var district := DetectMatch(message, districts.value);
      var years := ParseYears(message);
      if district.Some? {
        conversation := conversation.(district := district);
      }
      if years.Some? {
        conversation := conversation.(years := years);
      }
      if Truthy(conversation.district) || WantsStateLevel(message) {
        phase := AskYear;
        PromptYear();
      } else {
        phase := AskDistrictOrLevel;
        transcript := transcript + [GotState(state.value)];
      }
      if phase == AskYear && conversation.years.Some? {
        HandleAskYear(r, message, true);
      }
      assert Snap() == AfterStateFound(c2, r, message, state.value, district, years, WantsStateLevel(message));
      return false;
    }

    /** `handleAskDistrict`, which runs once a state is recorded. */
    method HandleAskDistrict(r: Remote, message: string) returns (threw: bool)
      requires conversation.state.Some?
      modifies this
      ensures Turn(Snap(), threw) == ChatFlow.HandleAskDistrict(old(Snap()), r, message)
    {
      var state := conversation.state.value;
      var districts := LoadDistricts(r, state);
      if districts.None? {
        return true;
      }
      if WantsStateLevel(message) {
        conversation := conversation.(district := None);
        phase := AskYear;
        PromptYear();
        return false;
      }
      var district := DetectMatch(message, districts.value);
      if district.None? {
        transcript := transcript + [DistrictNotFound(state, FormatSuggestions(districts.value, 4))];
        return false;
      }
      conversation := conversation.(district := district);
      phase := AskYear;
      PromptYear();
      return false;
    }

    /** `handleUserInput`, for the text in the chat box. */
    method HandleUserInput(r: Remote, raw: string)
      requires PhaseHasState(Snap())
      modifies this
      ensures Snap() == ChatFlow.HandleUserInput(old(Snap()), r, raw)
    {
      var message := Trim(raw);
      HandleMessage(r, message);
    }

    /** The rest of `handleUserInput`, once the message is trimmed. */
    method HandleMessage(r: Remote, message: string)
      requires PhaseHasState(Snap())
      modifies this
      ensures Snap() == ChatFlow.HandleMessage(old(Snap()), r, message)
    {
      if message == "" {
        return;
      }
      transcript := transcript + [UserSaid(message)];
      var lower := ToLower(message);
      if lower == "start over" || lower == "reset" {
        ResetConversation(false);
        return;
      }
      ghost var c1 := Snap();
      var threw;
      match phase {
        case AskState =>
          threw := HandleAskState(r, message);
        case AskDistrictOrLevel =>
          threw := HandleAskDistrict(r, message);
        case AskYear =>
          HandleAskYear(r, message, false);
          threw := false;
        case _ =>
          threw := HandleAskState(r, message);
      }
      assert Turn(Snap(), threw) == PhaseTurn(c1, r, message);
      if threw {
        transcript := transcript + [SomethingWentWrong];
      }
    }

    /** The user edits the three selector inputs. */
    method EditInputs(state: string, district: string, block: string)
      modifies this
      ensures Snap() == old(Snap()).(inputs := Inputs(state, district, block))
    {
      inputs := Inputs(state, district, block);
    }

    /** Focusing the state input fetches the state list. */
    method StateInputFocused(r: Remote)
      modifies this
      ensures Snap() == ChatFlow.LoadStates(old(Snap()), r).chat
    {
      var _ := LoadStates(r);
    }

    /** `handleStateAssistChange`. */
    method HandleStateAssistChange(r: Remote)
      modifies this
      ensures Snap() == ChatFlow.HandleStateAssistChange(old(Snap()), r)
    {
      assistError := "";
      var value := Trim(inputs.state);
      StateAssistTyped(r, value);
    }

    /** The rest of `handleStateAssistChange`, once the input is trimmed. */
    method StateAssistTyped(r: Remote, value: string)
      modifies this
      ensures Snap() == ChatFlow.StateAssistTyped(old(Snap()), r, value)
    {
      if value == "" {
        inputs := inputs.(district := "", block := "");
        return;
      }
      var states := LoadStates(r);
      if states.None? {
        return;
      }
      var found := FindExact(value, states.value);
      StateAssistFound(r, found);
    }

    /** The end of `handleStateAssistChange`, once the typed state is
        looked up. */
    method StateAssistFound(r: Remote, found: Option<string>)
      modifies this
      ensures Snap() == ChatFlow.StateAssistFound(old(Snap()), r, found)
    {
      if found.None? {
        assistError := SelectValidState;
        return;
      }
      conversation := conversation.(state := found, district := None, block := None);
      inputs := inputs.(district := "", block := "");
      var _ := LoadDistricts(r, found.value);
    }

    /** `handleDistrictAssistChange`. */
    method HandleDistrictAssistChange(r: Remote)
      modifies this
      ensures Snap() == ChatFlow.HandleDistrictAssistChange(old(Snap()), r)
    {
      assistError := "";
      var value := Trim(inputs.district);
      DistrictAssistTyped(r, value);
    }

    /** The rest of `handleDistrictAssistChange`, once the input is trimmed. */
    method DistrictAssistTyped(r: Remote, value: string)
      modifies this
      ensures Snap() == ChatFlow.DistrictAssistTyped(old(Snap()), r, value)
    {
      var state := conversation.state;
      if !Truthy(state) {
        assistError := ChooseStateFirst;
        inputs := inputs.(district := "");
        return;
      }
      if value == "" {
        conversation := conversation.(district := None);
        inputs := inputs.(block := "");
        return;
      }
      var districts := LoadDistricts(r, state.value);
      if districts.None? {
        return;
      }
      var found := FindExact(value, districts.value);
      if found.None? {
        assistError := SelectValidDistrict;
        return;
      }
      conversation := conversation.(district := found, block := None);
      inputs := inputs.(block := "");
      var _ := LoadBlocks(r, state.value, found.value);
    }

    /** `handleBlockAssistChange`. */
    method HandleBlockAssistChange(r: Remote)
      modifies this
      ensures Snap() == ChatFlow.HandleBlockAssistChange(old(Snap()), r)
    {
      assistError := "";
      var value := Trim(inputs.block);
      BlockAssistTyped(r, value);
    }

    /** The rest of `handleBlockAssistChange`, once the input is trimmed. */
    method BlockAssistTyped(r: Remote, value: string)
      modifies this
      ensures Snap() == ChatFlow.BlockAssistTyped(old(Snap()), r, value)
    {
      var state := conversation.state;
      var district := conversation.district;
      if !Truthy(state) || !Truthy(district) {
        assistError := SelectStateAndDistrictFirst;
        inputs := inputs.(block := "");
        return;
      }
      if value == "" {
        conversation := conversation.(block := None);
        return;
      }
      var blocks := LoadBlocks(r, state.value, district.value);
      if blocks.None? {
        return;
      }
      var found := FindExact(value, blocks.value);
      if found.None? {
        assistError := SelectValidBlock;
        return;
      }
      conversation := conversation.(block := found);
    }

    /** `applyAssistSelection`. */
    method ApplyAssistSelection(r: Remote)
      modifies this
      ensures Snap() == ChatFlow.ApplyAssistSelection(old(Snap()), r)
    {
      assistError := "";
      ghost var c0 := Snap();
      assert c0 == old(Snap()).(assistError := "");
      var stateValue := Trim(inputs.state);
      var districtValue := Trim(inputs.district);
      var blockValue := Trim(inputs.block);
      ApplyTyped(r, stateValue, districtValue, blockValue);
      assert Snap() == ChatFlow.ApplyTyped(c0, r, stateValue, districtValue, blockValue);
    }

    /** The rest of `applyAssistSelection`, once the inputs are trimmed. */
    method ApplyTyped(r: Remote, stateValue: string, districtValue: string, blockValue: string)
      modifies this
      ensures Snap() == ChatFlow.ApplyTyped(old(Snap()), r, stateValue, districtValue, blockValue)
    {
      if stateValue == "" {
        assistError := PleaseChooseState;
        return;
      }
      var states := LoadStates(r);
      if states.None? {
        return;
      }
      var state := FindExact(stateValue, states.value);
      if state.None? {
        assistError := PickStateFromList;
        return;
      }
      ApplyDistrict(r, state.value, districtValue, blockValue);
    }

    /** The district and block inputs of `applyAssistSelection`, once the
        state is resolved, and the query. */
    method ApplyDistrict(r: Remote, state: string, districtValue: string, blockValue: string)
      modifies this
      ensures Snap() == ChatFlow.ApplyDistrict(old(Snap()), r, state, districtValue, blockValue)
    {
      var district: Option<string> := None;
      if districtValue != "" {
        var districts := LoadDistricts(r, state);
        if districts.None? {
          return;
        }
        district := FindExact(districtValue, districts.value);
        if district.None? {
          assistError := PickDistrictFromList;
          return;
        }
      }
      ApplyBlock(r, state, district, blockValue);
    }

    /** The block input of `applyAssistSelection`, once the district is
        resolved, and the query. */
    method ApplyBlock(r: Remote, state: string, district: Option<string>, blockValue: string)
      modifies this
      ensures Snap() == ChatFlow.ApplyBlock(old(Snap()), r, state, district, blockValue)
    {
      var block: Option<string> := None;
      if blockValue != "" {
        if !Truthy(district) {
          assistError := SelectDistrictBeforeBlock;
          return;
        }
        var blocks := LoadBlocks(r, state, district.value);
        if blocks.None? {
          return;
        }
        block := FindExact(blockValue, blocks.value);
        if block.None? {
          assistError := PickBlockFromList;
          return;
        }
      }
      Commit(r, state, district, block);
    }

    /** The end of `applyAssistSelection`: the record becomes the
        selection, announced as the user's, and the query runs. */
    method Commit(r: Remote, state: string, district: Option<string>, block: Option<string>)
      modifies this
      ensures Snap() == ChatFlow.Commit(old(Snap()), r, state, district, block)
    {
      conversation := Conversation(Some(state), district, block, None);
      transcript := transcript + [UserSaid(SelectionText(state, district, block))];
      phase := ConfirmAndQuery;
      RunQuery(r);
    }
  }
}
