/** The chat's text layer: how a typed message or a typed selection is
    matched against the catalog lists, and how years and intents are read
    out of free text. */
module ChatText {
  import opened Wrappers
  import opened JsText
  import opened Config

  /** `value?.trim().toLowerCase() || ""`, for a present value. */
  function NormalizeValue(value: string): string {
    ToLower(Trim(value))
  }

  /** Normalising twice is normalising once. */
  lemma NormalizeValueIdempotent(value: string)
    ensures NormalizeValue(NormalizeValue(value)) == NormalizeValue(value)
  {
    var t := Trim(value);
    var l := ToLower(t);
    assert Trim(l) == l by {
      TrimOfLowerOfTrimmed(t);
    }
    assert ToLower(l) == l by {
      ToLowerIdempotent(t);
    }
  }

  /** The options, normalised. */
  function NormalizeAll(options: seq<string>): (r: seq<string>)
    ensures |r| == |options| && forall j :: 0 <= j < |options| ==> r[j] == NormalizeValue(options[j])
  {
    seq(|options|, j requires 0 <= j < |options| => NormalizeValue(options[j]))
  }

  /** The position of the first occurrence of `target`. */
  function FirstIndexOf(target: string, values: seq<string>): (r: Option<nat>)
    ensures r.Some? ==> r.value < |values| && values[r.value] == target
    ensures r.Some? ==> forall j :: 0 <= j < r.value ==> values[j] != target
    ensures r.None? ==> target !in values
  {
    if values == [] then None
    else if values[0] == target then Some(0)
    else match FirstIndexOf(target, values[1..])
      case None => None
      case Some(k) => Some(k + 1)
  }

  /** `findExact`: the first option equal to the value once both are
      trimmed and lower-cased; an empty option found first reads as no
      match (`|| null`). */
  function FindExact(value: string, options: seq<string>): (r: Option<string>)
    ensures r.Some? ==> r.value in options && r.value != ""
  {
    var all := NormalizeAll(options);
    assert |all| == |options|;
    match FirstIndexOf(NormalizeValue(value), all)
    case None => None
    case Some(k) => if options[k] == "" then None else Some(options[k])
  }

  /** What `findExact` finds equals the value once both are normalised. */
  lemma FindExactMatches(value: string, options: seq<string>)
    ensures FindExact(value, options).Some? ==>
              NormalizeValue(FindExact(value, options).value) == NormalizeValue(value)
  {
    var all := NormalizeAll(options);
    var k := FirstIndexOf(NormalizeValue(value), all);
    if k.Some? {
      assert all[k.value] == NormalizeValue(options[k.value]);
    }
  }

  /** `findExact` finds nothing when no option normalises to the value. */
  lemma FindExactMisses(value: string, options: seq<string>)
    requires forall j :: 0 <= j < |options| ==> NormalizeValue(options[j]) != NormalizeValue(value)
    ensures FindExact(value, options).None?
  {
    var all := NormalizeAll(options);
    assert NormalizeValue(value) !in all by {
      forall j | 0 <= j < |all| ensures all[j] != NormalizeValue(value) {
        assert all[j] == NormalizeValue(options[j]);
      }
    }
  }

  /** `findExact` finds the first matching option. */
  lemma FindExactFirst(value: string, options: seq<string>, k: nat)
    requires k < |options| && NormalizeValue(options[k]) == NormalizeValue(value) && options[k] != ""
    requires forall j :: 0 <= j < k ==> NormalizeValue(options[j]) != NormalizeValue(value)
    ensures FindExact(value, options) == Some(options[k])
  {
    var r := FirstIndexOf(NormalizeValue(value), NormalizeAll(options));
    assert r.Some? && r.value == k;
  }

  /** The position of the first option whose lower-cased form occurs in
      `lowerText`. */
  function FirstContained(lowerText: string, options: seq<string>): (r: Option<nat>)
    ensures r.Some? ==> r.value < |options| && Contains(lowerText, ToLower(options[r.value]))
    ensures r.Some? ==> forall j :: 0 <= j < r.value ==> !Contains(lowerText, ToLower(options[j]))
    ensures r.None? ==> forall j :: 0 <= j < |options| ==> !Contains(lowerText, ToLower(options[j]))
  {
    if options == [] then None
    else if Contains(lowerText, ToLower(options[0])) then Some(0)
    else match FirstContained(lowerText, options[1..])
      case None => None
      case Some(k) => Some(k + 1)
  }

  /** `detectMatch`: the first option, in list order, mentioned anywhere in
      the text regardless of case. Options are not trimmed; an empty option
      found first reads as no match. */
  function DetectMatch(text: string, options: seq<string>): (r: Option<string>)
    ensures r.Some? ==> r.value in options && r.value != ""
  {
    match FirstContained(ToLower(text), options)
    case None => None
    case Some(k) => if options[k] == "" then None else Some(options[k])
  }

  /** What `detectMatch` finds is mentioned in the text, regardless of
      case, and it finds nothing when no option is. */
  lemma DetectMatchMentioned(text: string, options: seq<string>)
    ensures DetectMatch(text, options).Some? ==>
              Contains(ToLower(text), ToLower(DetectMatch(text, options).value))
    ensures (forall j :: 0 <= j < |options| ==> !Contains(ToLower(text), ToLower(options[j])))
            ==> DetectMatch(text, options).None?
  {
  }

  /** `detectMatch` finds the first option the text mentions. */
  lemma DetectMatchFirst(text: string, options: seq<string>, k: nat)
    requires k < |options| && Contains(ToLower(text), ToLower(options[k])) && options[k] != ""
    requires forall j :: 0 <= j < k ==> !Contains(ToLower(text), ToLower(options[j]))
    ensures DetectMatch(text, options) == Some(options[k])
  {
    var r := FirstContained(ToLower(text), options);
    assert r.Some? && r.value == k;
  }

  /** A candidate longer than the text is never detected: options are not
      trimmed, so a padded name is missed in a text that spells only the
      name. */
  lemma DetectMatchMissesLongerOption(text: string, option: string)
    requires |option| > |text|
    ensures DetectMatch(text, [option]) == None
  {
    ContainsLonger(ToLower(text), ToLower(option));
  }

  /** `parseYears`: "latest" asks for the latest year (an empty list) and
      wins over digits; else "both" or "all" anywhere (so any word containing
      them, such as "small") asks for both years; else the years spelled
      out, in ascending order; nothing when there is no signal. */
  function ParseYears(text: string): (r: Option<seq<int>>)
    ensures r.Some? ==> forall y :: y in r.value ==> y in YearTableMap
    ensures r.Some? ==> forall i, j :: 0 <= i < j < |r.value| ==> r.value[i] < r.value[j]
  {
    var lower := ToLower(text);
    if Contains(lower, "latest") then Some([])
    else if Contains(lower, "both") || Contains(lower, "all") then Some([2023, 2024])
    else
      var matches := (if Contains(lower, "2023") then [2023] else [])
                     + (if Contains(lower, "2024") then [2024] else []);
      if |matches| > 0 then Some(matches) else None
  }

  /** How `parseYears` reads a message: "latest" first, then "both" or
      "all", then the years it spells out; nothing without any of these. */
  lemma ParseYearsReads(text: string)
    ensures var r := ParseYears(text);
      && (Contains(ToLower(text), "latest") ==> r == Some([]))
      && ((!Contains(ToLower(text), "latest")
           && (Contains(ToLower(text), "both") || Contains(ToLower(text), "all")))
          ==> r == Some([2023, 2024]))
      && (!Contains(ToLower(text), "latest") && !Contains(ToLower(text), "both")
          && !Contains(ToLower(text), "all") ==>
            && (r.None? <==> !Contains(ToLower(text), "2023") && !Contains(ToLower(text), "2024"))
            && (r.Some? ==> (2023 in r.value <==> Contains(ToLower(text), "2023")))
            && (r.Some? ==> (2024 in r.value <==> Contains(ToLower(text), "2024"))))
  {
  }

  /** `wantsStateLevel`: the user declines a district. */
  predicate WantsStateLevel(text: string) {
    var lower := ToLower(text);
    Contains(lower, "state level") || Contains(lower, "no district") || Contains(lower, "skip")
  }

  /** `wantsStateLevel` reads the message regardless of case: it holds
      exactly when "state level", "no district" or "skip" occurs somewhere
      in the lower-cased message, even inside a longer word. */
  lemma WantsStateLevelReads(text: string)
    ensures WantsStateLevel(text) <==>
      exists i: nat :: OccursAt(ToLower(text), "state level", i) || OccursAt(ToLower(text), "no district", i)
                       || OccursAt(ToLower(text), "skip", i)
    ensures WantsStateLevel(ToLower(text)) == WantsStateLevel(text)
  {
    var lower := ToLower(text);
    ContainsIffOccurs(lower, "state level");
    ContainsIffOccurs(lower, "no district");
    ContainsIffOccurs(lower, "skip");
    ToLowerIdempotent(text);
  }

  /** `formatSuggestions`: the first `limit` names joined by commas. */
  function FormatSuggestions(list: seq<string>, limit: nat): (r: string)
    ensures list == [] || limit == 0 ==> r == ""
  {
    Join(list[..if limit < |list| then limit else |list|], ", ")
  }

  /** Each of the first `limit` names appears in the suggestion text. */
  lemma FormatSuggestionsMentions(list: seq<string>, limit: nat, k: nat)
    requires k < limit && k < |list|
    ensures Contains(FormatSuggestions(list, limit), list[k])
  {
    var n := if limit < |list| then limit else |list|;
    JoinContainsPart(list[..n], ", ", k);
  }

  /** The suggestions depend on the first `limit` names only. */
  lemma FormatSuggestionsUsesPrefix(list: seq<string>, other: seq<string>, limit: nat)
    requires limit <= |list| && limit <= |other| && list[..limit] == other[..limit]
    ensures FormatSuggestions(list, limit) == FormatSuggestions(other, limit)
  {
  }
}
