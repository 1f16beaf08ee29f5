/**
 * The capability tables of the travel assistant (tools, intents, parameter
 * schemas, detection keywords) and the pure helpers built on them.
 */
module SystemConfig {
  import opened Common

  /** One entry of the tool table. `dependsOn` (the source's `requires`) holds output TAGS, `produces` (the source's `returns`) the tag it outputs. */
  datatype ToolConfig = ToolConfig(
    functionPath: string,
    description: string,
    parameters: seq<string>,
    dependsOn: seq<string>,
    produces: string)

  /** One entry of an intent's parameter schema (an insertion-ordered dictionary in the source). */
  datatype ParamSpec = ParamSpec(
    name: string,
    typeName: string,
    description: string,
    question: string,
    required: bool)

  datatype IntentConfig = IntentConfig(
    description: string,
    tools: seq<string>,
    parameters: seq<ParamSpec>)

  const TOOLS: map<string, ToolConfig> := map[
    "search_flights" := ToolConfig("travel_tools.search_flights", "Search for available flights",
                                   ["origin", "destination", "date"], [], "flight_options"),
    "book_flight" := ToolConfig("travel_tools.book_flight", "Book a specific flight",
                                ["origin", "destination", "date"], ["flight_options"], "booking_confirmation"),
    "search_hotels" := ToolConfig("travel_tools.search_hotels", "Search for hotels",
                                  ["destination", "days"], [], "hotel_options"),
    "book_hotel" := ToolConfig("travel_tools.book_hotel", "Book a specific hotel",
                               ["destination", "days"], ["hotel_options"], "hotel_booking"),
    "get_weather" := ToolConfig("travel_tools.get_weather", "Get weather information",
                                ["destination", "date"], [], "weather_info")
  ]

  const INTENTS: map<string, IntentConfig> := map[
    "book_flight" := IntentConfig(
      "Book airline tickets",
      ["search_flights", "book_flight"],
      [ ParamSpec("origin", "string", "Departure city or airport",
                  "Which city or airport are you departing from?", true),
        ParamSpec("destination", "string", "Arrival city or airport",
                  "Where would you like to fly to?", true),
        ParamSpec("date", "date", "Travel date",
                  "What date would you like to travel?", true) ]),
    "book_hotel" := IntentConfig(
      "Book hotel accommodation",
      ["search_hotels", "book_hotel"],
      [ ParamSpec("destination", "string", "City or location for hotel",
                  "Which city do you need a hotel in?", true),
        ParamSpec("days", "int", "Number of days to stay",
                  "How many days will you be staying?", true) ]),
    "plan_vacation" := IntentConfig(
      "Plan a complete vacation with flights, hotel, and weather",
      ["search_flights", "search_hotels", "get_weather", "book_flight", "book_hotel"],
      [ ParamSpec("origin", "string", "Where you're traveling from",
                  "Where are you traveling from?", true),
        ParamSpec("destination", "string", "Vacation destination",
                  "Where would you like to go on vacation?", true),
        ParamSpec("date", "date", "Travel start date",
                  "When would you like to start your vacation?", true),
        ParamSpec("days", "int", "Length of vacation",
                  "How many days will your vacation be?", true) ])
  ]

  /** The intent table's keys in declaration order. */
  const INTENT_NAMES: seq<string> := ["book_flight", "book_hotel", "plan_vacation"]

  // ---------------------------------------------------------------------------
  // Table lookups
  // ---------------------------------------------------------------------------

  function GetIntentConfig(name: string): (r: Option<IntentConfig>)
    ensures r.Some? <==> name in INTENT_NAMES
    ensures r.Some? ==> r.value == INTENTS[name]
  {
    if name in INTENTS then Some(INTENTS[name]) else None
  }

  /** Every configured intent has a non-empty name, so a detected intent is always truthy. */
  lemma IntentNamesNonEmpty()
    ensures "" !in INTENTS
  {
  }

  function GetToolConfig(name: string): (r: Option<ToolConfig>)
    ensures r.Some? <==> name in TOOLS
    ensures r.Some? ==> r.value == TOOLS[name]
    ensures r.Some? ==> |r.value.parameters| > 0 && NoDup(r.value.parameters)
  {
    if name in TOOLS then Some(TOOLS[name]) else None
  }

  function GetAvailableIntents(): (r: seq<string>)
    ensures Elems(r) == INTENTS.Keys
    ensures NoDup(r)
  {
    INTENT_NAMES
  }

  /** The tool table's keys in declaration order. */
  const TOOL_NAMES: seq<string> := ["search_flights", "book_flight", "search_hotels", "book_hotel", "get_weather"]

  function GetAvailableTools(): (r: seq<string>)
    ensures Elems(r) == TOOLS.Keys
    ensures NoDup(r)
  {
    TOOL_NAMES
  }

  /** `list(parameters.keys())`: the schema's names in order. */
  function ParamNames(ps: seq<ParamSpec>): (r: seq<string>)
    ensures |r| == |ps|
    ensures forall k :: 0 <= k < |ps| ==> r[k] == ps[k].name
  {
    if ps == [] then [] else [ps[0].name] + ParamNames(ps[1..])
  }

  /** `parameters.get(name)`: the first schema entry with that name. */
  function FindParam(ps: seq<ParamSpec>, name: string): (r: Option<ParamSpec>)
    ensures r.None? <==> forall k :: 0 <= k < |ps| ==> ps[k].name != name
    ensures r.Some? ==> exists k :: 0 <= k < |ps| && ps[k] == r.value && r.value.name == name &&
                                    forall j :: 0 <= j < k ==> ps[j].name != name
  {
    if ps == [] then None
    else if ps[0].name == name then Some(ps[0])
    else
      var r := FindParam(ps[1..], name);
      assert r.Some? ==> exists k :: 0 <= k < |ps[1..]| && ps[1..][k] == r.value &&
                                     forall j :: 0 <= j < k ==> ps[1..][j].name != name;
      r
  }

  /** Every intent of the table uses configured tools only. */
  lemma IntentToolsAreConfigured(intentName: string)
    requires intentName in INTENTS
    ensures forall t :: t in INTENTS[intentName].tools ==> t in TOOLS
  {
  }

  /** Every schema entry of a configured intent is required, and the names are distinct. */
  lemma SchemaIsAllRequired(intentName: string)
    requires intentName in INTENTS
    ensures forall k :: 0 <= k < |INTENTS[intentName].parameters| ==> INTENTS[intentName].parameters[k].required
    ensures NoDup(ParamNames(INTENTS[intentName].parameters))
  {
    var ps := INTENTS[intentName].parameters;
    if intentName == "book_flight" {
      assert ParamNames(ps) == ["origin", "destination", "date"];
    } else if intentName == "book_hotel" {
      assert ParamNames(ps) == ["destination", "days"];
    } else {
      assert ParamNames(ps) == ["origin", "destination", "date", "days"];
    }
  }

  /** Each tool of a configured intent declares only parameters of that intent's schema. */
  lemma ToolParametersAreInSchema(intentName: string, toolName: string)
    requires intentName in INTENTS && toolName in INTENTS[intentName].tools
    ensures toolName in TOOLS
    ensures forall p :: p in TOOLS[toolName].parameters ==> p in ParamNames(INTENTS[intentName].parameters)
  {
    if intentName == "book_flight" {
      FlightToolsUseSchema(toolName);
    } else if intentName == "book_hotel" {
      HotelToolsUseSchema(toolName);
    } else {
      VacationToolsUseSchema(toolName);
    }
  }

  lemma FlightToolsUseSchema(toolName: string)
    requires toolName in INTENTS["book_flight"].tools
    ensures toolName in TOOLS
    ensures forall p :: p in TOOLS[toolName].parameters ==> p in ParamNames(INTENTS["book_flight"].parameters)
  {
    assert ParamNames(INTENTS["book_flight"].parameters) == ["origin", "destination", "date"];
  }

  lemma HotelToolsUseSchema(toolName: string)
    requires toolName in INTENTS["book_hotel"].tools
    ensures toolName in TOOLS
    ensures forall p :: p in TOOLS[toolName].parameters ==> p in ParamNames(INTENTS["book_hotel"].parameters)
  {
    assert ParamNames(INTENTS["book_hotel"].parameters) == ["destination", "days"];
  }

  lemma VacationToolsUseSchema(toolName: string)
    requires toolName in INTENTS["plan_vacation"].tools
    ensures toolName in TOOLS
    ensures forall p :: p in TOOLS[toolName].parameters ==> p in ParamNames(INTENTS["plan_vacation"].parameters)
  {
    assert ParamNames(INTENTS["plan_vacation"].parameters) == ["origin", "destination", "date", "days"];
  }

  /** No dependency tag of the tool table is itself the name of a tool. */
  lemma DependencyTagsAreNotToolNames(toolName: string)
    requires toolName in TOOLS
    ensures forall d :: d in TOOLS[toolName].dependsOn ==> d !in TOOLS
  {
  }

  // ---------------------------------------------------------------------------
  // Parameter validation
  // ---------------------------------------------------------------------------

  /** `validate_string`: a `str` that is not blank after stripping. */
  predicate ValidateString(v: Value)
  {
    v.Str? && Strip(v.s) != []
  }

  lemma ValidateStringMeansNonBlank(v: Value)
    ensures ValidateString(v) <==> v.Str? && exists i :: 0 <= i < |v.s| && !IsSpace(v.s[i])
  {
    if v.Str? {
      StripEmptyIffBlank(v.s);
    }
  }

  /** The two validators whose meaning rests on Python's regex and `int()` parsing. */
  datatype Validators = Validators(parsesAsInt: Value -> bool, matchesDatePattern: string -> bool)

  /** `PARAMETER_TYPES[typeName]["validator"](value)`, false when the type is not registered. */
  function ValidateType(typeName: string, value: Value, checks: Validators): (r: bool)
    ensures typeName !in {"string", "int", "date"} ==> !r
    ensures typeName == "date" && !value.Str? ==> !r
    ensures typeName == "string" ==> (r <==> ValidateString(value))
  {
    if typeName == "string" then ValidateString(value)
    else if typeName == "int" then checks.parsesAsInt(value)
    else if typeName == "date" then value.Str? && checks.matchesDatePattern(value.s)
    else false
  }

  function ValidateParameter(paramName: string, value: Value, intentName: string, checks: Validators): (r: bool)
    ensures intentName !in INTENTS ==> !r
    ensures intentName in INTENTS && FindParam(INTENTS[intentName].parameters, paramName).None? ==> !r
    ensures r ==> exists k :: 0 <= k < |INTENTS[intentName].parameters| &&
                    INTENTS[intentName].parameters[k].name == paramName &&
                    ValidateType(INTENTS[intentName].parameters[k].typeName, value, checks)
    ensures intentName in INTENTS && FindParam(INTENTS[intentName].parameters, paramName).Some? ==>
              (r <==> ValidateType(FindParam(INTENTS[intentName].parameters, paramName).value.typeName, value, checks))
  {
    match GetIntentConfig(intentName)
    case None => false
    case Some(config) =>
      match FindParam(config.parameters, paramName)
      case None => false
      case Some(spec) => ValidateType(spec.typeName, value, checks)
  }

  // ---------------------------------------------------------------------------
  // Missing parameters and questions
  // ---------------------------------------------------------------------------

  /** The names of required schema entries whose value is absent or falsy, in schema order. */
  function RequiredMissing(ps: seq<ParamSpec>, current: map<string, Value>): (r: seq<string>)
    ensures forall p :: p in r <==> exists k :: 0 <= k < |ps| && ps[k].name == p &&
                                                ps[k].required && !Present(current, p)
  {
    if ps == [] then []
    else
      var last := ps[|ps| - 1];
      var front := ps[..|ps| - 1];
      var r := RequiredMissing(front, current) + (if last.required && !Present(current, last.name) then [last.name] else []);
      assert forall k :: 0 <= k < |front| ==> front[k] == ps[k];
      r
  }

  method GetMissingParameters(intentName: string, current: map<string, Value>) returns (missing: seq<string>)
    ensures intentName !in INTENTS ==> missing == []
    ensures intentName in INTENTS ==> missing == RequiredMissing(INTENTS[intentName].parameters, current)
  {
    var config := GetIntentConfig(intentName);
    if config.None? {
      return [];
    }
    var ps := config.value.parameters;
    missing := [];
    var i := 0;
    while i < |ps|
      invariant 0 <= i <= |ps|
      invariant missing == RequiredMissing(ps[..i], current)
    {
      assert ps[..i + 1][..i] == ps[..i];
      if ps[i].required && !Present(current, ps[i].name) {
        missing := missing + [ps[i].name];
      }
      i := i + 1;
    }
    assert ps[..|ps|] == ps;
  }

  /** For every configured intent the schema-driven missing list is exactly the
      comprehension the agents use over the schema's names. */
  lemma {:induction false} RequiredMissingOfConfiguredIntent(intentName: string, current: map<string, Value>)
    requires intentName in INTENTS
    ensures RequiredMissing(INTENTS[intentName].parameters, current)
            == MissingFrom(ParamNames(INTENTS[intentName].parameters), current)
  {
    SchemaIsAllRequired(intentName);
    AllRequiredMissing(INTENTS[intentName].parameters, current);
  }

  lemma {:induction false} AllRequiredMissing(ps: seq<ParamSpec>, current: map<string, Value>)
    requires forall k :: 0 <= k < |ps| ==> ps[k].required
    ensures RequiredMissing(ps, current) == MissingFrom(ParamNames(ps), current)
    decreases |ps|
  {
    if ps != [] {
      var front, last := ps[..|ps| - 1], ps[|ps| - 1];
      assert forall k :: 0 <= k < |front| ==> front[k] == ps[k];
      AllRequiredMissing(front, current);
      MissingFromSnoc(ParamNames(front), last.name, current);
      ParamNamesSnoc(ps);
    }
  }

  lemma ParamNamesSnoc(ps: seq<ParamSpec>)
    requires ps != []
    ensures ParamNames(ps) == ParamNames(ps[..|ps| - 1]) + [ps[|ps| - 1].name]
  {
    var names, front := ParamNames(ps), ParamNames(ps[..|ps| - 1]) + [ps[|ps| - 1].name];
    forall k | 0 <= k < |names|
      ensures names[k] == front[k]
    {
      if k < |ps| - 1 {
        assert front[k] == ParamNames(ps[..|ps| - 1])[k];
      }
    }
  }

  lemma {:induction false} MissingFromSnoc(names: seq<string>, p: string, m: map<string, Value>)
    ensures MissingFrom(names + [p], m) == MissingFrom(names, m) + (if Present(m, p) then [] else [p])
  {
    if names == [] {
      assert [] + [p] == [p];
    } else {
      var np := names + [p];
      var head := if Present(m, names[0]) then [] else [names[0]];
      var tail := if Present(m, p) then [] else [p];
      assert np[0] == names[0] && np[1..] == names[1..] + [p];
      MissingFromSnoc(names[1..], p, m);
      assert MissingFrom(np, m) == head + (MissingFrom(names[1..], m) + tail);
      assert MissingFrom(names, m) == head + MissingFrom(names[1..], m);
    }
  }

  function DefaultQuestion(paramName: string): string
  {
    "Could you please provide the " + paramName + "?"
  }

  /** The configured question for a parameter, or the generic one. */
  function GetParameterQuestion(intentName: string, paramName: string): (r: string)
    ensures intentName in INTENTS && FindParam(INTENTS[intentName].parameters, paramName).Some? ==>
              r == FindParam(INTENTS[intentName].parameters, paramName).value.question
    ensures intentName !in INTENTS ==> r == DefaultQuestion(paramName)
    ensures intentName in INTENTS && FindParam(INTENTS[intentName].parameters, paramName).None? ==>
              r == DefaultQuestion(paramName)
  {
    match GetIntentConfig(intentName)
    case None => DefaultQuestion(paramName)
    case Some(config) =>
      match FindParam(config.parameters, paramName)
      case None => DefaultQuestion(paramName)
      case Some(spec) => spec.question
  }

  // ---------------------------------------------------------------------------
  // Keyword intent detection
  // ---------------------------------------------------------------------------

  const INTENT_DETECTION_KEYWORDS: seq<(string, seq<string>)> := [
    ("book_flight", ["book flight", "flight booking", "airline ticket", "plane ticket",
                     "fly to", "flight to", "book airplane", "air travel"]),
    ("book_hotel", ["book hotel", "hotel booking", "hotel room", "accommodation",
                    "stay in", "hotel in", "reserve hotel"]),
    ("plan_vacation", ["plan vacation", "vacation planning", "trip planning", "holiday planning",
                       "organize trip", "plan trip", "vacation package", "plan my vacation"])
  ]

  /** `sum(1 for keyword in keywords if keyword in msg)`. */
  function MatchCount(keywords: seq<string>, msg: string): nat
  {
    if keywords == [] then 0
    else (if Contains(msg, keywords[0]) then 1 else 0) + MatchCount(keywords[1..], msg)
  }

  lemma {:induction false} MatchCountZeroIff(keywords: seq<string>, msg: string)
    ensures MatchCount(keywords, msg) <= |keywords|
    ensures MatchCount(keywords, msg) == 0 <==> forall k :: 0 <= k < |keywords| ==> !Contains(msg, keywords[k])
  {
    if keywords != [] {
      MatchCountZeroIff(keywords[1..], msg);
      assert forall k :: 1 <= k < |keywords| ==> keywords[k] == keywords[1..][k - 1];
    }
  }

  /** Each intent of the keyword table paired with its match count. */
  function Scored(table: seq<(string, seq<string>)>, msg: string): (r: seq<(string, nat)>)
    ensures |r| == |table|
    ensures forall j :: 0 <= j < |table| ==> r[j] == (table[j].0, MatchCount(table[j].1, msg))
  {
    seq(|table|, j requires 0 <= j < |table| => (table[j].0, MatchCount(table[j].1, msg)))
  }

  /** The `intent_scores` dictionary in insertion order: the entries with a positive score. */
  function Positives(scores: seq<(string, nat)>): seq<(string, nat)>
  {
    if scores == [] then []
    else
      var last := scores[|scores| - 1];
      Positives(scores[..|scores| - 1]) + (if last.1 > 0 then [last] else [])
  }

  /** `max(scores, key=scores.get)`: the first entry whose score is maximal. */
  function FirstMax(scores: seq<(string, nat)>): Option<(string, nat)>
  {
    if scores == [] then None
    else
      var best := FirstMax(scores[..|scores| - 1]);
      var last := scores[|scores| - 1];
      if best.None? || last.1 > best.value.1 then Some(last) else best
  }

  function KeywordIntent(userMessage: string): (r: Option<string>)
    ensures r.Some? ==> r.value in INTENTS
  {
    KeywordChoiceIsConfigured(Lower(userMessage));
    match FirstMax(Positives(Scored(INTENT_DETECTION_KEYWORDS, Lower(userMessage))))
    case None => None
    case Some(best) => Some(best.0)
  }

  method DetectIntentFromKeywords(userMessage: string) returns (r: Option<string>)
    ensures r == KeywordIntent(userMessage)
  {
    var intentScores := ScoreIntents(INTENT_DETECTION_KEYWORDS, Lower(userMessage));
    var best := PickFirstMax(intentScores);
    if best.None? {
      return None;
    }
    r := Some(best.value.0);
  }

  /** Scores every intent of the table against the message and keeps the positive scores. */
  method ScoreIntents(table: seq<(string, seq<string>)>, lowered: string) returns (intentScores: seq<(string, nat)>)
    ensures intentScores == Positives(Scored(table, lowered))
  {
    ghost var scored := Scored(table, lowered);
    intentScores := [];
    var i := 0;
    while i < |table|
      invariant 0 <= i <= |table|
      invariant intentScores == Positives(scored[..i])
    {
      assert scored[..i + 1][..i] == scored[..i];
      var score := MatchCount(table[i].1, lowered);
      if score > 0 {
        intentScores := intentScores + [(table[i].0, score)];
      }
      i := i + 1;
    }
    assert scored[..|table|] == scored;
  }

  /** The first entry of maximal score, scanning left to right. */
  method PickFirstMax(scores: seq<(string, nat)>) returns (best: Option<(string, nat)>)
    ensures best == FirstMax(scores)
  {
    if scores == [] {
      return None;
    }
    var top := scores[0];
    assert scores[..1][..0] == [];
    var j := 1;
    while j < |scores|
      invariant 1 <= j <= |scores|
      invariant FirstMax(scores[..j]) == Some(top)
    {
      assert scores[..j + 1][..j] == scores[..j];
      if scores[j].1 > top.1 {
        top := scores[j];
      }
      j := j + 1;
    }
    assert scores[..|scores|] == scores;
    best := Some(top);
  }

  lemma {:induction false} PositivesEmptyIff(scores: seq<(string, nat)>)
    ensures Positives(scores) == [] <==> forall j :: 0 <= j < |scores| ==> scores[j].1 == 0
  {
    if scores != [] {
      var front := scores[..|scores| - 1];
      PositivesEmptyIff(front);
      assert forall j :: 0 <= j < |front| ==> front[j] == scores[j];
    }
  }

  lemma {:induction false} FirstMaxNoneIff(scores: seq<(string, nat)>)
    ensures FirstMax(scores).None? <==> scores == []
  {
    if scores != [] {
      FirstMaxNoneIff(scores[..|scores| - 1]);
    }
  }

  /** Entry `i` has a positive score, no entry scores more and every earlier entry scores
      less. */
  ghost predicate FirstMaximalAt(scores: seq<(string, nat)>, i: nat)
  {
    && i < |scores|
    && scores[i].1 > 0
    && (forall j :: 0 <= j < |scores| ==> scores[j].1 <= scores[i].1)
    && (forall j :: 0 <= j < i ==> scores[j].1 < scores[i].1)
  }

  /** The entry chosen by FirstMax over the positive scores is the first entry of the list
      whose score is positive and maximal. */
  lemma {:induction false} FirstMaxOfPositives(scores: seq<(string, nat)>) returns (i: nat)
    requires FirstMax(Positives(scores)).Some?
    ensures FirstMaximalAt(scores, i)
    ensures FirstMax(Positives(scores)) == Some(scores[i])
  {
    var n := |scores|;
    var front := scores[..n - 1];
    var last := scores[n - 1];
    if last.1 == 0 {
      assert Positives(scores) == Positives(front);
      var k := FirstMaxOfPositives(front);
      i := KeepFrontBest(scores, k);
    } else {
      var best := FirstMax(Positives(front));
      if best.None? {
        i := OnlyPositiveIsLast(scores);
      } else {
        var k := FirstMaxOfPositives(front);
        i := ExtendPositive(scores, k);
      }
    }
  }

  /** A last entry that scores zero leaves the choice among the earlier entries in place. */
  lemma KeepFrontBest(scores: seq<(string, nat)>, k: nat) returns (i: nat)
    requires scores != [] && scores[|scores| - 1].1 == 0
    requires FirstMaximalAt(scores[..|scores| - 1], k)
    requires FirstMax(Positives(scores)) == Some(scores[..|scores| - 1][k])
    ensures FirstMaximalAt(scores, i)
    ensures FirstMax(Positives(scores)) == Some(scores[i])
  {
    i := k;
    var front := scores[..|scores| - 1];
    forall j | 0 <= j < |scores|
      ensures scores[j].1 <= scores[i].1
    {
      if j < |front| {
        assert front[j] == scores[j];
      }
    }
    forall j | 0 <= j < i
      ensures scores[j].1 < scores[i].1
    {
      assert front[j] == scores[j];
    }
  }

  /** When no earlier entry has a positive score, a positive last entry is the choice. */
  lemma OnlyPositiveIsLast(scores: seq<(string, nat)>) returns (i: nat)
    requires scores != [] && scores[|scores| - 1].1 > 0
    requires FirstMax(Positives(scores[..|scores| - 1])).None?
    ensures FirstMaximalAt(scores, i)
    ensures FirstMax(Positives(scores)) == Some(scores[i])
  {
    var front := scores[..|scores| - 1];
    var last := scores[|scores| - 1];
    FirstMaxNoneIff(Positives(front));
    PositivesEmptyIff(front);
    assert Positives(scores) == [last];
    i := |scores| - 1;
    forall j | 0 <= j < |scores| - 1
      ensures scores[j].1 == 0
    {
      assert front[j] == scores[j];
    }
  }

  /** A positive last entry replaces the earlier choice exactly when it scores strictly more. */
  lemma ExtendPositive(scores: seq<(string, nat)>, k: nat) returns (i: nat)
    requires scores != [] && scores[|scores| - 1].1 > 0
    requires FirstMaximalAt(scores[..|scores| - 1], k)
    requires FirstMax(Positives(scores[..|scores| - 1])) == Some(scores[..|scores| - 1][k])
    ensures FirstMaximalAt(scores, i)
    ensures FirstMax(Positives(scores)) == Some(scores[i])
  {
    var front := scores[..|scores| - 1];
    var last := scores[|scores| - 1];
    var ps := Positives(front);
    assert Positives(scores) == ps + [last];
    FirstMaxSnoc(ps, last);
    assert front[k] == scores[k];
    if last.1 > scores[k].1 {
      i := |scores| - 1;
      forall j | 0 <= j < |scores| - 1
        ensures scores[j].1 < last.1
      {
        assert front[j] == scores[j];
      }
      assert forall j :: 0 <= j < |scores| ==> scores[j].1 <= scores[i].1;
    } else {
      i := KeepFront(scores, k);
    }
  }

  lemma FirstMaxSnoc(ps: seq<(string, nat)>, last: (string, nat))
    ensures FirstMax(ps + [last]) ==
            if FirstMax(ps).None? || last.1 > FirstMax(ps).value.1 then Some(last) else FirstMax(ps)
  {
    assert (ps + [last])[..|ps|] == ps;
  }

  lemma KeepFront(scores: seq<(string, nat)>, k: nat) returns (i: nat)
    requires k < |scores| - 1 && scores[|scores| - 1].1 <= scores[k].1
    requires FirstMaximalAt(scores[..|scores| - 1], k)
    ensures i == k
    ensures FirstMaximalAt(scores, i)
  {
    i := k;
    var front := scores[..|scores| - 1];
    forall j | 0 <= j < |scores| - 1
      ensures scores[j].1 <= scores[i].1
    {
      assert front[j] == scores[j];
    }
    forall j | 0 <= j < i
      ensures scores[j].1 < scores[i].1
    {
      assert front[j] == scores[j];
    }
  }

  /** Keyword detection finds nothing exactly when no keyword of any intent occurs in the
      lower-cased message. */
  lemma KeywordIntentNoneIff(userMessage: string)
    ensures KeywordIntent(userMessage).None? <==>
            forall i, k :: 0 <= i < |INTENT_DETECTION_KEYWORDS| && 0 <= k < |INTENT_DETECTION_KEYWORDS[i].1| ==>
              !Contains(Lower(userMessage), INTENT_DETECTION_KEYWORDS[i].1[k])
  {
    var lowered := Lower(userMessage);
    var scored := Scored(INTENT_DETECTION_KEYWORDS, lowered);
    FirstMaxNoneIff(Positives(scored));
    PositivesEmptyIff(scored);
    forall i | 0 <= i < |INTENT_DETECTION_KEYWORDS| {
      MatchCountZeroIff(INTENT_DETECTION_KEYWORDS[i].1, lowered);
    }
  }

  /** Otherwise it returns an intent whose substring-match count is maximal, the first such
      in table order. */
  lemma KeywordIntentIsFirstMaximal(userMessage: string) returns (i: nat)
    requires KeywordIntent(userMessage).Some?
    ensures i < |INTENT_DETECTION_KEYWORDS|
    ensures KeywordIntent(userMessage) == Some(INTENT_DETECTION_KEYWORDS[i].0)
    ensures MatchCount(INTENT_DETECTION_KEYWORDS[i].1, Lower(userMessage)) > 0
    ensures forall j :: 0 <= j < |INTENT_DETECTION_KEYWORDS| ==>
              MatchCount(INTENT_DETECTION_KEYWORDS[j].1, Lower(userMessage))
              <= MatchCount(INTENT_DETECTION_KEYWORDS[i].1, Lower(userMessage))
    ensures forall j :: 0 <= j < i ==>
              MatchCount(INTENT_DETECTION_KEYWORDS[j].1, Lower(userMessage))
              < MatchCount(INTENT_DETECTION_KEYWORDS[i].1, Lower(userMessage))
  {
    var scored := Scored(INTENT_DETECTION_KEYWORDS, Lower(userMessage));
    i := FirstMaxOfPositives(scored);
  }

  /** The entry chosen among the positive scores is named after a configured intent. */
  lemma KeywordChoiceIsConfigured(lowered: string)
    ensures var best := FirstMax(Positives(Scored(INTENT_DETECTION_KEYWORDS, lowered)));
            best.Some? ==> best.value.0 in INTENTS
  {
    var scored := Scored(INTENT_DETECTION_KEYWORDS, lowered);
    if FirstMax(Positives(scored)).Some? {
      var i := FirstMaxOfPositives(scored);
      assert scored[i].0 == INTENT_DETECTION_KEYWORDS[i].0;
      assert i == 0 || i == 1 || i == 2;
    }
  }
}
