/**
 * The tool-choosing agent: for the current intent it loads the configured tools, the schema's
 * parameter names and the execution order, and resets the batch cursor. The update replaces
 * `dialog_context` as a whole, so earlier keys (retry counts, a pending confirmation) are dropped.
 */
module ToolChoosingAgent {
  import opened Common
  import opened SystemConfig
  import opened ExecutionOrder
  import opened DialogState

  /** The current intent is truthy and configured. */
  predicate KnownIntent(s: Session)
  {
    HasIntent(s) && s.currentIntent.value in INTENTS
  }

  /** The context written for a known intent. */
  function ChosenContext(intentName: string, order: seq<seq<string>>): Context
    requires intentName in INTENTS
  {
    EmptyContext.(
      requiredParameters := Some(ParamNames(INTENTS[intentName].parameters)),
      toolExecutionOrder := Some(order),
      currentToolBatch := Some(0),
      completedTools := Some([]))
  }

  /** The agent's update, given the order the scheduler produced for the current intent. */
  function ChooseTools(s: Session, order: seq<seq<string>>): (r: Step)
    ensures r.next == Supervisor
    ensures !HasIntent(s) ==>
              r.session == s.(selectedTools := [], context := EmptyContext.(error := Some("No intent to process")))
    ensures HasIntent(s) && !KnownIntent(s) ==>
              r.session == s.(selectedTools := [],
                              context := EmptyContext.(error := Some("Unknown intent: " + s.currentIntent.value)))
    ensures KnownIntent(s) ==>
              r.session == s.(selectedTools := INTENTS[s.currentIntent.value].tools,
                              context := ChosenContext(s.currentIntent.value, order))
  {
    if !HasIntent(s) then
      Step(Supervisor, s.(selectedTools := [], context := EmptyContext.(error := Some("No intent to process"))))
    else
      var intentName := s.currentIntent.value;
      match GetIntentConfig(intentName)
      case None =>
        Step(Supervisor, s.(selectedTools := [], context := EmptyContext.(error := Some("Unknown intent: " + intentName))))
      case Some(config) =>
        Step(Supervisor, s.(selectedTools := config.tools, context := ChosenContext(intentName, order)))
  }

  /** `ToolChoosingAgent.__call__`: the scheduler runs only for a configured intent. */
  method ToolChoosing(s: Session) returns (r: Step)
    ensures !KnownIntent(s) ==> r == ChooseTools(s, [])
    ensures KnownIntent(s) ==>
              && r.session.context.toolExecutionOrder.Some?
              && IsExecutionOrder(Elems(INTENTS[s.currentIntent.value].tools), r.session.context.toolExecutionOrder.value)
              && r == ChooseTools(s, r.session.context.toolExecutionOrder.value)
  {
    if !KnownIntent(s) {
      return ChooseTools(s, []);
    }
    var order := GetToolExecutionOrder(s.currentIntent.value);
    r := ChooseTools(s, order);
  }

  /** After choosing, the context's required list is the schema's parameter list, the agents'
      missing-parameter comprehension agrees with `get_missing_parameters`, the retry counts and
      any pending confirmation are gone, and the cursor is at the first batch. */
  lemma ChosenStateIsFresh(s: Session, order: seq<seq<string>>, params: map<string, Value>)
    requires KnownIntent(s)
    ensures var c := ChooseTools(s, order).session.context;
            && RequiredParameters(c) == ParamNames(INTENTS[s.currentIntent.value].parameters)
            && NoDup(RequiredParameters(c))
            && MissingFrom(RequiredParameters(c), params)
               == RequiredMissing(INTENTS[s.currentIntent.value].parameters, params)
            && RetryCounts(c) == map[] && MaxRetries(c) == 5
            && c.awaitingConfirmation.None?
            && c.currentToolBatch == Some(0) && c.completedTools == Some([])
  {
    SchemaIsAllRequired(s.currentIntent.value);
    RequiredMissingOfConfiguredIntent(s.currentIntent.value, params);
  }

  /** A known intent always selects a non-empty tool list, so the supervisor's first rung
      (intent but no tools) cannot send the dialog straight back here. */
  lemma ChosenToolsNonEmpty(s: Session, order: seq<seq<string>>)
    requires KnownIntent(s)
    ensures ChooseTools(s, order).session.selectedTools != []
  {
    var i := s.currentIntent.value;
    assert i == "book_flight" || i == "book_hotel" || i == "plan_vacation";
  }

  /** The fixed table `_fallback_tool_selection` falls back to. */
  datatype Selection = Selection(tools: seq<string>, requiredParameters: seq<string>, reasoning: string)

  function FallbackToolSelection(intent: string): (r: Selection)
    ensures intent == "book_flight" ==>
              r.tools == ["book_flight"] && r.requiredParameters == ["origin", "destination", "date"]
    ensures intent == "book_hotel" ==>
              r.tools == ["book_hotel"] && r.requiredParameters == ["city", "days"]
    ensures intent != "book_flight" && intent != "book_hotel" ==>
              r.tools == [] && r.requiredParameters == []
  {
    if intent == "book_flight" then
      Selection(["book_flight"], ["origin", "destination", "date"],
                "Flight booking requires origin, destination, and date")
    else if intent == "book_hotel" then
      Selection(["book_hotel"], ["city", "days"], "Hotel booking requires city and number of days")
    else
      Selection([], [], "Unknown intent")
  }

  /** The fallback only names tools the intent is configured with. */
  lemma FallbackToolsAreConfigured(intent: string)
    ensures forall t :: t in FallbackToolSelection(intent).tools ==>
              intent in INTENTS && t in INTENTS[intent].tools
  {
  }

  /** The fallback's hotel parameters are not the schema's: it asks for `city`, the schema for
      `destination`. */
  lemma FallbackHotelParametersDiffer()
    ensures "city" in FallbackToolSelection("book_hotel").requiredParameters
    ensures "city" !in ParamNames(INTENTS["book_hotel"].parameters)
  {
    assert ParamNames(INTENTS["book_hotel"].parameters) == ["destination", "days"];
  }
}
