/**
 * The session record every agent reads and the routing step every agent returns.
 *
 * A LangGraph `Command(goto, update)` is modelled by the state it produces: `Step(next, session)`
 * where `session` is the old state with the update's top-level keys replaced. The free-form
 * `dialog_context` dictionary is a record of optional fields; an absent key is `None`, and a
 * `.get(key, default)` read is `GetOr(field, default)`.
 */
module DialogState {
  import opened Common

  datatype Role = User | Assistant

  datatype Message = Message(role: Role, content: string)

  /** The graph's nodes; `End` is LangGraph's `"__end__"`. */
  datatype Node = Supervisor | ToolChoosing | InputParameter | ToolExecuting | Generation | End

  /** The values the agents write under `last_response_type`. */
  datatype ResponseKind =
    | UserInput
    | ParameterFailure
    | Clarification
    | ParameterProgress
    | ConfirmationRequest
    | IntentSwitch
    | ParameterValidationFailed
    | Generated

  /** The `awaiting_confirmation` dictionary `{"type": "intent_switch", "from": ..., "to": ...}`. */
  datatype PendingSwitch = PendingSwitch(fromIntent: string, toIntent: string)

  /** One entry of `paused_intents`. */
  datatype PausedIntent = PausedIntent(
    intent: string,
    parameters: map<string, Value>,
    tools: seq<string>,
    pausedAt: string)

  /** The keys of `dialog_context` the agents read or write. A key whose value is `None` and an
      absent key are read the same way by every agent, so both are `None` here. */
  datatype Context = Context(
    error: Option<string>,
    requiredParameters: Option<seq<string>>,
    toolExecutionOrder: Option<seq<seq<string>>>,
    currentToolBatch: Option<nat>,
    completedTools: Option<seq<string>>,
    retryCounts: Option<map<string, nat>>,
    maxRetries: Option<int>,
    parameterCollectionFailed: Option<bool>,
    failedParameter: Option<string>,
    lastResponseType: Option<ResponseKind>,
    needsClarification: Option<bool>,
    lastMissingParams: Option<seq<string>>,
    awaitingConfirmation: Option<PendingSwitch>,
    endConversation: Option<bool>,
    executionError: Option<string>,
    executionBlocked: Option<bool>,
    missingParameters: Option<seq<string>>,
    allToolsCompleted: Option<bool>,
    batchExecutionSuccess: Option<bool>,
    intentSwitched: Option<bool>,
    previousIntent: Option<string>)

  /** The empty dictionary `{}`. */
  const EmptyContext: Context := Context(
    None, None, None, None, None, None, None, None, None, None, None,
    None, None, None, None, None, None, None, None, None, None)

  /** `DialogState`. */
  datatype Session = Session(
    messages: seq<Message>,
    currentIntent: Option<string>,
    pausedIntents: seq<PausedIntent>,
    extractedParameters: map<string, Value>,
    selectedTools: seq<string>,
    toolResults: map<string, Value>,
    context: Context)

  /** What an agent returns: where to go next and the state after its update. */
  datatype Step = Step(next: Node, session: Session)

  /** `dialog_context.get("required_parameters", [])`. */
  function RequiredParameters(c: Context): seq<string>
  {
    GetOr(c.requiredParameters, [])
  }

  /** `dialog_context.get("retry_counts", {})`. */
  function RetryCounts(c: Context): map<string, nat>
  {
    GetOr(c.retryCounts, map[])
  }

  /** `dialog_context.get("max_retries", 5)`. */
  function MaxRetries(c: Context): int
  {
    GetOr(c.maxRetries, 5)
  }

  /** A truthy `current_intent`: present and not the empty string. */
  predicate HasIntent(s: Session)
  {
    s.currentIntent.Some? && s.currentIntent.value != ""
  }

  /** The last message was written by the given role. */
  predicate LastFrom(messages: seq<Message>, role: Role)
  {
    messages != [] && messages[|messages| - 1].role == role
  }

  /** `messages + [{"role": "assistant", "content": text}]`. */
  function Say(messages: seq<Message>, text: string): (r: seq<Message>)
    ensures |r| == |messages| + 1 && r[..|messages|] == messages
    ensures LastFrom(r, Assistant) && r[|messages|].content == text
  {
    messages + [Message(Assistant, text)]
  }

  /** The content of the most recent user message, scanning the history backwards. */
  function LastUserContent(messages: seq<Message>): (r: Option<string>)
    ensures r.None? <==> NoUserMessage(messages)
    ensures r.Some? ==> exists i :: LatestUserAt(messages, i) && messages[i].content == r.value
  {
    if messages == [] then None
    else if messages[|messages| - 1].role == User then
      assert LatestUserAt(messages, |messages| - 1);
      Some(messages[|messages| - 1].content)
    else
      var front := messages[..|messages| - 1];
      var r := LastUserContent(front);
      LatestUserShift(messages);
      r
  }

  /** No message of the history is from the user. */
  predicate NoUserMessage(messages: seq<Message>)
  {
    forall i :: 0 <= i < |messages| ==> messages[i].role != User
  }

  /** Message `i` is from the user and every later message is not. */
  predicate LatestUserAt(messages: seq<Message>, i: int)
  {
    && 0 <= i < |messages| && messages[i].role == User
    && forall j :: i < j < |messages| ==> messages[j].role != User
  }

  /** A trailing non-user message changes neither which message is the latest user message nor
      whether there is one. */
  lemma LatestUserShift(messages: seq<Message>)
    requires messages != [] && messages[|messages| - 1].role != User
    ensures NoUserMessage(messages) <==> NoUserMessage(messages[..|messages| - 1])
    ensures forall i :: LatestUserAt(messages, i) <==> LatestUserAt(messages[..|messages| - 1], i)
  {
    var front := messages[..|messages| - 1];
    assert forall i :: 0 <= i < |front| ==> front[i] == messages[i];
  }

  /** Appending an assistant message does not change which user message is the latest. */
  lemma LastUserContentIgnoresReplies(messages: seq<Message>, text: string)
    ensures LastUserContent(Say(messages, text)) == LastUserContent(messages)
  {
    assert Say(messages, text)[..|messages|] == messages;
  }

  /** The history before a step is a prefix of the history after it and at most one message
      was added. */
  predicate Extends(before: seq<Message>, after: seq<Message>)
  {
    |before| <= |after| <= |before| + 1 && after[..|before|] == before
  }

  lemma ExtendsItself(messages: seq<Message>)
    ensures Extends(messages, messages)
  {
    assert messages[..|messages|] == messages;
  }
}
