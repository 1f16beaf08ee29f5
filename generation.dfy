/**
 * The response generator: it passes through when the last message is already the assistant's,
 * otherwise it appends exactly one assistant message, a summary of the tool results or a
 * general acknowledgment. The text the language model would write is an input (`None` when
 * the call raises); when the summary call fails, a fixed sentence naming the intent is used.
 */
module GenerationAgent {
  import opened Common
  import opened SystemConfig
  import opened ToolRegistry
  import opened ToolExecutingAgent
  import opened DialogState

  const ISSUES_HEAD: string := "I encountered some issues with your "

  const ISSUES_TAIL: string := " request. Please try again."

  const DONE_HEAD: string := "Great! I've completed your "

  const DONE_TAIL: string := " request."

  /** The exception `intent.replace` raises when there is no current intent. */
  const NO_INTENT_ERROR: string := "'NoneType' object has no attribute 'replace'"

  /** The exception of a language-model call, which the general acknowledgment does not catch. */
  const MODEL_ERROR: string := "language model call failed"

  /** `result.get("error") or not result.get("success", True)` for a dictionary result. */
  predicate ResultHasError(v: Value)
  {
    v.Dict? && (Present(v.entries, "error") || ("success" in v.entries && !Truthy(v.entries["success"])))
  }

  /** `has_errors`: some dictionary result reports an error; other results are skipped. */
  predicate HasErrors(toolResults: map<string, Value>): (r: bool)
    ensures toolResults == map[] ==> !r
    ensures r ==> exists k :: k in toolResults && toolResults[k].Dict?
  {
    exists k :: k in toolResults && ResultHasError(toolResults[k])
  }

  /** The intent as the fallback sentences print it, with underscores as spaces. */
  function Spaced(intent: string): (r: string)
    ensures |r| == |intent|
    ensures forall i :: 0 <= i < |r| ==> r[i] != '_'
  {
    ReplaceChar(intent, '_', ' ')
  }

  /** The sentence used when the summary call fails. */
  function FallbackText(intent: string, hasErrors: bool): (r: string)
    ensures Contains(r, Spaced(intent))
  {
    var head := if hasErrors then ISSUES_HEAD else DONE_HEAD;
    var r := head + Spaced(intent) + (if hasErrors then ISSUES_TAIL else DONE_TAIL);
    assert OccursAt(r, Spaced(intent), |head|);
    r
  }

  /** The fallback names the intent, and it is the apology exactly when a result reports an
      error. */
  lemma FallbackNamesIntent(intent: string, hasErrors: bool)
    ensures Contains(FallbackText(intent, hasErrors), Spaced(intent))
    ensures hasErrors <==> ISSUES_HEAD <= FallbackText(intent, hasErrors)
  {
    var text := FallbackText(intent, hasErrors);
    if !hasErrors {
      assert text[0] == 'G' && ISSUES_HEAD[0] == 'I';
    }
  }

  /** `_generate_response_from_results`: the intent is formatted before the model is called, so a
      missing intent raises; a failed model call falls back to the fixed sentence. */
  function ResponseFromResults(intent: Option<string>, toolResults: map<string, Value>, reply: Option<string>): (r: Result<string>)
    ensures r.Failure? <==> intent.None?
    ensures intent.Some? && reply.Some? ==> r == Success(reply.value)
    ensures intent.Some? && reply.None? ==> Contains(r.value, Spaced(intent.value))
  {
    match intent
    case None => Failure(NO_INTENT_ERROR)
    case Some(name) =>
      match reply
      case Some(text) => Success(text)
      case None => Success(FallbackText(name, HasErrors(toolResults)))
  }

  /** `_generate_general_response`: the model's text; its failure is not caught. */
  function GeneralResponse(reply: Option<string>): (r: Result<string>)
    ensures r.Success? <==> reply.Some?
    ensures r.Success? ==> r.value == reply.value
  {
    match reply
    case Some(text) => Success(text)
    case None => Failure(MODEL_ERROR)
  }

  /** `GenerationAgent.__call__`, with `Failure` for an exception that escapes it. */
  function Generate(s: Session, reply: Option<string>): (r: Result<Step>)
    ensures r.Success? ==> r.value.next == End || r.value.next == Supervisor
    ensures r.Success? ==> Extends(s.messages, r.value.session.messages)
    ensures r.Success? ==> r.value.session == s.(messages := r.value.session.messages)
    ensures r.Failure? ==> !LastFrom(s.messages, Assistant) && (s.currentIntent.None? || reply.None?)
  {
    if LastFrom(s.messages, Assistant) then Success(Step(End, s))
    else if s.toolResults != map[] then
      match ResponseFromResults(s.currentIntent, s.toolResults, reply)
      case Failure(e) => Failure(e)
      case Success(text) =>
        Success(Step(if s.context.allToolsCompleted == Some(true) then End else Supervisor,
                     s.(messages := Say(s.messages, text))))
    else
      match GeneralResponse(reply)
      case Failure(e) => Failure(e)
      case Success(text) => Success(Step(Supervisor, s.(messages := Say(s.messages, text))))
  }

  /** A message already written by the assistant is passed through untouched. */
  lemma NoDoubleResponse(s: Session, reply: Option<string>)
    requires LastFrom(s.messages, Assistant)
    ensures Generate(s, reply) == Success(Step(End, s))
  {
  }

  /** Otherwise a successful turn appends exactly one assistant message and changes nothing else;
      with results it ends the dialog exactly when every batch is done, without results it
      returns to the supervisor. */
  lemma OneResponse(s: Session, reply: Option<string>)
    requires !LastFrom(s.messages, Assistant) && Generate(s, reply).Success?
    ensures var r := Generate(s, reply).value;
            && Extends(s.messages, r.session.messages) && |r.session.messages| == |s.messages| + 1
            && LastFrom(r.session.messages, Assistant)
            && r.session == s.(messages := r.session.messages)
            && (s.toolResults != map[] ==> (r.next == End <==> s.context.allToolsCompleted == Some(true)))
            && (s.toolResults != map[] ==> r.next != End ==> r.next == Supervisor)
            && (s.toolResults == map[] ==> r.next == Supervisor)
  {
  }

  /** Running the generator again right after it spoke does nothing more. */
  lemma SecondCallPassesThrough(s: Session, reply1: Option<string>, reply2: Option<string>)
    requires Generate(s, reply1).Success?
    ensures var r := Generate(s, reply1).value;
            Generate(r.session, reply2) == Success(Step(End, r.session))
  {
    if !LastFrom(s.messages, Assistant) {
      OneResponse(s, reply1);
    }
  }

  /** With results but no current intent the turn raises, whatever the model would say. */
  lemma ResultsWithoutIntentRaise(s: Session, reply: Option<string>)
    requires !LastFrom(s.messages, Assistant) && s.toolResults != map[] && s.currentIntent.None?
    ensures Generate(s, reply) == Failure(NO_INTENT_ERROR)
  {
  }

  /** With results and an intent the turn never raises, and a failed model call yields the
      fallback sentence. */
  lemma ResultsWithIntentSucceed(s: Session)
    requires !LastFrom(s.messages, Assistant) && s.toolResults != map[] && s.currentIntent.Some?
    ensures Generate(s, None).Success?
    ensures var m := Generate(s, None).value.session.messages;
            m[|m| - 1].content == FallbackText(s.currentIntent.value, HasErrors(s.toolResults))
  {
  }

  /** An executor entry reports an error exactly when the tool failed validation or its output
      carries a truthy `error`: a tool output is stored with `success` true even when it is an
      error dictionary, so `error` is what reveals it. */
  lemma ExecutorEntryErrors(toolName: string, params: map<string, Value>,
                            loaded: string -> bool, call: (string, map<string, Value>) -> ToolOutcome)
    ensures ResultHasError(ResultFor(toolName, params, loaded, call)) <==>
              !CheckToolParameters(toolName, params).Valid?
              || Present(ToolOutput(toolName, params, loaded, call), "error")
  {
    var out := ToolOutput(toolName, params, loaded, call);
    if CheckToolParameters(toolName, params).Valid? {
      assert ResultFor(toolName, params, loaded, call).entries == out["success" := Bool(true)];
    } else {
      var e := CheckToolParameters(toolName, params).error;
      assert |VALIDATION_FAILED + e| > 0;
    }
  }

  /** A tool that could not be loaded, or that raised, shows up as an error in the summary's
      error check even though its entry says `success`. */
  lemma FailedCallIsAnError(toolName: string, params: map<string, Value>,
                            loaded: string -> bool, call: (string, map<string, Value>) -> ToolOutcome)
    requires CheckToolParameters(toolName, params).Valid?
    requires !loaded(toolName) || call(toolName, Arguments(TOOLS[toolName].parameters, params)).Raised?
    ensures ResultHasError(ResultFor(toolName, params, loaded, call))
    ensures ResultFor(toolName, params, loaded, call).entries["success"] == Bool(true)
  {
    ExecutorEntryErrors(toolName, params, loaded, call);
    var out := ToolOutput(toolName, params, loaded, call);
    assert "error" in out && out["error"].Str? && |out["error"].s| > 0;
  }

  /** The summary of a batch apologises exactly when some tool of the batch failed validation or
      produced an output with an `error`. */
  lemma BatchHasErrors(batch: seq<string>, params: map<string, Value>,
                       loaded: string -> bool, call: (string, map<string, Value>) -> ToolOutcome)
    ensures HasErrors(BatchResults(batch, params, loaded, call)) <==>
              exists t :: t in batch && (!CheckToolParameters(t, params).Valid?
                                         || Present(ToolOutput(t, params, loaded, call), "error"))
  {
    var results := BatchResults(batch, params, loaded, call);
    BatchResultsCoverBatch(batch, params, loaded, call);
    if HasErrors(results) {
      var k :| k in results && ResultHasError(results[k]);
      ExecutorEntryErrors(k, params, loaded, call);
    }
    if exists t :: t in batch && (!CheckToolParameters(t, params).Valid?
                                  || Present(ToolOutput(t, params, loaded, call), "error")) {
      var t :| t in batch && (!CheckToolParameters(t, params).Valid?
                              || Present(ToolOutput(t, params, loaded, call), "error"));
      ExecutorEntryErrors(t, params, loaded, call);
      assert t in results && ResultHasError(results[t]);
    }
  }
}
