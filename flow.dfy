/**
 * Properties that span several agents: what the supervisor's routing ladder makes of the
 * state the tool executor and the response generator leave behind.
 */
module DialogFlow {
  import opened Common
  import opened DialogState
  import opened ExecutionOrder
  import opened SupervisorAgent
  import opened ToolExecutingAgent
  import opened GenerationAgent

  /** Once the executor has run a non-empty batch, the results are non-empty, so the ladder
      never routes to the executor again: it sends the turn to the generator, or ends it when
      the last response was recorded as generated. Later batches of the order are therefore
      not reached through the supervisor while these results stand. */
  lemma ResultsStopExecution(s: Session, loaded: string -> bool, call: (string, map<string, Value>) -> ToolOutcome)
    requires s.selectedTools != [] && !SomeRequiredMissing(s)
    requires Cursor(s.context) < |Order(s.context)| && Order(s.context)[Cursor(s.context)] != []
    ensures var r := ExecuteStep(s, loaded, call).session;
            && r.toolResults != map[]
            && DecideNextAction(r) != ToolExecuting
            && DecideNextAction(r) == (if s.context.lastResponseType == Some(Generated) then End else Generation)
  {
    var batch := Order(s.context)[Cursor(s.context)];
    BatchRun(s, loaded, call);
    assert batch[0] in Elems(batch);
    RoutedToGeneration(ExecuteStep(s, loaded, call).session);
  }

  /** The ladder on a state with tools, results and nothing missing. */
  lemma RoutedToGeneration(r: Session)
    requires r.selectedTools != [] && r.toolResults != map[] && !SomeRequiredMissing(r)
    ensures DecideNextAction(r) == (if r.context.lastResponseType == Some(Generated) then End else Generation)
  {
    MissingFromEmptyIff(RequiredParameters(r.context), r.extractedParameters);
  }

  /** The executor keeps every earlier result: its turns never shrink the result map, so once
      it is non-empty it stays non-empty across executor turns. */
  lemma ExecutorKeepsResults(s: Session, loaded: string -> bool, call: (string, map<string, Value>) -> ToolOutcome)
    requires s.selectedTools != []
    ensures s.toolResults.Keys <= ExecuteStep(s, loaded, call).session.toolResults.Keys
  {
  }

  /** After every batch has run, the generator's summary ends the dialog. */
  lemma CompletedRunEndsAtGeneration(s: Session, reply: Option<string>)
    requires s.toolResults != map[] && s.context.allToolsCompleted == Some(true)
    requires !LastFrom(s.messages, Assistant) && Generate(s, reply).Success?
    ensures Generate(s, reply).value.next == End
  {
    OneResponse(s, reply);
  }
}
