/**
 * The tool executor: it runs the current batch of the execution order. Every tool of the
 * batch is validated against the registry and, when valid, called; every tool gets a result
 * entry, a failure does not stop the batch, and the batch cursor moves on only when the whole
 * batch validated. Whether a tool function could be loaded and what calling it does are
 * inputs: `loaded(name)` and `call(name, kwargs)`.
 */
module ToolExecutingAgent {
  import opened Common
  import opened SystemConfig
  import opened ExecutionOrder
  import opened ToolRegistry
  import opened DialogState

  /** What calling a tool function did: returned a value or raised with a message. */
  datatype ToolOutcome = Returned(value: Value) | Raised(message: string)

  const NO_TOOLS: string := "No tools selected"

  const VALIDATION_FAILED: string := "Parameter validation failed: "

  const EXECUTION_FAILED: string := "Tool execution failed: "

  const CONFIG_NOT_FOUND: string := "Tool configuration not found: "

  // ---------------------------------------------------------------------------
  // One tool
  // ---------------------------------------------------------------------------

  /** The keyword arguments: every declared parameter, with `None` for an absent key. */
  function Arguments(declared: seq<string>, params: map<string, Value>): map<string, Value>
  {
    map p | p in declared :: if p in params then params[p] else Nil
  }

  /** `_execute_tool`'s argument loop. */
  method BuildArguments(declared: seq<string>, params: map<string, Value>) returns (kwargs: map<string, Value>)
    ensures kwargs == Arguments(declared, params)
  {
    kwargs := map[];
    var i := 0;
    while i < |declared|
      invariant 0 <= i <= |declared|
      invariant kwargs == Arguments(declared[..i], params)
    {
      var p := declared[i];
      assert declared[..i + 1] == declared[..i] + [p];
      if p in params {
        kwargs := kwargs[p := params[p]];
      } else {
        kwargs := kwargs[p := Nil];
      }
      i := i + 1;
    }
    assert declared[..|declared|] == declared;
  }

  /** The tool receives exactly its declared parameters, each as given or `None`; a parameter
      map that passed validation gives every argument a truthy value. */
  lemma ArgumentsAreDeclared(toolName: string, params: map<string, Value>)
    requires toolName in TOOLS
    ensures var kwargs := Arguments(TOOLS[toolName].parameters, params);
            && kwargs.Keys == Elems(TOOLS[toolName].parameters)
            && (forall p :: p in kwargs && p in params ==> kwargs[p] == params[p])
            && (forall p :: p in kwargs && p !in params ==> kwargs[p] == Nil)
            && (CheckToolParameters(toolName, params).Valid? ==> forall p :: p in kwargs ==> Truthy(kwargs[p]))
  {
  }

  /** `_execute_tool`: the error dictionary for a tool that cannot be loaded or is not
      configured or raises, otherwise the tool's dictionary, or a non-dictionary result
      wrapped under `result`. */
  function ToolOutput(toolName: string, params: map<string, Value>,
                      loaded: string -> bool, call: (string, map<string, Value>) -> ToolOutcome): (r: map<string, Value>)
    ensures !loaded(toolName) || toolName !in TOOLS ==> r.Keys == {"error"} && Truthy(r["error"])
    ensures loaded(toolName) && toolName in TOOLS && call(toolName, Arguments(TOOLS[toolName].parameters, params)).Raised? ==>
              r.Keys == {"error"} && Truthy(r["error"])
  {
    if !loaded(toolName) then map["error" := Str("Tool " + toolName + " not found")]
    else
      match GetToolConfig(toolName)
      case None => map["error" := Str(CONFIG_NOT_FOUND + toolName)]
      case Some(config) =>
        match call(toolName, Arguments(config.parameters, params))
        case Raised(message) => map["error" := Str(EXECUTION_FAILED + message)]
        case Returned(v) => if v.Dict? then v.entries else map["result" := v]
  }

  method ExecuteTool(toolName: string, params: map<string, Value>,
                     loaded: string -> bool, call: (string, map<string, Value>) -> ToolOutcome)
    returns (result: map<string, Value>)
    ensures result == ToolOutput(toolName, params, loaded, call)
  {
    if !loaded(toolName) {
      return map["error" := Str("Tool " + toolName + " not found")];
    }
    var config := GetToolConfig(toolName);
    if config.None? {
      return map["error" := Str(CONFIG_NOT_FOUND + toolName)];
    }
    var kwargs := BuildArguments(config.value.parameters, params);
    var outcome := call(toolName, kwargs);
    match outcome
    case Raised(message) =>
      result := map["error" := Str(EXECUTION_FAILED + message)];
    case Returned(v) =>
      result := if v.Dict? then v.entries else map["result" := v];
  }

  /** A failing tool call never escapes: the output then carries an `error` entry, and a
      returned value is always kept, as the dictionary itself or under `result`. */
  lemma ToolOutputCatchesFailures(toolName: string, params: map<string, Value>,
                                  loaded: string -> bool, call: (string, map<string, Value>) -> ToolOutcome)
    requires toolName in TOOLS && loaded(toolName)
    ensures var out := ToolOutput(toolName, params, loaded, call);
            var outcome := call(toolName, Arguments(TOOLS[toolName].parameters, params));
            && (outcome.Raised? ==> out == map["error" := Str(EXECUTION_FAILED + outcome.message)])
            && (outcome.Returned? && outcome.value.Dict? ==> out == outcome.value.entries)
            && (outcome.Returned? && !outcome.value.Dict? ==> out.Keys == {"result"} && out["result"] == outcome.value)
  {
  }

  // ---------------------------------------------------------------------------
  // One batch
  // ---------------------------------------------------------------------------

  /** The entry recorded for one tool of the batch: a validation error with `success` false,
      or the tool's output with `success` set to true, whatever that output holds. */
  function ResultFor(toolName: string, params: map<string, Value>,
                     loaded: string -> bool, call: (string, map<string, Value>) -> ToolOutcome): (r: Value)
    ensures r.Dict? && "success" in r.entries
    ensures r.entries["success"] == Bool(true) <==> CheckToolParameters(toolName, params).Valid?
    ensures CheckToolParameters(toolName, params).Invalid? ==> r.entries.Keys == {"error", "success"}
  {
    match CheckToolParameters(toolName, params)
    case Invalid(e) => Dict(map["error" := Str(VALIDATION_FAILED + e), "success" := Bool(false)])
    case Valid => Dict(ToolOutput(toolName, params, loaded, call)["success" := Bool(true)])
  }

  /** `batch_results` after the loop. */
  function BatchResults(batch: seq<string>, params: map<string, Value>,
                        loaded: string -> bool, call: (string, map<string, Value>) -> ToolOutcome): map<string, Value>
  {
    if batch == [] then map[]
    else
      var last := batch[|batch| - 1];
      BatchResults(batch[..|batch| - 1], params, loaded, call)[last := ResultFor(last, params, loaded, call)]
  }

  /** Every tool of the batch passes validation: `batch_success` after the loop. */
  predicate AllValid(batch: seq<string>, params: map<string, Value>)
  {
    batch == [] ||
    (AllValid(batch[..|batch| - 1], params) && CheckToolParameters(batch[|batch| - 1], params).Valid?)
  }

  lemma {:induction false} AllValidMembers(batch: seq<string>, params: map<string, Value>)
    ensures AllValid(batch, params) <==> forall t :: t in batch ==> CheckToolParameters(t, params).Valid?
  {
    if batch != [] {
      var front := batch[..|batch| - 1];
      AllValidMembers(front, params);
      assert forall t :: t in batch <==> t in front || t == batch[|batch| - 1];
    }
  }

  /** The tools appended to `completed_tools`: those that passed validation, in batch order. */
  function Validated(batch: seq<string>, params: map<string, Value>): seq<string>
  {
    if batch == [] then []
    else
      var last := batch[|batch| - 1];
      Validated(batch[..|batch| - 1], params) + (if CheckToolParameters(last, params).Valid? then [last] else [])
  }

  /** One iteration of the batch loop: validate, then call only a valid tool. */
  method RunTool(toolName: string, params: map<string, Value>,
                 loaded: string -> bool, call: (string, map<string, Value>) -> ToolOutcome)
    returns (entry: Value, valid: bool)
    ensures entry == ResultFor(toolName, params, loaded, call)
    ensures valid == CheckToolParameters(toolName, params).Valid?
  {
    var validation := ValidateToolParameters(toolName, params);
    if validation.Invalid? {
      return Dict(map["error" := Str(VALIDATION_FAILED + validation.error), "success" := Bool(false)]), false;
    }
    var result := ExecuteTool(toolName, params, loaded, call);
    return Dict(result["success" := Bool(true)]), true;
  }

  /** The batch loop: a failed validation records its error and moves on to the next tool. */
  method RunBatch(batch: seq<string>, params: map<string, Value>, completed: seq<string>,
                  loaded: string -> bool, call: (string, map<string, Value>) -> ToolOutcome)
    returns (batchResults: map<string, Value>, batchSuccess: bool, completedTools: seq<string>)
    ensures batchResults == BatchResults(batch, params, loaded, call)
    ensures batchSuccess == AllValid(batch, params)
    ensures completedTools == completed + Validated(batch, params)
  {
    batchResults := map[];
    batchSuccess := true;
    completedTools := completed;
    var i := 0;
    while i < |batch|
      invariant 0 <= i <= |batch|
      invariant batchResults == BatchResults(batch[..i], params, loaded, call)
      invariant batchSuccess == AllValid(batch[..i], params)
      invariant completedTools == completed + Validated(batch[..i], params)
    {
      var toolName := batch[i];
      var entry, valid := RunTool(toolName, params, loaded, call);
      BatchLoopStep(batch, i, params, completed, loaded, call, batchResults, batchSuccess, completedTools, entry, valid);
      batchResults := batchResults[toolName := entry];
      batchSuccess := batchSuccess && valid;
      if valid {
        completedTools := completedTools + [toolName];
      }
      i := i + 1;
    }
    assert batch[..|batch|] == batch;
  }

  /** The loop's three results after tool `i`, from those before it and the tool's own entry
      and validation. */
  lemma BatchLoopStep(batch: seq<string>, i: nat, params: map<string, Value>, completed: seq<string>,
                      loaded: string -> bool, call: (string, map<string, Value>) -> ToolOutcome,
                      results: map<string, Value>, success: bool, done: seq<string>, entry: Value, valid: bool)
    requires i < |batch|
    requires results == BatchResults(batch[..i], params, loaded, call)
    requires success == AllValid(batch[..i], params)
    requires done == completed + Validated(batch[..i], params)
    requires entry == ResultFor(batch[i], params, loaded, call)
    requires valid == CheckToolParameters(batch[i], params).Valid?
    ensures results[batch[i] := entry] == BatchResults(batch[..i + 1], params, loaded, call)
    ensures (success && valid) == AllValid(batch[..i + 1], params)
    ensures (if valid then done + [batch[i]] else done) == completed + Validated(batch[..i + 1], params)
  {
    BatchPrefixStep(batch, i, params, loaded, call);
    AppendAssociates(completed, Validated(batch[..i], params), [batch[i]]);
  }

  /** How the three loop results change when the loop reaches tool `i`. */
  lemma BatchPrefixStep(batch: seq<string>, i: nat, params: map<string, Value>,
                        loaded: string -> bool, call: (string, map<string, Value>) -> ToolOutcome)
    requires i < |batch|
    ensures BatchResults(batch[..i + 1], params, loaded, call) ==
            BatchResults(batch[..i], params, loaded, call)[batch[i] := ResultFor(batch[i], params, loaded, call)]
    ensures AllValid(batch[..i + 1], params) == (AllValid(batch[..i], params) && CheckToolParameters(batch[i], params).Valid?)
    ensures Validated(batch[..i + 1], params) ==
            Validated(batch[..i], params) + (if CheckToolParameters(batch[i], params).Valid? then [batch[i]] else [])
  {
    assert batch[..i + 1][..i] == batch[..i];
    assert batch[..i + 1] == batch[..i] + [batch[i]];
  }

  /** Every tool of the batch has exactly its own entry, and no other key is written. */
  lemma {:induction false} BatchResultsCoverBatch(batch: seq<string>, params: map<string, Value>,
                                                  loaded: string -> bool, call: (string, map<string, Value>) -> ToolOutcome)
    ensures BatchResults(batch, params, loaded, call).Keys == Elems(batch)
    ensures forall t :: t in batch ==> BatchResults(batch, params, loaded, call)[t] == ResultFor(t, params, loaded, call)
  {
    if batch != [] {
      var front := batch[..|batch| - 1];
      BatchResultsCoverBatch(front, params, loaded, call);
      assert forall t :: t in batch <==> t in front || t == batch[|batch| - 1];
    }
  }

  /** The batch succeeds exactly when every tool's entry records `success` true. */
  lemma BatchSuccessIsEveryEntry(batch: seq<string>, params: map<string, Value>,
                                 loaded: string -> bool, call: (string, map<string, Value>) -> ToolOutcome)
    ensures var results := BatchResults(batch, params, loaded, call);
            AllValid(batch, params) <==>
              forall t :: t in batch ==> t in results && results[t].Dict? && "success" in results[t].entries
                                          && results[t].entries["success"] == Bool(true)
  {
    BatchResultsCoverBatch(batch, params, loaded, call);
    AllValidMembers(batch, params);
    var results := BatchResults(batch, params, loaded, call);
    if !AllValid(batch, params) {
      var t :| t in batch && !CheckToolParameters(t, params).Valid?;
      assert results[t].entries["success"] == Bool(false);
    }
  }

  /** The completed tools are the validated tools of the batch, and all of them when every
      tool validates. */
  lemma {:induction false} ValidatedMembers(batch: seq<string>, params: map<string, Value>)
    ensures forall t :: t in Validated(batch, params) <==> t in batch && CheckToolParameters(t, params).Valid?
    ensures AllValid(batch, params) ==> Validated(batch, params) == batch
  {
    if batch != [] {
      var front := batch[..|batch| - 1];
      var last := batch[|batch| - 1];
      ValidatedMembers(front, params);
      assert forall t :: t in batch <==> t in front || t == last;
      assert batch == front + [last];
      if AllValid(batch, params) {
        assert AllValid(front, params);
      }
    }
  }

  /** They are completed in batch order. */
  lemma {:induction false} ValidatedInOrder(batch: seq<string>, params: map<string, Value>)
    ensures Subsequence(Validated(batch, params), batch)
  {
    if batch != [] {
      var front := batch[..|batch| - 1];
      var last := batch[|batch| - 1];
      ValidatedInOrder(front, params);
      assert batch == front + [last];
      var tail := if CheckToolParameters(last, params).Valid? then [last] else [];
      assert Subsequence(tail, [last]);
      SubsequenceAppend(Validated(front, params), front, tail, [last]);
    }
  }

  /** Joining two subsequences gives a subsequence of the joined sequences. */
  lemma {:induction false} SubsequenceAppend<T>(a: seq<T>, s: seq<T>, b: seq<T>, t: seq<T>)
    requires Subsequence(a, s) && Subsequence(b, t)
    ensures Subsequence(a + b, s + t)
    decreases |s|
  {
    if a == [] {
      SubsequenceWiden(b, t, s);
      assert a + b == b;
    } else {
      assert s != [];
      assert (s + t)[0] == s[0] && (s + t)[1..] == s[1..] + t;
      if a[0] == s[0] {
        assert (a + b)[0] == a[0] && (a + b)[1..] == a[1..] + b;
        SubsequenceAppend(a[1..], s[1..], b, t);
      } else {
        assert (a + b)[0] == a[0];
        SubsequenceAppend(a, s[1..], b, t);
      }
    }
  }

  /** A subsequence of `t` stays one when anything is put in front of `t`. */
  lemma {:induction false} SubsequenceWiden<T>(b: seq<T>, t: seq<T>, s: seq<T>)
    requires Subsequence(b, t)
    ensures Subsequence(b, s + t)
    decreases |s|
  {
    if s != [] {
      SubsequenceWiden(b, t, s[1..]);
      assert s + t == [s[0]] + (s[1..] + t);
      SubsequenceCons(s[0], b, s[1..] + t);
    } else {
      assert s + t == t;
    }
  }

  // ---------------------------------------------------------------------------
  // The agent
  // ---------------------------------------------------------------------------

  /** `ToolExecutingAgent.__call__` as the state it produces; every path routes to the
      supervisor. */
  function ExecuteStep(s: Session, loaded: string -> bool, call: (string, map<string, Value>) -> ToolOutcome): (r: Step)
    ensures r.next == Supervisor
    ensures r.session == s.(toolResults := r.session.toolResults, context := r.session.context)
    ensures s.selectedTools != [] ==> s.toolResults.Keys <= r.session.toolResults.Keys
  {
    if s.selectedTools == [] then
      Step(Supervisor, s.(toolResults := map[], context := s.context.(executionError := Some(NO_TOOLS))))
    else
      var missing := MissingFrom(RequiredParameters(s.context), s.extractedParameters);
      if missing != [] then
        Step(Supervisor, s.(context := s.context.(
          executionBlocked := Some(true),
          missingParameters := Some(missing),
          lastResponseType := Some(ParameterValidationFailed))))
      else
        var order := GetOr(s.context.toolExecutionOrder, []);
        var cursor := GetOr(s.context.currentToolBatch, 0);
        if cursor >= |order| then
          Step(Supervisor, s.(context := s.context.(allToolsCompleted := Some(true))))
        else
          var batch := order[cursor];
          var success := AllValid(batch, s.extractedParameters);
          Step(Supervisor, s.(
            toolResults := s.toolResults + BatchResults(batch, s.extractedParameters, loaded, call),
            context := s.context.(
              currentToolBatch := Some(if success then cursor + 1 else cursor),
              completedTools := Some(GetOr(s.context.completedTools, []) + Validated(batch, s.extractedParameters)),
              batchExecutionSuccess := Some(success))))
  }

  method ToolExecuting(s: Session, loaded: string -> bool, call: (string, map<string, Value>) -> ToolOutcome)
    returns (r: Step)
    ensures r == ExecuteStep(s, loaded, call)
  {
    var parameters := s.extractedParameters;
    if s.selectedTools == [] {
      return Step(Supervisor, s.(toolResults := map[], context := s.context.(executionError := Some(NO_TOOLS))));
    }
    var missing := MissingFrom(RequiredParameters(s.context), parameters);
    if missing != [] {
      return Step(Supervisor, s.(context := s.context.(
        executionBlocked := Some(true),
        missingParameters := Some(missing),
        lastResponseType := Some(ParameterValidationFailed))));
    }
    var order := GetOr(s.context.toolExecutionOrder, []);
    var cursor := GetOr(s.context.currentToolBatch, 0);
    if cursor >= |order| {
      return Step(Supervisor, s.(context := s.context.(allToolsCompleted := Some(true))));
    }
    var batchResults, batchSuccess, completedTools :=
      RunBatch(order[cursor], parameters, GetOr(s.context.completedTools, []), loaded, call);
    var nextBatch := if batchSuccess then cursor + 1 else cursor;
    r := Step(Supervisor, s.(
      toolResults := s.toolResults + batchResults,
      context := s.context.(
        currentToolBatch := Some(nextBatch),
        completedTools := Some(completedTools),
        batchExecutionSuccess := Some(batchSuccess))));
  }

  /** The cursor read by the executor. */
  function Cursor(c: Context): nat
  {
    GetOr(c.currentToolBatch, 0)
  }

  function Order(c: Context): seq<seq<string>>
  {
    GetOr(c.toolExecutionOrder, [])
  }

  /** The guards: nothing runs without tools, with a missing parameter, or past the last
      batch; each case leaves the results and the cursor as they were (the first clears the
      results) and says why. */
  lemma GuardsRunNothing(s: Session, loaded: string -> bool, call: (string, map<string, Value>) -> ToolOutcome)
    ensures var r := ExecuteStep(s, loaded, call);
            && r.next == Supervisor
            && r.session.messages == s.messages
            && r.session.extractedParameters == s.extractedParameters
            && (s.selectedTools == [] ==>
                  r.session.toolResults == map[] && r.session.context.executionError == Some(NO_TOOLS))
            && (s.selectedTools != [] && SomeRequiredMissing(s) ==>
                  && r.session.toolResults == s.toolResults
                  && Cursor(r.session.context) == Cursor(s.context)
                  && r.session.context.executionBlocked == Some(true)
                  && r.session.context.missingParameters.Some?
                  && (forall p :: p in r.session.context.missingParameters.value <==>
                                  p in RequiredParameters(s.context) && !Present(s.extractedParameters, p)))
            && (s.selectedTools != [] && !SomeRequiredMissing(s) && Cursor(s.context) >= |Order(s.context)| ==>
                  && r.session.toolResults == s.toolResults
                  && Cursor(r.session.context) == Cursor(s.context)
                  && r.session.context.allToolsCompleted == Some(true))
  {
    MissingFromMembers(RequiredParameters(s.context), s.extractedParameters);
    MissingFromEmptyIff(RequiredParameters(s.context), s.extractedParameters);
  }

  /** Some required parameter is absent or falsy. */
  predicate SomeRequiredMissing(s: Session)
  {
    exists p :: p in RequiredParameters(s.context) && !Present(s.extractedParameters, p)
  }

  /** Running a batch: every tool of the batch gets its entry, entries of other tools are kept,
      the cursor advances by one exactly when every entry records success and stays otherwise,
      and the completed list grows by the validated tools in batch order. */
  lemma BatchRun(s: Session, loaded: string -> bool, call: (string, map<string, Value>) -> ToolOutcome)
    requires s.selectedTools != [] && !SomeRequiredMissing(s) && Cursor(s.context) < |Order(s.context)|
    ensures var r := ExecuteStep(s, loaded, call);
            var batch := Order(s.context)[Cursor(s.context)];
            var params := s.extractedParameters;
            var results := r.session.toolResults;
            && r.next == Supervisor
            && results.Keys == s.toolResults.Keys + Elems(batch)
            && (forall t :: t in batch ==> results[t] == ResultFor(t, params, loaded, call))
            && (forall t :: t in s.toolResults && t !in batch ==> results[t] == s.toolResults[t])
            && (AllValid(batch, params) <==>
                  forall t :: t in batch ==> results[t].Dict? && "success" in results[t].entries
                                              && results[t].entries["success"] == Bool(true))
            && Cursor(r.session.context) == (if AllValid(batch, params) then Cursor(s.context) + 1 else Cursor(s.context))
            && r.session.context.completedTools == Some(GetOr(s.context.completedTools, []) + Validated(batch, params))
            && r.session.context.batchExecutionSuccess == Some(AllValid(batch, params))
            && r.session.context == s.context.(currentToolBatch := r.session.context.currentToolBatch,
                                               completedTools := r.session.context.completedTools,
                                               batchExecutionSuccess := r.session.context.batchExecutionSuccess)
  {
    MissingFromMembers(RequiredParameters(s.context), s.extractedParameters);
    MissingFromEmptyIff(RequiredParameters(s.context), s.extractedParameters);
    var batch := Order(s.context)[Cursor(s.context)];
    BatchResultsCoverBatch(batch, s.extractedParameters, loaded, call);
    BatchSuccessIsEveryEntry(batch, s.extractedParameters, loaded, call);
  }

  /** With the context the tool chooser writes for an intent and every schema parameter
      present, every tool of every batch validates, so each batch succeeds. */
  lemma ChosenBatchesValidate(intentName: string, order: seq<seq<string>>, params: map<string, Value>, k: nat)
    requires intentName in INTENTS && IsExecutionOrder(Elems(INTENTS[intentName].tools), order)
    requires k < |order|
    requires forall p :: p in ParamNames(INTENTS[intentName].parameters) ==> Present(params, p)
    ensures AllValid(order[k], params)
  {
    Partition(Elems(INTENTS[intentName].tools), order);
    forall t | t in order[k]
      ensures CheckToolParameters(t, params).Valid?
    {
      assert t in Elems(INTENTS[intentName].tools);
      ToolParametersAreInSchema(intentName, t);
    }
    AllValidMembers(order[k], params);
  }

  // ---------------------------------------------------------------------------
  // Successive executor turns
  // ---------------------------------------------------------------------------

  /** The session after `n` executor turns in a row. */
  function ExecuteTurns(s: Session, n: nat, loaded: string -> bool, call: (string, map<string, Value>) -> ToolOutcome): Session
    decreases n
  {
    if n == 0 then s else ExecuteStep(ExecuteTurns(s, n - 1, loaded, call), loaded, call).session
  }

  /** The executor can run every batch of its order in full: tools are selected, no required
      parameter is missing and every tool of every batch passes validation. */
  predicate Runnable(s: Session)
  {
    && s.selectedTools != [] && !SomeRequiredMissing(s)
    && forall k :: 0 <= k < |Order(s.context)| ==> AllValid(Order(s.context)[k], s.extractedParameters)
  }

  /** `t` is what `n` full batch turns make of `s`: still runnable, the cursor `n` further on and
      the `n` batches from the old cursor added to the completed list. */
  ghost predicate Progressed(s: Session, t: Session, n: nat)
  {
    && Runnable(t)
    && t.extractedParameters == s.extractedParameters
    && Order(t.context) == Order(s.context)
    && Cursor(t.context) == Cursor(s.context) + n
    && Cursor(t.context) <= |Order(s.context)|
    && GetOr(t.context.completedTools, []) ==
       GetOr(s.context.completedTools, []) + BatchesFrom(Order(s.context), Cursor(s.context), n)
  }

  /** Then each turn runs the next batch in full: the cursor advances by one per turn, and the
      completed list grows by the batches run, in order, whatever the tools return. */
  lemma {:induction false} BatchesRunInOrder(s: Session, n: nat,
                                             loaded: string -> bool, call: (string, map<string, Value>) -> ToolOutcome)
    requires Runnable(s)
    requires Cursor(s.context) + n <= |Order(s.context)|
    ensures Progressed(s, ExecuteTurns(s, n, loaded, call), n)
    decreases n
  {
    if n > 0 {
      BatchesRunInOrder(s, n - 1, loaded, call);
      var u := ExecuteTurns(s, n - 1, loaded, call);
      FullBatchTurn(u, loaded, call);
      ProgressStep(s, u, ExecuteStep(u, loaded, call).session, n);
      assert ExecuteTurns(s, n, loaded, call) == ExecuteStep(u, loaded, call).session;
    }
  }

  /** One more full batch turn, from `u` to `w`. */
  lemma ProgressStep(s: Session, u: Session, w: Session, n: nat)
    requires 0 < n && Cursor(s.context) + n <= |Order(s.context)|
    requires Progressed(s, u, n - 1)
    requires && Runnable(w)
             && w.extractedParameters == u.extractedParameters
             && Cursor(w.context) == Cursor(u.context) + 1
             && Order(w.context) == Order(u.context)
             && GetOr(w.context.completedTools, []) ==
                GetOr(u.context.completedTools, []) + Order(u.context)[Cursor(u.context)]
    ensures Progressed(s, w, n)
  {
    var order := Order(s.context);
    var c := Cursor(s.context);
    var before := GetOr(s.context.completedTools, []);
    assert Order(u.context)[Cursor(u.context)] == order[c + n - 1];
    AppendAssociates(before, BatchesFrom(order, c, n - 1), order[c + n - 1]);
  }

  /** The tools of the `n` batches from index `c` on, batch after batch. */
  function BatchesFrom(order: seq<seq<string>>, c: nat, n: nat): seq<string>
    requires c + n <= |order|
  {
    if n == 0 then [] else BatchesFrom(order, c, n - 1) + order[c + n - 1]
  }

  /** From the first batch, those are the whole flattened order. */
  lemma {:induction false} BatchesFromStart(order: seq<seq<string>>, n: nat)
    requires n <= |order|
    ensures BatchesFrom(order, 0, n) == Flatten(order[..n])
  {
    if n > 0 {
      BatchesFromStart(order, n - 1);
      assert order[..n][..n - 1] == order[..n - 1];
    }
  }

  /** One turn of a runnable executor runs the batch under the cursor in full. */
  lemma FullBatchTurn(u: Session, loaded: string -> bool, call: (string, map<string, Value>) -> ToolOutcome)
    requires Runnable(u)
    requires Cursor(u.context) < |Order(u.context)|
    ensures var w := ExecuteStep(u, loaded, call).session;
            && Runnable(w)
            && w.extractedParameters == u.extractedParameters
            && Cursor(w.context) == Cursor(u.context) + 1
            && Order(w.context) == Order(u.context)
            && GetOr(w.context.completedTools, []) ==
               GetOr(u.context.completedTools, []) + Order(u.context)[Cursor(u.context)]
  {
    var batch := Order(u.context)[Cursor(u.context)];
    ValidatedMembers(batch, u.extractedParameters);
    MissingFromEmptyIff(RequiredParameters(u.context), u.extractedParameters);
  }

  /** Right after tool choosing, with every schema parameter present, as many executor turns as
      there are batches complete every tool of the intent exactly once, and the next turn
      reports that all tools are completed. */
  lemma AllBatchesComplete(s: Session, intentName: string,
                           loaded: string -> bool, call: (string, map<string, Value>) -> ToolOutcome)
    requires intentName in INTENTS && IsExecutionOrder(Elems(INTENTS[intentName].tools), Order(s.context))
    requires forall p :: p in ParamNames(INTENTS[intentName].parameters) ==> Present(s.extractedParameters, p)
    requires s.selectedTools != [] && !SomeRequiredMissing(s)
    requires Cursor(s.context) == 0 && GetOr(s.context.completedTools, []) == []
    ensures var order := Order(s.context);
            var t := ExecuteTurns(s, |order|, loaded, call);
            && NoDup(GetOr(t.context.completedTools, []))
            && Elems(GetOr(t.context.completedTools, [])) == Elems(INTENTS[intentName].tools)
            && ExecuteTurns(s, |order| + 1, loaded, call).context.allToolsCompleted == Some(true)
  {
    var order := Order(s.context);
    forall k | 0 <= k < |order|
      ensures AllValid(order[k], s.extractedParameters)
    {
      ChosenBatchesValidate(intentName, order, s.extractedParameters, k);
    }
    BatchesRunInOrder(s, |order|, loaded, call);
    BatchesFromStart(order, |order|);
    assert order[..|order|] == order;
    ScheduledOnce(Elems(INTENTS[intentName].tools), order);
    var t := ExecuteTurns(s, |order|, loaded, call);
    MissingFromEmptyIff(RequiredParameters(t.context), t.extractedParameters);
  }
}
