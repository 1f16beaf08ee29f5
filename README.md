# Travel dialog orchestrator — a Dafny model

The modelled system is a multi-agent dialog engine for a travel assistant. One user talks to it
over many turns. It works out what the user wants (an *intent*: `book_flight`, `book_hotel`,
`plan_vacation`). It collects the parameters that intent needs, runs the intent's tools in
dependency batches, and answers with a summary. If the user asks for something else mid-way, it
asks for confirmation first and then pauses the current intent.

The agents are nodes of a graph. Each turn an agent reads the shared dialog state and returns the
next node together with a state update. The model renders every agent as a function or method from
a `Session` to a `Step(next, session)`:

- `next` is the node the agent routes to (`Supervisor`, `ToolChoosing`, `InputParameter`,
  `ToolExecuting`, `Generation`, `End`);
- `session` is the dialog state after the agent's update has been applied.

The free-form `dialog_context` dictionary is a record of optional fields; an absent key is `None`.
Python truthiness (`not params.get(p)`) is modelled explicitly by `Common.Truthy` and
`Common.Present`.

Everything the engine asks of a language model or of the tool functions is an *input* to the model:

- the classifier's reply, the parameter-extraction result and the generated text are `Option`
  values (`None` when the call raises);
- loading a tool is a predicate `loaded`;
- calling a tool is a function `call` that returns a value or raises.

So every property below holds whatever those collaborators answer.

Modules, following the source files:

| module | file | models |
|---|---|---|
| `Common` | common.dfy | Python values and truthiness, substring search, `lower`, `strip`, `replace` |
| `SystemConfig` | system_config.dfy | the tool, intent and keyword tables, lookups, validators, missing parameters, questions, keyword detection |
| `ExecutionOrder` | execution_order.dfy | `get_tool_execution_order`, the batch scheduler |
| `ToolRegistry` | tool_registry.dfy | the registry's table queries and parameter validation |
| `DialogState` | dialog_state.dfy | the session, its context, messages, routing targets |
| `ToolChoosingAgent` | tool_choosing.dfy | tool selection for the current intent |
| `InputParameterAgent` | input_parameter.dfy | slot filling with clarification questions and a retry ceiling |
| `SupervisorAgent` | supervisor.dfy | intent detection, the routing ladder, intent-switch confirmation |
| `ToolExecutingAgent` | tool_executing.dfy | batch execution |
| `GenerationAgent` | generation.dfy | the final response |
| `DialogFlow` | flow.dfy | properties spanning several agents |

Where the written description of the system and the code disagree, the model follows the code:

- **Dependency tags.** A tool's `requires` entries are output *tags* (`flight_options`), but the
  scheduler compares them against *tool names* already scheduled (system_config.py:247). No tag
  is ever a tool name (`SystemConfig.DependencyTagsAreNotToolNames`). So every tool with a
  dependency is scheduled through the stall-breaking branch, as a batch of its own
  (`ExecutionOrder.DependentToolIsForced`). The resulting orders still put searches before
  bookings (`ExecutionOrder.BookFlightOrder`, `ExecutionOrder.PlanVacationOrder`).
- **Later batches.** After the first batch has run, `tool_results` is non-empty. From then on the
  supervisor's ladder never routes to the executor again; it sends the turn to the generator or
  ends it (`DialogFlow.ResultsStopExecution`). A confirmed intent switch clears the results. The
  executor's no-tools guard clears them too, but the ladder never routes to the executor without
  selected tools.
  So the second batch of a two-batch order is not reached through the supervisor. Running the
  executor repeatedly does run every batch in order (`ToolExecutingAgent.AllBatchesComplete`).
- **Resuming.** No code resumes a paused intent. Paused entries are only ever written.
- **Error check.** The generator's error check treats a result as failed when its `success` is
  falsy, not only when it is `false`. A stored tool output always has `success` set to true, so
  for executed tools only a truthy `error` key counts (`GenerationAgent.ExecutorEntryErrors`).
- **Uncaught exceptions.** Two exceptions escape the generator. A summary turn with no current
  intent fails at `intent.replace`. A failing general-response call is not caught. The model
  returns `Failure` for both.

## Model

| member | source | states |
|---|---|---|
| Common.MissingFromMembers | src/agents/input_parameter_agent.py:59-60 | a parameter is listed as missing exactly when it is required and has no truthy value |
| Common.MissingFromEmptyIff | src/agents/tool_executing_agent.py:37-39 | nothing is missing exactly when every required parameter has a truthy value |
| Common.MissingFromIsSubsequence | src/agents/input_parameter_agent.py:59-60 | the missing list keeps the order of the required list |
| Common.MissingFrom | src/agents/input_parameter_agent.py:59-60 | the missing list is never longer than the required list; its contents are stated by `Common.MissingFromMembers` |
| Common.Contains | src/config/system_config.py:305-306 | `keyword in message` holds exactly when the keyword occurs at some position of the message |
| Common.Lower | src/config/system_config.py:300-302 | lowering keeps the length and maps every character through the ASCII case map |
| Common.StripEmptyIffBlank | src/agents/supervisor_agent.py:232 | stripping yields the empty string exactly when the text is all whitespace |
| Common.ReplaceChar | src/agents/generation_agent.py:102-105 | replacing keeps the length and changes exactly the occurrences of the replaced character |
| DialogState.Say | src/agents/generation_agent.py:44-49 | an appended assistant message extends the history by one message from the assistant, with the given text |
| DialogState.LastUserContent | src/agents/input_parameter_agent.py:30-34 | the result is the content of the last user message, and none exactly when no message is from the user |
| DialogState.LastUserContentIgnoresReplies | src/agents/input_parameter_agent.py:30-34 | an assistant reply does not change which user message the slot filler reads next |
| SystemConfig.GetIntentConfig | src/config/system_config.py:188-190 | a configuration is found exactly for the three configured intents, and it is the table's entry |
| SystemConfig.IntentNamesNonEmpty | src/config/system_config.py:107-182 | no configured intent has the empty name, so a detected intent is always truthy |
| SystemConfig.GetToolConfig | src/config/system_config.py:192-194 | a configuration is found exactly for the configured tools, it is the table's entry, and its parameter list is non-empty and duplicate-free |
| SystemConfig.GetAvailableIntents | src/config/system_config.py:196-198 | the list holds every configured intent exactly once |
| SystemConfig.GetAvailableTools | src/config/system_config.py:200-202 | the list holds every configured tool exactly once |
| SystemConfig.FindParam | src/config/system_config.py:210-212 | a lookup finds the first schema entry with the name, and fails exactly when no entry has it |
| SystemConfig.IntentToolsAreConfigured | src/config/system_config.py:107-182 | every tool an intent lists is in the tool table |
| SystemConfig.SchemaIsAllRequired | src/config/system_config.py:107-182 | every schema parameter is required, and schema names are distinct |
| SystemConfig.ToolParametersAreInSchema | src/config/system_config.py:64-182 | every parameter a tool takes is in the schema of each intent that uses the tool |
| SystemConfig.DependencyTagsAreNotToolNames | src/config/system_config.py:64-101 | no dependency tag of a tool is the name of a tool |
| SystemConfig.ValidateStringMeansNonBlank | src/config/system_config.py:13-15 | a value is a valid string exactly when it is a string with a non-whitespace character |
| SystemConfig.ValidateType | src/config/system_config.py:45-58 | an unknown type name never validates, a date must be a string, and a string is checked by the string rule |
| SystemConfig.ValidateParameter | src/config/system_config.py:204-219 | validation fails for an unknown intent or a parameter outside its schema; otherwise the result is exactly the verdict of the validator for the parameter's declared type |
| SystemConfig.RequiredMissing | src/config/system_config.py:266-268 | a name is reported exactly when it is a required schema entry without a truthy value |
| SystemConfig.GetMissingParameters | src/config/system_config.py:259-270 | the loop yields nothing for an unknown intent and otherwise exactly the required parameters without a truthy value |
| SystemConfig.RequiredMissingOfConfiguredIntent | src/config/system_config.py:259-270 | for a configured intent the missing list is the schema names, in order, without a truthy value |
| SystemConfig.GetParameterQuestion | src/config/system_config.py:272-279 | the schema's question for a known parameter, the default question otherwise |
| SystemConfig.MatchCountZeroIff | src/config/system_config.py:305-306 | an intent scores at most its number of keywords, and zero exactly when none occurs in the message |
| SystemConfig.DetectIntentFromKeywords | src/config/system_config.py:300-313 | the loops compute the first intent of maximal positive score |
| SystemConfig.ScoreIntents | src/config/system_config.py:304-309 | the loop keeps the intents with a positive score, in table order, with their scores |
| SystemConfig.PickFirstMax | src/config/system_config.py:311-313 | the loop picks the first entry of maximal score, as `max` does |
| SystemConfig.FirstMaxOfPositives | src/config/system_config.py:311-313 | the pick is a positive entry no later entry beats and every earlier entry scores below |
| SystemConfig.KeywordIntentNoneIff | src/config/system_config.py:300-313 | no intent is detected exactly when no keyword of any intent occurs in the lowered message |
| SystemConfig.KeywordIntentIsFirstMaximal | src/config/system_config.py:300-313 | the detected intent has a positive, maximal score, and every intent listed before it scores strictly less |
| SystemConfig.KeywordIntent | src/config/system_config.py:285-313 | a keyword-detected intent is a configured intent |
| ExecutionOrder.GetToolExecutionOrder | src/config/system_config.py:221-257 | an unknown intent has no batches; otherwise the batches are an execution order of the intent's tools |
| ExecutionOrder.Schedule | src/config/system_config.py:234-255 | each batch is the set of ready remaining tools, or one forced tool when none is ready, until none remain |
| ExecutionOrder.ReadyTools | src/config/system_config.py:238-248 | the ready list holds, once each, exactly the remaining configured tools whose dependencies are all scheduled |
| ExecutionOrder.BatchesNonEmpty | src/config/system_config.py:250-254 | every batch is non-empty and duplicate-free |
| ExecutionOrder.ScheduledOnce | src/config/system_config.py:234-257 | every tool of the intent is scheduled exactly once |
| ExecutionOrder.Partition | src/config/system_config.py:234-257 | the batches partition the intent's tools |
| ExecutionOrder.BatchCountBound | src/config/system_config.py:237-255 | there are at most as many batches as tools |
| ExecutionOrder.NormalOrForced | src/config/system_config.py:245-252 | an unforced batch holds only tools whose dependencies are all in earlier batches; a forced batch holds one tool |
| ExecutionOrder.NoDependenciesFirstBatch | src/config/system_config.py:238-248 | a tool without dependencies runs in the first batch |
| ExecutionOrder.EmptyToolsEmptyOrder | src/config/system_config.py:229-231 | no tools give no batches |
| ExecutionOrder.DependentToolIsForced | src/config/system_config.py:245-252 | a configured tool with a dependency always runs alone in a forced batch |
| ExecutionOrder.SearchThenBook | src/config/system_config.py:234-257 | a free tool with one dependent tool gives the order free tool, then dependent tool |
| ExecutionOrder.BookFlightOrder | src/config/system_config.py:221-257 | example: flight booking runs `search_flights`, then `book_flight` |
| ExecutionOrder.FreeThenTwoForced | src/config/system_config.py:234-257 | free tools plus two dependent tools give three batches: the free tools, then the two dependent tools one at a time in either order |
| ExecutionOrder.FirstBatchIsFree | src/config/system_config.py:238-248 | the first batch is exactly the free tools |
| ExecutionOrder.PlanVacationOrder | src/config/system_config.py:221-257 | example: vacation planning runs both searches and the weather first, then the two bookings one at a time |
| ToolRegistry.GetToolsForIntent | src/tools/tool_registry.py:41-46 | a known intent's tool list, empty for an unknown one; every tool listed is configured |
| ToolRegistry.GetAllTools | src/tools/tool_registry.py:48-53 | the result maps every configured tool, and only those, to its description |
| ToolRegistry.FirstMissing | src/tools/tool_registry.py:64-66 | the check stops at the first parameter without a truthy value, and finds none exactly when all are truthy |
| ToolRegistry.FirstMissingIsHead | src/tools/tool_registry.py:64-66 | the parameter reported is the head of the missing list |
| ToolRegistry.CheckToolParameters | src/tools/tool_registry.py:55-68 | an unknown tool is rejected; a known tool is valid exactly when all its parameters are truthy, and otherwise the error names the first missing one |
| ToolRegistry.ValidateToolParameters | src/tools/tool_registry.py:55-68 | the loop returns the validation result |
| ToolRegistry.ExtraKeysIrrelevant | src/tools/tool_registry.py:55-68 | keys a tool does not take never change its validation |
| ToolChoosingAgent.ChooseTools | src/agents/tool_choosing_agent.py:20-65 | routes to the supervisor: no intent or an unknown intent clears the tools and sets the error; a known intent selects its tools and a fresh context |
| ToolChoosingAgent.ToolChoosing | src/agents/tool_choosing_agent.py:20-65 | for a known intent the stored order is an execution order of its tools |
| ToolChoosingAgent.ChosenStateIsFresh | src/agents/tool_choosing_agent.py:54-65 | the new context requires the schema's parameters, with no retries, no pending switch, cursor zero and nothing completed |
| ToolChoosingAgent.ChosenToolsNonEmpty | src/agents/tool_choosing_agent.py:43-57 | a known intent always selects some tool |
| ToolChoosingAgent.FallbackToolSelection | src/agents/tool_choosing_agent.py:130-150 | the fixed fallback table for flights and hotels, empty for anything else |
| ToolChoosingAgent.FallbackToolsAreConfigured | src/agents/tool_choosing_agent.py:133-144 | every fallback tool belongs to its intent |
| ToolChoosingAgent.FallbackHotelParametersDiffer | src/agents/tool_choosing_agent.py:139-143 | example: the hotel fallback asks for `city`, which the hotel schema does not have |
| InputParameterAgent.ExtractParameters | src/agents/input_parameter_agent.py:141-219 | only required keys are kept, with the collaborator's values, and nothing is extracted without a known intent or a usable result |
| InputParameterAgent.SlotFill | src/agents/input_parameter_agent.py:19-139 | the turn goes back to the supervisor without a message or to generation with exactly one assistant message appended; intent, tools, results and paused intents never change |
| InputParameterAgent.SlotFillCeilingFields | src/agents/input_parameter_agent.py:70-125 | the required list and the ceiling are kept, and the retry counts are either unchanged or, when something is missing and nothing is at the ceiling, bumped once for the missing parameters |
| InputParameterAgent.ClarificationQuestion | src/agents/input_parameter_agent.py:221-244 | nothing missing gives the generic question; otherwise the text ends with the question of the last missing parameter |
| InputParameterAgent.Phrase | src/agents/input_parameter_agent.py:228-244 | no questions give the generic question; otherwise the text opens with the one-, two- or several-details lead chosen by the count and ends with the last question |
| InputParameterAgent.Questions | src/agents/input_parameter_agent.py:240-243 | one configured question per missing parameter, in order |
| InputParameterAgent.ClarificationMentionsEveryQuestion | src/agents/input_parameter_agent.py:221-244 | the clarification contains the question of every missing parameter |
| InputParameterAgent.HotelClarification | src/agents/input_parameter_agent.py:239-241 | example: two missing hotel parameters give the two-question sentence |
| InputParameterAgent.HotelQuestions | src/config/system_config.py:133-148 | example: the hotel schema's questions for destination and days |
| InputParameterAgent.FirstAtCeiling | src/agents/input_parameter_agent.py:74-76 | finds the first missing parameter at the retry ceiling, none exactly when all are below it |
| InputParameterAgent.BumpEffect | src/agents/input_parameter_agent.py:106-108 | each missing parameter's count grows by one and every other count is kept |
| InputParameterAgent.InputParameter | src/agents/input_parameter_agent.py:19-139 | the turn's loops compute the slot-filling step |
| InputParameterAgent.FindUserMessage | src/agents/input_parameter_agent.py:30-34 | the backward scan finds the last user message |
| InputParameterAgent.CheckCeilings | src/agents/input_parameter_agent.py:74-76 | the loop finds the first missing parameter at the ceiling |
| InputParameterAgent.IncrementRetries | src/agents/input_parameter_agent.py:106-108 | the loop bumps every missing parameter's count |
| InputParameterAgent.NoUserMessageChangesOnlyContext | src/agents/input_parameter_agent.py:36-40 | without user text only the context changes, to the error alone, and the turn returns to the supervisor |
| InputParameterAgent.MergeKeepsRequiredKeys | src/agents/input_parameter_agent.py:56-60 | the merge adds only required keys, new values win, old values stay, and missing means required without a truthy value |
| InputParameterAgent.CeilingComesFirst | src/agents/input_parameter_agent.py:70-93 | a missing parameter at the ceiling ends collection with the failure message, the failure flags and unchanged counts, naming the first missing parameter at the ceiling |
| InputParameterAgent.ClarificationCountsOneRetry | src/agents/input_parameter_agent.py:95-125 | a turn that extracted nothing asks the clarification and adds one retry to each missing parameter |
| InputParameterAgent.ProgressKeepsRetries | src/agents/input_parameter_agent.py:127-139 | a complete or productive turn returns to the supervisor with no message and unchanged counts |
| InputParameterAgent.RetriesStayWithinCeiling | src/agents/input_parameter_agent.py:70-125 | retry counts never exceed the ceiling |
| InputParameterAgent.NoProgressTurn | src/agents/input_parameter_agent.py:95-125 | an unproductive turn keeps the missing list and adds one to each of its counts |
| InputParameterAgent.NoProgressCounts | src/agents/input_parameter_agent.py:95-125 | after n unproductive turns every missing parameter has been asked n more times |
| InputParameterAgent.ClarifiesBeforeCeiling | src/agents/input_parameter_agent.py:95-125 | each of the first five unproductive turns asks again |
| InputParameterAgent.FiveClarificationsThenFailure | src/agents/input_parameter_agent.py:66-125 | five clarifications, then the sixth unproductive turn fails on the first missing parameter |
| InputParameterAgent.GivesUpAtCeiling | src/agents/input_parameter_agent.py:70-93 | at the ceiling the turn fails on the first missing parameter |
| SupervisorAgent.ClassifierIntent | src/agents/supervisor_agent.py:114-126 | the classifier's answer, stripped and lowered, is the intent exactly when it names a configured intent; nothing else is ever yielded |
| SupervisorAgent.DetectUserIntent | src/agents/supervisor_agent.py:73-126 | detection yields a configured intent or none, none unless the last message is the user's, and the classifier's answer when no keyword matches |
| SupervisorAgent.KeywordsOverrideClassifier | src/agents/supervisor_agent.py:84-87 | a keyword match decides the intent whatever the classifier says |
| SupervisorAgent.GeneralMeansNoIntent | src/agents/supervisor_agent.py:116-120 | a "general" reply means no intent |
| SupervisorAgent.DecideNextAction | src/agents/supervisor_agent.py:128-175 | never the supervisor; tool choosing only with an intent and no tools, the slot filler only with tools and something missing, the executor only with tools, no results and every required parameter present, generation only with results not yet answered |
| SupervisorAgent.ShouldEndConversation | src/agents/supervisor_agent.py:177-193 | the conversation ends when the flag is set or the last message contains a goodbye word, and only then |
| SupervisorAgent.NextActionLadder | src/agents/supervisor_agent.py:128-175 | the conditions under which each target is chosen, each stated as if and only if; never the supervisor itself |
| SupervisorAgent.SwitchMessageNamesBoth | src/agents/supervisor_agent.py:201-207 | the confirmation question names both intents |
| SupervisorAgent.SwitchTextNamesBoth | src/agents/supervisor_agent.py:207 | the sentence contains both names it is given |
| SupervisorAgent.DropIntent | src/agents/supervisor_agent.py:278 | filtering never lengthens the paused list |
| SupervisorAgent.DropIntentMembers | src/agents/supervisor_agent.py:278 | an entry survives exactly when it is for another intent |
| SupervisorAgent.DropIntentKeepsOrder | src/agents/supervisor_agent.py:278 | the survivors keep their order |
| SupervisorAgent.DropIntentOnePerIntent | src/agents/supervisor_agent.py:277-279 | filtering keeps at most one entry per intent |
| SupervisorAgent.RequestSwitch | src/agents/supervisor_agent.py:195-223 | the turn ends after appending the switch question, which names both intents by `SupervisorAgent.SwitchMessageNamesBoth`; the context records the pending switch and the confirmation request and keeps every other key; nothing else changes |
| SupervisorAgent.ExecuteSwitch | src/agents/supervisor_agent.py:262-301 | the turn routes to tool choosing with the new intent, keeps the messages, empties parameters, tools and results, and installs the switched context |
| SupervisorAgent.SwitchTurn | src/agents/supervisor_agent.py:262-301 | an executed switch has the supervisor turn's shape |
| SupervisorAgent.SwitchStartsFresh | src/agents/supervisor_agent.py:284-301 | a switch routes to tool choosing with the new intent, empty working state, reset retries and the switch recorded |
| SupervisorAgent.SwitchPausesOnce | src/agents/supervisor_agent.py:265-279 | the old intent is paused last with its parameters and tools, once, other entries are kept in order, and one entry per intent is preserved |
| SupervisorAgent.AffirmativeWins | src/agents/supervisor_agent.py:237-239 | a reply containing an affirmative word switches |
| SupervisorAgent.AnyYSwitches | src/agents/supervisor_agent.py:237-239 | any reply containing the letter y switches |
| SupervisorAgent.NegativeReplyKeepsWork | src/agents/supervisor_agent.py:240-251 | a negative reply clears only the pending switch, marks user input and goes on collecting parameters |
| SupervisorAgent.UnclearReplyAsksAgain | src/agents/supervisor_agent.py:252-260 | an unclear reply only appends the question and ends the turn |
| SupervisorAgent.HandleConfirmation | src/agents/supervisor_agent.py:225-260 | the reply routes to tool choosing, the slot filler or the end, never elsewhere |
| SupervisorAgent.ConfirmationKeepsHistory | src/agents/supervisor_agent.py:225-260 | a confirmation only appends to the history; tool choosing takes up the new intent, and every other outcome keeps intent, parameters, tools and results |
| SupervisorAgent.BlankReplyIsUnclear | src/agents/supervisor_agent.py:232-252 | a blank reply is neither affirmative nor negative |
| SupervisorAgent.EndComesFirst | src/agents/supervisor_agent.py:32-34 | an ending conversation ends before anything else |
| SupervisorAgent.ConfirmationBeforeDetection | src/agents/supervisor_agent.py:36-39 | a pending switch is handled without consulting the classifier |
| SupervisorAgent.FirstIntentStarts | src/agents/supervisor_agent.py:45-48 | a first detected intent is set and tools are chosen |
| SupervisorAgent.DifferentIntentIsProposed | src/agents/supervisor_agent.py:50-56 | a different intent is only proposed: the one message added is the switch question naming both intents, the work is kept, and the context only records the proposal and the confirmation request |
| SupervisorAgent.OtherwiseRoutesByState | src/agents/supervisor_agent.py:58-71 | otherwise the state is unchanged and the ladder routes |
| SupervisorAgent.ConfirmationTurn | src/agents/supervisor_agent.py:225-301 | a confirmation turn has the supervisor turn's shape |
| SupervisorAgent.DetectionTurn | src/agents/supervisor_agent.py:41-71 | a detection turn has the supervisor turn's shape |
| SupervisorAgent.Supervise | src/agents/supervisor_agent.py:20-71 | a supervisor turn never routes back to the supervisor; the rest of its shape is `SupervisorAgent.SupervisorTurn` |
| SupervisorAgent.SupervisorTurn | src/agents/supervisor_agent.py:20-71 | every supervisor turn leaves the supervisor, only appends to the history, ends whenever it speaks, and changes parameters or tools only in a confirmed switch |
| ToolExecutingAgent.BuildArguments | src/agents/tool_executing_agent.py:142-147 | the loop builds the tool's keyword arguments |
| ToolExecutingAgent.ArgumentsAreDeclared | src/agents/tool_executing_agent.py:142-147 | the arguments are exactly the declared parameters, given values or None, all truthy when validation passed |
| ToolExecutingAgent.ExecuteStep | src/agents/tool_executing_agent.py:14-122 | the turn returns to the supervisor, changes only the results and the context, and with tools selected keeps every old result key |
| ToolExecutingAgent.ToolOutput | src/agents/tool_executing_agent.py:124-154 | an unconfigured or unloadable tool, or a call that raises, gives a dictionary whose only key is a truthy `error` |
| ToolExecutingAgent.ExecuteTool | src/agents/tool_executing_agent.py:124-154 | the call produces the tool's output dictionary |
| ToolExecutingAgent.ToolOutputCatchesFailures | src/agents/tool_executing_agent.py:150-154 | a raised call becomes an error dictionary, a dictionary result is kept and any other result is wrapped |
| ToolExecutingAgent.RunTool | src/agents/tool_executing_agent.py:84-96 | one tool's entry and whether it passed validation |
| ToolExecutingAgent.RunBatch | src/agents/tool_executing_agent.py:76-105 | the loop computes the batch's results, its success and the completed tools |
| ToolExecutingAgent.ResultFor | src/agents/tool_executing_agent.py:84-96 | every entry is a dictionary with `success`, which is true exactly when validation passed; a failed validation gives just `error` and `success` |
| ToolExecutingAgent.AllValidMembers | src/agents/tool_executing_agent.py:79-96 | the batch's validation flag holds exactly when every tool of the batch passes validation |
| ToolExecutingAgent.BatchResultsCoverBatch | src/agents/tool_executing_agent.py:81-95 | the batch's results have exactly one entry per tool of the batch |
| ToolExecutingAgent.BatchSuccessIsEveryEntry | src/agents/tool_executing_agent.py:79-95 | a batch succeeds exactly when every entry says success |
| ToolExecutingAgent.ValidatedMembers | src/agents/tool_executing_agent.py:84-96 | a tool is completed exactly when it passed validation |
| ToolExecutingAgent.ValidatedInOrder | src/agents/tool_executing_agent.py:81-96 | completed tools keep batch order |
| ToolExecutingAgent.ToolExecuting | src/agents/tool_executing_agent.py:14-122 | the turn's loops compute the executor step |
| ToolExecutingAgent.GuardsRunNothing | src/agents/tool_executing_agent.py:25-74 | no selected tools clears the results to `{}` and records the error; a missing parameter or a finished order runs nothing, keeps the results and the cursor, and records why |
| ToolExecutingAgent.BatchRun | src/agents/tool_executing_agent.py:76-122 | the current batch's results are merged over the old ones, the cursor advances exactly when the batch succeeded, the batch's success flag and completed tools are recorded, and every other context key is kept |
| ToolExecutingAgent.ChosenBatchesValidate | src/agents/tool_executing_agent.py:84-91 | with the full schema filled, every tool of every batch passes validation |
| ToolExecutingAgent.BatchesRunInOrder | src/agents/tool_executing_agent.py:56-122 | n valid executor turns advance the cursor by n and complete those batches in order |
| ToolExecutingAgent.FullBatchTurn | src/agents/tool_executing_agent.py:76-122 | a valid turn completes the whole current batch and advances the cursor |
| ToolExecutingAgent.AllBatchesComplete | src/agents/tool_executing_agent.py:56-122 | running every batch completes each tool of the intent exactly once, and the next turn marks all tools completed |
| GenerationAgent.Generate | src/agents/generation_agent.py:18-61 | a successful turn ends or returns to the supervisor and only extends the messages; a failure happens only when the assistant has not spoken and the intent or the reply is missing |
| GenerationAgent.ResponseFromResults | src/agents/generation_agent.py:63-105 | the summary fails exactly when there is no intent; with an intent it is the reply, or without one a fallback naming the intent |
| GenerationAgent.GeneralResponse | src/agents/generation_agent.py:107-131 | the general response succeeds exactly when a reply came back, and is that reply |
| GenerationAgent.HasErrors | src/agents/generation_agent.py:72-73 | no results mean no error, and an error implies some dictionary result |
| GenerationAgent.FallbackText | src/agents/generation_agent.py:100-105 | the fallback text contains the spaced intent |
| GenerationAgent.Spaced | src/agents/generation_agent.py:102-105 | the spaced intent keeps the length and has no underscore |
| GenerationAgent.FallbackNamesIntent | src/agents/generation_agent.py:100-105 | the fallback names the intent, and apologises exactly when a result reports an error |
| GenerationAgent.NoDoubleResponse | src/agents/generation_agent.py:29-33 | an assistant's last message is passed through and the dialog ends |
| GenerationAgent.OneResponse | src/agents/generation_agent.py:35-61 | one assistant message is appended, nothing else changes, and with results the dialog ends exactly when every batch is done |
| GenerationAgent.SecondCallPassesThrough | src/agents/generation_agent.py:29-61 | a second call right after answering passes through |
| GenerationAgent.ResultsWithoutIntentRaise | src/agents/generation_agent.py:84-85 | results with no intent make the turn raise |
| GenerationAgent.ResultsWithIntentSucceed | src/agents/generation_agent.py:97-105 | with an intent the summary never raises, and a failed call gives the fallback |
| GenerationAgent.ExecutorEntryErrors | src/agents/generation_agent.py:72-73 | an executor entry counts as an error exactly when validation failed or the output has a truthy error |
| GenerationAgent.FailedCallIsAnError | src/agents/generation_agent.py:72-73 | an unloadable or raising tool counts as an error even though its entry says success |
| GenerationAgent.BatchHasErrors | src/agents/generation_agent.py:72-73 | a batch's summary apologises exactly when some tool failed validation or reported an error |
| DialogFlow.ResultsStopExecution | src/agents/supervisor_agent.py:158-172 | after an executed batch the ladder routes to generation or the end, never back to the executor |
| DialogFlow.ExecutorKeepsResults | src/agents/tool_executing_agent.py:108 | executor turns with tools selected never drop a result |
| DialogFlow.CompletedRunEndsAtGeneration | src/agents/generation_agent.py:40-49 | once every batch is done the generator's summary ends the dialog |

## Left out

- Language-model calls: the intent classifier prompt, the parameter-extraction prompt and JSON parsing, and the summary and acknowledgment prompts. Only the replies enter the model, as inputs.
- `_select_tools_and_parameters` (src/agents/tool_choosing_agent.py:67-128): the agent's `__call__` never calls it. It would also fail at line 72, which calls `.keys()` on the tool list. Only its fallback table is modelled.
- `ToolRegistry.get_tool` (src/tools/tool_registry.py:14-39): module import by path and the function cache. Whether a tool loads is the input `loaded`, and calling it is the input `call`.
- The tool functions themselves (src/tools/travel_tools.py), the graph wiring (main.py) and the model configuration (src/config/llm_config.py) are not part of this model.
- `validate_int` and `validate_date` (src/config/system_config.py:17-39): integer parsing and the date regular expressions are not modelled. They are the fields of the `Validators` input.
- `Common.Lower` covers ASCII letters only, not Python's full Unicode case mapping.
- Exceptions are `Failure` results or `None` replies.
- ToolExecutingAgent.ResultFor: does not model the executor's per-tool `except` (src/agents/tool_executing_agent.py:99-105). `get_tool` (src/tools/tool_registry.py:14-39) catches only `ImportError`, `AttributeError` and `ValueError` (lines 37-39). Any other exception raised while loading a tool escapes `_execute_tool`, which calls `get_tool` (line 129) outside its own `try`. The batch `except` then records `{"error": ..., "success": False}`, leaves the tool out of `completed_tools` and fails the batch. The model's `loaded` input is only true or false, so this path is absent: an unloadable tool always gets the `success: true` entry with an error output.
- The executor appends to the `completed_tools` list of the context it was given, so the old context object changes too. The model works on values and does not capture that aliasing.
- The supervisor's comparison with `last_missing_params` (src/agents/supervisor_agent.py:150-155) has two identical branches. The model routes to the slot filler either way.
- Debug printing.
- ExecutionOrder.GetToolExecutionOrder: ensures that the batches form an execution order rather than one fixed list, because batch contents follow Python set iteration order, which is unspecified.
- ExecutionOrder.Schedule: the same; the forced tool is any remaining tool, as `list(remaining_tools)[0]` is.
- Common.MissingFrom: its own contract only bounds the length; what it contains is stated by `Common.MissingFromMembers`.
- SupervisorAgent.DropIntent: its own contract only bounds the length; what it keeps is stated by `SupervisorAgent.DropIntentMembers` and `SupervisorAgent.DropIntentKeepsOrder`.
