/**
 * The supervisor: a fixed-priority router. A goodbye ends the turn; a pending intent-switch
 * proposal is answered next; otherwise the intent of the latest user message is detected
 * (keywords first, then the classifier's reply, which is an input here) and either starts the
 * first intent, proposes a switch, or lets the state decide which agent runs.
 */
module SupervisorAgent {
  import opened Common
  import opened SystemConfig
  import opened DialogState

  const GOODBYE_WORDS: seq<string> := ["bye", "goodbye", "exit", "quit", "thanks", "thank you"]

  const AFFIRMATIVE_WORDS: seq<string> := ["yes", "y", "switch", "pause"]

  const NEGATIVE_WORDS: seq<string> := ["no", "n", "continue", "keep"]

  const SWITCH_REASK: string :=
    "Please respond with 'yes' to switch or 'no' to continue with the current task."

  const SWITCH_OPEN: string := "I notice you want to start "

  const SWITCH_WAS: string := ", but we were working on "

  const SWITCH_ASK: string := ". Would you like me to pause the "

  const SWITCH_AND: string := " and start "

  const SWITCH_REPLY: string := "? (Reply with 'yes' to switch or 'no' to continue with "

  /** The tag a paused entry records for where the intent was interrupted. */
  const PAUSED_AT: string := "parameter_collection"

  // ---------------------------------------------------------------------------
  // Intent detection
  // ---------------------------------------------------------------------------

  /** The classifier's answer read back: stripped, lower-cased, and kept only when it names a
      configured intent (`general` and anything unknown mean no intent). `None` stands for a
      call that raised. */
  function ClassifierIntent(reply: Option<string>): (r: Option<string>)
    ensures r.Some? ==> r.value in INTENTS
    ensures r.Some? ==> reply.Some? && r.value == Lower(Strip(reply.value))
    ensures reply.Some? && Lower(Strip(reply.value)) in INTENTS ==> r == Some(Lower(Strip(reply.value)))
  {
    match reply
    case None => None
    case Some(text) =>
      var intent := Lower(Strip(text));
      if intent in GetAvailableIntents() then Some(intent) else None
  }

  /** `_detect_user_intent`: nothing unless the last message is the user's; a keyword match
      wins, the classifier is asked only when no keyword matches. */
  function DetectUserIntent(messages: seq<Message>, reply: Option<string>): (r: Option<string>)
    ensures r.Some? ==> r.value in INTENTS
    ensures !LastFrom(messages, User) ==> r.None?
    ensures LastFrom(messages, User) && KeywordIntent(messages[|messages| - 1].content).None? ==>
              r == ClassifierIntent(reply)
  {
    if !LastFrom(messages, User) then None
    else
      var userMessage := messages[|messages| - 1].content;
      var detected := KeywordIntent(userMessage);
      if detected.Some? then detected else ClassifierIntent(reply)
  }

  /** A keyword match decides the intent whatever the classifier would have said. */
  lemma KeywordsOverrideClassifier(messages: seq<Message>, reply1: Option<string>, reply2: Option<string>)
    requires LastFrom(messages, User) && KeywordIntent(messages[|messages| - 1].content).Some?
    ensures DetectUserIntent(messages, reply1) == DetectUserIntent(messages, reply2)
    ensures DetectUserIntent(messages, reply1) == KeywordIntent(messages[|messages| - 1].content)
  {
  }

  /** The classifier's `general`, in any case and with surrounding blanks, detects nothing. */
  lemma GeneralMeansNoIntent(text: string)
    requires Lower(Strip(text)) == "general"
    ensures ClassifierIntent(Some(text)).None?
  {
  }

  // ---------------------------------------------------------------------------
  // Routing on the state
  // ---------------------------------------------------------------------------

  /** `_should_end_conversation`: an explicit flag, or a goodbye word in the lower-cased last
      message, whoever wrote it. */
  predicate ShouldEndConversation(s: Session): (r: bool)
    ensures s.context.endConversation == Some(true) ==> r
    ensures s.messages != [] && (exists k :: 0 <= k < |GOODBYE_WORDS| && Contains(Lower(s.messages[|s.messages| - 1].content), GOODBYE_WORDS[k])) ==> r
    ensures r && s.context.endConversation != Some(true) ==>
              s.messages != [] && exists k :: 0 <= k < |GOODBYE_WORDS| && Contains(Lower(s.messages[|s.messages| - 1].content), GOODBYE_WORDS[k])
  {
    || s.context.endConversation == Some(true)
    || (s.messages != [] && ContainsAny(Lower(s.messages[|s.messages| - 1].content), GOODBYE_WORDS))
  }

  /** `all(extracted_parameters.get(p) for p in required_params)`. */
  predicate AllPresent(names: seq<string>, m: map<string, Value>)
  {
    forall p :: p in names ==> Present(m, p)
  }

  /** `_decide_next_action`. Both outcomes of the `last_missing_params` comparison route to the
      parameter agent, so the comparison is not modelled. */
  function DecideNextAction(s: Session): (r: Node)
    ensures r != Supervisor
    ensures r == ToolChoosing ==> HasIntent(s) && s.selectedTools == []
    ensures r == InputParameter ==> HasIntent(s) && s.selectedTools != [] &&
                                    MissingFrom(RequiredParameters(s.context), s.extractedParameters) != []
    ensures r == ToolExecuting ==> s.selectedTools != [] && s.toolResults == map[] &&
                                   AllPresent(RequiredParameters(s.context), s.extractedParameters)
    ensures r == Generation ==> s.toolResults != map[] && s.context.lastResponseType != Some(Generated)
  {
    var tools := s.selectedTools != [];
    var missing := MissingFrom(RequiredParameters(s.context), s.extractedParameters);
    if HasIntent(s) && !tools then ToolChoosing
    else if tools && HasIntent(s) && missing != [] then InputParameter
    else if tools && s.toolResults == map[] && AllPresent(RequiredParameters(s.context), s.extractedParameters) then
      ToolExecuting
    else if s.toolResults != map[] then
      if s.context.lastResponseType == Some(Generated) then End else Generation
    else End
  }

  /** Some required parameter is absent or falsy. */
  predicate SomeMissing(s: Session)
  {
    exists p :: p in RequiredParameters(s.context) && !Present(s.extractedParameters, p)
  }

  /** The ladder read as conditions on the state: each destination exactly when its own rung
      holds and no earlier one does. */
  lemma NextActionLadder(s: Session)
    ensures DecideNextAction(s) == ToolChoosing <==> HasIntent(s) && s.selectedTools == []
    ensures DecideNextAction(s) == InputParameter <==>
              HasIntent(s) && s.selectedTools != [] && SomeMissing(s)
    ensures DecideNextAction(s) == ToolExecuting <==>
              s.selectedTools != [] && s.toolResults == map[] && !SomeMissing(s)
    ensures DecideNextAction(s) == Generation <==>
              && s.toolResults != map[] && s.context.lastResponseType != Some(Generated)
              && !(HasIntent(s) && (s.selectedTools == [] || SomeMissing(s)))
    ensures DecideNextAction(s) != Supervisor
  {
    var names := RequiredParameters(s.context);
    MissingFromMembers(names, s.extractedParameters);
    var missing := MissingFrom(names, s.extractedParameters);
    assert missing != [] <==> SomeMissing(s) by {
      if missing != [] {
        assert missing[0] in missing;
      }
    }
    assert AllPresent(names, s.extractedParameters) <==> !SomeMissing(s);
  }

  // ---------------------------------------------------------------------------
  // Intent switching
  // ---------------------------------------------------------------------------

  /** The intent's configured description, or its name. */
  function IntentName(intent: string): string
  {
    match GetIntentConfig(intent)
    case Some(config) => config.description
    case None => intent
  }

  /** The proposal text, given the display names of the current and the new intent. */
  function SwitchText(current: string, next: string): string
  {
    SWITCH_OPEN + next + SWITCH_WAS + current + SWITCH_ASK + current + SWITCH_AND + next
      + SWITCH_REPLY + current + ")"
  }

  function SwitchMessage(currentIntent: string, newIntent: string): string
  {
    SwitchText(IntentName(currentIntent), IntentName(newIntent))
  }

  /** The proposal names the intent being left and the intent being asked for. */
  lemma SwitchMessageNamesBoth(currentIntent: string, newIntent: string)
    ensures Contains(SwitchMessage(currentIntent, newIntent), IntentName(currentIntent))
    ensures Contains(SwitchMessage(currentIntent, newIntent), IntentName(newIntent))
  {
    SwitchTextNamesBoth(IntentName(currentIntent), IntentName(newIntent));
  }

  lemma SwitchTextNamesBoth(current: string, next: string)
    ensures Contains(SwitchText(current, next), current)
    ensures Contains(SwitchText(current, next), next)
  {
    var text := SwitchText(current, next);
    var head := SWITCH_OPEN + next;
    assert text[|SWITCH_OPEN|..|head|] == next;
    assert OccursAt(text, next, |SWITCH_OPEN|);
    var lead := head + SWITCH_WAS;
    assert text[|lead|..|lead| + |current|] == current;
    assert OccursAt(text, current, |lead|);
  }

  /** `_request_intent_switch_confirmation`: one proposal message, the proposal recorded on top
      of the existing context, and the turn ends to wait for the answer. */
  function RequestSwitch(s: Session, currentIntent: string, newIntent: string): (r: Step)
    ensures r.next == End
    ensures Extends(s.messages, r.session.messages) && |r.session.messages| == |s.messages| + 1
    ensures LastFrom(r.session.messages, Assistant)
    ensures r.session.messages[|s.messages|].content == SwitchMessage(currentIntent, newIntent)
    ensures r.session.context == s.context.(awaitingConfirmation := Some(PendingSwitch(currentIntent, newIntent)),
                                            lastResponseType := Some(ConfirmationRequest))
    ensures r.session == s.(messages := r.session.messages, context := r.session.context)
  {
    Step(End, s.(
      messages := Say(s.messages, SwitchMessage(currentIntent, newIntent)),
      context := s.context.(
        awaitingConfirmation := Some(PendingSwitch(currentIntent, newIntent)),
        lastResponseType := Some(ConfirmationRequest))))
  }

  /** `[pi for pi in paused_intents if pi.get("intent") != from_intent]`. */
  function DropIntent(paused: seq<PausedIntent>, intent: string): (r: seq<PausedIntent>)
    ensures |r| <= |paused|
  {
    if paused == [] then []
    else (if paused[0].intent != intent then [paused[0]] else []) + DropIntent(paused[1..], intent)
  }

  lemma {:induction false} DropIntentMembers(paused: seq<PausedIntent>, intent: string)
    ensures forall e :: e in DropIntent(paused, intent) <==> e in paused && e.intent != intent
  {
    if paused != [] {
      DropIntentMembers(paused[1..], intent);
      assert forall e :: e in paused <==> e == paused[0] || e in paused[1..];
    }
  }

  /** The entries that stay keep their relative order. */
  lemma {:induction false} DropIntentKeepsOrder(paused: seq<PausedIntent>, intent: string)
    ensures Subsequence(DropIntent(paused, intent), paused)
  {
    if paused != [] {
      DropIntentKeepsOrder(paused[1..], intent);
      var rest := DropIntent(paused[1..], intent);
      assert paused == [paused[0]] + paused[1..];
      if paused[0].intent != intent {
        assert DropIntent(paused, intent) == [paused[0]] + rest;
        assert ([paused[0]] + rest)[1..] == rest;
      } else {
        assert DropIntent(paused, intent) == rest;
        SubsequenceCons(paused[0], rest, paused[1..]);
      }
    }
  }

  /** No two paused entries are for the same intent. */
  predicate OnePerIntent(paused: seq<PausedIntent>)
  {
    forall i, j :: 0 <= i < j < |paused| ==> paused[i].intent != paused[j].intent
  }

  lemma {:induction false} DropIntentOnePerIntent(paused: seq<PausedIntent>, intent: string)
    requires OnePerIntent(paused)
    ensures OnePerIntent(DropIntent(paused, intent))
  {
    if paused != [] {
      var tail := paused[1..];
      assert OnePerIntent(tail) by {
        forall i, j | 0 <= i < j < |tail|
          ensures tail[i].intent != tail[j].intent
        {
          assert tail[i] == paused[i + 1] && tail[j] == paused[j + 1];
        }
      }
      DropIntentOnePerIntent(tail, intent);
      var rest := DropIntent(tail, intent);
      if paused[0].intent != intent {
        DropIntentMembers(tail, intent);
        forall e | e in rest
          ensures e.intent != paused[0].intent
        {
          var k :| 0 <= k < |tail| && tail[k] == e;
          assert paused[k + 1] == e;
        }
        ConsOnePerIntent(paused[0], rest);
      }
    }
  }

  lemma ConsOnePerIntent(e: PausedIntent, rest: seq<PausedIntent>)
    requires OnePerIntent(rest)
    requires forall x :: x in rest ==> x.intent != e.intent
    ensures OnePerIntent([e] + rest)
  {
    var all := [e] + rest;
    forall i, j | 0 <= i < j < |all|
      ensures all[i].intent != all[j].intent
    {
      assert all[j] == rest[j - 1];
      if i > 0 {
        assert all[i] == rest[i - 1];
      } else {
        assert rest[j - 1] in rest;
      }
    }
  }

  /** The context that replaces the old one once a switch is confirmed. */
  function SwitchedContext(fromIntent: string): Context
  {
    EmptyContext.(
      intentSwitched := Some(true),
      previousIntent := Some(fromIntent),
      awaitingConfirmation := None,
      retryCounts := Some(map[]),
      maxRetries := Some(5),
      lastResponseType := Some(IntentSwitch))
  }

  /** `_execute_intent_switch`: the interrupted intent's parameters and tools are paused (its
      older entry, if any, is replaced), and the new intent starts from empty working state. */
  function ExecuteSwitch(s: Session, fromIntent: string, toIntent: string): (r: Step)
    ensures r.next == ToolChoosing && r.session.currentIntent == Some(toIntent)
    ensures r.session.messages == s.messages
    ensures r.session.extractedParameters == map[] && r.session.selectedTools == [] && r.session.toolResults == map[]
    ensures r.session.context == SwitchedContext(fromIntent)
  {
    var entry := PausedIntent(fromIntent, s.extractedParameters, s.selectedTools, PAUSED_AT);
    Step(ToolChoosing, s.(
      currentIntent := Some(toIntent),
      extractedParameters := map[],
      selectedTools := [],
      toolResults := map[],
      pausedIntents := DropIntent(s.pausedIntents, fromIntent) + [entry],
      context := SwitchedContext(fromIntent)))
  }

  /** A confirmed switch starts the new intent from scratch: no parameters, tools or results,
      no retry history, the default ceiling, no pending proposal, and a note of the intent it
      left. The history is not touched. */
  lemma SwitchStartsFresh(s: Session, fromIntent: string, toIntent: string)
    ensures var r := ExecuteSwitch(s, fromIntent, toIntent);
            && r.next == ToolChoosing
            && r.session.currentIntent == Some(toIntent)
            && r.session.messages == s.messages
            && r.session.extractedParameters == map[] && r.session.selectedTools == []
            && r.session.toolResults == map[]
            && RetryCounts(r.session.context) == map[] && MaxRetries(r.session.context) == 5
            && RequiredParameters(r.session.context) == []
            && r.session.context.awaitingConfirmation.None?
            && r.session.context.previousIntent == Some(fromIntent)
            && r.session.context.intentSwitched == Some(true)
            && r.session.context.lastResponseType == Some(IntentSwitch)
  {
  }

  /** After a switch the paused list holds exactly one entry for the interrupted intent, the
      last one, carrying its parameters and tools; every other entry is kept in order; and if
      no intent had two entries before, none has two after. */
  lemma SwitchPausesOnce(s: Session, fromIntent: string, toIntent: string)
    ensures var paused := ExecuteSwitch(s, fromIntent, toIntent).session.pausedIntents;
            && paused != []
            && paused[|paused| - 1].intent == fromIntent
            && paused[|paused| - 1].parameters == s.extractedParameters
            && paused[|paused| - 1].tools == s.selectedTools
            && (forall i :: 0 <= i < |paused| - 1 ==> paused[i].intent != fromIntent)
            && Subsequence(paused[..|paused| - 1], s.pausedIntents)
            && (forall e :: e in s.pausedIntents && e.intent != fromIntent ==> e in paused)
            && (OnePerIntent(s.pausedIntents) ==> OnePerIntent(paused))
  {
    var kept := DropIntent(s.pausedIntents, fromIntent);
    var entry := PausedIntent(fromIntent, s.extractedParameters, s.selectedTools, PAUSED_AT);
    assert ExecuteSwitch(s, fromIntent, toIntent).session.pausedIntents == kept + [entry];
    DropIntentMembers(s.pausedIntents, fromIntent);
    DropIntentKeepsOrder(s.pausedIntents, fromIntent);
    if OnePerIntent(s.pausedIntents) {
      DropIntentOnePerIntent(s.pausedIntents, fromIntent);
    }
    AppendPaused(kept, entry);
  }

  /** Appending an entry whose intent no kept entry has. */
  lemma AppendPaused(kept: seq<PausedIntent>, entry: PausedIntent)
    requires forall e :: e in kept ==> e.intent != entry.intent
    ensures var paused := kept + [entry];
            && paused[..|paused| - 1] == kept
            && paused[|paused| - 1] == entry
            && (forall i :: 0 <= i < |paused| - 1 ==> paused[i].intent != entry.intent)
            && (forall e :: e in kept ==> e in paused)
            && (OnePerIntent(kept) ==> OnePerIntent(paused))
  {
    var paused := kept + [entry];
    assert paused[..|paused| - 1] == kept;
    forall i | 0 <= i < |paused| - 1
      ensures paused[i].intent != entry.intent
    {
      assert paused[i] == kept[i] && kept[i] in kept;
    }
    if OnePerIntent(kept) {
      forall i, j | 0 <= i < j < |paused|
        ensures paused[i].intent != paused[j].intent
      {
        assert paused[i] == kept[i];
        if j < |kept| {
          assert paused[j] == kept[j];
        }
      }
    }
  }

  /** `_handle_intent_switch_confirmation`: affirmative words are looked for before negative
      ones, both as substrings of the stripped, lower-cased reply. */
  function HandleConfirmation(s: Session, pending: PendingSwitch): (r: Step)
    ensures r.next == ToolChoosing || r.next == InputParameter || r.next == End
  {
    if !LastFrom(s.messages, User) then Step(End, s)
    else
      var response := Strip(Lower(s.messages[|s.messages| - 1].content));
      if ContainsAny(response, AFFIRMATIVE_WORDS) then
        ExecuteSwitch(s, pending.fromIntent, pending.toIntent)
      else if ContainsAny(response, NEGATIVE_WORDS) then
        Step(InputParameter, s.(context := s.context.(awaitingConfirmation := None, lastResponseType := Some(UserInput))))
      else
        Step(End, s.(messages := Say(s.messages, SWITCH_REASK)))
  }

  /** The reply read by the confirmation handler. */
  function Reply(s: Session): string
    requires s.messages != []
  {
    Strip(Lower(s.messages[|s.messages| - 1].content))
  }

  /** A reply with an affirmative word switches, even when it also holds a negative word. */
  lemma AffirmativeWins(s: Session, pending: PendingSwitch)
    requires LastFrom(s.messages, User) && ContainsAny(Reply(s), AFFIRMATIVE_WORDS)
    ensures HandleConfirmation(s, pending) == ExecuteSwitch(s, pending.fromIntent, pending.toIntent)
  {
  }

  /** Since `y` is one of the affirmative words, any reply holding the letter y confirms the
      switch, whatever else it says. */
  lemma AnyYSwitches(s: Session, pending: PendingSwitch)
    requires LastFrom(s.messages, User) && Contains(Reply(s), "y")
    ensures HandleConfirmation(s, pending).next == ToolChoosing
    ensures HandleConfirmation(s, pending).session.currentIntent == Some(pending.toIntent)
  {
    assert AFFIRMATIVE_WORDS[1] == "y";
    assert ContainsAny(Reply(s), AFFIRMATIVE_WORDS);
    AffirmativeWins(s, pending);
  }

  /** A negative reply keeps the current intent's work: only the proposal is dropped and the
      parameter agent resumes. */
  lemma NegativeReplyKeepsWork(s: Session, pending: PendingSwitch)
    requires LastFrom(s.messages, User)
    requires !ContainsAny(Reply(s), AFFIRMATIVE_WORDS) && ContainsAny(Reply(s), NEGATIVE_WORDS)
    ensures var r := HandleConfirmation(s, pending);
            && r.next == InputParameter
            && r.session.messages == s.messages
            && r.session.currentIntent == s.currentIntent
            && r.session.extractedParameters == s.extractedParameters
            && r.session.selectedTools == s.selectedTools
            && r.session.pausedIntents == s.pausedIntents
            && r.session.context.awaitingConfirmation.None?
            && r.session.context.lastResponseType == Some(UserInput)
            && r.session.context.(awaitingConfirmation := s.context.awaitingConfirmation,
                                  lastResponseType := s.context.lastResponseType) == s.context
  {
  }

  /** Any other reply asks again with one message and leaves the proposal pending. */
  lemma UnclearReplyAsksAgain(s: Session, pending: PendingSwitch)
    requires LastFrom(s.messages, User)
    requires !ContainsAny(Reply(s), AFFIRMATIVE_WORDS) && !ContainsAny(Reply(s), NEGATIVE_WORDS)
    ensures var r := HandleConfirmation(s, pending);
            && r.next == End
            && Extends(s.messages, r.session.messages) && |r.session.messages| == |s.messages| + 1
            && LastFrom(r.session.messages, Assistant)
            && r.session == s.(messages := r.session.messages)
  {
  }

  /** Whatever the reply, the confirmation handler adds at most one message; only a switch
      changes the intent, and any other outcome keeps the current intent's work. */
  lemma ConfirmationKeepsHistory(s: Session, pending: PendingSwitch)
    ensures var r := HandleConfirmation(s, pending);
            && Extends(s.messages, r.session.messages)
            && (r.next == ToolChoosing ==> r.session.currentIntent == Some(pending.toIntent))
            && (r.next != ToolChoosing ==>
                  && r.session.currentIntent == s.currentIntent
                  && r.session.extractedParameters == s.extractedParameters
                  && r.session.selectedTools == s.selectedTools
                  && r.session.toolResults == s.toolResults)
  {
    ExtendsItself(s.messages);
    if !LastFrom(s.messages, User) {
    } else if ContainsAny(Reply(s), AFFIRMATIVE_WORDS) {
      AffirmativeWins(s, pending);
    } else if ContainsAny(Reply(s), NEGATIVE_WORDS) {
      NegativeReplyKeepsWork(s, pending);
    } else {
      UnclearReplyAsksAgain(s, pending);
    }
  }

  /** A blank reply is neither affirmative nor negative, so it is asked again. */
  lemma BlankReplyIsUnclear(s: Session)
    requires LastFrom(s.messages, User)
    requires Blank(s.messages[|s.messages| - 1].content)
    ensures !ContainsAny(Reply(s), AFFIRMATIVE_WORDS) && !ContainsAny(Reply(s), NEGATIVE_WORDS)
  {
    var lowered := Lower(s.messages[|s.messages| - 1].content);
    StripEmptyIffBlank(lowered);
    NothingInEmpty(AFFIRMATIVE_WORDS);
    NothingInEmpty(NEGATIVE_WORDS);
  }

  lemma NothingInEmpty(words: seq<string>)
    requires forall k :: 0 <= k < |words| ==> words[k] != ""
    ensures !ContainsAny("", words)
  {
    forall k | 0 <= k < |words|
      ensures !Contains("", words[k])
    {
      assert |words[k]| > 0;
    }
  }

  // ---------------------------------------------------------------------------
  // The supervisor's turn
  // ---------------------------------------------------------------------------

  /** `SupervisorAgent.__call__`, given what the classifier would answer for the latest
      message. */
  function Supervise(s: Session, reply: Option<string>): (r: Step)
    ensures r.next != Supervisor
  {
    if ShouldEndConversation(s) then Step(End, s)
    else if s.context.awaitingConfirmation.Some? then HandleConfirmation(s, s.context.awaitingConfirmation.value)
    else
      var detected := DetectUserIntent(s.messages, reply);
      if s.currentIntent.None? && detected.Some? then Step(ToolChoosing, s.(currentIntent := detected))
      else if detected.Some? && s.currentIntent.Some? && detected != s.currentIntent then
        RequestSwitch(s, s.currentIntent.value, detected.value)
      else
        match DecideNextAction(s)
        case ToolChoosing =>
          Step(ToolChoosing, s.(currentIntent := if detected.Some? && detected.value != "" then detected else s.currentIntent))
        case next => Step(next, s)
  }

  /** The end check comes first: a goodbye ends the turn untouched, even with a proposal
      pending. */
  lemma EndComesFirst(s: Session, reply: Option<string>)
    requires ShouldEndConversation(s)
    ensures Supervise(s, reply) == Step(End, s)
  {
  }

  /** A pending proposal is answered before any detection: the classifier's reply is
      irrelevant. */
  lemma ConfirmationBeforeDetection(s: Session, reply1: Option<string>, reply2: Option<string>)
    requires !ShouldEndConversation(s) && s.context.awaitingConfirmation.Some?
    ensures Supervise(s, reply1) == Supervise(s, reply2)
    ensures Supervise(s, reply1) == HandleConfirmation(s, s.context.awaitingConfirmation.value)
  {
  }

  /** The first detected intent is adopted and the tools are chosen for it. */
  lemma FirstIntentStarts(s: Session, reply: Option<string>)
    requires !ShouldEndConversation(s) && s.context.awaitingConfirmation.None?
    requires s.currentIntent.None? && DetectUserIntent(s.messages, reply).Some?
    ensures Supervise(s, reply).next == ToolChoosing
    ensures Supervise(s, reply).session == s.(currentIntent := DetectUserIntent(s.messages, reply))
    ensures Supervise(s, reply).session.currentIntent.value in INTENTS
  {
  }

  /** A different intent detected mid-task is only proposed: one message is added, the
      proposal is recorded, and the work in progress is untouched. */
  lemma DifferentIntentIsProposed(s: Session, reply: Option<string>)
    requires !ShouldEndConversation(s) && s.context.awaitingConfirmation.None?
    requires s.currentIntent.Some?
    requires DetectUserIntent(s.messages, reply).Some? && DetectUserIntent(s.messages, reply) != s.currentIntent
    ensures var r := Supervise(s, reply);
            && r.next == End
            && Extends(s.messages, r.session.messages) && |r.session.messages| == |s.messages| + 1
            && LastFrom(r.session.messages, Assistant)
            && r.session.currentIntent == s.currentIntent
            && r.session.extractedParameters == s.extractedParameters
            && r.session.selectedTools == s.selectedTools
            && r.session.toolResults == s.toolResults
            && r.session.messages[|s.messages|].content ==
               SwitchMessage(s.currentIntent.value, DetectUserIntent(s.messages, reply).value)
            && Contains(r.session.messages[|s.messages|].content, IntentName(s.currentIntent.value))
            && Contains(r.session.messages[|s.messages|].content, IntentName(DetectUserIntent(s.messages, reply).value))
            && r.session.context == s.context.(
                 awaitingConfirmation := Some(PendingSwitch(s.currentIntent.value, DetectUserIntent(s.messages, reply).value)),
                 lastResponseType := Some(ConfirmationRequest))
  {
    SwitchMessageNamesBoth(s.currentIntent.value, DetectUserIntent(s.messages, reply).value);
  }

  /** Otherwise the supervisor changes nothing and routes by the ladder: the `detected or
      current` update can only write back the current intent. */
  lemma OtherwiseRoutesByState(s: Session, reply: Option<string>)
    requires !ShouldEndConversation(s) && s.context.awaitingConfirmation.None?
    requires var d := DetectUserIntent(s.messages, reply);
             !(s.currentIntent.None? && d.Some?) && !(d.Some? && s.currentIntent.Some? && d != s.currentIntent)
    ensures Supervise(s, reply) == Step(DecideNextAction(s), s)
  {
    var d := DetectUserIntent(s.messages, reply);
    IntentNamesNonEmpty();
    assert d.Some? ==> d == s.currentIntent;
  }

  /** The shape every supervisor turn has: it hands over to another agent or ends; it only
      ever appends, at most one assistant message, and only when the turn ends; and the
      collected parameters and chosen tools are discarded only by a switch from the intent in
      `switchedFrom`, which resets the context. */
  ghost predicate TurnShape(s: Session, r: Step, switchedFrom: Option<string>)
  {
    && r.next != Supervisor
    && Extends(s.messages, r.session.messages)
    && (|r.session.messages| > |s.messages| ==> r.next == End && LastFrom(r.session.messages, Assistant))
    && (r.session.extractedParameters != s.extractedParameters || r.session.selectedTools != s.selectedTools
        ==> r.next == ToolChoosing && switchedFrom.Some? && r.session.context == SwitchedContext(switchedFrom.value))
  }

  lemma ConfirmationTurn(s: Session, pending: PendingSwitch)
    ensures TurnShape(s, HandleConfirmation(s, pending), Some(pending.fromIntent))
  {
    ExtendsItself(s.messages);
    if !LastFrom(s.messages, User) {
    } else if ContainsAny(Reply(s), AFFIRMATIVE_WORDS) {
      AffirmativeWins(s, pending);
      SwitchTurn(s, pending.fromIntent, pending.toIntent);
    } else if ContainsAny(Reply(s), NEGATIVE_WORDS) {
      NegativeReplyKeepsWork(s, pending);
    } else {
      UnclearReplyAsksAgain(s, pending);
    }
  }

  lemma SwitchTurn(s: Session, fromIntent: string, toIntent: string)
    ensures TurnShape(s, ExecuteSwitch(s, fromIntent, toIntent), Some(fromIntent))
  {
    assert s.messages[..|s.messages|] == s.messages;
  }

  lemma DetectionTurn(s: Session, reply: Option<string>)
    requires !ShouldEndConversation(s) && s.context.awaitingConfirmation.None?
    ensures TurnShape(s, Supervise(s, reply), None)
  {
    var d := DetectUserIntent(s.messages, reply);
    if !(s.currentIntent.None? && d.Some?) && !(d.Some? && s.currentIntent.Some? && d != s.currentIntent) {
      OtherwiseRoutesByState(s, reply);
      NextActionLadder(s);
    }
  }

  /** Every turn has that shape; only a pending proposal can lead to a switch. */
  lemma SupervisorTurn(s: Session, reply: Option<string>)
    ensures TurnShape(s, Supervise(s, reply),
                      if s.context.awaitingConfirmation.Some? then Some(s.context.awaitingConfirmation.value.fromIntent)
                      else None)
  {
    if !ShouldEndConversation(s) {
      if s.context.awaitingConfirmation.Some? {
        ConfirmationTurn(s, s.context.awaitingConfirmation.value);
      } else {
        DetectionTurn(s, reply);
      }
    }
  }
}
