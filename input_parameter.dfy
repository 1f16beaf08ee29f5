/**
 * The slot-filling agent. It merges the parameters extracted from the latest user message into
 * the collected ones. It enforces the per-parameter retry ceiling before anything else, asks
 * for clarification (and counts a retry for every missing parameter) only when the extraction
 * produced nothing, and otherwise hands control back to the supervisor.
 *
 * The language-model extraction is an input: `None` when the call or the JSON parse failed,
 * otherwise the decoded object.
 */
module InputParameterAgent {
  import opened Common
  import opened SystemConfig
  import opened DialogState

  const NO_USER_MESSAGE: string := "No user message to process"

  const GENERIC_CLARIFICATION: string :=
    "I need some additional information to help you. Could you please provide more details?"

  const FAILURE_HEAD: string := "I've tried several times to get the "

  const FAILURE_TAIL: string :=
    " from you, but I'm still not clear on what you need. Could you please start over with a complete request? For example: 'Book a flight from New York to Paris on December 25th'"

  /** The terminal notice for a parameter whose retry count reached the ceiling. */
  function FailureMessage(param: string): string
  {
    FAILURE_HEAD + param + FAILURE_TAIL
  }

  // ---------------------------------------------------------------------------
  // Extraction filter and clarification text
  // ---------------------------------------------------------------------------

  /** `_extract_parameters` around the model call: nothing for an unconfigured intent or a failed
      call, otherwise the decoded object restricted to the required names. */
  function ExtractParameters(intent: Option<string>, required: seq<string>,
                             raw: Option<map<string, Value>>): (r: map<string, Value>)
    ensures forall k :: k in r ==> k in required
    ensures intent.None? || intent.value !in INTENTS || raw.None? ==> r == map[]
    ensures intent.Some? && intent.value in INTENTS && raw.Some? ==>
              forall k :: (k in r <==> k in raw.value && k in required) && (k in r ==> r[k] == raw.value[k])
  {
    if intent.None? || GetIntentConfig(intent.value).None? then map[]
    else
      match raw
      case None => map[]
      case Some(m) => map k | k in m && k in required :: m[k]
  }

  /** `get_parameter_question` with the agent's possibly absent intent. */
  function QuestionFor(intent: Option<string>, param: string): string
  {
    match intent
    case None => DefaultQuestion(param)
    case Some(i) => GetParameterQuestion(i, param)
  }

  function Questions(intent: Option<string>, params: seq<string>): (r: seq<string>)
    ensures |r| == |params| && forall i :: 0 <= i < |params| ==> r[i] == QuestionFor(intent, params[i])
  {
    if params == [] then [] else [QuestionFor(intent, params[0])] + Questions(intent, params[1..])
  }

  /** `_generate_clarification_question`. */
  function ClarificationQuestion(intent: Option<string>, missing: seq<string>): (r: string)
    ensures missing == [] ==> r == GENERIC_CLARIFICATION
    ensures missing != [] ==> EndsWith(r, QuestionFor(intent, missing[|missing| - 1]))
  {
    Phrase(Questions(intent, missing))
  }

  const ONE_DETAIL: string := "I need one more detail: "

  const TWO_DETAILS: string := "I need two more details: "

  const FEW_DETAILS: string := "I need a few more details: "

  /** The sentence built from the questions, by their number. */
  function Phrase(qs: seq<string>): (r: string)
    ensures qs == [] ==> r == GENERIC_CLARIFICATION
    ensures qs != [] ==> (if |qs| == 1 then ONE_DETAIL else if |qs| == 2 then TWO_DETAILS else FEW_DETAILS) <= r
    ensures qs != [] ==> EndsWith(r, qs[|qs| - 1])
  {
    if |qs| == 0 then GENERIC_CLARIFICATION
    else if |qs| == 1 then ONE_DETAIL + qs[0]
    else if |qs| == 2 then TWO_DETAILS + qs[0] + " and " + qs[1]
    else FEW_DETAILS + Join(", ", qs[..|qs| - 1]) + ", and " + qs[|qs| - 1]
  }

  lemma {:induction false} JoinContainsEach(sep: string, items: seq<string>, k: nat)
    requires k < |items|
    ensures Contains(Join(sep, items), items[k])
  {
    var j := Join(sep, items);
    if |items| == 1 {
      assert OccursAt(j, items[0], 0);
    } else if k == 0 {
      assert j == items[0] + (sep + Join(sep, items[1..]));
      assert j[0..|items[0]|] == items[0];
      assert OccursAt(j, items[0], 0);
    } else {
      JoinContainsEach(sep, items[1..], k - 1);
      var rest := Join(sep, items[1..]);
      var off := |items[0]| + |sep|;
      assert j == (items[0] + sep) + rest;
      var i :| OccursAt(rest, items[k], i);
      assert j[off + i..off + i + |items[k]|] == rest[i..i + |items[k]|];
      assert OccursAt(j, items[k], off + i);
    }
  }

  /** The clarification sentence asks every missing parameter's question. */
  lemma ClarificationMentionsEveryQuestion(intent: Option<string>, missing: seq<string>, k: nat)
    requires k < |missing|
    ensures Contains(ClarificationQuestion(intent, missing), QuestionFor(intent, missing[k]))
  {
    PhraseMentionsEach(Questions(intent, missing), k);
  }

  lemma PhraseMentionsEach(qs: seq<string>, k: nat)
    requires k < |qs|
    ensures Contains(Phrase(qs), qs[k])
  {
    var q := qs[k];
    ContainsSelf(q);
    if |qs| == 1 {
      ContainsInside(ONE_DETAIL, q, "", q);
      assert ONE_DETAIL + q + "" == ONE_DETAIL + q;
    } else if |qs| == 2 {
      if k == 0 {
        ContainsInside(TWO_DETAILS, q, " and " + qs[1], q);
        assert TWO_DETAILS + q + (" and " + qs[1]) == TWO_DETAILS + q + " and " + qs[1];
      } else {
        ContainsInside(TWO_DETAILS + qs[0] + " and ", q, "", q);
        assert TWO_DETAILS + qs[0] + " and " + q + "" == TWO_DETAILS + qs[0] + " and " + q;
      }
    } else {
      PhraseOfMany(qs, k);
    }
  }

  lemma PhraseOfMany(qs: seq<string>, k: nat)
    requires 3 <= |qs| && k < |qs|
    ensures Contains(Phrase(qs), qs[k])
  {
    var q := qs[k];
    var front := qs[..|qs| - 1];
    var last := qs[|qs| - 1];
    var joined := Join(", ", front);
    if k == |qs| - 1 {
      ContainsSelf(q);
      ContainsInside(FEW_DETAILS + joined + ", and ", q, "", q);
      assert FEW_DETAILS + joined + ", and " + q + "" == FEW_DETAILS + joined + ", and " + q;
    } else {
      assert front[k] == q;
      JoinContainsEach(", ", front, k);
      ContainsInside(FEW_DETAILS, joined, ", and " + last, q);
      assert FEW_DETAILS + joined + (", and " + last) == FEW_DETAILS + joined + ", and " + last;
    }
  }

  /** The hotel intent missing both of its parameters. */
  lemma HotelClarification()
    ensures ClarificationQuestion(Some("book_hotel"), ["destination", "days"])
         == "I need two more details: " + "Which city do you need a hotel in?" + " and " +
            "How many days will you be staying?"
  {
    HotelQuestions();
    var qs := Questions(Some("book_hotel"), ["destination", "days"]);
    assert qs[0] == "Which city do you need a hotel in?";
    assert qs[1] == "How many days will you be staying?";
  }

  lemma HotelQuestions()
    ensures GetParameterQuestion("book_hotel", "destination") == "Which city do you need a hotel in?"
    ensures GetParameterQuestion("book_hotel", "days") == "How many days will you be staying?"
  {
    var ps := INTENTS["book_hotel"].parameters;
    assert FindParam(ps, "destination") == Some(ps[0]);
    assert FindParam(ps, "days") == Some(ps[1]);
  }

  // ---------------------------------------------------------------------------
  // Retry bookkeeping
  // ---------------------------------------------------------------------------

  /** The index of the first missing parameter whose retry count has reached the ceiling. */
  function FirstAtCeiling(missing: seq<string>, counts: map<string, nat>, maxRetries: int): (r: Option<nat>)
    ensures r.None? <==> forall p :: p in missing ==> Count(counts, p) < maxRetries
    ensures r.Some? ==> r.value < |missing| && Count(counts, missing[r.value]) >= maxRetries &&
                        forall j :: 0 <= j < r.value ==> Count(counts, missing[j]) < maxRetries
  {
    if missing == [] then None
    else if Count(counts, missing[0]) >= maxRetries then Some(0)
    else
      match FirstAtCeiling(missing[1..], counts, maxRetries)
      case None => None
      case Some(i) => Some(i + 1)
  }

  /** `updated[p] = updated.get(p, 0) + 1` for each `p` in turn. */
  function Bump(counts: map<string, nat>, ps: seq<string>): map<string, nat>
  {
    if ps == [] then counts
    else
      var c := Bump(counts, ps[..|ps| - 1]);
      c[ps[|ps| - 1] := Count(c, ps[|ps| - 1]) + 1]
  }

  /** Each listed parameter's count rises by exactly one; every other count is unchanged. */
  lemma {:induction false} BumpEffect(counts: map<string, nat>, ps: seq<string>)
    requires NoDup(ps)
    ensures forall k :: Count(Bump(counts, ps), k) == Count(counts, k) + (if k in ps then 1 else 0)
    ensures Bump(counts, ps).Keys == counts.Keys + Elems(ps)
  {
    if ps != [] {
      var front := ps[..|ps| - 1];
      var last := ps[|ps| - 1];
      assert NoDup(front);
      BumpEffect(counts, front);
      assert last !in front;
      assert forall k :: k in ps <==> k in front || k == last;
    }
  }

  /** The missing list is duplicate-free when the required list is. */
  lemma {:induction false} MissingFromNoDup(names: seq<string>, m: map<string, Value>)
    requires NoDup(names)
    ensures NoDup(MissingFrom(names, m))
  {
    if names != [] {
      assert NoDup(names[1..]);
      MissingFromNoDup(names[1..], m);
      MissingFromMembers(names[1..], m);
      assert names[0] !in names[1..];
    }
  }

  // ---------------------------------------------------------------------------
  // The agent
  // ---------------------------------------------------------------------------

  /** The latest user message exists and is not empty. */
  predicate HasUserText(s: Session)
  {
    var m := LastUserContent(s.messages);
    m.Some? && m.value != ""
  }

  function Extracted(s: Session, raw: Option<map<string, Value>>): map<string, Value>
  {
    ExtractParameters(s.currentIntent, RequiredParameters(s.context), raw)
  }

  /** `{**current_params, **extracted_params}`. */
  function Merged(s: Session, raw: Option<map<string, Value>>): map<string, Value>
  {
    s.extractedParameters + Extracted(s, raw)
  }

  /** `[p for p in required_parameters if not updated_params.get(p)]`. */
  function Missing(s: Session, raw: Option<map<string, Value>>): seq<string>
  {
    MissingFrom(RequiredParameters(s.context), Merged(s, raw))
  }

  /** What `InputParameterAgent.__call__` does to a session, given the extraction. */
  function SlotFill(s: Session, raw: Option<map<string, Value>>): (r: Step)
    ensures r.next == Supervisor || r.next == Generation
    ensures r.next == Supervisor ==> r.session.messages == s.messages
    ensures r.next == Generation ==>
              |r.session.messages| == |s.messages| + 1 && r.session.messages[..|s.messages|] == s.messages &&
              LastFrom(r.session.messages, Assistant)
    ensures && r.session.currentIntent == s.currentIntent
            && r.session.selectedTools == s.selectedTools
            && r.session.toolResults == s.toolResults
            && r.session.pausedIntents == s.pausedIntents
  {
    if !HasUserText(s) then
      Step(Supervisor, s.(context := EmptyContext.(error := Some(NO_USER_MESSAGE))))
    else
      var ctx := s.context;
      var missing := Missing(s, raw);
      var counts := RetryCounts(ctx);
      var ceiling := FirstAtCeiling(missing, counts, MaxRetries(ctx));
      if missing != [] && ceiling.Some? then
        var p := missing[ceiling.value];
        Step(Generation, s.(
          extractedParameters := Merged(s, raw),
          context := ctx.(parameterCollectionFailed := Some(true), failedParameter := Some(p),
                          lastResponseType := Some(ParameterFailure)),
          messages := Say(s.messages, FailureMessage(p))))
      else if missing != [] && |Extracted(s, raw)| == 0 then
        Step(Generation, s.(
          extractedParameters := Merged(s, raw),
          context := ctx.(needsClarification := Some(true), lastMissingParams := Some(missing),
                          retryCounts := Some(Bump(counts, missing)),
                          lastResponseType := Some(Clarification)),
          messages := Say(s.messages, ClarificationQuestion(s.currentIntent, missing))))
      else
        Step(Supervisor, s.(
          extractedParameters := Merged(s, raw),
          context := ctx.(lastMissingParams := Some(missing), needsClarification := Some(false),
                          lastResponseType := Some(ParameterProgress))))
  }

  method InputParameter(s: Session, raw: Option<map<string, Value>>) returns (r: Step)
    ensures r == SlotFill(s, raw)
  {
    var userMessage := FindUserMessage(s.messages);
    if userMessage.None? || userMessage.value == "" {
      return Step(Supervisor, s.(context := EmptyContext.(error := Some(NO_USER_MESSAGE))));
    }
    var ctx := s.context;
    var required := RequiredParameters(ctx);
    var extracted := ExtractParameters(s.currentIntent, required, raw);
    var updated := s.extractedParameters + extracted;
    var missing := MissingFrom(required, updated);
    var counts := RetryCounts(ctx);
    if missing != [] {
      var ceiling := CheckCeilings(missing, counts, MaxRetries(ctx));
      if ceiling.Some? {
        var p := missing[ceiling.value];
        return Step(Generation, s.(
          extractedParameters := updated,
          context := ctx.(parameterCollectionFailed := Some(true), failedParameter := Some(p),
                          lastResponseType := Some(ParameterFailure)),
          messages := Say(s.messages, FailureMessage(p))));
      }
      var needsClarification := true;
      if |extracted| > 0 {
        needsClarification := false;
      }
      if needsClarification {
        var message := ClarificationQuestion(s.currentIntent, missing);
        var bumped := IncrementRetries(counts, missing);
        return Step(Generation, s.(
          extractedParameters := updated,
          context := ctx.(needsClarification := Some(true), lastMissingParams := Some(missing),
                          retryCounts := Some(bumped), lastResponseType := Some(Clarification)),
          messages := Say(s.messages, message)));
      }
    }
    return Step(Supervisor, s.(
      extractedParameters := updated,
      context := ctx.(lastMissingParams := Some(missing), needsClarification := Some(false),
                      lastResponseType := Some(ParameterProgress))));
  }

  /** `for msg in reversed(messages)`: the latest user message's content. */
  method FindUserMessage(messages: seq<Message>) returns (userMessage: Option<string>)
    ensures userMessage == LastUserContent(messages)
  {
    var i := |messages|;
    assert messages[..i] == messages;
    while i > 0
      invariant 0 <= i <= |messages|
      invariant LastUserContent(messages[..i]) == LastUserContent(messages)
    {
      assert messages[..i][..i - 1] == messages[..i - 1];
      if messages[i - 1].role == User {
        return Some(messages[i - 1].content);
      }
      i := i - 1;
    }
    return None;
  }

  /** The ceiling scan over the missing parameters, stopping at the first one at the ceiling. */
  method CheckCeilings(missing: seq<string>, counts: map<string, nat>, maxRetries: int)
    returns (ceiling: Option<nat>)
    ensures ceiling == FirstAtCeiling(missing, counts, maxRetries)
  {
    var k := 0;
    while k < |missing|
      invariant 0 <= k <= |missing|
      invariant forall j :: 0 <= j < k ==> Count(counts, missing[j]) < maxRetries
    {
      if Count(counts, missing[k]) >= maxRetries {
        var c := FirstAtCeiling(missing, counts, maxRetries);
        assert c == Some(k) by {
          assert c.Some? && c.value <= k;
        }
        return Some(k);
      }
      k := k + 1;
    }
    return None;
  }

  /** The copied count map with every missing parameter's count incremented. */
  method IncrementRetries(counts: map<string, nat>, missing: seq<string>) returns (bumped: map<string, nat>)
    ensures bumped == Bump(counts, missing)
  {
    bumped := counts;
    var n := 0;
    while n < |missing|
      invariant 0 <= n <= |missing|
      invariant bumped == Bump(counts, missing[..n])
    {
      assert missing[..n + 1][..n] == missing[..n];
      bumped := bumped[missing[n] := Count(bumped, missing[n]) + 1];
      n := n + 1;
    }
    assert missing[..|missing|] == missing;
  }

  // ---------------------------------------------------------------------------
  // Properties of the slot filler
  // ---------------------------------------------------------------------------

  /** Without a (non-empty) user message the context is replaced by the error and nothing else
      changes. */
  lemma NoUserMessageChangesOnlyContext(s: Session, raw: Option<map<string, Value>>)
    requires !HasUserText(s)
    ensures var r := SlotFill(s, raw);
            && r.next == Supervisor
            && r.session == s.(context := EmptyContext.(error := Some(NO_USER_MESSAGE)))
  {
  }

  /** The merged map keeps every old key, takes the extracted values, and gains no key outside
      the required list; the missing list is the required names falsy in the merged map. */
  lemma MergeKeepsRequiredKeys(s: Session, raw: Option<map<string, Value>>)
    ensures var params := Merged(s, raw);
            && params.Keys <= s.extractedParameters.Keys + Elems(RequiredParameters(s.context))
            && (forall k :: k in Extracted(s, raw) ==> params[k] == Extracted(s, raw)[k])
            && (forall k :: k in s.extractedParameters && k !in Extracted(s, raw) ==>
                  params[k] == s.extractedParameters[k])
            && (forall p :: p in Missing(s, raw) <==>
                  p in RequiredParameters(s.context) && !Present(params, p))
  {
    MissingFromMembers(RequiredParameters(s.context), Merged(s, raw));
  }

  /** The ceiling is checked before the progress test: a missing parameter at the ceiling ends
      collection with one failure message naming the first such parameter, whatever was
      extracted, and the retry counts stay as they were. */
  lemma CeilingComesFirst(s: Session, raw: Option<map<string, Value>>, p: string)
    requires HasUserText(s)
    requires p in Missing(s, raw) && Count(RetryCounts(s.context), p) >= MaxRetries(s.context)
    ensures var r := SlotFill(s, raw);
            var f := r.session.context.failedParameter;
            && r.next == Generation
            && f.Some? && f.value in Missing(s, raw)
            && Count(RetryCounts(s.context), f.value) >= MaxRetries(s.context)
            && (exists k :: 0 <= k < |Missing(s, raw)| && f.value == Missing(s, raw)[k] &&
                  forall j :: 0 <= j < k ==> Count(RetryCounts(s.context), Missing(s, raw)[j]) < MaxRetries(s.context))
            && r.session.messages == Say(s.messages, FailureMessage(f.value))
            && r.session.context.parameterCollectionFailed == Some(true)
            && r.session.context.lastResponseType == Some(ParameterFailure)
            && r.session.context.retryCounts == s.context.retryCounts
            && r.session.extractedParameters == Merged(s, raw)
  {
    var missing := Missing(s, raw);
    var k := FirstAtCeiling(missing, RetryCounts(s.context), MaxRetries(s.context));
    assert k.Some? && SlotFill(s, raw).session.context.failedParameter == Some(missing[k.value]);
  }

  /** With nothing extracted and no parameter at the ceiling, each missing parameter's count
      rises by exactly one, every other count is unchanged, and one clarification is asked. */
  lemma ClarificationCountsOneRetry(s: Session, raw: Option<map<string, Value>>)
    requires HasUserText(s) && NoDup(RequiredParameters(s.context))
    requires Missing(s, raw) != [] && |Extracted(s, raw)| == 0
    requires forall p :: p in Missing(s, raw) ==> Count(RetryCounts(s.context), p) < MaxRetries(s.context)
    ensures var r := SlotFill(s, raw);
            && r.next == Generation
            && r.session.messages == Say(s.messages, ClarificationQuestion(s.currentIntent, Missing(s, raw)))
            && r.session.context.lastResponseType == Some(Clarification)
            && r.session.context.lastMissingParams == Some(Missing(s, raw))
            && r.session.extractedParameters == Merged(s, raw)
            && forall k :: Count(RetryCounts(r.session.context), k) ==
                           Count(RetryCounts(s.context), k) + (if k in Missing(s, raw) then 1 else 0)
  {
    MissingFromNoDup(RequiredParameters(s.context), Merged(s, raw));
    BumpEffect(RetryCounts(s.context), Missing(s, raw));
  }

  /** When something was extracted (and no ceiling was hit) or nothing is missing, the retry
      counts and the history are unchanged and control returns to the supervisor. */
  lemma ProgressKeepsRetries(s: Session, raw: Option<map<string, Value>>)
    requires HasUserText(s)
    requires Missing(s, raw) == [] ||
             (|Extracted(s, raw)| > 0 &&
              forall p :: p in Missing(s, raw) ==> Count(RetryCounts(s.context), p) < MaxRetries(s.context))
    ensures var r := SlotFill(s, raw);
            && r.next == Supervisor
            && r.session.messages == s.messages
            && r.session.context.retryCounts == s.context.retryCounts
            && r.session.context.lastMissingParams == Some(Missing(s, raw))
            && r.session.context.lastResponseType == Some(ParameterProgress)
            && r.session.extractedParameters == Merged(s, raw)
  {
  }

  /** No retry count exceeds the ceiling, and the required list has no repeats (it is the list
      of a schema's keys). */
  predicate RetriesWithinCeiling(c: Context)
  {
    && NoDup(RequiredParameters(c))
    && forall k :: k in RetryCounts(c) ==> RetryCounts(c)[k] <= MaxRetries(c)
  }

  lemma RetriesStayWithinCeiling(s: Session, raw: Option<map<string, Value>>)
    requires RetriesWithinCeiling(s.context)
    ensures RetriesWithinCeiling(SlotFill(s, raw).session.context)
  {
    if HasUserText(s) {
      var missing := Missing(s, raw);
      var counts := RetryCounts(s.context);
      SlotFillCeilingFields(s, raw);
      if SlotFill(s, raw).session.context.retryCounts != s.context.retryCounts {
        MissingFromNoDup(RequiredParameters(s.context), Merged(s, raw));
        BumpWithinCeiling(counts, missing, MaxRetries(s.context));
      }
    } else {
      assert RetryCounts(EmptyContext) == map[];
    }
  }

  /** With a user message the required list and the ceiling are kept, and the counts change
      only by the clarification's bump. */
  lemma SlotFillCeilingFields(s: Session, raw: Option<map<string, Value>>)
    requires HasUserText(s)
    ensures var c := SlotFill(s, raw).session.context;
            var missing := Missing(s, raw);
            && c.requiredParameters == s.context.requiredParameters
            && c.maxRetries == s.context.maxRetries
            && (c.retryCounts == s.context.retryCounts ||
                (&& missing != []
                 && FirstAtCeiling(missing, RetryCounts(s.context), MaxRetries(s.context)).None?
                 && c.retryCounts == Some(Bump(RetryCounts(s.context), missing))))
  {
  }

  /** Bumping parameters that are below the ceiling keeps every count at or below it. */
  lemma BumpWithinCeiling(counts: map<string, nat>, missing: seq<string>, maxRetries: int)
    requires NoDup(missing)
    requires forall k :: k in counts ==> counts[k] <= maxRetries
    requires forall p :: p in missing ==> Count(counts, p) < maxRetries
    ensures forall k :: k in Bump(counts, missing) ==> Bump(counts, missing)[k] <= maxRetries
  {
    BumpEffect(counts, missing);
    var bumped := Bump(counts, missing);
    forall k | k in bumped
      ensures bumped[k] <= maxRetries
    {
      assert Count(bumped, k) == bumped[k];
      if k !in missing {
        assert k in counts;
      }
    }
  }

  /** `n` turns in which the extraction yields nothing. */
  function NoProgressTurns(s: Session, n: nat): Session
    decreases n
  {
    if n == 0 then s else NoProgressTurns(SlotFill(s, None).session, n - 1)
  }

  /** One turn in which nothing is extracted and no missing parameter is at the ceiling:
      everything the agent reads stays as it was except the retry counts. */
  lemma NoProgressTurn(t: Session)
    requires HasUserText(t) && NoDup(RequiredParameters(t.context))
    requires Missing(t, None) != []
    requires forall p :: p in Missing(t, None) ==> Count(RetryCounts(t.context), p) < MaxRetries(t.context)
    ensures var u := SlotFill(t, None).session;
            && LastUserContent(u.messages) == LastUserContent(t.messages) && u.currentIntent == t.currentIntent
            && u.extractedParameters == t.extractedParameters
            && RequiredParameters(u.context) == RequiredParameters(t.context)
            && MaxRetries(u.context) == MaxRetries(t.context)
            && Missing(u, None) == Missing(t, None)
            && forall p :: p in Missing(t, None) ==>
                 Count(RetryCounts(u.context), p) == Count(RetryCounts(t.context), p) + 1
  {
    assert Extracted(t, None) == map[];
    MergeEmpty(t.extractedParameters);
    ClarificationCountsOneRetry(t, None);
    LastUserContentIgnoresReplies(t.messages, ClarificationQuestion(t.currentIntent, Missing(t, None)));
    var u := SlotFill(t, None).session;
    assert Extracted(u, None) == map[];
  }

  /** With every missing parameter at count `c` and the default ceiling of 5, `n` more
      no-progress turns (up to the ceiling) leave everything the agent reads unchanged except
      the counts, which become `c + n`. */
  lemma {:induction false} NoProgressCounts(s: Session, n: nat, c: nat)
    requires HasUserText(s) && NoDup(RequiredParameters(s.context)) && MaxRetries(s.context) == 5
    requires Missing(s, None) != []
    requires forall p :: p in Missing(s, None) ==> Count(RetryCounts(s.context), p) == c
    requires c + n <= 5
    decreases n
    ensures var t := NoProgressTurns(s, n);
            && LastUserContent(t.messages) == LastUserContent(s.messages) && t.currentIntent == s.currentIntent
            && t.extractedParameters == s.extractedParameters
            && RequiredParameters(t.context) == RequiredParameters(s.context)
            && MaxRetries(t.context) == 5
            && Missing(t, None) == Missing(s, None)
            && forall p :: p in Missing(s, None) ==> Count(RetryCounts(t.context), p) == c + n
  {
    if n > 0 {
      NoProgressTurn(s);
      var u := SlotFill(s, None).session;
      NoProgressCounts(u, n - 1, c + 1);
      assert NoProgressTurns(s, n) == NoProgressTurns(u, n - 1);
      NoProgressChain(s, u, NoProgressTurns(u, n - 1), c + n);
    }
  }

  /** Chains one no-progress turn from `s` to `u` with the turns from `u` to `t`. */
  lemma NoProgressChain(s: Session, u: Session, t: Session, total: nat)
    requires LastUserContent(u.messages) == LastUserContent(s.messages) && u.currentIntent == s.currentIntent
    requires u.extractedParameters == s.extractedParameters
    requires RequiredParameters(u.context) == RequiredParameters(s.context)
    requires Missing(u, None) == Missing(s, None)
    requires LastUserContent(t.messages) == LastUserContent(u.messages) && t.currentIntent == u.currentIntent
    requires t.extractedParameters == u.extractedParameters
    requires RequiredParameters(t.context) == RequiredParameters(u.context)
    requires Missing(t, None) == Missing(u, None)
    requires forall p :: p in Missing(u, None) ==> Count(RetryCounts(t.context), p) == total
    ensures LastUserContent(t.messages) == LastUserContent(s.messages) && t.currentIntent == s.currentIntent
    ensures t.extractedParameters == s.extractedParameters
    ensures RequiredParameters(t.context) == RequiredParameters(s.context)
    ensures Missing(t, None) == Missing(s, None)
    ensures forall p :: p in Missing(s, None) ==> Count(RetryCounts(t.context), p) == total
  {
  }

  /** Before the ceiling, a no-progress turn asks for clarification. */
  lemma ClarifiesBeforeCeiling(s: Session, n: nat)
    requires HasUserText(s) && NoDup(RequiredParameters(s.context)) && MaxRetries(s.context) == 5
    requires Missing(s, None) != []
    requires forall p :: p in Missing(s, None) ==> Count(RetryCounts(s.context), p) == 0
    requires n < 5
    ensures SlotFill(NoProgressTurns(s, n), None).session.context.lastResponseType == Some(Clarification)
  {
    NoProgressCounts(s, n, 0);
    var t := NoProgressTurns(s, n);
    assert HasUserText(t);
    assert Extracted(t, None) == map[];
    assert FirstAtCeiling(Missing(t, None), RetryCounts(t.context), MaxRetries(t.context)).None?;
  }

  /** Five no-progress turns ask for clarification; the sixth gives up on the first missing
      parameter. */
  lemma FiveClarificationsThenFailure(s: Session)
    requires HasUserText(s) && NoDup(RequiredParameters(s.context)) && MaxRetries(s.context) == 5
    requires Missing(s, None) != []
    requires forall p :: p in Missing(s, None) ==> Count(RetryCounts(s.context), p) == 0
    ensures forall n :: 0 <= n < 5 ==>
              SlotFill(NoProgressTurns(s, n), None).session.context.lastResponseType == Some(Clarification)
    ensures SlotFill(NoProgressTurns(s, 5), None).next == Generation
    ensures SlotFill(NoProgressTurns(s, 5), None).session.context.lastResponseType == Some(ParameterFailure)
    ensures SlotFill(NoProgressTurns(s, 5), None).session.context.failedParameter == Some(Missing(s, None)[0])
  {
    forall n | 0 <= n < 5
      ensures SlotFill(NoProgressTurns(s, n), None).session.context.lastResponseType == Some(Clarification)
    {
      ClarifiesBeforeCeiling(s, n);
    }
    NoProgressCounts(s, 5, 0);
    GivesUpAtCeiling(NoProgressTurns(s, 5));
  }

  /** A turn whose first missing parameter has reached the ceiling gives up on it. */
  lemma GivesUpAtCeiling(t: Session)
    requires HasUserText(t) && Missing(t, None) != []
    requires Count(RetryCounts(t.context), Missing(t, None)[0]) >= MaxRetries(t.context)
    ensures SlotFill(t, None).next == Generation
    ensures SlotFill(t, None).session.context.lastResponseType == Some(ParameterFailure)
    ensures SlotFill(t, None).session.context.failedParameter == Some(Missing(t, None)[0])
  {
    assert FirstAtCeiling(Missing(t, None), RetryCounts(t.context), MaxRetries(t.context)) == Some(0);
  }
}
