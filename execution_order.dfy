/**
 * The dependency batch scheduler of the capability registry: it groups an intent's
 * tools into an ordered sequence of batches. A tool is ready when it is configured and
 * every entry of its dependency list is the NAME of a tool already scheduled; when no
 * remaining tool is ready, one arbitrary remaining tool is forced into a batch of its own.
 */
module ExecutionOrder {
  import opened Common
  import opened SystemConfig

  /** `[t for batch in order for t in batch]`. */
  function Flatten(order: seq<seq<string>>): seq<string>
  {
    if order == [] then [] else Flatten(order[..|order| - 1]) + order[|order| - 1]
  }

  /** The readiness test: a configured tool all of whose dependency entries are among the
      names scheduled so far. */
  predicate Ready(t: string, scheduled: seq<string>)
  {
    t in TOOLS && forall d | d in TOOLS[t].dependsOn :: d in scheduled
  }

  ghost function ReadySet(remaining: set<string>, scheduled: seq<string>): set<string>
  {
    set t | t in remaining && Ready(t, scheduled)
  }

  /** One loop iteration's batch: exactly the ready remaining tools, in some order, or a single
      remaining tool when none is ready. */
  ghost predicate BatchStep(remaining: set<string>, scheduled: seq<string>, batch: seq<string>)
  {
    && NoDup(batch)
    && Elems(batch) <= remaining
    && if ReadySet(remaining, scheduled) != {} then Elems(batch) == ReadySet(remaining, scheduled)
       else |batch| == 1
  }

  ghost function Remaining(tools: set<string>, order: seq<seq<string>>): set<string>
  {
    tools - Elems(Flatten(order))
  }

  /** Every batch was the batch the loop may choose after the batches before it, and no tool
      is left over: the possible results of the scheduler for the tool set `tools`. */
  ghost predicate IsExecutionOrder(tools: set<string>, order: seq<seq<string>>)
  {
    && (forall i :: 0 <= i < |order| ==>
          BatchStep(Remaining(tools, order[..i]), Flatten(order[..i]), order[i]))
    && Remaining(tools, order) == {}
  }

  /** Batch `i` was forced: no remaining tool was ready when it was chosen. */
  ghost predicate Forced(tools: set<string>, order: seq<seq<string>>, i: nat)
    requires i <= |order|
  {
    ReadySet(Remaining(tools, order[..i]), Flatten(order[..i])) == {}
  }

  method GetToolExecutionOrder(intentName: string) returns (order: seq<seq<string>>)
    ensures intentName !in INTENTS ==> order == []
    ensures intentName in INTENTS ==> IsExecutionOrder(Elems(INTENTS[intentName].tools), order)
  {
    var config := GetIntentConfig(intentName);
    if config.None? {
      return [];
    }
    order := Schedule(config.value.tools);
  }

  /** The scheduling loop of `get_tool_execution_order` over the intent's tool list. */
  method Schedule(tools: seq<string>) returns (order: seq<seq<string>>)
    ensures IsExecutionOrder(Elems(tools), order)
  {
    if tools == [] {
      return [];
    }
    var remaining := Elems(tools);
    order := [];
    while remaining != {}
      invariant remaining == Remaining(Elems(tools), order)
      invariant forall i :: 0 <= i < |order| ==>
                  BatchStep(Remaining(Elems(tools), order[..i]), Flatten(order[..i]), order[i])
      decreases |remaining|
    {
      var ready := ReadyTools(remaining, Flatten(order));
      if ready == [] {
        assert ReadySet(remaining, Flatten(order)) == Elems(ready) == {};
        var t :| t in remaining;
        ready := [t];
        assert Elems(ready) == {t};
      } else {
        assert ready[0] in Elems(ready);
      }
      ExtendOrder(Elems(tools), order, ready);
      var t0 := ready[0];
      assert remaining - Elems(ready) <= remaining - {t0};
      order := order + [ready];
      remaining := remaining - Elems(ready);
    }
  }

  /** The inner `for tool in remaining_tools` loop: the ready tools, in set iteration order. */
  method ReadyTools(remaining: set<string>, scheduled: seq<string>) returns (ready: seq<string>)
    ensures NoDup(ready)
    ensures Elems(ready) == ReadySet(remaining, scheduled)
  {
    ready := [];
    var unvisited := remaining;
    ghost var visited: set<string> := {};
    while unvisited != {}
      invariant visited == remaining - unvisited && unvisited <= remaining
      invariant NoDup(ready)
      invariant Elems(ready) == ReadySet(visited, scheduled)
      decreases |unvisited|
    {
      var t :| t in unvisited;
      ReadySetAdd(visited, t, scheduled);
      if Ready(t, scheduled) {
        NoDupConcat(ready, [t]);
        ready := ready + [t];
      }
      unvisited := unvisited - {t};
      visited := visited + {t};
    }
    assert visited == remaining;
  }

  lemma ReadySetAdd(visited: set<string>, t: string, scheduled: seq<string>)
    ensures ReadySet(visited + {t}, scheduled) ==
            ReadySet(visited, scheduled) + (if Ready(t, scheduled) then {t} else {})
  {
  }

  /** Appending a batch the loop may choose keeps the order a valid prefix. */
  lemma ExtendOrder(tools: set<string>, order: seq<seq<string>>, batch: seq<string>)
    requires forall i :: 0 <= i < |order| ==>
               BatchStep(Remaining(tools, order[..i]), Flatten(order[..i]), order[i])
    requires NoDup(batch) && Elems(batch) <= Remaining(tools, order)
    requires ReadySet(Remaining(tools, order), Flatten(order)) != {} ==>
               Elems(batch) == ReadySet(Remaining(tools, order), Flatten(order))
    requires ReadySet(Remaining(tools, order), Flatten(order)) == {} ==> |batch| == 1
    ensures Remaining(tools, order + [batch]) == Remaining(tools, order) - Elems(batch)
    ensures forall i :: 0 <= i < |order + [batch]| ==>
              BatchStep(Remaining(tools, (order + [batch])[..i]), Flatten((order + [batch])[..i]), (order + [batch])[i])
  {
    AppendBatch(tools, order, batch);
    var next := order + [batch];
    forall i | 0 <= i < |next|
      ensures BatchStep(Remaining(tools, next[..i]), Flatten(next[..i]), next[i])
    {
      if i < |order| {
        assert next[..i] == order[..i] && next[i] == order[i];
      } else {
        assert next[..i] == order && next[i] == batch;
      }
    }
  }

  lemma AppendBatch(tools: set<string>, order: seq<seq<string>>, batch: seq<string>)
    ensures Flatten(order + [batch]) == Flatten(order) + batch
    ensures Remaining(tools, order + [batch]) == Remaining(tools, order) - Elems(batch)
    ensures forall i :: 0 <= i <= |order| ==> (order + [batch])[..i] == order[..i]
  {
    assert (order + [batch])[..|order|] == order;
  }

  // ---------------------------------------------------------------------------
  // Properties of every possible execution order
  // ---------------------------------------------------------------------------

  lemma NoDupConcat(a: seq<string>, b: seq<string>)
    requires NoDup(a) && NoDup(b) && Elems(a) !! Elems(b)
    ensures NoDup(a + b)
  {
    forall i, j | 0 <= i < j < |a + b|
      ensures (a + b)[i] != (a + b)[j]
    {
      if i < |a| && j >= |a| {
        assert (a + b)[i] in Elems(a) && (a + b)[j] in Elems(b);
      }
    }
  }

  lemma {:induction false} NoDupCardinality(s: seq<string>)
    requires NoDup(s)
    ensures |Elems(s)| == |s|
  {
    if s != [] {
      var front := s[..|s| - 1];
      NoDupCardinality(front);
      assert Elems(s) == Elems(front) + {s[|s| - 1]};
      assert s[|s| - 1] !in Elems(front);
    }
  }

  /** Up to batch `k` the scheduled names are distinct tools of the intent, at least one per batch. */
  lemma {:induction false} PrefixScheduled(tools: set<string>, order: seq<seq<string>>, k: nat)
    requires IsExecutionOrder(tools, order)
    requires k <= |order|
    ensures NoDup(Flatten(order[..k]))
    ensures Elems(Flatten(order[..k])) <= tools
    ensures |Flatten(order[..k])| >= k
  {
    if k > 0 {
      PrefixScheduled(tools, order, k - 1);
      var front := order[..k - 1];
      assert order[..k] == front + [order[k - 1]];
      assert BatchStep(Remaining(tools, front), Flatten(front), order[k - 1]);
      ScheduleBatch(tools, front, order[k - 1]);
    }
  }

  /** One more batch the loop may choose schedules at least one more distinct tool. */
  lemma ScheduleBatch(tools: set<string>, front: seq<seq<string>>, batch: seq<string>)
    requires NoDup(Flatten(front)) && Elems(Flatten(front)) <= tools && |Flatten(front)| >= |front|
    requires BatchStep(Remaining(tools, front), Flatten(front), batch)
    ensures NoDup(Flatten(front + [batch]))
    ensures Elems(Flatten(front + [batch])) <= tools
    ensures |Flatten(front + [batch])| >= |front| + 1
  {
    AppendBatch(tools, front, batch);
    NoDupConcat(Flatten(front), batch);
    assert Elems(Flatten(front) + batch) == Elems(Flatten(front)) + Elems(batch);
  }

  /** Each batch is non-empty and has no repeated tool. */
  lemma BatchesNonEmpty(tools: set<string>, order: seq<seq<string>>)
    requires IsExecutionOrder(tools, order)
    ensures forall i :: 0 <= i < |order| ==> |order[i]| > 0 && NoDup(order[i])
  {
    forall i | 0 <= i < |order|
      ensures |order[i]| > 0 && NoDup(order[i])
    {
      assert BatchStep(Remaining(tools, order[..i]), Flatten(order[..i]), order[i]);
    }
  }

  /** The scheduled names are exactly the intent's distinct tools, each scheduled once. */
  lemma ScheduledOnce(tools: set<string>, order: seq<seq<string>>)
    requires IsExecutionOrder(tools, order)
    ensures NoDup(Flatten(order))
    ensures Elems(Flatten(order)) == tools
  {
    PrefixAtEnd(tools, order);
    var e := Elems(Flatten(order));
    assert tools - e == {};
    forall x | x in tools ensures x in e {
      assert x !in tools - e;
    }
  }

  lemma PrefixAtEnd(tools: set<string>, order: seq<seq<string>>)
    requires IsExecutionOrder(tools, order)
    ensures NoDup(Flatten(order))
    ensures Elems(Flatten(order)) <= tools
  {
    PrefixScheduled(tools, order, |order|);
    assert order[..|order|] == order;
  }

  /** The batches partition the intent's distinct tools: every tool is in some batch, batches
      are pairwise disjoint, and no batch repeats a tool. */
  lemma Partition(tools: set<string>, order: seq<seq<string>>)
    requires IsExecutionOrder(tools, order)
    ensures forall t :: t in tools <==> exists i :: 0 <= i < |order| && t in order[i]
    ensures forall i, j :: 0 <= i < j < |order| ==> Elems(order[i]) !! Elems(order[j])
    ensures forall i :: 0 <= i < |order| ==> NoDup(order[i])
  {
    ScheduledOnce(tools, order);
    BatchesNonEmpty(tools, order);
    forall t | t in tools
      ensures exists i :: 0 <= i < |order| && t in order[i]
    {
      assert t in Elems(Flatten(order));
      var i := FindBatch(order, t);
    }
    forall t, i | 0 <= i < |order| && t in order[i]
      ensures t in tools
    {
      InPrefixFlatten(order, i, |order|);
      assert order[..|order|] == order;
      assert t in Elems(order[i]);
    }
    forall i, j | 0 <= i < j < |order|
      ensures Elems(order[i]) !! Elems(order[j])
    {
      NoDupBatches(tools, order, i, j);
    }
  }

  /** Each iteration removes at least one tool, so there are at most as many batches as distinct tools. */
  lemma BatchCountBound(tools: set<string>, order: seq<seq<string>>)
    requires IsExecutionOrder(tools, order)
    ensures |order| <= |tools|
  {
    PrefixScheduled(tools, order, |order|);
    assert order[..|order|] == order;
    ScheduledOnce(tools, order);
    NoDupCardinality(Flatten(order));
  }

  /** A normal batch holds only tools whose every dependency entry is already scheduled in an
      earlier batch; a forced batch holds exactly one tool. */
  lemma NormalOrForced(tools: set<string>, order: seq<seq<string>>, i: nat)
    requires IsExecutionOrder(tools, order)
    requires i < |order|
    ensures !Forced(tools, order, i) ==>
              forall t :: t in order[i] ==>
                (t in TOOLS && forall d :: d in TOOLS[t].dependsOn ==> d in Flatten(order[..i]))
    ensures Forced(tools, order, i) ==> |order[i]| == 1
  {
    assert BatchStep(Remaining(tools, order[..i]), Flatten(order[..i]), order[i]);
    if !Forced(tools, order, i) {
      forall t | t in order[i]
        ensures t in TOOLS && forall d :: d in TOOLS[t].dependsOn ==> d in Flatten(order[..i])
      {
        assert t in Elems(order[i]);
        assert Ready(t, Flatten(order[..i]));
      }
    }
  }

  /** A configured tool without dependency entries is placed in the first batch. */
  lemma NoDependenciesFirstBatch(tools: set<string>, order: seq<seq<string>>, t: string)
    requires IsExecutionOrder(tools, order)
    requires t in tools && t in TOOLS && TOOLS[t].dependsOn == []
    ensures |order| > 0 && t in order[0]
  {
    assert Remaining(tools, []) == tools;
    assert order[..0] == [];
    assert Flatten(order[..0]) == [];
    assert Ready(t, []);
    assert t in ReadySet(Remaining(tools, order[..0]), Flatten(order[..0]));
    assert BatchStep(Remaining(tools, order[..0]), Flatten(order[..0]), order[0]);
    assert t in Elems(order[0]);
  }

  /** With an unknown intent, or one without tools, the order is empty. */
  lemma EmptyToolsEmptyOrder(order: seq<seq<string>>)
    requires IsExecutionOrder({}, order)
    ensures order == []
  {
    BatchCountBound({}, order);
  }

  /** Because dependency entries are output tags and never tool names, a configured tool with
      a non-empty dependency list is never ready: it is always placed alone by the forced
      fallback. (Every intent's tools are configured: `IntentToolsAreConfigured`.) */
  lemma DependentToolIsForced(tools: set<string>, order: seq<seq<string>>, i: nat, t: string)
    requires tools <= TOOLS.Keys
    requires IsExecutionOrder(tools, order)
    requires i < |order| && t in order[i] && t in TOOLS && TOOLS[t].dependsOn != []
    ensures Forced(tools, order, i) && order[i] == [t]
  {
    PrefixScheduled(tools, order, i);
    DependencyTagsAreNotToolNames(t);
    var d := TOOLS[t].dependsOn[0];
    assert d in TOOLS[t].dependsOn;
    assert d !in Elems(Flatten(order[..i]));
    assert d !in Flatten(order[..i]);
    NormalOrForced(tools, order, i);
    if !Forced(tools, order, i) {
      assert false;
    }
    assert |order[i]| == 1 && order[i][0] == t;
  }

  /** A search tool without dependencies and a booking tool with one are always scheduled as
      the search batch followed by the forced booking batch. */
  lemma SearchThenBook(tools: set<string>, order: seq<seq<string>>, search: string, book: string)
    requires search in TOOLS && TOOLS[search].dependsOn == []
    requires book in TOOLS && TOOLS[book].dependsOn != []
    requires tools == {search, book}
    requires IsExecutionOrder(tools, order)
    ensures order == [[search], [book]]
  {
    NoDependenciesFirstBatch(tools, order, search);
    ScheduledOnce(tools, order);
    assert book in Elems(Flatten(order));
    var i := FindBatch(order, book);
    DependentToolIsForced(tools, order, i, book);
    BatchCountBound(tools, order);
    assert i == 1;
    NoDupBatches(tools, order, 0, 1);
    InPrefixFlatten(order, 0, |order|);
    assert order[..|order|] == order;
    assert Elems(order[0]) <= {search};
    BatchesNonEmpty(tools, order);
    SingletonSeq(order[0], search);
    assert order == [order[0], order[1]];
  }

  /** The flight intent: search, then the forced booking. */
  lemma BookFlightOrder(order: seq<seq<string>>)
    requires IsExecutionOrder(Elems(INTENTS["book_flight"].tools), order)
    ensures order == [["search_flights"], ["book_flight"]]
  {
    assert Elems(INTENTS["book_flight"].tools) == {"search_flights", "book_flight"};
    SearchThenBook({"search_flights", "book_flight"}, order, "search_flights", "book_flight");
  }

  /** Tools without dependencies together with two dependent tools: one batch of all the
      independent tools, then the two dependent tools alone, in either order. */
  lemma FreeThenTwoForced(tools: set<string>, order: seq<seq<string>>, free: set<string>,
                          b1: string, b2: string)
    requires free != {} && forall t :: t in free ==> t in TOOLS && TOOLS[t].dependsOn == []
    requires b1 in TOOLS && TOOLS[b1].dependsOn != [] && b2 in TOOLS && TOOLS[b2].dependsOn != []
    requires b1 != b2 && tools == free + {b1, b2}
    requires IsExecutionOrder(tools, order)
    ensures |order| == 3 && Elems(order[0]) == free
    ensures || (order[1] == [b1] && order[2] == [b2])
            || (order[1] == [b2] && order[2] == [b1])
  {
    var t0 :| t0 in free;
    NoDependenciesFirstBatch(tools, order, t0);
    FirstBatchIsFree(tools, order, free, b1, b2);
    ScheduledOnce(tools, order);
    assert b1 in Elems(Flatten(order)) && b2 in Elems(Flatten(order));
    var i := FindBatch(order, b1);
    var j := FindBatch(order, b2);
    DependentToolIsForced(tools, order, i, b1);
    DependentToolIsForced(tools, order, j, b2);
    assert order[i][0] == b1 && order[j][0] == b2;
    assert i != 0 && j != 0 && i != j;
    BatchIndex(tools, order, free, b1, b2, i, j, 1);
    BatchIndex(tools, order, free, b1, b2, i, j, 2);
    if |order| > 3 {
      BatchIndex(tools, order, free, b1, b2, i, j, 3);
    }
  }

  lemma FirstBatchIsFree(tools: set<string>, order: seq<seq<string>>, free: set<string>,
                         b1: string, b2: string)
    requires free != {} && forall t :: t in free ==> t in TOOLS && TOOLS[t].dependsOn == []
    requires b1 in TOOLS && TOOLS[b1].dependsOn != [] && b2 in TOOLS && TOOLS[b2].dependsOn != []
    requires tools == free + {b1, b2}
    requires IsExecutionOrder(tools, order) && |order| > 0
    ensures Elems(order[0]) == free
  {
    assert order[..0] == [] && Flatten([]) == [];
    assert Remaining(tools, []) == tools;
    assert TOOLS[b1].dependsOn[0] in TOOLS[b1].dependsOn;
    assert TOOLS[b2].dependsOn[0] in TOOLS[b2].dependsOn;
    assert !Ready(b1, []) && !Ready(b2, []);
    assert forall t :: t in free ==> Ready(t, []);
    assert ReadySet(tools, []) == free;
    assert BatchStep(Remaining(tools, order[..0]), Flatten(order[..0]), order[0]);
  }

  lemma BatchIndex(tools: set<string>, order: seq<seq<string>>, free: set<string>,
                   b1: string, b2: string, i: nat, j: nat, k: nat)
    requires tools == free + {b1, b2}
    requires IsExecutionOrder(tools, order)
    requires 0 < |order| && Elems(order[0]) == free
    requires i < |order| && order[i] == [b1] && j < |order| && order[j] == [b2]
    requires k < |order|
    ensures k == 0 || k == i || k == j
  {
    BatchesNonEmpty(tools, order);
    Partition(tools, order);
    var x := order[k][0];
    assert x in Elems(order[k]);
    assert x in tools;
    assert x in Elems(order[0]) || x in Elems(order[i]) || x in Elems(order[j]);
  }

  /** The vacation intent: the three searches and the weather lookup share the first batch;
      the two bookings follow alone, in either order. */
  lemma PlanVacationOrder(order: seq<seq<string>>)
    requires IsExecutionOrder(Elems(INTENTS["plan_vacation"].tools), order)
    ensures |order| == 3 && Elems(order[0]) == {"search_flights", "search_hotels", "get_weather"}
    ensures || (order[1] == ["book_flight"] && order[2] == ["book_hotel"])
            || (order[1] == ["book_hotel"] && order[2] == ["book_flight"])
  {
    var free := {"search_flights", "search_hotels", "get_weather"};
    var ts := INTENTS["plan_vacation"].tools;
    assert ts == ["search_flights", "search_hotels", "get_weather", "book_flight", "book_hotel"];
    ElemsOfFive("search_flights", "search_hotels", "get_weather", "book_flight", "book_hotel");
    FreeThenTwoForced(free + {"book_flight", "book_hotel"}, order, free, "book_flight", "book_hotel");
  }

  lemma ElemsOfFive(a: string, b: string, c: string, d: string, e: string)
    ensures Elems([a, b, c, d, e]) == {a, b, c} + {d, e}
  {
    var s := [a, b, c, d, e];
    assert s[0] == a && s[1] == b && s[2] == c && s[3] == d && s[4] == e;
  }

  lemma SingletonSeq(s: seq<string>, x: string)
    requires NoDup(s) && x in s && Elems(s) <= {x}
    ensures s == [x]
  {
    NoDupCardinality(s);
    assert Elems(s) == {x};
    assert s[0] in Elems(s);
  }

  lemma FindBatch(order: seq<seq<string>>, t: string) returns (i: nat)
    requires t in Flatten(order)
    ensures i < |order| && t in order[i]
  {
    var front := order[..|order| - 1];
    if t in order[|order| - 1] {
      i := |order| - 1;
    } else {
      assert t in Flatten(front);
      i := FindBatch(front, t);
    }
  }

  /** Two different batches share no tool. */
  lemma NoDupBatches(tools: set<string>, order: seq<seq<string>>, i: nat, j: nat)
    requires IsExecutionOrder(tools, order)
    requires i < j < |order|
    ensures Elems(order[i]) !! Elems(order[j])
  {
    PrefixScheduled(tools, order, j);
    assert BatchStep(Remaining(tools, order[..j]), Flatten(order[..j]), order[j]);
    InPrefixFlatten(order, i, j);
  }

  lemma InPrefixFlatten(order: seq<seq<string>>, i: nat, j: nat)
    requires i < j <= |order|
    ensures Elems(order[i]) <= Elems(Flatten(order[..j]))
  {
    var front := order[..j - 1];
    assert order[..j] == front + [order[j - 1]];
    AppendBatch({}, front, order[j - 1]);
    if i < j - 1 {
      InPrefixFlatten(order, i, j - 1);
      assert order[..j - 1][..j - 1] == order[..j - 1];
    }
  }
}
