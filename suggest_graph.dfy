/**
 * The food-suggestion workflow: a draft, then rounds of tool execution and revision. The
 * revisor counts the revisions since the user last spoke and, past the cap, ends the loop
 * itself with a synthetic CompleteOrEscalate call.
 */
module SuggestGraph {
  import opened Wrappers
  import opened Messages
  import Tools

  datatype Node = Start | End | Draft | ExecuteTools | Revisor

  // ---------------------------------------------------------------------------------
  // _get_num_iterations
  // ---------------------------------------------------------------------------------

  /** How many of `calls` are ReviseFoodRecommendation calls. */
  function CountRevise(calls: seq<ToolCall>): (r: nat)
    ensures r <= |calls|
  {
    if calls == [] then 0
    else CountRevise(calls[..|calls| - 1]) + (if calls[|calls| - 1].name == ReviseFoodRecommendation then 1 else 0)
  }

  /**
   * The number of ReviseFoodRecommendation calls made by AI messages after the most recent
   * human message (all of them when there is none).
   */
  function Iterations(msgs: seq<Message>): nat
  {
    if msgs == [] then 0
    else
      var m := Last(msgs);
      if m.AI? && m.calls != [] then CountRevise(m.calls) + Iterations(msgs[..|msgs| - 1])
      else if m.Human? then 0
      else Iterations(msgs[..|msgs| - 1])
  }

  /** `_get_num_iterations`: a backward scan that stops at the first human message. */
  method NumIterations(msgs: seq<Message>) returns (i: nat)
    ensures i == Iterations(msgs)
  {
    i := 0;
    var k := |msgs|;
    assert msgs[..k] == msgs;
    while k > 0
      invariant 0 <= k <= |msgs|
      invariant Iterations(msgs) == i + Iterations(msgs[..k])
    {
      var m := msgs[k - 1];
      assert msgs[..k][..k - 1] == msgs[..k - 1];
      if m.AI? && m.calls != [] {
        var j := 0;
        while j < |m.calls|
          invariant 0 <= j <= |m.calls|
          invariant Iterations(msgs) == i - CountRevise(m.calls[..j]) + CountRevise(m.calls) + Iterations(msgs[..k - 1])
        {
          assert m.calls[..j + 1][..j] == m.calls[..j];
          if m.calls[j].name == ReviseFoodRecommendation {
            i := i + 1;
          }
          j := j + 1;
        }
        assert m.calls[..j] == m.calls;
      } else if m.Human? {
        break;
      }
      k := k - 1;
    }
    assert k == 0 ==> msgs[..k] == [];
  }

  /** A message other than a human one adds its own revision calls to the count. */
  lemma IterationsAppend(msgs: seq<Message>, m: Message)
    requires !m.Human?
    ensures Iterations(msgs + [m]) == Iterations(msgs) + CountRevise(CallsOf(m))
  {
    assert (msgs + [m])[..|msgs|] == msgs;
  }

  /** Appending messages without a human message never lowers the count. */
  lemma {:induction false} IterationsMonotone(msgs: seq<Message>, extra: seq<Message>)
    requires forall i :: 0 <= i < |extra| ==> !extra[i].Human?
    ensures Iterations(msgs + extra) >= Iterations(msgs)
  {
    if extra != [] {
      var front := extra[..|extra| - 1];
      IterationsMonotone(msgs, front);
      assert msgs + extra == (msgs + front) + [extra[|extra| - 1]];
      IterationsAppend(msgs + front, extra[|extra| - 1]);
    } else {
      assert msgs + extra == msgs;
    }
  }

  /** Tool results carry no tool calls, so they leave the count as it was. */
  lemma {:induction false} ToolResultsKeepCount(msgs: seq<Message>, extra: seq<Message>)
    requires forall i :: 0 <= i < |extra| ==> extra[i].Tool?
    ensures Iterations(msgs + extra) == Iterations(msgs)
  {
    if extra != [] {
      var front := extra[..|extra| - 1];
      ToolResultsKeepCount(msgs, front);
      assert msgs + extra == (msgs + front) + [extra[|extra| - 1]];
      IterationsAppend(msgs + front, extra[|extra| - 1]);
    } else {
      assert msgs + extra == msgs;
    }
  }

  /**
   * A human message resets the count: what came before it is never looked at, and right
   * after it the count is 0.
   */
  lemma {:induction false} HumanResetsCount(before: seq<Message>, h: Message, after: seq<Message>)
    requires h.Human?
    ensures Iterations(before + [h] + after) == Iterations([h] + after)
    ensures Iterations(before + [h]) == 0
  {
    if after == [] {
      assert (before + [h] + after)[..|before|] == before;
    } else {
      var front := after[..|after| - 1];
      HumanResetsCount(before, h, front);
      assert (before + [h] + after)[..|before + [h] + after| - 1] == before + [h] + front;
      assert ([h] + after)[..|[h] + after| - 1] == [h] + front;
    }
    assert (before + [h])[..|before|] == before;
  }

  // ---------------------------------------------------------------------------------
  // revisor_node (cap branch) and route_food_suggestion
  // ---------------------------------------------------------------------------------

  /** `MAX_ITERATIONS`. */
  const MaxIterations: nat := 2

  const ForcedReason: string := "Task was successfully completed, no escalation needed."
  const ForcedCallId: string := "fake_call_CompleteOrEscalate"

  /** The AI message the revisor sends once the cap is passed: a completed-task CompleteOrEscalate. */
  const ForcedFinish: Message :=
    AI(None, "", [ToolCall(ForcedCallId, CompleteOrEscalate,
                           Tools.EscalationArgs(Tools.CompleteOrEscalateRecord(false, ForcedReason)))])

  /**
   * `revisor_node`: past the cap it answers with the forced finish alone and the model is
   * not consulted; below it, the reply is the model's `revision`.
   */
  method RevisorNode(msgs: seq<Message>, revision: seq<Message>) returns (update: Update)
    ensures Iterations(msgs) > MaxIterations ==> update.messages == [ForcedFinish]
    ensures Iterations(msgs) <= MaxIterations ==> update.messages == revision
    ensures update.dialogState.None?
  {
    var n := NumIterations(msgs);
    if n > MaxIterations {
      return Update([ForcedFinish], None);
    }
    update := Update(revision, None);
  }

  /**
   * `route_food_suggestion`: END when the last message's first tool call is
   * CompleteOrEscalate, otherwise another round of tool execution.
   */
  function RouteFoodSuggestion(msgs: seq<Message>): (r: Node)
    requires |msgs| > 0
    ensures r == End <==> FirstCallIs(CallsOf(Last(msgs)), CompleteOrEscalate)
    ensures r != End ==> r == ExecuteTools
    ensures r in Successors(Revisor)
  {
    var calls := CallsOf(Last(msgs));
    if calls != [] && calls[0].name == CompleteOrEscalate then End else ExecuteTools
  }

  /**
   * The forced finish always ends the loop, and its arguments are a valid record that
   * reports completion (`cancel` false), not escalation.
   */
  lemma ForcedFinishEnds(msgs: seq<Message>)
    ensures RouteFoodSuggestion(msgs + [ForcedFinish]) == End
    ensures Tools.ParseEscalation(CallsOf(ForcedFinish)[0].args) == Some(Tools.CompleteOrEscalateRecord(false, ForcedReason))
  {
    Tools.EscalationRoundTrip(Tools.CompleteOrEscalateRecord(false, ForcedReason));
  }

  function Successors(n: Node): set<Node>
  {
    match n
    case Start => {Draft}
    case Draft => {ExecuteTools}
    case ExecuteTools => {Revisor}
    case Revisor => {End, ExecuteTools}
    case End => {}
  }

  // ---------------------------------------------------------------------------------
  // the execute_tools / revisor loop
  // ---------------------------------------------------------------------------------

  /** One round: the tool results `execute_tools` adds, then the model's revision. */
  datatype Round = Round(toolResults: seq<Message>, revision: Message)

  /** The transcript after one round of `execute_tools` and `revisor`. */
  function Step(msgs: seq<Message>, round: Round): (r: seq<Message>)
    ensures |r| > 0
  {
    var afterTools := msgs + round.toolResults;
    afterTools + [if Iterations(afterTools) > MaxIterations then ForcedFinish else round.revision]
  }

  /** The loop reaches END within the given rounds. */
  predicate EndsWithin(msgs: seq<Message>, rounds: seq<Round>)
    decreases |rounds|
  {
    |rounds| > 0 &&
    (RouteFoodSuggestion(Step(msgs, rounds[0])) == End || EndsWithin(Step(msgs, rounds[0]), rounds[1..]))
  }

  /** Tool results are not human messages and each revision asks for at least one revision. */
  predicate Revising(round: Round)
  {
    (forall i :: 0 <= i < |round.toolResults| ==> !round.toolResults[i].Human?) &&
    CountRevise(CallsOf(round.revision)) >= 1
  }

  /**
   * The loop is bounded: as long as the user does not speak, it ends after at most
   * MAX_ITERATIONS + 2 rounds, fewer when revisions were already counted.
   */
  lemma {:induction false} RevisionLoopEnds(msgs: seq<Message>, rounds: seq<Round>)
    requires forall k :: 0 <= k < |rounds| ==> Revising(rounds[k])
    requires |rounds| > 0 && Iterations(msgs) + |rounds| >= MaxIterations + 2
    ensures EndsWithin(msgs, rounds)
    decreases |rounds|
  {
    var round := rounds[0];
    assert Revising(round);
    var afterTools := msgs + round.toolResults;
    IterationsMonotone(msgs, round.toolResults);
    var next := Step(msgs, round);
    if Iterations(afterTools) > MaxIterations {
      ForcedFinishEnds(afterTools);
    } else if RouteFoodSuggestion(next) != End {
      assert round.revision.AI?;
      IterationsAppend(afterTools, round.revision);
      assert Iterations(next) >= Iterations(msgs) + 1;
      assert forall k :: 0 <= k < |rounds[1..]| ==> rounds[1..][k] == rounds[k + 1];
      RevisionLoopEnds(next, rounds[1..]);
    }
  }

  /**
   * A round whose tool results are tool messages and whose revision calls tools, none
   * of them `ReviseFoodRecommendation`, and does not start with CompleteOrEscalate.
   */
  predicate Searching(round: Round)
  {
    (forall i :: 0 <= i < |round.toolResults| ==> round.toolResults[i].Tool?) &&
    round.revision.AI? && round.revision.calls != [] &&
    CountRevise(round.revision.calls) == 0 &&
    !FirstCallIs(round.revision.calls, CompleteOrEscalate)
  }

  /**
   * The cap counts only revision requests: a revisor that keeps calling other tools
   * never reaches it, and the loop does not end within any number of such rounds.
   */
  lemma {:induction false} SearchRoundsNeverEnd(msgs: seq<Message>, rounds: seq<Round>)
    requires Iterations(msgs) <= MaxIterations
    requires forall k :: 0 <= k < |rounds| ==> Searching(rounds[k])
    ensures !EndsWithin(msgs, rounds)
    decreases |rounds|
  {
    if |rounds| > 0 {
      var round := rounds[0];
      assert Searching(round);
      var afterTools := msgs + round.toolResults;
      ToolResultsKeepCount(msgs, round.toolResults);
      var next := Step(msgs, round);
      assert next == afterTools + [round.revision];
      IterationsAppend(afterTools, round.revision);
      assert Last(next) == round.revision;
      assert forall k :: 0 <= k < |rounds[1..]| ==> rounds[1..][k] == rounds[k + 1];
      SearchRoundsNeverEnd(next, rounds[1..]);
    }
  }

  /** In particular, a revisor that only ever calls `available_food_search` never ends. */
  lemma SearchOnlyNeverEnds(msgs: seq<Message>, rounds: seq<Round>)
    requires Iterations(msgs) <= MaxIterations
    requires forall k :: 0 <= k < |rounds| ==>
               rounds[k] == Round([], AI(None, "", [ToolCall("c", "available_food_search", map[])]))
    ensures !EndsWithin(msgs, rounds)
  {
    SearchRoundsNeverEnd(msgs, rounds);
  }
}
