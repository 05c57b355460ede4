/**
 * Transcript compaction: once the transcript grows past 18 messages the graph detours
 * through `summarize_conversation`, which asks the model for a (new or extended) summary
 * and removes all but the three most recent messages.
 */
module Summarize {
  import opened Wrappers
  import opened Messages

  /** More messages than this trigger a summary. */
  const Threshold: nat := 18

  /** How many of the most recent messages survive the pruning. */
  const Kept: nat := 3

  const SummarizeLabel: string := "summarize_conversation"
  const PrimaryLabel: string := "primary_assistant"

  /** `should_summarize`: the label of the node to run after `fetch_user_info`. */
  function ShouldSummarize(msgs: seq<Message>): (r: string)
    ensures r == SummarizeLabel <==> |msgs| > Threshold
    ensures r == PrimaryLabel <==> |msgs| <= Threshold
  {
    if |msgs| > Threshold then SummarizeLabel else PrimaryLabel
  }

  const CreateRequest: string := "Create a summary of the conversation above:"
  const ExtendHead: string := "This is summary of the conversation to date: "
  const ExtendTail: string := "\n\nExtend the summary by taking into account the new messages above:"

  /** The existing summary is truthy: present and non-empty. */
  predicate HasSummary(summary: Option<string>)
  {
    summary.Some? && summary.value != ""
  }

  /**
   * The request appended to the transcript: a fresh-summary request when there is no
   * summary yet, otherwise a request to extend it that quotes the prior summary.
   */
  function SummaryRequest(summary: Option<string>): (r: string)
    ensures !HasSummary(summary) <==> r == CreateRequest
    ensures HasSummary(summary) ==>
              |r| == |ExtendHead| + |summary.value| + |ExtendTail| &&
              r[..|ExtendHead|] == ExtendHead &&
              r[|ExtendHead|..|ExtendHead| + |summary.value|] == summary.value &&
              r[|ExtendHead| + |summary.value|..] == ExtendTail
  {
    if HasSummary(summary) then
      var r := ExtendHead + summary.value + ExtendTail;
      assert r[..|ExtendHead|] == ExtendHead;
      assert r[|ExtendHead|..|ExtendHead| + |summary.value|] == summary.value;
      assert r[|ExtendHead| + |summary.value|..] == ExtendTail;
      r
    else CreateRequest
  }

  /** What the summarising model is given: the whole transcript plus the one request. */
  function ModelInput(state: AgentState): (r: seq<Message>)
    ensures |r| == |state.messages| + 1 && r[..|state.messages|] == state.messages
    ensures r[|state.messages|] == Human(None, SummaryRequest(state.summary))
  {
    state.messages + [Human(None, SummaryRequest(state.summary))]
  }

  /** `RemoveMessage(id=m.id) for m in messages[:-3]`: one removal per older message. */
  function Removals(msgs: seq<Message>): (r: seq<Message>)
    ensures |msgs| <= Kept ==> r == []
    ensures |msgs| > Kept ==> |r| == |msgs| - Kept
    ensures forall i :: 0 <= i < |r| ==> r[i] == Remove(msgs[i].id)
  {
    if |msgs| <= Kept then [] else seq(|msgs| - Kept, i requires 0 <= i < |msgs| - Kept => Remove(msgs[i].id))
  }

  /** The node's update: the new `summary` and the removals. */
  datatype SummaryUpdate = SummaryUpdate(summary: string, removals: seq<Message>)

  /**
   * `summarize_conversation`, with the model's reply content given by `reply` applied to
   * what the model is shown.
   */
  function SummarizeConversation(state: AgentState, reply: seq<Message> -> string): (r: SummaryUpdate)
    ensures r.summary == reply(ModelInput(state))
    ensures r.removals == Removals(state.messages)
  {
    SummaryUpdate(reply(ModelInput(state)), Removals(state.messages))
  }

  /** The ids named by a sequence of removals. */
  function RemovedIds(removals: seq<Message>): (r: set<Option<string>>)
    ensures forall i :: 0 <= i < |removals| && removals[i].Remove? ==> removals[i].id in r
  {
    set i | 0 <= i < |removals| && removals[i].Remove? :: removals[i].id
  }

  /** The removal rule of the messages reducer: drop every message whose id was removed. */
  function ApplyRemovals(msgs: seq<Message>, ids: set<Option<string>>): (r: seq<Message>)
    ensures |r| <= |msgs|
  {
    if msgs == [] then []
    else
      var front := ApplyRemovals(msgs[..|msgs| - 1], ids);
      if Last(msgs).id in ids then front else front + [Last(msgs)]
  }

  /** A message survives exactly when its id was not removed; nothing is added. */
  lemma {:induction false} ApplyRemovalsMembership(msgs: seq<Message>, ids: set<Option<string>>)
    ensures forall m :: m in ApplyRemovals(msgs, ids) <==> m in msgs && m.id !in ids
  {
    if msgs != [] {
      ApplyRemovalsMembership(msgs[..|msgs| - 1], ids);
      assert msgs == msgs[..|msgs| - 1] + [Last(msgs)];
    }
  }

  /** No two messages share an id (the reducer keeps ids unique). */
  predicate DistinctIds(msgs: seq<Message>)
  {
    forall i, j :: 0 <= i < j < |msgs| ==> msgs[i].id != msgs[j].id
  }

  /** How many messages survive the pruning of a transcript of length `n`. */
  function Survivors(n: nat): (r: nat)
    ensures r <= n && r <= Kept
    ensures r == n || r == Kept
  {
    if n <= Kept then n else Kept
  }

  /**
   * After the removals apply, exactly the last min(3, n) messages remain, in their
   * original order.
   */
  lemma PruningKeepsLastThree(msgs: seq<Message>)
    requires DistinctIds(msgs)
    ensures ApplyRemovals(msgs, RemovedIds(Removals(msgs))) == msgs[|msgs| - Survivors(|msgs|)..]
  {
    var cut := |msgs| - Survivors(|msgs|);
    var ids := RemovedIds(Removals(msgs));
    assert forall i :: 0 <= i < |msgs| ==> (msgs[i].id in ids <==> i < cut) by {
      forall i | 0 <= i < |msgs| ensures msgs[i].id in ids <==> i < cut {
        if i < cut {
          assert Removals(msgs)[i] == Remove(msgs[i].id);
        }
      }
    }
    KeepSuffix(msgs, ids, cut, |msgs|);
    assert msgs[..|msgs|] == msgs;
  }

  /** Filtering a prefix of length `n` keeps exactly its part from `cut` on. */
  lemma {:induction false} KeepSuffix(msgs: seq<Message>, ids: set<Option<string>>, cut: nat, n: nat)
    requires cut <= |msgs| && n <= |msgs|
    requires forall i :: 0 <= i < |msgs| ==> (msgs[i].id in ids <==> i < cut)
    ensures ApplyRemovals(msgs[..n], ids) == if n <= cut then [] else msgs[cut..n]
  {
    if n > 0 {
      KeepSuffix(msgs, ids, cut, n - 1);
      var front := ApplyRemovals(msgs[..n - 1], ids);
      assert msgs[..n][..n - 1] == msgs[..n - 1];
      assert Last(msgs[..n]) == msgs[n - 1];
      if n <= cut {
        assert msgs[n - 1].id in ids;
        assert ApplyRemovals(msgs[..n], ids) == front;
      } else {
        assert msgs[n - 1].id !in ids;
        assert ApplyRemovals(msgs[..n], ids) == front + [msgs[n - 1]];
        assert msgs[cut..n] == (if n - 1 <= cut then [] else msgs[cut..n - 1]) + [msgs[n - 1]];
      }
    }
  }

  /**
   * After a pruning, the transcript must grow by more than 15 messages before the next
   * summary is triggered.
   */
  lemma NoImmediateResummary(msgs: seq<Message>, later: seq<Message>)
    requires DistinctIds(msgs)
    requires |later| <= Threshold - Kept
    ensures ShouldSummarize(ApplyRemovals(msgs, RemovedIds(Removals(msgs))) + later) == PrimaryLabel
  {
    PruningKeepsLastThree(msgs);
  }

  /** A summary is triggered only when there is something to prune. */
  lemma SummaryPrunesSomething(state: AgentState, reply: seq<Message> -> string)
    requires ShouldSummarize(state.messages) == SummarizeLabel
    ensures |SummarizeConversation(state, reply).removals| == |state.messages| - Kept > 0
  {
  }
}
