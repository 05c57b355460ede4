/**
 * `filter_last_two_tool_messages`: pick at most two (AI message, tool result) pairs whose
 * call ids agree, visiting the tool results from the newest one back.
 */
module ToolPairs {
  import opened Wrappers
  import opened Messages

  /** How many pairs are collected at most. */
  const MaxPairs: nat := 2

  /** `m` is an AI message with a tool call whose id is `id`. */
  predicate Calls(m: Message, id: string)
  {
    m.AI? && exists j :: 0 <= j < |m.calls| && m.calls[j].id == id
  }

  /** A pair list: an AI message, then the tool result it called, repeated. */
  predicate Paired(r: seq<Message>)
    decreases |r|
  {
    r == [] || (|r| >= 2 && r[1].Tool? && Calls(r[0], r[1].toolCallId) && Paired(r[2..]))
  }

  /**
   * The pairs found for tool result `t` by visiting the AI messages among `msgs[..k]`
   * from the newest back, each matching one adding one pair, at most `budget` pairs.
   */
  function AiScan(msgs: seq<Message>, k: nat, t: Message, budget: nat): (r: seq<Message>)
    requires k <= |msgs| && t.Tool?
    ensures |r| % 2 == 0 && |r| <= 2 * budget
  {
    if k == 0 || budget == 0 then []
    else if Calls(msgs[k - 1], t.toolCallId) then [msgs[k - 1], t] + AiScan(msgs, k - 1, t, budget - 1)
    else AiScan(msgs, k - 1, t, budget)
  }

  /** Some AI message in `msgs` called tool result `t`. */
  predicate HasCaller(msgs: seq<Message>, t: Message)
    requires t.Tool?
  {
    exists i :: 0 <= i < |msgs| && Calls(msgs[i], t.toolCallId)
  }

  /**
   * The pairs found by visiting the tool results among `msgs[..k]` from the newest back,
   * with `budget` pairs still to find.
   */
  function OuterScan(msgs: seq<Message>, k: nat, budget: nat): (r: seq<Message>)
    requires k <= |msgs|
    ensures |r| % 2 == 0 && |r| <= 2 * budget
  {
    if k == 0 || budget == 0 then []
    else if msgs[k - 1].Tool? then
      var found := AiScan(msgs, |msgs|, msgs[k - 1], budget);
      found + OuterScan(msgs, k - 1, budget - |found| / 2)
    else OuterScan(msgs, k - 1, budget)
  }

  /** What `filter_last_two_tool_messages` returns. */
  function LastTwoPairs(msgs: seq<Message>): seq<Message>
  {
    OuterScan(msgs, |msgs|, MaxPairs)
  }

  /** The innermost loop of `filter_last_two_tool_messages`: does `m` call `id`? */
  method CallsId(m: Message, id: string) returns (hit: bool)
    requires m.AI?
    ensures hit <==> Calls(m, id)
  {
    var c := 0;
    while c < |m.calls|
      invariant 0 <= c <= |m.calls|
      invariant forall j :: 0 <= j < c ==> m.calls[j].id != id
    {
      if m.calls[c].id == id {
        return true;
      }
      c := c + 1;
    }
    return false;
  }

  /**
   * The middle loop of `filter_last_two_tool_messages`: the AI messages visited from the
   * newest back, each calling `toolMsg` adding one pair, until `budget` pairs are found.
   */
  method PairsFor(msgs: seq<Message>, toolMsg: Message, budget: nat) returns (found: seq<Message>)
    requires toolMsg.Tool? && budget > 0
    ensures found == AiScan(msgs, |msgs|, toolMsg, budget)
  {
    found := [];
    var left := budget;
    var a := |msgs|;
    while a > 0
      invariant 0 <= a <= |msgs| && 0 < left <= budget
      invariant found + AiScan(msgs, a, toolMsg, left) == AiScan(msgs, |msgs|, toolMsg, budget)
    {
      var aiMsg := msgs[a - 1];
      if aiMsg.AI? && aiMsg.calls != [] {
        var hit := CallsId(aiMsg, toolMsg.toolCallId);
        if hit {
          found := found + [aiMsg, toolMsg];
          left := left - 1;
        }
      }
      if left == 0 {
        assert found + AiScan(msgs, a - 1, toolMsg, left) == AiScan(msgs, |msgs|, toolMsg, budget);
        return;
      }
      a := a - 1;
    }
  }

  /** The nested loops of `filter_last_two_tool_messages`. */
  method FilterLastTwoToolMessages(msgs: seq<Message>) returns (pairs: seq<Message>)
    ensures pairs == LastTwoPairs(msgs)
  {
    pairs := [];
    var found: nat := 0;
    var k := |msgs|;
    while k > 0
      invariant 0 <= k <= |msgs| && found < MaxPairs && |pairs| == 2 * found
      invariant LastTwoPairs(msgs) == pairs + OuterScan(msgs, k, MaxPairs - found)
    {
      var toolMsg := msgs[k - 1];
      if toolMsg.Tool? {
        var more := PairsFor(msgs, toolMsg, MaxPairs - found);
        pairs := pairs + more;
        found := found + |more| / 2;
      }
      if found == MaxPairs {
        break;
      }
      k := k - 1;
    }
  }

  lemma {:induction false} PairedAppend(a: seq<Message>, b: seq<Message>)
    requires Paired(a) && Paired(b)
    ensures Paired(a + b)
    decreases |a|
  {
    if a != [] {
      PairedAppend(a[2..], b);
      assert (a + b)[2..] == a[2..] + b;
    } else {
      assert a + b == b;
    }
  }

  /** Every pair found for `t` is a caller of `t` followed by `t` itself. */
  lemma {:induction false} AiScanPaired(msgs: seq<Message>, k: nat, t: Message, budget: nat)
    requires k <= |msgs| && t.Tool?
    ensures Paired(AiScan(msgs, k, t, budget))
  {
    if k > 0 && budget > 0 {
      if Calls(msgs[k - 1], t.toolCallId) {
        AiScanPaired(msgs, k - 1, t, budget - 1);
        var r := [msgs[k - 1], t] + AiScan(msgs, k - 1, t, budget - 1);
        assert r[2..] == AiScan(msgs, k - 1, t, budget - 1);
      } else {
        AiScanPaired(msgs, k - 1, t, budget);
      }
    }
  }

  /** With budget left, the scan for `t` finds nothing exactly when no AI message in `msgs[..k]` called it. */
  lemma {:induction false} AiScanEmptyIff(msgs: seq<Message>, k: nat, t: Message, budget: nat)
    requires k <= |msgs| && t.Tool? && budget > 0
    ensures AiScan(msgs, k, t, budget) == [] <==> forall i :: 0 <= i < k ==> !Calls(msgs[i], t.toolCallId)
  {
    if k > 0 && !Calls(msgs[k - 1], t.toolCallId) {
      AiScanEmptyIff(msgs, k - 1, t, budget);
    }
  }

  lemma {:induction false} OuterScanPaired(msgs: seq<Message>, k: nat, budget: nat)
    requires k <= |msgs|
    ensures Paired(OuterScan(msgs, k, budget))
  {
    if k > 0 && budget > 0 {
      if msgs[k - 1].Tool? {
        var found := AiScan(msgs, |msgs|, msgs[k - 1], budget);
        AiScanPaired(msgs, |msgs|, msgs[k - 1], budget);
        OuterScanPaired(msgs, k - 1, budget - |found| / 2);
        PairedAppend(found, OuterScan(msgs, k - 1, budget - |found| / 2));
      } else {
        OuterScanPaired(msgs, k - 1, budget);
      }
    }
  }

  lemma {:induction false} OuterScanEmptyIff(msgs: seq<Message>, k: nat, budget: nat)
    requires k <= |msgs| && budget > 0
    ensures OuterScan(msgs, k, budget) == [] <==> forall i :: 0 <= i < k && msgs[i].Tool? ==> !HasCaller(msgs, msgs[i])
  {
    if k > 0 {
      if msgs[k - 1].Tool? {
        var found := AiScan(msgs, |msgs|, msgs[k - 1], budget);
        AiScanEmptyIff(msgs, |msgs|, msgs[k - 1], budget);
        if found == [] {
          OuterScanEmptyIff(msgs, k - 1, budget);
        }
      } else {
        OuterScanEmptyIff(msgs, k - 1, budget);
      }
    }
  }

  /**
   * The result is at most two pairs, and in each pair the AI message has a tool call whose
   * id is the tool result's `tool_call_id`.
   */
  lemma LastTwoPairsShape(msgs: seq<Message>)
    ensures var r := LastTwoPairs(msgs);
            |r| % 2 == 0 && |r| <= 2 * MaxPairs && Paired(r)
  {
    OuterScanPaired(msgs, |msgs|, MaxPairs);
  }

  /** The result is empty exactly when no tool result has a calling AI message. */
  lemma LastTwoPairsEmptyIff(msgs: seq<Message>)
    ensures LastTwoPairs(msgs) == [] <==>
            forall i :: 0 <= i < |msgs| && msgs[i].Tool? ==> !HasCaller(msgs, msgs[i])
  {
    OuterScanEmptyIff(msgs, |msgs|, MaxPairs);
  }

  /** A non-empty scan for `t` begins with a caller of `t` and `t` itself. */
  lemma {:induction false} AiScanStartsWith(msgs: seq<Message>, k: nat, t: Message, budget: nat)
    requires k <= |msgs| && t.Tool?
    ensures var r := AiScan(msgs, k, t, budget);
            r != [] ==> |r| >= 2 && r[1] == t && Calls(r[0], t.toolCallId)
  {
    if k > 0 && budget > 0 && !Calls(msgs[k - 1], t.toolCallId) {
      AiScanStartsWith(msgs, k - 1, t, budget);
    }
  }

  /** Tool results without a calling AI message are passed over by the outer scan. */
  lemma {:induction false} OuterScanSkips(msgs: seq<Message>, k: nat, n: nat, budget: nat)
    requires k <= n <= |msgs| && budget > 0
    requires forall j :: k <= j < n && msgs[j].Tool? ==> !HasCaller(msgs, msgs[j])
    ensures OuterScan(msgs, n, budget) == OuterScan(msgs, k, budget)
    decreases n
  {
    if n > k {
      OuterScanSkips(msgs, k, n - 1, budget);
      if msgs[n - 1].Tool? {
        AiScanEmptyIff(msgs, |msgs|, msgs[n - 1], budget);
      }
    }
  }

  /**
   * Tool results are visited newest first: the first pair holds the most recent tool
   * result that some AI message called, preceded by one of its callers.
   */
  lemma LastTwoPairsNewestFirst(msgs: seq<Message>, k: nat)
    requires k < |msgs| && msgs[k].Tool? && HasCaller(msgs, msgs[k])
    requires forall j :: k < j < |msgs| && msgs[j].Tool? ==> !HasCaller(msgs, msgs[j])
    ensures var r := LastTwoPairs(msgs);
            |r| >= 2 && r[1] == msgs[k] && Calls(r[0], msgs[k].toolCallId)
  {
    OuterScanSkips(msgs, k + 1, |msgs|, MaxPairs);
    AiScanEmptyIff(msgs, |msgs|, msgs[k], MaxPairs);
    AiScanStartsWith(msgs, |msgs|, msgs[k], MaxPairs);
  }

  /**
   * The sample transcript: a question, one AI message calling `tool_1234`, and two tool
   * results for that id. The newer result is paired first, each with the same AI message.
   */
  lemma SampleTranscript(question: Message, ai: Message, spicy: Message, chili: Message)
    requires question == Human(None, "What spicy dishes are available?")
    requires ai == AI(None, "Let me find some spicy dishes for you.", [ToolCall("tool_1234", "GetFoodOptions", map[])])
    requires spicy == Tool(None, "Spicy Ramen is available for $12.", "tool_1234", None)
    requires chili == Tool(None, "Chili Tacos are available for $10.", "tool_1234", None)
    ensures LastTwoPairs([question, ai, spicy, chili]) == [ai, chili, ai, spicy]
  {
    var msgs := [question, ai, spicy, chili];
    assert Calls(ai, "tool_1234") by {
      assert ai.calls[0].id == "tool_1234";
    }
    assert AiScan(msgs, 4, chili, 2) == [ai, chili] by {
      assert AiScan(msgs, 1, chili, 1) == [];
      assert AiScan(msgs, 2, chili, 2) == [ai, chili];
    }
    assert AiScan(msgs, 4, spicy, 1) == [ai, spicy] by {
      assert AiScan(msgs, 2, spicy, 1) == [ai, spicy];
    }
    assert OuterScan(msgs, 3, 1) == [ai, spicy] + OuterScan(msgs, 2, 0);
  }
}
