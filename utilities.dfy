/**
 * Helpers shared by the graphs: the fallback that turns a failed tool run into error
 * results, the dialog-stack reducer, the `Assistant` node with its re-prompt loop, and
 * the entry node that hands control to a specialised assistant.
 */
module Utilities {
  import opened Wrappers
  import opened Messages

  // ---------------------------------------------------------------------------------
  // handle_tool_error
  // ---------------------------------------------------------------------------------

  /** The content of each error result, for the exception rendered as `errorRepr`. */
  function ErrorContent(errorRepr: string): string
  {
    "Error: " + errorRepr + "\n please fix your mistakes."
  }

  /**
   * `handle_tool_error`: one tool result per tool call of the last message, in order,
   * each answering that call with the error text. Every call is thereby answered.
   */
  function HandleToolError(errorRepr: string, msgs: seq<Message>): (r: Update)
    requires EndsWithAI(msgs)
    ensures |r.messages| == |LastCalls(msgs)|
    ensures forall i :: 0 <= i < |r.messages| ==>
              r.messages[i].Tool? && r.messages[i].toolCallId == LastCalls(msgs)[i].id &&
              r.messages[i].content == ErrorContent(errorRepr)
    ensures AnswersAll(r.messages, LastCalls(msgs))
    ensures r.dialogState.None?
  {
    var calls := LastCalls(msgs);
    var replies := seq(|calls|, i requires 0 <= i < |calls| => Tool(None, ErrorContent(errorRepr), calls[i].id, None));
    assert forall i :: 0 <= i < |calls| ==> replies[i].Tool? && replies[i].toolCallId == calls[i].id;
    Update(replies, None)
  }

  // ---------------------------------------------------------------------------------
  // update_dialog_stack
  // ---------------------------------------------------------------------------------

  const PrimaryAssistant: string := "primary_assistant"
  const Pop: string := "pop"

  /**
   * The `dialog_state` reducer as written: it returns `["primary_assistant"]` before its
   * push and pop branches, so those are never reached.
   */
  function UpdateDialogStack(left: seq<string>, right: Option<string>): (r: seq<string>)
    ensures |r| == 1 && r[0] == PrimaryAssistant
  {
    [PrimaryAssistant]
  }

  /** The reducer ignores both the current stack and the update. */
  lemma DialogStackIgnoresInputs(left: seq<string>, right: Option<string>, left': seq<string>, right': Option<string>)
    ensures UpdateDialogStack(left, right) == UpdateDialogStack(left', right')
  {
  }

  /**
   * The unreachable branches would give other stacks: a push onto a non-empty stack and a
   * pop of the empty stack produce something else, and the stack is never empty.
   */
  lemma PushAndPopUnreachable(left: seq<string>, name: string)
    ensures |left| > 0 ==> UpdateDialogStack(left, Some(name)) != left + [name]
    ensures UpdateDialogStack([], Some(Pop)) != []
    ensures UpdateDialogStack(left, None) != left || left == [PrimaryAssistant]
  {
  }

  // ---------------------------------------------------------------------------------
  // Assistant.__call__
  // ---------------------------------------------------------------------------------

  /** The re-prompt appended after an answer with no tool calls. */
  const Nudge: Message := Human(None, "Answer with a real output!")

  function Nudges(k: nat): (r: seq<Message>)
    ensures |r| == k && forall i :: 0 <= i < k ==> r[i] == Nudge
  {
    seq(k, _ => Nudge)
  }

  /**
   * The state the runnable sees on the attempt after `k` re-prompts: `user_info` and
   * `summary` come from the configuration's `configurable` entries (None when absent),
   * `k` nudges follow the original messages, and the dialog stack is kept.
   */
  function Prompt(state: AgentState, configurable: map<string, string>, k: nat): (r: AgentState)
    ensures r.userInfo == Get(configurable, "user_info") && r.summary == Get(configurable, "summary")
    ensures r.messages == state.messages + Nudges(k) && r.dialogState == state.dialogState
  {
    AgentState(state.messages + Nudges(k), Get(configurable, "user_info"), Get(configurable, "summary"), state.dialogState)
  }

  /** At most this many re-prompts are sent before the assistant gives up. */
  const MaxReprompts: nat := 3

  /**
   * `Assistant.__call__`: invoke `runnable` on the configured state; an assistant with
   * `toolsBased` set re-prompts an answer without tool calls, at most three times.
   * `invocations` counts the calls of the runnable.
   */
  method Call(runnable: AgentState -> Message, toolsBased: bool, state: AgentState,
              configurable: map<string, string>) returns (update: Update, invocations: nat)
    ensures 1 <= invocations <= MaxReprompts + 1
    ensures update == Update([runnable(Prompt(state, configurable, invocations - 1))], None)
    ensures !toolsBased ==> invocations == 1
    ensures toolsBased ==> forall k :: 0 <= k < invocations - 1 ==>
              CallsOf(runnable(Prompt(state, configurable, k))) == []
    ensures toolsBased && invocations <= MaxReprompts ==>
              CallsOf(runnable(Prompt(state, configurable, invocations - 1))) != []
  {
    var loop: nat := 0;
    var current := state;
    var result: Message;
    invocations := 0;
    while true
      invariant loop <= MaxReprompts && invocations == loop
      invariant loop == 0 ==> current == state
      invariant loop > 0 ==> toolsBased && current == Prompt(state, configurable, loop)
      invariant forall k :: 0 <= k < loop ==> CallsOf(runnable(Prompt(state, configurable, k))) == []
      decreases MaxReprompts - loop
    {
      var userInfo := Get(configurable, "user_info");
      var summary := Get(configurable, "summary");
      current := current.(userInfo := userInfo, summary := summary);
      assert current == Prompt(state, configurable, loop);
      result := runnable(current);
      invocations := invocations + 1;
      if toolsBased && CallsOf(result) == [] {
        current := current.(messages := current.messages + [Nudge]);
        loop := loop + 1;
        assert current.messages == state.messages + Nudges(loop);
        if loop > MaxReprompts {
          break;
        }
      } else {
        break;
      }
    }
    update := Update([result], None);
  }

  // ---------------------------------------------------------------------------------
  // create_entry_node
  // ---------------------------------------------------------------------------------

  const EntryOpening: string := "You are now operating as "
  const EntryGuidance: string :=
    ". Focus on your defined role and responsibilities to assist the user effectively. "
    + "Reflect on the prior conversation between the host assistant and the user to determine the appropriate course of action. "
    + "The user's intent remains unresolved, and your job is to address it by utilizing the provided tools to perform the required tasks. "
    + "Remember, you are "
  const EntryClosing: string :=
    "Do not disclose your identity or role to the user; focus solely on fulfilling your responsibilities and ensuring the user's needs are met."

  /** The hand-off text the entry node of assistant `name` sends (no space before the last sentence). */
  function EntryText(name: string): string
  {
    EntryOpening + name + EntryGuidance + name + EntryClosing
  }

  /**
   * The node built by `create_entry_node(name, newDialogState)`: one tool result answering
   * the first tool call of the last message, named after the assistant, and the new
   * `dialog_state`.
   */
  function EntryNode(name: string, newDialogState: string, msgs: seq<Message>): (r: Update)
    requires EndsWithAI(msgs) && |LastCalls(msgs)| > 0
    ensures |r.messages| == 1 && r.messages[0].Tool?
    ensures r.messages[0].toolCallId == LastCalls(msgs)[0].id && r.messages[0].name == Some(name)
    ensures r.messages[0].content == EntryText(name)
    ensures r.dialogState == Some(newDialogState)
  {
    Update([Tool(None, EntryText(name), LastCalls(msgs)[0].id, Some(name))], Some(newDialogState))
  }

  /**
   * The single hand-off result answers every tool call of the last message exactly when
   * all of those calls share the first call's id; a second, distinct call stays unanswered.
   */
  lemma EntryAnswersAllIff(name: string, newDialogState: string, msgs: seq<Message>)
    requires EndsWithAI(msgs) && |LastCalls(msgs)| > 0
    ensures AnswersAll(EntryNode(name, newDialogState, msgs).messages, LastCalls(msgs)) <==>
            forall i :: 0 <= i < |LastCalls(msgs)| ==> LastCalls(msgs)[i].id == LastCalls(msgs)[0].id
  {
    var calls := LastCalls(msgs);
    var replies := EntryNode(name, newDialogState, msgs).messages;
    if AnswersAll(replies, calls) {
      forall i | 0 <= i < |calls| ensures calls[i].id == calls[0].id {
        assert Answered(replies, calls[i].id);
      }
    } else {
      var i :| 0 <= i < |calls| && !Answered(replies, calls[i].id);
      assert !Answered(replies, calls[i].id);
      assert replies[0].toolCallId == calls[0].id;
    }
  }
}
