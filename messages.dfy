/**
 * The chat transcript as the graphs see it: LangChain messages, the tool calls an
 * AI message carries, the shared graph state and the partial updates that nodes return.
 */
module Messages {
  import opened Wrappers

  /** A JSON-ish argument value of a tool call. */
  datatype Value = Str(s: string) | Bool(b: bool) | Int(i: int)

  /** One entry of `AIMessage.tool_calls`: `{"id", "name", "args"}`. */
  datatype ToolCall = ToolCall(id: string, name: string, args: map<string, Value>)

  /**
   * HumanMessage, AIMessage, ToolMessage and RemoveMessage. `id` is the message id;
   * `None` until the `add_messages` reducer assigns one.
   */
  datatype Message =
    | Human(id: Option<string>, text: string)
    | AI(id: Option<string>, text: string, calls: seq<ToolCall>)
    | Tool(id: Option<string>, content: string, toolCallId: string, name: Option<string>)
    | Remove(id: Option<string>)

  /** The tool calls a message carries; only AI messages have any. */
  function CallsOf(m: Message): seq<ToolCall>
  {
    if m.AI? then m.calls else []
  }

  function Last(msgs: seq<Message>): Message
    requires |msgs| > 0
  {
    msgs[|msgs| - 1]
  }

  /**
   * `state["messages"][-1].tool_calls` is defined: there is a last message and it is an
   * AIMessage (the other message classes have no `tool_calls` attribute).
   */
  predicate EndsWithAI(msgs: seq<Message>)
  {
    |msgs| > 0 && Last(msgs).AI?
  }

  function LastCalls(msgs: seq<Message>): seq<ToolCall>
    requires EndsWithAI(msgs)
  {
    Last(msgs).calls
  }

  /** `tool_calls` is non-empty and `tool_calls[0]["name"] == name`. */
  predicate FirstCallIs(calls: seq<ToolCall>, name: string)
  {
    |calls| > 0 && calls[0].name == name
  }

  /** Some tool result among `replies` carries `id` as its `tool_call_id`. */
  predicate Answered(replies: seq<Message>, id: string)
  {
    exists j :: 0 <= j < |replies| && replies[j].Tool? && replies[j].toolCallId == id
  }

  /** Every call in `calls` has a tool result in `replies`. */
  predicate AnswersAll(replies: seq<Message>, calls: seq<ToolCall>)
  {
    forall i :: 0 <= i < |calls| ==> Answered(replies, calls[i].id)
  }

  /** Names of the tools and hand-off records the routers compare against. */
  const CompleteOrEscalate: string := "CompleteOrEscalate"
  const ToDocRetrieval: string := "ToDocRetrieval"
  const ToOrderManagement: string := "ToOrderManagement"
  const ToFoodSearch: string := "ToFoodSearch"
  const ToSuggestionFood: string := "ToSuggestionFood"
  const ToFilter: string := "ToFilter"
  const ToGradeContent: string := "ToGradeContent"
  const ToGenerate: string := "ToGenerate"
  const ToWebSearch: string := "ToWebSearch"
  const ReviseFoodRecommendation: string := "ReviseFoodRecommendation"

  /** The two labels the library's `tools_condition` can return. */
  datatype ToolsRoute = RouteTools | RouteEnd

  /**
   * The graph state `State`: the transcript, `user_info`, `summary` and the dialog stack.
   */
  datatype AgentState = AgentState(
    messages: seq<Message>,
    userInfo: Option<string>,
    summary: Option<string>,
    dialogState: seq<string>)

  /** A node's partial update: new messages and, optionally, a `dialog_state` value. */
  datatype Update = Update(messages: seq<Message>, dialogState: Option<string>)
}
