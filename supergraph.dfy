/**
 * The top-level graph: the primary assistant delegates to four specialised workflows
 * through entry nodes, the workflows hand control back through `leave_skill`, and a
 * long transcript first detours through the summariser.
 */
module Supergraph {
  import opened Wrappers
  import opened Messages
  import Utilities
  import Summarize

  /** The nodes of the compiled graph, plus the START and END markers. */
  datatype Node =
    | Start | End
    | FetchUserInfo | SummarizeConversation | PrimaryAssistant | PrimaryAssistantTools
    | EnterDocRetrieval | DocRetrieval
    | EnterOrderManagement | OrderManagement
    | EnterSearchFood | SearchFood
    | EnterSuggestionFood | SuggestFood
    | LeaveSkill

  /** The name each node is registered under. */
  function NameOf(n: Node): string
  {
    match n
    case Start => "__start__"
    case End => "__end__"
    case FetchUserInfo => "fetch_user_info"
    case SummarizeConversation => Summarize.SummarizeLabel
    case PrimaryAssistant => Utilities.PrimaryAssistant
    case PrimaryAssistantTools => "primary_assistant_tools"
    case EnterDocRetrieval => "enter_doc_retrieval"
    case DocRetrieval => "doc_retrieval"
    case EnterOrderManagement => "enter_order_management"
    case OrderManagement => "order_management"
    case EnterSearchFood => "enter_search_food"
    case SearchFood => "search_food"
    case EnterSuggestionFood => "enter_suggestion_food"
    case SuggestFood => "suggest_food"
    case LeaveSkill => "leave_skill"
  }

  // ---------------------------------------------------------------------------------
  // wiring
  // ---------------------------------------------------------------------------------

  /**
   * The edges added by `add_edge` and the path maps of `add_conditional_edges`. Nothing
   * leaves `doc_retrieval`: its edge to `leave_skill` is commented out.
   */
  function Successors(n: Node): set<Node>
  {
    match n
    case Start => {FetchUserInfo}
    case FetchUserInfo => {PrimaryAssistant, SummarizeConversation}
    case SummarizeConversation => {PrimaryAssistant}
    case PrimaryAssistant =>
      {EnterDocRetrieval, EnterOrderManagement, EnterSearchFood, PrimaryAssistantTools, EnterSuggestionFood, End}
    case PrimaryAssistantTools => {PrimaryAssistant}
    case EnterDocRetrieval => {DocRetrieval}
    case EnterOrderManagement => {OrderManagement}
    case EnterSearchFood => {SearchFood}
    case EnterSuggestionFood => {SuggestFood}
    case OrderManagement => {LeaveSkill, End}
    case SearchFood => {LeaveSkill, End}
    case SuggestFood => {LeaveSkill, End}
    case LeaveSkill => {PrimaryAssistant}
    case DocRetrieval => {}
    case End => {}
  }

  /** A walk along the graph's edges. */
  predicate IsPath(p: seq<Node>)
  {
    |p| > 0 && forall i :: 0 <= i < |p| - 1 ==> p[i + 1] in Successors(p[i])
  }

  /** A walk from START to each node: every node of the graph is reachable. */
  function PathTo(n: Node): (p: seq<Node>)
    ensures IsPath(p) && p[0] == Start && p[|p| - 1] == n
  {
    match n
    case Start => [Start]
    case FetchUserInfo => [Start, FetchUserInfo]
    case SummarizeConversation => [Start, FetchUserInfo, SummarizeConversation]
    case PrimaryAssistant => [Start, FetchUserInfo, PrimaryAssistant]
    case End => [Start, FetchUserInfo, PrimaryAssistant, End]
    case PrimaryAssistantTools => [Start, FetchUserInfo, PrimaryAssistant, PrimaryAssistantTools]
    case EnterDocRetrieval => [Start, FetchUserInfo, PrimaryAssistant, EnterDocRetrieval]
    case DocRetrieval => [Start, FetchUserInfo, PrimaryAssistant, EnterDocRetrieval, DocRetrieval]
    case EnterOrderManagement => [Start, FetchUserInfo, PrimaryAssistant, EnterOrderManagement]
    case OrderManagement => [Start, FetchUserInfo, PrimaryAssistant, EnterOrderManagement, OrderManagement]
    case EnterSearchFood => [Start, FetchUserInfo, PrimaryAssistant, EnterSearchFood]
    case SearchFood => [Start, FetchUserInfo, PrimaryAssistant, EnterSearchFood, SearchFood]
    case EnterSuggestionFood => [Start, FetchUserInfo, PrimaryAssistant, EnterSuggestionFood]
    case SuggestFood => [Start, FetchUserInfo, PrimaryAssistant, EnterSuggestionFood, SuggestFood]
    case LeaveSkill => [Start, FetchUserInfo, PrimaryAssistant, EnterOrderManagement, OrderManagement, LeaveSkill]
  }

  /** A walk to END from each node other than `doc_retrieval` and its entry node. */
  function PathToEnd(n: Node): (p: seq<Node>)
    requires n != DocRetrieval && n != EnterDocRetrieval
    ensures IsPath(p) && p[0] == n && p[|p| - 1] == End
  {
    match n
    case End => [End]
    case PrimaryAssistant => [PrimaryAssistant, End]
    case Start => [Start, FetchUserInfo, PrimaryAssistant, End]
    case FetchUserInfo => [FetchUserInfo, PrimaryAssistant, End]
    case SummarizeConversation => [SummarizeConversation, PrimaryAssistant, End]
    case PrimaryAssistantTools => [PrimaryAssistantTools, PrimaryAssistant, End]
    case LeaveSkill => [LeaveSkill, PrimaryAssistant, End]
    case EnterOrderManagement => [EnterOrderManagement, OrderManagement, End]
    case OrderManagement => [OrderManagement, End]
    case EnterSearchFood => [EnterSearchFood, SearchFood, End]
    case SearchFood => [SearchFood, End]
    case EnterSuggestionFood => [EnterSuggestionFood, SuggestFood, End]
    case SuggestFood => [SuggestFood, End]
  }

  /**
   * Once `doc_retrieval` runs, the run stops there: it can only be the last node of a
   * walk, so it never reaches `leave_skill`, END or the primary assistant again.
   */
  lemma DocRetrievalIsTerminal(p: seq<Node>, i: nat)
    requires IsPath(p) && i < |p| - 1
    ensures p[i] != DocRetrieval
  {
    assert p[i + 1] in Successors(p[i]);
  }

  /**
   * Control returns to the primary assistant only from the user-info fetch, the summariser,
   * the primary tool node and `leave_skill`; no workflow jumps back to it directly.
   */
  lemma PrimaryEnteredFrom(n: Node)
    ensures PrimaryAssistant in Successors(n) <==>
            n == FetchUserInfo || n == SummarizeConversation || n == PrimaryAssistantTools || n == LeaveSkill
  {
  }

  // ---------------------------------------------------------------------------------
  // routers
  // ---------------------------------------------------------------------------------

  /**
   * `route_primary_assistant`: END when the last message has no tool calls; otherwise the
   * first call's name picks a workflow entry, and any other name the primary tool node.
   */
  function RoutePrimaryAssistant(msgs: seq<Message>): (r: Node)
    requires EndsWithAI(msgs)
    ensures r == End <==> LastCalls(msgs) == []
    ensures r == EnterDocRetrieval <==> FirstCallIs(LastCalls(msgs), ToDocRetrieval)
    ensures r == EnterOrderManagement <==> FirstCallIs(LastCalls(msgs), ToOrderManagement)
    ensures r == EnterSearchFood <==> FirstCallIs(LastCalls(msgs), ToFoodSearch)
    ensures r == EnterSuggestionFood <==> FirstCallIs(LastCalls(msgs), ToSuggestionFood)
    ensures r == PrimaryAssistantTools <==>
              LastCalls(msgs) != [] && LastCalls(msgs)[0].name !in {ToDocRetrieval, ToOrderManagement, ToFoodSearch, ToSuggestionFood}
    ensures r in Successors(PrimaryAssistant)
  {
    var calls := LastCalls(msgs);
    if calls != [] then
      if calls[0].name == ToDocRetrieval then EnterDocRetrieval
      else if calls[0].name == ToOrderManagement then EnterOrderManagement
      else if calls[0].name == ToFoodSearch then EnterSearchFood
      else if calls[0].name == ToSuggestionFood then EnterSuggestionFood
      else PrimaryAssistantTools
    else End
  }

  /** Only the first tool call decides the primary assistant's route. */
  lemma PrimaryRouteUsesFirstCallOnly(msgs: seq<Message>, msgs': seq<Message>)
    requires EndsWithAI(msgs) && EndsWithAI(msgs')
    requires LastCalls(msgs) != [] && LastCalls(msgs') != []
    requires LastCalls(msgs)[0].name == LastCalls(msgs')[0].name
    ensures RoutePrimaryAssistant(msgs) == RoutePrimaryAssistant(msgs')
  {
  }

  /** A tool call named CompleteOrEscalate appears among `calls`, in any position. */
  predicate AnyEscalation(calls: seq<ToolCall>)
  {
    exists i :: 0 <= i < |calls| && calls[i].name == CompleteOrEscalate
  }

  /**
   * `route_management_assistant`, shared by the three returning workflows: `leave_skill`
   * when any tool call of the last message is CompleteOrEscalate, otherwise END. A last
   * message without tool calls (of any class) ends the run.
   */
  function RouteManagementAssistant(msgs: seq<Message>): (r: Node)
    requires |msgs| > 0
    ensures r == LeaveSkill <==> AnyEscalation(CallsOf(Last(msgs)))
    ensures r == End <==> !AnyEscalation(CallsOf(Last(msgs)))
    ensures r in Successors(OrderManagement) && r in Successors(SearchFood) && r in Successors(SuggestFood)
  {
    var calls := CallsOf(Last(msgs));
    if calls != [] && AnyEscalation(calls) then LeaveSkill else End
  }

  /** The branch of `should_summarize`, as a node. */
  function SummaryRoute(msgs: seq<Message>): (r: Node)
    ensures NameOf(r) == Summarize.ShouldSummarize(msgs)
    ensures r == SummarizeConversation <==> |msgs| > Summarize.Threshold
    ensures r in Successors(FetchUserInfo)
  {
    if Summarize.ShouldSummarize(msgs) == Summarize.SummarizeLabel then SummarizeConversation else PrimaryAssistant
  }

  /**
   * `route_to_workflow`: the top of the dialog stack, or the primary assistant when the
   * stack is absent or empty.
   */
  function RouteToWorkflow(dialogState: seq<string>): (r: string)
    ensures dialogState == [] ==> r == Utilities.PrimaryAssistant
    ensures dialogState != [] ==> r == dialogState[|dialogState| - 1]
  {
    if dialogState == [] then Utilities.PrimaryAssistant else dialogState[|dialogState| - 1]
  }

  // ---------------------------------------------------------------------------------
  // nodes
  // ---------------------------------------------------------------------------------

  /** The full-state update `user_info` returns. */
  datatype StateUpdate = StateUpdate(messages: seq<Message>, userInfo: Option<string>,
                                     summary: Option<string>, dialogState: Option<string>)

  /** `user_info`: every field of the state again, with `dialog_state` set to the primary assistant. */
  function UserInfo(state: AgentState): (r: StateUpdate)
    ensures r.messages == state.messages && r.userInfo == state.userInfo && r.summary == state.summary
    ensures r.dialogState == Some(NameOf(PrimaryAssistant))
  {
    StateUpdate(state.messages, state.userInfo, state.summary, Some(Utilities.PrimaryAssistant))
  }

  const ResumeText: string :=
    "Resuming dialog with the host assistant. Please reflect on the past conversation and assist the user as needed."

  /**
   * `leave_skill`: pops the dialog state and, when the last message has tool calls,
   * answers the first of them with one hand-back message named `leave_skill`.
   */
  function LeaveSkillNode(msgs: seq<Message>): (r: Update)
    requires EndsWithAI(msgs)
    ensures r.dialogState == Some(Utilities.Pop)
    ensures LastCalls(msgs) == [] ==> r.messages == []
    ensures LastCalls(msgs) != [] ==>
              |r.messages| == 1 && r.messages[0].Tool? &&
              r.messages[0].toolCallId == LastCalls(msgs)[0].id && r.messages[0].name == Some(NameOf(LeaveSkill))
  {
    var calls := LastCalls(msgs);
    var replies := if calls != [] then [Tool(None, ResumeText, calls[0].id, Some("leave_skill"))] else [];
    Update(replies, Some(Utilities.Pop))
  }

  /** The entry nodes, built with `create_entry_node`. */
  predicate IsEntry(n: Node)
  {
    n == EnterDocRetrieval || n == EnterOrderManagement || n == EnterSearchFood || n == EnterSuggestionFood
  }

  function AssistantName(n: Node): string
    requires IsEntry(n)
  {
    match n
    case EnterDocRetrieval => "Doc Retrieval Assistant"
    case EnterOrderManagement => "Order Management Assistant"
    case EnterSearchFood => "Search Food Assistant"
    case EnterSuggestionFood => "Food Suggestion Assistant"
  }

  /** The workflow each entry node hands over to. */
  function Workflow(n: Node): Node
    requires IsEntry(n)
  {
    match n
    case EnterDocRetrieval => DocRetrieval
    case EnterOrderManagement => OrderManagement
    case EnterSearchFood => SearchFood
    case EnterSuggestionFood => SuggestFood
  }

  /** Each entry node's only successor is the one it hands over to. */
  lemma EntryLeadsToWorkflow(n: Node)
    requires IsEntry(n)
    ensures Successors(n) == {Workflow(n)}
  {
  }

  /** The update an entry node returns: it names the workflow it hands over to. */
  function Enter(n: Node, msgs: seq<Message>): (r: Update)
    requires IsEntry(n) && EndsWithAI(msgs) && |LastCalls(msgs)| > 0
    ensures r.dialogState == Some(NameOf(Workflow(n)))
    ensures |r.messages| == 1 && r.messages[0].Tool? && r.messages[0].toolCallId == LastCalls(msgs)[0].id
    ensures r.messages[0].name == Some(AssistantName(n)) && r.messages[0].content == Utilities.EntryText(AssistantName(n))
  {
    Utilities.EntryNode(AssistantName(n), NameOf(Workflow(n)), msgs)
  }

  /**
   * With the dialog-state reducer as written, an entry node does not push its workflow:
   * after it the stack is `["primary_assistant"]` and `route_to_workflow` picks the
   * primary assistant, never the workflow.
   */
  lemma EntryKeepsStackAtPrimary(stack: seq<string>, n: Node, msgs: seq<Message>)
    requires IsEntry(n) && EndsWithAI(msgs) && |LastCalls(msgs)| > 0
    ensures RouteToWorkflow(Utilities.UpdateDialogStack(stack, Enter(n, msgs).dialogState)) == NameOf(PrimaryAssistant)
    ensures Utilities.UpdateDialogStack(stack, Enter(n, msgs).dialogState) != stack + [NameOf(Workflow(n))]
  {
    var w := NameOf(Workflow(n));
    assert w != NameOf(PrimaryAssistant) by {
      WorkflowIsNotPrimary(n);
    }
    assert (stack + [w])[|stack|] == w;
  }

  /** No entry node hands over to the primary assistant. */
  lemma WorkflowIsNotPrimary(n: Node)
    requires IsEntry(n)
    ensures NameOf(Workflow(n)) != NameOf(PrimaryAssistant)
  {
    assert |NameOf(Workflow(n))| != |NameOf(PrimaryAssistant)|;
  }

  /**
   * With the dialog-state reducer as written, `leave_skill` does not pop: after it the
   * stack is `["primary_assistant"]`, and `route_to_workflow` picks the primary assistant.
   * The result agrees with a pop only for a two-entry stack whose first entry is the
   * primary assistant.
   */
  lemma LeaveKeepsStackAtPrimary(stack: seq<string>, msgs: seq<Message>)
    requires EndsWithAI(msgs)
    ensures RouteToWorkflow(Utilities.UpdateDialogStack(stack, LeaveSkillNode(msgs).dialogState)) == NameOf(PrimaryAssistant)
    ensures |stack| > 0 ==>
              (Utilities.UpdateDialogStack(stack, LeaveSkillNode(msgs).dialogState) == stack[..|stack| - 1] <==>
               |stack| == 2 && stack[0] == NameOf(PrimaryAssistant))
  {
    if |stack| > 0 && |stack| == 2 && stack[0] == NameOf(PrimaryAssistant) {
      assert stack[..1] == [stack[0]];
    }
  }
}
