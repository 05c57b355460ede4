/**
 * The document-retrieval workflow: retrieval, filtering, grading, web search and answer
 * generation, with entry nodes handing the conversation from one agent to the next.
 */
module DocGraph {
  import opened Wrappers
  import opened Messages
  import Utilities

  datatype Node =
    | Start | End
    | DocRetrieval | DocRetrievalTools
    | EnterFilter | Filter
    | EnterContentGrader | ContentGrader
    | EnterWebSearch | WebSearch | WebSearchTools
    | EnterGenerate | Generate

  /** What a router can return: a node, or the label "tools", which names no node here. */
  datatype Label = At(node: Node) | ToolsLabel

  /** The label `tools_condition` returns. */
  function ConditionLabel(route: ToolsRoute): (l: Label)
    ensures l == ToolsLabel <==> route == RouteTools
    ensures l == At(End) <==> route == RouteEnd
  {
    match route
    case RouteTools => ToolsLabel
    case RouteEnd => At(End)
  }

  function NameOf(n: Node): string
  {
    match n
    case Start => "__start__"
    case End => "__end__"
    case DocRetrieval => "doc_retrieval"
    case DocRetrievalTools => "doc_retrieval_tools"
    case EnterFilter => "enter_filter"
    case Filter => "filter"
    case EnterContentGrader => "enter_content_grader"
    case ContentGrader => "content_grader"
    case EnterWebSearch => "enter_web_search"
    case WebSearch => "web_search"
    case WebSearchTools => "web_search_tools"
    case EnterGenerate => "enter_generate"
    case Generate => "generate"
  }

  // ---------------------------------------------------------------------------------
  // routers
  // ---------------------------------------------------------------------------------

  /** `route_filter`: the content grader on a first ToGradeContent call, otherwise `tools_condition`. */
  function RouteFilter(msgs: seq<Message>, route: ToolsRoute): (r: Label)
    requires EndsWithAI(msgs)
    ensures r == At(ContentGrader) <==> FirstCallIs(LastCalls(msgs), ToGradeContent)
    ensures !FirstCallIs(LastCalls(msgs), ToGradeContent) ==> r == ConditionLabel(route)
  {
    var calls := LastCalls(msgs);
    if calls != [] && calls[0].name == ToGradeContent then At(ContentGrader) else ConditionLabel(route)
  }

  /** `route_web_search`: the filter on a first ToFilter call, otherwise the search tools. */
  function RouteWebSearch(msgs: seq<Message>): (r: Node)
    requires EndsWithAI(msgs)
    ensures r == EnterFilter <==> FirstCallIs(LastCalls(msgs), ToFilter)
    ensures r == WebSearchTools <==> !FirstCallIs(LastCalls(msgs), ToFilter)
  {
    var calls := LastCalls(msgs);
    if calls != [] && calls[0].name == ToFilter then EnterFilter else WebSearchTools
  }

  /**
   * `route_content_grader`: generation on a first ToGenerate call, web search on a first
   * ToWebSearch call, otherwise whatever `tools_condition` says.
   */
  function RouteContentGrader(msgs: seq<Message>, route: ToolsRoute): (r: Label)
    requires EndsWithAI(msgs)
    ensures r == At(EnterGenerate) <==> FirstCallIs(LastCalls(msgs), ToGenerate)
    ensures r == At(EnterWebSearch) <==> FirstCallIs(LastCalls(msgs), ToWebSearch)
    ensures !FirstCallIs(LastCalls(msgs), ToGenerate) && !FirstCallIs(LastCalls(msgs), ToWebSearch) ==>
              r == ConditionLabel(route)
  {
    var calls := LastCalls(msgs);
    if calls != [] && calls[0].name == ToGenerate then At(EnterGenerate)
    else if calls != [] && calls[0].name == ToWebSearch then At(EnterWebSearch)
    else ConditionLabel(route)
  }

  /**
   * `route_doc_retrieval`: the filter on a first ToFilter call, otherwise the retrieval
   * tools, also when there are no tool calls at all.
   */
  function RouteDocRetrieval(msgs: seq<Message>): (r: Node)
    requires EndsWithAI(msgs)
    ensures r == EnterFilter <==> FirstCallIs(LastCalls(msgs), ToFilter)
    ensures r == DocRetrievalTools <==> !FirstCallIs(LastCalls(msgs), ToFilter)
  {
    var calls := LastCalls(msgs);
    if calls != [] && calls[0].name == ToFilter then EnterFilter else DocRetrievalTools
  }

  // ---------------------------------------------------------------------------------
  // wiring
  // ---------------------------------------------------------------------------------

  /** The edges and conditional-edge path maps. `filter` has a plain edge, no router. */
  function Successors(n: Node): set<Node>
  {
    match n
    case Start => {DocRetrieval}
    case DocRetrieval => {EnterFilter, DocRetrievalTools}
    case DocRetrievalTools => {DocRetrieval}
    case EnterFilter => {Filter}
    case Filter => {EnterContentGrader}
    case EnterContentGrader => {ContentGrader}
    case ContentGrader => {EnterGenerate, EnterWebSearch}
    case EnterWebSearch => {WebSearch}
    case WebSearch => {EnterFilter, WebSearchTools}
    case WebSearchTools => {WebSearch}
    case EnterGenerate => {Generate}
    case Generate => {End}
    case End => {}
  }

  /** The two routers wired to this graph always pick one of their node's successors. */
  lemma WiredRoutersFollowEdges(msgs: seq<Message>)
    requires EndsWithAI(msgs)
    ensures RouteDocRetrieval(msgs) in Successors(DocRetrieval)
    ensures RouteWebSearch(msgs) in Successors(WebSearch)
  {
  }

  /**
   * The content grader's route is one of its successors exactly when its first call is ToGenerate
   * or ToWebSearch; the "tools" and END labels of `tools_condition` are not in its path map.
   */
  lemma ContentGraderRouteWired(msgs: seq<Message>, route: ToolsRoute)
    requires EndsWithAI(msgs)
    ensures (RouteContentGrader(msgs, route).At? && RouteContentGrader(msgs, route).node in Successors(ContentGrader)) <==>
            FirstCallIs(LastCalls(msgs), ToGenerate) || FirstCallIs(LastCalls(msgs), ToWebSearch)
  {
  }

  /** `route_filter` is not wired: no label it returns is a successor of `filter`. */
  lemma FilterRouterUnused(msgs: seq<Message>, route: ToolsRoute)
    requires EndsWithAI(msgs)
    ensures var l := RouteFilter(msgs, route); !(l.At? && l.node in Successors(Filter))
  {
  }

  predicate IsPath(p: seq<Node>)
  {
    |p| > 0 && forall i :: 0 <= i < |p| - 1 ==> p[i + 1] in Successors(p[i])
  }

  /** The run that ends: retrieve, filter, grade, generate. */
  function AnsweringRun(): (p: seq<Node>)
    ensures IsPath(p) && p[0] == Start && p[|p| - 1] == End
  {
    [Start, DocRetrieval, EnterFilter, Filter, EnterContentGrader, ContentGrader, EnterGenerate, Generate, End]
  }

  /** `generate` is the only way out: every walk into END comes straight from it. */
  lemma EndOnlyAfterGenerate(p: seq<Node>, i: nat)
    requires IsPath(p) && 0 < i < |p| && p[i] == End
    ensures p[i - 1] == Generate
  {
    assert p[i - 1 + 1] in Successors(p[i - 1]);
  }

  /** Every walk from the filter passes through the content grader's entry node next. */
  lemma FilterAlwaysGraded(p: seq<Node>, i: nat)
    requires IsPath(p) && i + 1 < |p| && p[i] == Filter
    ensures p[i + 1] == EnterContentGrader
  {
    assert p[i + 1] in Successors(p[i]);
  }

  // ---------------------------------------------------------------------------------
  // entry nodes (the graph's own create_entry_node)
  // ---------------------------------------------------------------------------------

  predicate IsEntry(n: Node)
  {
    n == EnterFilter || n == EnterContentGrader || n == EnterWebSearch || n == EnterGenerate
  }

  function AssistantName(n: Node): string
    requires IsEntry(n)
  {
    match n
    case EnterFilter => "Content Filter"
    case EnterContentGrader => "Content Grader"
    case EnterWebSearch => "Web Search Assistant"
    case EnterGenerate => "Answer Generate Assistant"
  }

  /** The agent each entry node hands over to, its only successor. */
  function Workflow(n: Node): Node
    requires IsEntry(n)
  {
    match n
    case EnterFilter => Filter
    case EnterContentGrader => ContentGrader
    case EnterWebSearch => WebSearch
    case EnterGenerate => Generate
  }

  /** Each entry node's only successor is the one it hands over to. */
  lemma EntryLeadsToWorkflow(n: Node)
    requires IsEntry(n)
    ensures Successors(n) == {Workflow(n)}
  {
  }

  /**
   * The update of an entry node: one tool result answering the first tool call, named
   * after the assistant, and a `dialog_state` naming the node it hands over to. The graph's
   * local `create_entry_node` builds the same message as the shared one.
   */
  function Enter(n: Node, msgs: seq<Message>): (r: Update)
    requires IsEntry(n) && EndsWithAI(msgs) && |LastCalls(msgs)| > 0
    ensures r.dialogState == Some(NameOf(Workflow(n)))
    ensures |r.messages| == 1 && r.messages[0].Tool? && r.messages[0].toolCallId == LastCalls(msgs)[0].id
    ensures r.messages[0].name == Some(AssistantName(n)) && r.messages[0].content == Utilities.EntryText(AssistantName(n))
  {
    Utilities.EntryNode(AssistantName(n), NameOf(Workflow(n)), msgs)
  }
}
