/**
 * The order-management workflow. Safe tools run freely; the one tool that cancels an
 * order runs in its own node, before which the compiled graph always interrupts.
 */
module OrderGraph {
  import opened Messages

  datatype Node = Start | End | OrderManagement | Tools | SensitiveTools

  /** The safe tools (`order_management_safe_tools`), run by the "tools" node. */
  const SafeTools: set<string> := {"check_order_status", "comment_order"}

  /** The sensitive tools (`order_management_sensitive_tools`), run by "sensitive_tools". */
  const SensitiveToolNames: set<string> := {"cancel_order"}

  /** The graph is compiled to stop before these nodes run. */
  const InterruptBefore: set<Node> := {SensitiveTools}

  /** The tools each node can run. */
  function ToolsOf(n: Node): set<string>
  {
    match n
    case Tools => SafeTools
    case SensitiveTools => SensitiveToolNames
    case _ => {}
  }

  /** The first tool call is one of the sensitive tools. */
  predicate FirstCallSensitive(calls: seq<ToolCall>)
  {
    calls != [] && calls[0].name in SensitiveToolNames
  }

  /** `tools_condition`'s answer as a node of this graph. */
  function ConditionNode(route: ToolsRoute): (n: Node)
    ensures n == Tools <==> route == RouteTools
    ensures n == End <==> route == RouteEnd
  {
    match route
    case RouteTools => Tools
    case RouteEnd => End
  }

  /**
   * `route_order_management`: END on a first CompleteOrEscalate call, the sensitive node on
   * a first sensitive call, and `tools_condition` otherwise (also with no tool calls).
   */
  function RouteOrderManagement(msgs: seq<Message>, route: ToolsRoute): (r: Node)
    requires EndsWithAI(msgs)
    ensures r == SensitiveTools <==> FirstCallSensitive(LastCalls(msgs))
    ensures FirstCallIs(LastCalls(msgs), CompleteOrEscalate) ==> r == End
    ensures !FirstCallIs(LastCalls(msgs), CompleteOrEscalate) && !FirstCallSensitive(LastCalls(msgs)) ==>
              r == ConditionNode(route)
    ensures r in Successors(OrderManagement)
  {
    var calls := LastCalls(msgs);
    if calls != [] && calls[0].name == CompleteOrEscalate then End
    else if calls != [] && calls[0].name in SensitiveToolNames then SensitiveTools
    else ConditionNode(route)
  }

  /** The edges and the router's path map. */
  function Successors(n: Node): set<Node>
  {
    match n
    case Start => {OrderManagement}
    case OrderManagement => {Tools, SensitiveTools, End}
    case Tools => {OrderManagement}
    case SensitiveTools => {OrderManagement}
    case End => {}
  }

  /** A first `cancel_order` call always goes to the gated node, whatever `tools_condition` says. */
  lemma CancelIsGated(msgs: seq<Message>, route: ToolsRoute)
    requires EndsWithAI(msgs) && FirstCallIs(LastCalls(msgs), "cancel_order")
    ensures RouteOrderManagement(msgs, route) == SensitiveTools
  {
  }

  /**
   * Only the first call is inspected: a `cancel_order` behind a safe first call is routed
   * to the safe "tools" node, which is not interrupted.
   */
  lemma LaterCancelNotGated(msgs: seq<Message>)
    requires EndsWithAI(msgs) && |LastCalls(msgs)| >= 2
    requires LastCalls(msgs)[0].name in SafeTools && LastCalls(msgs)[1].name == "cancel_order"
    ensures RouteOrderManagement(msgs, RouteTools) == Tools && Tools !in InterruptBefore
  {
  }

  /** Every tool-running node returns to the assistant, and only the sensitive one is interrupted. */
  lemma ToolNodesReturn(n: Node)
    requires ToolsOf(n) != {}
    ensures Successors(n) == {OrderManagement}
    ensures n in InterruptBefore <==> ToolsOf(n) * SensitiveToolNames != {}
  {
  }

  /** `cancel_order` can only run at a node the graph interrupts before. */
  lemma CancelRunsOnlyAfterInterrupt(n: Node)
    ensures "cancel_order" in ToolsOf(n) <==> n == SensitiveTools
    ensures "cancel_order" in ToolsOf(n) ==> n in InterruptBefore
  {
  }
}
