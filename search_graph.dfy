/** The food-search workflow: the search assistant and its tool node. */
module SearchGraph {
  import opened Messages

  datatype Node = Start | End | FoodSearch | Tools

  function ConditionNode(route: ToolsRoute): (n: Node)
    ensures n == Tools <==> route == RouteTools
    ensures n == End <==> route == RouteEnd
  {
    match route
    case RouteTools => Tools
    case RouteEnd => End
  }

  /**
   * `route_food_search`: END on a first CompleteOrEscalate call, otherwise
   * `tools_condition` (also when there are no tool calls).
   */
  function RouteFoodSearch(msgs: seq<Message>, route: ToolsRoute): (r: Node)
    requires EndsWithAI(msgs)
    ensures FirstCallIs(LastCalls(msgs), CompleteOrEscalate) ==> r == End
    ensures !FirstCallIs(LastCalls(msgs), CompleteOrEscalate) ==> r == ConditionNode(route)
    ensures r in Successors(FoodSearch)
  {
    var calls := LastCalls(msgs);
    if calls != [] && calls[0].name == CompleteOrEscalate then End else ConditionNode(route)
  }

  function Successors(n: Node): set<Node>
  {
    match n
    case Start => {FoodSearch}
    case FoodSearch => {Tools, End}
    case Tools => {FoodSearch}
    case End => {}
  }

  /**
   * Only the first call is inspected: a CompleteOrEscalate behind another call does not end
   * the workflow when `tools_condition` sends the calls to the tool node.
   */
  lemma LaterEscalationIgnored(msgs: seq<Message>)
    requires EndsWithAI(msgs) && |LastCalls(msgs)| >= 2
    requires LastCalls(msgs)[0].name != CompleteOrEscalate && LastCalls(msgs)[1].name == CompleteOrEscalate
    ensures RouteFoodSearch(msgs, RouteTools) == Tools
  {
  }
}
