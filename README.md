# food-chatbot, verified core

food-chatbot is a restaurant assistant built on LangGraph. A primary assistant talks
with the user. It hands the conversation to one of four specialised workflows:
- document retrieval;
- order management;
- food search;
- food suggestion.

Each workflow later hands control back. A long transcript is first summarised and pruned.
Every language-model reply enters this model as a given value: a message carrying a list
of tool calls. What remains is deterministic:

- **Tools** (`tools.dfy`, with `levenshtein.dfy` and `strings.dfy`).
  - `available_food_search` is a fuzzy catalogue search. It scores each row by the
    smallest of three weighted edit distances, keeps rows within distance 1 and sorts
    them stably by distance.
  - `retrieve_from_doc` wraps the document search.
  - `cancel_order`, `comment_order` and `check_order_status` work on the order table, an
    `OrderStore` object whose `orders` map the methods update in place.
  - The `CompleteOrEscalate` record.
- **Utilities** (`utilities.dfy`).
  - `handle_tool_error`, the fallback of every tool node.
  - The dialog-stack reducer, modelled as written: it always returns
    `["primary_assistant"]`.
  - The `Assistant` node's re-prompt loop, as a method with a loop.
  - The shared entry node, which hands a conversation to a specialised assistant.
- **Graphs.**
  - One module per compiled graph: `supergraph.dfy`, `doc_graph.dfy` (part 1),
    `order_graph.dfy` (part 2), `search_graph.dfy` (part 3) and `suggest_graph.dfy`
    (part 5).
  - Each router is a function from the transcript to the next node.
  - Each graph's `add_edge` and `add_conditional_edges` calls become a constant
    successor relation.
  - The library's `tools_condition` is a parameter of type `ToolsRoute`.
  - The revise loop of part 5 counts `ReviseFoodRecommendation` calls since the user last
    spoke. While the user stays silent and each revision asks for another revision, the
    loop is proved to end (`SuggestGraph.RevisionLoopEnds`). A revisor that only calls
    other tools never reaches the cap, and the loop is proved not to end
    (`SuggestGraph.SearchRoundsNeverEnd`).
- **Transcript compaction** (`summarize.dfy`): above 18 messages the summariser runs and
  all but the last three messages are removed.
- **Helpers** (`tool_pairs.dfy`, `parse.dfy`).
  - `filter_last_two_tool_messages`: three nested loops with early exits, proved equal to
    a recursive specification.
  - `prepare_data`, which numbers document chunks from 1.

`messages.dfy` holds the message datatype (human, AI with tool calls, tool result,
removal), the graph state and the partial updates nodes return. `wrappers.dfy` holds
`Option` and `dict.get`.

Some behaviours of the code as written are kept and proved as such:
- The dialog-stack reducer ignores its inputs, so entry nodes never push and `leave_skill`
  never pops (`Supergraph.EntryKeepsStackAtPrimary`, `Supergraph.LeaveKeepsStackAtPrimary`).
- `doc_retrieval` has no outgoing edge in the supergraph, so a run that enters it stops
  there (`Supergraph.DocRetrievalIsTerminal`).
- `route_filter` is defined but not wired (`DocGraph.FilterRouterUnused`).
- The `content_grader` node's `tools_condition` fallback names labels that are not in its path map
  (`DocGraph.ContentGraderRouteWired`).
- The order and search routers inspect only the first tool call
  (`OrderGraph.LaterCancelNotGated`, `SearchGraph.LaterEscalationIgnored`).
- The texts are the source's own:
  - `check_order_status` reports "Order ID n from is currently in '…' status.";
  - the entry text has no space before "Do not disclose".

## Model

| member | source | states |
|---|---|---|
| Strings.Lower | tools.py:66-68 | `str.lower()`: the same length, each ASCII letter lowered, other characters unchanged |
| Levenshtein.Distance | tools.py:66-68 | `Levenshtein.distance` with weights: never more than deleting all of the query and inserting all of the value; for equal lengths never more than substituting every position |
| Levenshtein.Min3 | tools.py:69 | the result is one of the three values and no larger than any of them |
| Levenshtein.DistanceToSelf | tools.py:66-68 | a string is at distance 0 from itself under any weights |
| Levenshtein.ExtensionIsFree | tools.py:66 | with free insertion (weights 0,1,1) a query is at distance 0 from any extension of it |
| Levenshtein.ContainedIsFree | tools.py:66 | with free insertion a query is at distance 0 from every string that contains it |
| Levenshtein.TruncationIsFree | tools.py:67 | with free deletion (weights 1,0,1) any extension of a value is at distance 0 from it |
| Levenshtein.ContainingIsFree | tools.py:67 | with free deletion a query that contains the value is at distance 0 from it |
| Levenshtein.OneSubstitution | tools.py:68 | changing one character costs at most one substitution |
| Levenshtein.MissingFromTargetBound | tools.py:66-68 | when deletion and substitution cost at least 1, each query character absent from the value costs at least 1 |
| Levenshtein.MissingFromSourceBound | tools.py:66-68 | when insertion and substitution cost at least 1, each value character absent from the query costs at least 1 |
| Tools.FieldDistance | tools.py:65-77 | a field's distance is the smallest of the three weighted distances between the lower-cased strings |
| Tools.RowDistance | tools.py:79-108 | the distance a row is kept with, or none when the match rule rejects it; pinned down by `Tools.RowDistanceRule` |
| Tools.RowDistanceRule | tools.py:79-108 | a row is kept iff some query is given and every given query is within `max_distance` of its field; it is kept with the smaller of the given field distances, which is one of them |
| Tools.KeptEntry | tools.py:79-108 | what one row appends to `matches`: its entry with its distance, or nothing; see `Tools.KeptEntryMembership` |
| Tools.KeptEntryMembership | tools.py:79-108 | an entry is appended for a row iff the row is accepted and the entry copies it with that distance |
| Tools.MatchRow | tools.py:62-108 | one iteration of the scan, both distances computed as in the source, appends exactly what `Tools.KeptEntry` specifies |
| Tools.Matches | tools.py:60-108 | `matches` after the scan: the accepted rows' entries in catalogue order; its properties are `Tools.MatchesMembership`, `Tools.MatchesWithinMax`, `Tools.MatchesLength` and `Tools.MatchesDistinct` |
| Tools.InsertByDistance | tools.py:110 | one step of the stable sort; see `Tools.InsertPermutation` and `Tools.InsertKeepsSorted` |
| Tools.InsertPermutation | tools.py:110 | an insertion adds the entry and loses nothing (multiset) |
| Tools.InsertKeepsSorted | tools.py:110 | inserting into a list sorted by distance keeps it sorted |
| Tools.SortByDistance | tools.py:110 | `matches.sort(key=lambda x: x['edit_distance'])` as a stable insertion sort; see `Tools.SortByDistanceSorted` |
| Tools.SortByDistanceSorted | tools.py:110 | for any distances, the sort returns a permutation of its input that is non-decreasing in distance |
| Tools.SortSwapsPair | tools.py:110 | a farther entry ahead of a nearer one trades places with it |
| Tools.Search | tools.py:60-112 | what `available_food_search` returns, the scan then the sort; see `Tools.SearchOrdered` and `Tools.SearchMembership` |
| Tools.AvailableFoodSearch | tools.py:53-112 | the scan-and-sort loop returns the specification's result: the distance-0 entries, then the distance-1 entries, each group in catalogue order; sorted by distance; a permutation of the kept rows |
| Tools.MatchesWithinMax | tools.py:79-108 | every kept entry has distance at most `max_distance` = 1 |
| Tools.MatchesMembership | tools.py:61-108 | an entry is kept iff it copies a catalogue row that the match rule accepts, with that row's distance |
| Tools.MatchesLength | tools.py:61-108 | at most one entry per catalogue row |
| Tools.NoQueryNoResult | tools.py:65-108 | with neither query given (None or empty) the result is empty |
| Tools.MatchesDistinct | tools.py:61-108 | with distinct catalogue ids, the kept entries have distinct ids |
| Tools.MatchIdFromRow | tools.py:81-82 | every kept entry carries the id of some catalogue row |
| Tools.SortTwoBuckets | tools.py:110 | the stable sort of distances 0 and 1 puts the distance-0 entries first, each group in its original order |
| Tools.SearchOrdered | tools.py:79-110 | the result is non-decreasing in distance, ties in catalogue order, and a permutation of the kept entries |
| Tools.SearchMembership | tools.py:61-110 | an entry is returned iff it copies an accepted catalogue row with that row's distance: nothing fabricated, nothing lost |
| Tools.BucketsDistinct | tools.py:79-110 | splitting entries with distinct ids into the distance-0 and distance-1 groups keeps the ids distinct |
| Tools.SearchDistinct | tools.py:61-110 | with distinct catalogue ids the result has no duplicate ids and is no longer than the catalogue |
| Tools.ExactFoodNameFound | tools.py:68-90 | a food-name-only search always returns, at distance 0, a row whose name equals the query up to case |
| Tools.ContainedFoodNameFound | tools.py:66-90 | a food-name-only search returns, at distance 0, every row whose lower-cased name contains the lower-cased query |
| Tools.TypoDistance | tools.py:65-69 | a name one substitution away from the query, with the changed characters absent from the other string, is at distance exactly 1 |
| Tools.FarFieldDistance | tools.py:65-69 | more than `max_distance` characters missing in each direction put a name beyond `max_distance` |
| Tools.FarNameNotFound | tools.py:65-98 | a name with more than one character missing in each direction is never returned by a food-name search |
| Tools.ExactRanksBeforeTypo | tools.py:89-110 | a catalogue listing a one-typo name before the exact name yields the exact row first (distance 0), then the typo row (distance 1) |
| Tools.RetrieveFromDoc | tools.py:32-35 | the hits' texts in order, or exactly `["NO RESULT!"]` when there are none; never empty |
| Tools.CancelText | tools.py:128-140 | the three replies of `cancel_order`: does not exist, successfully canceled, cannot be canceled in its status |
| Tools.CommentText | tools.py:157-163 | the two replies of `comment_order`: does not exist, comment updated |
| Tools.StatusText | tools.py:193-196 | the two replies of `check_order_status`: does not exist, or its status |
| Tools.Cancel | tools.py:125-140 | no row with that id and phone: unchanged table, reported as no such order; status "preparation": that order becomes "canceled"; any other status: unchanged table, with that status reported; other orders never change |
| Tools.Comment | tools.py:154-163 | an existing order's comment is replaced, not appended to; an unknown id leaves the table unchanged; other orders never change |
| Tools.StatusOf | tools.py:190-196 | the order's status exactly when the table has the order |
| Tools.CancelIdempotent | tools.py:125-140 | a second identical cancellation changes nothing |
| Tools.CanceledStaysCanceled | tools.py:133-140 | after a cancellation the order reports "canceled" and cannot be canceled again |
| Tools.CommentLastWriteWins | tools.py:160 | of two comments on one order, the last one is kept |
| Tools.CommentKeepsStatus | tools.py:160 | commenting never changes any order's status |
| Tools.OrderStore.CancelOrder | tools.py:122-140 | the table becomes the cancellation's new table and the reply is that branch's message |
| Tools.OrderStore.CommentOrder | tools.py:151-163 | the table becomes the comment's new table and the reply is that branch's message |
| Tools.OrderStore.CheckOrderStatus | tools.py:187-196 | a read: the status message for the order, or "does not exist", with the table untouched |
| Tools.EscalationArgs | tools.py:202-225 | a record's call arguments hold exactly `cancel` and `reason`, typed bool and string |
| Tools.ParseEscalation | tools.py:202-225 | arguments validate iff both fields are present with their types, and the record carries their values |
| Tools.EscalationRoundTrip | tools.py:224-225 | writing a record as arguments and validating them gives the record back |
| Wrappers.Get | utilities.py:113-115 | `dict.get`: the value iff the key is present, None otherwise |
| Utilities.HandleToolError | utilities.py:14-25 | one tool result per tool call of the last message, in order, each with that call's id and the "Error: … please fix your mistakes." text; every call is answered |
| Utilities.UpdateDialogStack | utilities.py:79-87 | as written, the stack is always `["primary_assistant"]`, so it is never empty |
| Utilities.DialogStackIgnoresInputs | utilities.py:79-87 | the reducer's result depends on neither the stack nor the update |
| Utilities.PushAndPopUnreachable | utilities.py:82-87 | a push onto a non-empty stack and a pop of the empty stack do not give what the unreachable branches would |
| Utilities.Prompt | utilities.py:113-131 | on each attempt, `user_info` and `summary` come from `configurable` (None when absent), the nudges follow the messages, and the dialog stack is kept |
| Utilities.Call | utilities.py:110-137 | between 1 and 4 invocations; not tools-based: exactly one. Tools-based: every earlier attempt had no tool calls, and fewer than 4 attempts means the last had some. The update holds only the last result, obtained after one "Answer with a real output!" nudge per earlier attempt |
| Utilities.EntryNode | utilities.py:139-159 | one tool result answering the first tool call of the last message, named after the assistant and carrying the hand-off text; `dialog_state` set to the new state |
| Utilities.EntryAnswersAllIff | utilities.py:139-152 | the single hand-off result answers every tool call iff all calls share the first call's id |
| Summarize.ShouldSummarize | agents/summarize_conversation_agent.py:88-100 | "summarize_conversation" iff more than 18 messages, otherwise "primary_assistant" |
| Summarize.SummaryRequest | agents/summarize_conversation_agent.py:65-77 | the create request iff no (or an empty) summary; otherwise the extend request: its opening text, the prior summary, then the closing instruction to extend it |
| Summarize.ModelInput | agents/summarize_conversation_agent.py:80 | the model sees all current messages plus exactly one appended human message holding the request |
| Summarize.Removals | agents/summarize_conversation_agent.py:84 | one removal per message of `messages[:-3]`: none for at most 3 messages, n − 3 otherwise |
| Summarize.SummarizeConversation | agents/summarize_conversation_agent.py:62-85 | the summary becomes the reply to the model input, and the removals are those of `messages[:-3]` |
| Summarize.ApplyRemovals | utilities.py:91 | the removal rule of the `add_messages` reducer: messages whose id was removed are dropped, the others kept in order; see `Summarize.ApplyRemovalsMembership` |
| Summarize.ApplyRemovalsMembership | utilities.py:91 | a message survives iff its id was not removed; nothing is added |
| Summarize.PruningKeepsLastThree | agents/summarize_conversation_agent.py:84 | after the removals apply, exactly the last min(3, n) messages remain, in order |
| Summarize.NoImmediateResummary | agents/summarize_conversation_agent.py:84-100 | after pruning, up to 15 new messages do not trigger another summary |
| Summarize.SummaryPrunesSomething | agents/summarize_conversation_agent.py:84-97 | whenever a summary is triggered, at least one message is removed |
| Supergraph.Successors | graphs/supergraph.py:288-362 | the `add_edge`/`add_conditional_edges` wiring, each node's successor set; see `Supergraph.PathTo` and `Supergraph.PathToEnd` |
| Supergraph.PathTo | graphs/supergraph.py:288-362 | every node is reachable from START along the wired edges |
| Supergraph.PathToEnd | graphs/supergraph.py:288-362 | every node except `doc_retrieval` and its entry node can reach END |
| Supergraph.DocRetrievalIsTerminal | graphs/supergraph.py:299-333 | `doc_retrieval` has no outgoing edge: it can only be the last node of a walk |
| Supergraph.PrimaryEnteredFrom | graphs/supergraph.py:292-336 | control reaches the primary assistant only from `fetch_user_info`, the summariser, its tool node and `leave_skill` |
| Supergraph.RoutePrimaryAssistant | graphs/supergraph.py:252-268 | END iff no tool calls; each hand-off name picks its entry node (iff); any other first name picks `primary_assistant_tools`; always a wired successor |
| Supergraph.PrimaryRouteUsesFirstCallOnly | graphs/supergraph.py:256-267 | transcripts whose first tool call has the same name route alike |
| Supergraph.RouteManagementAssistant | graphs/supergraph.py:272-284 | `leave_skill` iff some tool call, in any position, is CompleteOrEscalate; otherwise END |
| Supergraph.SummaryRoute | graphs/supergraph.py:335 | the branch after `fetch_user_info` is the summariser iff more than 18 messages |
| Supergraph.RouteToWorkflow | graphs/supergraph.py:237-247 | "primary_assistant" for an empty stack, otherwise its top |
| Supergraph.UserInfo | graphs/supergraph.py:249-250 | every state field kept, `dialog_state` set to "primary_assistant" |
| Supergraph.LeaveSkillNode | graphs/supergraph.py:25-45 | `dialog_state` "pop"; one `leave_skill` tool result for the first call when there are tool calls, none otherwise |
| Supergraph.EntryLeadsToWorkflow | graphs/supergraph.py:306-361 | each entry node's only successor is its workflow |
| Supergraph.Enter | graphs/supergraph.py:306-360 | each entry node answers the first tool call with the hand-off text, names its assistant and sets `dialog_state` to its workflow |
| Supergraph.EntryKeepsStackAtPrimary | utilities.py:79-87 | with the reducer as written, after an entry node's hand-off the stack routes to the primary assistant and is not the old stack with the workflow pushed |
| Supergraph.WorkflowIsNotPrimary | graphs/supergraph.py:306-361 | no entry node hands over to the primary assistant |
| Supergraph.LeaveKeepsStackAtPrimary | utilities.py:79-87 | with the reducer as written, after `leave_skill` the stack routes to the primary assistant; it equals the popped stack only for a two-entry stack starting with the primary assistant |
| DocGraph.ConditionLabel | graphs/part_1_graph.py:22 | `tools_condition`'s answer as a label: "tools" iff it routes to tools, END iff it routes to END |
| DocGraph.Successors | graphs/part_1_graph.py:99-159 | the `add_edge`/`add_conditional_edges` wiring; see `DocGraph.AnsweringRun` and `DocGraph.EndOnlyAfterGenerate` |
| DocGraph.RouteFilter | graphs/part_1_graph.py:19-27 | `content_grader` iff the first call is ToGradeContent, otherwise `tools_condition` |
| DocGraph.RouteWebSearch | graphs/part_1_graph.py:29-36 | `enter_filter` iff the first call is ToFilter, otherwise `web_search_tools` |
| DocGraph.RouteContentGrader | graphs/part_1_graph.py:38-48 | `enter_generate` iff first call ToGenerate; `enter_web_search` iff first call ToWebSearch; otherwise `tools_condition` |
| DocGraph.RouteDocRetrieval | graphs/part_1_graph.py:51-58 | `enter_filter` iff the first call is ToFilter, otherwise `doc_retrieval_tools`, also with no tool calls |
| DocGraph.WiredRoutersFollowEdges | graphs/part_1_graph.py:109-145 | the retrieval and web-search routers always pick a wired successor |
| DocGraph.ContentGraderRouteWired | graphs/part_1_graph.py:130-137 | the `content_grader` route is wired iff its first call is ToGenerate or ToWebSearch |
| DocGraph.FilterRouterUnused | graphs/part_1_graph.py:123-126 | no label `route_filter` returns is a successor of `filter` |
| DocGraph.AnsweringRun | graphs/part_1_graph.py:99-159 | retrieve, filter, grade, generate is a walk from START to END |
| DocGraph.EndOnlyAfterGenerate | graphs/part_1_graph.py:159 | END is entered only from `generate` |
| DocGraph.FilterAlwaysGraded | graphs/part_1_graph.py:123-126 | `filter` is always followed by `enter_content_grader` |
| DocGraph.EntryLeadsToWorkflow | graphs/part_1_graph.py:102-158 | each entry node's only successor is the agent it hands over to |
| DocGraph.Enter | graphs/part_1_graph.py:60-80 | the local entry node answers the first call with the same hand-off message, named after the assistant, and sets `dialog_state` |
| OrderGraph.ConditionNode | graphs/part_2_graph.py:10 | `tools_condition`'s answer as a node: `tools` iff it routes to tools, END iff it routes to END |
| OrderGraph.Successors | graphs/part_2_graph.py:19-31 | the wiring; see `OrderGraph.ToolNodesReturn` |
| OrderGraph.RouteOrderManagement | graphs/part_2_graph.py:7-17 | END on a first CompleteOrEscalate call (checked first); `sensitive_tools` iff the first call is sensitive; otherwise `tools_condition`; always a wired successor |
| OrderGraph.CancelIsGated | graphs/part_2_graph.py:15-16 | a first `cancel_order` call always goes to `sensitive_tools` |
| OrderGraph.LaterCancelNotGated | graphs/part_2_graph.py:15 | a `cancel_order` behind a safe first call goes to the uninterrupted `tools` node |
| OrderGraph.ToolNodesReturn | graphs/part_2_graph.py:21-31 | both tool nodes return to `order_management`; a node is interrupted iff it runs a sensitive tool |
| OrderGraph.CancelRunsOnlyAfterInterrupt | graphs/part_2_graph.py:22-31 | `cancel_order` runs only at `sensitive_tools`, which the graph interrupts before |
| SearchGraph.ConditionNode | graphs/part_3_graph.py:10 | `tools_condition`'s answer as a node: `tools` iff it routes to tools, END iff it routes to END |
| SearchGraph.Successors | graphs/part_3_graph.py:17-25 | the wiring; `SearchGraph.RouteFoodSearch` always returns a wired successor |
| SearchGraph.RouteFoodSearch | graphs/part_3_graph.py:7-15 | END on a first CompleteOrEscalate call, otherwise `tools_condition`; always a wired successor |
| SearchGraph.LaterEscalationIgnored | graphs/part_3_graph.py:13 | a CompleteOrEscalate behind another call does not end the workflow |
| SuggestGraph.Iterations | graphs/part_5_graph.py:39-48 | the number of ReviseFoodRecommendation calls after the most recent human message; see `SuggestGraph.NumIterations`, `SuggestGraph.IterationsMonotone` and `SuggestGraph.HumanResetsCount` |
| SuggestGraph.NumIterations | graphs/part_5_graph.py:39-48 | the backward scan returns the number of ReviseFoodRecommendation calls made after the most recent human message |
| SuggestGraph.IterationsAppend | graphs/part_5_graph.py:41-47 | a non-human message adds all of its own revision calls to the count |
| SuggestGraph.IterationsMonotone | graphs/part_5_graph.py:39-48 | appending messages without a human message never lowers the count |
| SuggestGraph.HumanResetsCount | graphs/part_5_graph.py:46-47 | nothing before a human message is counted; right after one the count is 0 |
| SuggestGraph.ToolResultsKeepCount | graphs/part_5_graph.py:39-48 | tool messages carry no tool calls, so appending them leaves the count unchanged |
| SuggestGraph.RevisorNode | graphs/part_5_graph.py:84-101 | past `MAX_ITERATIONS` = 2, exactly the forced CompleteOrEscalate message (the model is not consulted); otherwise the given revision |
| SuggestGraph.Successors | graphs/part_5_graph.py:116-128 | the wiring; `SuggestGraph.RouteFoodSuggestion` always returns a wired successor |
| SuggestGraph.RouteFoodSuggestion | graphs/part_5_graph.py:52-63 | END iff the first call is CompleteOrEscalate, otherwise `execute_tools` |
| SuggestGraph.ForcedFinishEnds | graphs/part_5_graph.py:52-101 | the forced message always ends the loop, and its arguments validate as a completion record (`cancel` false) |
| SuggestGraph.RevisionLoopEnds | graphs/part_5_graph.py:84-125 | while the user stays silent and each revision asks for another, the loop reaches END within MAX_ITERATIONS + 2 rounds |
| SuggestGraph.SearchRoundsNeverEnd | graphs/part_5_graph.py:39-63 | the cap counts only revision requests: from a count at most MAX_ITERATIONS, rounds of tool results whose revision calls other tools (none a revision, the first not CompleteOrEscalate) never reach END |
| SuggestGraph.SearchOnlyNeverEnds | graphs/part_5_graph.py:39-63 | a revisor that only ever calls `available_food_search` never reaches END |
| ToolPairs.AiScan | test.py:47-57 | the pairs found for one tool result are whole pairs, at most the remaining budget |
| ToolPairs.CallsId | test.py:49-55 | true iff some tool call of the AI message has the tool result's id |
| ToolPairs.PairsFor | test.py:47-57 | visiting the AI messages newest first yields exactly the pairs the specification finds for that tool result within the budget |
| ToolPairs.FilterLastTwoToolMessages | test.py:25-66 | the nested loops return exactly the specification's pair list |
| ToolPairs.AiScanPaired | test.py:47-54 | every pair found for a tool result is a caller of it followed by it |
| ToolPairs.AiScanEmptyIff | test.py:47-54 | nothing is found for a tool result iff no AI message called it |
| ToolPairs.LastTwoPairsShape | test.py:38-60 | even length, at most two pairs, each AI message having a call with the tool result's id |
| ToolPairs.LastTwoPairsEmptyIff | test.py:62-65 | the result is empty iff no tool result has a calling AI message |
| ToolPairs.LastTwoPairsNewestFirst | test.py:42-54 | the first pair holds the most recent tool result that has a caller |
| ToolPairs.SampleTranscript | test.py:6-11 | on the sample, the result is [ai, "Chili Tacos", ai, "Spicy Ramen"] |
| Parse.PrepareData | parse.py:41-49 | one record per chunk |
| Parse.IdsIncreasing | parse.py:45-48 | record i has id i + 1, so ids are distinct and strictly increasing from 1 |
| Parse.LookupRoundTrip | parse.py:45-46 | looking up id k in 1..n finds the record of chunk k − 1 with its text unchanged; other ids find nothing |

## Left out

- Language-model calls, prompts and `bind_tools` chains. A reply is a given message, or a function parameter where the code loops over replies.
- Utilities.Call: the runnable is a function of the state it is shown. It therefore answers alike on equal inputs, which a real model need not do. The `print` calls are left out.
- SuggestGraph.RevisorNode: below the cap, the revision is a parameter. `extract_last_tool_criteria`, `generate_human_message` and `Assistant.respond` are not defined anywhere in the repository.
- Summarize.SummarizeConversation: the summariser's reply is a function of what it is shown.
- Tools.RetrieveFromDoc: takes the search result as input. `document_search` (LanceDB hybrid search, reranking, the 0.65 score cut) is not part of this model.
- `tools_condition` is a library function and is not shown. It is a parameter with its two labels, "tools" and END.
- SQLite and LanceDB I/O.
  - The connection handling is left out, including the connection left open on the early return of `cancel_order`.
  - The `foods` table is a sequence of rows and `food_orders` an in-memory map keyed by order id.
- LangGraph execution: `StateGraph` scheduling, `ToolNode`, checkpointing, interrupts and resumption.
  - The graphs are their successor relations.
  - The interrupt before `sensitive_tools` is a set of nodes, not a pause in a run.
  - The `add_messages` reducer is modelled only in its removal rule, by `Summarize.ApplyRemovals` with distinct message ids. Id assignment and replacement by id are left out.
- Tools.ParseEscalation: validation is strict, a Boolean `cancel` and a string `reason`. Pydantic in lax mode also coerces values such as "true" or 1 to a Boolean; no routing reads these arguments, only the tool name.
- ToolMessage details beyond content, call id and name (role, artifacts), and the `"type"` key of the forced tool call.
- Strings.Lower: lowers ASCII letters only; the other Unicode mappings of `str.lower()` are left out.
- Prices are real numbers and are only copied. The `float('inf')` sentinel for a field that was not searched is an absent `Option`.
- `route_to_workflow` is defined but no edge uses it. It is modelled as a function.
- `comment_order` changes the table but is a safe tool, run without an interrupt. The model states this (`OrderGraph.ToolNodesReturn`) and does not change it.
- `_print_event` (console output; its second half is unreachable) and `graphs/part_4_graph.py` (its router returns `tools_condition` unchanged).
- Also left out:
  - `app.py` (chat UI, streaming, task cancellation);
  - `db_manager_sample_use.py` (a script);
  - the module-level model invocation in `test.py`;
  - PDF parsing, embedding and table creation in `parse.py`.
- `draft_node` in part 5 depends on helpers that do not exist in the repository. `run_queries` is a web search through the Tavily client, a network call. The revise loop is modelled from the tool results and revisions each round adds (`SuggestGraph.Round`).
- No assistant in the repository is built with `is_tools_based=True`. Utilities.Call covers both settings.
