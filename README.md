# A verified model of the deep-research agent's control core

The agent answers a research question by running one of two LangGraph state graphs. Language models and Google Search do the work inside them.

- **The enhanced graph** runs a planner that splits the question into sub-topics. It sends one `focused_researcher` task per sub-topic. Their results are joined and synthesised into a draft. The draft then goes through a critique/revision loop capped at one revision (`MAX_REVISIONS = 1`), and a final polish.
- **The simple graph** makes a plan and generates search queries. It runs one `web_research` task per query, then a `reflection` step. A router either finalises the answer or sends the follow-up queries to another batch of searches, up to a loop ceiling. `finalize_answer` replaces the short citation URLs in the answer with the full ones and keeps only the cited sources.

Beside the graphs, `academic_framework_planner` splits a model answer into the six sections of an academic paper. `SearchHistoryManager` keeps a newest-first JSON list of at most 100 search records.

The model has these parts:

- **The graph state** (`state.dfy`): a record of channels. Each channel has its reducer: `operator.add` lists accumulate, and every other channel is replace-latest. A node's update is folded into the state, and a fan-out's updates are folded in task-id order.
- **The edges** of both compiled graphs (`topology.dfy`).
- **The two fan-outs and their tasks** (`fanout.dfy`).
- **The revision loop** (`revision.dfy`).
- **The search/reflection loop** (`search_loop.dfy`).
- **The citation rewrite** (`citations.dfy`).
- **The section parser** (`framework.dfy`).
- **The history record and its manager** (`history.dfy`), as a class over the file's content.
- **Whole runs of both graphs** (`graph.dfy`).
- **Python string operations** (`strings.dfy`): `in`, `replace`, ASCII `lower`, `strip`, `split`, `join` and `str(int)`, as the code above uses them.

Model answers, search outcomes, clock readings, uuids and whether a file write succeeds are all inputs. Loops in the source are methods, proved against the functions that the lemmas reason about.

## Model

| member | source | states |
|---|---|---|
| AgentState.MergePolicies | backend/src/agent/state.py:13-44 | each of the six accumulating channels appends the update's list after the current one; each of the 26 replace-latest channels takes the update's value when present and keeps the current one when absent |
| AgentState.MergeAssociative | backend/src/agent/state.py:13-44 | applying two updates one after the other equals applying their merge once |
| AgentState.MergeNeutral | backend/src/agent/state.py:13-44 | the empty update changes nothing, on either side |
| AgentState.FoldAppend | backend/src/agent/state.py:13-44 | folding two batches of updates equals folding their concatenation |
| AgentState.RegroupJoins | backend/src/agent/state.py:13-44 | where the batch boundaries fall does not matter, only the task order |
| AgentState.FoldIsMergeOfComposition | backend/src/agent/state.py:13-44 | a fold is a single merge with the composition of its updates |
| AgentState.FoldGather | backend/src/agent/state.py:15-17 | a fold concatenates, in order, every projection that merging turns into concatenation |
| AgentState.ProjectionsDistribute | backend/src/agent/state.py:14-17 | each of the six accumulating channels distributes over merge |
| AgentState.FoldAccumulates | backend/src/agent/state.py:14-31 | after a join each accumulating channel holds its old list followed by the tasks' lists in task order |
| AgentState.FoldKeepsReplaceChannels | backend/src/agent/state.py:18-44 | a join of updates that write only lists leaves every replace-latest channel unchanged |
| Topology.PathJoin | backend/src/agent/graph.py:946-975 | two edge paths that share an end node compose into one path |
| Topology.ExitsAreExclusive | backend/src/agent/graph.py:992-1001 | no node has both an unconditional and a conditional exit; END has neither |
| FanOut.RunParallelResearch | backend/src/agent/graph.py:129-153 | one `focused_researcher` send per sub-topic, in plan order, carrying the topic's name and queries and `str(idx)` as id; a missing plan or `sub_topics` key gives none |
| FanOut.SubTopicIdsDistinct | backend/src/agent/graph.py:148 | two different sends of a fan-out never share a sub-topic id |
| FanOut.NumberedWebTasks | backend/src/agent/graph.py:777-786 | one `web_research` send per query, in order, with ids counting up from the first one |
| FanOut.ContinueToWebResearch | backend/src/agent/graph.py:589-597 | one `web_research` send per query in `search_query`, the i-th with that query and id i |
| FanOut.CollectSources | backend/src/agent/graph.py:194-198 | the loop extends the list with the segments of each citation that has non-empty segments, in citation order |
| FanOut.GatheredFromCitations | backend/src/agent/graph.py:194-198 | every gathered source is a segment of some citation |
| FanOut.Block | backend/src/agent/graph.py:210-217 | a result block keeps the topic and text and lists exactly `sources[:5]`: all sources when there are at most five, else the first five |
| FanOut.ResearchSubTopic | backend/src/agent/graph.py:156-222 | exactly one result block plus the gathered sources; on an error the fixed not-found text and no sources; only list channels are written |
| FanOut.SearchWeb | backend/src/agent/graph.py:600-664 | exactly its own query, one result text and the gathered sources; on an error the not-found text and no sources; only list channels are written |
| FanOut.ResearchResultsJoin | backend/src/agent/graph.py:219-222 | the join adds exactly one result block per sub-topic, in task order |
| FanOut.ResearchSourcesJoin | backend/src/agent/graph.py:219-222 | the join keeps the old sources as a prefix and adds the sum of the tasks' source counts |
| FanOut.ResearcherWritesLists | backend/src/agent/graph.py:219-222 | a researcher's update writes no replace-latest channel |
| FanOut.ResearchJoin | backend/src/agent/graph.py:156-222 | the join: one block per task in order, the sources grow by the tasks' counts after the old ones, and no replace-latest channel changes |
| FanOut.WebJoin | backend/src/agent/graph.py:600-664 | the join of a search batch: `search_query` grows by the batch's queries and `web_research_result` by one text per task, both in task order; nothing else replace-latest changes |
| FanOut.ThreeTopicsTwoSourcesEach | backend/src/agent/graph.py:129-222 | three sub-topics with two sources each give exactly three more blocks and six more sources |
| FanOut.EmptyFanOut | backend/src/agent/graph.py:136-153 | a plan without sub-topics sends nothing and its join leaves the state unchanged |
| Revision.PlannerStep | backend/src/agent/graph.py:115-126 | the planner initialises the revision counter to 0 and records the sub-topics in the structured plan |
| Revision.CritiqueStep | backend/src/agent/graph.py:279-335 | at or above the ceiling it forces `should_revise` false, with no suggestions and the limit feedback; below it, it passes on the model's verdict and suggestions; it never writes the counter or the draft |
| Revision.CritiqueIgnoresModelAtCeiling | backend/src/agent/graph.py:295-303 | at the ceiling the critique's update does not depend on the model's assessment |
| Revision.EvaluateReportQuality | backend/src/agent/graph.py:338-363 | revise if and only if `should_revise` holds (absent counts as false) and the counter (absent counts as 0) is below 1; otherwise polish; the result is a declared target of the edge |
| Revision.ReviseStep | backend/src/agent/graph.py:366-432 | below the ceiling the revision becomes the draft and the counter goes up by exactly one; at or above it, the draft and counter are written back unchanged with phase `emergency_stopped` |
| Revision.FinalPolishStep | backend/src/agent/graph.py:435-494 | the draft followed by the footer becomes both the final report and the one new message |
| Revision.GuardsAreIndependent | backend/src/agent/graph.py:295-385 | at the ceiling each of the three guards stops the loop by itself: the router, the forced verdict, and the revision step that does not move the counter |
| Revision.RouterViewAgrees | backend/src/agent/graph.py:338-363 | right after a critique, the router decides the same on the `CritiqueState` channels alone (no `revision_count`) as on the whole state |
| Revision.CounterSteps | backend/src/agent/graph.py:279-432 | a critique leaves the counter unchanged; a revision below the ceiling raises it by one and uses one unit of budget |
| Revision.CritiqueThenTrace | backend/src/agent/graph.py:963-972 | a critique in front of a loop trace that starts with a revision is still a loop trace |
| Revision.ReviseThenTrace | backend/src/agent/graph.py:963-972 | a revision in front of a loop trace that starts with a critique is still a loop trace |
| Revision.LoopBounded | backend/src/agent/graph.py:279-432 | the loop ends after no more revisions than the budget and exactly one more critique than revisions; its trace follows the edges and runs `final_polish` only at its end; the final state routes to polish |
| Revision.LoopBoundedFromRevise | backend/src/agent/graph.py:366-432 | the same, from a revision: as many critiques as revisions |
| Revision.AtMostOneRevision | backend/src/agent/graph.py:286 | from the planner's counter of 0: at most one revision and one critique more than revisions, whatever the model says |
| Revision.AlwaysReviseRunsTwice | backend/src/agent/graph.py:321-325 | a critique that always asks to revise gives exactly critique, revise, critique, polish; the counter ends at 1, the second verdict is forced false and the revised text is the draft |
| SearchLoop.ReflectionStep | backend/src/agent/graph.py:667-749 | after reflection the loop counter is one above its old value (absent counts as 0), the follow-ups are appended, `number_of_ran_queries` is the length of `search_query`, and `search_query` and the ceiling are unchanged |
| SearchLoop.EvaluateResearch | backend/src/agent/graph.py:752-786 | finalise if and only if `is_sufficient` holds or the counter reached the ceiling; the router raises only on an absent key it reads; otherwise one send per follow-up query, numbered from `number_of_ran_queries` |
| SearchLoop.RouterViewUsesConfig | backend/src/agent/graph.py:769-773 | on the `ReflectionState` channels alone the ceiling is always the configured one; the decision agrees with the whole state's when that state's ceiling is unset or equal |
| SearchLoop.IncreasingDistinct | backend/src/agent/graph.py:782 | strictly increasing ids are pairwise distinct |
| SearchLoop.BatchIds | backend/src/agent/graph.py:777-786 | the ids of one batch increase and none is below `number_of_ran_queries` |
| SearchLoop.PassFacts | backend/src/agent/graph.py:683-749 | one search batch plus reflection raises the counter by one, keeps the ceiling, records one query per task, and sets every key the router reads |
| SearchLoop.RouteAfterPass | backend/src/agent/graph.py:774-786 | after a pass the router never raises, and it sends more searches only while the raised counter is below the ceiling, so the remaining budget shrinks |
| SearchLoop.PassesBounded | backend/src/agent/graph.py:774-786 | from any batch, the loop runs at least one pass and at most max(1, remaining budget) passes |
| SearchLoop.CounterCountsPasses | backend/src/agent/graph.py:683 | the loop counter ends at its starting value plus the number of reflection passes |
| SearchLoop.NeverRaises | backend/src/agent/graph.py:743-749 | the router never raises a `KeyError` during the loop |
| SearchLoop.IdsIncrease | backend/src/agent/graph.py:782 | task ids stay increasing, and so distinct, over all passes, although earlier follow-ups are sent again |
| SearchLoop.StartFacts | backend/src/agent/graph.py:586 | `generate_query` appends its queries and keeps the counter and ceiling; the first batch's ids are 0..n-1, below the query count |
| SearchLoop.SearchBounded | backend/src/agent/graph.py:992-1001 | from a counter of 0: at most max(1, ceiling) passes, increasing ids, no raise; zero passes exactly when there are no queries, and then the run stalls |
| SearchLoop.FollowUpsResent | backend/src/agent/graph.py:785 | the second router batch re-sends the first reflection's follow-ups before the second's |
| Citations.Rewrite | backend/src/agent/graph.py:895-901 | the kept sources are a subsequence of the gathered ones, in gathered order |
| Citations.RewriteCitations | backend/src/agent/graph.py:895-901 | the loop computes the rewritten answer and the kept sources of `Rewrite` |
| Citations.KeptIffCited | backend/src/agent/graph.py:897-901 | source k is kept if and only if its short URL occurs in the text as the earlier sources left it, and then its replacement is applied; otherwise nothing changes |
| Citations.NothingCited | backend/src/agent/graph.py:895-901 | when no short URL occurs, the answer is unchanged and no source is kept |
| Citations.CitedWereGathered | backend/src/agent/graph.py:895-901 | every kept source was gathered |
| Citations.FinalizeAppendsSources | backend/src/agent/graph.py:924-927 | the kept sources are appended after everything already gathered (the channel accumulates), and the rewritten answer is one new message |
| Citations.DurationMs | backend/src/agent/graph.py:905 | the duration is absent exactly when `start_time` is absent or zero |
| Citations.HistoryRequest | backend/src/agent/graph.py:903-917 | the saved record counts the kept sources (no more than were gathered), holds the rewritten answer, and defaults its query to the research topic |
| Framework.Heading | backend/src/agent/graph.py:1094-1107 | a line is a heading if and only if some keyword matches it (the Japanese one as is, the English one lower-cased); it selects the first matching keyword's section in chain order |
| Framework.EverySectionKeyed | backend/src/agent/graph.py:1081-1088 | the initial dictionary has a key for every section |
| Framework.ParseLines | backend/src/agent/graph.py:1081-1109 | the dictionary always has exactly the six keys |
| Framework.AcademicFrameworkSections | backend/src/agent/graph.py:1080-1111 | the parsing loop returns `ParseFramework` of the answer, with exactly the six section keys |
| Framework.ParserCollects | backend/src/agent/graph.py:1091-1109 | each section holds, in order and each followed by a newline, exactly the non-blank, non-heading lines whose last preceding heading selects it |
| Framework.NoHeadingNoText | backend/src/agent/graph.py:1108 | lines before any heading are dropped: with no heading, no section collects text |
| Framework.NoHeadingEmptyFramework | backend/src/agent/graph.py:1081-1111 | an answer without any heading keyword gives six empty sections |
| Framework.BlankLineSkipped | backend/src/agent/graph.py:1108 | a blank line adds nothing to any section |
| History.ToDict | backend/src/agent/history.py:22-23 | the dictionary has exactly one key per dataclass field |
| History.FromDict | backend/src/agent/history.py:25-27 | an unknown key or a missing required one is an error; an absent `duration_ms` gives none |
| History.FromToDict | backend/src/agent/history.py:9-27 | `from_dict(to_dict(h))` gives `h` back |
| History.Loaded | backend/src/agent/history.py:103-118 | an absent, unreadable or non-list file loads as the empty list |
| History.SaveInto | backend/src/agent/history.py:88-91 | the new record goes first, the old ones follow in order, and the list is capped at 100 |
| History.FirstWithId | backend/src/agent/history.py:120-126 | none if and only if no record has the id; otherwise the first record that has it |
| History.Without | backend/src/agent/history.py:133 | a record stays if and only if it lacks the id |
| History.WithoutConcat | backend/src/agent/history.py:133 | deleting works record by record: `Without(a + b) == Without(a) + Without(b)`, so the kept records keep their stored order and multiplicity |
| History.WithoutShorter | backend/src/agent/history.py:132-139 | deleting shortens the list if and only if some record has the id; otherwise the list is unchanged |
| History.MatchingErrSticks | backend/src/agent/history.py:166-169 | once a record raises while searching, the whole search raises the same way |
| History.SavedSearchable | backend/src/agent/history.py:22-23 | records written by `to_dict` can always be searched |
| History.SearchFinds | backend/src/agent/history.py:160-171 | on searchable records the search never raises and returns exactly the records whose query or result contains the lower-cased query |
| History.SearchAppends | backend/src/agent/history.py:166-169 | on searchable records, appending a record to the stored list appends it to the result exactly when it matches, so the result keeps stored order and multiplicity |
| History.EmptyQueryFindsAll | backend/src/agent/history.py:160-171 | an empty query returns every searchable record, in order |
| History.Prefix | backend/src/agent/history.py:158 | `histories[:limit]` with Python slice lengths, including a negative limit |
| History.SearchHistoryManager.constructor | backend/src/agent/history.py:33-55 | a missing file is created holding an empty list; an existing one is kept |
| History.SearchHistoryManager.LoadHistories | backend/src/agent/history.py:103-118 | returns the stored list, or the empty list for an absent, unreadable or non-list file |
| History.SearchHistoryManager.SaveHistory | backend/src/agent/history.py:57-101 | when the write succeeds the file holds the new record in front of the loaded ones, capped at 100, and the fresh id is returned; otherwise the file is unchanged and `""` is returned |
| History.SearchHistoryManager.GetHistoryById | backend/src/agent/history.py:120-126 | returns the first stored record with the id, or none |
| History.SearchHistoryManager.DeleteHistory | backend/src/agent/history.py:128-143 | true if and only if some record has the id and the write succeeds; only then is the file rewritten without those records |
| History.SearchHistoryManager.ClearAllHistory | backend/src/agent/history.py:145-153 | on a successful write the store is empty and true is returned; otherwise the file is unchanged and false is returned |
| History.SearchHistoryManager.GetRecentHistories | backend/src/agent/history.py:155-158 | returns the first `limit` records of the loaded list |
| History.SearchHistoryManager.SearchHistories | backend/src/agent/history.py:160-171 | returns the matching records in stored order, or the error of the first record whose field is not a string |
| History.SavedThenFound | backend/src/agent/history.py:88-126 | after a save, a lookup of its id finds the new record |
| History.SaveCaps | backend/src/agent/history.py:88-91 | a save never leaves more than 100 records; at the cap the oldest record is dropped |
| Runs.EnhancedTrace | backend/src/agent/graph.py:946-975 | the planner, researcher, aggregator and synthesizer nodes, then a loop trace, then END, form a START-to-END path that runs `final_polish` exactly once |
| Runs.CounterReachesCritique | backend/src/agent/graph.py:115-276 | the planner's counter of 0 survives the research join, aggregation and synthesis |
| Runs.EnhancedBounded | backend/src/agent/graph.py:946-975 | the enhanced graph stalls if and only if the plan has no sub-topics, and otherwise reaches END along its edges through `final_polish` once, with at most one revision and a final report; the model's enhanced run has no raising step, so `r.end != Raised` holds by construction |
| Runs.EnhancedAlwaysRevise | backend/src/agent/graph.py:946-975 | with a critique that always asks to revise, the enhanced run is exactly START, planner, researcher, aggregator, synthesizer, critique, revise, critique, polish, END |
| Runs.SimpleTrace | backend/src/agent/graph.py:992-1001 | at least one search round, between the head and `finalize_answer`, forms a START-to-END path that runs `finalize_answer` once |
| Runs.SimpleBounded | backend/src/agent/graph.py:992-1001 | the simple graph never raises, runs at most max(1, ceiling) passes from a counter of 0, and when complete follows its edges through `finalize_answer` once |
| PyStr.ContainsIffOccurs | backend/src/agent/graph.py:897 | `sub in s` holds if and only if `sub` occurs at some position of `s` |
| PyStr.ContainsWitness | backend/src/agent/graph.py:897 | a contained substring has a position where it occurs |
| PyStr.OccursContains | backend/src/agent/graph.py:897 | an occurrence at a position makes the substring contained |
| PyStr.ReplaceAbsent | backend/src/agent/graph.py:898-900 | replacing a pattern that does not occur leaves the text unchanged |
| PyStr.ReplaceBySelf | backend/src/agent/graph.py:898-900 | replacing a pattern by itself leaves the text unchanged |
| PyStr.InsertNothing | backend/src/agent/graph.py:898-900 | replacing the empty pattern by the empty string leaves the text unchanged |
| PyStr.Split | backend/src/agent/graph.py:1092 | splitting always gives at least one piece |
| PyStr.JoinSplit | backend/src/agent/graph.py:1092 | joining the pieces of a split with the separator gives the text back |
| PyStr.SplitPiecesFree | backend/src/agent/graph.py:1092 | no piece of a split contains the separator |
| PyStr.NatToString | backend/src/agent/graph.py:148 | `str(n)` is a non-empty string of decimal digits |
| PyStr.ParsePrinted | backend/src/agent/graph.py:148 | reading the digits of `str(n)` back gives `n` |
| PyStr.NatToStringInjective | backend/src/agent/graph.py:148 | different numbers print differently |

## Left out

- Language-model and Google Search calls, and the grounding helpers `resolve_urls`, `get_citations` and `insert_citation_markers` (in `utils.py`, which is not part of this model). Their answers are inputs: an assessment, a revised text, a reflection verdict, a `SearchOutcome`. Prompt and footer texts are inputs or opaque constants.
- LangGraph's scheduler. Parallel tasks are modelled as their updates folded in task-id order. Concurrency, retries, checkpoints, and the error LangGraph raises when two tasks write the same replace-latest channel in one step are not modelled.
- `add_messages` merges by message id. The model appends, which is what it does for the fresh `AIMessage`s these nodes return.
- Input-schema filtering of conditional edges: LangGraph passes `evaluate_report_quality` only the `CritiqueState` channels, and `evaluate_research` only the `ReflectionState` channels.
  - Revision.EvaluateReportQuality: it is given the whole state, as the code reads it. Revision.RouterViewAgrees shows that right after a critique the decision is the same on `CritiqueState` alone, where `revision_count` is absent.
  - SearchLoop.EvaluateResearch: it uses the state's `max_research_loops` when set, as the code reads it. SearchLoop.RouterViewUsesConfig shows that on `ReflectionState` alone only the configured ceiling applies. The two agree when the state's value is unset or equal to it.
- The writes to the passed state at graph.py lines 683 and 564-565 are in-place changes of a node's input. Only the returned update reaches the graph, and only that is modelled.
- An empty fan-out: with zero `Send`s LangGraph schedules nothing, and the run stops without reaching the join target. The model follows this (`Stalled`, `NoTasks`) rather than skipping to the join target.
- `WebSearchState.id` is declared `str`, but the code passes an `int`. The model uses the integer.
- `follow_up_queries` accumulates, so `evaluate_research` sends every earlier follow-up again (SearchLoop.FollowUpsResent). `number_of_ran_queries` counts the initial queries twice: `generate_query` appends them, and each `web_research` appends its query again. The model keeps this behaviour, and SearchLoop.IdsIncrease shows the ids stay distinct regardless.
- A `response.text` that is `None` is not modelled. `SearchOutcome` gives a grounded response a string text, and an ungrounded one either a string or a missing text attribute. If the text is `None`, the source would render `None` in the research block and store `None` as a `web_research` result.
- A `KeyError` from a sub-topic dictionary missing `topic_name` or `search_queries` is not modelled: `SubTopic` always has both.
- The history saves inside `final_polish` and `finalize_answer` are not linked to the manager class. The request `finalize_answer` builds is modelled (Citations.HistoryRequest), with `get_research_topic` as a topic parameter. The save in `final_polish` is not modelled: it is wrapped in a `try` and only prints on failure.
- Clock, uuid and the float arithmetic of `duration_ms` are not modelled: the elapsed milliseconds, the id and the timestamp are parameters.
- JSON encoding and decoding, file paths, directory creation and `_ensure_history_file`'s fallback path. The file is modelled by its decoded content, and a write either succeeds or leaves the file unchanged (partial writes are not modelled).
- History.SearchHistoryManager.SearchHistories: elements of the stored list that are not JSON objects are not modelled; `Record` is always a dictionary.
- History.FromDict: it rejects a field of the wrong JSON type, which the dataclass constructor would accept.
- PyStr.Lower: lower-cases ASCII letters only; Python's `str.lower` also folds non-ASCII letters.
- Citations.KeptIffCited: the model does not prove that no occurrence of a short URL is left once it has been replaced (a replacement value could contain it again).
- Console `print` output, `app.py`, `tools_and_schemas.py`, the frontend, and the academic graph's nodes other than `academic_framework_planner`.
