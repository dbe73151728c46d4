/**
 * The two dynamic fan-out edges and the task nodes they start:
 * `run_parallel_research` sends one `focused_researcher` task per sub-topic,
 * `continue_to_web_research` (and `evaluate_research`) one `web_research`
 * task per query. A task returns a partial update that the join folds into
 * the graph state in task-id order.
 *
 * The Gemini call and the grounding helpers (`resolve_urls`,
 * `get_citations`, `insert_citation_markers`) are not modelled; their
 * outcome is an input of type `SearchOutcome`.
 */
module FanOut {
  import opened Wrappers
  import opened AgentState
  import opened Topology
  import PyStr

  /** The sub-state a `focused_researcher` task receives (`ParallelResearchState`). */
  datatype ParallelResearchState = ParallelResearchState(
    topicName: string,
    searchQueries: seq<string>,
    researchResult: Option<string>,
    sourcesUsed: Option<seq<string>>,
    subTopicId: string)

  /** `Send("focused_researcher", …)`. */
  datatype ResearchSend = ResearchSend(target: Node, arg: ParallelResearchState)

  /** The sub-state a `web_research` task receives; the code passes an integer id. */
  datatype WebSearchState = WebSearchState(searchQuery: string, id: int)

  /** `Send("web_research", …)`. */
  datatype WebSend = WebSend(target: Node, arg: WebSearchState)

  /** A citation; `segments` is `None` when the key is missing or the citation is empty. */
  datatype Citation = Citation(segments: Option<seq<Source>>)

  /** What the search call produced. */
  datatype SearchOutcome =
    | ServiceError
      // the call or a grounding helper raised
    | Ungrounded(text: Option<string>)
      // no grounding metadata; `text` is `None` when the response has no text
    | Grounded(responseText: string, citations: seq<Citation>, markedText: string)
      // grounding metadata present; `markedText` is what `insert_citation_markers` returned

  /** The text used when nothing was found. */
  const NotFoundText: string := "該当する情報は見つかりませんでした。"

  /** The heading of the source list in a research block. */
  const SourcesHeading: string := "情報源"

  /** At most this many sources are listed in a research block. */
  const ListedSourceLimit: nat := 5

  /** The sub-topics of the structured plan; a missing plan or key gives none. */
  function SubTopicsOf(s: OverallState): seq<SubTopic> {
    match s.structuredPlan
    case None => []
    case Some(plan) => plan.subTopics.GetOr([])
  }

  /** The task for sub-topic `t` at list position `idx`. */
  function ResearchTask(t: SubTopic, idx: nat): ResearchSend {
    ResearchSend(FocusedResearcher,
      ParallelResearchState(t.topicName, t.searchQueries, None, None, PyStr.NatToString(idx)))
  }

  /** The tasks `run_parallel_research` sends for a state. */
  function ParallelSends(s: OverallState): seq<ResearchSend> {
    seq(|SubTopicsOf(s)|, i requires 0 <= i < |SubTopicsOf(s)| => ResearchTask(SubTopicsOf(s)[i], i))
  }

  /** `run_parallel_research`: one task per sub-topic, in plan order, with the position as id. */
  method RunParallelResearch(s: OverallState) returns (sends: seq<ResearchSend>)
    ensures |sends| == |SubTopicsOf(s)|
    ensures forall i :: 0 <= i < |sends| ==>
      && sends[i].target == FocusedResearcher
      && sends[i].arg.topicName == SubTopicsOf(s)[i].topicName
      && sends[i].arg.searchQueries == SubTopicsOf(s)[i].searchQueries
      && sends[i].arg.subTopicId == PyStr.NatToString(i)
    ensures sends == ParallelSends(s)
  {
    var subTopics := SubTopicsOf(s);
    sends := [];
    var idx := 0;
    while idx < |subTopics|
      invariant 0 <= idx <= |subTopics|
      invariant |sends| == idx
      invariant forall i :: 0 <= i < idx ==> sends[i] == ResearchTask(subTopics[i], i)
    {
      var t := subTopics[idx];
      sends := sends + [ResearchSend(FocusedResearcher,
        ParallelResearchState(t.topicName, t.searchQueries, None, None, PyStr.NatToString(idx)))];
      idx := idx + 1;
    }
  }

  /** Distinct tasks of one fan-out carry distinct sub-topic ids. */
  lemma SubTopicIdsDistinct(s: OverallState, i: nat, j: nat)
    requires i < j < |ParallelSends(s)|
    ensures ParallelSends(s)[i].arg.subTopicId != ParallelSends(s)[j].arg.subTopicId
  {
    if PyStr.NatToString(i) == PyStr.NatToString(j) {
      PyStr.NatToStringInjective(i, j);
    }
  }

  /** One `web_research` task per query, numbered from `first` on. */
  function NumberedWebTasks(queries: seq<string>, first: int): (r: seq<WebSend>)
    ensures |r| == |queries|
    ensures forall i :: 0 <= i < |r| ==>
      r[i].target == WebResearch && r[i].arg == WebSearchState(queries[i], first + i)
    decreases |queries|
  {
    if queries == [] then []
    else [WebSend(WebResearch, WebSearchState(queries[0], first))] + NumberedWebTasks(queries[1..], first + 1)
  }

  /** `continue_to_web_research`: one task per query in the state, ids `0..n-1`. */
  function ContinueToWebResearch(s: OverallState): (r: seq<WebSend>)
    ensures |r| == |s.searchQuery|
    ensures forall i :: 0 <= i < |r| ==>
      r[i].target == WebResearch && r[i].arg.id == i && r[i].arg.searchQuery == s.searchQuery[i]
  {
    NumberedWebTasks(s.searchQuery, 0)
  }

  /** The segments of one citation, `[]` when it has none. */
  function SegmentsOf(c: Citation): seq<Source> {
    match c.segments
    case None => []
    case Some(xs) => xs
  }

  /** The in-order concatenation of the citations' segments. */
  function GatheredSources(cs: seq<Citation>): seq<Source>
    decreases |cs|
  {
    if cs == [] then [] else GatheredSources(cs[..|cs| - 1]) + SegmentsOf(cs[|cs| - 1])
  }

  /** The segment collection loop: `sources_gathered.extend(citation["segments"])` for each usable citation. */
  method CollectSources(citations: seq<Citation>) returns (sources: seq<Source>)
    ensures sources == GatheredSources(citations)
  {
    sources := [];
    var i := 0;
    while i < |citations|
      invariant 0 <= i <= |citations|
      invariant sources == GatheredSources(citations[..i])
    {
      var c := citations[i];
      if c.segments.Some? && c.segments.value != [] {
        sources := sources + c.segments.value;
      }
      assert citations[..i + 1][..i] == citations[..i];
      i := i + 1;
    }
    assert citations[..i] == citations;
  }

  /** Every gathered source comes from the segments of some citation. */
  lemma {:induction false} GatheredFromCitations(cs: seq<Citation>, x: Source)
    requires x in GatheredSources(cs)
    ensures exists k :: 0 <= k < |cs| && x in SegmentsOf(cs[k])
    decreases |cs|
  {
    var last := |cs| - 1;
    if x in SegmentsOf(cs[last]) {
    } else {
      GatheredFromCitations(cs[..last], x);
      var k :| 0 <= k < last && x in SegmentsOf(cs[..last][k]);
      assert cs[..last][k] == cs[k];
    }
  }

  /** The text a task reports for a search outcome. */
  function ModifiedText(o: SearchOutcome): string {
    match o
    case ServiceError => NotFoundText
    case Ungrounded(text) => text.GetOr(NotFoundText)
    case Grounded(responseText, citations, markedText) =>
      if citations != [] then markedText else responseText
  }

  /** The sources a task reports for a search outcome. */
  function OutcomeSources(o: SearchOutcome): seq<Source> {
    if o.Grounded? then GatheredSources(o.citations) else []
  }

  /** A research result block: the topic, the text and the sources it lists. */
  datatype ResultBlock = ResultBlock(topic: string, text: string, listed: seq<Source>)

  /** The block for a topic; only the first five sources are listed. */
  function Block(topic: string, text: string, sources: seq<Source>): (b: ResultBlock)
    ensures b.topic == topic && b.text == text
    ensures |b.listed| <= ListedSourceLimit
    ensures b.listed <= sources
    ensures |sources| <= ListedSourceLimit ==> b.listed == sources
    ensures |sources| > ListedSourceLimit ==> b.listed == sources[..ListedSourceLimit]
  {
    ResultBlock(topic, text, if |sources| <= ListedSourceLimit then sources else sources[..ListedSourceLimit])
  }

  /** One listed source as a markdown link. */
  function SourceLine(x: Source): string {
    "- [" + x.labelText + "](" + x.value + ")"
  }

  /** The markdown text of a block. */
  function RenderBlock(b: ResultBlock): string {
    "\n## " + b.topic + "\n\n" + b.text + "\n\n### " + SourcesHeading + "\n"
    + PyStr.Join(seq(|b.listed|, i requires 0 <= i < |b.listed| => SourceLine(b.listed[i])), "\n") + "\n"
  }

  /** The markdown block a `focused_researcher` task reports. */
  function ResearchBlockText(task: ParallelResearchState, o: SearchOutcome): string {
    RenderBlock(Block(task.topicName, ModifiedText(o), OutcomeSources(o)))
  }

  /** The update a `focused_researcher` task returns. */
  function ResearcherUpdate(task: ParallelResearchState, o: SearchOutcome): Update {
    NoUpdate.(
      parallelResearchResults := [ResearchBlockText(task, o)],
      sourcesGathered := OutcomeSources(o))
  }

  /**
   * `focused_researcher`: exactly one result block and the gathered sources;
   * on any failure the fixed fallback text and no sources.
   */
  method ResearchSubTopic(task: ParallelResearchState, outcome: SearchOutcome) returns (u: Update)
    ensures u == ResearcherUpdate(task, outcome)
    ensures |u.parallelResearchResults| == 1
    ensures u.sourcesGathered == OutcomeSources(outcome)
    ensures outcome.ServiceError? ==>
      u.sourcesGathered == [] && u.parallelResearchResults == [RenderBlock(ResultBlock(task.topicName, NotFoundText, []))]
    ensures WritesNoReplaceChannel(u)
  {
    var text: string;
    var sources: seq<Source>;
    match outcome {
      case ServiceError =>
        text, sources := NotFoundText, [];
      case Ungrounded(t) =>
        text := if t.Some? then t.value else NotFoundText;
        sources := [];
      case Grounded(responseText, citations, markedText) =>
        text := if citations != [] then markedText else responseText;
        sources := CollectSources(citations);
    }
    var block := Block(task.topicName, text, sources);
    u := NoUpdate.(parallelResearchResults := [RenderBlock(block)], sourcesGathered := sources);
  }

  /** The update a `web_research` task returns. */
  function WebResearchUpdate(task: WebSearchState, o: SearchOutcome): Update {
    NoUpdate.(
      sourcesGathered := OutcomeSources(o),
      searchQuery := [task.searchQuery],
      webResearchResult := [ModifiedText(o)])
  }

  /** `web_research`: its query, one result text and the gathered sources. */
  method SearchWeb(task: WebSearchState, outcome: SearchOutcome) returns (u: Update)
    ensures u == WebResearchUpdate(task, outcome)
    ensures u.searchQuery == [task.searchQuery] && |u.webResearchResult| == 1
    ensures outcome.ServiceError? ==> u.sourcesGathered == [] && u.webResearchResult == [NotFoundText]
    ensures WritesNoReplaceChannel(u)
  {
    var text := ModifiedText(outcome);
    var sources: seq<Source> := [];
    if outcome.Grounded? {
      sources := CollectSources(outcome.citations);
    }
    u := NoUpdate.(sourcesGathered := sources, searchQuery := [task.searchQuery], webResearchResult := [text]);
  }

  /** The updates of a fan-out of `focused_researcher` tasks, in task-id order. */
  function ResearcherUpdates(sends: seq<ResearchSend>, outcome: nat -> SearchOutcome): (us: seq<Update>)
    ensures |us| == |sends|
    ensures forall i :: 0 <= i < |us| ==> us[i] == ResearcherUpdate(sends[i].arg, outcome(i))
  {
    seq(|sends|, i requires 0 <= i < |sends| => ResearcherUpdate(sends[i].arg, outcome(i)))
  }

  /** The updates of a fan-out of `web_research` tasks; each task's outcome is chosen by its id. */
  function WebUpdates(sends: seq<WebSend>, outcome: int -> SearchOutcome): (us: seq<Update>)
    ensures |us| == |sends|
    ensures forall i :: 0 <= i < |us| ==> us[i] == WebResearchUpdate(sends[i].arg, outcome(sends[i].arg.id))
  {
    seq(|sends|, i requires 0 <= i < |sends| => WebResearchUpdate(sends[i].arg, outcome(sends[i].arg.id)))
  }

  /** The sum of a list of counts. */
  function Sum(xs: seq<nat>): nat
    decreases |xs|
  {
    if xs == [] then 0 else xs[0] + Sum(xs[1..])
  }

  /** Each task's number of sources, in task order. */
  function SourceCounts(sends: seq<ResearchSend>, outcome: nat -> SearchOutcome): (r: seq<nat>)
    ensures |r| == |sends|
    ensures forall i :: 0 <= i < |sends| ==> r[i] == |OutcomeSources(outcome(i))|
  {
    seq(|sends|, i requires 0 <= i < |sends| => |OutcomeSources(outcome(i))|)
  }

  /** Updates that each append one element gather to the list of those elements. */
  lemma {:induction false} GatherSingletons(us: seq<Update>, f: Update -> seq<string>, texts: seq<string>)
    requires |us| == |texts|
    requires forall i :: 0 <= i < |us| ==> f(us[i]) == [texts[i]]
    ensures Gather(us, f) == texts
    decreases |us|
  {
    if us != [] {
      GatherSingletons(us[1..], f, texts[1..]);
      assert [texts[0]] + texts[1..] == texts;
    }
  }

  /** The number of sources gathered from updates is the sum of their source counts. */
  lemma {:induction false} GatherLengths(us: seq<Update>, lens: seq<nat>)
    requires |us| == |lens|
    requires forall i :: 0 <= i < |us| ==> |SourcesOf(us[i])| == lens[i]
    ensures |Gather(us, SourcesOf)| == Sum(lens)
    decreases |us|
  {
    if us != [] {
      GatherLengths(us[1..], lens[1..]);
    }
  }

  /** The blocks of a fan-out, one per task in task order. */
  function ResearchBlocks(sends: seq<ResearchSend>, outcome: nat -> SearchOutcome): (r: seq<string>)
    ensures |r| == |sends|
    ensures forall i :: 0 <= i < |sends| ==> r[i] == ResearchBlockText(sends[i].arg, outcome(i))
  {
    seq(|sends|, i requires 0 <= i < |sends| => ResearchBlockText(sends[i].arg, outcome(i)))
  }

  /** The result list of the join grows by exactly one block per task, in task order. */
  lemma ResearchResultsJoin(s: OverallState, sends: seq<ResearchSend>, outcome: nat -> SearchOutcome)
    ensures Fold(s, ResearcherUpdates(sends, outcome)).parallelResearchResults
         == s.parallelResearchResults + ResearchBlocks(sends, outcome)
  {
    var us := ResearcherUpdates(sends, outcome);
    ProjectionsDistribute();
    FoldGather(s, us, ResultsOf);
    GatherSingletons(us, ResultsOf, ResearchBlocks(sends, outcome));
  }

  /** The source list of the join keeps the old sources and grows by the sum of the tasks' source counts. */
  lemma ResearchSourcesJoin(s: OverallState, sends: seq<ResearchSend>, outcome: nat -> SearchOutcome)
    ensures |Fold(s, ResearcherUpdates(sends, outcome)).sourcesGathered|
         == |s.sourcesGathered| + Sum(SourceCounts(sends, outcome))
    ensures Fold(s, ResearcherUpdates(sends, outcome)).sourcesGathered[..|s.sourcesGathered|] == s.sourcesGathered
  {
    var us := ResearcherUpdates(sends, outcome);
    ProjectionsDistribute();
    FoldGather(s, us, SourcesOf);
    GatherLengths(us, SourceCounts(sends, outcome));
  }

  /** A researcher's update writes only accumulating channels. */
  lemma ResearcherWritesLists(sends: seq<ResearchSend>, outcome: nat -> SearchOutcome)
    ensures forall i :: 0 <= i < |sends| ==> WritesNoReplaceChannel(ResearcherUpdates(sends, outcome)[i])
  {
  }

  /**
   * The join after `run_parallel_research`: the result list grows by exactly
   * one block per task, in task order, the source list by the sum of the
   * tasks' source counts after the sources already there, and no
   * replace-latest channel changes.
   */
  lemma ResearchJoin(s: OverallState, sends: seq<ResearchSend>, outcome: nat -> SearchOutcome)
    ensures Fold(s, ResearcherUpdates(sends, outcome)).parallelResearchResults
         == s.parallelResearchResults + ResearchBlocks(sends, outcome)
    ensures |Fold(s, ResearcherUpdates(sends, outcome)).sourcesGathered|
         == |s.sourcesGathered| + Sum(SourceCounts(sends, outcome))
    ensures Fold(s, ResearcherUpdates(sends, outcome)).sourcesGathered[..|s.sourcesGathered|] == s.sourcesGathered
    ensures ReplaceChannels(Fold(s, ResearcherUpdates(sends, outcome))) == ReplaceChannels(s)
  {
    ResearchResultsJoin(s, sends, outcome);
    ResearchSourcesJoin(s, sends, outcome);
    ResearcherWritesLists(sends, outcome);
    FoldKeepsReplaceChannels(s, ResearcherUpdates(sends, outcome));
  }

  /** The queries of a fan-out of `web_research` tasks, in task order. */
  function QueriesOf(sends: seq<WebSend>): (r: seq<string>)
    ensures |r| == |sends|
    ensures forall i :: 0 <= i < |sends| ==> r[i] == sends[i].arg.searchQuery
  {
    seq(|sends|, i requires 0 <= i < |sends| => sends[i].arg.searchQuery)
  }

  /** The result texts of a fan-out of `web_research` tasks, in task order. */
  function WebTexts(sends: seq<WebSend>, outcome: int -> SearchOutcome): (r: seq<string>)
    ensures |r| == |sends|
    ensures forall i :: 0 <= i < |sends| ==> r[i] == ModifiedText(outcome(sends[i].arg.id))
  {
    seq(|sends|, i requires 0 <= i < |sends| => ModifiedText(outcome(sends[i].arg.id)))
  }

  /**
   * The join after a `web_research` fan-out: `search_query` grows by the
   * tasks' queries and `web_research_result` by one text per task, both in
   * task order, and no replace-latest channel changes.
   */
  lemma WebJoin(s: OverallState, sends: seq<WebSend>, outcome: int -> SearchOutcome)
    ensures Fold(s, WebUpdates(sends, outcome)).searchQuery == s.searchQuery + QueriesOf(sends)
    ensures Fold(s, WebUpdates(sends, outcome)).webResearchResult
         == s.webResearchResult + WebTexts(sends, outcome)
    ensures ReplaceChannels(Fold(s, WebUpdates(sends, outcome))) == ReplaceChannels(s)
  {
    var us := WebUpdates(sends, outcome);
    ProjectionsDistribute();
    FoldGather(s, us, SearchQueriesOf);
    FoldGather(s, us, WebResultsOf);
    GatherSingletons(us, SearchQueriesOf, QueriesOf(sends));
    GatherSingletons(us, WebResultsOf, WebTexts(sends, outcome));
    FoldKeepsReplaceChannels(s, us);
  }

  lemma PeelFactor(n: nat, k: nat)
    requires n > 0
    ensures n * k == k + (n - 1) * k
  {
  }

  /** `n` counts of `k` each sum to `n * k`. */
  lemma {:induction false} UniformSum(xs: seq<nat>, k: nat)
    requires forall i :: 0 <= i < |xs| ==> xs[i] == k
    ensures Sum(xs) == |xs| * k
    decreases |xs|
  {
    if xs != [] {
      UniformSum(xs[1..], k);
      PeelFactor(|xs|, k);
    }
  }

  /**
   * Three sub-topics whose searches each yield two sources: the join holds
   * three more result blocks and six more sources.
   */
  lemma ThreeTopicsTwoSourcesEach(s: OverallState, outcome: nat -> SearchOutcome)
    requires |SubTopicsOf(s)| == 3
    requires forall i :: 0 <= i < 3 ==> |OutcomeSources(outcome(i))| == 2
    ensures var t := Fold(s, ResearcherUpdates(ParallelSends(s), outcome));
      |t.parallelResearchResults| == |s.parallelResearchResults| + 3
      && |t.sourcesGathered| == |s.sourcesGathered| + 6
  {
    ResearchJoin(s, ParallelSends(s), outcome);
    UniformSum(SourceCounts(ParallelSends(s), outcome), 2);
  }

  /** An empty fan-out contributes nothing: the join leaves the state as it was. */
  lemma EmptyFanOut(s: OverallState, outcome: nat -> SearchOutcome)
    requires SubTopicsOf(s) == []
    ensures ParallelSends(s) == []
    ensures Fold(s, ResearcherUpdates(ParallelSends(s), outcome)) == s
  {
  }
}
