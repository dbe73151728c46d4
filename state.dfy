/**
 * The graph state of the research agent and the per-channel merge rules
 * (reducers) LangGraph applies when a node's returned partial update is folded
 * into it.
 *
 * A channel declared `Annotated[list, operator.add]` (or `add_messages`)
 * accumulates: an update's list is appended after the current one. Every other
 * channel is replace-latest: a value present in the update overwrites the
 * current one, and an absent key leaves it as it is.
 *
 * One record type serves for the state and for an update: an update is a
 * partial state in which an accumulating channel holds the list to append
 * (`[]` when the node does not write it) and a replace-latest channel holds
 * `None` when the node does not write it.
 */
module AgentState {
  import opened Wrappers

  /** A citation segment as the grounding helpers produce it. */
  datatype Source = Source(labelText: string, shortUrl: string, value: string)

  /** One sub-topic of a structured plan (`SubTopic`). */
  datatype SubTopic = SubTopic(topicName: string, searchQueries: seq<string>)

  /** The `structured_plan` dictionary; `subTopics` is `None` when the key is missing. */
  datatype StructuredPlan = StructuredPlan(
    researchQuestion: string,
    subTopics: Option<seq<SubTopic>>,
    estimatedDepth: string)

  /** The `research_plan` dictionary of the simple graph. */
  datatype ResearchPlan = ResearchPlan(sections: seq<string>, rationale: string)

  /** The six keys of an academic paper framework (`AcademicFrameworkState`). */
  datatype Section = Introduction | Objective | Methods | Results | Discussion | Conclusion {
    /** The dictionary key the source uses for this section. */
    function Key(): string {
      match this
      case Introduction => "introduction"
      case Objective => "objective"
      case Methods => "methods"
      case Results => "results"
      case Discussion => "discussion"
      case Conclusion => "conclusion"
    }
  }

  datatype AcademicBackground = AcademicBackground(background: string, objective: string, researchFramework: string)

  datatype LiteratureResearch = LiteratureResearch(
    factualFindings: seq<string>, officialData: seq<string>,
    reliableSources: seq<string>, sourceUrls: seq<string>)

  datatype AcademicReview = AcademicReview(
    overallAssessment: string, specificImprovements: seq<string>,
    speculationIssues: seq<string>, revisionNeeded: bool,
    revisionInstructions: seq<string>)

  /** A chat message; only its text content matters here. */
  datatype Message = Message(content: string)

  /**
   * The channels of the graph state: the fields of `OverallState`, plus the
   * keys of `CritiqueState` and `ReflectionState` that LangGraph registers
   * because the routers `evaluate_report_quality` and `evaluate_research`
   * take those types.
   */
  datatype OverallState = OverallState(
    // accumulating channels
    messages: seq<Message>,
    searchQuery: seq<string>,
    webResearchResult: seq<string>,
    sourcesGathered: seq<Source>,
    parallelResearchResults: seq<string>,
    followUpQueries: seq<string>,
    // replace-latest channels of OverallState
    initialSearchQueryCount: Option<int>,
    maxResearchLoops: Option<int>,
    researchLoopCount: Option<int>,
    reasoningModel: Option<string>,
    researchPlan: Option<ResearchPlan>,
    planApproved: Option<bool>,
    startTime: Option<real>,
    effortLevel: Option<string>,
    originalQuery: Option<string>,
    structuredPlan: Option<StructuredPlan>,
    draftReport: Option<string>,
    critiqueFeedback: Option<string>,
    finalReport: Option<string>,
    revisionCount: Option<int>,
    currentPhase: Option<string>,
    academicBackground: Option<AcademicBackground>,
    academicFramework: Option<map<Section, string>>,
    academicAbstract: Option<string>,
    literatureResearch: Option<LiteratureResearch>,
    academicDraft: Option<string>,
    academicReview: Option<AcademicReview>,
    // replace-latest channels of CritiqueState
    shouldRevise: Option<bool>,
    revisionSuggestions: Option<seq<string>>,
    // replace-latest channels of ReflectionState
    isSufficient: Option<bool>,
    knowledgeGap: Option<string>,
    numberOfRanQueries: Option<int>)

  /** A node's returned partial update has the same shape as the state. */
  type Update = OverallState

  /** The update that writes no channel; also the state before any node ran. */
  const NoUpdate: Update := OverallState(
    [], [], [], [], [], [],
    None, None, None, None, None, None, None, None, None, None,
    None, None, None, None, None, None, None, None, None, None, None,
    None, None, None, None, None)

  /** The replace-latest reducer. */
  function Latest<T>(current: Option<T>, incoming: Option<T>): Option<T> {
    if incoming.Some? then incoming else current
  }

  /** Folds one partial update into the state, channel by channel. */
  function Merge(s: OverallState, u: Update): OverallState {
    OverallState(
      s.messages + u.messages,
      s.searchQuery + u.searchQuery,
      s.webResearchResult + u.webResearchResult,
      s.sourcesGathered + u.sourcesGathered,
      s.parallelResearchResults + u.parallelResearchResults,
      s.followUpQueries + u.followUpQueries,
      Latest(s.initialSearchQueryCount, u.initialSearchQueryCount),
      Latest(s.maxResearchLoops, u.maxResearchLoops),
      Latest(s.researchLoopCount, u.researchLoopCount),
      Latest(s.reasoningModel, u.reasoningModel),
      Latest(s.researchPlan, u.researchPlan),
      Latest(s.planApproved, u.planApproved),
      Latest(s.startTime, u.startTime),
      Latest(s.effortLevel, u.effortLevel),
      Latest(s.originalQuery, u.originalQuery),
      Latest(s.structuredPlan, u.structuredPlan),
      Latest(s.draftReport, u.draftReport),
      Latest(s.critiqueFeedback, u.critiqueFeedback),
      Latest(s.finalReport, u.finalReport),
      Latest(s.revisionCount, u.revisionCount),
      Latest(s.currentPhase, u.currentPhase),
      Latest(s.academicBackground, u.academicBackground),
      Latest(s.academicFramework, u.academicFramework),
      Latest(s.academicAbstract, u.academicAbstract),
      Latest(s.literatureResearch, u.literatureResearch),
      Latest(s.academicDraft, u.academicDraft),
      Latest(s.academicReview, u.academicReview),
      Latest(s.shouldRevise, u.shouldRevise),
      Latest(s.revisionSuggestions, u.revisionSuggestions),
      Latest(s.isSufficient, u.isSufficient),
      Latest(s.knowledgeGap, u.knowledgeGap),
      Latest(s.numberOfRanQueries, u.numberOfRanQueries))
  }

  /** Folds a sequence of updates (the deltas of a join, in task-id order) into the state. */
  function Fold(s: OverallState, us: seq<Update>): OverallState
    decreases |us|
  {
    if us == [] then s else Fold(Merge(s, us[0]), us[1..])
  }

  /** The concatenation of one list-valued projection over a sequence of updates. */
  function Gather<T>(us: seq<Update>, f: Update -> seq<T>): seq<T>
    decreases |us|
  {
    if us == [] then [] else f(us[0]) + Gather(us[1..], f)
  }

  /** A replace-latest channel keeps its value across an update that does not write it. */
  predicate WritesNoReplaceChannel(u: Update) {
    u.initialSearchQueryCount.None? && u.maxResearchLoops.None? && u.researchLoopCount.None?
    && u.reasoningModel.None? && u.researchPlan.None? && u.planApproved.None?
    && u.startTime.None? && u.effortLevel.None? && u.originalQuery.None?
    && u.structuredPlan.None? && u.draftReport.None? && u.critiqueFeedback.None?
    && u.finalReport.None? && u.revisionCount.None? && u.currentPhase.None?
    && u.academicBackground.None? && u.academicFramework.None? && u.academicAbstract.None?
    && u.literatureResearch.None? && u.academicDraft.None? && u.academicReview.None?
    && u.shouldRevise.None? && u.revisionSuggestions.None? && u.isSufficient.None?
    && u.knowledgeGap.None? && u.numberOfRanQueries.None?
  }

  /** The replace-latest part of the state: everything but the six lists. */
  function ReplaceChannels(s: OverallState): OverallState {
    s.(messages := [], searchQuery := [], webResearchResult := [], sourcesGathered := [],
       parallelResearchResults := [], followUpQueries := [])
  }

  /** Merging is a monoid action: updates compose, and `NoUpdate` is neutral on both sides. */
  lemma MergeAssociative(s: OverallState, a: Update, b: Update)
    ensures Merge(Merge(s, a), b) == Merge(s, Merge(a, b))
  {
    assert (s.messages + a.messages) + b.messages == s.messages + (a.messages + b.messages);
    assert (s.searchQuery + a.searchQuery) + b.searchQuery == s.searchQuery + (a.searchQuery + b.searchQuery);
    assert (s.webResearchResult + a.webResearchResult) + b.webResearchResult
        == s.webResearchResult + (a.webResearchResult + b.webResearchResult);
    assert (s.sourcesGathered + a.sourcesGathered) + b.sourcesGathered
        == s.sourcesGathered + (a.sourcesGathered + b.sourcesGathered);
    assert (s.parallelResearchResults + a.parallelResearchResults) + b.parallelResearchResults
        == s.parallelResearchResults + (a.parallelResearchResults + b.parallelResearchResults);
    assert (s.followUpQueries + a.followUpQueries) + b.followUpQueries
        == s.followUpQueries + (a.followUpQueries + b.followUpQueries);
  }

  lemma MergeNeutral(s: OverallState)
    ensures Merge(s, NoUpdate) == s
    ensures Merge(NoUpdate, s) == s
  {
  }

  /**
   * Accumulating channels concatenate the incoming list after the existing
   * one; a replace-latest channel present in the update takes its value; an
   * absent one is unchanged.
   */
  lemma MergePolicies(s: OverallState, u: Update)
    ensures Merge(s, u).messages == s.messages + u.messages
    ensures Merge(s, u).searchQuery == s.searchQuery + u.searchQuery
    ensures Merge(s, u).webResearchResult == s.webResearchResult + u.webResearchResult
    ensures Merge(s, u).sourcesGathered == s.sourcesGathered + u.sourcesGathered
    ensures Merge(s, u).parallelResearchResults == s.parallelResearchResults + u.parallelResearchResults
    ensures Merge(s, u).followUpQueries == s.followUpQueries + u.followUpQueries
    ensures Merge(s, u).initialSearchQueryCount == if u.initialSearchQueryCount.Some? then u.initialSearchQueryCount else s.initialSearchQueryCount
    ensures Merge(s, u).maxResearchLoops == if u.maxResearchLoops.Some? then u.maxResearchLoops else s.maxResearchLoops
    ensures Merge(s, u).researchLoopCount == if u.researchLoopCount.Some? then u.researchLoopCount else s.researchLoopCount
    ensures Merge(s, u).reasoningModel == if u.reasoningModel.Some? then u.reasoningModel else s.reasoningModel
    ensures Merge(s, u).researchPlan == if u.researchPlan.Some? then u.researchPlan else s.researchPlan
    ensures Merge(s, u).planApproved == if u.planApproved.Some? then u.planApproved else s.planApproved
    ensures Merge(s, u).startTime == if u.startTime.Some? then u.startTime else s.startTime
    ensures Merge(s, u).effortLevel == if u.effortLevel.Some? then u.effortLevel else s.effortLevel
    ensures Merge(s, u).originalQuery == if u.originalQuery.Some? then u.originalQuery else s.originalQuery
    ensures Merge(s, u).structuredPlan == if u.structuredPlan.Some? then u.structuredPlan else s.structuredPlan
    ensures Merge(s, u).draftReport == if u.draftReport.Some? then u.draftReport else s.draftReport
    ensures Merge(s, u).critiqueFeedback == if u.critiqueFeedback.Some? then u.critiqueFeedback else s.critiqueFeedback
    ensures Merge(s, u).finalReport == if u.finalReport.Some? then u.finalReport else s.finalReport
    ensures Merge(s, u).revisionCount == if u.revisionCount.Some? then u.revisionCount else s.revisionCount
    ensures Merge(s, u).currentPhase == if u.currentPhase.Some? then u.currentPhase else s.currentPhase
    ensures Merge(s, u).academicBackground == if u.academicBackground.Some? then u.academicBackground else s.academicBackground
    ensures Merge(s, u).academicFramework == if u.academicFramework.Some? then u.academicFramework else s.academicFramework
    ensures Merge(s, u).academicAbstract == if u.academicAbstract.Some? then u.academicAbstract else s.academicAbstract
    ensures Merge(s, u).literatureResearch == if u.literatureResearch.Some? then u.literatureResearch else s.literatureResearch
    ensures Merge(s, u).academicDraft == if u.academicDraft.Some? then u.academicDraft else s.academicDraft
    ensures Merge(s, u).academicReview == if u.academicReview.Some? then u.academicReview else s.academicReview
    ensures Merge(s, u).shouldRevise == if u.shouldRevise.Some? then u.shouldRevise else s.shouldRevise
    ensures Merge(s, u).revisionSuggestions == if u.revisionSuggestions.Some? then u.revisionSuggestions else s.revisionSuggestions
    ensures Merge(s, u).isSufficient == if u.isSufficient.Some? then u.isSufficient else s.isSufficient
    ensures Merge(s, u).knowledgeGap == if u.knowledgeGap.Some? then u.knowledgeGap else s.knowledgeGap
    ensures Merge(s, u).numberOfRanQueries == if u.numberOfRanQueries.Some? then u.numberOfRanQueries else s.numberOfRanQueries
    ensures WritesNoReplaceChannel(u) ==> ReplaceChannels(Merge(s, u)) == ReplaceChannels(s)
  {
  }

  /** Folding a concatenation of update batches is folding one batch after the other. */
  lemma {:induction false} FoldAppend(s: OverallState, xs: seq<Update>, ys: seq<Update>)
    ensures Fold(s, xs + ys) == Fold(Fold(s, xs), ys)
    decreases |xs|
  {
    if xs != [] {
      assert (xs + ys)[1..] == xs[1..] + ys;
      FoldAppend(Merge(s, xs[0]), xs[1..], ys);
    } else {
      assert xs + ys == ys;
    }
  }

  /**
   * Joining `[a, b]` and then `[c]` gives the same state as joining `[a]` and
   * then `[b, c]`: batch boundaries do not matter, only the task-id order.
   */
  lemma RegroupJoins(s: OverallState, a: Update, b: Update, c: Update)
    ensures Fold(Fold(s, [a, b]), [c]) == Fold(Fold(s, [a]), [b, c])
  {
    FoldAppend(s, [a, b], [c]);
    FoldAppend(s, [a], [b, c]);
    assert [a, b] + [c] == [a] + [b, c];
  }

  /** A fold is one merge with the composition of its updates. */
  lemma {:induction false} FoldIsMergeOfComposition(s: OverallState, us: seq<Update>)
    ensures Fold(s, us) == Merge(s, Fold(NoUpdate, us))
    decreases |us|
  {
    if us == [] {
      MergeNeutral(s);
    } else {
      FoldIsMergeOfComposition(Merge(s, us[0]), us[1..]);
      FoldIsMergeOfComposition(us[0], us[1..]);
      MergeNeutral(us[0]);
      MergeAssociative(s, us[0], Fold(NoUpdate, us[1..]));
    }
  }

  /** The accumulating channels, one projection each. */
  function MessagesOf(u: Update): seq<Message> { u.messages }
  function SearchQueriesOf(u: Update): seq<string> { u.searchQuery }
  function WebResultsOf(u: Update): seq<string> { u.webResearchResult }
  function SourcesOf(u: Update): seq<Source> { u.sourcesGathered }
  function ResultsOf(u: Update): seq<string> { u.parallelResearchResults }
  function FollowUpsOf(u: Update): seq<string> { u.followUpQueries }

  /** A fold concatenates the lists of any channel whose reducer is concatenation. */
  lemma {:induction false} FoldGather<T>(s: OverallState, us: seq<Update>, f: Update -> seq<T>)
    requires forall a, b :: f(Merge(a, b)) == f(a) + f(b)
    ensures f(Fold(s, us)) == f(s) + Gather(us, f)
    decreases |us|
  {
    if us != [] {
      FoldGather(Merge(s, us[0]), us[1..], f);
      assert f(s) + f(us[0]) + Gather(us[1..], f) == f(s) + Gather(us, f);
    }
  }

  /** Each accumulating channel's projection turns merging into concatenation. */
  lemma ProjectionsDistribute()
    ensures forall a, b :: MessagesOf(Merge(a, b)) == MessagesOf(a) + MessagesOf(b)
    ensures forall a, b :: SearchQueriesOf(Merge(a, b)) == SearchQueriesOf(a) + SearchQueriesOf(b)
    ensures forall a, b :: WebResultsOf(Merge(a, b)) == WebResultsOf(a) + WebResultsOf(b)
    ensures forall a, b :: SourcesOf(Merge(a, b)) == SourcesOf(a) + SourcesOf(b)
    ensures forall a, b :: ResultsOf(Merge(a, b)) == ResultsOf(a) + ResultsOf(b)
    ensures forall a, b :: FollowUpsOf(Merge(a, b)) == FollowUpsOf(a) + FollowUpsOf(b)
  {
  }

  /**
   * After a join every accumulating channel holds its old list followed by the
   * tasks' lists in task order.
   */
  lemma FoldAccumulates(s: OverallState, us: seq<Update>)
    ensures Fold(s, us).messages == s.messages + Gather(us, MessagesOf)
    ensures Fold(s, us).searchQuery == s.searchQuery + Gather(us, SearchQueriesOf)
    ensures Fold(s, us).webResearchResult == s.webResearchResult + Gather(us, WebResultsOf)
    ensures Fold(s, us).sourcesGathered == s.sourcesGathered + Gather(us, SourcesOf)
    ensures Fold(s, us).parallelResearchResults
         == s.parallelResearchResults + Gather(us, ResultsOf)
    ensures Fold(s, us).followUpQueries == s.followUpQueries + Gather(us, FollowUpsOf)
  {
    ProjectionsDistribute();
    FoldGather(s, us, MessagesOf);
    FoldGather(s, us, SearchQueriesOf);
    FoldGather(s, us, WebResultsOf);
    FoldGather(s, us, SourcesOf);
    FoldGather(s, us, ResultsOf);
    FoldGather(s, us, FollowUpsOf);
  }

  /** A join of updates that write no replace-latest channel leaves every such channel unchanged. */
  lemma {:induction false} FoldKeepsReplaceChannels(s: OverallState, us: seq<Update>)
    requires forall i :: 0 <= i < |us| ==> WritesNoReplaceChannel(us[i])
    ensures ReplaceChannels(Fold(s, us)) == ReplaceChannels(s)
    decreases |us|
  {
    if us != [] {
      FoldKeepsReplaceChannels(Merge(s, us[0]), us[1..]);
    }
  }
}
