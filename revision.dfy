/**
 * The quality-gated revision loop of the enhanced graph:
 * `critique_agent` -> `evaluate_report_quality` -> (`revise_report` ->
 * `critique_agent`)* -> `final_polish`, with the ceiling `MAX_REVISIONS = 1`
 * checked in the critique, in the router and in the revision step.
 *
 * The language-model calls are not modelled: the critique's assessment and
 * the revised text are inputs.
 */
module Revision {
  import opened Wrappers
  import opened AgentState
  import opened Topology

  /** The revision ceiling, the same constant in all three nodes. */
  const MaxRevisions: int := 1

  /** The structured assessment the critique model returns (`CritiqueAssessment`). */
  datatype CritiqueAssessment = CritiqueAssessment(
    overallQuality: string,
    strengths: seq<string>,
    weaknesses: seq<string>,
    specificSuggestions: seq<string>,
    shouldRevise: bool)

  /** The structured plan the planner model returns (`StructuredResearchPlan`). */
  datatype PlannerResult = PlannerResult(researchQuestion: string, subTopics: seq<SubTopic>, estimatedDepth: string)

  /** The feedback recorded when the ceiling is already reached. */
  const LimitReachedFeedback: string := "品質評価: 修正回数の制限に達したため、現在のレポートで完了します。"

  /** `", ".join(items)`. */
  function CommaJoin(items: seq<string>): string
    decreases |items|
  {
    if items == [] then "" else if |items| == 1 then items[0] else items[0] + ", " + CommaJoin(items[1..])
  }

  /** The feedback text built from an assessment. */
  function FormatCritique(a: CritiqueAssessment): string {
    "品質評価: " + a.overallQuality + "\n\n強み: " + CommaJoin(a.strengths)
    + "\n\n改善点: " + CommaJoin(a.weaknesses) + "\n\n具体的提案: " + CommaJoin(a.specificSuggestions)
  }

  /** `state.get("revision_count", 0)`. */
  function RevisionsSoFar(s: OverallState): int {
    s.revisionCount.GetOr(0)
  }

  /** How many more revisions the loop admits from this state. */
  function Budget(s: OverallState): nat {
    if RevisionsSoFar(s) < MaxRevisions then MaxRevisions - RevisionsSoFar(s) else 0
  }

  /** `enhanced_planner`'s update: the plan, and the revision counter initialised to 0. */
  function PlannerStep(result: PlannerResult, userQuestion: string, now: real): (u: Update)
    ensures u.revisionCount == Some(0)
    ensures u.structuredPlan.Some? && u.structuredPlan.value.subTopics == Some(result.subTopics)
  {
    NoUpdate.(
      structuredPlan := Some(StructuredPlan(result.researchQuestion, Some(result.subTopics), result.estimatedDepth)),
      currentPhase := Some("planning"),
      startTime := Some(now),
      originalQuery := Some(userQuestion),
      effortLevel := Some("comprehensive"),
      revisionCount := Some(0))
  }

  /** `aggregate_research_results`'s update. */
  function AggregateStep(): Update {
    NoUpdate.(currentPhase := Some("researching"))
  }

  /** `synthesizer`'s update: the model's draft. */
  function SynthesizerStep(draft: string): Update {
    NoUpdate.(draftReport := Some(draft), currentPhase := Some("synthesizing"))
  }

  /**
   * `critique_agent`: at or above the ceiling it forces `should_revise` to
   * false whatever the model would say; below it, it passes the model's
   * verdict and suggestions on. It never writes the counter or the draft.
   */
  function CritiqueStep(s: OverallState, a: CritiqueAssessment): (u: Update)
    ensures RevisionsSoFar(s) >= MaxRevisions ==>
      u.shouldRevise == Some(false) && u.revisionSuggestions == Some([])
      && u.currentPhase == Some("critiquing_completed") && u.critiqueFeedback == Some(LimitReachedFeedback)
    ensures RevisionsSoFar(s) < MaxRevisions ==>
      u.shouldRevise == Some(a.shouldRevise) && u.revisionSuggestions == Some(a.specificSuggestions)
      && u.currentPhase == Some("critiquing")
    ensures u.revisionCount.None? && u.draftReport.None?
  {
    var current := RevisionsSoFar(s);
    if current >= MaxRevisions then
      NoUpdate.(
        critiqueFeedback := Some(LimitReachedFeedback),
        shouldRevise := Some(false),
        revisionSuggestions := Some([]),
        currentPhase := Some("critiquing_completed"))
    else
      // the second guard of the source, after the model call
      var shouldRevise := if current >= MaxRevisions then false else a.shouldRevise;
      NoUpdate.(
        critiqueFeedback := Some(FormatCritique(a)),
        shouldRevise := Some(shouldRevise),
        revisionSuggestions := Some(a.specificSuggestions),
        currentPhase := Some("critiquing"))
  }

  /** At the ceiling the critique's update does not depend on the assessment at all. */
  lemma CritiqueIgnoresModelAtCeiling(s: OverallState, a: CritiqueAssessment, b: CritiqueAssessment)
    requires RevisionsSoFar(s) >= MaxRevisions
    ensures CritiqueStep(s, a) == CritiqueStep(s, b)
  {
  }

  /**
   * `evaluate_report_quality`: revise exactly when the critique asked for it
   * and the counter is below the ceiling; a missing counter counts as 0 and a
   * missing verdict as false.
   */
  function EvaluateReportQuality(s: OverallState): (n: Node)
    ensures n == ReviseReport <==> s.shouldRevise.GetOr(false) && RevisionsSoFar(s) < MaxRevisions
    ensures n != ReviseReport <==> n == FinalPolish
    ensures n in ConditionalTargets(Enhanced, CritiqueAgent)
  {
    var current := RevisionsSoFar(s);
    var shouldRevise := s.shouldRevise.GetOr(false);
    if current >= MaxRevisions then FinalPolish
    else if shouldRevise && current < MaxRevisions then ReviseReport
    else FinalPolish
  }

  /**
   * `revise_report`: below the ceiling the model's revision becomes the draft
   * and the counter goes up by exactly one; at or above it the draft and the
   * counter are written back unchanged.
   */
  function ReviseStep(s: OverallState, revised: string): (u: Update)
    ensures RevisionsSoFar(s) < MaxRevisions ==>
      u.draftReport == Some(revised) && u.revisionCount == Some(RevisionsSoFar(s) + 1)
      && u.currentPhase == Some("revising")
    ensures RevisionsSoFar(s) >= MaxRevisions ==>
      u.draftReport == Some(s.draftReport.GetOr("")) && u.revisionCount == Some(RevisionsSoFar(s))
      && u.currentPhase == Some("emergency_stopped")
    ensures u.shouldRevise.None?
  {
    var current := RevisionsSoFar(s);
    if current >= MaxRevisions then
      NoUpdate.(draftReport := Some(s.draftReport.GetOr("")), revisionCount := Some(current),
                currentPhase := Some("emergency_stopped"))
    else
      NoUpdate.(draftReport := Some(revised), revisionCount := Some(current + 1),
                currentPhase := Some("revising"))
  }

  /** `final_polish`'s update: the draft with its footer becomes the final report and a message. */
  function FinalPolishStep(s: OverallState, footer: string): (u: Update)
    ensures u.finalReport == Some(s.draftReport.GetOr("") + footer)
    ensures u.messages == [Message(s.draftReport.GetOr("") + footer)]
  {
    var text := s.draftReport.GetOr("") + footer;
    NoUpdate.(messages := [Message(text)], finalReport := Some(text), currentPhase := Some("completed"))
  }

  /** Each guard on its own stops the loop at the ceiling. */
  lemma GuardsAreIndependent(s: OverallState, a: CritiqueAssessment, revised: string)
    requires RevisionsSoFar(s) >= MaxRevisions
    // the router alone: whatever `should_revise` says
    ensures EvaluateReportQuality(s) == FinalPolish
    // the critique alone: a router that only read `should_revise` would stop too
    ensures !Merge(s, CritiqueStep(s, a)).shouldRevise.GetOr(false)
    // the revision step alone: it does not move the counter
    ensures RevisionsSoFar(Merge(s, ReviseStep(s, revised))) == RevisionsSoFar(s)
  {
  }

  /** The channels of `CritiqueState`, the input schema `evaluate_report_quality` is declared with. */
  function CritiqueView(s: OverallState): OverallState {
    NoUpdate.(draftReport := s.draftReport, critiqueFeedback := s.critiqueFeedback,
              shouldRevise := s.shouldRevise, revisionSuggestions := s.revisionSuggestions)
  }

  /**
   * Right after a critique the router decides the same on the whole state as
   * on the `CritiqueState` channels alone, where `revision_count` is absent:
   * the critique's own guard already makes `should_revise` false at the ceiling.
   */
  lemma RouterViewAgrees(s: OverallState, a: CritiqueAssessment)
    ensures var t := Merge(s, CritiqueStep(s, a));
      EvaluateReportQuality(CritiqueView(t)) == EvaluateReportQuality(t)
  {
  }

  /** What one pass through the loop produced. */
  datatype LoopRun = LoopRun(final: OverallState, critiques: nat, revisions: nat, trace: seq<Node>)

  /**
   * The loop from `critique_agent` until the router picks `final_polish`.
   * `critic(k)` is the assessment of the k-th critique call and `reviser(k)`
   * the text of the k-th revision; `trace` lists the nodes run, ending with
   * `final_polish`.
   */
  function RunFromCritique(s: OverallState, critic: nat -> CritiqueAssessment, reviser: nat -> string,
                           critiques: nat, revisions: nat): LoopRun
    decreases Budget(s), 1
  {
    var s1 := Merge(s, CritiqueStep(s, critic(critiques)));
    if EvaluateReportQuality(s1) == FinalPolish then
      LoopRun(s1, critiques + 1, revisions, [CritiqueAgent, FinalPolish])
    else
      var r := RunFromRevise(s1, critic, reviser, critiques + 1, revisions);
      r.(trace := [CritiqueAgent] + r.trace)
  }

  function RunFromRevise(s: OverallState, critic: nat -> CritiqueAssessment, reviser: nat -> string,
                         critiques: nat, revisions: nat): LoopRun
    requires RevisionsSoFar(s) < MaxRevisions
    decreases Budget(s), 0
  {
    var s1 := Merge(s, ReviseStep(s, reviser(revisions)));
    var r := RunFromCritique(s1, critic, reviser, critiques, revisions + 1);
    r.(trace := [ReviseReport] + r.trace)
  }

  /** `trace` starts at `first`, follows the enhanced edges and reaches `final_polish` only at its end. */
  predicate LoopTrace(trace: seq<Node>, first: Node) {
    && |trace| >= 2 && trace[0] == first && trace[|trace| - 1] == FinalPolish
    && IsPath(Enhanced, trace)
    && (forall i :: 0 <= i < |trace| - 1 ==> trace[i] != FinalPolish)
  }

  /** A critique in front of a trace that starts with a revision. */
  lemma CritiqueThenTrace(t: seq<Node>)
    requires LoopTrace(t, ReviseReport)
    ensures LoopTrace([CritiqueAgent] + t, CritiqueAgent)
  {
    var u := [CritiqueAgent] + t;
    forall i | 0 <= i < |u| - 1 ensures Edge(Enhanced, u[i], u[i + 1]) {
      if i > 0 {
        assert u[i] == t[i - 1] && u[i + 1] == t[i];
      }
    }
    forall i | 0 <= i < |u| - 1 ensures u[i] != FinalPolish {
      if i > 0 {
        assert u[i] == t[i - 1];
      }
    }
  }

  /** A revision in front of a trace that starts with a critique. */
  lemma ReviseThenTrace(t: seq<Node>)
    requires LoopTrace(t, CritiqueAgent)
    ensures LoopTrace([ReviseReport] + t, ReviseReport)
  {
    var u := [ReviseReport] + t;
    forall i | 0 <= i < |u| - 1 ensures Edge(Enhanced, u[i], u[i + 1]) {
      if i > 0 {
        assert u[i] == t[i - 1] && u[i + 1] == t[i];
      }
    }
    forall i | 0 <= i < |u| - 1 ensures u[i] != FinalPolish {
      if i > 0 {
        assert u[i] == t[i - 1];
      }
    }
  }

  /** A critique leaves the counter alone; a revision below the ceiling raises it and uses up one unit of budget. */
  lemma CounterSteps(s: OverallState, a: CritiqueAssessment, revised: string)
    ensures RevisionsSoFar(Merge(s, CritiqueStep(s, a))) == RevisionsSoFar(s)
    ensures RevisionsSoFar(s) < MaxRevisions ==>
      && RevisionsSoFar(Merge(s, ReviseStep(s, revised))) == RevisionsSoFar(s) + 1
      && Budget(Merge(s, ReviseStep(s, revised))) == Budget(s) - 1
  {
  }

  /**
   * The loop terminates with revisions bounded by the budget, one more
   * critique than revisions, a trace that runs `final_polish` exactly once,
   * and a final state the router sends to `final_polish`.
   */
  lemma {:induction false} LoopBounded(s: OverallState, critic: nat -> CritiqueAssessment, reviser: nat -> string,
                                       critiques: nat, revisions: nat)
    ensures var r := RunFromCritique(s, critic, reviser, critiques, revisions);
      && r.revisions - revisions <= Budget(s)
      && r.critiques - critiques == r.revisions - revisions + 1
      && LoopTrace(r.trace, CritiqueAgent)
      && EvaluateReportQuality(r.final) == FinalPolish
    decreases Budget(s), 1
  {
    var s1 := Merge(s, CritiqueStep(s, critic(critiques)));
    CounterSteps(s, critic(critiques), "");
    if EvaluateReportQuality(s1) != FinalPolish {
      LoopBoundedFromRevise(s1, critic, reviser, critiques + 1, revisions);
      CritiqueThenTrace(RunFromRevise(s1, critic, reviser, critiques + 1, revisions).trace);
    }
  }

  lemma {:induction false} LoopBoundedFromRevise(s: OverallState, critic: nat -> CritiqueAssessment, reviser: nat -> string,
                                                 critiques: nat, revisions: nat)
    requires RevisionsSoFar(s) < MaxRevisions
    ensures var r := RunFromRevise(s, critic, reviser, critiques, revisions);
      && r.revisions - revisions <= Budget(s)
      && r.critiques - critiques == r.revisions - revisions
      && LoopTrace(r.trace, ReviseReport)
      && EvaluateReportQuality(r.final) == FinalPolish
    decreases Budget(s), 0
  {
    var s1 := Merge(s, ReviseStep(s, reviser(revisions)));
    CounterSteps(s, critic(0), reviser(revisions));
    LoopBounded(s1, critic, reviser, critiques, revisions + 1);
    ReviseThenTrace(RunFromCritique(s1, critic, reviser, critiques, revisions + 1).trace);
  }

  /**
   * Started with the counter at 0 (as `enhanced_planner` leaves it) the loop
   * revises at most once and critiques at most twice.
   */
  lemma AtMostOneRevision(s: OverallState, critic: nat -> CritiqueAssessment, reviser: nat -> string)
    requires s.revisionCount == Some(0)
    ensures var r := RunFromCritique(s, critic, reviser, 0, 0);
      r.revisions <= 1 && r.critiques == r.revisions + 1 && LoopTrace(r.trace, CritiqueAgent)
  {
    LoopBounded(s, critic, reviser, 0, 0);
  }

  /**
   * A critique that always asks for a revision: exactly two critiques and one
   * revision, the counter ends at 1, and the second critique's verdict is
   * forced to false.
   */
  lemma AlwaysReviseRunsTwice(s: OverallState, critic: nat -> CritiqueAssessment, reviser: nat -> string)
    requires s.revisionCount == Some(0)
    requires forall k :: critic(k).shouldRevise
    ensures var r := RunFromCritique(s, critic, reviser, 0, 0);
      && r.critiques == 2 && r.revisions == 1
      && r.trace == [CritiqueAgent, ReviseReport, CritiqueAgent, FinalPolish]
      && r.final.revisionCount == Some(1)
      && r.final.shouldRevise == Some(false)
      && r.final.draftReport == Some(reviser(0))
  {
    var s1 := Merge(s, CritiqueStep(s, critic(0)));
    assert EvaluateReportQuality(s1) == ReviseReport;
    var s2 := Merge(s1, ReviseStep(s1, reviser(0)));
    assert RevisionsSoFar(s2) == 1;
    var s3 := Merge(s2, CritiqueStep(s2, critic(1)));
    assert EvaluateReportQuality(s3) == FinalPolish;
    var last := RunFromCritique(s2, critic, reviser, 1, 1);
    assert last == LoopRun(s3, 2, 1, [CritiqueAgent, FinalPolish]);
    var mid := RunFromRevise(s1, critic, reviser, 1, 0);
    assert mid == last.(trace := [ReviseReport] + last.trace);
    assert RunFromCritique(s, critic, reviser, 0, 0) == mid.(trace := [CritiqueAgent] + mid.trace);
  }
}
