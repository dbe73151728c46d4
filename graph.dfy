/**
 * Whole runs of the two compiled graphs, node by node, with the
 * language-model answers and search outcomes as inputs: the enhanced
 * planner/research/critique graph and the simple search-and-reflect graph.
 */
module Runs {
  import opened Wrappers
  import opened AgentState
  import opened Topology
  import opened FanOut
  import opened Revision
  import opened SearchLoop
  import opened Citations

  /** How a run ended: at `END`, or after a fan-out of zero tasks with nothing left to schedule. */
  datatype RunEnd = AtEnd | NoTasks | Raised

  /** A whole run of the enhanced graph. */
  datatype EnhancedRun = EnhancedRun(end: RunEnd, final: OverallState, trace: seq<Node>, critiques: nat, revisions: nat)

  /**
   * The enhanced graph: planner, one `focused_researcher` task per sub-topic
   * joined in task order, aggregation, synthesis, the critique loop and the
   * final polish.
   */
  function RunEnhanced(initial: OverallState, plan: PlannerResult, question: string, now: real,
                       outcome: nat -> SearchOutcome, draft: string,
                       critic: nat -> CritiqueAssessment, reviser: nat -> string, footer: string): EnhancedRun
  {
    var s1 := Merge(initial, PlannerStep(plan, question, now));
    var sends := ParallelSends(s1);
    if sends == [] then EnhancedRun(NoTasks, s1, [Start, EnhancedPlanner], 0, 0)
    else
      var s2 := Fold(s1, ResearcherUpdates(sends, outcome));
      var s3 := Merge(Merge(s2, AggregateStep()), SynthesizerStep(draft));
      var loop := RunFromCritique(s3, critic, reviser, 0, 0);
      var s4 := Merge(loop.final, FinalPolishStep(loop.final, footer));
      EnhancedRun(AtEnd, s4,
                  EnhancedHead + loop.trace + [End],
                  loop.critiques, loop.revisions)
  }

  /** The trace follows the graph's edges from `START` to `END` and runs `n` exactly once. */
  predicate CompleteTrace(g: Graph, trace: seq<Node>, n: Node) {
    && |trace| >= 2 && trace[0] == Start && trace[|trace| - 1] == End && IsPath(g, trace)
    && (exists k :: 0 <= k < |trace| && trace[k] == n && forall j :: 0 <= j < |trace| && j != k ==> trace[j] != n)
  }

  /** The nodes before the critique loop. */
  const EnhancedHead: seq<Node> := [Start, EnhancedPlanner, FocusedResearcher, AggregateResearchResults, Synthesizer]

  /** A critique-loop trace completes the enhanced graph's trace. */
  lemma EnhancedTrace(loop: seq<Node>)
    requires LoopTrace(loop, CritiqueAgent)
    ensures CompleteTrace(Enhanced, EnhancedHead + loop + [End], FinalPolish)
  {
    var trace := EnhancedHead + loop + [End];
    var k := 5 + |loop| - 1;
    forall i | 0 <= i < |trace| - 1 ensures Edge(Enhanced, trace[i], trace[i + 1]) {
      if i < 4 {
        assert trace[i] == EnhancedHead[i] && trace[i + 1] == EnhancedHead[i + 1];
      } else if i == 4 {
        assert trace[i] == Synthesizer && trace[i + 1] == loop[0];
      } else if i < k {
        assert trace[i] == loop[i - 5] && trace[i + 1] == loop[i - 4];
      } else {
        assert trace[i] == loop[|loop| - 1] && trace[i + 1] == End;
      }
    }
    assert trace[k] == FinalPolish;
    forall j | 0 <= j < |trace| && j != k ensures trace[j] != FinalPolish {
      if 5 <= j < k {
        assert trace[j] == loop[j - 5];
      }
    }
  }

  /** The state the critique loop starts from: the planner's counter of 0 survives the join, aggregation and synthesis. */
  lemma CounterReachesCritique(initial: OverallState, plan: PlannerResult, question: string, now: real,
                               outcome: nat -> SearchOutcome, draft: string)
    ensures var s1 := Merge(initial, PlannerStep(plan, question, now));
      && SubTopicsOf(s1) == plan.subTopics
      && Merge(Merge(Fold(s1, ResearcherUpdates(ParallelSends(s1), outcome)), AggregateStep()), SynthesizerStep(draft))
           .revisionCount == Some(0)
  {
    var s1 := Merge(initial, PlannerStep(plan, question, now));
    var s2 := Fold(s1, ResearcherUpdates(ParallelSends(s1), outcome));
    ResearchJoin(s1, ParallelSends(s1), outcome);
    assert s2.revisionCount == s1.revisionCount by {
      assert ReplaceChannels(s2) == ReplaceChannels(s1);
    }
  }

  /**
   * However the models answer, the enhanced graph either stalls right after
   * a plan without sub-topics, or reaches `END` through `final_polish` exactly
   * once, with at most one revision and one critique more than revisions.
   */
  lemma EnhancedBounded(initial: OverallState, plan: PlannerResult, question: string, now: real,
                        outcome: nat -> SearchOutcome, draft: string,
                        critic: nat -> CritiqueAssessment, reviser: nat -> string, footer: string)
    ensures var r := RunEnhanced(initial, plan, question, now, outcome, draft, critic, reviser, footer);
      && (r.end == NoTasks <==> plan.subTopics == [])
      && r.end != Raised
      && (r.end == AtEnd ==>
            && r.revisions <= 1 && r.critiques == r.revisions + 1
            && CompleteTrace(Enhanced, r.trace, FinalPolish)
            && r.final.finalReport.Some?)
  {
    var s1 := Merge(initial, PlannerStep(plan, question, now));
    var sends := ParallelSends(s1);
    CounterReachesCritique(initial, plan, question, now, outcome, draft);
    if sends != [] {
      var s3 := Merge(Merge(Fold(s1, ResearcherUpdates(sends, outcome)), AggregateStep()), SynthesizerStep(draft));
      AtMostOneRevision(s3, critic, reviser);
      EnhancedTrace(RunFromCritique(s3, critic, reviser, 0, 0).trace);
    }
  }

  /** A critique that always asks for a revision still gives two critiques and one revision. */
  lemma EnhancedAlwaysRevise(initial: OverallState, plan: PlannerResult, question: string, now: real,
                             outcome: nat -> SearchOutcome, draft: string,
                             critic: nat -> CritiqueAssessment, reviser: nat -> string, footer: string)
    requires plan.subTopics != []
    requires forall k :: critic(k).shouldRevise
    ensures var r := RunEnhanced(initial, plan, question, now, outcome, draft, critic, reviser, footer);
      && r.end == AtEnd && r.critiques == 2 && r.revisions == 1
      && r.trace == [Start, EnhancedPlanner, FocusedResearcher, AggregateResearchResults, Synthesizer,
                     CritiqueAgent, ReviseReport, CritiqueAgent, FinalPolish, End]
  {
    var s1 := Merge(initial, PlannerStep(plan, question, now));
    CounterReachesCritique(initial, plan, question, now, outcome, draft);
    var s3 := Merge(Merge(Fold(s1, ResearcherUpdates(ParallelSends(s1), outcome)), AggregateStep()), SynthesizerStep(draft));
    AlwaysReviseRunsTwice(s3, critic, reviser);
  }

  /** `create_research_plan`'s update. */
  function CreatePlanStep(plan: ResearchPlan, question: string, now: real): Update {
    NoUpdate.(researchPlan := Some(plan), planApproved := Some(true), startTime := Some(now),
              originalQuery := Some(question), effortLevel := Some("medium"))
  }

  /** A whole run of the simple graph. */
  datatype SimpleRun = SimpleRun(end: RunEnd, final: OverallState, trace: seq<Node>, passes: nat)

  /** `n` rounds of `web_research` followed by `reflection`. */
  function SearchTrace(n: nat): (t: seq<Node>)
    ensures |t| == 2 * n
    ensures forall i :: 0 <= i < |t| ==> t[i] == if i % 2 == 0 then WebResearch else Node.Reflection
  {
    seq(2 * n, i requires 0 <= i < 2 * n => if i % 2 == 0 then WebResearch else Node.Reflection)
  }

  /** The simple graph: plan, queries, the search loop and the final answer. */
  function RunSimple(initial: OverallState, plan: ResearchPlan, question: string, now: real,
                     queries: seq<string>, configMax: int, reflect: nat -> ReflectionOutput,
                     outcome: int -> SearchOutcome, answer: string): SimpleRun
  {
    var s1 := Merge(initial, CreatePlanStep(plan, question, now));
    var r := SearchFromStart(s1, queries, configMax, reflect, outcome);
    var trace := SimpleHead + SearchTrace(r.passes);
    match r.end
    case Finalized =>
      SimpleRun(AtEnd, Merge(r.final, FinalizeStep(r.final, answer)), trace + [FinalizeAnswer, End], r.passes)
    case Stalled => SimpleRun(NoTasks, r.final, trace, r.passes)
    case KeyMissing => SimpleRun(Raised, r.final, trace, r.passes)
  }

  /** The nodes before the search loop. */
  const SimpleHead: seq<Node> := [Start, CreateResearchPlan, GenerateQuery]

  /** `n >= 1` search rounds complete the simple graph's trace. */
  lemma SimpleTrace(n: nat)
    requires n >= 1
    ensures CompleteTrace(Simple, SimpleHead + SearchTrace(n) + [FinalizeAnswer, End], FinalizeAnswer)
  {
    var loop := SearchTrace(n);
    var trace := SimpleHead + loop + [FinalizeAnswer, End];
    forall i | 0 <= i < |trace| - 1 ensures Edge(Simple, trace[i], trace[i + 1]) {
      if 3 <= i < 3 + 2 * n - 1 {
        assert trace[i] == loop[i - 3] && trace[i + 1] == loop[i - 2];
      } else if i == 3 + 2 * n - 1 {
        assert trace[i] == loop[2 * n - 1];
      } else if i == 2 {
        assert trace[i + 1] == loop[0];
      }
    }
    var k := 3 + 2 * n;
    assert trace[k] == FinalizeAnswer;
    forall j | 0 <= j < |trace| && j != k ensures trace[j] != FinalizeAnswer {
      if 3 <= j < k {
        assert trace[j] == loop[j - 3];
      }
    }
  }

  /**
   * However the models answer, the simple graph never raises, runs at most
   * `max(1, ceiling)` reflection passes when it starts with the counter
   * unset or 0, and when it completes it follows the graph's edges and runs
   * `finalize_answer` exactly once.
   */
  lemma SimpleBounded(initial: OverallState, plan: ResearchPlan, question: string, now: real,
                      queries: seq<string>, configMax: int, reflect: nat -> ReflectionOutput,
                      outcome: int -> SearchOutcome, answer: string)
    requires LoopsSoFar(initial) == 0
    ensures var r := RunSimple(initial, plan, question, now, queries, configMax, reflect, outcome, answer);
      && r.end != Raised
      && r.passes <= AtLeastOne(MaxLoops(initial, configMax))
      && (r.end == AtEnd ==> r.passes >= 1 && CompleteTrace(Simple, r.trace, FinalizeAnswer))
  {
    var s1 := Merge(initial, CreatePlanStep(plan, question, now));
    assert LoopsSoFar(s1) == 0 && MaxLoops(s1, configMax) == MaxLoops(initial, configMax);
    SearchBounded(s1, queries, configMax, reflect, outcome);
    var r := SearchFromStart(s1, queries, configMax, reflect, outcome);
    if r.end == Finalized {
      SimpleTrace(r.passes);
    }
  }
}
