/**
 * The node names and the edges of the two compiled graphs: the enhanced
 * multi-agent graph and the simple search-and-reflect graph.
 */
module Topology {
  import opened Wrappers

  datatype Node =
    | Start | End
    // enhanced graph
    | EnhancedPlanner | FocusedResearcher | AggregateResearchResults | Synthesizer
    | CritiqueAgent | ReviseReport | FinalPolish
    // simple graph
    | CreateResearchPlan | GenerateQuery | WebResearch | Reflection | FinalizeAnswer
  {
    /** The name the node is registered under. */
    function Name(): string {
      match this
      case Start => "__start__"
      case End => "__end__"
      case EnhancedPlanner => "enhanced_planner"
      case FocusedResearcher => "focused_researcher"
      case AggregateResearchResults => "aggregate_research_results"
      case Synthesizer => "synthesizer"
      case CritiqueAgent => "critique_agent"
      case ReviseReport => "revise_report"
      case FinalPolish => "final_polish"
      case CreateResearchPlan => "create_research_plan"
      case GenerateQuery => "generate_query"
      case WebResearch => "web_research"
      case Reflection => "reflection"
      case FinalizeAnswer => "finalize_answer"
    }
  }

  datatype Graph = Enhanced | Simple

  /** The unconditional edges (`add_edge`). */
  function StaticSuccessor(g: Graph, n: Node): Option<Node> {
    match (g, n)
    case (Enhanced, Start) => Some(EnhancedPlanner)
    case (Enhanced, FocusedResearcher) => Some(AggregateResearchResults)
    case (Enhanced, AggregateResearchResults) => Some(Synthesizer)
    case (Enhanced, Synthesizer) => Some(CritiqueAgent)
    case (Enhanced, ReviseReport) => Some(CritiqueAgent)
    case (Enhanced, FinalPolish) => Some(End)
    case (Simple, Start) => Some(CreateResearchPlan)
    case (Simple, CreateResearchPlan) => Some(GenerateQuery)
    case (Simple, WebResearch) => Some(Reflection)
    case (Simple, FinalizeAnswer) => Some(End)
    case _ => None
  }

  /** The declared targets of the conditional edges (`add_conditional_edges`). */
  function ConditionalTargets(g: Graph, n: Node): set<Node> {
    match (g, n)
    case (Enhanced, EnhancedPlanner) => {FocusedResearcher}
    case (Enhanced, CritiqueAgent) => {ReviseReport, FinalPolish}
    case (Simple, GenerateQuery) => {WebResearch}
    case (Simple, Reflection) => {WebResearch, FinalizeAnswer}
    case _ => {}
  }

  /** `b` may run right after `a` in graph `g`. */
  predicate Edge(g: Graph, a: Node, b: Node) {
    StaticSuccessor(g, a) == Some(b) || b in ConditionalTargets(g, a)
  }

  /** A trace that follows the edges of `g` from its first node to its last. */
  predicate IsPath(g: Graph, trace: seq<Node>) {
    forall i :: 0 <= i < |trace| - 1 ==> Edge(g, trace[i], trace[i + 1])
  }

  /** Paths compose at a shared node. */
  lemma {:induction false} PathJoin(g: Graph, p: seq<Node>, q: seq<Node>)
    requires IsPath(g, p) && IsPath(g, q) && p != [] && q != [] && p[|p| - 1] == q[0]
    ensures IsPath(g, p + q[1..])
  {
    var r := p + q[1..];
    forall i | 0 <= i < |r| - 1 ensures Edge(g, r[i], r[i + 1]) {
      if i < |p| - 1 {
        assert r[i] == p[i] && r[i + 1] == p[i + 1];
      } else {
        assert r[i] == q[i - |p| + 1] && r[i + 1] == q[i - |p| + 2];
      }
    }
  }

  /** No node has both an unconditional and a conditional exit, and an end node has neither. */
  lemma ExitsAreExclusive(g: Graph, n: Node)
    ensures StaticSuccessor(g, n).Some? ==> ConditionalTargets(g, n) == {}
    ensures n == End ==> StaticSuccessor(g, n).None? && ConditionalTargets(g, n) == {}
  {
  }
}
