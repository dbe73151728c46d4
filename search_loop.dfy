/**
 * The bounded search loop of the simple graph: `generate_query` ->
 * (`continue_to_web_research`) `web_research`* -> `reflection` ->
 * (`evaluate_research`) either `finalize_answer` or another batch of
 * `web_research` tasks for the follow-up queries.
 *
 * The reflection model's verdicts and the search outcomes are inputs.
 */
module SearchLoop {
  import opened Wrappers
  import opened AgentState
  import opened Topology
  import opened FanOut

  /** The structured answer of the reflection model (its schema class is `Reflection`). */
  datatype ReflectionOutput = ReflectionOutput(isSufficient: bool, knowledgeGap: string, followUpQueries: seq<string>)

  /** `state.get("research_loop_count", 0)`. */
  function LoopsSoFar(s: OverallState): int {
    s.researchLoopCount.GetOr(0)
  }

  /** `generate_query`'s update: the model's queries. */
  function GenerateQueryStep(queries: seq<string>): Update {
    NoUpdate.(searchQuery := queries)
  }

  /**
   * `reflection`'s update: the verdict, the gap, the follow-up queries (an
   * accumulating channel), the loop counter one above what it was, and the
   * number of queries recorded so far.
   */
  function ReflectionStep(s: OverallState, r: ReflectionOutput): (u: Update)
    ensures Merge(s, u).researchLoopCount == Some(LoopsSoFar(s) + 1)
    ensures Merge(s, u).followUpQueries == s.followUpQueries + r.followUpQueries
    ensures Merge(s, u).numberOfRanQueries == Some(|s.searchQuery|)
    ensures Merge(s, u).searchQuery == s.searchQuery
    ensures Merge(s, u).maxResearchLoops == s.maxResearchLoops
  {
    var loops := LoopsSoFar(s) + 1;
    NoUpdate.(
      isSufficient := Some(r.isSufficient),
      knowledgeGap := Some(r.knowledgeGap),
      followUpQueries := r.followUpQueries,
      researchLoopCount := Some(loops),
      numberOfRanQueries := Some(|s.searchQuery|))
  }

  /** Where `evaluate_research` sends the run. */
  datatype ResearchRoute =
    | Finalize
    | FollowUps(sends: seq<WebSend>)
    | MissingKey(key: string)   // the `KeyError` of a subscript on an absent key

  /** The loop ceiling: the state's value when it is set, else the configured one. */
  function MaxLoops(s: OverallState, configMax: int): int {
    if s.maxResearchLoops.Some? then s.maxResearchLoops.value else configMax
  }

  /**
   * `evaluate_research`: finalize exactly when the reflection found the
   * research sufficient or the counter reached the ceiling; otherwise one
   * `web_research` task per follow-up query, numbered from
   * `number_of_ran_queries` upwards.
   */
  function EvaluateResearch(s: OverallState, configMax: int): (r: ResearchRoute)
    ensures r == Finalize <==>
      s.isSufficient.Some? &&
      (s.isSufficient.value || (s.researchLoopCount.Some? && s.researchLoopCount.value >= MaxLoops(s, configMax)))
    ensures s.isSufficient.Some? && s.researchLoopCount.Some? && s.numberOfRanQueries.Some? ==> !r.MissingKey?
    ensures r.FollowUps? && r.sends != [] ==> s.numberOfRanQueries.Some?
    ensures r.FollowUps? ==>
      && |r.sends| == |s.followUpQueries|
      && (forall i :: 0 <= i < |r.sends| ==>
            r.sends[i] == WebSend(WebResearch, WebSearchState(s.followUpQueries[i], s.numberOfRanQueries.value + i)))
  {
    if s.isSufficient.None? then MissingKey("is_sufficient")
    else if s.isSufficient.value then Finalize
    else if s.researchLoopCount.None? then MissingKey("research_loop_count")
    else if s.researchLoopCount.value >= MaxLoops(s, configMax) then Finalize
    else if s.followUpQueries == [] then FollowUps([])
    else if s.numberOfRanQueries.None? then MissingKey("number_of_ran_queries")
    else FollowUps(NumberedWebTasks(s.followUpQueries, s.numberOfRanQueries.value))
  }

  /** The channels of `ReflectionState`, the input schema `evaluate_research` is declared with. */
  function ReflectionView(s: OverallState): OverallState {
    NoUpdate.(isSufficient := s.isSufficient, knowledgeGap := s.knowledgeGap,
              followUpQueries := s.followUpQueries, researchLoopCount := s.researchLoopCount,
              numberOfRanQueries := s.numberOfRanQueries)
  }

  /**
   * On the `ReflectionState` channels alone `max_research_loops` is absent, so
   * the router always uses the configured ceiling; it decides as on the whole
   * state exactly when the state's ceiling is unset or equal to the configured one.
   */
  lemma RouterViewUsesConfig(s: OverallState, configMax: int)
    ensures MaxLoops(ReflectionView(s), configMax) == configMax
    ensures s.maxResearchLoops.None? || s.maxResearchLoops == Some(configMax) ==>
      EvaluateResearch(ReflectionView(s), configMax) == EvaluateResearch(s, configMax)
  {
  }

  /** The ids of a batch of `web_research` tasks. */
  function IdsOf(sends: seq<WebSend>): (r: seq<int>)
    ensures |r| == |sends|
    ensures forall i :: 0 <= i < |sends| ==> r[i] == sends[i].arg.id
  {
    seq(|sends|, i requires 0 <= i < |sends| => sends[i].arg.id)
  }

  predicate Increasing(xs: seq<int>) {
    forall i, j :: 0 <= i < j < |xs| ==> xs[i] < xs[j]
  }

  /** Strictly increasing ids are pairwise distinct. */
  lemma IncreasingDistinct(xs: seq<int>, i: nat, j: nat)
    requires Increasing(xs) && i < |xs| && j < |xs| && i != j
    ensures xs[i] != xs[j]
  {
  }

  /** The ids of one `evaluate_research` batch are increasing and none is below `number_of_ran_queries`. */
  lemma BatchIds(s: OverallState, configMax: int)
    requires EvaluateResearch(s, configMax).FollowUps?
    ensures var sends := EvaluateResearch(s, configMax).sends;
      && Increasing(IdsOf(sends))
      && (sends != [] ==> forall i :: 0 <= i < |sends| ==> sends[i].arg.id >= s.numberOfRanQueries.value)
  {
  }

  /** How the search loop ended. */
  datatype SearchEnd =
    | Finalized   // the router chose `finalize_answer`
    | Stalled     // a fan-out of zero tasks: nothing more is scheduled
    | KeyMissing  // the router raised on an absent key

  /** A whole search: how it ended, its last state, its reflection passes and every task id issued. */
  datatype SearchRun = SearchRun(end: SearchEnd, final: OverallState, passes: nat, ids: seq<int>)

  /** The state after one batch has been joined and `reflection` has run. */
  function AfterPass(s: OverallState, sends: seq<WebSend>, outcome: int -> SearchOutcome, v: ReflectionOutput): OverallState {
    var s1 := Fold(s, WebUpdates(sends, outcome));
    Merge(s1, ReflectionStep(s1, v))
  }

  /**
   * One pass raises the counter by one, keeps the ceiling, records one query
   * per task of the batch, and sets every key the router reads.
   */
  lemma PassFacts(s: OverallState, sends: seq<WebSend>, outcome: int -> SearchOutcome, v: ReflectionOutput)
    ensures var t := AfterPass(s, sends, outcome, v);
      && t.researchLoopCount == Some(LoopsSoFar(s) + 1)
      && t.maxResearchLoops == s.maxResearchLoops
      && t.isSufficient == Some(v.isSufficient)
      && |t.searchQuery| == |s.searchQuery| + |sends|
      && t.numberOfRanQueries == Some(|t.searchQuery|)
  {
    var s1 := Fold(s, WebUpdates(sends, outcome));
    WebJoin(s, sends, outcome);
    assert s1.researchLoopCount == s.researchLoopCount && s1.maxResearchLoops == s.maxResearchLoops by {
      assert ReplaceChannels(s1) == ReplaceChannels(s);
    }
  }

  /** How many more non-final passes the ceiling admits from this state. */
  function Remaining(s: OverallState, configMax: int): nat {
    if LoopsSoFar(s) < MaxLoops(s, configMax) then MaxLoops(s, configMax) - LoopsSoFar(s) else 0
  }

  /**
   * One web-research batch and what follows it: the batch's updates are joined
   * in task order, `reflection` runs (its `passes`-th verdict is
   * `reflect(passes)`), and the router decides. A `web_research` task's
   * outcome is chosen by its id.
   */
  function SearchFrom(s: OverallState, sends: seq<WebSend>, configMax: int,
                      reflect: nat -> ReflectionOutput, outcome: int -> SearchOutcome,
                      passes: nat, ids: seq<int>): SearchRun
    decreases Remaining(s, configMax)
  {
    var s2 := AfterPass(s, sends, outcome, reflect(passes));
    var issued := ids + IdsOf(sends);
    match EvaluateResearch(s2, configMax)
    case Finalize => SearchRun(Finalized, s2, passes + 1, issued)
    case MissingKey(_) => SearchRun(KeyMissing, s2, passes + 1, issued)
    case FollowUps(next) =>
      if next == [] then SearchRun(Stalled, s2, passes + 1, issued)
      else
        PassFacts(s, sends, outcome, reflect(passes));
        SearchFrom(s2, next, configMax, reflect, outcome, passes + 1, issued)
  }

  /** The search loop from `generate_query` on, as the simple graph runs it. */
  function SearchFromStart(s: OverallState, queries: seq<string>, configMax: int,
                           reflect: nat -> ReflectionOutput, outcome: int -> SearchOutcome): SearchRun
  {
    var s0 := Merge(s, GenerateQueryStep(queries));
    var first := ContinueToWebResearch(s0);
    if first == [] then SearchRun(Stalled, s0, 0, [])
    else SearchFrom(s0, first, configMax, reflect, outcome, 0, [])
  }

  /** `max(1, n)`. */
  function AtLeastOne(n: int): int {
    if n >= 1 then n else 1
  }

  /**
   * After a pass the router never raises, and it asks for more searching only
   * while the raised counter is still below the ceiling, so the remaining
   * budget shrinks.
   */
  lemma RouteAfterPass(s: OverallState, sends: seq<WebSend>, outcome: int -> SearchOutcome,
                       v: ReflectionOutput, configMax: int)
    ensures var t := AfterPass(s, sends, outcome, v);
      && !EvaluateResearch(t, configMax).MissingKey?
      && (EvaluateResearch(t, configMax).FollowUps? ==>
            && LoopsSoFar(s) + 1 < MaxLoops(s, configMax)
            && Remaining(t, configMax) == Remaining(s, configMax) - 1 >= 1)
      && t.researchLoopCount == Some(LoopsSoFar(s) + 1)
  {
    PassFacts(s, sends, outcome, v);
  }

  /** The number of passes is at least one and at most `max(1, remaining)`. */
  lemma {:induction false} PassesBounded(s: OverallState, sends: seq<WebSend>, configMax: int,
                                         reflect: nat -> ReflectionOutput, outcome: int -> SearchOutcome,
                                         passes: nat, ids: seq<int>)
    ensures var r := SearchFrom(s, sends, configMax, reflect, outcome, passes, ids);
      r.passes > passes && r.passes - passes <= AtLeastOne(Remaining(s, configMax))
    decreases Remaining(s, configMax)
  {
    var s2 := AfterPass(s, sends, outcome, reflect(passes));
    RouteAfterPass(s, sends, outcome, reflect(passes), configMax);
    var r := SearchFrom(s, sends, configMax, reflect, outcome, passes, ids);
    match EvaluateResearch(s2, configMax)
    case Finalize =>
      assert r.final == s2 && r.passes == passes + 1;
    case MissingKey(_) =>
    case FollowUps(next) =>
      if next != [] {
        assert r == SearchFrom(s2, next, configMax, reflect, outcome, passes + 1, ids + IdsOf(sends));
        PassesBounded(s2, next, configMax, reflect, outcome, passes + 1, ids + IdsOf(sends));
      } else {
        assert r.final == s2 && r.passes == passes + 1;
      }
  }

  /** Every pass raises the counter by exactly one. */
  lemma {:induction false} CounterCountsPasses(s: OverallState, sends: seq<WebSend>, configMax: int,
                                         reflect: nat -> ReflectionOutput, outcome: int -> SearchOutcome,
                                         passes: nat, ids: seq<int>)
    ensures var r := SearchFrom(s, sends, configMax, reflect, outcome, passes, ids);
      r.final.researchLoopCount == Some(LoopsSoFar(s) + (r.passes - passes))
    decreases Remaining(s, configMax)
  {
    var s2 := AfterPass(s, sends, outcome, reflect(passes));
    RouteAfterPass(s, sends, outcome, reflect(passes), configMax);
    var r := SearchFrom(s, sends, configMax, reflect, outcome, passes, ids);
    match EvaluateResearch(s2, configMax)
    case Finalize =>
      assert r.final == s2 && r.passes == passes + 1;
    case MissingKey(_) =>
    case FollowUps(next) =>
      if next != [] {
        assert r == SearchFrom(s2, next, configMax, reflect, outcome, passes + 1, ids + IdsOf(sends));
        CounterCountsPasses(s2, next, configMax, reflect, outcome, passes + 1, ids + IdsOf(sends));
      } else {
        assert r.final == s2 && r.passes == passes + 1;
      }
  }

  /** The router never raises on an absent key: `reflection` has set every key it reads. */
  lemma {:induction false} NeverRaises(s: OverallState, sends: seq<WebSend>, configMax: int,
                                         reflect: nat -> ReflectionOutput, outcome: int -> SearchOutcome,
                                         passes: nat, ids: seq<int>)
    ensures var r := SearchFrom(s, sends, configMax, reflect, outcome, passes, ids);
      r.end != KeyMissing
    decreases Remaining(s, configMax)
  {
    var s2 := AfterPass(s, sends, outcome, reflect(passes));
    RouteAfterPass(s, sends, outcome, reflect(passes), configMax);
    var r := SearchFrom(s, sends, configMax, reflect, outcome, passes, ids);
    match EvaluateResearch(s2, configMax)
    case Finalize =>
      assert r.final == s2 && r.passes == passes + 1;
    case MissingKey(_) =>
    case FollowUps(next) =>
      if next != [] {
        assert r == SearchFrom(s2, next, configMax, reflect, outcome, passes + 1, ids + IdsOf(sends));
        NeverRaises(s2, next, configMax, reflect, outcome, passes + 1, ids + IdsOf(sends));
      } else {
        assert r.final == s2 && r.passes == passes + 1;
      }
  }

  /**
   * The ids issued so far and the current batch's ids are increasing and all
   * below the number of queries recorded once the batch has run.
   */
  predicate IdsBelow(s: OverallState, sends: seq<WebSend>, ids: seq<int>) {
    && Increasing(ids + IdsOf(sends))
    && (forall k :: 0 <= k < |ids + IdsOf(sends)| ==> (ids + IdsOf(sends))[k] < |s.searchQuery| + |sends|)
  }

  /**
   * Task ids stay globally distinct (in fact increasing) over all passes,
   * although `follow_up_queries` accumulates and earlier follow-ups are sent
   * again: each batch is numbered from the count of queries recorded, and
   * every earlier task has recorded its query by then.
   */
  lemma {:induction false} IdsIncrease(s: OverallState, sends: seq<WebSend>, configMax: int,
                                       reflect: nat -> ReflectionOutput, outcome: int -> SearchOutcome,
                                       passes: nat, ids: seq<int>)
    requires IdsBelow(s, sends, ids)
    ensures Increasing(SearchFrom(s, sends, configMax, reflect, outcome, passes, ids).ids)
    decreases Remaining(s, configMax)
  {
    var s2 := AfterPass(s, sends, outcome, reflect(passes));
    var issued := ids + IdsOf(sends);
    PassFacts(s, sends, outcome, reflect(passes));
    match EvaluateResearch(s2, configMax)
    case Finalize =>
    case MissingKey(_) =>
    case FollowUps(next) =>
      if next != [] {
        var n := |s2.searchQuery|;
        assert s2.numberOfRanQueries == Some(n);
        var all := issued + IdsOf(next);
        forall i, j | 0 <= i < j < |all| ensures all[i] < all[j] {
          if j >= |issued| {
            assert all[j] == n + (j - |issued|);
            if i >= |issued| {
              assert all[i] == n + (i - |issued|);
            } else {
              assert all[i] == issued[i];
            }
          } else {
            assert all[i] == issued[i] && all[j] == issued[j];
          }
        }
        forall k | 0 <= k < |all| ensures all[k] < |s2.searchQuery| + |next| {
          if k < |issued| {
            assert all[k] == issued[k];
          } else {
            assert all[k] == n + (k - |issued|);
          }
        }
        IdsIncrease(s2, next, configMax, reflect, outcome, passes + 1, issued);
      }
  }

  /** The state and the first batch after `generate_query`. */
  lemma StartFacts(s: OverallState, queries: seq<string>)
    ensures var s0 := Merge(s, GenerateQueryStep(queries));
      && LoopsSoFar(s0) == LoopsSoFar(s) && MaxLoops(s0, 0) == MaxLoops(s, 0)
      && s0.maxResearchLoops == s.maxResearchLoops
      && s0.searchQuery == s.searchQuery + queries
      && IdsBelow(s0, ContinueToWebResearch(s0), [])
  {
    var s0 := Merge(s, GenerateQueryStep(queries));
    var first := ContinueToWebResearch(s0);
    assert [] + IdsOf(first) == IdsOf(first);
  }

  /**
   * The whole loop from `generate_query`: at most `max(1, ceiling)` passes when
   * the counter starts unset or at 0, ids increasing, and no raise; a model
   * that returns no query stalls the run before any search.
   */
  lemma SearchBounded(s: OverallState, queries: seq<string>, configMax: int,
                      reflect: nat -> ReflectionOutput, outcome: int -> SearchOutcome)
    requires LoopsSoFar(s) == 0
    ensures var r := SearchFromStart(s, queries, configMax, reflect, outcome);
      && r.passes <= AtLeastOne(MaxLoops(s, configMax))
      && Increasing(r.ids)
      && r.end != KeyMissing
      && (s.searchQuery + queries == [] <==> r.passes == 0)
      && (r.passes == 0 ==> r.end == Stalled)
  {
    var s0 := Merge(s, GenerateQueryStep(queries));
    var first := ContinueToWebResearch(s0);
    StartFacts(s, queries);
    assert MaxLoops(s0, configMax) == MaxLoops(s, configMax);
    if first != [] {
      PassesBounded(s0, first, configMax, reflect, outcome, 0, []);
      NeverRaises(s0, first, configMax, reflect, outcome, 0, []);
      IdsIncrease(s0, first, configMax, reflect, outcome, 0, []);
    }
  }

  /**
   * Follow-up queries accumulate: the second `evaluate_research` batch sends
   * the first reflection's follow-ups again, before the second's.
   */
  lemma FollowUpsResent(s: OverallState, r1: ReflectionOutput, r2: ReflectionOutput, configMax: int)
    requires s.followUpQueries == []
    requires var s2 := Merge(s, ReflectionStep(s, r1));
      EvaluateResearch(Merge(s2, ReflectionStep(s2, r2)), configMax).FollowUps?
    ensures var s2 := Merge(s, ReflectionStep(s, r1));
      QueriesOf(EvaluateResearch(Merge(s2, ReflectionStep(s2, r2)), configMax).sends)
      == r1.followUpQueries + r2.followUpQueries
  {
  }
}
