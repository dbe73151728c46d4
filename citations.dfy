/**
 * `finalize_answer`'s citation rewrite: every gathered source whose short
 * URL occurs in the answer is replaced by its full URL and kept, in gathered
 * order; and the update the node returns.
 */
module Citations {
  import opened Wrappers
  import opened AgentState
  import PyStr

  /** The rewritten answer and the sources it cites. */
  datatype Rewritten = Rewritten(content: string, used: seq<Source>)

  /** One loop step: keep `x` and rewrite its short URL when the text so far contains it. */
  function RewriteStep(r: Rewritten, x: Source): Rewritten {
    if PyStr.Contains(r.content, x.shortUrl) then
      Rewritten(PyStr.Replace(r.content, x.shortUrl, x.value), r.used + [x])
    else r
  }

  /** `xs` is `ys` with some elements left out, order kept. */
  predicate Subsequence<T(==)>(xs: seq<T>, ys: seq<T>)
    decreases |ys|
  {
    if ys == [] then xs == []
    else
      (xs != [] && xs[|xs| - 1] == ys[|ys| - 1] && Subsequence(xs[..|xs| - 1], ys[..|ys| - 1]))
      || Subsequence(xs, ys[..|ys| - 1])
  }

  /**
   * The rewrite over the sources in gathered order; the cited sources are a
   * subsequence of the gathered ones.
   */
  function Rewrite(content: string, sources: seq<Source>): (r: Rewritten)
    ensures Subsequence(r.used, sources)
    ensures |r.used| <= |sources|
    decreases |sources|
  {
    if sources == [] then Rewritten(content, [])
    else
      var prev := Rewrite(content, sources[..|sources| - 1]);
      var r := RewriteStep(prev, sources[|sources| - 1]);
      assert r.used == prev.used || r.used[..|r.used| - 1] == prev.used;
      r
  }

  /** The loop of `finalize_answer`, over the gathered sources. */
  method RewriteCitations(content: string, sources: seq<Source>) returns (text: string, used: seq<Source>)
    ensures Rewritten(text, used) == Rewrite(content, sources)
  {
    text := content;
    used := [];
    var i := 0;
    while i < |sources|
      invariant 0 <= i <= |sources|
      invariant Rewritten(text, used) == Rewrite(content, sources[..i])
    {
      var x := sources[i];
      if PyStr.Contains(text, x.shortUrl) {
        text := PyStr.Replace(text, x.shortUrl, x.value);
        used := used + [x];
      }
      assert sources[..i + 1][..i] == sources[..i];
      i := i + 1;
    }
    assert sources[..|sources|] == sources;
  }

  /**
   * Source `k` is kept exactly when its short URL occurs in the text as the
   * earlier sources left it, and then all of its occurrences are rewritten.
   */
  lemma KeptIffCited(content: string, sources: seq<Source>, k: nat)
    requires k < |sources|
    ensures var before := Rewrite(content, sources[..k]);
      var after := Rewrite(content, sources[..k + 1]);
      && (PyStr.Contains(before.content, sources[k].shortUrl) <==> after.used == before.used + [sources[k]])
      && (PyStr.Contains(before.content, sources[k].shortUrl) ==>
            after.content == PyStr.Replace(before.content, sources[k].shortUrl, sources[k].value))
      && (!PyStr.Contains(before.content, sources[k].shortUrl) ==> after == before)
  {
    assert sources[..k + 1][..k] == sources[..k];
  }

  /** When no short URL occurs in the answer, nothing is rewritten and nothing is cited. */
  lemma {:induction false} NothingCited(content: string, sources: seq<Source>)
    requires forall k :: 0 <= k < |sources| ==> !PyStr.Contains(content, sources[k].shortUrl)
    ensures Rewrite(content, sources) == Rewritten(content, [])
    decreases |sources|
  {
    if sources != [] {
      NothingCited(content, sources[..|sources| - 1]);
    }
  }

  /** Every cited source was gathered. */
  lemma {:induction false} CitedWereGathered(content: string, sources: seq<Source>, x: Source)
    requires x in Rewrite(content, sources).used
    ensures x in sources
    decreases |sources|
  {
    if sources != [] {
      var prev := Rewrite(content, sources[..|sources| - 1]);
      if x in prev.used {
        CitedWereGathered(content, sources[..|sources| - 1], x);
      }
    }
  }

  /**
   * `finalize_answer`'s update: the rewritten answer as a message and the
   * cited sources on the accumulating `sources_gathered` channel.
   */
  function FinalizeStep(s: OverallState, answer: string): Update {
    var r := Rewrite(answer, s.sourcesGathered);
    NoUpdate.(messages := [Message(r.content)], sourcesGathered := r.used)
  }

  /**
   * Because `sources_gathered` accumulates, the cited sources are appended
   * after everything gathered, not put in its place.
   */
  lemma FinalizeAppendsSources(s: OverallState, answer: string)
    ensures var t := Merge(s, FinalizeStep(s, answer));
      && t.sourcesGathered == s.sourcesGathered + Rewrite(answer, s.sourcesGathered).used
      && t.messages == s.messages + [Message(Rewrite(answer, s.sourcesGathered).content)]
      && ReplaceChannels(t) == ReplaceChannels(s)
  {
  }

  /**
   * `duration_ms` for the history record: absent when `start_time` is absent
   * or zero (a falsy float); `elapsedMs` stands for the clock arithmetic.
   */
  function DurationMs(startTime: Option<real>, elapsedMs: int): (r: Option<int>)
    ensures r.None? <==> startTime.None? || startTime.value == 0.0
    ensures r.Some? ==> r.value == elapsedMs
  {
    if startTime.Some? && startTime.value != 0.0 then Some(elapsedMs) else None
  }

  /** The arguments `finalize_answer` passes to `save_history`. */
  datatype SaveRequest = SaveRequest(
    query: string, effort: string, model: string, result: string,
    searchQueries: seq<string>, sourcesCount: nat, durationMs: Option<int>)

  /**
   * The history request: the query defaults to the research topic, the effort
   * to `"medium"`, and the source count is that of the cited sources.
   */
  function HistoryRequest(s: OverallState, answer: string, topic: string, model: string, elapsedMs: int): (q: SaveRequest)
    ensures q.sourcesCount == |Rewrite(answer, s.sourcesGathered).used| <= |s.sourcesGathered|
    ensures q.result == Rewrite(answer, s.sourcesGathered).content
    ensures q.query == (if s.originalQuery.Some? then s.originalQuery.value else topic)
  {
    var r := Rewrite(answer, s.sourcesGathered);
    SaveRequest(s.originalQuery.GetOr(topic), s.effortLevel.GetOr("medium"), model, r.content,
                s.searchQuery, |r.used|, DurationMs(s.startTime, elapsedMs))
  }
}
