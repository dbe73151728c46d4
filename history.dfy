/**
 * The search-history store: the `SearchHistory` record with its dictionary
 * form, and `SearchHistoryManager`, a newest-first list of at most 100
 * records kept in a JSON file. The file is modelled by its decoded content;
 * the id, the timestamp and whether a write succeeds are parameters.
 */
module History {
  import opened Wrappers
  import PyStr

  /** The most records the store keeps. */
  const MaxRecords: nat := 100

  /** A JSON value as a history record holds it. */
  datatype Value = Str(s: string) | StrList(items: seq<string>) | Int(n: int) | Null

  /** A record as stored: a JSON object. */
  type Record = map<string, Value>

  /** The `SearchHistory` dataclass. */
  datatype SearchHistory = SearchHistory(
    id: string, query: string, timestamp: string, effort: string, model: string, result: string,
    searchQueries: seq<string>, sourcesCount: int, durationMs: Option<int>)

  /** The dataclass's field names; all but `duration_ms` are required. */
  const FieldNames: set<string> :=
    {"id", "query", "timestamp", "effort", "model", "result", "search_queries", "sources_count", "duration_ms"}
  const RequiredNames: set<string> :=
    {"id", "query", "timestamp", "effort", "model", "result", "search_queries", "sources_count"}

  /** `to_dict`: one entry per field. */
  function ToDict(h: SearchHistory): (d: Record)
    ensures d.Keys == FieldNames
  {
    map[
      "id" := Str(h.id), "query" := Str(h.query), "timestamp" := Str(h.timestamp),
      "effort" := Str(h.effort), "model" := Str(h.model), "result" := Str(h.result),
      "search_queries" := StrList(h.searchQueries), "sources_count" := Int(h.sourcesCount),
      "duration_ms" := if h.durationMs.Some? then Int(h.durationMs.value) else Null]
  }

  function StrField(d: Record, key: string): Option<string> {
    if key in d && d[key].Str? then Some(d[key].s) else None
  }

  /**
   * `from_dict`: the constructor called with the dictionary's entries as
   * keyword arguments. An unknown key or a missing required one is an
   * error; a missing `duration_ms` gives none.
   */
  function FromDict(d: Record): (r: Result<SearchHistory, string>)
    ensures !(d.Keys <= FieldNames) ==> r == Err("unexpected keyword argument")
    ensures d.Keys <= FieldNames && !(RequiredNames <= d.Keys) ==> r == Err("missing required argument")
    ensures r.Ok? && "duration_ms" !in d ==> r.value.durationMs == None
  {
    if !(d.Keys <= FieldNames) then Err("unexpected keyword argument")
    else if !(RequiredNames <= d.Keys) then Err("missing required argument")
    else if StrField(d, "id").None? || StrField(d, "query").None? || StrField(d, "timestamp").None?
         || StrField(d, "effort").None? || StrField(d, "model").None? || StrField(d, "result").None?
         || !d["search_queries"].StrList? || !d["sources_count"].Int?
         || ("duration_ms" in d && !(d["duration_ms"].Int? || d["duration_ms"].Null?))
    then Err("value of another type")
    else
      Ok(SearchHistory(
        d["id"].s, d["query"].s, d["timestamp"].s, d["effort"].s, d["model"].s, d["result"].s,
        d["search_queries"].items, d["sources_count"].n,
        if "duration_ms" in d && d["duration_ms"].Int? then Some(d["duration_ms"].n) else None))
  }

  /** `from_dict(to_dict(h))` gives `h` back, field for field. */
  lemma FromToDict(h: SearchHistory)
    ensures FromDict(ToDict(h)) == Ok(h)
  {
    var d := ToDict(h);
    assert d.Keys <= FieldNames && RequiredNames <= d.Keys;
  }

  /** What the history file holds, once read. */
  datatype HistoryFile =
    | Absent               // no file
    | Records(items: seq<Record>)
    | NotAList             // valid JSON whose top level is not a list
    | Unreadable           // not valid JSON, or not readable

  /** `load_histories`: the stored list, or `[]` for an absent, unreadable or non-list file. */
  function Loaded(f: HistoryFile): (hs: seq<Record>)
    ensures !f.Records? ==> hs == []
  {
    if f.Records? then f.items else []
  }

  /** `histories.insert(0, d)` followed by `histories[:100]`. */
  function SaveInto(hs: seq<Record>, d: Record): (r: seq<Record>)
    ensures |r| == if |hs| + 1 <= MaxRecords then |hs| + 1 else MaxRecords
    ensures r[0] == d
    ensures forall i :: 1 <= i < |r| ==> r[i] == hs[i - 1]
  {
    var inserted := [d] + hs;
    if |inserted| <= MaxRecords then inserted else inserted[..MaxRecords]
  }

  /** `h.get('id') == history_id`. */
  predicate HasId(d: Record, id: string) {
    "id" in d && d["id"] == Str(id)
  }

  /** The first record with this id, if any. */
  function FirstWithId(hs: seq<Record>, id: string): (r: Option<Record>)
    ensures r.None? <==> forall k :: 0 <= k < |hs| ==> !HasId(hs[k], id)
    ensures r.Some? ==> exists k :: 0 <= k < |hs| && hs[k] == r.value && HasId(hs[k], id)
                                   && forall j :: 0 <= j < k ==> !HasId(hs[j], id)
    decreases |hs|
  {
    if hs == [] then None
    else if HasId(hs[0], id) then Some(hs[0])
    else
      var r := FirstWithId(hs[1..], id);
      assert forall k :: 1 <= k < |hs| ==> hs[k] == hs[1..][k - 1];
      r
  }

  /** `[h for h in histories if h.get('id') != history_id]`. */
  function Without(hs: seq<Record>, id: string): (r: seq<Record>)
    ensures |r| <= |hs|
    ensures forall x :: x in r <==> x in hs && !HasId(x, id)
    decreases |hs|
  {
    if hs == [] then []
    else (if HasId(hs[0], id) then [] else [hs[0]]) + Without(hs[1..], id)
  }

  lemma AppendAssociative<T>(p: seq<T>, q: seq<T>, r: seq<T>)
    ensures p + (q + r) == (p + q) + r
  {
  }

  /** Deleting from a list with a first record: that record's fate, then the rest. */
  lemma WithoutCons(x: Record, rest: seq<Record>, id: string)
    ensures Without([x] + rest, id) == (if HasId(x, id) then [] else [x]) + Without(rest, id)
  {
    assert ([x] + rest)[0] == x && ([x] + rest)[1..] == rest;
  }

  /** Deleting works record by record: the kept records stay in stored order, each as often as it was stored. */
  lemma {:induction false} WithoutConcat(a: seq<Record>, b: seq<Record>, id: string)
    ensures Without(a + b, id) == Without(a, id) + Without(b, id)
    decreases |a|
  {
    if a == [] {
      assert a + b == b;
    } else {
      var x, rest := a[0], a[1..];
      assert a == [x] + rest && a + b == [x] + (rest + b);
      WithoutCons(x, rest + b, id);
      WithoutCons(x, rest, id);
      WithoutConcat(rest, b, id);
      AppendAssociative(if HasId(x, id) then [] else [x], Without(rest, id), Without(b, id));
    }
  }

  /** Deleting shortens the list exactly when some record has the id. */
  lemma {:induction false} WithoutShorter(hs: seq<Record>, id: string)
    ensures |Without(hs, id)| < |hs| <==> exists k :: 0 <= k < |hs| && HasId(hs[k], id)
    ensures (forall k :: 0 <= k < |hs| ==> !HasId(hs[k], id)) ==> Without(hs, id) == hs
    decreases |hs|
  {
    if hs != [] {
      WithoutShorter(hs[1..], id);
      assert forall k :: 1 <= k < |hs| ==> hs[k] == hs[1..][k - 1];
      if !HasId(hs[0], id) && exists k :: 0 <= k < |hs| && HasId(hs[k], id) {
        var k :| 0 <= k < |hs| && HasId(hs[k], id);
        assert HasId(hs[1..][k - 1], id);
      }
      if HasId(hs[0], id) {
        assert |Without(hs, id)| == |Without(hs[1..], id)|;
      }
    }
  }

  /** `history.get(key, '')`, when it is a string; `None` stands for the `AttributeError` of `.lower()` on anything else. */
  function FieldText(d: Record, key: string): Option<string> {
    if key !in d then Some("") else if d[key].Str? then Some(d[key].s) else None
  }

  /**
   * Does this record match the query? The `query` field is checked first and
   * the `result` field only when it does not match; a field that is not a
   * string raises.
   */
  function RecordMatches(d: Record, q: string): Result<bool, string> {
    var ql := PyStr.Lower(q);
    match FieldText(d, "query")
    case None => Err("query")
    case Some(t) =>
      if PyStr.Contains(PyStr.Lower(t), ql) then Ok(true)
      else
        match FieldText(d, "result")
        case None => Err("result")
        case Some(u) => Ok(PyStr.Contains(PyStr.Lower(u), ql))
  }

  /** The search over the records in order; the first raising record ends it. */
  function Matching(hs: seq<Record>, q: string): Result<seq<Record>, string>
    decreases |hs|
  {
    if hs == [] then Ok([])
    else match Matching(hs[..|hs| - 1], q)
      case Err(e) => Err(e)
      case Ok(ms) =>
        match RecordMatches(hs[|hs| - 1], q)
        case Err(e) => Err(e)
        case Ok(b) => Ok(ms + if b then [hs[|hs| - 1]] else [])
  }

  /** Once the search has raised on a prefix, it raises the same way on the whole list. */
  lemma {:induction false} MatchingErrSticks(hs: seq<Record>, q: string, i: nat, e: string)
    requires i <= |hs| && Matching(hs[..i], q) == Err(e)
    ensures Matching(hs, q) == Err(e)
    decreases |hs| - i
  {
    if i < |hs| {
      assert hs[..i + 1][..i] == hs[..i];
      MatchingErrSticks(hs, q, i + 1, e);
    } else {
      assert hs[..i] == hs;
    }
  }

  /** Records whose `query` and `result` are strings, or absent, as `to_dict` writes them. */
  predicate Searchable(d: Record) {
    FieldText(d, "query").Some? && FieldText(d, "result").Some?
  }

  /** Records written by `save_history` are searchable. */
  lemma SavedSearchable(h: SearchHistory)
    ensures Searchable(ToDict(h))
  {
  }

  /** Case-insensitive substring match on `query` or `result`. */
  predicate Hit(d: Record, q: string)
    requires Searchable(d)
  {
    PyStr.Contains(PyStr.Lower(FieldText(d, "query").value), PyStr.Lower(q))
    || PyStr.Contains(PyStr.Lower(FieldText(d, "result").value), PyStr.Lower(q))
  }

  /**
   * On searchable records the search never raises and returns exactly the
   * records that match, in order: it keeps each record on its own merits.
   */
  lemma {:induction false} SearchFinds(hs: seq<Record>, q: string)
    requires forall k :: 0 <= k < |hs| ==> Searchable(hs[k])
    ensures Matching(hs, q).Ok?
    ensures forall x :: x in Matching(hs, q).value <==> x in hs && Hit(x, q)
    ensures |Matching(hs, q).value| <= |hs|
    decreases |hs|
  {
    if hs != [] {
      SearchFinds(hs[..|hs| - 1], q);
    }
  }

  /**
   * The search keeps stored order and multiplicity: appending a searchable
   * record appends it to the result exactly when it matches.
   */
  lemma SearchAppends(hs: seq<Record>, x: Record, q: string)
    requires forall k :: 0 <= k < |hs| ==> Searchable(hs[k])
    requires Searchable(x)
    ensures Matching(hs, q).Ok?
    ensures Matching(hs + [x], q) == Ok(Matching(hs, q).value + if Hit(x, q) then [x] else [])
  {
    SearchFinds(hs, q);
    assert (hs + [x])[..|hs|] == hs;
  }

  /** An empty query matches every searchable record. */
  lemma {:induction false} EmptyQueryFindsAll(hs: seq<Record>)
    requires forall k :: 0 <= k < |hs| ==> Searchable(hs[k])
    ensures Matching(hs, "") == Ok(hs)
    decreases |hs|
  {
    if hs != [] {
      EmptyQueryFindsAll(hs[..|hs| - 1]);
      var d := hs[|hs| - 1];
      assert PyStr.Lower("") == "";
      assert PyStr.Contains(PyStr.Lower(FieldText(d, "query").value), "");
      assert hs[..|hs| - 1] + [d] == hs;
    }
  }

  /** `histories[:limit]`, Python slice semantics: a negative limit drops that many from the end. */
  function Prefix(hs: seq<Record>, limit: int): (r: seq<Record>)
    ensures limit >= 0 ==> |r| == (if limit <= |hs| then limit else |hs|)
    ensures limit < 0 ==> |r| == (if |hs| + limit >= 0 then |hs| + limit else 0)
    ensures r <= hs
  {
    var n := if limit >= 0 then limit else |hs| + limit;
    if n <= 0 then [] else if n <= |hs| then hs[..n] else hs
  }

  /** `SearchHistoryManager`. */
  class SearchHistoryManager {
    /** The content of the history file. */
    var file: HistoryFile

    /** What `load_histories` returns now. */
    function Histories(): seq<Record>
      reads this
    {
      Loaded(file)
    }

    /** `__init__`: when the file does not exist an empty list is written. */
    constructor(existing: HistoryFile)
      ensures file == if existing.Absent? then Records([]) else existing
    {
      if existing.Absent? {
        file := Records([]);
      } else {
        file := existing;
      }
    }

    /** `load_histories`. */
    method LoadHistories() returns (hs: seq<Record>)
      ensures hs == Loaded(file)
      ensures !file.Records? ==> hs == []
    {
      match file
      case Records(items) => hs := items;
      case Absent => hs := [];
      case NotAList => hs := [];
      case Unreadable => hs := [];
    }

    /**
     * `save_history`: the new record goes in front of the loaded ones and the
     * list is cut to 100; on a failed write the file is unchanged and the
     * result is `""`. `freshId` and `timestamp` stand for the uuid and the clock.
     */
    method SaveHistory(query: string, effort: string, model: string, result: string,
                       searchQueries: seq<string>, sourcesCount: int, durationMs: Option<int>,
                       freshId: string, timestamp: string, writable: bool) returns (id: string)
      modifies this
      ensures var h := SearchHistory(freshId, query, timestamp, effort, model, result,
                                     searchQueries, sourcesCount, durationMs);
        writable ==> file == Records(SaveInto(Loaded(old(file)), ToDict(h))) && id == freshId
      ensures !writable ==> file == old(file) && id == ""
    {
      var h := SearchHistory(freshId, query, timestamp, effort, model, result,
                             searchQueries, sourcesCount, durationMs);
      var histories := LoadHistories();
      histories := [ToDict(h)] + histories;
      if |histories| > MaxRecords {
        histories := histories[..MaxRecords];
      }
      if !writable {
        return "";
      }
      file := Records(histories);
      return freshId;
    }

    /** `get_history_by_id`: the first stored record with the id. */
    method GetHistoryById(historyId: string) returns (r: Option<Record>)
      ensures r == FirstWithId(Histories(), historyId)
    {
      var histories := LoadHistories();
      var i := 0;
      while i < |histories|
        invariant 0 <= i <= |histories|
        invariant FirstWithId(histories, historyId) == FirstWithId(histories[i..], historyId)
      {
        if HasId(histories[i], historyId) {
          return Some(histories[i]);
        }
        assert histories[i..][1..] == histories[i + 1..];
        i := i + 1;
      }
      return None;
    }

    /**
     * `delete_history`: true exactly when some record has the id and the
     * write succeeds; the file is rewritten only then.
     */
    method DeleteHistory(historyId: string, writable: bool) returns (removed: bool)
      modifies this
      ensures removed <==> writable && exists k :: 0 <= k < |Loaded(old(file))| && HasId(Loaded(old(file))[k], historyId)
      ensures file == if removed then Records(Without(Loaded(old(file)), historyId)) else old(file)
    {
      var histories := LoadHistories();
      var originalLength := |histories|;
      histories := Without(histories, historyId);
      WithoutShorter(Loaded(file), historyId);
      if |histories| < originalLength {
        if !writable {
          return false;
        }
        file := Records(histories);
        return true;
      }
      return false;
    }

    /** `clear_all_history`: the file holds an empty list, unless the write fails. */
    method ClearAllHistory(writable: bool) returns (ok: bool)
      modifies this
      ensures ok == writable
      ensures file == if writable then Records([]) else old(file)
      ensures writable ==> Histories() == []
    {
      if !writable {
        return false;
      }
      file := Records([]);
      return true;
    }

    /** `get_recent_histories`: the first `limit` records. */
    method GetRecentHistories(limit: int) returns (hs: seq<Record>)
      ensures hs == Prefix(Histories(), limit)
      ensures limit >= 0 ==> hs == Histories()[..if limit <= |Histories()| then limit else |Histories()|]
    {
      var histories := LoadHistories();
      hs := Prefix(histories, limit);
    }

    /** `search_histories`: the matching records in stored order, or the field that raised. */
    method SearchHistories(query: string) returns (r: Result<seq<Record>, string>)
      ensures r == Matching(Histories(), query)
    {
      var histories := LoadHistories();
      var queryLower := PyStr.Lower(query);
      var matched: seq<Record> := [];
      var i := 0;
      while i < |histories|
        invariant 0 <= i <= |histories|
        invariant Matching(histories[..i], query) == Ok(matched)
      {
        var history := histories[i];
        ghost var before := matched;
        assert histories[..i + 1][..i] == histories[..i];
        var q := FieldText(history, "query");
        if q.None? {
          MatchingErrSticks(histories, query, i + 1, "query");
          return Err("query");
        }
        if PyStr.Contains(PyStr.Lower(q.value), queryLower) {
          assert RecordMatches(history, query) == Ok(true);
          matched := matched + [history];
        } else {
          var res := FieldText(history, "result");
          if res.None? {
            MatchingErrSticks(histories, query, i + 1, "result");
            return Err("result");
          }
          assert RecordMatches(history, query) == Ok(PyStr.Contains(PyStr.Lower(res.value), queryLower));
          if PyStr.Contains(PyStr.Lower(res.value), queryLower) {
            matched := matched + [history];
          }
        }
        var prefix := histories[..i + 1];
        assert prefix[..|prefix| - 1] == histories[..i] && prefix[|prefix| - 1] == history;
        assert RecordMatches(history, query).Ok?;
        assert matched == before + if RecordMatches(history, query).value then [history] else [];
        assert Matching(prefix, query) == Ok(matched);
        i := i + 1;
      }
      assert histories[..|histories|] == histories;
      return Ok(matched);
    }
  }

  /** A save then a lookup of the fresh id finds the new record: it stands in front of any older one with that id. */
  lemma SavedThenFound(hs: seq<Record>, h: SearchHistory)
    ensures FirstWithId(SaveInto(hs, ToDict(h)), h.id) == Some(ToDict(h))
  {
  }

  /** After a save the store never holds more than 100 records, however many it held before. */
  lemma SaveCaps(hs: seq<Record>, d: Record)
    ensures |SaveInto(hs, d)| <= MaxRecords
    ensures |hs| >= MaxRecords ==> SaveInto(hs, d) == [d] + hs[..MaxRecords - 1]
  {
  }
}
