/**
 * The line-based section parser of `academic_framework_planner`: the model's
 * markdown answer is split into the six sections of an academic paper.
 */
module Framework {
  import opened Wrappers
  import opened AgentState
  import PyStr

  /** A heading keyword: the Japanese word, checked on the line as it is, and the English one, checked on its lower-cased form. */
  datatype Keyword = Keyword(native: string, english: string, section: Section)

  /** The keywords in the order of the source's `elif` chain. */
  const Keywords: seq<Keyword> := [
    Keyword("背景", "introduction", Introduction),
    Keyword("目的", "objective", Objective),
    Keyword("方法", "methods", Methods),
    Keyword("結果", "results", Results),
    Keyword("考察", "discussion", Discussion),
    Keyword("結論", "conclusion", Conclusion)
  ]

  /** Does keyword `k` match this line? */
  predicate Matches(line: string, k: nat)
    requires k < |Keywords|
  {
    PyStr.Contains(line, Keywords[k].native) || PyStr.Contains(PyStr.Lower(line), Keywords[k].english)
  }

  /**
   * The section a line switches to: that of the first keyword in the chain
   * that matches, or none when no keyword does.
   */
  function Heading(line: string): (r: Option<Section>)
    ensures r.None? <==> forall k :: 0 <= k < |Keywords| ==> !Matches(line, k)
    ensures r.Some? ==> exists k :: 0 <= k < |Keywords| && Matches(line, k) && r.value == Keywords[k].section
                                   && forall j :: 0 <= j < k ==> !Matches(line, j)
  {
    var lower := PyStr.Lower(line);
    if PyStr.Contains(line, "背景") || PyStr.Contains(lower, "introduction") then
      assert Matches(line, 0); Some(Introduction)
    else if PyStr.Contains(line, "目的") || PyStr.Contains(lower, "objective") then
      assert Matches(line, 1); Some(Objective)
    else if PyStr.Contains(line, "方法") || PyStr.Contains(lower, "methods") then
      assert Matches(line, 2); Some(Methods)
    else if PyStr.Contains(line, "結果") || PyStr.Contains(lower, "results") then
      assert Matches(line, 3); Some(Results)
    else if PyStr.Contains(line, "考察") || PyStr.Contains(lower, "discussion") then
      assert Matches(line, 4); Some(Discussion)
    else if PyStr.Contains(line, "結論") || PyStr.Contains(lower, "conclusion") then
      assert Matches(line, 5); Some(Conclusion)
    else None
  }

  /** The six sections, all empty. */
  const EmptySections: map<Section, string> := map[
    Introduction := "", Objective := "", Methods := "",
    Results := "", Discussion := "", Conclusion := ""]

  /** Every section has a key in the dictionary. */
  lemma EverySectionKeyed(sec: Section)
    ensures sec in EmptySections
  {
    match sec
    case Introduction =>
    case Objective =>
    case Methods =>
    case Results =>
    case Discussion =>
    case Conclusion =>
  }

  /** The text collected so far for a section. */
  function TextOf(m: map<Section, string>, sec: Section): string {
    if sec in m then m[sec] else ""
  }

  /** The loop's variables: the section selected last and the sections dictionary. */
  datatype Parser = Parser(current: Option<Section>, sections: map<Section, string>)

  /**
   * One line: a heading selects its section and is not copied; any other
   * line that is not blank is appended, with a newline, to the selected section.
   */
  function ParseLine(p: Parser, line: string): Parser {
    match Heading(line)
    case Some(sec) => p.(current := Some(sec))
    case None =>
      if p.current.Some? && !PyStr.IsBlank(line) then
        p.(sections := p.sections[p.current.value := TextOf(p.sections, p.current.value) + line + "\n"])
      else p
  }

  /** The parser after a sequence of lines; the dictionary keeps exactly the six keys. */
  function ParseLines(lines: seq<string>): (p: Parser)
    ensures p.sections.Keys == EmptySections.Keys
    decreases |lines|
  {
    if lines == [] then Parser(None, EmptySections)
    else
      var p := ParseLines(lines[..|lines| - 1]);
      if p.current.Some? then EverySectionKeyed(p.current.value); ParseLine(p, lines[|lines| - 1])
      else ParseLine(p, lines[|lines| - 1])
  }

  /** What `academic_framework_planner` returns for the model's answer. */
  function ParseFramework(content: string): map<Section, string> {
    ParseLines(PyStr.Split(content, '\n')).sections
  }

  /** The parsing loop as the source writes it. */
  method AcademicFrameworkSections(content: string) returns (sections: map<Section, string>)
    ensures sections == ParseFramework(content)
    ensures sections.Keys == {Introduction, Objective, Methods, Results, Discussion, Conclusion}
  {
    sections := EmptySections;
    var current: Option<Section> := None;
    var lines := PyStr.Split(content, '\n');
    var i := 0;
    while i < |lines|
      invariant 0 <= i <= |lines|
      invariant Parser(current, sections) == ParseLines(lines[..i])
    {
      var line := lines[i];
      var lower := PyStr.Lower(line);
      if PyStr.Contains(line, "背景") || PyStr.Contains(lower, "introduction") {
        current := Some(Introduction);
      } else if PyStr.Contains(line, "目的") || PyStr.Contains(lower, "objective") {
        current := Some(Objective);
      } else if PyStr.Contains(line, "方法") || PyStr.Contains(lower, "methods") {
        current := Some(Methods);
      } else if PyStr.Contains(line, "結果") || PyStr.Contains(lower, "results") {
        current := Some(Results);
      } else if PyStr.Contains(line, "考察") || PyStr.Contains(lower, "discussion") {
        current := Some(Discussion);
      } else if PyStr.Contains(line, "結論") || PyStr.Contains(lower, "conclusion") {
        current := Some(Conclusion);
      } else if current.Some? && !PyStr.IsBlank(line) {
        sections := sections[current.value := TextOf(sections, current.value) + line + "\n"];
      }
      assert lines[..i + 1][..i] == lines[..i];
      i := i + 1;
    }
    assert lines[..|lines|] == lines;
  }

  /** The section selected after these lines: that of the last heading among them. */
  function LastHeading(lines: seq<string>): Option<Section>
    decreases |lines|
  {
    if lines == [] then None
    else if Heading(lines[|lines| - 1]).Some? then Heading(lines[|lines| - 1])
    else LastHeading(lines[..|lines| - 1])
  }

  /** Line `line`, which follows `before`, is copied into `sec`. */
  predicate CopiedInto(before: seq<string>, line: string, sec: Section) {
    Heading(line).None? && !PyStr.IsBlank(line) && LastHeading(before) == Some(sec)
  }

  /**
   * The reference reading of the parser: a section holds, in order and each
   * followed by a newline, the non-blank, non-heading lines whose last
   * preceding heading selects it.
   */
  function Collected(lines: seq<string>, sec: Section): string
    decreases |lines|
  {
    if lines == [] then ""
    else
      var before := lines[..|lines| - 1];
      var line := lines[|lines| - 1];
      Collected(before, sec) + (if CopiedInto(before, line, sec) then line + "\n" else "")
  }

  /** The parser computes the reference reading, section by section. */
  lemma {:induction false} ParserCollects(lines: seq<string>)
    ensures ParseLines(lines).current == LastHeading(lines)
    ensures forall sec :: TextOf(ParseLines(lines).sections, sec) == Collected(lines, sec)
    decreases |lines|
  {
    if lines != [] {
      ParserCollects(lines[..|lines| - 1]);
    }
  }

  /** Lines before the first heading are dropped: with no heading at all, every section stays empty. */
  lemma {:induction false} NoHeadingNoText(lines: seq<string>)
    requires forall i :: 0 <= i < |lines| ==> Heading(lines[i]).None?
    ensures LastHeading(lines) == None
    ensures forall sec :: Collected(lines, sec) == ""
    decreases |lines|
  {
    if lines != [] {
      NoHeadingNoText(lines[..|lines| - 1]);
    }
  }

  /** An answer without any heading keyword gives six empty sections. */
  lemma NoHeadingEmptyFramework(content: string)
    requires forall i :: 0 <= i < |PyStr.Split(content, '\n')| ==> Heading(PyStr.Split(content, '\n')[i]).None?
    ensures ParseFramework(content) == EmptySections
  {
    var lines := PyStr.Split(content, '\n');
    ParserCollects(lines);
    NoHeadingNoText(lines);
    var m := ParseFramework(content);
    forall sec | sec in m ensures m[sec] == EmptySections[sec] {
      assert TextOf(m, sec) == "";
    }
  }

  /** A blank line after `before` adds nothing to any section. */
  lemma BlankLineSkipped(before: seq<string>, line: string)
    requires PyStr.IsBlank(line)
    ensures forall sec :: Collected(before + [line], sec) == Collected(before, sec)
  {
    assert (before + [line])[..|before|] == before;
  }

}
