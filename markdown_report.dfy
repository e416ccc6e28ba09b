/** The Markdown report of a run: a title, the run id, the sources and the findings. */
module MarkdownReport {
  import opened Wrappers
  import opened Text
  import opened Schema
  import opened Console

  /** The six header lines: the title, the run, the "Sources" heading, with blank lines between. */
  function Header(runId: string): seq<string> {
    ["# OpenFootprint Report", "", "Run: " + runId, "", "## Sources", ""]
  }

  /** One "- <source>" line per source, in order, repeats kept. */
  function SourceLines(sources: seq<string>): (r: seq<string>)
    ensures |r| == |sources|
    ensures forall i :: 0 <= i < |sources| ==> r[i] == "- " + sources[i]
  {
    seq(|sources|, i requires 0 <= i < |sources| => "- " + sources[i])
  }

  /** The lines of the report; the final empty line makes the text end with a newline. */
  function MarkdownLines(findings: seq<Finding>, sources: seq<string>, runId: string): seq<string> {
    Header(runId) + SourceLines(sources) + ["", "## Findings"] + FindingLines(findings) + [""]
  }

  /** `render_markdown`: appends a line per source, the findings heading, a line per finding, a blank line; joins with newlines. */
  method RenderMarkdown(findings: seq<Finding>, sources: seq<string>, runId: string) returns (text: string)
    ensures text == Join(MarkdownLines(findings, sources, runId), "\n")
  {
    var lines := ["# OpenFootprint Report", "", "Run: " + runId, "", "## Sources", ""];
    for i := 0 to |sources|
      invariant lines == Header(runId) + SourceLines(sources[..i])
    {
      assert SourceLines(sources[..i + 1]) == SourceLines(sources[..i]) + ["- " + sources[i]];
      lines := lines + ["- " + sources[i]];
    }
    assert sources[..|sources|] == sources;
    lines := lines + [""];
    lines := lines + ["## Findings"];
    ghost var head := lines;
    for i := 0 to |findings|
      invariant lines == head + FindingLines(findings[..i])
    {
      assert FindingLines(findings[..i + 1]) == FindingLines(findings[..i]) + [FindingLine(findings[i])];
      lines := lines + [FindingLine(findings[i])];
    }
    assert findings[..|findings|] == findings;
    lines := lines + [""];
    assert head == Header(runId) + SourceLines(sources) + ["", "## Findings"];
    assert lines == MarkdownLines(findings, sources, runId);
    text := Join(lines, "\n");
  }

  /**
   * The report starts with the title line, ends with a newline, names every source, and has
   * 9 + |sources| + |findings| lines, one per finding in order after the "## Findings" heading.
   */
  lemma MarkdownReportShape(findings: seq<Finding>, sources: seq<string>, runId: string)
    ensures var lines := MarkdownLines(findings, sources, runId);
      |lines| == 9 + |sources| + |findings| && lines[..6] == Header(runId) && lines[7 + |sources|] == "## Findings"
      && (forall i :: 0 <= i < |findings| ==> lines[8 + |sources| + i] == FindingLine(findings[i]))
    ensures "# OpenFootprint Report" <= Join(MarkdownLines(findings, sources, runId), "\n")
    ensures var text := Join(MarkdownLines(findings, sources, runId), "\n");
      text != [] && text[|text| - 1] == '\n'
  {
    var lines := MarkdownLines(findings, sources, runId);
    var body := Header(runId) + SourceLines(sources) + ["", "## Findings"] + FindingLines(findings);
    JoinEmptyLast(body, "\n");
    assert lines == body + [""];
    assert Join(lines, "\n")[..|"# OpenFootprint Report"|] == "# OpenFootprint Report";
  }

  /** Every source name appears in the report text. */
  lemma MarkdownNamesSources(findings: seq<Finding>, sources: seq<string>, runId: string, i: nat)
    requires i < |sources|
    ensures Contains(Join(MarkdownLines(findings, sources, runId), "\n"), sources[i])
  {
    var lines := MarkdownLines(findings, sources, runId);
    assert lines[6 + i] == "- " + sources[i];
    assert sources[i] <= sources[i];
    ContainsAfter("- ", sources[i], sources[i]);
    JoinContainsPart(lines, "\n", 6 + i);
    ContainsTransitive(Join(lines, "\n"), lines[6 + i], sources[i]);
  }

  /** Text inside a piece of `s` is inside `s`. */
  lemma {:induction false} ContainsTransitive(s: string, mid: string, sub: string)
    requires Contains(s, mid) && Contains(mid, sub)
    ensures Contains(s, sub)
    decreases |s|
  {
    if mid <= s {
      PrefixContains(mid, s, sub);
    } else {
      ContainsTransitive(s[1..], mid, sub);
    }
  }

  /** Text inside a prefix of `s` is inside `s`. */
  lemma PrefixContains(mid: string, s: string, sub: string)
    requires mid <= s && Contains(mid, sub)
    ensures Contains(s, sub)
  {
    ContainsBefore(mid, s[|mid|..], sub);
    assert mid + s[|mid|..] == s;
  }
}
