/** The plain-text summary of a run printed to the console. */
module Console {
  import opened Wrappers
  import opened Text
  import opened Inputs
  import opened Schema

  /** What a finding is called in a report: its display name when non-empty, else its entity id. */
  function Label(f: Finding): string {
    if Truthy(f.entity.displayName) then f.entity.displayName.value else f.entity.entityId
  }

  /** The report line of one finding: "- <source_id>: <label>". */
  function FindingLine(f: Finding): string {
    "- " + f.sourceId + ": " + Label(f)
  }

  /** One line per finding, in order. */
  function FindingLines(findings: seq<Finding>): (r: seq<string>)
    ensures |r| == |findings|
    ensures forall i :: 0 <= i < |findings| ==> r[i] == FindingLine(findings[i])
  {
    seq(|findings|, i requires 0 <= i < |findings| => FindingLine(findings[i]))
  }

  /** The lines of the console report: the run, the sources, a "Findings:" heading, then the findings. */
  function ConsoleLines(findings: seq<Finding>, sources: seq<string>, runId: string): seq<string> {
    ["OpenFootprint run " + runId, "Sources: " + Join(sources, ", "), "Findings:"] + FindingLines(findings)
  }

  /** `render_console`: collects the lines, appending one per finding, and joins them with newlines. */
  method RenderConsole(findings: seq<Finding>, sources: seq<string>, runId: string) returns (text: string)
    ensures text == Join(ConsoleLines(findings, sources, runId), "\n")
  {
    var lines := ["OpenFootprint run " + runId, "Sources: " + Join(sources, ", "), "Findings:"];
    for i := 0 to |findings|
      invariant lines == ["OpenFootprint run " + runId, "Sources: " + Join(sources, ", "), "Findings:"]
                         + FindingLines(findings[..i])
    {
      assert FindingLines(findings[..i + 1]) == FindingLines(findings[..i]) + [FindingLine(findings[i])];
      lines := lines + [FindingLine(findings[i])];
    }
    assert findings[..|findings|] == findings;
    text := Join(lines, "\n");
  }

  /** No newline in the run id, the source names, the source ids or the labels. */
  predicate SingleLineInputs(findings: seq<Finding>, sources: seq<string>, runId: string) {
    '\n' !in runId && (forall i :: 0 <= i < |sources| ==> '\n' !in sources[i])
    && forall i :: 0 <= i < |findings| ==> '\n' !in findings[i].sourceId && '\n' !in Label(findings[i])
  }

  /**
   * When no input holds a newline, splitting the report at newlines gives back exactly its
   * 3 + |findings| lines: the run line, the sources line, the heading, and one line per finding in
   * order; there is no trailing newline.
   */
  lemma ConsoleReportLines(findings: seq<Finding>, sources: seq<string>, runId: string)
    requires SingleLineInputs(findings, sources, runId)
    ensures SplitOn(Join(ConsoleLines(findings, sources, runId), "\n"), '\n') == ConsoleLines(findings, sources, runId)
    ensures |ConsoleLines(findings, sources, runId)| == 3 + |findings|
    ensures ConsoleLines(findings, sources, runId)[..3]
      == ["OpenFootprint run " + runId, "Sources: " + Join(sources, ", "), "Findings:"]
    ensures forall i :: 0 <= i < |findings| ==> ConsoleLines(findings, sources, runId)[3 + i] == FindingLine(findings[i])
  {
    var lines := ConsoleLines(findings, sources, runId);
    JoinAvoids(sources, ", ", '\n');
    forall i | 0 <= i < |lines| ensures '\n' !in lines[i] {
      if i >= 3 {
        assert lines[i] == "- " + findings[i - 3].sourceId + ": " + Label(findings[i - 3]);
      }
    }
    assert "\n" == ['\n'];
    SplitOnJoin(lines, '\n');
  }
}
