/** The Sherlock tool source: its request, and the findings read from the CSV report it writes. */
module Sherlock {
  import opened Wrappers
  import opened Text
  import opened Schema
  import opened Inputs
  import opened SourceBase
  import opened SourceParse
  import opened Seqs

  const SherlockSource := Source("sherlock", "Sherlock", "tools", {"username"}, SherlockTool)

  /** The `exists` column of a row, stripped and lower-cased; `""` when the row has none. */
  function ExistsCell(row: map<string, string>): string {
    Lower(Strip(Field(row, "exists").GetOr("")))
  }

  /** The row says the account exists. */
  predicate ClaimsExists(row: map<string, string>) {
    ExistsCell(row) in {"true", "1", "yes"}
  }

  /** The row claims the account and names its URL `url`: the rows a report's findings come from. */
  predicate KeptAt(row: map<string, string>, url: string) {
    ClaimsExists(row) && RowUrl(row) == Some(url) && url != ""
  }

  /** The account URL of a row: `url_user` when non-empty, else `url`. */
  function RowUrl(row: map<string, string>): Option<string> {
    if Truthy(Field(row, "url_user")) then Field(row, "url_user") else Field(row, "url")
  }

  /**
   * The finding of one CSV row: only a row claiming the account exists and naming a URL yields one,
   * a profile at that URL tagged with the row's site name (or the URL when it has none).
   */
  function RowFinding(run: ToolRun, row: map<string, string>): (r: Option<Finding>)
    ensures r.Some? <==> ClaimsExists(row) && Truthy(RowUrl(row))
    ensures r.Some? ==> r.value.entity.profileUrls == [RowUrl(row).value]
    ensures r.Some? ==> (r.value.entity.evidence
      == [Evidence(run.sourceId, RowUrl(row).value, run.rawPath, run.rawHash, run.sourceId + ".csv", Field(row, "name"),
                   run.fetchedAt)])
    ensures r.Some? ==> (r.value.entity.entityId
      == run.sourceId + ":" + run.username + ":" + (if Truthy(Field(row, "name")) then row["name"] else RowUrl(row).value))
  {
    if !ClaimsExists(row) || !Truthy(RowUrl(row)) then None
    else
      var url := RowUrl(row).value;
      var name := Field(row, "name");
      Some(ToolFinding(run, run.sourceId + ".csv", url, name, if Truthy(name) then name.value else url))
  }

  function SherlockRow(run: ToolRun): map<string, string> -> Option<Finding> {
    row => RowFinding(run, row)
  }

  /**
   * `parse_sherlock_csv` over the decoded rows (column name to cell): one finding per kept row, in
   * row order. The file path, its hash and the read time are `run`'s.
   */
  method ParseSherlockCsv(rows: seq<map<string, string>>, run: ToolRun) returns (findings: seq<Finding>)
    ensures findings == Harvest(rows, SherlockRow(run))
  {
    findings := [];
    for i := 0 to |rows|
      invariant findings == Harvest(rows[..i], SherlockRow(run))
    {
      var row := rows[i];
      assert rows[..i + 1] == rows[..i] + [row];
      HarvestAppend(rows[..i], row, SherlockRow(run));
      var claimed := ExistsCell(row) in {"true", "1", "yes"};
      if !claimed {
        continue;
      }
      var url := if "url_user" in row && row["url_user"] != "" then Field(row, "url_user") else Field(row, "url");
      if url.None? || url.value == "" {
        continue;
      }
      var name := Field(row, "name");
      findings := findings + [ToolFinding(run, run.sourceId + ".csv", url.value, name,
                                          if name.Some? && name.value != "" then name.value else url.value)];
    }
    assert rows[..|rows|] == rows;
  }

  /** `x` is the finding of a claimed row at `url`, with the run's provenance. */
  ghost predicate FromReport(x: Finding, run: ToolRun, rows: seq<map<string, string>>) {
    x.kind == "profile" && x.entity.displayName == Some(run.username) && |x.entity.evidence| == 1
    && x.entity.evidence[0].rawHash == run.rawHash && x.entity.evidence[0].rawPath == run.rawPath
    && x.entity.evidence[0].fetchedAt == run.fetchedAt
    && x.entity.profileUrls == [x.entity.evidence[0].requestUrl]
    && (exists i :: 0 <= i < |rows| && KeptAt(rows[i], x.entity.evidence[0].requestUrl))
  }

  /**
   * Every finding of a report is a profile of the looked-up user at the URL of a row that claims
   * the account, with evidence carrying the report's path, hash and read time.
   */
  lemma SherlockFindingsFromClaimedRows(rows: seq<map<string, string>>, run: ToolRun)
    ensures |Harvest(rows, SherlockRow(run))| <= |rows|
    ensures forall x :: x in Harvest(rows, SherlockRow(run)) ==> FromReport(x, run, rows)
  {
    HarvestMembers(rows, SherlockRow(run));
    forall x | x in Harvest(rows, SherlockRow(run)) ensures FromReport(x, run, rows) {
      var i :| YieldsAt(rows, SherlockRow(run), i, x);
      assert RowFinding(run, rows[i]) == Some(x);
      assert KeptAt(rows[i], x.entity.evidence[0].requestUrl);
    }
  }

  /** A row claiming an account, and one that does not say. */
  const ClaimedRow := map["url_user" := "https://example.com/alice", "exists" := "1"]
  const SilentRow := map["url_user" := "https://other.example/alice"]

  lemma ClaimedRowKept(run: ToolRun)
    ensures RowFinding(run, ClaimedRow).Some?
    ensures RowFinding(run, ClaimedRow).value.entity.profileUrls == ["https://example.com/alice"]
  {
    assert Field(ClaimedRow, "exists") == Some("1");
    assert Strip("1") == "1" by { StripTrimmed("1"); }
    assert Lower("1") == "1";
    assert RowUrl(ClaimedRow) == Some("https://example.com/alice");
  }

  lemma SilentRowSkipped(run: ToolRun)
    ensures RowFinding(run, SilentRow).None?
  {
    assert Field(SilentRow, "exists") == None;
    assert Strip("") == "";
  }

  /** A report with one claimed and one silent row yields the claimed account alone. */
  method SherlockReportExample(run: ToolRun) returns (findings: seq<Finding>)
    ensures |findings| == 1 && findings[0].entity.profileUrls == ["https://example.com/alice"]
  {
    findings := ParseSherlockCsv([ClaimedRow, SilentRow], run);
    ClaimedRowKept(run);
    SilentRowSkipped(run);
    HarvestPair(ClaimedRow, SilentRow, SherlockRow(run));
  }
}
