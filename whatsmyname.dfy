/** The WhatsMyName tool source: its request, and the findings read from the runner's JSON report. */
module WhatsMyName {
  import opened Wrappers
  import opened Schema
  import opened Inputs
  import opened SourceBase
  import opened SourceParse
  import opened Seqs

  const WhatsMyNameSource := Source("whatsmyname", "WhatsMyName", "tools", {"username"}, WhatsMyNameTool)

  /** One report result: the truthiness of its `matched` field and its string fields (`url`, `site_name`). */
  datatype ReportItem = ReportItem(matched: bool, fields: map<string, string>)

  /**
   * The finding of one result: only a matched result with a non-empty URL yields one, tagged with
   * its site name, or with the URL when the name is missing or empty.
   */
  function ItemFinding(run: ToolRun, item: ReportItem): (r: Option<Finding>)
    ensures r.Some? <==> item.matched && Truthy(Field(item.fields, "url"))
    ensures r.Some? ==> r.value.entity.profileUrls == [item.fields["url"]]
    ensures r.Some? ==> (r.value.entity.entityId == run.sourceId + ":" + run.username + ":"
      + (if Truthy(Field(item.fields, "site_name")) then item.fields["site_name"] else item.fields["url"]))
    ensures r.Some? ==> (r.value.entity.evidence
      == [Evidence(run.sourceId, item.fields["url"], run.rawPath, run.rawHash, run.sourceId + ".json",
                   Field(item.fields, "site_name"), run.fetchedAt)])
  {
    var url := Field(item.fields, "url");
    if !item.matched || !Truthy(url) then None
    else
      var siteName := Field(item.fields, "site_name");
      Some(ToolFinding(run, run.sourceId + ".json", url.value, siteName, if Truthy(siteName) then siteName.value else url.value))
  }

  function WhatsMyNameItem(run: ToolRun): ReportItem -> Option<Finding> {
    item => ItemFinding(run, item)
  }

  /**
   * `parse_whatsmyname_report` over the decoded `results` list (a missing list is `[]`): one finding
   * per matched result with a URL, in result order.
   */
  method ParseWhatsMyNameReport(results: seq<ReportItem>, run: ToolRun) returns (findings: seq<Finding>)
    ensures findings == Harvest(results, WhatsMyNameItem(run))
  {
    findings := [];
    for i := 0 to |results|
      invariant findings == Harvest(results[..i], WhatsMyNameItem(run))
    {
      var item := results[i];
      assert results[..i + 1] == results[..i] + [item];
      HarvestAppend(results[..i], item, WhatsMyNameItem(run));
      if !item.matched {
        continue;
      }
      var url := Field(item.fields, "url");
      if url.None? || url.value == "" {
        continue;
      }
      var siteName := Field(item.fields, "site_name");
      findings := findings + [ToolFinding(run, run.sourceId + ".json", url.value, siteName,
                                          if siteName.Some? && siteName.value != "" then siteName.value else url.value)];
    }
    assert results[..|results|] == results;
  }

  /** `x` is the finding of a matched result, with the run's provenance. */
  ghost predicate FromReport(x: Finding, run: ToolRun, results: seq<ReportItem>) {
    x.kind == "profile" && x.entity.displayName == Some(run.username) && |x.entity.evidence| == 1
    && x.entity.evidence[0].rawHash == run.rawHash && x.entity.evidence[0].rawPath == run.rawPath
    && x.entity.evidence[0].fetchedAt == run.fetchedAt
    && (exists i :: 0 <= i < |results| && results[i].matched
          && Field(results[i].fields, "url") == Some(x.entity.evidence[0].requestUrl)
          && x.entity.profileUrls == [x.entity.evidence[0].requestUrl])
  }

  /** Every finding of a report comes from a matched result's URL and carries the run's provenance. */
  lemma WhatsMyNameFindingsFromMatches(results: seq<ReportItem>, run: ToolRun)
    ensures |Harvest(results, WhatsMyNameItem(run))| <= |results|
    ensures forall x :: x in Harvest(results, WhatsMyNameItem(run)) ==> FromReport(x, run, results)
  {
    HarvestMembers(results, WhatsMyNameItem(run));
    forall x | x in Harvest(results, WhatsMyNameItem(run)) ensures FromReport(x, run, results) {
      var i :| YieldsAt(results, WhatsMyNameItem(run), i, x);
      assert ItemFinding(run, results[i]) == Some(x);
    }
  }

  /** A report with a matched and an unmatched result yields the matched account alone. */
  method WhatsMyNameReportExample(run: ToolRun) returns (findings: seq<Finding>)
    ensures |findings| == 1 && findings[0].entity.profileUrls == ["https://example.com/alice"]
  {
    var hit := ReportItem(true, map["url" := "https://example.com/alice", "site_name" := "Example"]);
    var miss := ReportItem(false, map["url" := "https://other.example/alice"]);
    findings := ParseWhatsMyNameReport([hit, miss], run);
    HarvestPair(hit, miss, WhatsMyNameItem(run));
  }
}
