/** The Maigret tool source: its request, and the findings read from the JSON report it writes. */
module Maigret {
  import opened Wrappers
  import opened Schema
  import opened Inputs
  import opened SourceBase
  import opened SourceParse
  import opened Seqs

  const MaigretSource := Source("maigret", "Maigret", "tools", {"username"}, MaigretTool)

  /**
   * One report entry: the site name and the string fields of its `status` object (empty when the
   * entry has no status, or a null one).
   */
  type SiteEntry = (string, map<string, string>)

  /** The finding of one site: only a status with a non-empty URL yields one, tagged with the site name. */
  function SiteFinding(run: ToolRun, entry: SiteEntry): (r: Option<Finding>)
    ensures r.Some? <==> Truthy(Field(entry.1, "url"))
    ensures r.Some? ==> r.value.entity.profileUrls == [entry.1["url"]]
    ensures r.Some? ==> r.value.entity.entityId == run.sourceId + ":" + run.username + ":" + entry.0
    ensures r.Some? ==> (r.value.entity.evidence
      == [Evidence(run.sourceId, entry.1["url"], run.rawPath, run.rawHash, run.sourceId + ".json", Some(entry.0),
                   run.fetchedAt)])
  {
    var url := Field(entry.1, "url");
    if !Truthy(url) then None
    else Some(ToolFinding(run, run.sourceId + ".json", url.value, Some(entry.0), entry.0))
  }

  function MaigretSite(run: ToolRun): SiteEntry -> Option<Finding> {
    entry => SiteFinding(run, entry)
  }

  /**
   * `parse_maigret_json` over the report's entries in the order the decoded object yields them:
   * one finding per site whose status names a URL, in that order.
   */
  method ParseMaigretJson(entries: seq<SiteEntry>, run: ToolRun) returns (findings: seq<Finding>)
    ensures findings == Harvest(entries, MaigretSite(run))
  {
    findings := [];
    for i := 0 to |entries|
      invariant findings == Harvest(entries[..i], MaigretSite(run))
    {
      var (siteName, status) := entries[i];
      assert entries[..i + 1] == entries[..i] + [entries[i]];
      HarvestAppend(entries[..i], entries[i], MaigretSite(run));
      var url := Field(status, "url");
      if url.None? || url.value == "" {
        continue;
      }
      findings := findings + [ToolFinding(run, run.sourceId + ".json", url.value, Some(siteName), siteName)];
    }
    assert entries[..|entries|] == entries;
  }

  /** `x` is the finding of a site with a status URL, with the run's provenance. */
  ghost predicate FromReport(x: Finding, run: ToolRun, entries: seq<SiteEntry>) {
    x.kind == "profile" && x.entity.displayName == Some(run.username) && |x.entity.evidence| == 1
    && x.entity.evidence[0].rawHash == run.rawHash && x.entity.evidence[0].rawPath == run.rawPath
    && x.entity.evidence[0].fetchedAt == run.fetchedAt
    && (exists i :: 0 <= i < |entries| && Field(entries[i].1, "url") == Some(x.entity.evidence[0].requestUrl)
          && x.entity.profileUrls == [x.entity.evidence[0].requestUrl]
          && x.entity.evidence[0].matchExcerpt == Some(entries[i].0))
  }

  /**
   * Every finding of a report is a profile of the looked-up user at the status URL of one of the
   * report's sites, with evidence naming the site and carrying the report's path, hash and read time.
   */
  lemma MaigretFindingsFromSites(entries: seq<SiteEntry>, run: ToolRun)
    ensures |Harvest(entries, MaigretSite(run))| <= |entries|
    ensures forall x :: x in Harvest(entries, MaigretSite(run)) ==> FromReport(x, run, entries)
  {
    HarvestMembers(entries, MaigretSite(run));
    forall x | x in Harvest(entries, MaigretSite(run)) ensures FromReport(x, run, entries) {
      var i :| YieldsAt(entries, MaigretSite(run), i, x);
      assert SiteFinding(run, entries[i]) == Some(x);
    }
  }

  /** A report with a found and an unfound site yields the found account alone. */
  method MaigretReportExample(run: ToolRun) returns (findings: seq<Finding>)
    ensures |findings| == 1 && findings[0].entity.profileUrls == ["https://github.com/alice"]
  {
    var found: SiteEntry := ("GitHub", map["url" := "https://github.com/alice"]);
    var missing: SiteEntry := ("GitLab", map[]);
    findings := ParseMaigretJson([found, missing], run);
    HarvestPair(found, missing, MaigretSite(run));
  }
}
