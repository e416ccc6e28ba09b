/** The summary of Sherlock findings that the name-intelligence command prints: one URL per finding. */
module SherlockValidate {
  import opened Wrappers
  import opened Seqs

  /**
   * The two entity fields the summary reads; a missing, null or empty `profile_urls` is `[]`.
   */
  datatype EntityView = EntityView(profileUrls: seq<string>, displayName: Option<string>)

  /** One finding as a decoded dictionary: its entity, `None` when missing, null or empty. */
  datatype FindingView = FindingView(entity: Option<EntityView>)

  /** One line of the summary. */
  datatype Summary = Summary(url: string, displayName: Option<string>)

  /**
   * The summary of one finding (a null finding is an empty one): its first profile URL with the
   * display name, or nothing when there is no URL or the first one is empty.
   */
  function SummaryOf(f: Option<FindingView>): (r: Option<Summary>)
    ensures (r.Some? <==> f.Some? && f.value.entity.Some? && f.value.entity.value.profileUrls != []
                          && f.value.entity.value.profileUrls[0] != "")
    ensures r.Some? ==> r.value == Summary(f.value.entity.value.profileUrls[0], f.value.entity.value.displayName)
  {
    var entity := if f.Some? && f.value.entity.Some? then f.value.entity.value else EntityView([], None);
    var url := if entity.profileUrls != [] then Some(entity.profileUrls[0]) else None;
    if url.None? || url.value == "" then None else Some(Summary(url.value, entity.displayName))
  }

  /** `summarize_sherlock_findings`: the summaries of the findings that have one, in input order. */
  method SummarizeSherlockFindings(findings: seq<Option<FindingView>>) returns (out: seq<Summary>)
    ensures out == Harvest(findings, SummaryOf)
  {
    out := [];
    for i := 0 to |findings|
      invariant out == Harvest(findings[..i], SummaryOf)
    {
      HarvestAppend(findings[..i], findings[i], SummaryOf);
      assert findings[..i + 1] == findings[..i] + [findings[i]];
      var entity := if findings[i].Some? && findings[i].value.entity.Some? then findings[i].value.entity.value
                    else EntityView([], None);
      var url := if entity.profileUrls != [] then Some(entity.profileUrls[0]) else None;
      if url.None? || url.value == "" {
        continue;
      }
      out := out + [Summary(url.value, entity.displayName)];
    }
    assert findings[..|findings|] == findings;
  }

  /**
   * The summary is never longer than the input, every line is the first profile URL and display
   * name of some input finding, and it is empty exactly when no finding has a non-empty first URL.
   */
  lemma SummariesFromFindings(findings: seq<Option<FindingView>>)
    ensures |Harvest(findings, SummaryOf)| <= |findings|
    ensures forall s :: s in Harvest(findings, SummaryOf) ==> (exists i :: (0 <= i < |findings|
      && findings[i].Some? && findings[i].value.entity.Some? && findings[i].value.entity.value.profileUrls != []
      && s == Summary(findings[i].value.entity.value.profileUrls[0], findings[i].value.entity.value.displayName)))
    ensures Harvest(findings, SummaryOf) == [] <==> forall i :: 0 <= i < |findings| ==> SummaryOf(findings[i]).None?
  {
    HarvestMembers(findings, SummaryOf);
    forall s | s in Harvest(findings, SummaryOf)
      ensures exists i :: (0 <= i < |findings|
        && findings[i].Some? && findings[i].value.entity.Some? && findings[i].value.entity.value.profileUrls != []
        && s == Summary(findings[i].value.entity.value.profileUrls[0], findings[i].value.entity.value.displayName))
    {
      var i := HarvestSource(findings, SummaryOf, s);
    }
  }

  /** One finding with one GitHub URL: the summary is that URL with the display name. */
  method GitHubExample() returns (out: seq<Summary>)
    ensures out == [Summary("https://github.com/johndoe", Some("johndoe"))]
  {
    var f := Some(FindingView(Some(EntityView(["https://github.com/johndoe"], Some("johndoe")))));
    out := SummarizeSherlockFindings([f]);
    assert [f] == [] + [f];
    HarvestAppend([], f, SummaryOf);
  }
}
