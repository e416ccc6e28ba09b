/** The ORCID directory source: a public search by name, and the first hit turned into a finding. */
module Orcid {
  import opened Wrappers
  import opened Schema
  import opened Inputs
  import opened SourceBase
  import opened Fetcher
  import opened SourceParse

  const OrcidSource := Source("orcid", "ORCID", "directories", {"name"}, OrcidSearch)

  /** The search endpoint; the name is appended as it is, without escaping. */
  const SearchPrefix := "https://pub.orcid.org/v3.0/search/?q="

  /** `build_requests`: nothing without a name, else one JSON search request for the raw name. */
  function OrcidRequests(inputs: LookupInputs): (r: seq<RequestSpec>)
    ensures !Truthy(inputs.name) ==> r == []
    ensures Truthy(inputs.name) ==> |r| == 1
    ensures Truthy(inputs.name) ==>
      r[0].url == SearchPrefix + inputs.name.value && r[0].inputType == "name"
      && r[0].headers == map["Accept" := "application/json"] && r[0].transport == "http"
  {
    if !Truthy(inputs.name) then []
    else [HttpRequest(SearchPrefix + inputs.name.value, "name", map["Accept" := "application/json"])]
  }

  /** One entry of the decoded `result` list: the `path` of its `orcid-identifier`, if present. */
  datatype OrcidHit = OrcidHit(path: Option<string>)

  /** The ORCID id of the first hit, `""` when it has none. */
  function FirstId(hits: seq<OrcidHit>): string
    requires hits != []
  {
    hits[0].path.GetOr("")
  }

  /**
   * `parse` over the decoded `result` list (a missing or null list is `[]`): nothing unless the
   * fetch returned a 200 with a body and there is a hit; otherwise one directory finding for the
   * searched name, identified by the first hit's ORCID id (or `unknown`), with evidence per stored
   * raw artifact.
   */
  method ParseOrcid(result: FetchResult, inputs: LookupInputs, rawInfo: seq<(string, string)>, hits: seq<OrcidHit>,
                    fetchedAt: string) returns (findings: seq<Finding>)
    requires Usable(result) && hits != [] ==> inputs.name.Some?
    ensures !Usable(result) || hits == [] ==> findings == []
    ensures Usable(result) && hits != [] ==>
      var id := FirstId(hits);
      findings == [DirectoryFinding("orcid", "orcid:" + (if id != "" then id else "unknown"), inputs.name,
                                    if id != "" then "https://orcid.org/" + id else "", inputs.name.value,
                                    RawEvidence("orcid", result.url, rawInfo, "orcid.search", inputs.name, fetchedAt))]
  {
    if !Usable(result) || hits == [] {
      return [];
    }
    var evidence := CollectEvidence("orcid", result.url, rawInfo, "orcid.search", inputs.name, fetchedAt);
    var orcidId := hits[0].path.GetOr("");
    var profileUrl := if orcidId != "" then "https://orcid.org/" + orcidId else "";
    var entity := Entity("orcid:" + (if orcidId != "" then orcidId else "unknown"), inputs.name, [profileUrl],
                         [Identifier("name", inputs.name.value, evidence)], evidence);
    findings := [Finding("orcid", "directory", entity, [], "low")];
  }

  /** A first hit without an id still yields the finding, as `orcid:unknown` with an empty profile URL. */
  method ParseOrcidWithoutId(result: FetchResult, name: string, rawInfo: seq<(string, string)>, fetchedAt: string)
    returns (findings: seq<Finding>)
    requires Usable(result)
    ensures |findings| == 1 && findings[0].entity.entityId == "orcid:unknown"
    ensures findings[0].entity.profileUrls == [""] && findings[0].entity.displayName == Some(name)
    ensures findings[0].confidence == "low" && |findings[0].entity.evidence| == |rawInfo|
  {
    findings := ParseOrcid(result, LookupInputs(None, None, None, Some(name)), rawInfo, [OrcidHit(None)], fetchedAt);
  }
}
