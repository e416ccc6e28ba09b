/** The OpenAlex directory source: an author search by name, and the first hit turned into a finding. */
module OpenAlex {
  import opened Wrappers
  import opened Schema
  import opened Inputs
  import opened SourceBase
  import opened Fetcher
  import opened SourceParse

  const OpenAlexSource := Source("openalex", "OpenAlex", "directories", {"name"}, OpenAlexSearch)

  /** The search endpoint; the name is appended as it is, without escaping. */
  const SearchPrefix := "https://api.openalex.org/authors?search="

  /** `build_requests`: nothing without a name, else one plain search request for the raw name. */
  function OpenAlexRequests(inputs: LookupInputs): (r: seq<RequestSpec>)
    ensures !Truthy(inputs.name) ==> r == []
    ensures Truthy(inputs.name) ==> |r| == 1
    ensures Truthy(inputs.name) ==>
      r[0].url == SearchPrefix + inputs.name.value && r[0].inputType == "name" && r[0].headers == map[]
      && r[0].transport == "http"
  {
    if !Truthy(inputs.name) then [] else [HttpRequest(SearchPrefix + inputs.name.value, "name", map[])]
  }

  /**
   * `parse` over the decoded `results` list (a missing or null list is `[]`), each hit an object of
   * string fields: nothing unless the fetch returned a 200 with a body and there is a hit;
   * otherwise one directory finding built from the first hit only: its id (also its profile URL)
   * and its display name.
   */
  method ParseOpenAlex(result: FetchResult, inputs: LookupInputs, rawInfo: seq<(string, string)>,
                       hits: seq<map<string, string>>, fetchedAt: string) returns (findings: seq<Finding>)
    requires Usable(result) && hits != [] ==> inputs.name.Some?
    ensures !Usable(result) || hits == [] ==> findings == []
    ensures Usable(result) && hits != [] ==>
      findings == [DirectoryFinding("openalex", "openalex:" + Field(hits[0], "id").GetOr("unknown"),
                                    Field(hits[0], "display_name"), Field(hits[0], "id").GetOr(""), inputs.name.value,
                                    RawEvidence("openalex", result.url, rawInfo, "openalex.search", inputs.name, fetchedAt))]
  {
    if !Usable(result) || hits == [] {
      return [];
    }
    var evidence := CollectEvidence("openalex", result.url, rawInfo, "openalex.search", inputs.name, fetchedAt);
    var hit := hits[0];
    var entity := Entity("openalex:" + (if "id" in hit then hit["id"] else "unknown"),
                         if "display_name" in hit then Some(hit["display_name"]) else None,
                         [if "id" in hit then hit["id"] else ""],
                         [Identifier("name", inputs.name.value, evidence)], evidence);
    findings := [Finding("openalex", "directory", entity, [], "low")];
  }
}
