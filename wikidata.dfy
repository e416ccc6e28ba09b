/** The Wikidata directory source: an entity search by name, and the first hit turned into a finding. */
module Wikidata {
  import opened Wrappers
  import opened Schema
  import opened Inputs
  import opened SourceBase
  import opened Fetcher
  import opened SourceParse

  const WikidataSource := Source("wikidata", "Wikidata", "directories", {"name"}, WikidataSearch)

  /** The search endpoint; the name is appended as it is, without escaping. */
  const SearchPrefix := "https://www.wikidata.org/w/api.php?action=wbsearchentities&format=json&language=en&search="

  /** `build_requests`: nothing without a name, else one plain search request for the raw name. */
  function WikidataRequests(inputs: LookupInputs): (r: seq<RequestSpec>)
    ensures !Truthy(inputs.name) ==> r == []
    ensures Truthy(inputs.name) ==> |r| == 1
    ensures Truthy(inputs.name) ==>
      r[0].url == SearchPrefix + inputs.name.value && r[0].inputType == "name" && r[0].headers == map[]
      && r[0].transport == "http"
  {
    if !Truthy(inputs.name) then [] else [HttpRequest(SearchPrefix + inputs.name.value, "name", map[])]
  }

  /**
   * `parse` over the decoded `search` list (a missing or null list is `[]`), each hit an object of
   * string fields: nothing unless the fetch returned a 200 with a body and there is a hit;
   * otherwise one directory finding built from the first hit only (its id, label and concept URI).
   */
  method ParseWikidata(result: FetchResult, inputs: LookupInputs, rawInfo: seq<(string, string)>,
                       hits: seq<map<string, string>>, fetchedAt: string) returns (findings: seq<Finding>)
    requires Usable(result) && hits != [] ==> inputs.name.Some?
    ensures !Usable(result) || hits == [] ==> findings == []
    ensures Usable(result) && hits != [] ==>
      findings == [DirectoryFinding("wikidata", "wikidata:" + Field(hits[0], "id").GetOr("unknown"),
                                    Field(hits[0], "label"), Field(hits[0], "concepturi").GetOr(""), inputs.name.value,
                                    RawEvidence("wikidata", result.url, rawInfo, "wikidata.search", inputs.name, fetchedAt))]
  {
    if !Usable(result) || hits == [] {
      return [];
    }
    var evidence := CollectEvidence("wikidata", result.url, rawInfo, "wikidata.search", inputs.name, fetchedAt);
    var hit := hits[0];
    var entity := Entity("wikidata:" + (if "id" in hit then hit["id"] else "unknown"),
                         if "label" in hit then Some(hit["label"]) else None,
                         [if "concepturi" in hit then hit["concepturi"] else ""],
                         [Identifier("name", inputs.name.value, evidence)], evidence);
    findings := [Finding("wikidata", "directory", entity, [], "low")];
  }
}
