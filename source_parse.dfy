/**
 * What the sources share: the request of the external-tool sources, the "usable response" test,
 * the evidence list built from the stored raw artifacts, and the per-item harvesting of findings
 * that the tool report parsers do.
 */
module SourceParse {
  import opened Wrappers
  import opened Schema
  import opened Inputs
  import opened SourceBase
  import opened Fetcher

  /**
   * `build_requests` of the Sherlock, Maigret and WhatsMyName sources: nothing without a username,
   * else one `tool://<source>/<username>` request that the pipeline hands to the tool.
   */
  function ToolRequests(sourceId: string, inputs: LookupInputs): (r: seq<RequestSpec>)
    ensures !Truthy(inputs.username) ==> r == []
    ensures Truthy(inputs.username) ==> |r| == 1
    ensures Truthy(inputs.username) ==>
      r[0].url == "tool://" + sourceId + "/" + inputs.username.value && r[0].inputType == "username"
      && r[0].headers == map[] && r[0].transport == ToolTransport
  {
    if !Truthy(inputs.username) then []
    else [RequestSpec("tool://" + sourceId + "/" + inputs.username.value, "username", map[], ToolTransport)]
  }

  /** `parse` of the tool sources: a fetched page never yields findings, the tool's report does. */
  function ToolPageFindings(result: FetchResult, inputs: LookupInputs, rawInfo: seq<(string, string)>): (r: seq<Finding>)
    ensures r == []
  {
    []
  }

  /** `result.status_code == 200 and result.content`: a 200 response with a non-empty body. */
  predicate Usable(result: FetchResult) {
    result.statusCode == Some(200) && result.content.Some? && result.content.value != []
  }

  /**
   * One Evidence per stored `(raw_path, raw_hash)` pair, in order, all pointing at the same
   * request, parser, excerpt and fetch time.
   */
  function RawEvidence(sourceId: string, requestUrl: string, rawInfo: seq<(string, string)>, parserId: string,
                       excerpt: Option<string>, fetchedAt: string): (r: seq<Evidence>)
    ensures |r| == |rawInfo|
    ensures forall i :: 0 <= i < |rawInfo| ==>
      r[i] == Evidence(sourceId, requestUrl, rawInfo[i].0, rawInfo[i].1, parserId, excerpt, fetchedAt)
  {
    seq(|rawInfo|, i requires 0 <= i < |rawInfo| =>
      Evidence(sourceId, requestUrl, rawInfo[i].0, rawInfo[i].1, parserId, excerpt, fetchedAt))
  }

  /** The `for raw_path, raw_hash in raw_info: evidence.append(...)` loop of the page and directory parsers. */
  method CollectEvidence(sourceId: string, requestUrl: string, rawInfo: seq<(string, string)>, parserId: string,
                         excerpt: Option<string>, fetchedAt: string) returns (evidence: seq<Evidence>)
    ensures evidence == RawEvidence(sourceId, requestUrl, rawInfo, parserId, excerpt, fetchedAt)
  {
    evidence := [];
    for i := 0 to |rawInfo|
      invariant evidence == RawEvidence(sourceId, requestUrl, rawInfo[..i], parserId, excerpt, fetchedAt)
    {
      var (rawPath, rawHash) := rawInfo[i];
      evidence := evidence + [Evidence(sourceId, requestUrl, rawPath, rawHash, parserId, excerpt, fetchedAt)];
    }
    assert rawInfo[..|rawInfo|] == rawInfo;
  }

  /** Python's `d.get(key)` on a decoded object whose values are strings. */
  function Field(d: map<string, string>, key: string): (r: Option<string>)
    ensures r.Some? <==> key in d
    ensures r.Some? ==> r.value == d[key]
  {
    if key in d then Some(d[key]) else None
  }

  /** The one finding a directory search yields: a low-confidence directory entry keyed by the searched name. */
  function DirectoryFinding(sourceId: string, entityId: string, displayName: Option<string>, profileUrl: string,
                            name: string, evidence: seq<Evidence>): (f: Finding)
    ensures f.sourceId == sourceId && f.kind == "directory" && f.confidence == "low" && f.artifacts == []
    ensures f.entity.entityId == entityId && f.entity.displayName == displayName
    ensures f.entity.profileUrls == [profileUrl] && f.entity.evidence == evidence
    ensures f.entity.identifiers == [Identifier("name", name, evidence)]
  {
    Finding(sourceId, "directory", Entity(entityId, displayName, [profileUrl], [Identifier("name", name, evidence)], evidence),
            [], "low")
  }

  /** Where and when a tool's report file was read: the same for every finding of one parse. */
  datatype ToolRun = ToolRun(sourceId: string, username: string, rawPath: string, rawHash: string, fetchedAt: string)

  /**
   * The finding of one account a tool reports at `url`: a profile of `run.username` with one
   * Evidence, shared by the entity and its username identifier.
   */
  function ToolFinding(run: ToolRun, parserId: string, url: string, excerpt: Option<string>, tag: string): (f: Finding)
    ensures f.sourceId == run.sourceId && f.kind == "profile" && f.confidence == "medium" && f.artifacts == []
    ensures f.entity.entityId == run.sourceId + ":" + run.username + ":" + tag
    ensures f.entity.displayName == Some(run.username) && f.entity.profileUrls == [url]
    ensures f.entity.evidence == [Evidence(run.sourceId, url, run.rawPath, run.rawHash, parserId, excerpt, run.fetchedAt)]
    ensures f.entity.identifiers == [Identifier("username", run.username, f.entity.evidence)]
  {
    var evidence := Evidence(run.sourceId, url, run.rawPath, run.rawHash, parserId, excerpt, run.fetchedAt);
    NewFinding(run.sourceId, "profile",
      Entity(run.sourceId + ":" + run.username + ":" + tag, Some(run.username), [url],
             [Identifier("username", run.username, [evidence])], [evidence]))
  }
}
