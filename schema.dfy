/**
 * The records every other part of the lookup pipeline exchanges (Evidence, Identifier, Entity,
 * Artifact, Finding, RunManifest) and their `to_dict` serialisations. Each serialiser is paired
 * with a decoder and a lemma that decoding the serialised form gives the record back.
 */
module Schema {
  import opened Wrappers
  import opened Json

  /** A provenance record tying a claim to a stored raw artifact. */
  datatype Evidence = Evidence(
    sourceId: string,
    requestUrl: string,
    rawPath: string,
    rawHash: string,
    parserId: string,
    matchExcerpt: Option<string>,
    fetchedAt: string)
  {
    /** The seven fields under their Python names; a missing excerpt becomes `null`. */
    function ToDict(): (r: Json)
      ensures r.JObj?
      ensures r.fields.Keys
        == {"source_id", "request_url", "raw_path", "raw_hash", "parser_id", "match_excerpt", "fetched_at"}
    {
      JObj(map[
        "source_id" := JStr(sourceId),
        "request_url" := JStr(requestUrl),
        "raw_path" := JStr(rawPath),
        "raw_hash" := JStr(rawHash),
        "parser_id" := JStr(parserId),
        "match_excerpt" := OptStr(matchExcerpt),
        "fetched_at" := JStr(fetchedAt)])
    }
  }

  /** A typed key (`kind` is Python's `type`: "username", "email", "name", ...) with its evidence. */
  datatype Identifier = Identifier(kind: string, value: string, evidence: seq<Evidence>)
  {
    function ToDict(): (r: Json)
      ensures r.JObj? && r.fields.Keys == {"type", "value", "evidence"}
      ensures r.fields["evidence"].JArr? && |r.fields["evidence"].items| == |evidence|
      ensures forall i :: 0 <= i < |evidence| ==> r.fields["evidence"].items[i] == evidence[i].ToDict()
    {
      JObj(map["type" := JStr(kind), "value" := JStr(value), "evidence" := EvidenceList(evidence)])
    }
  }

  /** A provisional identity record. */
  datatype Entity = Entity(
    entityId: string,
    displayName: Option<string>,
    profileUrls: seq<string>,
    identifiers: seq<Identifier>,
    evidence: seq<Evidence>)
  {
    function ToDict(): (r: Json)
      ensures r.JObj?
      ensures r.fields.Keys == {"entity_id", "display_name", "profile_urls", "identifiers", "evidence"}
      ensures r.fields["profile_urls"] == StrList(profileUrls)
      ensures r.fields["identifiers"].JArr? && |r.fields["identifiers"].items| == |identifiers|
      ensures forall i :: 0 <= i < |identifiers| ==> r.fields["identifiers"].items[i] == identifiers[i].ToDict()
      ensures r.fields["evidence"].JArr? && |r.fields["evidence"].items| == |evidence|
      ensures forall i :: 0 <= i < |evidence| ==> r.fields["evidence"].items[i] == evidence[i].ToDict()
    {
      JObj(map[
        "entity_id" := JStr(entityId),
        "display_name" := OptStr(displayName),
        "profile_urls" := StrList(profileUrls),
        "identifiers" := JArr(EncodeList(identifiers, (x: Identifier) => x.ToDict())),
        "evidence" := EvidenceList(evidence)])
    }
  }

  /** A free-standing, non-identity piece of evidence such as a search hit. */
  datatype Artifact = Artifact(url: string, title: Option<string>, snippet: Option<string>, evidence: seq<Evidence>)
  {
    function ToDict(): (r: Json)
      ensures r.JObj? && r.fields.Keys == {"url", "title", "snippet", "evidence"}
      ensures r.fields["evidence"].JArr? && |r.fields["evidence"].items| == |evidence|
      ensures forall i :: 0 <= i < |evidence| ==> r.fields["evidence"].items[i] == evidence[i].ToDict()
    {
      JObj(map["url" := JStr(url), "title" := OptStr(title), "snippet" := OptStr(snippet), "evidence" := EvidenceList(evidence)])
    }
  }

  /** One source's contribution (`kind` is Python's `type`: "profile", "directory", ...). */
  datatype Finding = Finding(sourceId: string, kind: string, entity: Entity, artifacts: seq<Artifact>, confidence: string)
  {
    function ToDict(): (r: Json)
      ensures r.JObj? && r.fields.Keys == {"source_id", "type", "entity", "artifacts", "confidence"}
      ensures r.fields["entity"] == entity.ToDict()
      ensures r.fields["artifacts"].JArr? && |r.fields["artifacts"].items| == |artifacts|
      ensures forall i :: 0 <= i < |artifacts| ==> r.fields["artifacts"].items[i] == artifacts[i].ToDict()
    {
      JObj(map[
        "source_id" := JStr(sourceId),
        "type" := JStr(kind),
        "entity" := entity.ToDict(),
        "artifacts" := JArr(EncodeList(artifacts, (a: Artifact) => a.ToDict())),
        "confidence" := JStr(confidence)])
    }
  }

  /** The confidence a Finding gets when none is given. */
  const DefaultConfidence := "medium"

  /** `Finding(source_id, type, entity)` with the dataclass defaults for the other two fields. */
  function NewFinding(sourceId: string, kind: string, entity: Entity): (f: Finding)
    ensures f.artifacts == [] && f.confidence == "medium"
    ensures f.sourceId == sourceId && f.kind == kind && f.entity == entity
  {
    Finding(sourceId, kind, entity, [], DefaultConfidence)
  }

  /** The record of one run. */
  datatype RunManifest = RunManifest(
    runId: string,
    inputs: map<string, Option<string>>,
    sources: seq<string>,
    startedAt: string,
    finishedAt: Option<string>,
    config: map<string, Json>)
  {
    function ToDict(): (r: Json)
      ensures r.JObj? && r.fields.Keys == {"run_id", "inputs", "sources", "started_at", "finished_at", "config"}
      ensures r.fields["config"] == JObj(config) && r.fields["finished_at"] == OptStr(finishedAt)
    {
      JObj(map[
        "run_id" := JStr(runId),
        "inputs" := JObj(map k | k in inputs :: OptStr(inputs[k])),
        "sources" := StrList(sources),
        "started_at" := JStr(startedAt),
        "finished_at" := OptStr(finishedAt),
        "config" := JObj(config)])
    }
  }

  function EvidenceList(es: seq<Evidence>): Json {
    JArr(EncodeList(es, (e: Evidence) => e.ToDict()))
  }

  // Decoders: the inverses of the serialisers above, failing on any other shape.

  function EvidenceFromDict(j: Json): Option<Evidence> {
    if !j.JObj? then None
    else
      var m := j.fields;
      var sourceId, requestUrl, rawPath := StrAt(m, "source_id"), StrAt(m, "request_url"), StrAt(m, "raw_path");
      var rawHash, parserId, excerpt := StrAt(m, "raw_hash"), StrAt(m, "parser_id"), OptStrAt(m, "match_excerpt");
      var fetchedAt := StrAt(m, "fetched_at");
      if sourceId.Some? && requestUrl.Some? && rawPath.Some? && rawHash.Some? && parserId.Some? && excerpt.Some?
         && fetchedAt.Some?
      then Some(Evidence(sourceId.value, requestUrl.value, rawPath.value, rawHash.value, parserId.value,
                         excerpt.value, fetchedAt.value))
      else None
  }

  function EvidenceListFromDict(j: Json): Option<seq<Evidence>> {
    if j.JArr? then DecodeList(j.items, EvidenceFromDict) else None
  }

  function StrListFromDict(j: Json): Option<seq<string>> {
    if j.JArr? then DecodeList(j.items, AsStr) else None
  }

  function IdentifierFromDict(j: Json): Option<Identifier> {
    if !j.JObj? then None
    else
      var m := j.fields;
      var kind, value := StrAt(m, "type"), StrAt(m, "value");
      var evidence := if "evidence" in m then EvidenceListFromDict(m["evidence"]) else None;
      if kind.Some? && value.Some? && evidence.Some? then Some(Identifier(kind.value, value.value, evidence.value))
      else None
  }

  function EntityFromDict(j: Json): Option<Entity> {
    if !j.JObj? then None
    else
      var m := j.fields;
      var entityId, displayName := StrAt(m, "entity_id"), OptStrAt(m, "display_name");
      var urls := if "profile_urls" in m then StrListFromDict(m["profile_urls"]) else None;
      var identifiers :=
        if "identifiers" in m && m["identifiers"].JArr? then DecodeList(m["identifiers"].items, IdentifierFromDict)
        else None;
      var evidence := if "evidence" in m then EvidenceListFromDict(m["evidence"]) else None;
      if entityId.Some? && displayName.Some? && urls.Some? && identifiers.Some? && evidence.Some?
      then Some(Entity(entityId.value, displayName.value, urls.value, identifiers.value, evidence.value))
      else None
  }

  function ArtifactFromDict(j: Json): Option<Artifact> {
    if !j.JObj? then None
    else
      var m := j.fields;
      var url, title, snippet := StrAt(m, "url"), OptStrAt(m, "title"), OptStrAt(m, "snippet");
      var evidence := if "evidence" in m then EvidenceListFromDict(m["evidence"]) else None;
      if url.Some? && title.Some? && snippet.Some? && evidence.Some?
      then Some(Artifact(url.value, title.value, snippet.value, evidence.value))
      else None
  }

  function FindingFromDict(j: Json): Option<Finding> {
    if !j.JObj? then None
    else
      var m := j.fields;
      var sourceId, kind, confidence := StrAt(m, "source_id"), StrAt(m, "type"), StrAt(m, "confidence");
      var entity := if "entity" in m then EntityFromDict(m["entity"]) else None;
      var artifacts :=
        if "artifacts" in m && m["artifacts"].JArr? then DecodeList(m["artifacts"].items, ArtifactFromDict)
        else None;
      if sourceId.Some? && kind.Some? && confidence.Some? && entity.Some? && artifacts.Some?
      then Some(Finding(sourceId.value, kind.value, entity.value, artifacts.value, confidence.value))
      else None
  }

  function ManifestFromDict(j: Json): Option<RunManifest> {
    if !j.JObj? then None
    else
      var m := j.fields;
      var runId, startedAt, finishedAt := StrAt(m, "run_id"), StrAt(m, "started_at"), OptStrAt(m, "finished_at");
      var sources := if "sources" in m then StrListFromDict(m["sources"]) else None;
      var inputs :=
        if "inputs" in m && m["inputs"].JObj? && (forall k :: k in m["inputs"].fields ==> AsOptStr(m["inputs"].fields[k]).Some?)
        then Some(map k | k in m["inputs"].fields :: AsOptStr(m["inputs"].fields[k]).value)
        else None;
      var config := if "config" in m && m["config"].JObj? then Some(m["config"].fields) else None;
      if runId.Some? && startedAt.Some? && finishedAt.Some? && sources.Some? && inputs.Some? && config.Some?
      then Some(RunManifest(runId.value, inputs.value, sources.value, startedAt.value, finishedAt.value, config.value))
      else None
  }

  // Round trips: each `to_dict` loses nothing.

  lemma EvidenceRoundTrip(e: Evidence)
    ensures EvidenceFromDict(e.ToDict()) == Some(e)
  {
  }

  lemma EvidenceListRoundTrip(es: seq<Evidence>)
    ensures EvidenceListFromDict(EvidenceList(es)) == Some(es)
  {
    DecodeEncodeList(es, (e: Evidence) => e.ToDict(), EvidenceFromDict);
  }

  lemma StrListRoundTrip(xs: seq<string>)
    ensures StrListFromDict(StrList(xs)) == Some(xs)
  {
    DecodeEncodeList(xs, (s: string) => JStr(s), AsStr);
  }

  lemma IdentifierRoundTrip(x: Identifier)
    ensures IdentifierFromDict(x.ToDict()) == Some(x)
  {
    EvidenceListRoundTrip(x.evidence);
  }

  lemma EntityRoundTrip(e: Entity)
    ensures EntityFromDict(e.ToDict()) == Some(e)
  {
    var m := e.ToDict().fields;
    assert StrAt(m, "entity_id") == Some(e.entityId);
    assert OptStrAt(m, "display_name") == Some(e.displayName) by {
      assert m["display_name"] == OptStr(e.displayName);
    }
    assert StrListFromDict(m["profile_urls"]) == Some(e.profileUrls) by {
      StrListRoundTrip(e.profileUrls);
    }
    assert DecodeList(m["identifiers"].items, IdentifierFromDict) == Some(e.identifiers) by {
      assert m["identifiers"] == JArr(EncodeList(e.identifiers, (x: Identifier) => x.ToDict()));
      IdentifierListRoundTrip(e.identifiers);
    }
    assert EvidenceListFromDict(m["evidence"]) == Some(e.evidence) by {
      assert m["evidence"] == EvidenceList(e.evidence);
      EvidenceListRoundTrip(e.evidence);
    }
  }

  lemma IdentifierListRoundTrip(ids: seq<Identifier>)
    ensures DecodeList(EncodeList(ids, (x: Identifier) => x.ToDict()), IdentifierFromDict) == Some(ids)
  {
    forall i | 0 <= i < |ids| ensures IdentifierFromDict(ids[i].ToDict()) == Some(ids[i]) {
      IdentifierRoundTrip(ids[i]);
    }
    DecodeEncodeList(ids, (x: Identifier) => x.ToDict(), IdentifierFromDict);
  }

  lemma ArtifactRoundTrip(a: Artifact)
    ensures ArtifactFromDict(a.ToDict()) == Some(a)
  {
    EvidenceListRoundTrip(a.evidence);
  }

  lemma FindingRoundTrip(f: Finding)
    ensures FindingFromDict(f.ToDict()) == Some(f)
  {
    var m := f.ToDict().fields;
    EntityRoundTrip(f.entity);
    assert EntityFromDict(m["entity"]) == Some(f.entity);
    forall i | 0 <= i < |f.artifacts| ensures ArtifactFromDict(f.artifacts[i].ToDict()) == Some(f.artifacts[i]) {
      ArtifactRoundTrip(f.artifacts[i]);
    }
    DecodeEncodeList(f.artifacts, (a: Artifact) => a.ToDict(), ArtifactFromDict);
    assert m["artifacts"] == JArr(EncodeList(f.artifacts, (a: Artifact) => a.ToDict()));
    assert StrAt(m, "source_id") == Some(f.sourceId);
    assert StrAt(m, "type") == Some(f.kind);
    assert StrAt(m, "confidence") == Some(f.confidence);
  }

  lemma ManifestRoundTrip(r: RunManifest)
    ensures ManifestFromDict(r.ToDict()) == Some(r)
  {
    StrListRoundTrip(r.sources);
    var j := r.ToDict().fields["inputs"];
    assert j.JObj?;
    assert (map k | k in j.fields :: AsOptStr(j.fields[k]).value) == r.inputs;
  }
}
