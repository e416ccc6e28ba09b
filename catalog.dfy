/**
 * The `build_requests` callable behind each kind of source, dispatched on the source's capability:
 * the builder the plan calls for every selected source.
 */
module Catalog {
  import opened Wrappers
  import opened Inputs
  import opened SourceBase
  import opened SourceParse
  import opened Registry
  import opened Plan
  import Profile
  import Orcid
  import Wikidata
  import OpenAlex

  /** The input kind a capability builds its request from: a name for the directories, else the username. */
  function CapabilityInput(c: Capability): string {
    if c.OrcidSearch? || c.WikidataSearch? || c.OpenAlexSearch? then "name" else "username"
  }

  /** Whether the lookup supplies the input kind `kind`. */
  predicate Supplies(inputs: LookupInputs, kind: string) {
    (kind == "username" && Truthy(inputs.username)) || (kind == "name" && Truthy(inputs.name))
  }

  /**
   * A source's `build_requests`: at most one request, for the capability's input kind and only
   * when the lookup supplies it, over the tool transport exactly for the tool sources; only a
   * profile template `str.format` rejects fails.
   */
  function Build(source: Source, inputs: LookupInputs): (r: Result<seq<RequestSpec>>)
    ensures r.Failure? ==> source.capability.HtmlProfile? && Truthy(inputs.username)
    ensures r.Success? ==> |r.value| <= 1
    ensures r.Success? && r.value != [] ==> Supplies(inputs, CapabilityInput(source.capability))
    ensures r.Success? ==> forall q :: q in r.value ==>
      q.inputType == CapabilityInput(source.capability) && (q.transport == ToolTransport <==> source.HasExecute())
  {
    match source.capability
    case HtmlProfile(template) => Profile.HtmlProfileRequests(template, inputs)
    case MastodonProfile => Success(Profile.MastodonRequests(inputs))
    case OrcidSearch => Success(Orcid.OrcidRequests(inputs))
    case WikidataSearch => Success(Wikidata.WikidataRequests(inputs))
    case OpenAlexSearch => Success(OpenAlex.OpenAlexRequests(inputs))
    case SherlockTool => Success(ToolRequests(source.sourceId, inputs))
    case MaigretTool => Success(ToolRequests(source.sourceId, inputs))
    case WhatsMyNameTool => Success(ToolRequests(source.sourceId, inputs))
  }

  /**
   * Every request of a plan built with the catalog asks for an input the lookup supplied, and runs
   * over the tool transport exactly when it belongs to a tool source.
   */
  lemma CatalogPlanUsesSuppliedInputs(inputs: LookupInputs, registry: SourceRegistry)
    requires PlanOf(registry.ForInputs(PresentInputs(inputs)), inputs, Build).Success?
    ensures forall p :: p in PlanOf(registry.ForInputs(PresentInputs(inputs)), inputs, Build).value ==>
      p.inputType in PresentInputs(inputs)
    ensures forall p :: p in PlanOf(registry.ForInputs(PresentInputs(inputs)), inputs, Build).value ==>
      exists s :: s in registry.sources && s.sourceId == p.sourceId && (p.transport == ToolTransport <==> s.HasExecute())
  {
    var ss := registry.ForInputs(PresentInputs(inputs));
    PlanIsConcatenation(ss, inputs, Build);
    forall p | p in PlanOf(ss, inputs, Build).value
      ensures p.inputType in PresentInputs(inputs)
      ensures exists s :: s in registry.sources && s.sourceId == p.sourceId && (p.transport == ToolTransport <==> s.HasExecute())
    {
      var i := PlanMemberGroup(ss, inputs, Build, p);
      var reqs := Built(ss[i], inputs, Build);
      assert Build(ss[i], inputs).Success?;
      var k :| 0 <= k < |reqs| && Tagged(ss[i], reqs)[k] == p;
      assert reqs[k] in reqs;
      assert ss[i] in ss;
    }
  }
}
