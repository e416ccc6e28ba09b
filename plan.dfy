/** The plan builder: which requests a lookup will make, in which order. */
module Plan {
  import opened Wrappers
  import opened Seqs
  import opened Inputs
  import opened SourceBase
  import opened Registry

  /** One unit of planned work: a request tagged with the source that asked for it. */
  datatype PlannedRequest = PlannedRequest(sourceId: string, url: string, inputType: string,
                                           headers: map<string, string>, transport: string)

  /**
   * A source's `build_requests` callable: it receives the whole inputs record and either returns
   * its requests or raises (`Failure`).
   */
  type Builder = (Source, LookupInputs) -> Result<seq<RequestSpec>>

  /** The names of the input fields holding a truthy value. */
  function PresentInputs(inputs: LookupInputs): (r: set<string>)
    ensures "username" in r <==> Truthy(inputs.username)
    ensures "email" in r <==> Truthy(inputs.email)
    ensures "phone" in r <==> Truthy(inputs.phone)
    ensures "name" in r <==> Truthy(inputs.name)
    ensures r <= {"username", "email", "phone", "name"}
  {
    (if Truthy(inputs.username) then {"username"} else {})
    + (if Truthy(inputs.email) then {"email"} else {})
    + (if Truthy(inputs.phone) then {"phone"} else {})
    + (if Truthy(inputs.name) then {"name"} else {})
  }

  /** The planned form of one request of `source`: the source's id plus the request's fields, unchanged. */
  function Planned(source: Source, q: RequestSpec): PlannedRequest {
    PlannedRequest(source.sourceId, q.url, q.inputType, q.headers, q.transport)
  }

  /** The requests of one source, in its order, each tagged with the source's id. */
  function Tagged(source: Source, reqs: seq<RequestSpec>): (r: seq<PlannedRequest>)
    ensures |r| == |reqs|
    ensures forall k :: 0 <= k < |r| ==>
      (r[k].sourceId == source.sourceId && r[k].url == reqs[k].url && r[k].inputType == reqs[k].inputType
       && r[k].headers == reqs[k].headers && r[k].transport == reqs[k].transport)
  {
    seq(|reqs|, k requires 0 <= k < |reqs| => Planned(source, reqs[k]))
  }

  /**
   * The plan for the selected sources taken in order: the concatenation of their tagged requests,
   * or the failure of the first source whose builder fails.
   */
  function PlanOf(selected: seq<Source>, inputs: LookupInputs, build: Builder): Result<seq<PlannedRequest>>
    decreases |selected|
  {
    if selected == [] then Success([])
    else
      var last := selected[|selected| - 1];
      match PlanOf(selected[..|selected| - 1], inputs, build)
      case Failure(e) => Failure(e)
      case Success(p) =>
        match build(last, inputs)
        case Failure(e) => Failure(e)
        case Success(reqs) => Success(p + Tagged(last, reqs))
  }

  /** `build_plan`: every request of every source that accepts one of the present inputs, in registry order. */
  method BuildPlan(inputs: LookupInputs, registry: SourceRegistry, build: Builder)
    returns (r: Result<seq<PlannedRequest>>)
    ensures r == PlanOf(registry.ForInputs(PresentInputs(inputs)), inputs, build)
  {
    var selected := registry.ForInputs(PresentInputs(inputs));
    var plan: seq<PlannedRequest> := [];
    var i := 0;
    while i < |selected|
      invariant 0 <= i <= |selected|
      invariant PlanOf(selected[..i], inputs, build) == Success(plan)
    {
      var source := selected[i];
      PlanStep(selected, i, inputs, build);
      var built := build(source, inputs);
      if built.Failure? {
        PlanFailureExtends(selected, i + 1, inputs, build);
        return Failure(built.error);
      }
      plan := AppendTagged(plan, source, built.value);
      i := i + 1;
    }
    assert selected[..i] == selected;
    return Success(plan);
  }

  /** The inner loop of `build_plan`: appends one source's requests, tagged, to the plan. */
  method AppendTagged(plan: seq<PlannedRequest>, source: Source, requests: seq<RequestSpec>)
    returns (r: seq<PlannedRequest>)
    ensures r == plan + Tagged(source, requests)
  {
    r := plan;
    var j := 0;
    while j < |requests|
      invariant 0 <= j <= |requests|
      invariant r == plan + Tagged(source, requests[..j])
    {
      r := r + [PlannedRequest(source.sourceId, requests[j].url, requests[j].inputType,
                               requests[j].headers, requests[j].transport)];
      assert Tagged(source, requests[..j + 1]) == Tagged(source, requests[..j]) + [Planned(source, requests[j])];
      j := j + 1;
    }
    assert requests[..j] == requests;
  }

  /** One more source of the selection: its builder's outcome decides the longer prefix's plan. */
  lemma PlanStep(ss: seq<Source>, i: nat, inputs: LookupInputs, build: Builder)
    requires i < |ss| && PlanOf(ss[..i], inputs, build).Success?
    ensures PlanOf(ss[..i + 1], inputs, build) ==
      match build(ss[i], inputs)
      case Failure(e) => Failure(e)
      case Success(reqs) => Success(PlanOf(ss[..i], inputs, build).value + Tagged(ss[i], reqs))
  {
    assert ss[..i + 1][..i] == ss[..i];
  }

  /** Once a prefix of the selection fails, the whole plan fails with the same error. */
  lemma {:induction false} PlanFailureExtends(ss: seq<Source>, k: nat, inputs: LookupInputs, build: Builder)
    requires k <= |ss|
    requires PlanOf(ss[..k], inputs, build).Failure?
    ensures PlanOf(ss, inputs, build) == PlanOf(ss[..k], inputs, build)
    decreases |ss| - k
  {
    if k < |ss| {
      assert ss[..k + 1][..k] == ss[..k];
      PlanFailureExtends(ss, k + 1, inputs, build);
    } else {
      assert ss[..k] == ss;
    }
  }

  /** The requests a source contributes when its builder succeeds. */
  function Built(s: Source, inputs: LookupInputs, build: Builder): seq<RequestSpec> {
    match build(s, inputs)
    case Success(reqs) => reqs
    case Failure(_) => []
  }

  /** The tagged requests of every source, one group per source. */
  function Groups(ss: seq<Source>, inputs: LookupInputs, build: Builder): (r: seq<seq<PlannedRequest>>)
    ensures |r| == |ss|
  {
    seq(|ss|, i requires 0 <= i < |ss| => Tagged(ss[i], Built(ss[i], inputs, build)))
  }

  /**
   * The plan succeeds exactly when every selected source's builder succeeds, and it is then the
   * concatenation of their tagged requests, so its length is the sum of theirs (no dedup).
   */
  lemma {:induction false} PlanIsConcatenation(ss: seq<Source>, inputs: LookupInputs, build: Builder)
    ensures PlanOf(ss, inputs, build).Success? <==> forall i :: 0 <= i < |ss| ==> build(ss[i], inputs).Success?
    ensures PlanOf(ss, inputs, build).Success? ==>
      PlanOf(ss, inputs, build).value == Flatten(Groups(ss, inputs, build))
      && |PlanOf(ss, inputs, build).value| == SumLengths(Groups(ss, inputs, build))
    decreases |ss|
  {
    if ss != [] {
      var init := ss[..|ss| - 1];
      var last := ss[|ss| - 1];
      PlanIsConcatenation(init, inputs, build);
      assert forall i :: 0 <= i < |init| ==> init[i] == ss[i];
      var g := Groups(ss, inputs, build);
      assert g == Groups(init, inputs, build) + [Tagged(last, Built(last, inputs, build))];
      FlattenAppend(Groups(init, inputs, build), [Tagged(last, Built(last, inputs, build))]);
      assert Flatten([Tagged(last, Built(last, inputs, build))]) == Tagged(last, Built(last, inputs, build));
    }
  }

  /** A failing plan carries the error of the first source whose builder fails. */
  lemma {:induction false} PlanFailureIsFirst(ss: seq<Source>, inputs: LookupInputs, build: Builder)
    requires PlanOf(ss, inputs, build).Failure?
    ensures exists k :: (0 <= k < |ss| && build(ss[k], inputs) == Failure(PlanOf(ss, inputs, build).error)
      && forall j :: 0 <= j < k ==> build(ss[j], inputs).Success?)
    decreases |ss|
  {
    var init := ss[..|ss| - 1];
    var last := ss[|ss| - 1];
    assert forall i :: 0 <= i < |init| ==> init[i] == ss[i];
    if PlanOf(init, inputs, build).Failure? {
      PlanFailureIsFirst(init, inputs, build);
      var k :| 0 <= k < |init| && build(init[k], inputs) == Failure(PlanOf(init, inputs, build).error)
        && (forall j :: 0 <= j < k ==> build(init[j], inputs).Success?);
      assert build(ss[k], inputs) == Failure(PlanOf(ss, inputs, build).error);
    } else {
      PlanIsConcatenation(init, inputs, build);
      assert build(ss[|ss| - 1], inputs) == Failure(PlanOf(ss, inputs, build).error);
    }
  }

  /** Every planned request carries the id of a source that accepts one of the present inputs. */
  lemma PlanComesFromSelectedSources(inputs: LookupInputs, registry: SourceRegistry, build: Builder)
    requires PlanOf(registry.ForInputs(PresentInputs(inputs)), inputs, build).Success?
    ensures forall p :: p in PlanOf(registry.ForInputs(PresentInputs(inputs)), inputs, build).value ==>
      exists s :: s in registry.sources && s.sourceId == p.sourceId && s.supportedInputs * PresentInputs(inputs) != {}
  {
    var ss := registry.ForInputs(PresentInputs(inputs));
    forall p | p in PlanOf(ss, inputs, build).value
      ensures exists s :: s in registry.sources && s.sourceId == p.sourceId && s.supportedInputs * PresentInputs(inputs) != {}
    {
      var i := PlanMemberGroup(ss, inputs, build, p);
      assert ss[i] in ss;
    }
  }

  /** The index of the selected source whose request `p` is. */
  lemma {:induction false} PlanMemberGroup(ss: seq<Source>, inputs: LookupInputs, build: Builder, p: PlannedRequest)
    returns (i: nat)
    requires PlanOf(ss, inputs, build).Success? && p in PlanOf(ss, inputs, build).value
    ensures i < |ss| && ss[i].sourceId == p.sourceId && p in Tagged(ss[i], Built(ss[i], inputs, build))
    decreases |ss|
  {
    var init := ss[..|ss| - 1];
    var last := ss[|ss| - 1];
    var prev := PlanOf(init, inputs, build).value;
    var reqs := build(last, inputs).value;
    if p in prev {
      i := PlanMemberGroup(init, inputs, build, p);
      assert init[i] == ss[i];
    } else {
      var k :| 0 <= k < |Tagged(last, reqs)| && Tagged(last, reqs)[k] == p;
      i := |ss| - 1;
    }
  }

  /** With only a username and one username source emitting one request, that source heads the plan. */
  lemma PlanUsernameExample(url: string)
    ensures
      var source := Source("example", "Example", "developer", {"username"}, HtmlProfile("https://example.com"));
      var build: Builder := (s, i) => Success([HttpRequest(url, "username", map[])]);
      var inputs := LookupInputs(Some("alice"), None, None, None);
      var plan := PlanOf(SourceRegistry([source]).ForInputs(PresentInputs(inputs)), inputs, build);
      plan.Success? && |plan.value| == 1 && plan.value[0].sourceId == "example" && plan.value[0].transport == "http"
  {
    var source := Source("example", "Example", "developer", {"username"}, HtmlProfile("https://example.com"));
    var inputs := LookupInputs(Some("alice"), None, None, None);
    assert "username" in PresentInputs(inputs);
    assert "username" in source.supportedInputs * PresentInputs(inputs);
    var sel := SourceRegistry([source]).ForInputs(PresentInputs(inputs));
    assert source in sel;
    assert sel == [source];
  }
}
