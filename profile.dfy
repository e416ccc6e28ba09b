/**
 * HTML profile sources: a URL template filled with the username, one request per lookup, and a
 * parse that turns a 200 page into one profile finding. Mastodon differs only in how it builds
 * its URL, from a `user@instance` handle.
 */
module Profile {
  import opened Wrappers
  import opened Schema
  import opened Inputs
  import opened SourceBase
  import opened Fetcher
  import opened SourceParse
  import Url

  /** `r` with `prefix` put in front of its value; failures pass through. */
  function Prefixed(prefix: string, r: Result<string>): Result<string> {
    match r
    case Success(s) => Success(prefix + s)
    case Failure(e) => Failure(e)
  }

  /** No brace in `s`: Python's `str.format` copies it unchanged. */
  predicate BraceFree(s: string) {
    '{' !in s && '}' !in s
  }

  /**
   * Python's `template.format(username=u)`: `{username}` becomes `u`, `{{` and `}}` become single
   * braces and a lone `}` raises. Every other replacement field is a failure here. Python raises for
   * most of them (`{}`, `{0}`, `{name}`), but it formats the index, attribute, conversion and
   * format-spec forms of the `username` field (`{username[0]}`, `{username.upper}`, `{username!r}`,
   * `{username:>10}`), which this model does not.
   */
  function FormatUsername(template: string, username: string): Result<string>
    decreases |template|
  {
    if template == [] then Success([])
    else if template[0] == '{' then
      if |template| >= 2 && template[1] == '{' then Prefixed("{", FormatUsername(template[2..], username))
      else if "{username}" <= template then Prefixed(username, FormatUsername(template[10..], username))
      else Failure("unsupported replacement field in format string")
    else if template[0] == '}' then
      if |template| >= 2 && template[1] == '}' then Prefixed("}", FormatUsername(template[2..], username))
      else Failure("Single '}' encountered in format string")
    else Prefixed([template[0]], FormatUsername(template[1..], username))
  }

  /** A template without braces formats to itself. */
  lemma {:induction false} FormatBraceFree(s: string, username: string)
    requires BraceFree(s)
    ensures FormatUsername(s, username) == Success(s)
    decreases |s|
  {
    if s != [] {
      assert BraceFree(s[1..]);
      FormatBraceFree(s[1..], username);
      assert [s[0]] + s[1..] == s;
    }
  }

  /** Filling the placeholder: the username lands verbatim between the template's brace-free parts. */
  lemma {:induction false} FormatPlaceholder(prefix: string, suffix: string, username: string)
    requires BraceFree(prefix) && BraceFree(suffix)
    ensures FormatUsername(prefix + "{username}" + suffix, username) == Success(prefix + username + suffix)
    decreases |prefix|
  {
    if prefix == [] {
      FormatAtPlaceholder(suffix, username);
      FormatBraceFree(suffix, username);
      ConsSplit(prefix, "{username}", suffix);
      ConsSplit(prefix, username, suffix);
    } else {
      ConsSplit(prefix, "{username}", suffix);
      FormatPlainHead(prefix[0], prefix[1..] + "{username}" + suffix, username);
      assert BraceFree(prefix[1..]);
      FormatPlaceholder(prefix[1..], suffix, username);
      ConsSplit(prefix, username, suffix);
    }
  }

  /** How a three-part string splits at its first character. */
  lemma ConsSplit(p: string, m: string, s: string)
    ensures p == [] ==> p + m + s == m + s
    ensures p != [] ==> p + m + s == [p[0]] + (p[1..] + m + s)
  {
    if p != [] {
      assert p == [p[0]] + p[1..];
    }
  }

  /** A template starting with a character other than a brace: that character, then the rest formatted. */
  lemma FormatPlainHead(c: char, rest: string, username: string)
    requires c != '{' && c != '}'
    ensures FormatUsername([c] + rest, username) == Prefixed([c], FormatUsername(rest, username))
  {
    assert ([c] + rest)[1..] == rest;
  }

  /** A template starting with the placeholder: the username, then the rest formatted. */
  lemma FormatAtPlaceholder(rest: string, username: string)
    ensures FormatUsername("{username}" + rest, username) == Prefixed(username, FormatUsername(rest, username))
  {
    var t := "{username}" + rest;
    assert t[0] == '{' && t[1] == 'u';
    assert t[..10] == "{username}";
    assert t[10..] == rest;
  }

  /**
   * `HtmlProfileSource.build_requests`: nothing without a username, otherwise one username request
   * for the filled template, with no extra headers; a template `format` rejects raises.
   */
  function HtmlProfileRequests(urlTemplate: string, inputs: LookupInputs): (r: Result<seq<RequestSpec>>)
    ensures !Truthy(inputs.username) ==> r == Success([])
    ensures Truthy(inputs.username) ==>
      (r.Success? <==> FormatUsername(urlTemplate, inputs.username.value).Success?)
    ensures Truthy(inputs.username) && r.Success? ==>
      r.value == [HttpRequest(FormatUsername(urlTemplate, inputs.username.value).value, "username", map[])]
  {
    if !Truthy(inputs.username) then Success([])
    else
      match FormatUsername(urlTemplate, inputs.username.value)
      case Success(url) => Success([HttpRequest(url, "username", map[])])
      case Failure(e) => Failure(e)
  }

  /** For a template with one placeholder, the single request is for the profile URL of the username. */
  lemma HtmlProfileRequestsFill(prefix: string, suffix: string, inputs: LookupInputs)
    requires BraceFree(prefix) && BraceFree(suffix) && Truthy(inputs.username)
    ensures HtmlProfileRequests(prefix + "{username}" + suffix, inputs)
      == Success([RequestSpec(prefix + inputs.username.value + suffix, "username", map[], "http")])
  {
    FormatPlaceholder(prefix, suffix, inputs.username.value);
  }

  /**
   * `HtmlProfileSource.parse`: nothing unless the fetch returned a 200 with a body; otherwise one
   * medium-confidence profile finding whose evidence holds one record per stored raw artifact,
   * shared by the entity and its single username identifier. The page title is extracted by the
   * caller and `fetchedAt` is the caller's clock reading.
   */
  method ParseProfile(sourceId: string, result: FetchResult, inputs: LookupInputs, rawInfo: seq<(string, string)>,
                      title: Option<string>, fetchedAt: string) returns (findings: seq<Finding>)
    requires Usable(result) ==> inputs.username.Some?
    ensures !Usable(result) ==> findings == []
    ensures Usable(result) ==> |findings| == 1
    ensures Usable(result) ==>
      var f := findings[0];
      var evidence := RawEvidence(sourceId, result.url, rawInfo, sourceId + ".profile", title, fetchedAt);
      f.sourceId == sourceId && f.kind == "profile" && f.confidence == "medium" && f.artifacts == []
      && f.entity.entityId == sourceId + ":" + inputs.username.value
      && f.entity.displayName == title && f.entity.profileUrls == [result.url]
      && f.entity.identifiers == [Identifier("username", inputs.username.value, evidence)]
      && f.entity.evidence == evidence
  {
    if !Usable(result) {
      return [];
    }
    var evidence := CollectEvidence(sourceId, result.url, rawInfo, sourceId + ".profile", title, fetchedAt);
    var username := inputs.username.value;
    var identifier := Identifier("username", username, evidence);
    var entity := Entity(sourceId + ":" + username, title, [result.url], [identifier], evidence);
    findings := [Finding(sourceId, "profile", entity, [], "medium")];
  }

  /** A page with no stored raw artifacts still yields its finding, keyed by the username. */
  method ParseProfileWithoutRaw(sourceId: string, url: string, body: seq<byte>, title: Option<string>, fetchedAt: string)
    returns (findings: seq<Finding>)
    requires body != []
    ensures |findings| == 1 && |findings[0].entity.identifiers| == 1
    ensures findings[0].entity.identifiers[0].value == "alice"
    ensures findings[0].sourceId == sourceId && findings[0].entity.evidence == []
  {
    var result := FetchResult(url, Some(200), map[], Some(body), None, false);
    findings := ParseProfile(sourceId, result, LookupInputs(Some("alice"), None, None, None), [], title, fetchedAt);
  }

  /** `make_html_profile_source`: a username-only source whose behaviour is the HTML profile template. */
  function MakeHtmlProfileSource(sourceId: string, name: string, category: string, urlTemplate: string): (s: Source)
    ensures s.supportedInputs == {"username"} && s.capability == HtmlProfile(urlTemplate)
    ensures s.sourceId == sourceId && s.name == name && s.category == category && !s.HasExecute()
  {
    Source(sourceId, name, category, {"username"}, HtmlProfile(urlTemplate))
  }

  /** The Mastodon source: username lookups, parsed like any HTML profile. */
  const MastodonSource := Source("mastodon", "Mastodon", "social", {"username"}, MastodonProfile)

  /**
   * `MastodonSource.build_requests`: a handle `user@instance` (split at its first `@`) becomes one
   * request for `https://instance/@user`; a missing username, or one without `@`, gives nothing.
   */
  function MastodonRequests(inputs: LookupInputs): (r: seq<RequestSpec>)
    ensures r == [] <==> !Truthy(inputs.username) || '@' !in inputs.username.value
    ensures r != [] ==> |r| == 1 && r[0].inputType == "username" && r[0].headers == map[] && r[0].transport == "http"
  {
    if !Truthy(inputs.username) then []
    else
      var handle := inputs.username.value;
      var at := Url.FirstOf(handle, {'@'});
      if at == |handle| then []
      else [HttpRequest("https://" + handle[at + 1..] + "/@" + handle[..at], "username", map[])]
  }

  /** The split is at the first `@`: the instance keeps any later `@` and the user is everything before. */
  lemma MastodonSplitsAtFirstAt(user: string, instance: string, inputs: LookupInputs)
    requires '@' !in user
    requires inputs.username == Some(user + "@" + instance)
    ensures MastodonRequests(inputs) == [RequestSpec("https://" + instance + "/@" + user, "username", map[], "http")]
  {
    var handle := user + "@" + instance;
    assert handle == user + ("@" + instance);
    Url.FirstOfPrefix(handle, |user|, {'@'});
    assert handle[..|user|] == user;
    assert handle[|user| + 1..] == instance;
  }
}
