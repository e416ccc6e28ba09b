/**
 * The bundled WhatsMyName runner: the rule that decides from one HTTP response whether an account
 * exists on a site, and the shaping of a site entry and its response into a report result. The
 * HTTP call itself is outside the model: its status code and body text are parameters.
 */
module WhatsMyNameRunner {
  import opened Wrappers
  import opened Text
  import opened Inputs
  import opened Schema
  import opened SourceParse
  import WhatsMyName

  /**
   * The fields of one site entry of the WhatsMyName data file that the runner reads; an absent key
   * is `None`. The codes are integers when present.
   */
  datatype Site = Site(name: Option<string>, uriCheck: string, uriPretty: Option<string>, postBody: Option<string>,
                       mCode: Option<int>, mString: Option<string>, eCode: Option<int>, eString: Option<string>)

  /** The placeholder the data file uses for the account name. */
  const AccountField := "{account}"

  /** The response shows the account: the match code, or a non-empty match string in the body. */
  predicate ShowsAccount(site: Site, statusCode: int, body: string) {
    site.mCode == Some(statusCode) || (Truthy(site.mString) && Contains(body, site.mString.value))
  }

  /** The response shows the account is absent: the error code, or a non-empty error string in the body. */
  predicate ShowsAbsence(site: Site, statusCode: int, body: string) {
    site.eCode == Some(statusCode) || (Truthy(site.eString) && Contains(body, site.eString.value))
  }

  /**
   * `evaluate_match`: true when the response matches the site's "exists" signals, else false when
   * it matches its "missing" signals, else undecided. The "exists" signals win when both match.
   */
  function EvaluateMatch(site: Site, statusCode: int, body: string): (r: Option<bool>)
    ensures r == Some(true) <==> ShowsAccount(site, statusCode, body)
    ensures r == Some(false) <==> !ShowsAccount(site, statusCode, body) && ShowsAbsence(site, statusCode, body)
    ensures r == None <==> !ShowsAccount(site, statusCode, body) && !ShowsAbsence(site, statusCode, body)
  {
    if site.mCode.Some? && statusCode == site.mCode.value then Some(true)
    else if Truthy(site.mString) && Contains(body, site.mString.value) then Some(true)
    else if site.eCode.Some? && statusCode == site.eCode.value then Some(false)
    else if Truthy(site.eString) && Contains(body, site.eString.value) then Some(false)
    else None
  }

  /** A site with match code 200 and error code 404: a 200 is a hit and a 404 a miss, whatever the body. */
  lemma MatchCodeExample(body: string)
    ensures EvaluateMatch(Site(None, "", None, None, Some(200), None, Some(404), None), 200, body) == Some(true)
    ensures EvaluateMatch(Site(None, "", None, None, Some(200), None, Some(404), None), 404, body) == Some(false)
  {
  }

  /** The request `check_site` sends: a POST with the filled body when the site has a non-empty one, else a GET. */
  datatype SiteRequest = Get(url: string) | Post(url: string, data: string)

  /** The request for one site and username: every `{account}` in the check URL and the POST body is the username. */
  function RequestFor(site: Site, username: string): (r: SiteRequest)
    ensures r.url == ReplaceAll(site.uriCheck, AccountField, username)
    ensures r.Post? <==> Truthy(site.postBody)
    ensures r.Post? ==> r.data == ReplaceAll(site.postBody.value, AccountField, username)
  {
    var url := ReplaceAll(site.uriCheck, AccountField, username);
    if Truthy(site.postBody) then Post(url, ReplaceAll(site.postBody.value, AccountField, username))
    else Get(url)
  }

  /** One entry of the runner's `results` list. */
  datatype MatchResult = MatchResult(siteName: string, url: string, statusCode: int)

  /**
   * `check_site` once the response is known: a result only when the match rule says true; its site
   * name is the site's non-empty name or else the check URL, and its URL is the pretty URL (the check
   * URL when the site has none) with the username filled in.
   */
  function CheckSite(site: Site, username: string, statusCode: int, body: string): (r: Option<MatchResult>)
    ensures r.Some? <==> EvaluateMatch(site, statusCode, body) == Some(true)
    ensures r.Some? ==> r.value.statusCode == statusCode
    ensures r.Some? ==> (r.value.siteName
      == if Truthy(site.name) then site.name.value else RequestFor(site, username).url)
    ensures r.Some? ==> (r.value.url
      == ReplaceAll(site.uriPretty.GetOr(RequestFor(site, username).url), AccountField, username))
  {
    var url := RequestFor(site, username).url;
    if EvaluateMatch(site, statusCode, body) != Some(true) then None
    else
      var siteName := if Truthy(site.name) then site.name.value else url;
      Some(MatchResult(siteName, ReplaceAll(site.uriPretty.GetOr(url), AccountField, username), statusCode))
  }

  /** The result as the WhatsMyName source reads it back from the report: matched, with its URL and site name. */
  function AsReportItem(m: MatchResult): (item: WhatsMyName.ReportItem)
    ensures item.matched
    ensures Field(item.fields, "url") == Some(m.url) && Field(item.fields, "site_name") == Some(m.siteName)
  {
    WhatsMyName.ReportItem(true, map["site_name" := m.siteName, "url" := m.url])
  }

  /** A text without the placeholder's first character is left alone by the replacement. */
  lemma {:induction false} ReplaceAllUntouched(s: string, pat: string, rep: string)
    requires pat != [] && pat[0] !in s
    ensures ReplaceAll(s, pat, rep) == s
    decreases |s|
  {
    if |s| >= |pat| {
      assert s[..|pat|][0] == s[0];
      ReplaceAllUntouched(s[1..], pat, rep);
      assert [s[0]] + s[1..] == s;
    }
  }

  /** A stretch without the placeholder's first character is copied, then replacement resumes after it. */
  lemma {:induction false} ReplaceAllSkips(a: string, b: string, pat: string, rep: string)
    requires pat != [] && pat[0] !in a
    ensures ReplaceAll(a + b, pat, rep) == a + ReplaceAll(b, pat, rep)
    decreases |a|
  {
    if a == [] {
      assert a + b == b;
    } else {
      var s := a + b;
      if |s| < |pat| {
        assert ReplaceAll(b, pat, rep) == b;
        return;
      }
      assert s[..|pat|][0] == a[0];
      assert s[1..] == a[1..] + b;
      ReplaceAllSkips(a[1..], b, pat, rep);
      assert ReplaceAll(s, pat, rep) == [a[0]] + ReplaceAll(a[1..] + b, pat, rep);
      assert [a[0]] + (a[1..] + ReplaceAll(b, pat, rep)) == a + ReplaceAll(b, pat, rep);
    }
  }

  /** A template with one `{account}` between two brace-free parts: the username lands between them. */
  lemma FillAccount(prefix: string, suffix: string, username: string)
    requires '{' !in prefix && '{' !in suffix
    ensures ReplaceAll(prefix + AccountField + suffix, AccountField, username) == prefix + username + suffix
  {
    var t := AccountField + suffix;
    assert prefix + AccountField + suffix == prefix + t;
    ReplaceAllSkips(prefix, t, AccountField, username);
    assert t[..|AccountField|] == AccountField && t[|AccountField|..] == suffix;
    ReplaceAllUntouched(suffix, AccountField, username);
  }

  /**
   * End to end: when the match rule says true for a site whose check URL has one `{account}` and no
   * pretty URL, the WhatsMyName source turns the runner's result into a profile finding at the
   * filled check URL. The filled URL is passed through the replacement a second time, so the
   * username must not bring a brace of its own.
   */
  lemma MatchedSiteBecomesFinding(site: Site, prefix: string, suffix: string, username: string, statusCode: int,
                                  body: string, run: ToolRun)
    requires '{' !in prefix && '{' !in suffix && site.uriCheck == prefix + AccountField + suffix
    requires site.uriPretty == None && '{' !in username
    requires ShowsAccount(site, statusCode, body)
    ensures CheckSite(site, username, statusCode, body).Some?
    ensures (WhatsMyName.ItemFinding(run, AsReportItem(CheckSite(site, username, statusCode, body).value)).Some?
      <==> prefix + username + suffix != "")
    ensures prefix + username + suffix != "" ==>
      (WhatsMyName.ItemFinding(run, AsReportItem(CheckSite(site, username, statusCode, body).value)).value
        .entity.profileUrls == [prefix + username + suffix])
  {
    FillAccount(prefix, suffix, username);
    ReplaceAllUntouched(prefix + username + suffix, AccountField, username);
  }
}
