/**
 * The part of URL splitting that the politeness policy needs: scheme and network location, the
 * "scheme" and "authority" components of section 3 of RFC 3986, as CPython's `urlsplit` computes
 * them: leading C0 controls and spaces are stripped, tabs and line breaks are deleted, then the
 * scheme and the network location are split off.
 */
module Url {
  import opened Wrappers
  import opened Text

  predicate AsciiAlpha(c: char) {
    'a' <= c <= 'z' || 'A' <= c <= 'Z'
  }

  /** The characters CPython accepts in a scheme. */
  predicate SchemeChar(c: char) {
    AsciiAlpha(c) || '0' <= c <= '9' || c == '+' || c == '-' || c == '.'
  }

  /** The index of the first character of `s` in `cs`, or `|s|`. */
  function FirstOf(s: string, cs: set<char>): (r: nat)
    ensures r <= |s|
    ensures forall k :: 0 <= k < r ==> s[k] !in cs
    ensures r < |s| ==> s[r] in cs
    decreases |s|
  {
    if s == [] then 0 else if s[0] in cs then 0 else 1 + FirstOf(s[1..], cs)
  }

  /** Whether `s[..i]` is a scheme: non-empty, led by a letter, made of scheme characters. */
  predicate IsSchemeAt(s: string, i: nat)
    requires i <= |s|
  {
    i > 0 && AsciiAlpha(s[0]) && forall k :: 0 <= k < i ==> SchemeChar(s[k])
  }

  /** The scheme, lower-cased, and the rest of the URL after its ':'; no scheme gives "" and the whole URL. */
  function SplitScheme(url: string): (string, string)
  {
    var i := FirstOf(url, {':'});
    if i < |url| && IsSchemeAt(url, i) then (Lower(url[..i]), url[i + 1..]) else ("", url)
  }

  /** The scheme is made of lower-case scheme characters and the rest is a suffix of the URL. */
  lemma SplitSchemeParts(url: string)
    ensures var (scheme, rest) := SplitScheme(url);
      (forall k :: 0 <= k < |scheme| ==> SchemeChar(scheme[k]) && !('A' <= scheme[k] <= 'Z'))
      && |rest| <= |url| && rest == url[|url| - |rest|..]
  {
  }

  /** The network location: after a leading "//", up to the first '/', '?' or '#'; "" without "//". */
  function SplitNetloc(rest: string): (r: string)
    ensures forall k :: 0 <= k < |r| ==> r[k] !in {'/', '?', '#'}
  {
    if |rest| >= 2 && rest[..2] == "//" then
      var tail := rest[2..];
      tail[..FirstOf(tail, {'/', '?', '#'})]
    else []
  }

  /** The characters `urlsplit` strips from the front of a URL: the C0 controls and the space. */
  predicate ControlOrSpace(c: char) {
    c <= ' '
  }

  /** The characters `urlsplit` deletes everywhere in a URL: tab, carriage return and line feed. */
  predicate Unsafe(c: char) {
    c == '\t' || c == '\r' || c == '\n'
  }

  /** `url.lstrip(_WHATWG_C0_CONTROL_OR_SPACE)`: the suffix after the leading controls and spaces. */
  function StripLeadingControls(url: string): (r: string)
    ensures |r| <= |url| && r == url[|url| - |r|..]
    ensures forall k :: 0 <= k < |url| - |r| ==> ControlOrSpace(url[k])
    ensures r == [] || !ControlOrSpace(r[0])
    decreases |url|
  {
    if url != [] && ControlOrSpace(url[0]) then StripLeadingControls(url[1..]) else url
  }

  /** The URL with every tab, carriage return and line feed deleted, the rest kept in order. */
  function RemoveUnsafe(url: string): (r: string)
    ensures |r| <= |url|
    ensures forall k :: 0 <= k < |r| ==> !Unsafe(r[k])
    decreases |url|
  {
    if url == [] then []
    else (if Unsafe(url[0]) then [] else [url[0]]) + RemoveUnsafe(url[1..])
  }

  /** What `urlsplit` splits: the URL with leading controls stripped and unsafe characters deleted. */
  function Sanitized(url: string): string
  {
    RemoveUnsafe(StripLeadingControls(url))
  }

  /** A sanitised URL never starts with a control character or a space. */
  lemma SanitizedStartsVisible(url: string)
    ensures Sanitized(url) == [] || !ControlOrSpace(Sanitized(url)[0])
  {
    var stripped := StripLeadingControls(url);
    if stripped != [] {
      assert stripped == [stripped[0]] + stripped[1..];
      RemoveUnsafeAppend([stripped[0]], stripped[1..]);
    }
  }

  /** The network location is the text right after the leading "//" of the rest. */
  lemma SplitNetlocSlice(rest: string)
    ensures var r := SplitNetloc(rest); r == [] || (|rest| >= 2 + |r| && r == rest[2..2 + |r|])
  {
  }

  /**
   * `scheme + "://" + netloc` of the sanitised `url`, or the `ValueError` that splitting raises
   * when the network location has one of '[' and ']' without the other.
   */
  function Origin(url: string): Result<string>
  {
    var (scheme, rest) := SplitScheme(Sanitized(url));
    var netloc := SplitNetloc(rest);
    if ('[' in netloc) != (']' in netloc) then Failure("Invalid IPv6 URL")
    else Success(scheme + "://" + netloc)
  }

  /** A cache key never holds a tab, a carriage return or a line feed, whatever the URL. */
  lemma OriginHasNoUnsafe(url: string)
    ensures Origin(url).Success? ==> forall k :: 0 <= k < |Origin(url).value| ==> !Unsafe(Origin(url).value[k])
  {
    var clean := Sanitized(url);
    var (scheme, rest) := SplitScheme(clean);
    var netloc := SplitNetloc(rest);
    SplitSchemeParts(clean);
    SplitNetlocSlice(rest);
    NetlocSafe(clean, rest, netloc);
    OriginSafe(scheme, netloc);
  }

  /** A network location cut from a suffix of a string without unsafe characters has none. */
  lemma NetlocSafe(clean: string, rest: string, netloc: string)
    requires forall k :: 0 <= k < |clean| ==> !Unsafe(clean[k])
    requires |rest| <= |clean| && rest == clean[|clean| - |rest|..]
    requires netloc == [] || (|rest| >= 2 + |netloc| && netloc == rest[2..2 + |netloc|])
    ensures forall k :: 0 <= k < |netloc| ==> !Unsafe(netloc[k])
  {
    forall k | 0 <= k < |netloc| ensures !Unsafe(netloc[k]) {
      assert netloc[k] == rest[2 + k] == clean[|clean| - |rest| + 2 + k];
    }
  }

  /** A scheme and a network location without unsafe characters make an origin without any. */
  lemma OriginSafe(scheme: string, netloc: string)
    requires forall k :: 0 <= k < |scheme| ==> SchemeChar(scheme[k])
    requires forall k :: 0 <= k < |netloc| ==> !Unsafe(netloc[k])
    ensures forall k :: 0 <= k < |scheme + "://" + netloc| ==> !Unsafe((scheme + "://" + netloc)[k])
  {
    var o := scheme + "://" + netloc;
    forall k | 0 <= k < |o| ensures !Unsafe(o[k]) {
      if k < |scheme| {
        assert o[k] == scheme[k];
      } else if k >= |scheme| + 3 {
        assert o[k] == netloc[k - |scheme| - 3];
      }
    }
  }

  /** Deleting unsafe characters works piecewise. */
  lemma {:induction false} RemoveUnsafeAppend(a: string, b: string)
    ensures RemoveUnsafe(a + b) == RemoveUnsafe(a) + RemoveUnsafe(b)
    decreases |a|
  {
    if a == [] {
      assert a + b == b;
    } else {
      var h := if Unsafe(a[0]) then [] else [a[0]];
      assert (a + b)[0] == a[0];
      assert (a + b)[1..] == a[1..] + b;
      assert RemoveUnsafe(a + b) == h + RemoveUnsafe(a[1..] + b);
      assert RemoveUnsafe(a) == h + RemoveUnsafe(a[1..]);
      RemoveUnsafeAppend(a[1..], b);
    }
  }

  /** A string without unsafe characters is left alone. */
  lemma {:induction false} RemoveUnsafeNone(s: string)
    requires forall k :: 0 <= k < |s| ==> !Unsafe(s[k])
    ensures RemoveUnsafe(s) == s
    decreases |s|
  {
    if s != [] {
      RemoveUnsafeNone(s[1..]);
    }
  }

  /** The robots.txt location of section 2.3 of RFC 9309: "/robots.txt" at the origin. */
  function RobotsLocation(origin: string): (r: string)
    ensures origin <= r && r[|origin|..] == "/robots.txt"
  {
    origin + "/robots.txt"
  }

  /**
   * A URL written as a lower-case scheme, "://", a host without '/', '?', '#', brackets, tabs or
   * line breaks, and a remainder that is empty or starts with '/', '?' or '#', has exactly that
   * scheme and host as origin.
   */
  lemma OriginOfWellFormed(scheme: string, host: string, path: string)
    requires scheme != [] && 'a' <= scheme[0] <= 'z'
    requires forall k :: 0 <= k < |scheme| ==> SchemeChar(scheme[k]) && !('A' <= scheme[k] <= 'Z')
    requires forall k :: 0 <= k < |host| ==> host[k] !in {'/', '?', '#', '[', ']'} && !Unsafe(host[k])
    requires path == [] || path[0] in {'/', '?', '#'}
    ensures Origin(scheme + "://" + host + path) == Success(scheme + "://" + host)
  {
    var url := scheme + "://" + host + path;
    var clean := RemoveUnsafe(path);
    var rest := "//" + host + clean;
    assert Sanitized(url) == scheme + ":" + rest by {
      SanitizedWellFormed(scheme, host, path);
      SchemeSeparator(scheme, host, clean);
    }
    assert SplitScheme(Sanitized(url)) == (scheme, rest) by {
      SchemeOfWellFormed(scheme, rest);
    }
    assert SplitNetloc(rest) == host by {
      if path != [] {
        RemoveUnsafeHead(path);
      }
      NetlocOfWellFormed(host, clean);
    }
    assert '[' !in host && ']' !in host;
  }

  /** "://" after a scheme is its ':' followed by the "//" that opens the authority. */
  lemma SchemeSeparator(scheme: string, host: string, tail: string)
    ensures scheme + "://" + host + tail == scheme + ":" + ("//" + host + tail)
  {
    assert "://" == ":" + "//";
  }

  /** A URL led by a scheme and a safe host is sanitised by deleting the unsafe characters of its path. */
  lemma SanitizedWellFormed(scheme: string, host: string, path: string)
    requires scheme != [] && 'a' <= scheme[0] <= 'z'
    requires forall k :: 0 <= k < |scheme| ==> SchemeChar(scheme[k])
    requires forall k :: 0 <= k < |host| ==> !Unsafe(host[k])
    ensures Sanitized(scheme + "://" + host + path) == scheme + "://" + host + RemoveUnsafe(path)
  {
    var url := scheme + "://" + host + path;
    var lead := scheme + "://" + host;
    assert url[0] == scheme[0];
    assert StripLeadingControls(url) == url;
    assert forall k :: 0 <= k < |lead| ==> !Unsafe(lead[k]) by {
      OriginSafe(scheme, host);
    }
    RemoveUnsafeAppend(lead, path);
    RemoveUnsafeNone(lead);
  }

  /** A safe first character survives the deletion. */
  lemma RemoveUnsafeHead(s: string)
    requires s != [] && !Unsafe(s[0])
    ensures RemoveUnsafe(s) == [s[0]] + RemoveUnsafe(s[1..])
  {
  }

  /** The robots.txt location of a well-formed origin lies on that same origin. */
  lemma RobotsLocationSameOrigin(scheme: string, host: string)
    requires scheme != [] && 'a' <= scheme[0] <= 'z'
    requires forall k :: 0 <= k < |scheme| ==> SchemeChar(scheme[k]) && !('A' <= scheme[k] <= 'Z')
    requires forall k :: 0 <= k < |host| ==> host[k] !in {'/', '?', '#', '[', ']'} && !Unsafe(host[k])
    ensures Origin(RobotsLocation(scheme + "://" + host)) == Success(scheme + "://" + host)
  {
    OriginOfWellFormed(scheme, host, "/robots.txt");
  }

  /** A valid lower-case scheme followed by ':' is split off whole. */
  lemma SchemeOfWellFormed(scheme: string, rest: string)
    requires scheme != [] && AsciiAlpha(scheme[0])
    requires forall k :: 0 <= k < |scheme| ==> SchemeChar(scheme[k]) && !('A' <= scheme[k] <= 'Z')
    ensures SplitScheme(scheme + ":" + rest) == (scheme, rest)
  {
    var url := scheme + ":" + rest;
    assert url[..|scheme|] == scheme;
    FirstOfPrefix(url, |scheme|, {':'});
    assert IsSchemeAt(url, |scheme|);
    assert Lower(scheme) == scheme;
    assert url[|scheme| + 1..] == rest;
  }

  /** After "//", a host free of '/', '?' and '#' is the whole network location. */
  lemma NetlocOfWellFormed(host: string, path: string)
    requires forall k :: 0 <= k < |host| ==> host[k] !in {'/', '?', '#'}
    requires path == [] || path[0] in {'/', '?', '#'}
    ensures SplitNetloc("//" + host + path) == host
  {
    var rest := "//" + host + path;
    assert rest[..2] == "//";
    var tail := rest[2..];
    assert tail == host + path;
    FirstOfPrefix(tail, |host|, {'/', '?', '#'});
    assert tail[..|host|] == host;
  }

  /** `FirstOf` finds the first hit: no earlier character is in the set and the one at `i` is. */
  lemma {:induction false} FirstOfPrefix(s: string, i: nat, cs: set<char>)
    requires i <= |s|
    requires forall k :: 0 <= k < i ==> s[k] !in cs
    requires i == |s| || s[i] in cs
    ensures FirstOf(s, cs) == i
    decreases i
  {
    if i > 0 {
      FirstOfPrefix(s[1..], i - 1, cs);
    }
  }

  /** Every URL on "https://example.com", the host of the robots example, has that origin. */
  lemma ExampleOrigin(path: string)
    requires path == [] || path[0] in {'/', '?', '#'}
    ensures Origin("https://example.com" + path) == Success("https://example.com")
  {
    var scheme, host := "https", "example.com";
    assert forall k :: 0 <= k < |scheme| ==> SchemeChar(scheme[k]) && !('A' <= scheme[k] <= 'Z');
    assert forall k :: 0 <= k < |host| ==> host[k] !in {'/', '?', '#', '[', ']'} && !Unsafe(host[k]);
    var origin := scheme + "://" + host;
    assert origin == "https://example.com";
    OriginOfWellFormed(scheme, host, path);
    assert scheme + "://" + host + path == origin + path;
  }
  /** A leading control character or space does not change the origin: `urlsplit` strips it. */
  lemma LeadingControlIgnored(c: char, url: string)
    requires ControlOrSpace(c)
    ensures Origin([c] + url) == Origin(url)
  {
    assert ([c] + url)[1..] == url;
    assert StripLeadingControls([c] + url) == StripLeadingControls(url);
  }

  /** A tab or line break after the first character does not change the origin: `urlsplit` deletes it. */
  lemma UnsafeIgnored(a: string, c: char, b: string)
    requires a != [] && !ControlOrSpace(a[0]) && Unsafe(c)
    ensures Origin(a + [c] + b) == Origin(a + b)
  {
    SanitizedDropsUnsafe(a, c, b);
    SameSanitizedSameOrigin(a + [c] + b, a + b);
  }

  /** Deleting one unsafe character after a visible first one does not change the sanitised URL. */
  lemma SanitizedDropsUnsafe(a: string, c: char, b: string)
    requires a != [] && !ControlOrSpace(a[0]) && Unsafe(c)
    ensures Sanitized(a + [c] + b) == Sanitized(a + b)
  {
    var u, v := a + [c] + b, a + b;
    assert u[0] == a[0] && v[0] == a[0];
    assert StripLeadingControls(u) == u;
    assert StripLeadingControls(v) == v;
    assert RemoveUnsafe(u) == RemoveUnsafe(v) by {
      RemoveUnsafeAppend(a + [c], b);
      RemoveUnsafeAppend(a, [c]);
      RemoveUnsafeAppend(a, b);
      assert RemoveUnsafe([c]) == [];
    }
  }

  /** The origin depends on the sanitised URL only. */
  lemma SameSanitizedSameOrigin(u: string, v: string)
    requires Sanitized(u) == Sanitized(v)
    ensures Origin(u) == Origin(v)
  {
  }

  /** " https://example.com/x": the leading space is stripped, so the origin is https://example.com. */
  lemma LeadingSpaceExample()
    ensures Origin(" https://example.com/x") == Success("https://example.com")
  {
    assert " https://example.com/x" == [' '] + ("https://example.com" + "/x");
    LeadingControlIgnored(' ', "https://example.com" + "/x");
    ExampleOrigin("/x");
  }

  /** A tab inside the host is deleted before splitting: "https://mast\todon.social/@a" is on mastodon.social. */
  lemma TabInHostExample()
    ensures Origin("https://mast\todon.social/@a") == Success("https://mastodon.social")
  {
    assert Origin("https://mast\todon.social/@a") == Origin("https://mastodon.social/@a") by {
      TabSpelling();
      UnsafeIgnored("https://mast", '\t', "odon.social/@a");
    }
    MastodonOrigin();
  }

  /** "https://mast\todon.social/@a" is "https://mastodon.social/@a" with a tab after "https://mast". */
  lemma TabSpelling()
    ensures "https://mast\todon.social/@a" == "https://mast" + ['\t'] + "odon.social/@a"
    ensures "https://mast" + "odon.social/@a" == "https://mastodon.social/@a"
  {
  }

  /** "https://mastodon.social/@a" has the origin https://mastodon.social. */
  lemma MastodonOrigin()
    ensures Origin("https://mastodon.social/@a") == Success("https://mastodon.social")
  {
    var scheme, host := "https", "mastodon.social";
    MastodonSpelling();
    assert forall k :: 0 <= k < |scheme| ==> SchemeChar(scheme[k]) && !('A' <= scheme[k] <= 'Z');
    assert forall k :: 0 <= k < |host| ==> host[k] !in {'/', '?', '#', '[', ']'} && !Unsafe(host[k]);
    OriginOfWellFormed(scheme, host, "/@a");
  }

  lemma MastodonSpelling()
    ensures "https" + "://" + "mastodon.social" + "/@a" == "https://mastodon.social/@a"
    ensures "https" + "://" + "mastodon.social" == "https://mastodon.social"
  {
  }
}
