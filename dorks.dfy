/**
 * Search-engine queries ("dorks") for a full name on the supported social sites: a name query per
 * site, a keyword variant, a username OR-group, an Instagram URL query, deduplicated in order.
 */
module Dorks {
  import opened Wrappers
  import opened Seqs
  import opened Text

  /** A site the queries can target: its key, its domain and the prefix of its name query. */
  datatype DorkSite = DorkSite(key: string, domain: string, nameQueryPrefix: string)

  const LinkedIn := DorkSite("linkedin", "linkedin.com", "site:linkedin.com/in")
  const Instagram := DorkSite("instagram", "instagram.com", "site:instagram.com")

  /** `SITES.get(key)`: the two supported sites by key; any other key is unknown. */
  function SiteFor(key: string): (r: Option<DorkSite>)
    ensures r.Some? <==> key == "linkedin" || key == "instagram"
    ensures r.Some? ==> r.value.key == key && "site:" <= r.value.nameQueryPrefix
  {
    if key == "linkedin" then Some(LinkedIn)
    else if key == "instagram" then Some(Instagram)
    else None
  }

  /** The terms that are not blank, stripped, in order. */
  function Cleaned(terms: seq<string>): (r: seq<string>)
    ensures |r| <= |terms|
    ensures forall i :: 0 <= i < |r| ==> r[i] != []
    decreases |terms|
  {
    if terms == [] then []
    else if Strip(terms[0]) != [] then [Strip(terms[0])] + Cleaned(terms[1..])
    else Cleaned(terms[1..])
  }

  /** Each term in double quotes. */
  function Quoted(terms: seq<string>): (r: seq<string>)
    ensures |r| == |terms|
    ensures forall i :: 0 <= i < |terms| ==> r[i] == "\"" + terms[i] + "\""
  {
    seq(|terms|, i requires 0 <= i < |terms| => "\"" + terms[i] + "\"")
  }

  /** `_or_group`: the non-blank terms, stripped and quoted, joined by " OR " in parentheses; "" when none is left. */
  function OrGroup(terms: seq<string>): (r: string)
    ensures r == "" <==> Cleaned(terms) == []
    ensures r != "" ==> r[0] == '(' && r[|r| - 1] == ')'
  {
    var cleaned := Cleaned(terms);
    if cleaned == [] then "" else "(" + Join(Quoted(cleaned), " OR ") + ")"
  }

  /** Terms that are already trimmed and non-empty are kept whole. */
  lemma {:induction false} CleanedTrimmed(terms: seq<string>)
    requires forall i :: 0 <= i < |terms| ==> Trimmed(terms[i])
    ensures Cleaned(terms) == terms
    decreases |terms|
  {
    if terms != [] {
      StripTrimmed(terms[0]);
      CleanedTrimmed(terms[1..]);
      assert [terms[0]] + terms[1..] == terms;
    }
  }

  /** Blank terms never make it into a group: a list of blanks gives the empty group. */
  lemma {:induction false} CleanedBlank(terms: seq<string>)
    requires forall i :: 0 <= i < |terms| ==> Strip(terms[i]) == []
    ensures Cleaned(terms) == []
    decreases |terms|
  {
    if terms != [] {
      CleanedBlank(terms[1..]);
    }
  }

  /** The name query of a site: its prefix, then the full name in quotes. */
  function NameQuery(site: DorkSite, fullName: string): string {
    site.nameQueryPrefix + " \"" + fullName + "\""
  }

  /**
   * The queries one known site adds: the name query; with keywords, it followed by their group;
   * with permutations, the site's group of them, and for Instagram a URL query on the first one.
   */
  function SiteQueries(site: DorkSite, fullName: string, keywords: seq<string>, perms: seq<string>): (r: seq<string>)
    ensures |r| >= 1 && r[0] == NameQuery(site, fullName)
    ensures |r| == 1 + (if keywords != [] then 1 else 0) + (if perms != [] then 1 else 0)
                     + (if perms != [] && site.key == "instagram" then 1 else 0)
    ensures keywords != [] ==> r[1] == NameQuery(site, fullName) + " " + OrGroup(keywords)
  {
    NameQueries(site, fullName, keywords) + DomainQueries(site.domain, site.key == "instagram", perms)
  }

  /** The name query, followed by it with the keyword group when there are keywords. */
  function NameQueries(site: DorkSite, fullName: string, keywords: seq<string>): (r: seq<string>)
    ensures |r| == 1 + (if keywords != [] then 1 else 0) && r[0] == NameQuery(site, fullName)
    ensures keywords != [] ==> r[1] == NameQuery(site, fullName) + " " + OrGroup(keywords)
  {
    var base := NameQuery(site, fullName);
    [base] + (if keywords != [] then [base + " " + OrGroup(keywords)] else [])
  }

  /** With permutations, the domain's group of them and, for Instagram, a URL query on the first one. */
  function DomainQueries(domain: string, instagram: bool, perms: seq<string>): (r: seq<string>)
    ensures |r| == (if perms != [] then 1 else 0) + (if perms != [] && instagram then 1 else 0)
  {
    if perms != [] then
      ["site:" + domain + " " + OrGroup(perms)]
      + (if instagram then ["site:" + domain + " inurl:" + perms[0]] else [])
    else []
  }

  /** The queries of every known site key, in key order, before deduplication; unknown keys add nothing. */
  function AllQueries(sites: seq<string>, fullName: string, keywords: seq<string>, perms: seq<string>): seq<string>
    decreases |sites|
  {
    if sites == [] then []
    else
      var init := AllQueries(sites[..|sites| - 1], fullName, keywords, perms);
      match SiteFor(sites[|sites| - 1])
      case None => init
      case Some(site) => init + SiteQueries(site, fullName, keywords, perms)
  }

  /** `build_dork_queries`, as a specification: the site queries without repeats, in first-occurrence order. */
  function DorkQueries(fullName: string, sites: seq<string>, keywords: seq<string>, perms: seq<string>): seq<string> {
    Dedup(AllQueries(sites, fullName, keywords, perms))
  }

  /** The first loop of `build_dork_queries`: the queries of each known site key, appended in key order. */
  method CollectQueries(fullName: string, sites: seq<string>, keywords: seq<string>, perms: seq<string>)
    returns (out: seq<string>)
    ensures out == AllQueries(sites, fullName, keywords, perms)
  {
    out := [];
    for i := 0 to |sites|
      invariant out == AllQueries(sites[..i], fullName, keywords, perms)
    {
      assert sites[..i + 1][..i] == sites[..i];
      var site := SiteFor(sites[i]);
      if site.None? {
        continue;
      }
      var added := AddSiteQueries(site.value, fullName, keywords, perms);
      out := out + added;
    }
    assert sites[..|sites|] == sites;
  }

  /** The body of the first loop for one known site: the queries it appends, in order. */
  method AddSiteQueries(site: DorkSite, fullName: string, keywords: seq<string>, perms: seq<string>)
    returns (added: seq<string>)
    ensures added == SiteQueries(site, fullName, keywords, perms)
  {
    var base := site.nameQueryPrefix + " \"" + fullName + "\"";
    var names := [base];
    if keywords != [] {
      names := names + [base + " " + OrGroup(keywords)];
    }
    assert names == NameQueries(site, fullName, keywords);
    var domains := [];
    if perms != [] {
      domains := ["site:" + site.domain + " " + OrGroup(perms)];
      if site.key == "instagram" {
        domains := domains + ["site:" + site.domain + " inurl:" + perms[0]];
      }
    }
    assert domains == DomainQueries(site.domain, site.key == "instagram", perms);
    added := names + domains;
  }

  /** The second loop of `build_dork_queries`: the first occurrence of each query, kept with a `seen` set. */
  method DedupQueries(out: seq<string>) returns (deduped: seq<string>)
    ensures deduped == Dedup(out)
  {
    deduped := [];
    var seen: set<string> := {};
    for i := 0 to |out|
      invariant deduped == Dedup(out[..i])
      invariant forall q :: q in seen <==> q in deduped
    {
      var q := out[i];
      assert out[..i + 1][..i] == out[..i];
      if q in seen {
        continue;
      }
      seen := seen + {q};
      deduped := deduped + [q];
    }
    assert out[..|out|] == out;
  }

  /** `build_dork_queries` (a missing keyword or permutation list is `[]`): the site queries, deduplicated. */
  method BuildDorkQueries(fullName: string, sites: seq<string>, keywords: seq<string>, perms: seq<string>)
    returns (deduped: seq<string>)
    ensures deduped == DorkQueries(fullName, sites, keywords, perms)
  {
    var out := CollectQueries(fullName, sites, keywords, perms);
    deduped := DedupQueries(out);
  }

  /** Every query targets a site: it starts with "site:". */
  lemma {:induction false} AllQueriesTargetSites(sites: seq<string>, fullName: string, keywords: seq<string>, perms: seq<string>)
    ensures forall q :: q in AllQueries(sites, fullName, keywords, perms) ==> "site:" <= q
    decreases |sites|
  {
    if sites != [] {
      AllQueriesTargetSites(sites[..|sites| - 1], fullName, keywords, perms);
      var site := SiteFor(sites[|sites| - 1]);
      if site.Some? {
        SiteQueriesTargetSite(site.value, fullName, keywords, perms);
      }
    }
  }

  /** The queries of one site all start with "site:" when its name query does. */
  lemma SiteQueriesTargetSite(site: DorkSite, fullName: string, keywords: seq<string>, perms: seq<string>)
    requires "site:" <= site.nameQueryPrefix
    ensures forall q :: q in SiteQueries(site, fullName, keywords, perms) ==> "site:" <= q
  {
    NameQueriesTargetSite(site, fullName, keywords);
    DomainQueriesTargetSite(site.domain, site.key == "instagram", perms);
  }

  /** The name query, and it with the keyword group, start with "site:" when the site's prefix does. */
  lemma NameQueriesTargetSite(site: DorkSite, fullName: string, keywords: seq<string>)
    requires "site:" <= site.nameQueryPrefix
    ensures forall q :: q in NameQueries(site, fullName, keywords) ==> "site:" <= q
  {
    var base := NameQuery(site, fullName);
    PrefixKept("site:", site.nameQueryPrefix, " \"" + fullName + "\"");
    assert base == site.nameQueryPrefix + (" \"" + fullName + "\"");
    if keywords != [] {
      PrefixKept("site:", base, " " + OrGroup(keywords));
      assert base + " " + OrGroup(keywords) == base + (" " + OrGroup(keywords));
    }
  }

  /** The domain queries built from permutations start with "site:". */
  lemma DomainQueriesTargetSite(domain: string, instagram: bool, perms: seq<string>)
    ensures forall q :: q in DomainQueries(domain, instagram, perms) ==> "site:" <= q
  {
    if perms != [] {
      var d := "site:" + domain;
      PrefixKept("site:", "site:", domain);
      PrefixKept("site:", d, " " + OrGroup(perms));
      assert d + " " + OrGroup(perms) == d + (" " + OrGroup(perms));
      PrefixKept("site:", d, " inurl:" + perms[0]);
      assert d + " inurl:" + perms[0] == d + (" inurl:" + perms[0]);
    }
  }

  /** A prefix of `a` is a prefix of anything `a` starts. */
  lemma PrefixKept(p: string, a: string, b: string)
    requires p <= a
    ensures p <= a + b
  {
    assert (a + b)[..|p|] == a[..|p|];
  }

  /** Unknown site keys are ignored: with no known key there are no queries. */
  lemma {:induction false} UnknownSitesIgnored(sites: seq<string>, fullName: string, keywords: seq<string>, perms: seq<string>)
    requires forall i :: 0 <= i < |sites| ==> SiteFor(sites[i]).None?
    ensures AllQueries(sites, fullName, keywords, perms) == []
    decreases |sites|
  {
    if sites != [] {
      UnknownSitesIgnored(sites[..|sites| - 1], fullName, keywords, perms);
    }
  }

  /** Every query of a known site in the list is produced. */
  lemma {:induction false} KnownSiteQueries(sites: seq<string>, k: nat, fullName: string, keywords: seq<string>,
                                            perms: seq<string>, q: string)
    requires k < |sites| && SiteFor(sites[k]).Some?
    requires q in SiteQueries(SiteFor(sites[k]).value, fullName, keywords, perms)
    ensures q in AllQueries(sites, fullName, keywords, perms)
    decreases |sites|
  {
    if k < |sites| - 1 {
      KnownSiteQueries(sites[..|sites| - 1], k, fullName, keywords, perms, q);
    }
  }

  /**
   * The output has no repeats, every query starts with "site:", and the queries of every known site
   * are all present; with only unknown site keys the output is empty.
   */
  lemma DorkQueriesFacts(fullName: string, sites: seq<string>, keywords: seq<string>, perms: seq<string>)
    ensures Distinct(DorkQueries(fullName, sites, keywords, perms))
    ensures forall q :: q in DorkQueries(fullName, sites, keywords, perms) ==> "site:" <= q
    ensures (forall i :: 0 <= i < |sites| ==> SiteFor(sites[i]).None?) ==> DorkQueries(fullName, sites, keywords, perms) == []
    ensures forall k, q :: (0 <= k < |sites| && SiteFor(sites[k]).Some?
      && q in SiteQueries(SiteFor(sites[k]).value, fullName, keywords, perms)) ==> q in DorkQueries(fullName, sites, keywords, perms)
  {
    var all := AllQueries(sites, fullName, keywords, perms);
    AllQueriesTargetSites(sites, fullName, keywords, perms);
    if forall i :: 0 <= i < |sites| ==> SiteFor(sites[i]).None? {
      UnknownSitesIgnored(sites, fullName, keywords, perms);
    }
    forall k, q | 0 <= k < |sites| && SiteFor(sites[k]).Some?
      && q in SiteQueries(SiteFor(sites[k]).value, fullName, keywords, perms)
      ensures q in Dedup(all)
    {
      KnownSiteQueries(sites, k, fullName, keywords, perms, q);
    }
  }

  /** Trimmed, non-blank terms are grouped whole: quoted, joined by " OR ", in parentheses. */
  lemma OrGroupOfTrimmed(terms: seq<string>)
    requires terms != []
    requires forall i :: 0 <= i < |terms| ==> Trimmed(terms[i])
    ensures OrGroup(terms) == "(" + Join(Quoted(terms), " OR ") + ")"
  {
    CleanedTrimmed(terms);
  }

  /** Three trimmed keywords: each quoted, joined by " OR ", in parentheses. */
  lemma KeywordGroupOfThree(a: string, b: string, c: string)
    requires Trimmed(a) && Trimmed(b) && Trimmed(c)
    ensures OrGroup([a, b, c]) == "(\"" + a + "\" OR \"" + b + "\" OR \"" + c + "\")"
  {
    OrGroupOfTrimmed([a, b, c]);
    var qa, qb, qc := "\"" + a + "\"", "\"" + b + "\"", "\"" + c + "\"";
    assert Quoted([a, b, c]) == [qa, qb, qc];
    JoinOfThree(qa, qb, qc, " OR ");
    GroupSpellingOfThree(a, b, c);
  }

  /** Two trimmed handles: each quoted, joined by " OR ", in parentheses. */
  lemma HandleGroupOfTwo(a: string, b: string)
    requires Trimmed(a) && Trimmed(b)
    ensures OrGroup([a, b]) == "(\"" + a + "\" OR \"" + b + "\")"
  {
    OrGroupOfTrimmed([a, b]);
    var qa, qb := "\"" + a + "\"", "\"" + b + "\"";
    assert Quoted([a, b]) == [qa, qb];
    JoinOfTwo(qa, qb, " OR ");
    GroupSpellingOfTwo(a, b);
  }

  /** Joining two parts puts the separator between them. */
  lemma JoinOfTwo(x: string, y: string, sep: string)
    ensures Join([x, y], sep) == x + sep + y
  {
    assert [x, y][1..] == [y];
  }

  /** Joining three parts puts the separator between each neighbouring pair. */
  lemma JoinOfThree(x: string, y: string, z: string, sep: string)
    ensures Join([x, y, z], sep) == x + sep + (y + sep + z)
  {
    assert [x, y, z][1..] == [y, z];
    JoinOfTwo(y, z, sep);
  }

  /** The spelling of a two-term group once the quoted terms are joined. */
  lemma GroupSpellingOfTwo(a: string, b: string)
    ensures "(" + (("\"" + a + "\"") + " OR " + ("\"" + b + "\"")) + ")" == "(\"" + a + "\" OR \"" + b + "\")"
  {
    assert "\"" + " OR " + "\"" == "\" OR \"";
  }

  /** The spelling of a three-term group once the quoted terms are joined. */
  lemma GroupSpellingOfThree(a: string, b: string, c: string)
    ensures ("(" + (("\"" + a + "\"") + " OR " + (("\"" + b + "\"") + " OR " + ("\"" + c + "\""))) + ")"
      == "(\"" + a + "\" OR \"" + b + "\" OR \"" + c + "\")")
  {
    assert "\"" + " OR " + "\"" == "\" OR \"";
  }

  /**
   * The LinkedIn queries of a full name with keywords and handles, in order: the name query, it
   * with the keyword group, and the site's handle group.
   */
  lemma LinkedInQueries(fullName: string, keywords: seq<string>, perms: seq<string>)
    requires keywords != [] && perms != []
    ensures (SiteQueries(LinkedIn, fullName, keywords, perms)
      == [NameQuery(LinkedIn, fullName), NameQuery(LinkedIn, fullName) + " " + OrGroup(keywords),
          "site:linkedin.com " + OrGroup(perms)])
  {
    assert "site:" + "linkedin.com" + " " == "site:linkedin.com ";
  }

  /**
   * A full name on LinkedIn and Instagram with three keywords and two handles (as "John Doe" with
   * "software", "engineer", "berlin" and "johndoe1990", "j.doe"): the LinkedIn name query, its
   * keyword variant with the quoted keywords and the LinkedIn group of quoted handles are all
   * among the queries.
   */
  lemma LinkedInAndInstagram(fullName: string, k1: string, k2: string, k3: string, h1: string, h2: string)
    requires Trimmed(k1) && Trimmed(k2) && Trimmed(k3) && Trimmed(h1) && Trimmed(h2)
    ensures NameQuery(LinkedIn, fullName) in DorkQueries(fullName, ["linkedin", "instagram"], [k1, k2, k3], [h1, h2])
    ensures (NameQuery(LinkedIn, fullName) + " " + ("(\"" + k1 + "\" OR \"" + k2 + "\" OR \"" + k3 + "\")")
      in DorkQueries(fullName, ["linkedin", "instagram"], [k1, k2, k3], [h1, h2]))
    ensures ("site:linkedin.com " + ("(\"" + h1 + "\" OR \"" + h2 + "\")")
      in DorkQueries(fullName, ["linkedin", "instagram"], [k1, k2, k3], [h1, h2]))
  {
    var sites := ["linkedin", "instagram"];
    var keywords := [k1, k2, k3];
    var perms := [h1, h2];
    assert SiteFor(sites[0]) == Some(LinkedIn);
    LinkedInQueries(fullName, keywords, perms);
    KeywordGroupOfThree(k1, k2, k3);
    HandleGroupOfTwo(h1, h2);
    var qs := SiteQueries(LinkedIn, fullName, keywords, perms);
    KnownSiteQueries(sites, 0, fullName, keywords, perms, qs[0]);
    KnownSiteQueries(sites, 0, fullName, keywords, perms, qs[1]);
    KnownSiteQueries(sites, 0, fullName, keywords, perms, qs[2]);
  }
}
