# OpenFootprint lookup core, modelled in Dafny

OpenFootprint is an OSINT lookup tool. It takes a username, an email address, a phone number or a
person's name. From those it plans requests against a registry of sources. The requests then go
through a polite fetcher: robots.txt is consulted first, then a per-source rate limiter, then the
transport. Page and directory responses, and the reports of external tools, become Findings. The
Findings are correlated into Entities and rendered as console and Markdown reports. A separate set of
name-intel helpers generates username permutations and search-engine queries.

This project models the deterministic parts of that pipeline, one Dafny module per source file:

- `Schema` (`core/schema.py`): the records and their `to_dict` serialisations. Each serialiser has a
  decoder, and a lemma proves that decoding the serialised form gives the record back.
- `Correlate` (`core/correlate.py`): bucketing by first identifier, with "first entity wins" and no
  list lost.
- `Plan` and `Registry` (`core/plan.py`, `sources/registry.py`): source selection, filtering,
  sorting, lookup and the flattened plan. `build_requests` is a function parameter that may fail.
- `Robots`, `RateLimit`, `Fetcher` and `Url` (`policies/*.py`, `core/fetcher.py`):
  - classes whose methods update the robots cache and the `last_seen` map;
  - collaborator classes that log every call, so the contracts can say what was called, with what,
    and how often.
- `Inputs` and `Config` (`core/inputs.py`, `core/config.py`): the normalisers and the recursive
  config merge.
- `SourceParse`, `Profile`, `Orcid`, `Wikidata`, `OpenAlex`, `Sherlock`, `Maigret`, `WhatsMyName`:
  the request builders and the result-to-Finding parsers of every source, over decoded payloads.
- `Catalog`: the dispatch from a source's capability to its `build_requests`.
- `WhatsMyNameRunner` (`tools/whatsmyname_runner.py`): the three-way match rule and the result
  shaping of `check_site`.
- `Permutations`, `Dorks`, `SerpApi`, `SherlockValidate` (`nameintel/*.py`): the candidate
  generator, the query builder, artifact naming and the summary filter.
- `Console` and `MarkdownReport` (`reporting/*.py`): the line-list renderers.
- Shared helpers: `Wrappers` (Option and Result), `Seqs` (dedup, filter, flatten and the
  "harvest" of a loop that `continue`s past items), `Text` (Python string operations) and `Json`
  (decoded JSON values).

Where the source loops and updates variables, the model is a `method` with a loop. It is proved
equal to a specification function, and the properties are lemmas about that function. Where the
source updates object fields, the model is a `class`.

Injected values become parameters:
- SHA-256 digests, `datetime.now` stamps and page titles;
- the robots.txt rule evaluation (`can_fetch`) and the E.164 phone formatter;
- the config file reader.

Three collaborators are classes with call logs: the transport, the clock and the sleeper. The robots
fetcher is another.

A request that the pipeline hands to a tool carries `transport = "tool"`. An ordinary request
carries `transport = "http"`; that default is not visible in `sources/base.py`.

Two failure paths come straight from the code:
- `RobotsPolicy.allows` calls the robots fetcher without a `try`
  (`src/openfootprint/policies/robots.py:15-20`). A failing fetch therefore propagates, and nothing
  is cached.
- `Fetcher.get` consults `allows` at `src/openfootprint/core/fetcher.py:34`, before the `try` of
  lines 37-50. That failure therefore leaves `get` too, modelled as `Failure`.

## Model

| member | source | states |
|---|---|---|
| Schema.Evidence.ToDict | src/openfootprint/core/schema.py:17-26 | the serialisation has exactly the seven keys source_id … fetched_at |
| Schema.EvidenceRoundTrip | src/openfootprint/core/schema.py:17-26 | each of the seven keys holds the record's own value: decoding the dict gives the Evidence back |
| Schema.Identifier.ToDict | src/openfootprint/core/schema.py:35-40 | keys type/value/evidence; the evidence list is serialised element-wise, same length and order |
| Schema.IdentifierRoundTrip | src/openfootprint/core/schema.py:35-40 | type and value are kept and the evidence round-trips: decoding gives the Identifier back |
| Schema.Entity.ToDict | src/openfootprint/core/schema.py:51-58 | the five keys; profile_urls is copied unchanged, identifiers and evidence are mapped element-wise in order |
| Schema.EntityRoundTrip | src/openfootprint/core/schema.py:51-58 | decoding the serialised entity gives the Entity back |
| Schema.Artifact.ToDict | src/openfootprint/core/schema.py:68-74 | keys url/title/snippet/evidence, with the evidence mapped element-wise |
| Schema.ArtifactRoundTrip | src/openfootprint/core/schema.py:68-74 | decoding the serialised artifact gives the Artifact back |
| Schema.NewFinding | src/openfootprint/core/schema.py:77-83 | a Finding built without artifacts or confidence has artifacts [] and confidence "medium" |
| Schema.Finding.ToDict | src/openfootprint/core/schema.py:85-92 | the five keys; the entity is nested via its own to_dict and artifacts are mapped element-wise |
| Schema.FindingRoundTrip | src/openfootprint/core/schema.py:85-92 | decoding the serialised finding gives the Finding back |
| Schema.RunManifest.ToDict | src/openfootprint/core/schema.py:104-112 | the six fields under their names, finished_at possibly null |
| Schema.ManifestRoundTrip | src/openfootprint/core/schema.py:104-112 | decoding the serialised manifest gives the RunManifest back |
| Json.DecodeEncodeList | src/openfootprint/core/schema.py:39 | an element-wise encoded list decodes back when each element does |
| Correlate.BucketMembers | src/openfootprint/core/correlate.py:9-13 | every entity in a bucket has that bucket's key, and a bucket is empty exactly when no finding has its key |
| Correlate.BucketKey | src/openfootprint/core/correlate.py:11-12 | defined as the first identifier's "type:value", or the entity id when there is no identifier |
| Correlate.FillBuckets | src/openfootprint/core/correlate.py:9-13 | the loop leaves each key's bucket equal to the in-order entities with that key and the keys in first-seen order |
| Correlate.MergeBuckets | src/openfootprint/core/correlate.py:15-33 | the merge loop yields one merged entity per key, in key order |
| Correlate.GatherAll | src/openfootprint/core/correlate.py:18-24 | the three accumulators are the in-order concatenations of the bucket's urls, identifiers and evidence |
| Correlate.MergeAll | src/openfootprint/core/correlate.py:15-33 | one merged entity per key in the given key list |
| Correlate.Merge | src/openfootprint/core/correlate.py:17-31 | defined as the first entity's id and display name, with every entity's urls, identifiers and evidence concatenated in bucket order |
| Correlate.Correlated | src/openfootprint/core/correlate.py:8-34 | one entity per distinct bucket key; empty input gives [] and the output is never longer than the input |
| Correlate.CorrelateFindings | src/openfootprint/core/correlate.py:8-34 | the two-phase loop computes exactly `Correlated(findings)` |
| Correlate.CorrelatedFirstWins | src/openfootprint/core/correlate.py:16-28 | the j-th merged entity takes entity_id and display_name from the first finding with the j-th first-seen key |
| Correlate.CorrelatedConservesLists | src/openfootprint/core/correlate.py:18-31 | merged profile_urls, identifiers and evidence are, as multisets, exactly those of the input entities: none lost, none added |
| Correlate.TwoFindings | src/openfootprint/core/correlate.py:9-33 | two findings merge into one entity iff their keys agree, otherwise stay two, in order |
| Correlate.SharedEmailMerges | tests/test_correlate.py:5-13 | two entities whose first identifier is the same email merge into one, keeping the first id and both identifiers |
| Plan.PresentInputs | src/openfootprint/core/plan.py:16 | an input kind is present iff its value is truthy (None and "" excluded) |
| Plan.Tagged | src/openfootprint/core/plan.py:19-28 | one PlannedRequest per request, carrying the source id and the request's url, input type, headers and transport unchanged |
| Plan.AppendTagged | src/openfootprint/core/plan.py:19-28 | the inner loop appends exactly the tagged requests of one source |
| Plan.BuildPlan | src/openfootprint/core/plan.py:15-29 | the nested loop over the selected sources computes the plan specification, an exception from build_requests included |
| Plan.PlanOf | src/openfootprint/core/plan.py:17-29 | defined as the tagged requests of the selected sources concatenated in order, or the failure of the first builder that fails |
| Plan.Groups | src/openfootprint/core/plan.py:18-28 | one group of tagged requests per selected source |
| Plan.PlanIsConcatenation | src/openfootprint/core/plan.py:17-29 | the plan succeeds iff every builder does, and then is the concatenation of the groups; its length is the sum of theirs |
| Plan.PlanFailureIsFirst | src/openfootprint/core/plan.py:18-20 | a failed plan carries the error of the first source whose build_requests raised |
| Plan.PlanComesFromSelectedSources | src/openfootprint/core/plan.py:16-18 | every planned request comes from a registry source that supports a present input |
| Plan.PlanMemberGroup | src/openfootprint/core/plan.py:18-28 | every planned request is a tagged request of one selected source, with that source's id |
| Plan.PlanUsernameExample | tests/test_plan.py:7-24 | a lone username source with one request gives a one-request plan whose source id is that source's |
| Registry.SourceRegistry.ForInputs | src/openfootprint/sources/registry.py:12-13 | exactly the sources whose supported inputs meet the set, as a subsequence in registry order, each kept as many times as it occurs |
| Registry.SourceRegistry.Filtered | src/openfootprint/sources/registry.py:15-21 | keeps a source iff the enabled list is empty or names it, and disabled does not name it; order and multiplicity are kept |
| Registry.FilterTwice | src/openfootprint/sources/registry.py:17-21 | the two successive comprehensions equal one filter by the combined condition |
| Registry.SelectedFacts | src/openfootprint/sources/registry.py:15-21 | the two comprehensions keep exactly the sources `Kept` accepts, in registry order, each as many times as it occurs |
| Registry.SourceRegistry.ListSources | src/openfootprint/sources/registry.py:23-24 | a permutation of the sources, sorted by source id, with sources that share an id kept in registry order |
| Registry.SortById | src/openfootprint/sources/registry.py:24 | sorted by id and a permutation of its input |
| Registry.SortByIdStable | src/openfootprint/sources/registry.py:24 | for every id, the sources with that id keep their input order: the sort is stable, as `sorted` is |
| Registry.InsertByIdStable | src/openfootprint/sources/registry.py:24 | an inserted source goes before every source with its id; other ids keep their order |
| Registry.WithId | src/openfootprint/sources/registry.py:24 | the sources with one id, in order: exactly the members with that id |
| Registry.InsertById | src/openfootprint/sources/registry.py:24 | inserting into a sorted list keeps it sorted and adds exactly that source |
| Registry.LexTotal | src/openfootprint/sources/registry.py:24 | the string order used for sorting is total |
| Registry.LexTransitive | src/openfootprint/sources/registry.py:24 | the string order used for sorting is transitive |
| Registry.SourceRegistry.Get | src/openfootprint/sources/registry.py:26-30 | None iff no source has the id; otherwise the first source with that id |
| Registry.FirstWithId | src/openfootprint/sources/registry.py:26-30 | the linear search finds the first match or reports that none exists |
| RateLimit.Clock.Now | src/openfootprint/policies/rate_limit.py:16 | returns the next injected reading and counts the read |
| RateLimit.Sleeper.Sleep | src/openfootprint/policies/rate_limit.py:21 | logs the requested sleep |
| RateLimit.RateLimiter.constructor | src/openfootprint/policies/rate_limit.py:7-12 | a new limiter has seen no key |
| RateLimit.RateLimiter.Wait | src/openfootprint/policies/rate_limit.py:14-23 | reads the clock once, sleeps as WaitStep says, records its time under the key and leaves every other key alone |
| RateLimit.WaitStep | src/openfootprint/policies/rate_limit.py:15-23 | defined as: no record gives no sleep and the reading; a record less than min_interval ago gives one sleep of the rest and the reading plus that sleep |
| RateLimit.FirstWaitNeverSleeps | src/openfootprint/policies/rate_limit.py:15-23 | the first wait for a key never sleeps and records the reading |
| RateLimit.WaitSleepsIffTooSoon | src/openfootprint/policies/rate_limit.py:18-23 | sleeps (once, min_interval - elapsed) iff elapsed < min_interval, then records last + min_interval; otherwise records the reading |
| RateLimit.SleepBounds | src/openfootprint/policies/rate_limit.py:16-21 | with a monotone clock any sleep lies in (0, min_interval] and the new record is at least min_interval after the last |
| RateLimit.TwoWaitsExample | tests/test_rate_limit.py:4-19 | readings 0.0 then 0.1 with interval 1.0 make exactly one sleep, of 0.9 |
| Url.StripLeadingControls | src/openfootprint/policies/robots.py:13 | `urlsplit`'s lstrip: a suffix of the URL, every dropped character a C0 control or space, and the rest starting with neither |
| Url.RemoveUnsafe | src/openfootprint/policies/robots.py:13 | `urlsplit`'s deletion of tab, CR and LF: no such character is left, and the result is no longer |
| Url.Sanitized | src/openfootprint/policies/robots.py:13 | defined as the URL lstripped of C0 controls and spaces, then with tab, CR and LF deleted |
| Url.SanitizedStartsVisible | src/openfootprint/policies/robots.py:13 | what `urlsplit` splits never starts with a control character or a space |
| Url.SplitScheme | src/openfootprint/policies/robots.py:13 | defined as the lower-cased scheme and the rest after ':' when the text before the first ':' is a scheme, else "" and the whole URL |
| Url.SplitSchemeParts | src/openfootprint/policies/robots.py:13 | the scheme is made of lower-case scheme characters; the rest is a suffix of the URL |
| Url.SplitNetlocSlice | src/openfootprint/policies/robots.py:13 | the network location is the text right after "//" |
| Url.Origin | src/openfootprint/policies/robots.py:13-14 | defined as the cache key `scheme://netloc` of the sanitised URL, or "Invalid IPv6 URL" for an unbalanced bracket |
| Url.OriginHasNoUnsafe | src/openfootprint/policies/robots.py:13-14 | a cache key never holds a tab, CR or LF |
| Url.RobotsLocation | src/openfootprint/policies/robots.py:16 | the origin followed by "/robots.txt" |
| Url.FirstOf | src/openfootprint/policies/robots.py:13 | the index of the first character from a set, or the length |
| Url.SplitNetloc | src/openfootprint/policies/robots.py:13 | the authority stops before the first '/', '?' or '#' |
| Url.SchemeOfWellFormed | src/openfootprint/policies/robots.py:13 | a lower-case scheme before ':' is split off as the scheme |
| Url.NetlocOfWellFormed | src/openfootprint/policies/robots.py:13 | after "//", the host up to the path is the authority |
| Url.OriginOfWellFormed | src/openfootprint/policies/robots.py:13-14 | the cache key of scheme://host/path is scheme://host, for a host without '/', '?', '#', brackets, tab, CR or LF |
| Url.ExampleOrigin | src/openfootprint/policies/robots.py:13-14 | https://example.com with any path has origin https://example.com |
| Url.RobotsLocationSameOrigin | src/openfootprint/policies/robots.py:14-16 | the robots.txt URL of a well-formed origin has that origin as its key |
| Url.LeadingControlIgnored | src/openfootprint/policies/robots.py:13-14 | a leading control character or space does not change the key |
| Url.UnsafeIgnored | src/openfootprint/policies/robots.py:13-14 | a tab, CR or LF after the first character does not change the key |
| Url.SameSanitizedSameOrigin | src/openfootprint/policies/robots.py:13-14 | the key depends only on the sanitised URL |
| Url.LeadingSpaceExample | src/openfootprint/policies/robots.py:13-14 | " https://example.com/x" has the key https://example.com |
| Url.TabInHostExample | src/openfootprint/policies/robots.py:13-14 | "https://mast\todon.social/@a" has the key https://mastodon.social |
| Robots.RobotsFetcher.Fetch | src/openfootprint/policies/robots.py:17 | answers with the injected robots.txt text and logs the requested URL |
| Robots.RobotsPolicy.constructor | src/openfootprint/policies/robots.py:8-10 | a new policy has an empty cache |
| Robots.RobotsPolicy.Allows | src/openfootprint/policies/robots.py:12-21 | answer, new cache and fetch log are those of AllowsStep on the old cache |
| Robots.AllowsStep | src/openfootprint/policies/robots.py:13-21 | defined as: an unsplittable URL fails; a cached key answers from the cache; otherwise one fetch of the robots.txt location, cached on success, propagated on failure |
| Robots.CacheOnlyGrows | src/openfootprint/policies/robots.py:15-20 | entries are only added (at most one per call), never replaced or removed |
| Robots.HitFetchesNothing | src/openfootprint/policies/robots.py:15-21 | a cached origin fetches nothing, leaves the cache and answers from the cached rules |
| Robots.MissFetchesOnce | src/openfootprint/policies/robots.py:15-20 | a miss fetches origin + "/robots.txt" exactly once; success caches it under the origin, failure propagates and caches nothing |
| Robots.SecondCallIsCached | src/openfootprint/policies/robots.py:15-21 | a repeated consultation fetches nothing and gives the same answer |
| Fetcher.HttpTransport.Get | src/openfootprint/core/fetcher.py:41 | answers with the injected response or exception and logs the call |
| Fetcher.SentHeaders | src/openfootprint/core/fetcher.py:38-40 | User-Agent plus the caller's headers; the caller wins on conflict |
| Fetcher.SkippedResult | src/openfootprint/core/fetcher.py:34-35 | skipped, with no status, headers, content or error |
| Fetcher.TransportResult | src/openfootprint/core/fetcher.py:41-50 | on success status/headers/content from the response and no error; on an exception only the message; never skipped |
| Fetcher.Fetcher.constructor | src/openfootprint/core/fetcher.py:17-31 | keeps its collaborators and settings |
| Fetcher.Fetcher.Get | src/openfootprint/core/fetcher.py:33-50 | robots first; a disallowed URL is skipped without clock, sleep or transport; otherwise wait on source_id, then one transport call with the sent headers and timeout |
| Fetcher.DisallowedExample | tests/test_fetcher.py:6-19 | a disallowing robots.txt gives a skipped result and no transport call or clock read |
| Inputs.StripLower | src/openfootprint/core/inputs.py:11-12 | None stays None; None iff only whitespace; else exactly `Lower(Strip(value))`, hence trimmed and lower-case |
| Inputs.NormalizeEmail | src/openfootprint/core/inputs.py:8-12 | None stays None; None iff only whitespace; else exactly `Lower(Strip(value))`, hence trimmed and lower-case |
| Inputs.NormalizeUsername | src/openfootprint/core/inputs.py:15-19 | None stays None; None iff only whitespace; else exactly `Lower(Strip(value))`, hence trimmed and lower-case |
| Inputs.NormalizeName | src/openfootprint/core/inputs.py:22-26 | same words, joined by single spaces, case kept; None iff no word |
| Inputs.NormalizePhone | src/openfootprint/core/inputs.py:29-38 | None or blank gives None; an invalid number raises; a valid one gives exactly the E.164 form of the stripped value, and every success with a value is that form |
| Inputs.FromRaw | src/openfootprint/core/inputs.py:48-61 | each field goes through its own normaliser; only the phone can raise |
| Inputs.StripLowerIdempotent | src/openfootprint/core/inputs.py:8-19 | the email and username normalisers are idempotent |
| Inputs.NormalizeNameIdempotent | src/openfootprint/core/inputs.py:22-26 | the name normaliser is idempotent |
| Inputs.FromRawIsNormalized | src/openfootprint/core/inputs.py:56-61 | built inputs are trimmed, lower-case where required, and never hold "" |
| Inputs.NormalizeUsernameExample | tests/test_inputs.py:12-13 | "  Alice " normalises to "alice" |
| Inputs.NormalizeEmailExample | tests/test_inputs.py:4-5 | "Alice@Example.COM" normalises to "alice@example.com" |
| Text.Strip | src/openfootprint/core/inputs.py:11 | a contiguous slice without surrounding whitespace; empty iff all whitespace |
| Text.StripTrimmed | src/openfootprint/core/inputs.py:11 | stripping a trimmed string changes nothing |
| Text.Lower | src/openfootprint/core/inputs.py:12 | same length, each character lower-cased |
| Text.LowerFacts | src/openfootprint/core/inputs.py:12 | lower-casing is idempotent, yields lower case and keeps whitespace where it was |
| Text.Words | src/openfootprint/core/inputs.py:25 | `split()`: non-empty words without whitespace |
| Text.WordsJoin | src/openfootprint/core/inputs.py:25 | splitting words joined by single spaces gives the words back |
| Text.JoinWordsTrimmed | src/openfootprint/core/inputs.py:25-26 | words joined by spaces are trimmed, and empty iff there are no words |
| Text.WordsStrip | src/openfootprint/core/inputs.py:25 | stripping first does not change the words |
| Text.SplitOnJoin | src/openfootprint/reporting/console.py:8 | lines without the separator, joined by it, split back into the same lines |
| Text.JoinContainsPart | src/openfootprint/reporting/markdown_report.py:13 | a joined text contains each of its parts |
| Text.ReplaceAll | src/openfootprint/tools/whatsmyname_runner.py:23 | `str.replace` with a non-empty pattern: every occurrence replaced, left to right, without overlap |
| Text.NatToDecimal | src/openfootprint/nameintel/permutations.py:44 | `str(y)` of a natural: non-empty, decimal digits only |
| Text.NatToDecimalValue | src/openfootprint/nameintel/permutations.py:44 | `str(y)` reads back as `y` and has no leading zero unless `y` is 0 |
| Text.NatToDecimalInjective | src/openfootprint/nameintel/permutations.py:44 | two different naturals never print the same |
| Config.Merged | src/openfootprint/core/config.py:25-32 | keys are the union; base values survive where not overridden; an override replaces unless both sides are dicts, and where both are dicts the value is their recursive merge |
| Config.MergeDicts | src/openfootprint/core/config.py:25-32 | the copy-then-overwrite loop, recursing on nested dicts, computes Merged; the inputs are values and are not changed |
| Config.MergeEmptyOverride | src/openfootprint/core/config.py:26-32 | merging an empty override gives the base |
| Config.MergeSelf | src/openfootprint/core/config.py:25-32 | merging a table with itself gives it back |
| Config.MergeIdempotent | src/openfootprint/core/config.py:25-32 | applying the same override twice is the same as once |
| Config.LoadConfig | src/openfootprint/core/config.py:35-44 | no path gives the defaults; a missing file raises; a parsed file is merged over the defaults |
| Config.DefaultConfig | src/openfootprint/core/config.py:7-22 | `DEFAULT_CONFIG`: the http, rate_limit, sources and output sections with their default values |
| Config.SourcesOnlyOverrideKeepsTimeout | tests/test_config.py:6-13 | a file setting only sources.enabled keeps it and leaves http.timeout_seconds at 15 |
| SourceBase.HttpRequest | src/openfootprint/sources/base.py:6-10 | an ordinary request: given url, input type and headers, transport "http" |
| SourceParse.ToolRequests | src/openfootprint/sources/tools/sherlock.py:19-23 | nothing without a username; else one tool://source/username request, input type username, transport "tool" |
| SourceParse.ToolPageFindings | src/openfootprint/sources/tools/sherlock.py:25-26 | the tool sources' parse always returns [] |
| SourceParse.RawEvidence | src/openfootprint/sources/helpers.py:29-41 | one Evidence per raw (path, hash) pair, in order, with the shared url, parser id, excerpt and time |
| SourceParse.CollectEvidence | src/openfootprint/sources/helpers.py:29-41 | the evidence loop computes RawEvidence |
| SourceParse.Field | src/openfootprint/sources/tools/maigret.py:65 | `dict.get`: Some iff the key is present, with its value |
| SourceParse.Usable | src/openfootprint/sources/helpers.py:24 | a response is parsed iff its status is 200 and its body is non-empty |
| SourceParse.DirectoryFinding | src/openfootprint/sources/directories/orcid.py:41-48 | a low-confidence "directory" finding with one name identifier sharing the evidence |
| SourceParse.ToolFinding | src/openfootprint/sources/tools/sherlock.py:74-91 | a medium "profile" finding of the username at the url, with one evidence shared by entity and identifier |
| Profile.FormatBraceFree | src/openfootprint/sources/helpers.py:21 | `str.format` leaves a template without braces unchanged |
| Profile.FormatAtPlaceholder | src/openfootprint/sources/helpers.py:21 | a leading {username} becomes the username, followed by the formatted rest |
| Profile.FormatPlaceholder | src/openfootprint/sources/helpers.py:21 | the placeholder is replaced by the username between the brace-free parts |
| Profile.HtmlProfileRequests | src/openfootprint/sources/helpers.py:18-21 | [] without a username; else it succeeds iff the template formats, and a success is the one username request for the formatted URL with no extra headers |
| Profile.FormatUsername | src/openfootprint/sources/helpers.py:21 | `url_template.format(username=...)`: {username} filled, doubled braces unescaped, a lone brace or any other field a failure |
| Profile.HtmlProfileRequestsFill | src/openfootprint/sources/helpers.py:21 | a one-placeholder template gives one username request for the filled URL with default headers |
| Profile.ParseProfile | src/openfootprint/sources/helpers.py:23-50 | [] unless 200 with a body; else one medium profile finding, id source:username, url [result.url], evidence per raw pair shared with its username identifier |
| Profile.ParseProfileWithoutRaw | tests/test_profile_sources.py:12-16 | with no raw artifacts a page still yields one finding whose identifier is the username |
| Profile.MakeHtmlProfileSource | src/openfootprint/sources/helpers.py:53-62 | the source supports {"username"} and uses the template's behaviour |
| Profile.MastodonRequests | src/openfootprint/sources/social/mastodon.py:6-11 | [] iff no username or no "@"; else one username request |
| Profile.MastodonSplitsAtFirstAt | src/openfootprint/sources/social/mastodon.py:9-10 | the handle splits at its first "@": https://instance/@user, the instance keeping later "@"s |
| Orcid.OrcidRequests | src/openfootprint/sources/directories/orcid.py:10-15 | [] without a name; else one name request to the search prefix plus the name verbatim, with Accept: application/json |
| Orcid.ParseOrcid | src/openfootprint/sources/directories/orcid.py:18-48 | [] on non-200, empty body or no hit; else one low directory finding from the first hit's ORCID path (or "unknown" and ""), evidence per raw pair |
| Orcid.ParseOrcidWithoutId | src/openfootprint/sources/directories/orcid.py:39-42 | a hit without a path gives id orcid:unknown and profile url "" |
| Wikidata.WikidataRequests | src/openfootprint/sources/directories/wikidata.py:10-17 | [] without a name; else one name request to the search URL plus the name |
| Wikidata.ParseWikidata | src/openfootprint/sources/directories/wikidata.py:20-48 | [] on non-200, empty body or no hit; else one low directory finding from the first hit's id, label and concepturi |
| OpenAlex.OpenAlexRequests | src/openfootprint/sources/directories/openalex.py:10-14 | [] without a name; else one name request to the authors search plus the name |
| OpenAlex.ParseOpenAlex | src/openfootprint/sources/directories/openalex.py:17-45 | [] on non-200, empty body or no hit; else one low directory finding from the first hit's id and display name |
| Catalog.Build | src/openfootprint/sources/base.py:13-20 | each capability's build_requests: at most one request, for its input kind and only when that input is given; tool transport iff the source can execute |
| Catalog.CatalogPlanUsesSuppliedInputs | src/openfootprint/core/plan.py:16-26 | every request of a plan built by the catalog asks for a present input, over the tool transport iff its source executes |
| Seqs.Filter | src/openfootprint/sources/registry.py:13 | the kept elements, each satisfying the predicate, none that does left out |
| Seqs.FilterIsSubsequence | src/openfootprint/sources/registry.py:13 | a comprehension filter keeps the original order |
| Seqs.FilterCount | src/openfootprint/sources/registry.py:13 | a comprehension filter keeps every copy of an element that passes and none of one that fails |
| Seqs.FilterFilter | src/openfootprint/sources/registry.py:17-21 | two successive comprehension filters are one filter by the conjunction |
| Seqs.FilterAgree | src/openfootprint/sources/registry.py:17-21 | filters that agree on every element select the same subsequence |
| Seqs.FilterAll | src/openfootprint/sources/registry.py:15-21 | a filter that accepts everything keeps the list whole (the branch where a list is empty and left unfiltered) |
| Seqs.Flatten | src/openfootprint/core/plan.py:17-29 | the concatenation, as long as the summed lengths |
| Seqs.FlattenAppend | src/openfootprint/core/plan.py:17-29 | flattening distributes over concatenation |
| Seqs.Dedup | src/openfootprint/nameintel/dorks.py:55-62 | the seen-set loop's output: the same elements, each once, never longer |
| Seqs.DedupExtends | src/openfootprint/nameintel/permutations.py:53-60 | deduplicating more input only extends the output |
| Seqs.DedupDistinct | src/openfootprint/nameintel/dorks.py:55-62 | a list without repeats is its own deduplication |
| Seqs.HarvestMembers | src/openfootprint/sources/tools/sherlock.py:67-92 | a loop that continues past items yields at most one result per item, each from some item, and none iff no item yields |
| Sherlock.RowFinding | src/openfootprint/sources/tools/sherlock.py:67-91 | a row yields a finding iff its stripped, lower-cased exists is true/1/yes and url_user or url is truthy; id source:username:(name or url), parser source.csv |
| Sherlock.ParseSherlockCsv | src/openfootprint/sources/tools/sherlock.py:61-92 | the row loop harvests RowFinding over the rows in order |
| Sherlock.SherlockFindingsFromClaimedRows | src/openfootprint/sources/tools/sherlock.py:63-92 | at most one finding per row, each from a claimed row with a url, sharing the raw hash and time |
| Sherlock.ClaimedRowKept | src/openfootprint/sources/tools/sherlock.py:68-73 | a row with exists "1" and a url_user is kept with that url |
| Sherlock.SilentRowSkipped | src/openfootprint/sources/tools/sherlock.py:68-70 | a row without exists is skipped |
| Sherlock.SherlockReportExample | tests/test_tool_sherlock.py:6-10 | a claimed and an unclaimed row give exactly one finding at https://example.com/alice |
| Maigret.SiteFinding | src/openfootprint/sources/tools/maigret.py:63-85 | a site yields a finding iff its status has a truthy url; id source:username:site, excerpt site, parser source.json |
| Maigret.ParseMaigretJson | src/openfootprint/sources/tools/maigret.py:57-86 | the site loop harvests SiteFinding over the payload's sites in order |
| Maigret.MaigretFindingsFromSites | src/openfootprint/sources/tools/maigret.py:59-86 | at most one finding per site, each from a site with a url, sharing raw hash and time |
| Maigret.MaigretReportExample | tests/test_tool_maigret.py:6-10 | a found and an unfound site give one finding at https://github.com/alice |
| WhatsMyName.ItemFinding | src/openfootprint/sources/tools/whatsmyname.py:67-90 | an item yields a finding iff matched and its url is truthy; id source:username:(site_name or url), excerpt site_name |
| WhatsMyName.ParseWhatsMyNameReport | src/openfootprint/sources/tools/whatsmyname.py:61-91 | the results loop harvests ItemFinding in result order |
| WhatsMyName.WhatsMyNameFindingsFromMatches | src/openfootprint/sources/tools/whatsmyname.py:63-91 | at most one finding per result, each from a matched result with a url |
| WhatsMyName.WhatsMyNameReportExample | tests/test_tool_whatsmyname.py:6-10 | a matched and an unmatched result give one finding at https://example.com/alice |
| WhatsMyNameRunner.EvaluateMatch | src/openfootprint/tools/whatsmyname_runner.py:10-19 | True iff m_code matches or m_string occurs; else False iff e_code matches or e_string occurs; else None |
| WhatsMyNameRunner.MatchCodeExample | tests/test_whatsmyname_runner.py:4-7 | m_code 200 / e_code 404: status 200 gives True, 404 gives False |
| WhatsMyNameRunner.RequestFor | src/openfootprint/tools/whatsmyname_runner.py:23-33 | the check url with {account} replaced; a POST with the replaced body iff post_body is truthy |
| WhatsMyNameRunner.CheckSite | src/openfootprint/tools/whatsmyname_runner.py:22-42 | a result iff the match is exactly True; site_name is the name or the url; url is uri_pretty (or the check url) with {account} replaced |
| WhatsMyNameRunner.AsReportItem | src/openfootprint/tools/whatsmyname_runner.py:37-42 | the report item is matched and carries url and site_name |
| WhatsMyNameRunner.ReplaceAllUntouched | src/openfootprint/tools/whatsmyname_runner.py:23 | a string without "{" is left unchanged by the replacement |
| WhatsMyNameRunner.ReplaceAllSkips | src/openfootprint/tools/whatsmyname_runner.py:23 | replacement passes over a prefix that cannot start the pattern |
| WhatsMyNameRunner.FillAccount | src/openfootprint/tools/whatsmyname_runner.py:23 | prefix{account}suffix becomes prefix + username + suffix |
| WhatsMyNameRunner.MatchedSiteBecomesFinding | src/openfootprint/tools/whatsmyname_runner.py:22-42 | a matching site's result becomes, in the report parser, a finding at the filled URL iff that URL is non-empty |
| Permutations.KeepTokenChars | src/openfootprint/nameintel/permutations.py:11 | only a-z and 0-9 remain, never longer |
| Permutations.KeepTokenCharsOfToken | src/openfootprint/nameintel/permutations.py:11 | a token is left unchanged |
| Permutations.NormalizeToken | src/openfootprint/nameintel/permutations.py:7-12 | normalised tokens hold only a-z and 0-9 |
| Permutations.NormalizeTokenIdempotent | src/openfootprint/nameintel/permutations.py:7-12 | normalising twice is normalising once |
| Permutations.FirstTwo | src/openfootprint/nameintel/permutations.py:24-25 | the first two characters, or the whole token if shorter |
| Permutations.Base | src/openfootprint/nameintel/permutations.py:21-39 | 28 candidates, starting with first+last and ending with first, last, first+last, last+first |
| Permutations.SepBlockOfSeps | src/openfootprint/nameintel/permutations.py:28-39 | the six forms for each of "", ".", "_", "-", then the four plain forms, are the base list |
| Permutations.BuildBase | src/openfootprint/nameintel/permutations.py:27-39 | the separator loop builds exactly the base list |
| Permutations.Years | src/openfootprint/nameintel/permutations.py:41-44 | no year gives no suffixes, a year gives two |
| Permutations.Years1990 | src/openfootprint/nameintel/permutations.py:44 | 1990 gives "1990" and "90" |
| Permutations.WithYear | src/openfootprint/nameintel/permutations.py:46-51 | the candidate itself first, then at most one variant per year suffix |
| Permutations.WithYearMembers | src/openfootprint/nameintel/permutations.py:46-51 | x is offered iff x is the candidate, or the candidate has length >= 4 and x is it plus a year suffix |
| Permutations.Expand | src/openfootprint/nameintel/permutations.py:55-56 | every candidate followed by its year variants |
| Permutations.ExpandHas | src/openfootprint/nameintel/permutations.py:55-56 | every variant of every candidate is in the expansion |
| Permutations.ExpandFrom | src/openfootprint/nameintel/permutations.py:55-56 | everything in the expansion is a variant of some candidate |
| Permutations.ExpandLength | src/openfootprint/nameintel/permutations.py:46-56 | at most three items per candidate |
| Permutations.LimitedFacts | src/openfootprint/nameintel/permutations.py:53-62 | the dedup loop with its limit: distinct, at most Cap(limit), a prefix of the deduplication, all of it when short enough |
| Permutations.OfferVariants | src/openfootprint/nameintel/permutations.py:56-62 | the inner loop extends out/seen as dedup does, stopping exactly when the limit is reached |
| Permutations.TakeCandidates | src/openfootprint/nameintel/permutations.py:53-63 | the nested loop with early return yields the limited dedup of the expansion |
| Permutations.GeneratePermutations | src/openfootprint/nameintel/permutations.py:15-63 | the generator computes the permutations specification |
| Permutations.PermutationsBounded | src/openfootprint/nameintel/permutations.py:53-62 | no duplicates; at most limit when limit >= 1, and one item when limit <= 0 |
| Permutations.PermutationsEmpty | src/openfootprint/nameintel/permutations.py:16-19 | empty iff a normalised name is empty; otherwise the first item is first+last |
| Permutations.PermutationsFromBase | src/openfootprint/nameintel/permutations.py:53-60 | every output is a year variant of a base candidate, and a base candidate itself without a year |
| Permutations.PermutationsComplete | src/openfootprint/nameintel/permutations.py:53-63 | with limit >= 84 every variant of every base candidate is output |
| Permutations.JohnDoeTokens | src/openfootprint/nameintel/permutations.py:16-17 | "John" and "Doe" normalise to "john" and "doe" |
| Permutations.JohnDoeBase | src/openfootprint/nameintel/permutations.py:21-39 | the base list of john/doe holds "johndoe", "j.doe" and "doejohn" |
| Permutations.JohnDoeInitial | tests/test_nameintel_permutations.py:4-6 | John/Doe/1990 with limit 200 includes "j.doe" |
| Permutations.JohnDoeFullYear | tests/test_nameintel_permutations.py:4-7 | it includes "doejohn1990" |
| Permutations.JohnDoeShortYear | tests/test_nameintel_permutations.py:4-8 | it includes "johndoe90" |
| Dorks.SiteFor | src/openfootprint/nameintel/dorks.py:13-16 | exactly linkedin and instagram are known sites |
| Dorks.Cleaned | src/openfootprint/nameintel/dorks.py:20 | the stripped non-blank terms, never longer |
| Dorks.CleanedTrimmed | src/openfootprint/nameintel/dorks.py:20 | trimmed non-empty terms pass unchanged |
| Dorks.CleanedBlank | src/openfootprint/nameintel/dorks.py:20-22 | blank terms are all dropped |
| Dorks.Quoted | src/openfootprint/nameintel/dorks.py:23 | each term in double quotes |
| Dorks.OrGroup | src/openfootprint/nameintel/dorks.py:19-24 | "" iff no term is non-blank; otherwise parenthesised |
| Dorks.OrGroupOfTrimmed | src/openfootprint/nameintel/dorks.py:19-24 | the quoted terms joined by " OR " inside parentheses |
| Dorks.KeywordGroupOfThree | src/openfootprint/nameintel/dorks.py:19-24 | three terms give ("a" OR "b" OR "c") |
| Dorks.HandleGroupOfTwo | src/openfootprint/nameintel/dorks.py:19-24 | two terms give ("a" OR "b") |
| Dorks.SiteQueries | src/openfootprint/nameintel/dorks.py:43-53 | the name query first, the keyword query iff keywords, the handle queries iff permutations |
| Dorks.CollectQueries | src/openfootprint/nameintel/dorks.py:37-53 | the site loop collects every known site's queries, unknown keys skipped |
| Dorks.DedupQueries | src/openfootprint/nameintel/dorks.py:55-62 | the seen-set loop deduplicates, keeping first occurrences |
| Dorks.BuildDorkQueries | src/openfootprint/nameintel/dorks.py:27-62 | the builder computes the deduplicated queries of the known sites |
| Dorks.AllQueriesTargetSites | src/openfootprint/nameintel/dorks.py:43-53 | every query starts with "site:" |
| Dorks.UnknownSitesIgnored | src/openfootprint/nameintel/dorks.py:38-41 | an all-unknown site list gives no query |
| Dorks.KnownSiteQueries | src/openfootprint/nameintel/dorks.py:43-53 | each query of each known site is collected |
| Dorks.DorkQueriesFacts | src/openfootprint/nameintel/dorks.py:55-62 | distinct, all "site:" queries, [] for unknown sites, and complete for known ones |
| Dorks.LinkedInQueries | src/openfootprint/nameintel/dorks.py:43-50 | LinkedIn gives the name query, the keyword query and the handle query |
| Dorks.LinkedInAndInstagram | tests/test_nameintel_dorks.py:4-13 | for two sites the LinkedIn name, keyword-group and handle-group queries are produced |
| SerpApi.ShortDigest | src/openfootprint/nameintel/serpapi.py:13 | the first 12 hex digits |
| SerpApi.ArtifactName | src/openfootprint/nameintel/serpapi.py:12-14 | the name starts with "serpapi_" + site + "_" and ends with ".json" |
| SerpApi.ArtifactNameScoped | src/openfootprint/nameintel/serpapi.py:12-14 | for sites without "_", two names agree iff the sites and the digest prefixes agree |
| SherlockValidate.SummaryOf | src/openfootprint/nameintel/sherlock_validate.py:9-19 | kept iff there is an entity with a truthy first url; then {url, display_name} |
| SherlockValidate.SummarizeSherlockFindings | src/openfootprint/nameintel/sherlock_validate.py:6-20 | the loop with continue harvests SummaryOf in input order |
| SherlockValidate.SummariesFromFindings | src/openfootprint/nameintel/sherlock_validate.py:7-20 | never longer than the input; each summary comes from an input entry; empty iff nothing is kept |
| SherlockValidate.GitHubExample | tests/test_nameintel_sherlock_validate.py:4-15 | one GitHub entry gives one summary with that URL |
| Console.FindingLines | src/openfootprint/reporting/console.py:6-7 | one "- source_id: label" line per finding, in order |
| Console.Label | src/openfootprint/reporting/console.py:7 | defined as the display name when non-empty, else the entity id |
| Console.RenderConsole | src/openfootprint/reporting/console.py:4-8 | the lines joined by "\n" |
| Console.ConsoleReportLines | src/openfootprint/reporting/console.py:4-8 | 3 + len(findings) lines, the three header lines, then one line per finding, recovered by splitting |
| MarkdownReport.SourceLines | src/openfootprint/reporting/markdown_report.py:6-7 | one "- source" line per source, in order |
| MarkdownReport.RenderMarkdown | src/openfootprint/reporting/markdown_report.py:4-13 | the two loops build the line list, joined by "\n" |
| MarkdownReport.MarkdownReportShape | src/openfootprint/reporting/markdown_report.py:5-13 | 9 + sources + findings lines; starts with the title and ends with "\n" |
| MarkdownReport.MarkdownNamesSources | tests/test_reporting.py:5-9 | the report contains every source name |

## Left out

- Unicode: NFKD decomposition and the removal of combining marks in `_normalize_token` are not modelled. Case folding is ASCII only, in `Text.Lower`.
- SHA-256 is a parameter `sha256Hex` of `SerpApi.ArtifactName`. The report parsers take the raw hash as input, and page titles (`extract_title`) and `datetime.now` stamps are parameters too.
- `json.loads`, CSV reading, the decoding of page bytes and `json.dumps` are not modelled. The parsers take the decoded payload:
  - directory hits as records of the fields read;
  - tool rows and sites as string maps;
  - a missing `result`/`search`/`results` list as [].
  - Non-string JSON values and other payload shapes are outside the model.
- Profile.ParseProfile, Orcid.ParseOrcid, Wikidata.ParseWikidata, OpenAlex.ParseOpenAlex: each requires the looked-up field (username or name) to be present when the parse produces a finding. Python would format `None` into the entity id.
- Config.LoadConfig: the missing-file message holds the path as given. The source prints `Path(path)`, which pathlib normalises ("./cfg.toml" prints as "cfg.toml", "a//b.toml" as "a/b.toml", a trailing "/" is dropped), so on such paths the model's message differs from the program's; path normalisation is not modelled.
- Profile.FormatUsername: the index, attribute, conversion and format-spec forms of the `username` field (`{username[0]}`, `{username.upper}`, `{username!r}`, `{username:>10}`) are reported as a failure. Python formats them, so `HtmlProfileRequests` fails on such a template where the source builds a request.
- WhatsMyNameRunner.MatchedSiteBecomesFinding: requires a username without "{". The source substitutes `{account}` in the already-filled URL a second time, so a username containing `{account}` would be expanded twice.
- WhatsMyNameRunner.CheckSite: `uri_pretty` present with a `null` value (an exception in the source) is treated like an absent one.
- The HTTP calls, `run` and `main` of the WhatsMyName runner are not modelled. Neither are the `execute` methods of the tool sources, subprocess handling, the search-API client, the run storage, the CLI and the pipeline orchestration (`core/pipeline.py`): all are file, process and network I/O.
- `urlparse` is modelled only as far as the cache key needs: the leading strip, the deletion of tab, CR and LF, the scheme and the authority. `RobotFileParser.can_fetch` is a parameter `canFetch` over the cached robots.txt text.
- Url.Origin: the validation of a bracketed host (`_check_bracketed_netloc`) is not modelled. The model fails only when one bracket appears without the other. CPython also raises `ValueError` for balanced brackets around something that is not an IPv6 or IPvFuture literal, such as `https://[abc]/`, and text before `[` or between `]` and the port raises too. The NFKC check on a non-ASCII netloc (`_checknetloc`) is not modelled either: when the NFKC form of the netloc gains a '/', '?', '#', '@' or ':' that the netloc did not hold, CPython raises `ValueError`. An example is the Mastodon handle `a@ex℀mple`, which builds `https://ex℀mple/@a`, because U+2100 normalises to "a/c". For all these URLs the model returns a key and fetches robots.txt where the source raises out of `allows` and `get`.
- `normalize_phone` uses the phonenumbers library. It is a parameter that returns the E.164 form or nothing.
- Time and intervals are `real`; floating-point rounding is not modelled.
- Aliasing of nested config dictionaries is not modelled (tables are values). Neither is a `tools` default section, which the shown defaults do not contain.
- Dictionary iteration order is not modelled for configuration tables. Maigret sites and report items are sequences in payload order.
- Concurrency: the code is sequential.
- Dorks: a `None` keyword or permutation list is modelled as [].
- `RequestSpec.transport` and the `execute` capability are added to the base records, with "http" as the transport of ordinary requests.
