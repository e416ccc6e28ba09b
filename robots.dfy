/** The politeness policy: robots.txt consulted once per origin and kept in a cache. */
module Robots {
  import opened Wrappers
  import opened Url

  /** The injected robots.txt fetcher: `serve` gives the text for a URL, or the exception it raises. */
  class RobotsFetcher {
    const serve: string -> Result<string>
    var requested: seq<string>

    constructor (serve: string -> Result<string>)
      ensures this.serve == serve && requested == []
    {
      this.serve := serve;
      requested := [];
    }

    method Fetch(url: string) returns (r: Result<string>)
      modifies this
      ensures r == serve(url) && requested == old(requested) + [url]
    {
      r := serve(url);
      requested := requested + [url];
    }
  }

  /**
   * The rule evaluation of the standard library's robots parser, `can_fetch(user_agent, url)` after
   * parsing the given robots.txt text.
   */
  type Rules = (string, string, string) -> bool

  /** What one `allows` call does: its answer, the cache afterwards and the URLs it fetched. */
  datatype Consult = Consult(answer: Result<bool>, cache: map<string, string>, fetched: seq<string>)

  /**
   * One `allows` call on a cache of robots.txt texts per origin: on a miss fetch the origin's
   * robots.txt and store it; answer with the rules of the cached text.
   */
  function AllowsStep(cache: map<string, string>, url: string, userAgent: string,
                      serve: string -> Result<string>, canFetch: Rules): Consult
  {
    match Origin(url)
    case Failure(e) => Consult(Failure(e), cache, [])
    case Success(base) =>
      if base in cache then Consult(Success(canFetch(cache[base], userAgent, url)), cache, [])
      else
        var location := RobotsLocation(base);
        match serve(location)
        case Failure(e) => Consult(Failure(e), cache, [location])
        case Success(text) => Consult(Success(canFetch(text, userAgent, url)), cache[base := text], [location])
  }

  /** Cache entries are only ever added: every entry present before is still there, unchanged. */
  lemma CacheOnlyGrows(cache: map<string, string>, url: string, userAgent: string,
                       serve: string -> Result<string>, canFetch: Rules)
    ensures var c := AllowsStep(cache, url, userAgent, serve, canFetch);
      cache.Keys <= c.cache.Keys && (forall k :: k in cache ==> c.cache[k] == cache[k])
      && |c.cache.Keys - cache.Keys| <= 1
  {
    var c := AllowsStep(cache, url, userAgent, serve, canFetch);
    if Origin(url).Success? && Origin(url).value !in cache && serve(RobotsLocation(Origin(url).value)).Success? {
      assert c.cache.Keys - cache.Keys == {Origin(url).value};
    } else {
      assert c.cache.Keys - cache.Keys == {};
    }
  }

  /** A cached origin is answered from the cache: nothing is fetched and the cache is unchanged. */
  lemma HitFetchesNothing(cache: map<string, string>, url: string, userAgent: string,
                          serve: string -> Result<string>, canFetch: Rules)
    requires Origin(url).Success? && Origin(url).value in cache
    ensures var c := AllowsStep(cache, url, userAgent, serve, canFetch);
      c.fetched == [] && c.cache == cache && c.answer == Success(canFetch(cache[Origin(url).value], userAgent, url))
  {
  }

  /**
   * A missing origin is fetched exactly once, at its robots.txt location; success caches the text
   * under the origin and answers with its rules, failure propagates and caches nothing.
   */
  lemma MissFetchesOnce(cache: map<string, string>, url: string, userAgent: string,
                        serve: string -> Result<string>, canFetch: Rules)
    requires Origin(url).Success? && Origin(url).value !in cache
    ensures var base := Origin(url).value;
      var c := AllowsStep(cache, url, userAgent, serve, canFetch);
      c.fetched == [base + "/robots.txt"]
      && (serve(base + "/robots.txt").Success? ==>
            c.cache == cache[base := serve(base + "/robots.txt").value]
            && base in c.cache && c.answer == Success(canFetch(c.cache[base], userAgent, url)))
      && (serve(base + "/robots.txt").Failure? ==>
            c.cache == cache && c.answer == Failure(serve(base + "/robots.txt").error))
  {
  }

  /** A second consultation for the same URL fetches nothing and gives the same answer. */
  lemma SecondCallIsCached(cache: map<string, string>, url: string, userAgent: string,
                           serve: string -> Result<string>, canFetch: Rules)
    requires AllowsStep(cache, url, userAgent, serve, canFetch).answer.Success?
    ensures var first := AllowsStep(cache, url, userAgent, serve, canFetch);
      var second := AllowsStep(first.cache, url, userAgent, serve, canFetch);
      second.fetched == [] && second.cache == first.cache && second.answer == first.answer
  {
  }

  /** The policy: the rule evaluation it uses and the robots.txt text cached per origin. */
  class RobotsPolicy {
    const canFetch: Rules
    var cache: map<string, string>

    constructor (canFetch: Rules)
      ensures this.canFetch == canFetch && cache == map[]
    {
      this.canFetch := canFetch;
      cache := map[];
    }

    /** `allows(url, user_agent, fetcher)`, as `AllowsStep` describes; exceptions become `Failure`. */
    method Allows(url: string, userAgent: string, fetcher: RobotsFetcher) returns (r: Result<bool>)
      modifies this, fetcher
      ensures var c := AllowsStep(old(cache), url, userAgent, fetcher.serve, canFetch);
        r == c.answer && cache == c.cache && fetcher.requested == old(fetcher.requested) + c.fetched
    {
      ghost var step := AllowsStep(cache, url, userAgent, fetcher.serve, canFetch);
      var origin := Origin(url);
      if origin.Failure? {
        return Failure(origin.error);
      }
      var base := origin.value;
      if base !in cache {
        var robotsUrl := RobotsLocation(base);
        assert step.fetched == [robotsUrl];
        var content := fetcher.Fetch(robotsUrl);
        if content.Failure? {
          return Failure(content.error);
        }
        cache := cache[base := content.value];
      }
      return Success(canFetch(cache[base], userAgent, url));
    }
  }
}
