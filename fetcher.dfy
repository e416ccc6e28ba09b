/** The polite fetch: robots check, then per-source throttling, then the transport call. */
module Fetcher {
  import opened Wrappers
  import opened RateLimit
  import opened Robots
  import Url

  newtype byte = x: int | 0 <= x < 256

  /** The uniform envelope of one fetch: a response, a policy skip, or a transport error. */
  datatype FetchResult = FetchResult(url: string, statusCode: Option<int>, headers: map<string, string>,
                                     content: Option<seq<byte>>, error: Option<string>, skipped: bool)

  /** What the transport returns on success. */
  datatype Response = Response(statusCode: int, headers: map<string, string>, content: seq<byte>)

  /** One call made to the transport. */
  datatype TransportCall = TransportCall(url: string, headers: map<string, string>, timeout: int)

  /** The injected `http_get(url, headers, timeout)`: `respond` gives its response or the exception it raises. */
  class HttpTransport {
    const respond: (string, map<string, string>, int) -> Result<Response>
    var calls: seq<TransportCall>

    constructor (respond: (string, map<string, string>, int) -> Result<Response>)
      ensures this.respond == respond && calls == []
    {
      this.respond := respond;
      calls := [];
    }

    method Get(url: string, headers: map<string, string>, timeout: int) returns (r: Result<Response>)
      modifies this
      ensures r == respond(url, headers, timeout) && calls == old(calls) + [TransportCall(url, headers, timeout)]
    {
      r := respond(url, headers, timeout);
      calls := calls + [TransportCall(url, headers, timeout)];
    }
  }

  /**
   * The headers sent: the client's User-Agent overlaid by the caller's headers, which win on conflict.
   * A missing `headers` argument is the empty map.
   */
  function SentHeaders(userAgent: string, headers: map<string, string>): (r: map<string, string>)
    ensures r.Keys == headers.Keys + {"User-Agent"}
    ensures forall k :: k in headers ==> r[k] == headers[k]
    ensures "User-Agent" !in headers ==> r["User-Agent"] == userAgent
  {
    map["User-Agent" := userAgent] + headers
  }

  /** The result of a URL the policy disallows: skipped, with nothing else set. */
  function SkippedResult(url: string): (r: FetchResult)
    ensures r.skipped && r.url == url && r.statusCode.None? && r.headers == map[] && r.content.None? && r.error.None?
  {
    FetchResult(url, None, map[], None, None, true)
  }

  /**
   * The result of a transport call: the response's status, headers and content on success; the
   * exception's message, and nothing else, on failure. Never skipped.
   */
  function TransportResult(url: string, outcome: Result<Response>): (r: FetchResult)
    ensures !r.skipped && r.url == url
    ensures r.error.None? <==> outcome.Success?
    ensures outcome.Success? ==>
      (r.statusCode == Some(outcome.value.statusCode) && r.headers == outcome.value.headers
       && r.content == Some(outcome.value.content))
    ensures outcome.Failure? ==>
      (r.statusCode.None? && r.headers == map[] && r.content.None? && r.error == Some(outcome.error))
  {
    match outcome
    case Success(response) => FetchResult(url, Some(response.statusCode), response.headers, Some(response.content), None, false)
    case Failure(message) => FetchResult(url, None, map[], None, Some(message), false)
  }

  /** A fetcher composing its policy, its limiter and its two injected I/O functions. */
  class Fetcher {
    const userAgent: string
    const timeoutSeconds: int
    const robotsPolicy: RobotsPolicy
    const rateLimiter: RateLimiter
    const httpGet: HttpTransport
    const robotsFetcher: RobotsFetcher

    constructor (userAgent: string, timeoutSeconds: int, robotsPolicy: RobotsPolicy, rateLimiter: RateLimiter,
                 httpGet: HttpTransport, robotsFetcher: RobotsFetcher)
      ensures this.userAgent == userAgent && this.timeoutSeconds == timeoutSeconds
      ensures this.robotsPolicy == robotsPolicy && this.rateLimiter == rateLimiter
      ensures this.httpGet == httpGet && this.robotsFetcher == robotsFetcher
    {
      this.userAgent := userAgent;
      this.timeoutSeconds := timeoutSeconds;
      this.robotsPolicy := robotsPolicy;
      this.rateLimiter := rateLimiter;
      this.httpGet := httpGet;
      this.robotsFetcher := robotsFetcher;
    }

    /**
     * `get(url, source_id, headers)`. The robots consultation comes first and may raise (`Failure`);
     * a disallowed URL is skipped without throttling or transport; otherwise the limiter waits on the
     * source id and the transport is called once with the sent headers and the timeout, its exception
     * turned into an error result.
     */
    method Get(url: string, sourceId: string, headers: map<string, string>) returns (r: Result<FetchResult>)
      modifies robotsPolicy, robotsFetcher, rateLimiter, rateLimiter.clock, rateLimiter.sleeper, httpGet
      ensures var c := AllowsStep(old(robotsPolicy.cache), url, userAgent, robotsFetcher.serve, robotsPolicy.canFetch);
        robotsPolicy.cache == c.cache && robotsFetcher.requested == old(robotsFetcher.requested) + c.fetched
      ensures var c := AllowsStep(old(robotsPolicy.cache), url, userAgent, robotsFetcher.serve, robotsPolicy.canFetch);
        c.answer != Success(true) ==>
          r == (if c.answer.Failure? then Failure(c.answer.error) else Success(SkippedResult(url)))
          && rateLimiter.lastSeen == old(rateLimiter.lastSeen)
          && rateLimiter.clock.readCount == old(rateLimiter.clock.readCount)
          && rateLimiter.sleeper.slept == old(rateLimiter.sleeper.slept)
          && httpGet.calls == old(httpGet.calls)
      ensures var c := AllowsStep(old(robotsPolicy.cache), url, userAgent, robotsFetcher.serve, robotsPolicy.canFetch);
        c.answer == Success(true) ==>
          var s := WaitStep(old(rateLimiter.LastFor(sourceId)), rateLimiter.clock.reading(old(rateLimiter.clock.readCount)),
                            rateLimiter.minInterval);
          var sent := SentHeaders(userAgent, headers);
          rateLimiter.lastSeen == old(rateLimiter.lastSeen)[sourceId := s.recorded]
          && rateLimiter.clock.readCount == old(rateLimiter.clock.readCount) + 1
          && rateLimiter.sleeper.slept == old(rateLimiter.sleeper.slept) + s.sleeps
          && httpGet.calls == old(httpGet.calls) + [TransportCall(url, sent, timeoutSeconds)]
          && r == Success(TransportResult(url, httpGet.respond(url, sent, timeoutSeconds)))
    {
      var allowed := robotsPolicy.Allows(url, userAgent, robotsFetcher);
      if allowed.Failure? {
        return Failure(allowed.error);
      }
      if !allowed.value {
        return Success(SkippedResult(url));
      }
      rateLimiter.Wait(sourceId);
      var merged := map["User-Agent" := userAgent];
      if headers != map[] {
        merged := merged + headers;
      }
      assert merged == SentHeaders(userAgent, headers);
      var response := httpGet.Get(url, merged, timeoutSeconds);
      return Success(TransportResult(url, response));
    }
  }

  /**
   * A robots.txt that the rules read as disallowing the URL: the fetch is skipped, the transport is
   * never called and the limiter never reads the clock.
   */
  method DisallowedExample(canFetch: Rules) returns (r: Result<FetchResult>, transportCalls: seq<TransportCall>, clockReads: nat)
    requires !canFetch("User-agent: *\nDisallow: /", "UA", "https://example.com")
    ensures r == Success(SkippedResult("https://example.com"))
    ensures transportCalls == [] && clockReads == 0
  {
    var policy := new RobotsPolicy(canFetch);
    var robotsFetcher := new RobotsFetcher((u: string) => Success("User-agent: *\nDisallow: /"));
    var http := new HttpTransport((u: string, h: map<string, string>, t: int) => Failure("should not fetch"));
    var clock := new Clock((k: nat) => 0.0);
    var sleeper := new Sleeper();
    var limiter := new RateLimiter(0.0, clock, sleeper);
    var fetcher := new Fetcher("UA", 10, policy, limiter, http, robotsFetcher);
    Url.ExampleOrigin([]);
    assert "https://example.com" + [] == "https://example.com";
    r := fetcher.Get("https://example.com", "example", map[]);
    transportCalls := http.calls;
    clockReads := clock.readCount;
  }
}
