/**
 * The strangler-fig proxy's routing decisions (src/microservices/proxy/app.py).
 *
 * `/api/movies` is split between the new movies service and the monolith by
 * comparing a random draw with a migration percentage; every other `/api/...`
 * path is forwarded by prefix to the events service or the monolith, or
 * refused with 404. The random draw, the upstream's reply and the
 * configuration read from the environment are parameters.
 */
module Proxy {
  import opened Wrappers

  /** The upstream base URLs and the percentage of movie traffic sent to the new service. */
  datatype Config = Config(
    monolithUrl: string,
    moviesServiceUrl: string,
    eventsServiceUrl: string,
    migrationPercent: real)

  /** The configuration with every environment variable unset. */
  const DefaultConfig := Config(
    "http://monolith:8080",
    "http://movies-service:8081",
    "http://events-service:8082",
    0.0)

  /** Where a request is forwarded, with the full target URL, or that no service handles it. */
  datatype Route = Events(url: string) | Monolith(url: string) | MoviesService(url: string) | NotFound

  /** Python's `str.startswith`. */
  predicate StartsWith(s: string, prefix: string)
  {
    |prefix| <= |s| && s[..|prefix|] == prefix
  }

  /** The upstream URL for `path` below `/api/` of the service at `base`. */
  function TargetUrl(base: string, path: string): (url: string)
    ensures |url| == |base| + 5 + |path|
    ensures url[..|base|] == base && url[|base|..|base| + 5] == "/api/" && url[|base| + 5..] == path
  {
    base + "/api/" + path
  }

  /** The path below `/api/` that a target URL on `base` was built from, if it is one. */
  function ServicePath(base: string, url: string): (path: Option<string>)
    ensures path.Some? ==> TargetUrl(base, path.value) == url
  {
    if StartsWith(url, base + "/api/") then Some(url[|base| + 5..]) else None
  }

  /** The target URL gives back the path it was built from. */
  lemma ServicePathOfTargetUrl(base: string, path: string)
    ensures ServicePath(base, TargetUrl(base, path)) == Some(path)
  {
  }

  /** A path that names the monolith. */
  predicate MonolithPath(path: string)
  {
    StartsWith(path, "users") || StartsWith(path, "payments") || StartsWith(path, "subscriptions")
  }

  /** The routing of `proxy_other`: by prefix of the path below `/api/`. */
  function RouteOther(cfg: Config, path: string): (r: Route)
    ensures !r.MoviesService?
    ensures r.Events? ==> r.url == TargetUrl(cfg.eventsServiceUrl, path)
    ensures r.Monolith? ==> r.url == TargetUrl(cfg.monolithUrl, path)
  {
    if StartsWith(path, "events/") then Events(TargetUrl(cfg.eventsServiceUrl, path))
    else if MonolithPath(path) then
      Monolith(TargetUrl(cfg.monolithUrl, path))
    else NotFound
  }

  /** A path starting with `prefix` starts with its first character. */
  lemma StartsWithFirst(s: string, prefix: string)
    requires |prefix| > 0 && StartsWith(s, prefix)
    ensures |s| > 0 && s[0] == prefix[0]
  {
  }

  /**
   * The prefixes cannot overlap, so the order of the tests does not matter:
   * each route is taken exactly when its own prefix test holds.
   */
  lemma RouteOtherByPrefix(cfg: Config, path: string)
    ensures RouteOther(cfg, path).Events? <==> StartsWith(path, "events/")
    ensures RouteOther(cfg, path).Monolith? <==> MonolithPath(path)
    ensures RouteOther(cfg, path).NotFound? <==> !StartsWith(path, "events/") && !MonolithPath(path)
  {
    if StartsWith(path, "events/") {
      StartsWithFirst(path, "events/");
      if StartsWith(path, "users") { StartsWithFirst(path, "users"); }
      if StartsWith(path, "payments") { StartsWithFirst(path, "payments"); }
      if StartsWith(path, "subscriptions") { StartsWithFirst(path, "subscriptions"); }
    }
  }

  /** The routing of `proxy_movies` for a draw of `random.random()` in [0, 1). */
  function RouteMovies(cfg: Config, draw: real): (r: Route)
    requires 0.0 <= draw < 1.0
    ensures r.MoviesService? || r.Monolith?
    ensures r.MoviesService? ==> r.url == TargetUrl(cfg.moviesServiceUrl, "movies")
    ensures r.Monolith? ==> r.url == TargetUrl(cfg.monolithUrl, "movies")
  {
    if draw * 100.0 < cfg.migrationPercent then MoviesService(TargetUrl(cfg.moviesServiceUrl, "movies"))
    else Monolith(TargetUrl(cfg.monolithUrl, "movies"))
  }

  /**
   * The draws sent to the movies service are exactly those below
   * `percent / 100`; for a percentage between 0 and 100 that is an interval
   * of that length, so that share of the uniform draws.
   */
  lemma MoviesShareIsPercent(cfg: Config, draw: real)
    requires 0.0 <= draw < 1.0
    ensures RouteMovies(cfg, draw).MoviesService? <==> draw < cfg.migrationPercent / 100.0
  {
  }

  /** At 0 percent (the default) or below, all movie traffic stays on the monolith. */
  lemma NoMigrationAllMonolith(cfg: Config, draw: real)
    requires 0.0 <= draw < 1.0
    requires cfg.migrationPercent <= 0.0
    ensures RouteMovies(cfg, draw).Monolith?
  {
  }

  /** At 100 percent or above, all movie traffic goes to the movies service. */
  lemma FullMigrationAllMoviesService(cfg: Config, draw: real)
    requires 0.0 <= draw < 1.0
    requires cfg.migrationPercent >= 100.0
    ensures RouteMovies(cfg, draw).MoviesService?
  {
  }

  /** Raising the percentage only moves draws from the monolith to the movies service, never back. */
  lemma MigrationIsMonotone(cfg: Config, percent: real, draw: real)
    requires 0.0 <= draw < 1.0
    requires cfg.migrationPercent <= percent
    ensures RouteMovies(cfg, draw).MoviesService? ==>
      RouteMovies(cfg.(migrationPercent := percent), draw).MoviesService?
  {
  }

  /** The HTTP method of a request to `proxy_other`, used again for the upstream call. */
  datatype Method = Get | Post

  /** The upstream's reply: its status and its (opaque) JSON body, or a failed request. */
  datatype Reply = Answered(status: int, json: string) | RequestFailed

  datatype Body = Relayed(json: string) | ErrorBody(error: string)

  datatype Response = Response(status: int, body: Body)

  /** The request made to an upstream. */
  datatype Call = Call(verb: Method, url: string)

  /** What one call of a proxy handler did: the upstream call it made, if any, and its answer. */
  datatype Outcome = Outcome(call: Option<Call>, response: Response)

  /** Turns the upstream's reply into the proxy's answer. */
  function Relay(reply: Reply): (r: Response)
    ensures reply.Answered? ==> r.status == reply.status && r.body == Relayed(reply.json)
    ensures reply.RequestFailed? ==> r == Response(503, ErrorBody("Service unavailable"))
  {
    match reply
    case Answered(status, json) => Response(status, Relayed(json))
    case RequestFailed => Response(503, ErrorBody("Service unavailable"))
  }

  /** `proxy_movies`: one GET to the chosen upstream, whose reply is `reply`. */
  function ProxyMovies(cfg: Config, draw: real, reply: Reply): (r: Outcome)
    requires 0.0 <= draw < 1.0
    ensures r.call.Some? && r.call.value.verb == Get
    ensures r.call.value.url == RouteMovies(cfg, draw).url
    ensures reply.Answered? ==> r.response.status == reply.status && r.response.body == Relayed(reply.json)
    ensures reply.RequestFailed? ==> r.response == Response(503, ErrorBody("Service unavailable"))
  {
    Outcome(Some(Call(Get, RouteMovies(cfg, draw).url)), Relay(reply))
  }

  /** `proxy_other` for a request with method `verb` on `/api/<path>`. */
  function ProxyOther(cfg: Config, verb: Method, path: string, reply: Reply): (r: Outcome)
    // an unknown service is refused with 404 and no upstream is called
    ensures r.call.None? <==> RouteOther(cfg, path).NotFound?
    ensures r.call.None? ==> r.response == Response(404, ErrorBody("Service not found"))
    // a known service is called once, with the request's method, at base + "/api/" + path
    ensures r.call.Some? ==> r.call.value == Call(verb, RouteOther(cfg, path).url)
    ensures r.call.Some? && reply.Answered? ==>
      r.response.status == reply.status && r.response.body == Relayed(reply.json)
    ensures r.call.Some? && reply.RequestFailed? ==> r.response == Response(503, ErrorBody("Service unavailable"))
  {
    var route := RouteOther(cfg, path);
    if route.NotFound? then Outcome(None, Response(404, ErrorBody("Service not found")))
    else Outcome(Some(Call(verb, route.url)), Relay(reply))
  }

  /** A call to an events path reaches the events service at the same path, so its own routes answer it. */
  lemma EventsPathsKeepTheirPath(cfg: Config, verb: Method, path: string, reply: Reply)
    requires StartsWith(path, "events/")
    ensures ProxyOther(cfg, verb, path, reply).call ==
      Some(Call(verb, TargetUrl(cfg.eventsServiceUrl, path)))
    ensures ServicePath(cfg.eventsServiceUrl, ProxyOther(cfg, verb, path, reply).call.value.url) == Some(path)
  {
  }

  /** `/api/events/user` is forwarded to the events service's own `/api/events/user`. */
  lemma EventsUserExample()
    ensures RouteOther(DefaultConfig, "events/user") == Events("http://events-service:8082/api/events/user")
  {
  }

  /** The slash after `events` matters; the monolith prefixes need none; `movies` is served only by `proxy_movies`. */
  lemma RoutingExamples()
    ensures RouteOther(DefaultConfig, "events").NotFound?
    ensures RouteOther(DefaultConfig, "usersettings").Monolith?
    ensures RouteOther(DefaultConfig, "movies").NotFound?
  {
    RouteOtherByPrefix(DefaultConfig, "events");
    RouteOtherByPrefix(DefaultConfig, "movies");
    if MonolithPath("events") {
      if StartsWith("events", "users") { StartsWithFirst("events", "users"); }
      if StartsWith("events", "payments") { StartsWithFirst("events", "payments"); }
      if StartsWith("events", "subscriptions") { StartsWithFirst("events", "subscriptions"); }
    }
    if MonolithPath("movies") {
      if StartsWith("movies", "users") { StartsWithFirst("movies", "users"); }
      if StartsWith("movies", "payments") { StartsWithFirst("movies", "payments"); }
      if StartsWith("movies", "subscriptions") { StartsWithFirst("movies", "subscriptions"); }
    }
    if StartsWith("movies", "events/") { StartsWithFirst("movies", "events/"); }
    assert "usersettings"[..5] == "users";
    if StartsWith("usersettings", "events/") { StartsWithFirst("usersettings", "events/"); }
  }
}
