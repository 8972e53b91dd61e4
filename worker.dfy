/**
 * The worker's `fetch` handler: the root redirect, the allow-list gate, the
 * `/purge-cache` admin path and the cached proxy to Google Fonts, in that order.
 *
 * `Handle` states what one request does to the response, the upstream request
 * and the cache; the class `Edge` performs the same steps one by one on the
 * cache it owns: `Fetch` is proved to agree with `Handle`, `Purge` with
 * `PurgeOutcome` and `Proxy` with `ProxyOutcome`.
 */
module Worker {
  import opened Wrappers
  import opened Text
  import Gate
  import opened Router
  import Css

  /** The statuses a `Response` can carry here (the constructor refuses others). */
  type StatusCode = n: int | 200 <= n <= 599 witness 200

  /** Header names are lower-case, as the Fetch `Headers` object normalises them. */
  type Headers = map<string, string>

  datatype Response = Response(status: StatusCode, headers: Headers, body: string)

  /** `response.ok`. */
  predicate Ok(status: int) {
    200 <= status <= 299
  }

  /**
   * The parts of the incoming request the handler reads. `scheme` is written with
   * its colon (`https:`); `params` are the query parameters already parsed from
   * `search`, and `refererOrigin` is the origin already parsed from a non-empty
   * `Referer` header.
   */
  datatype Request = Request(
    verb: string, scheme: string, host: string, path: string, search: string,
    params: map<string, string>, headers: Headers, refererOrigin: Option<string>)
  {
    /** `url.origin`. */
    function Origin(): string { scheme + "//" + host }

    /** The request URL, the key the cache looks the request up under: the origin, then the path and query. */
    function Url(): (u: string)
      ensures StartsWith(u, Origin()) && u[|Origin()|..] == path + search
    {
      assert (Origin() + path + search)[..|Origin()|] == Origin();
      assert (Origin() + path + search)[|Origin()|..] == path + search;
      Origin() + path + search
    }
  }

  datatype Env = Env(proxyDomain: Option<string>, purgeKey: Option<string>, allowedOrigins: Option<string>)

  /** What the upstream `fetch` did: it threw (with the error's message, if it was an `Error`) or answered. */
  datatype Upstream = Threw(message: Option<string>) | Returned(response: Response)

  /** The request the handler sends upstream: same method (`verb`) and headers, redirects followed. */
  datatype ProxyRequest = ProxyRequest(verb: string, url: string, headers: Headers)

  const RepositoryUrl := "https://github.com/carolyn-sun/google-fonts-proxy-worker"
  const PurgePath := "/purge-cache"
  const CommonPaths := ["/css", "/css2", "/s/"]
  const CacheControl := "public, max-age=315360"
  const AllowOrigin := "access-control-allow-origin"

  /** `Response.redirect(url, 302)`: an empty 302 whose only header is the location. */
  function Redirect(): (r: Response)
    ensures r.status == 302 && r.body == "" && Get(r.headers, "location") == Some(RepositoryUrl)
    ensures forall h :: h != "location" ==> Get(r.headers, h) == None
  {
    Response(302, map["location" := RepositoryUrl], "")
  }

  /** `new Response(text, { status })`: a string body brings the default text content type and no other header. */
  function TextResponse(status: StatusCode, body: string): (r: Response)
    ensures r.status == status && r.body == body
    ensures Get(r.headers, "content-type") == Some("text/plain;charset=UTF-8")
    ensures forall h :: h != "content-type" ==> Get(r.headers, h) == None
  {
    Response(status, map["content-type" := "text/plain;charset=UTF-8"], body)
  }

  /** The 403 answers of the gate, whose content type is given explicitly. */
  function Refusal(body: string): (r: Response)
    ensures r.status == 403 && r.body == body
    ensures Get(r.headers, "content-type") == Some("text/plain")
    ensures forall h :: h != "content-type" ==> Get(r.headers, h) == None
  {
    Response(403, map["content-type" := "text/plain"], body)
  }

  // ---------------------------------------------------------------------------
  // Decimal rendering of a status, as `${response.status}` writes it

  function Digit(d: int): char
    requires 0 <= d < 10
  {
    ('0' as int + d) as char
  }

  function Decimal(n: nat): (s: string)
    ensures |s| >= 1
    ensures forall i :: 0 <= i < |s| ==> '0' <= s[i] <= '9'
    ensures |s| > 1 ==> s[0] != '0'
    decreases n
  {
    if n < 10 then [Digit(n)] else Decimal(n / 10) + [Digit(n % 10)]
  }

  /** The number a string of decimal digits denotes. */
  function Value(s: string): nat
    requires forall i :: 0 <= i < |s| ==> '0' <= s[i] <= '9'
  {
    if |s| == 0 then 0 else 10 * Value(s[..|s| - 1]) + (s[|s| - 1] as int - '0' as int)
  }

  lemma {:induction false} DecimalValue(n: nat)
    ensures Value(Decimal(n)) == n
    decreases n
  {
    if n >= 10 {
      DecimalValue(n / 10);
      var s := Decimal(n);
      assert s[..|s| - 1] == Decimal(n / 10);
    }
  }

  /** Every status is written with exactly three digits. */
  lemma {:induction false} DecimalStatus(status: StatusCode)
    ensures |Decimal(status)| == 3
  {
    assert |Decimal(status / 100)| == 1;
    assert |Decimal(status / 10)| == 2;
  }

  // ---------------------------------------------------------------------------
  // The handler, as a function of the cache before the request

  /** The cache after the request, the response and the upstream request sent, if any. */
  datatype Outcome = Outcome(response: Response, sent: Option<ProxyRequest>, cache: map<string, Response>)

  predicate IsRoot(path: string) {
    path == "/" || path == ""
  }

  function Verdict(req: Request, env: Env): Gate.Verdict {
    Gate.Check(env.allowedOrigins, Get(req.headers, "origin"), req.refererOrigin)
  }

  predicate Admitted(req: Request, env: Env) {
    Verdict(req, env) == Gate.Pass
  }

  /** A configured purge key must be given exactly as the `key` parameter; with none configured anyone may purge. */
  function PurgeAuthorized(req: Request, env: Env): (b: bool)
    ensures b <==> !Truthy(env.purgeKey) || ("key" in req.params && req.params["key"] == env.purgeKey.value)
  {
    !(Truthy(env.purgeKey) && Get(req.params, "key") != env.purgeKey)
  }

  /** The keys a purge without `url` removes: each common path resolved against the request origin. */
  function CommonKeys(origin: string): (keys: set<string>)
    ensures forall p :: p in CommonPaths ==> origin + p in keys
    ensures forall k :: k in keys ==> exists p :: p in CommonPaths && k == origin + p
  {
    {origin + "/css", origin + "/css2", origin + "/s/"}
  }

  function PurgeOutcome(cache: map<string, Response>, req: Request, env: Env): (o: Outcome)
    ensures o.sent == None
    ensures forall k :: k in o.cache ==> k in cache && o.cache[k] == cache[k]
    ensures !PurgeAuthorized(req, env) <==> o.response.status == 401
    ensures !PurgeAuthorized(req, env) ==> o.cache == cache && o.response.body == "Unauthorized"
    ensures PurgeAuthorized(req, env) ==> o.response.status == 200
    ensures PurgeAuthorized(req, env) && Truthy(Get(req.params, "url")) ==>
      o.response.body == "Cache cleared for: " + req.params["url"]
    ensures PurgeAuthorized(req, env) && !Truthy(Get(req.params, "url")) ==>
      o.response.body == "Common cache entries cleared"
    ensures PurgeAuthorized(req, env) && Truthy(Get(req.params, "url")) ==>
      forall k :: k in cache ==> (k in o.cache <==> k != req.params["url"])
    ensures PurgeAuthorized(req, env) && !Truthy(Get(req.params, "url")) ==>
      forall k :: k in cache ==> (k in o.cache <==> k !in CommonKeys(req.Origin()))
  {
    if !PurgeAuthorized(req, env) then Outcome(TextResponse(401, "Unauthorized"), None, cache)
    else
      var target := Get(req.params, "url");
      if Truthy(target) then Outcome(TextResponse(200, "Cache cleared for: " + target.value), None, cache - {target.value})
      else Outcome(TextResponse(200, "Common cache entries cleared"), None, cache - CommonKeys(req.Origin()))
  }

  /** `env.PROXY_DOMAIN || url.host`. */
  function ProxyDomain(req: Request, env: Env): (d: string)
    ensures Truthy(env.proxyDomain) ==> d == env.proxyDomain.value
    ensures !Truthy(env.proxyDomain) ==> d == req.host
    ensures d == "" ==> req.host == ""
  {
    if Truthy(env.proxyDomain) then env.proxyDomain.value else req.host
  }

  /** The form of every response the handler stores. */
  predicate StoredForm(r: Response) {
    Ok(r.status) && Get(r.headers, "cache-control") == Some(CacheControl) && Get(r.headers, AllowOrigin) == Some("*")
  }

  predicate CacheForm(cache: map<string, Response>) {
    forall k :: k in cache ==> StoredForm(cache[k])
  }

  /** The response built from an ok upstream answer, and stored. */
  function Proxied(r: Response, host: string, proxyDomain: string): (p: Response)
    requires Ok(r.status)
    ensures StoredForm(p) && p.status == r.status
    ensures host == CssHost ==>
      p.body == Css.RewriteCss(r.body, "https://" + proxyDomain) && Get(p.headers, "content-type") == Some("text/css")
    ensures host != CssHost ==> p.body == r.body && Get(p.headers, "content-type") == Get(r.headers, "content-type")
    ensures forall h :: h != "content-type" && h != "cache-control" && h != AllowOrigin ==> Get(p.headers, h) == Get(r.headers, h)
  {
    var base :=
      if host == CssHost then Response(r.status, r.headers["content-type" := "text/css"], Css.RewriteCss(r.body, "https://" + proxyDomain))
      else r;
    Response(base.status, base.headers["cache-control" := CacheControl][AllowOrigin := "*"], base.body)
  }

  /** A cached response as the handler returns it, with `Access-Control-Allow-Origin: *` set. */
  function Served(r: Response): (s: Response)
    ensures s.status == r.status && s.body == r.body && Get(s.headers, AllowOrigin) == Some("*")
    ensures forall h :: h != AllowOrigin ==> Get(s.headers, h) == Get(r.headers, h)
  {
    Response(r.status, r.headers[AllowOrigin := "*"], r.body)
  }

  function ProxyOutcome(cache: map<string, Response>, req: Request, env: Env, upstream: Upstream): (o: Outcome)
    ensures req.Url() in cache ==> o == Outcome(Served(cache[req.Url()]), None, cache)
    ensures req.Url() !in cache ==>
      o.sent == Some(ProxyRequest(req.verb, UpstreamUrl(TargetHost(req.path), req.path, req.search), req.headers))
    ensures o.cache != cache ==>
      req.Url() !in cache && upstream.Returned? && Ok(upstream.response.status) && o.cache == cache[req.Url() := o.response]
    ensures req.Url() !in cache && upstream.Returned? && Ok(upstream.response.status) ==>
      o.cache == cache[req.Url() := o.response] && StoredForm(o.response)
      && o.response == Proxied(upstream.response, TargetHost(req.path), ProxyDomain(req, env))
    ensures req.Url() !in cache && upstream.Returned? && !Ok(upstream.response.status) ==>
      o.cache == cache && o.response.status == upstream.response.status
    ensures req.Url() !in cache && upstream.Threw? ==>
      o.cache == cache && o.response.status == 500
      && o.response.body == "Proxy error: " + upstream.message.GetOr("Unknown error")
  {
    var key := req.Url();
    if key in cache then Outcome(Served(cache[key]), None, cache)
    else
      var host := TargetHost(req.path);
      var sent := Some(ProxyRequest(req.verb, UpstreamUrl(host, req.path, req.search), req.headers));
      match upstream
      case Threw(message) =>
        Outcome(TextResponse(500, "Proxy error: " + message.GetOr("Unknown error")), sent, cache)
      case Returned(r) =>
        if Ok(r.status) then
          var p := Proxied(r, host, ProxyDomain(req, env));
          Outcome(p, sent, cache[key := p])
        else
          Outcome(TextResponse(r.status, "Proxy failed: Google returned " + Decimal(r.status)), sent, cache)
  }

  /** One request, end to end. */
  function Handle(cache: map<string, Response>, req: Request, env: Env, upstream: Upstream): (o: Outcome)
    ensures IsRoot(req.path) ==> o == Outcome(Redirect(), None, cache)
    ensures !IsRoot(req.path) && !Admitted(req, env) ==>
      o.sent == None && o.cache == cache && o.response.status == 403
    ensures !IsRoot(req.path) && Verdict(req, env).NoOrigin? ==>
      o == Outcome(Refusal("Access denied: Direct access not allowed"), None, cache)
    ensures !IsRoot(req.path) && Verdict(req, env).Forbidden? ==> o == Outcome(Refusal("Access denied"), None, cache)
    ensures !IsRoot(req.path) && Admitted(req, env) && req.path == PurgePath ==> o == PurgeOutcome(cache, req, env)
    ensures !IsRoot(req.path) && Admitted(req, env) && req.path != PurgePath ==> o == ProxyOutcome(cache, req, env, upstream)
    ensures o.cache != cache ==> !IsRoot(req.path) && Admitted(req, env)
    ensures o.sent.Some? ==> !IsRoot(req.path) && Admitted(req, env) && req.path != PurgePath && req.Url() !in cache
  {
    if IsRoot(req.path) then Outcome(Redirect(), None, cache)
    else
      var verdict := Verdict(req, env);
      if verdict.NoOrigin? then Outcome(Refusal("Access denied: Direct access not allowed"), None, cache)
      else if verdict.Forbidden? then Outcome(Refusal("Access denied"), None, cache)
      else if req.path == PurgePath then PurgeOutcome(cache, req, env)
      else ProxyOutcome(cache, req, env, upstream)
  }

  // ---------------------------------------------------------------------------
  // The handler as a sequence of steps on the cache it owns

  class Edge {
    /** `caches.default`, keyed by request URL. */
    var cache: map<string, Response>

    ghost predicate Valid()
      reads this
    {
      CacheForm(cache)
    }

    constructor()
      ensures cache == map[] && Valid()
    {
      cache := map[];
    }

    method Fetch(req: Request, env: Env, upstream: Upstream) returns (resp: Response, sent: Option<ProxyRequest>)
      requires Valid()
      modifies this
      ensures Valid()
      ensures Outcome(resp, sent, cache) == Handle(old(cache), req, env, upstream)
    {
      if req.path == "/" || req.path == "" {
        return Redirect(), None;
      }
      var allowedOrigins := env.allowedOrigins;
      if Truthy(allowedOrigins) {
        var requestOrigin := Gate.RequestOrigin(Get(req.headers, "origin"), req.refererOrigin);
        if Truthy(requestOrigin) {
          var allowedList := Gate.AllowedList(allowedOrigins.value);
          var isAllowed := Gate.AnyMatches(requestOrigin.value, allowedList);
          if !isAllowed {
            assert Verdict(req, env).Forbidden?;
            return Refusal("Access denied"), None;
          }
        } else {
          assert Verdict(req, env).NoOrigin?;
          return Refusal("Access denied: Direct access not allowed"), None;
        }
      }
      assert Admitted(req, env);
      HandleKeepsCacheForm(old(cache), req, env, upstream);
      if req.path == PurgePath {
        resp := Purge(req, env);
        sent := None;
        return;
      }
      resp, sent := Proxy(req, env, upstream);
    }

    method Purge(req: Request, env: Env) returns (resp: Response)
      requires Valid()
      modifies this
      ensures Valid()
      ensures Outcome(resp, None, cache) == PurgeOutcome(old(cache), req, env)
    {
      var providedKey := Get(req.params, "key");
      var requiredKey := env.purgeKey;
      if Truthy(requiredKey) && providedKey != requiredKey {
        return TextResponse(401, "Unauthorized");
      }
      var targetUrl := Get(req.params, "url");
      if Truthy(targetUrl) {
        cache := cache - {targetUrl.value};
        return TextResponse(200, "Cache cleared for: " + targetUrl.value);
      }
      var cacheKeys: seq<string> := [];
      for i := 0 to |CommonPaths|
        invariant |cacheKeys| == i
        invariant forall j :: 0 <= j < i ==> cacheKeys[j] == req.Origin() + CommonPaths[j]
      {
        cacheKeys := cacheKeys + [req.Origin() + CommonPaths[i]];
      }
      for i := 0 to |cacheKeys|
        invariant cache == old(cache) - (set j | 0 <= j < i :: cacheKeys[j])
      {
        assert (set j | 0 <= j < i + 1 :: cacheKeys[j]) == (set j | 0 <= j < i :: cacheKeys[j]) + {cacheKeys[i]};
        cache := cache - {cacheKeys[i]};
      }
      BuiltKeys(cacheKeys, req.Origin());
      RemovalKeepsForm(old(cache), CommonKeys(req.Origin()));
      return TextResponse(200, "Common cache entries cleared");
    }

    method Proxy(req: Request, env: Env, upstream: Upstream) returns (resp: Response, sent: Option<ProxyRequest>)
      requires Valid()
      modifies this
      ensures Valid()
      ensures Outcome(resp, sent, cache) == ProxyOutcome(old(cache), req, env, upstream)
    {
      var targetHost: string;
      if StartsWith(req.path, "/css") || StartsWith(req.path, "/css2") {
        targetHost := CssHost;
      } else {
        targetHost := AssetHost;
      }
      var targetUrl := "https://" + targetHost + req.path + req.search;

      var key := req.Url();
      if key in cache {
        var cached := cache[key];
        var headers := cached.headers[AllowOrigin := "*"];
        return Response(cached.status, headers, cached.body), None;
      }

      sent := Some(ProxyRequest(req.verb, targetUrl, req.headers));
      match upstream {
        case Threw(message) =>
          resp := TextResponse(500, "Proxy error: " + message.GetOr("Unknown error"));
        case Returned(response) =>
          if Ok(response.status) {
            var proxyResponse: Response;
            if targetHost == CssHost {
              var proxyDomain := if Truthy(env.proxyDomain) then env.proxyDomain.value else req.host;
              var proxyUrl := "https://" + proxyDomain;
              var modifiedCss := Css.RewriteCss(response.body, proxyUrl);
              proxyResponse := Response(response.status, response.headers, modifiedCss);
              proxyResponse := proxyResponse.(headers := proxyResponse.headers["content-type" := "text/css"]);
            } else {
              proxyResponse := Response(response.status, response.headers, response.body);
              var contentType := Get(response.headers, "content-type");
              if Truthy(contentType) {
                proxyResponse := proxyResponse.(headers := proxyResponse.headers["content-type" := contentType.value]);
                assert proxyResponse.headers == response.headers;
              }
            }
            proxyResponse := proxyResponse.(headers := proxyResponse.headers["cache-control" := CacheControl]);
            proxyResponse := proxyResponse.(headers := proxyResponse.headers[AllowOrigin := "*"]);
            cache := cache[key := proxyResponse];
            resp := proxyResponse;
          } else {
            resp := TextResponse(response.status, "Proxy failed: Google returned " + Decimal(response.status));
          }
      }
    }
  }

  // ---------------------------------------------------------------------------
  // Properties of the handler

  /** The keys the purge loop builds, one per common path, are exactly `CommonKeys`. */
  lemma BuiltKeys(cacheKeys: seq<string>, origin: string)
    requires |cacheKeys| == |CommonPaths|
    requires forall j :: 0 <= j < |cacheKeys| ==> cacheKeys[j] == origin + CommonPaths[j]
    ensures (set j | 0 <= j < |cacheKeys| :: cacheKeys[j]) == CommonKeys(origin)
  {
    assert cacheKeys[0] == origin + "/css";
    assert cacheKeys[1] == origin + "/css2";
    assert cacheKeys[2] == origin + "/s/";
  }

  /** Removing entries keeps every remaining one in stored form. */
  lemma RemovalKeepsForm(cache: map<string, Response>, keys: set<string>)
    requires CacheForm(cache)
    ensures CacheForm(cache - keys)
  {
  }

  /** Every request keeps the cache in the form the handler stores: ok, publicly cacheable, open to every origin. */
  lemma HandleKeepsCacheForm(cache: map<string, Response>, req: Request, env: Env, upstream: Upstream)
    requires CacheForm(cache)
    ensures CacheForm(Handle(cache, req, env, upstream).cache)
  {
  }

  /** A hit answers with the stored response itself, and neither fetches nor writes. */
  lemma HitReturnsStored(cache: map<string, Response>, req: Request, env: Env, upstream: Upstream)
    requires CacheForm(cache)
    requires !IsRoot(req.path) && Admitted(req, env) && req.path != PurgePath && req.Url() in cache
    ensures Handle(cache, req, env, upstream) == Outcome(cache[req.Url()], None, cache)
  {
    var r := cache[req.Url()];
    assert r.headers[AllowOrigin := "*"] == r.headers;
  }

  /** After an ok miss, the same request hits: it is answered with the same response and nothing is fetched. */
  lemma SecondRequestHits(cache: map<string, Response>, req: Request, env: Env, r: Response, later: Upstream)
    requires !IsRoot(req.path) && Admitted(req, env) && req.path != PurgePath
    requires req.Url() !in cache && Ok(r.status)
    ensures var first := Handle(cache, req, env, Returned(r));
      Handle(first.cache, req, env, later) == Outcome(first.response, None, first.cache)
  {
    var first := Handle(cache, req, env, Returned(r));
    var p := first.response;
    assert first.cache[req.Url()] == p;
    assert p.headers[AllowOrigin := "*"] == p.headers;
  }

  /** A refused request cannot purge: the gate runs before the admin path. */
  lemma RefusedCannotPurge(cache: map<string, Response>, req: Request, env: Env, upstream: Upstream)
    requires req.path == PurgePath && !Admitted(req, env)
    ensures Handle(cache, req, env, upstream).cache == cache
    ensures Handle(cache, req, env, upstream).response.status == 403
  {
  }

  /**
   * The common purge removes the three bare paths only: a cached stylesheet,
   * whose key carries its query, survives it.
   */
  lemma CommonPurgeKeepsQueries(cache: map<string, Response>, req: Request, env: Env, upstream: Upstream, query: string)
    requires req.path == PurgePath && Admitted(req, env) && PurgeAuthorized(req, env)
    requires !Truthy(Get(req.params, "url"))
    requires |query| > 0 && req.Origin() + "/css2" + query in cache
    ensures var k := req.Origin() + "/css2" + query;
      k in Handle(cache, req, env, upstream).cache && Handle(cache, req, env, upstream).cache[k] == cache[k]
  {
    var k := req.Origin() + "/css2" + query;
    var o := req.Origin();
    assert |k| > |o + "/css2"| && |k| > |o + "/css"| && |k| > |o + "/s/"|;
  }

  /** The upstream URL is the request URL with the origin swapped for the Google host. */
  lemma UpstreamReplacesOrigin(cache: map<string, Response>, req: Request, env: Env, upstream: Upstream)
    requires Handle(cache, req, env, upstream).sent.Some?
    ensures var url := Handle(cache, req, env, upstream).sent.value.url;
      url == "https://" + TargetHost(req.path) + req.Url()[|req.Origin()|..]
  {
    SentMeansProxied(cache, req, env, upstream);
  }

  /** Only the proxy step sends a request upstream. */
  lemma SentMeansProxied(cache: map<string, Response>, req: Request, env: Env, upstream: Upstream)
    requires Handle(cache, req, env, upstream).sent.Some?
    ensures Handle(cache, req, env, upstream) == ProxyOutcome(cache, req, env, upstream)
  {
  }


  /** A failed upstream answer is reported with its status written in decimal. */
  lemma FailureReportsStatus(cache: map<string, Response>, req: Request, env: Env, r: Response)
    requires !IsRoot(req.path) && Admitted(req, env) && req.path != PurgePath && req.Url() !in cache
    requires !Ok(r.status)
    ensures var o := Handle(cache, req, env, Returned(r));
      o.response.status == r.status && o.cache == cache
      && o.response.body == "Proxy failed: Google returned " + Decimal(r.status)
      && Value(o.response.body[|"Proxy failed: Google returned "|..]) == r.status
  {
    DecimalValue(r.status);
    var o := Handle(cache, req, env, Returned(r));
    assert o.response.body[|"Proxy failed: Google returned "|..] == Decimal(r.status);
  }

  /**
   * A stylesheet fetched on a miss is stored and served pointing at the proxy:
   * for a proxy domain that does not itself bring the Google prefixes back,
   * neither `https://fonts.gstatic.com/` nor `https://fonts.googleapis.com/` is left in it.
   */
  lemma StylesheetPointsAtProxy(cache: map<string, Response>, req: Request, env: Env, r: Response)
    requires !IsRoot(req.path) && Admitted(req, env) && req.path != PurgePath && req.Url() !in cache
    requires Ok(r.status) && StartsWith(req.path, "/css")
    requires Css.KeepsUpstreamOut("https://" + ProxyDomain(req, env))
    ensures var o := Handle(cache, req, env, Returned(r));
      o.cache[req.Url()] == o.response
      && o.response.body == Css.RewriteCss(r.body, "https://" + ProxyDomain(req, env))
      && !Contains(o.response.body, Css.GstaticPrefix) && !Contains(o.response.body, Css.GoogleapisPrefix)
  {
    assert ("https://" + ProxyDomain(req, env))[0] == 'h';
  }
}
