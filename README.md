# Google Fonts proxy worker — a Dafny model

The worker is a single Cloudflare Workers `fetch` handler that proxies Google
Fonts. For each request it does the following, in this order:

1. It redirects the root path to the project's repository.
2. It applies an optional origin allow-list (`ALLOWED_ORIGINS`).
3. It serves a `/purge-cache` admin path that removes entries from the edge cache.
4. Otherwise it routes the request to `fonts.googleapis.com` (stylesheets) or
   `fonts.gstatic.com` (font files) and answers from the cache when it can.
5. On a miss it fetches upstream. In stylesheets it replaces every
   `https://fonts.gstatic.com/` and `https://fonts.googleapis.com/` prefix
   with the proxy's base URL; other spellings of those hosts (`http://`,
   protocol-relative, with a port, upper case) are left as they are. It
   stores ok answers in the cache.

The model has these modules:

- `Wrappers`: the optional values the handler reads, and JavaScript truthiness
  of an optional string (`Truthy`).
- `Text`: `startsWith`, `endsWith`, `split(',')` and `trim()`, with the
  meaning JavaScript gives them.
- `Gate`: the allow-list predicate, as pure functions.
- `Router`: the host for a path, and the upstream URL.
- `Css`: the chain of literal, global, left-to-right replacements that
  rewrites a stylesheet.
- `Worker`: the request, response and environment records, and `Handle`,
  which states what one request does to the response, to the upstream request
  and to the cache. It also holds the class `Edge`, which owns the cache as a
  `map` from request URL to response. Its methods `Fetch`, `Purge` and `Proxy`
  perform the handler's steps one after another, with the purge deletions in a
  loop. `Fetch` is proved to agree with `Handle`, `Purge` with `PurgeOutcome`
  and `Proxy` with `ProxyOutcome`.

The upstream `fetch` is an input of the model, `Upstream`: either a thrown
error or a returned response. The handler reports the `ProxyRequest` it sent,
or `None` when it fetched nothing.

Header names are lower-case, as the Fetch `Headers` object stores them.

The request's query parameters and the origin of its `Referer` header come in
already parsed.

## Model

| member | source | states |
|---|---|---|
| Text.StartsWith | src/index.ts:85 | `startsWith` holds exactly when the string holds the prefix, character by character, from its first index |
| Text.EndsWith | src/index.ts:29 | `endsWith` holds exactly when the string holds the suffix, character by character, at its end |
| Text.Split | src/index.ts:25 | `split(',')` yields at least one piece; no piece holds the separator |
| Text.JoinSplit | src/index.ts:25 | joining the pieces of a split with the separator gives back the original string |
| Text.SplitJoin | src/index.ts:25 | splitting the join of separator-free pieces gives back exactly those pieces, empty ones included |
| Text.SplitAppend | src/index.ts:25 | splitting `a + "," + b` gives the pieces of `a` followed by the pieces of `b` |
| Text.SplitNoSeparator | src/index.ts:25 | a string without the separator is a single piece |
| Text.LeadingSpaces | src/index.ts:25 | counts exactly the white-space characters at the start of the string |
| Text.TrailingSpaces | src/index.ts:25 | counts exactly the white-space characters at the end of the string |
| Text.Trim | src/index.ts:25 | `trim()` yields a slice of the input with only white space around it, and neither starts nor ends with white space; `IsSpace` is the set `trim()` removes: ECMAScript white space and line terminators |
| Text.TrimUnchanged | src/index.ts:25 | a string with no white space at either end is its own trim |
| Text.TrimPadded | src/index.ts:25 | white space around text with clean ends is exactly what `trim()` removes |
| Gate.AllowedList | src/index.ts:25 | the allow-list has one entry per comma-separated piece, empty entries included; entry `i` is the trim of piece `i`; no entry holds a comma |
| Gate.TrimAll | src/index.ts:25 | `.map(domain => domain.trim())`: the same number of entries, entry `i` the trim of piece `i` |
| Gate.TrimAllAppend | src/index.ts:25 | trimming every piece commutes with concatenating piece lists |
| Gate.AllowedListAppend | src/index.ts:25 | the allow-list of `a + "," + b` is the list of `a` followed by the list of `b` |
| Gate.Matches | src/index.ts:27-29 | every origin one entry admits, as `https://d`, `http://d` or a `.d` subdomain, ends with the domain |
| Gate.AnyMatches | src/index.ts:26-30 | `some` is true exactly when some entry satisfies the origin test |
| Gate.AnyMatchesAppend | src/index.ts:26-30 | `some` over two concatenated lists holds exactly when it holds over one of them |
| Gate.IsAllowed | src/index.ts:25-30 | an origin is allowed exactly when some comma-separated piece of the list, once trimmed, matches it |
| Gate.RequestOrigin | src/index.ts:19-22 | the origin is a non-empty `Origin` header, otherwise the origin of the `Referer` |
| Gate.Check | src/index.ts:17-50 | with no or an empty list every request passes; with one, the verdict is `NoOrigin` exactly when the request has no origin, so a request with an origin that no entry matches gets the `Access denied` refusal and not the direct-access one; a request passes exactly when its origin is allowed; a refused origin is one that no entry matches |
| Gate.SingleEntry | src/index.ts:25-30 | a one-domain list admits exactly `https://d`, `http://d` and the origins ending in `.d` |
| Gate.PaddedEntry | src/index.ts:25-30 | white space around a single entry does not change what it admits |
| Gate.ListAppend | src/index.ts:25-30 | a list joined with a comma admits exactly what either part admits |
| Gate.TwoEntries | src/index.ts:25-30 | a list of two clean domains admits exactly what either domain matches |
| Gate.TrailingCommaAdmitsDotted | src/index.ts:25-29 | empty entries are kept: a list with a trailing comma admits every origin ending in `.`, and the bare `https://` and `http://` |
| Gate.EmptyEntryMatches | src/index.ts:27-29 | the empty entry matches the bare `https://` and `http://` and every origin ending in `.` |
| Text.EndsWithAppend | src/index.ts:29 | a concatenation ends with its second part |
| Text.EndsWithTail | src/index.ts:29 | an origin ending in `.d` ends in `d` |
| Gate.SubdomainAnyScheme | src/index.ts:29 | the subdomain test reads only the end of the origin, whatever the scheme before it |
| Gate.PortBreaksMatch | src/index.ts:27-29 | an origin with a port (`https://d:8443`) is refused by a list holding `d` without one |
| Gate.ExampleList | src/index.ts:25-30 | the list `a.com,b.com` admits exactly what `a.com` or `b.com` matches |
| Gate.ExampleAdmitsHttps | src/index.ts:27 | `a.com,b.com` admits `https://a.com` |
| Gate.ExampleAdmitsHttp | src/index.ts:28 | `a.com,b.com` admits `http://b.com` |
| Gate.ExampleAdmitsSubdomain | src/index.ts:29 | `a.com,b.com` admits `https://fonts.a.com` |
| Gate.NoMatch | src/index.ts:26-30 | an origin of the wrong length for both exact forms, without a dot just before the domain's place at its end, is not matched |
| Gate.ExampleRefusesUnlisted | src/index.ts:26-32 | `a.com,b.com` refuses `https://evil.com` |
| Gate.ExampleRefusesLookAlike | src/index.ts:26-32 | `a.com,b.com` refuses `https://a.com.evil` |
| Router.TargetHost | src/index.ts:84-89 | the host is `fonts.googleapis.com` exactly when the path starts with `/css`, and `fonts.gstatic.com` exactly otherwise |
| Router.Css2Subsumed | src/index.ts:85 | the `/css2` test never decides: a path starting with `/css2` starts with `/css` |
| Router.CssPrefixRoutesAnyPath | src/index.ts:85-86 | any path starting with `/css`, not only the two stylesheet endpoints, goes to the stylesheet host |
| Router.FontPathRoutesToAssets | src/index.ts:87-88 | a `/s/...` font path goes to the font host |
| Router.UpstreamUrl | src/index.ts:91 | the upstream URL is `https://` and the host, followed by exactly the path and the query |
| Router.UpstreamUrlInjective | src/index.ts:91 | for one host, the upstream URL determines the path and query it was built from |
| Css.ReplaceAll | src/index.ts:126-131 | one global `.replace` of a literal: left to right, non-overlapping, inserted text never rescanned (a definition; its properties are the three lemmas below and Css.ReplaceAllInertPrefix) |
| Css.ReplaceAllNoMatch | src/index.ts:126-131 | a global replace leaves text without an occurrence of the pattern unchanged |
| Css.ReplaceAllHead | src/index.ts:126-131 | text starting with the pattern has that occurrence replaced and the rest scanned after it |
| Css.SuffixStartPreserved | src/index.ts:126-131 | a replace whose text cannot restart a proper suffix of `q` never creates the start of that suffix |
| Css.CopiedHead | src/index.ts:126-131 | at a position where the pattern does not start, an occurrence of `q` in the output was already in the input |
| Css.ReplaceAllLeavesNone | src/index.ts:130-131 | after a global replace, no occurrence of `q` is left when `q` is the pattern itself or was absent, and the replacement cannot start one |
| Css.Rules | src/index.ts:125-131 | the chain has eight literal passes, the six patterns of the source with the quote class written as two passes, in the source's order; their replacement texts are `QuotedBase` (`url('proxyUrl/`), `UnquotedBase` (`url(proxyUrl/`) and `BareBase` (`proxyUrl/`) |
| Css.ApplyRules | src/index.ts:125-131 | the chain of passes leaves text in which no pattern occurs unchanged |
| Css.ApplyRulesAppend | src/index.ts:125-131 | running a chain in two parts is running it whole |
| Css.ReplaceAllInertPrefix | src/index.ts:126-131 | text inside which the pattern cannot begin is copied through a global replace, and what follows is rewritten on its own |
| Css.ApplyRulesInertPrefix | src/index.ts:125-131 | text inside which no pattern of the chain can begin passes the whole chain unchanged, ahead of the rewrite of what follows |
| Css.ApplyRulesHeadMatch | src/index.ts:125-131 | text starting with one pass's pattern, which no earlier pattern can start inside and whose replacement no later pattern can start inside, becomes that replacement followed by the rewrite of the rest, whatever the rest holds |
| Css.RewriteFreeUnchanged | src/index.ts:125-131 | a stylesheet holding no pattern is left as it is |
| Css.RewriteKeepsInertText | src/index.ts:125-131 | text in which no pattern can begin, such as the `@font-face { src: ` before a URL, is kept, and what follows is rewritten on its own |
| Css.FormAtHead | src/index.ts:125-131 | with inert replacement texts, a pattern at the head of a stylesheet that no earlier pattern can start inside becomes its replacement, followed by the rewrite of the rest |
| Css.RewriteCss | src/index.ts:122-131 | for a proxy base URL that starts with `h` and does not bring them back, no `https://fonts.gstatic.com/` and no `https://fonts.googleapis.com/` remains in the rewritten stylesheet, whatever the input |
| Css.SingleQuotedGstaticForm | src/index.ts:126 | `url('https://fonts.gstatic.com/` becomes `url('` + proxy URL + `/`, followed by the rewrite of the rest of the stylesheet, whatever it holds |
| Css.DoubleQuotedGstaticForm | src/index.ts:126 | `url("https://fonts.gstatic.com/` becomes `url('` + proxy URL + `/`: the opening quote is rewritten to `'`; the rest of the stylesheet is rewritten on its own, whatever it holds |
| Css.SingleQuotedGoogleapisForm | src/index.ts:127 | the same for `url('https://fonts.googleapis.com/`, with any rest |
| Css.DoubleQuotedGoogleapisForm | src/index.ts:127 | the same for `url("https://fonts.googleapis.com/`, which also comes out opened with `'`, with any rest |
| Css.UnquotedGstaticForm | src/index.ts:128 | `url(https://fonts.gstatic.com/` becomes `url(` + proxy URL + `/`, followed by the rewrite of any rest |
| Css.UnquotedGoogleapisForm | src/index.ts:129 | `url(https://fonts.googleapis.com/` becomes `url(` + proxy URL + `/`, followed by the rewrite of any rest |
| Css.BareGstaticForm | src/index.ts:130 | a bare `https://fonts.gstatic.com/` becomes the proxy URL + `/`, followed by the rewrite of any rest (such as `s/foo.woff2) ...`) |
| Css.BareGoogleapisForm | src/index.ts:131 | a bare `https://fonts.googleapis.com/` becomes the proxy URL + `/`, followed by the rewrite of any rest |
| Css.LastPassesBare | src/index.ts:125-131 | the whole chain is the first six passes followed by the two bare passes |
| Css.BarePassesLeaveNone | src/index.ts:130-131 | the two bare passes, with a replacement that starts with `h` and cannot restart either prefix, leave neither upstream prefix in any text |
| Css.BareBaseInert | src/index.ts:122-131 | no pattern can start inside the bare replacement `proxyUrl/` of a plain proxy URL |
| Css.QuotedBaseInert | src/index.ts:122-127 | no `url(` pattern can start inside the quoted replacement `url('proxyUrl/` of a plain proxy URL |
| Css.UnquotedBaseInert | src/index.ts:122-129 | no `url(` pattern can start inside the unquoted replacement `url(proxyUrl/` of a plain proxy URL |
| Css.PlainProxyUrlInert | src/index.ts:122-131 | for a plain proxy URL (starting with `h`, with no other `h`, no `u`, and not `g` just after the 14 characters of `https://fonts.`) no replacement text restarts any pattern or upstream prefix |
| Css.ExampleProxyInert | src/index.ts:122-123 | the conditions of the two theorems above hold for a proxy at `https://fonts.example.com` |
| Worker.Request.Url | src/index.ts:94 | the request URL, the cache key, is the request origin followed by exactly the path and the query |
| Worker.Redirect | src/index.ts:13 | the root answer is an empty `302` whose only header is the location of the repository |
| Worker.TextResponse | src/index.ts:57 | a text answer (as at lines 57, 65, 80, 160 and 165) carries the given status and body and only the default `text/plain;charset=UTF-8` content type |
| Worker.Refusal | src/index.ts:34-48 | a gate refusal is a `403` with the given body and only the `text/plain` content type |
| Worker.PurgeAuthorized | src/index.ts:53-56 | a purge is authorised exactly when no key is configured or the `key` parameter equals the configured key |
| Worker.ProxyDomain | src/index.ts:122 | the proxy domain is `PROXY_DOMAIN` when set and non-empty, otherwise the request host |
| Worker.Decimal | src/index.ts:160 | a number is written as decimal digits, at least one, with no leading zero |
| Worker.DecimalValue | src/index.ts:160 | the digits written denote the number |
| Worker.DecimalStatus | src/index.ts:160 | every status is written with three digits |
| Worker.CommonKeys | src/index.ts:67-77 | the common keys are exactly the request origin followed by each of `/css`, `/css2` and `/s/` |
| Worker.PurgeOutcome | src/index.ts:52-82 | a purge fetches nothing and never adds or alters an entry; it answers 401 `Unauthorized` exactly when a configured key is not given, and then the cache is unchanged; otherwise it answers 200; with a `url` it removes exactly that key and answers `Cache cleared for: ` and the url; without one it removes exactly the common keys and answers `Common cache entries cleared` |
| Worker.Proxied | src/index.ts:112-152 | the stored response keeps the upstream status, carries the cache-control and allow-origin headers, has its body rewritten and typed `text/css` for the stylesheet host, keeps body and content type for the font host, and keeps every other header |
| Worker.Served | src/index.ts:96-100 | a hit keeps status, body and every header of the stored response, with `Access-Control-Allow-Origin: *` set |
| Worker.ProxyOutcome | src/index.ts:93-166 | a hit fetches nothing and leaves the cache as it is; a miss sends the request's method and headers to the routed upstream URL; the cache changes only on an ok answer, whose `Proxied` form (status, body and content type kept for fonts, rewritten for stylesheets) is answered and stored under the request URL; a failed answer (`Ok`: status outside 200-299, `response.ok` of line 112) keeps its status; a thrown fetch answers 500 `Proxy error: ` and the message; neither writes |
| Worker.Handle | src/index.ts:12-91 | the root path (`IsRoot`: `/` or empty, line 12) redirects before the gate, the purge path or the cache; a request without an origin gets 403 `Access denied: Direct access not allowed` and a refused origin 403 `Access denied`, neither fetching nor writing; an admitted request to `/purge-cache` is `PurgeOutcome`, any other admitted request `ProxyOutcome`; the cache changes and a fetch happens only for admitted requests, and a fetch only off the purge path and on a miss |
| Worker.Edge.Fetch | src/index.ts:8-166 | the handler's steps, taken one after another on the cache, give the response, upstream request and cache `Handle` states, and keep the cache's stored form |
| Worker.Edge.Purge | src/index.ts:52-82 | the key check and the deletions, the common keys built and deleted in loops, leave the response and cache `PurgeOutcome` states, and keep every stored entry in stored form |
| Worker.Edge.Proxy | src/index.ts:84-166 | routing, lookup, fetch, rewrite, header setting and the store give the response, upstream request and cache `ProxyOutcome` states, and keep every stored entry in stored form |
| Worker.HandleKeepsCacheForm | src/index.ts:151-154 | every entry ever stored is ok, `public, max-age=315360` and open to every origin |
| Worker.HitReturnsStored | src/index.ts:94-101 | a hit answers with the stored response itself, fetches nothing and writes nothing |
| Worker.SecondRequestHits | src/index.ts:94-154 | after an ok miss the same request hits: the same response, with nothing fetched |
| Worker.RefusedCannotPurge | src/index.ts:18-52 | a refused request to `/purge-cache` gets 403 and leaves the cache unchanged |
| Worker.CommonPurgeKeepsQueries | src/index.ts:67-77 | the common purge leaves a cached stylesheet whose key carries a query, such as `/css2?family=...`, in place |
| Worker.UpstreamReplacesOrigin | src/index.ts:91 | the upstream URL is the request URL with its origin replaced by `https://` and the routed host |
| Worker.FailureReportsStatus | src/index.ts:158-160 | a failed upstream answer is passed on with its status, reported in decimal in the body, and nothing is stored |
| Worker.StylesheetPointsAtProxy | src/index.ts:115-154 | a stylesheet fetched on a miss is stored as served, and for a proxy domain that does not bring them back it holds no upstream prefix |

## Left out

- URL parsing (`new URL(request.url)`, `new URL(referer).origin`, `searchParams`) is not modelled. The request comes in split into scheme, host, path, query and parsed parameters, and the Referer comes in as its origin. A malformed Referer, which makes the constructor throw, is not modelled.
- Worker.PurgeOutcome: a single-URL purge deletes the literal `url` parameter from the map and answers 200. The Cache API turns that string into a `Request` first, which normalises the URL and throws on a relative or malformed one, failing the whole request; neither is modelled.
- The cache key is the request URL. The platform cache's own rules are not modelled: matching only `GET` requests, refusing some responses such as `206` or `Vary: *`, and honouring `Vary`. Nor are conditional and range lookups: `cache.match` honours `Range`, `If-None-Match` and `If-Modified-Since` and may answer 206 or 304 instead of the stored response. Entries also expire after the stored `max-age=315360`. `Worker.HitReturnsStored` and `Worker.SecondRequestHits` hold of the map, not of those cases.
- The cache's backing store, `ExecutionContext.waitUntil` and the concurrency of `Promise.all` are not modelled. The background store and the three deletions are applied in order to the map; their final state is the same.
- Streaming bodies and `TextDecoder` are not modelled: a body is a string.
- The stylesheet transform's error fallback (src/index.ts:138-141) is not modelled. This includes the null-body case, where building a response for a `204`/`205` stylesheet fails and the upstream response is copied instead.
- Worker.ProxyOutcome (and Worker.Edge.Proxy with it): for an upstream `304` the handler's `new Response(..., { status: 304 })` is refused by the Fetch standard (a null-body status with a body), so the code answers 500 "Proxy error: …" with the runtime's message; the model returns the 304 text response line 160 describes.
- `statusText` is not modelled. Headers are single-valued and lower-case.
- The request body is not forwarded upstream (only method and headers are) and is not modelled.
- The general regular-expression engine is not modelled. The six patterns are literal apart from the class `['"]`, which is written as two literal passes (single quote first). This equals the one-pass regular expression unless a proxy domain itself re-creates a double-quoted pattern.
- `$` sequences in the replacement string are not modelled. JavaScript would expand them if `PROXY_DOMAIN` contained them; the model inserts the proxy URL literally.
- `console.log`/`console.error` output is not modelled.
- The `Cache-Control` value follows the code: `public, max-age=315360` (about 3.65 days), not a one-year TTL.
