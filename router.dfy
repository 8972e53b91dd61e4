/**
 * The router: which Google host serves a path, and the upstream URL the
 * request is forwarded to.
 */
module Router {
  import opened Text

  /** Serves the stylesheets (`/css`, `/css2`). */
  const CssHost := "fonts.googleapis.com"
  /** Serves the font files (`/s/...`) and everything else. */
  const AssetHost := "fonts.gstatic.com"

  /**
   * The host for a path. The `/css2` test is written out as in the handler,
   * although any path starting with `/css2` already starts with `/css`.
   */
  function TargetHost(path: string): (host: string)
    ensures host == CssHost <==> StartsWith(path, "/css")
    ensures host == AssetHost <==> !StartsWith(path, "/css")
  {
    if StartsWith(path, "/css") || StartsWith(path, "/css2") then CssHost else AssetHost
  }

  /** A path that starts with `/css2` starts with `/css`, so the second test never decides. */
  lemma Css2Subsumed(path: string)
    ensures StartsWith(path, "/css2") ==> StartsWith(path, "/css")
  {
    if StartsWith(path, "/css2") {
      assert "/css2" == "/css" + "2";
      StartsWithPrefix(path, "/css", "2");
    }
  }

  /** `https://${targetHost}${url.pathname}${url.search}`. */
  function UpstreamUrl(host: string, path: string, search: string): (url: string)
    ensures StartsWith(url, "https://" + host)
    ensures url[|"https://" + host|..] == path + search
  {
    var base := "https://" + host;
    assert (base + path + search)[..|base|] == base;
    assert (base + path + search)[|base|..] == path + search;
    base + path + search
  }

  /** Given the host, the upstream URL determines the path and query it was built from. */
  lemma UpstreamUrlInjective(host: string, p1: string, s1: string, p2: string, s2: string)
    requires UpstreamUrl(host, p1, s1) == UpstreamUrl(host, p2, s2)
    ensures p1 + s1 == p2 + s2
  {
  }

  /** Paths beyond the two stylesheet endpoints that start with `/css` also go to the stylesheet host. */
  lemma CssPrefixRoutesAnyPath(rest: string)
    ensures TargetHost("/css" + rest) == CssHost
  {
    assert ("/css" + rest)[..4] == "/css";
  }

  /** A font file path goes to the font host. */
  lemma FontPathRoutesToAssets(rest: string)
    ensures TargetHost("/s/" + rest) == AssetHost
  {
    assert ("/s/" + rest)[1] == 's';
  }
}
