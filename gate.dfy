/**
 * The origin allow-list gate: `ALLOWED_ORIGINS` is a comma-separated list of
 * domains, and a request passes when its origin is `https://d` or `http://d`
 * for a listed domain `d`, or ends with `.d`.
 */
module Gate {
  import opened Wrappers
  import opened Text

  /** `allowed.split(',').map(domain => domain.trim())`: empty entries are kept. */
  function AllowedList(allowed: string): (list: seq<string>)
    ensures |list| == |Split(allowed, ',')|
    ensures forall i :: 0 <= i < |list| ==> list[i] == Trim(Split(allowed, ',')[i])
    ensures forall i :: 0 <= i < |list| ==> ',' !in list[i]
  {
    TrimAll(Split(allowed, ','))
  }

  /** Trims every piece, keeping order and count; trimming never adds a comma. */
  function TrimAll(parts: seq<string>): (list: seq<string>)
    requires forall i :: 0 <= i < |parts| ==> ',' !in parts[i]
    ensures |list| == |parts|
    ensures forall i :: 0 <= i < |list| ==> list[i] == Trim(parts[i])
    ensures forall i :: 0 <= i < |list| ==> ',' !in list[i]
  {
    if |parts| == 0 then []
    else
      TrimNoComma(parts[0]);
      [Trim(parts[0])] + TrimAll(parts[1..])
  }

  /** Trimming never brings in a comma. */
  lemma TrimNoComma(piece: string)
    requires ',' !in piece
    ensures ',' !in Trim(piece)
  {
    var lo :| TrimmedAt(piece, Trim(piece), lo);
    assert forall k :: 0 <= k < |Trim(piece)| ==> Trim(piece)[k] == piece[lo + k];
  }

  lemma {:induction false} TrimAllAppend(p: seq<string>, q: seq<string>)
    requires forall i :: 0 <= i < |p| ==> ',' !in p[i]
    requires forall i :: 0 <= i < |q| ==> ',' !in q[i]
    ensures TrimAll(p + q) == TrimAll(p) + TrimAll(q)
    decreases |p|
  {
    if |p| > 0 {
      assert (p + q)[1..] == p[1..] + q;
      TrimAllAppend(p[1..], q);
    } else {
      assert p + q == q;
    }
  }

  /** Joining two allow-lists with a comma concatenates their entries. */
  lemma AllowedListAppend(a: string, b: string)
    ensures AllowedList(a + "," + b) == AllowedList(a) + AllowedList(b)
  {
    assert a + "," + b == a + [','] + b;
    SplitAppend(a, b, ',');
    TrimAllAppend(Split(a, ','), Split(b, ','));
  }

  /**
   * The test one allow-list entry applies to the request origin: the origin is
   * the domain over https or http, or a subdomain of it. Every origin it admits
   * ends with the domain.
   */
  function Matches(origin: string, domain: string): (b: bool)
    ensures b ==> EndsWith(origin, domain)
  {
    EndsWithAppend("https://", domain);
    EndsWithAppend("http://", domain);
    EndsWithTail(origin, ".", domain);
    origin == "https://" + domain || origin == "http://" + domain || EndsWith(origin, "." + domain)
  }

  /** `allowedList.some(...)`: some entry, in order, matches the origin. */
  function AnyMatches(origin: string, list: seq<string>): (b: bool)
    ensures b <==> exists i :: 0 <= i < |list| && Matches(origin, list[i])
  {
    if |list| == 0 then false
    else Matches(origin, list[0]) || AnyMatches(origin, list[1..])
  }

  /** `isAllowed`: some comma-separated piece of the list, once trimmed, matches the origin. */
  function IsAllowed(origin: string, allowed: string): (b: bool)
    ensures b <==> exists i :: 0 <= i < |Split(allowed, ',')| && Matches(origin, Trim(Split(allowed, ',')[i]))
  {
    AnyMatches(origin, AllowedList(allowed))
  }

  /**
   * `origin || (referer ? new URL(referer).origin : null)`: the `Origin` header
   * when it is a non-empty string, otherwise the origin already parsed from a
   * non-empty `Referer` (`None` when there is no such header).
   */
  function RequestOrigin(originHeader: Option<string>, refererOrigin: Option<string>): (r: Option<string>)
    ensures Truthy(originHeader) ==> r == originHeader
    ensures !Truthy(originHeader) ==> r == refererOrigin
  {
    if Truthy(originHeader) then originHeader else refererOrigin
  }

  datatype Verdict = Pass | NoOrigin | Forbidden(origin: string)

  /**
   * The gate: with no (or an empty) allow-list every request passes; with one, a
   * request without an origin is refused, and one whose origin no entry matches
   * is refused naming that origin.
   */
  function Check(allowed: Option<string>, originHeader: Option<string>, refererOrigin: Option<string>): (v: Verdict)
    ensures !Truthy(allowed) ==> v == Pass
    ensures v == NoOrigin <==> Truthy(allowed) && !Truthy(RequestOrigin(originHeader, refererOrigin))
    ensures v == Pass <==>
      !Truthy(allowed) || (Truthy(RequestOrigin(originHeader, refererOrigin))
                           && IsAllowed(RequestOrigin(originHeader, refererOrigin).value, allowed.value))
    ensures v.Forbidden? ==> v.origin == RequestOrigin(originHeader, refererOrigin).value
                             && !IsAllowed(v.origin, allowed.value)
  {
    if !Truthy(allowed) then Pass
    else
      var origin := RequestOrigin(originHeader, refererOrigin);
      if !Truthy(origin) then NoOrigin
      else if IsAllowed(origin.value, allowed.value) then Pass
      else Forbidden(origin.value)
  }

  // ---------------------------------------------------------------------------
  // Properties of the allow-list

  /** A list of one comma-free domain with no white space at its ends admits exactly what that domain matches. */
  lemma SingleEntry(origin: string, domain: string)
    requires ',' !in domain
    requires domain == [] || (!IsSpace(domain[0]) && !IsSpace(domain[|domain| - 1]))
    ensures IsAllowed(origin, domain) <==> Matches(origin, domain)
  {
    SplitNoSeparator(domain, ',');
    TrimUnchanged(domain);
    assert AllowedList(domain) == [domain];
  }

  lemma AnyMatchesAppend(origin: string, l1: seq<string>, l2: seq<string>)
    ensures AnyMatches(origin, l1 + l2) <==> AnyMatches(origin, l1) || AnyMatches(origin, l2)
  {
    var l := l1 + l2;
    if AnyMatches(origin, l) {
      var i :| 0 <= i < |l| && Matches(origin, l[i]);
      if i >= |l1| {
        assert l2[i - |l1|] == l[i];
      } else {
        assert l1[i] == l[i];
      }
    }
    if AnyMatches(origin, l1) {
      var i :| 0 <= i < |l1| && Matches(origin, l1[i]);
      assert l[i] == l1[i];
    }
    if AnyMatches(origin, l2) {
      var i :| 0 <= i < |l2| && Matches(origin, l2[i]);
      assert l[|l1| + i] == l2[i];
    }
  }

  /** Joining two lists with a comma admits exactly what either list admits. */
  lemma ListAppend(origin: string, a: string, b: string)
    ensures IsAllowed(origin, a + "," + b) <==> IsAllowed(origin, a) || IsAllowed(origin, b)
  {
    AllowedListAppend(a, b);
    AnyMatchesAppend(origin, AllowedList(a), AllowedList(b));
  }

  /**
   * Empty entries are not filtered out: a list with a trailing comma admits every
   * origin ending in `.`, and the bare `https://` and `http://`.
   */
  lemma TrailingCommaAdmitsDotted(origin: string, a: string)
    requires EndsWith(origin, ".") || origin == "https://" || origin == "http://"
    ensures IsAllowed(origin, a + ",")
  {
    ListAppend(origin, a, "");
    assert a + "," + "" == a + ",";
    SingleEntry(origin, "");
    EmptyEntryMatches(origin);
  }

  /** The empty entry matches the bare schemes and every origin ending in `.`. */
  lemma EmptyEntryMatches(origin: string)
    requires EndsWith(origin, ".") || origin == "https://" || origin == "http://"
    ensures Matches(origin, "")
  {
    assert "https://" + "" == "https://" && "http://" + "" == "http://" && "." + "" == ".";
  }

  /** White space around a single entry does not change what it admits. */
  lemma PaddedEntry(origin: string, pre: string, domain: string, post: string)
    requires forall i :: 0 <= i < |pre| ==> IsSpace(pre[i])
    requires forall i :: 0 <= i < |post| ==> IsSpace(post[i])
    requires ',' !in domain && |domain| > 0 && !IsSpace(domain[0]) && !IsSpace(domain[|domain| - 1])
    ensures IsAllowed(origin, pre + domain + post) <==> Matches(origin, domain)
  {
    var entry := pre + domain + post;
    assert forall i :: 0 <= i < |entry| ==> entry[i] != ',' by {
      forall i | 0 <= i < |entry| ensures entry[i] != ',' {
        if i < |pre| {
          assert IsSpace(pre[i]);
        } else if i >= |pre| + |domain| {
          assert IsSpace(post[i - |pre| - |domain|]);
        } else {
          assert entry[i] == domain[i - |pre|];
        }
      }
    }
    NotInFrom(entry, ',', 0);
    assert entry[0..] == entry;
    SplitNoSeparator(entry, ',');
    TrimPadded(pre, domain, post);
    assert AllowedList(entry) == [domain];
  }

  /** The subdomain test looks only at the end of the origin, whatever its scheme. */
  lemma SubdomainAnyScheme(prefix: string, domain: string)
    requires ',' !in domain
    requires domain == [] || (!IsSpace(domain[0]) && !IsSpace(domain[|domain| - 1]))
    ensures IsAllowed(prefix + "." + domain, domain)
  {
    SingleEntry(prefix + "." + domain, domain);
    assert prefix + "." + domain == prefix + ("." + domain);
    EndsWithAppend(prefix, "." + domain);
  }

  /**
   * An origin that carries a port does not match a domain written without one:
   * `https://d:8443` is refused when `d` itself contains no `:`.
   */
  lemma PortBreaksMatch(domain: string)
    requires ',' !in domain && ':' !in domain
    requires domain == [] || (!IsSpace(domain[0]) && !IsSpace(domain[|domain| - 1]))
    ensures !IsAllowed("https://" + domain + ":8443", domain)
  {
    SingleEntry("https://" + domain + ":8443", domain);
    PortNoMatch(domain);
  }

  /** The entry `d` does not match `https://d:8443`: the port is neither a scheme form nor a `.d` ending. */
  lemma PortNoMatch(domain: string)
    requires ':' !in domain
    ensures !Matches("https://" + domain + ":8443", domain)
  {
    var origin := "https://" + domain + ":8443";
    var dotted := "." + domain;
    var k := |origin| - |dotted|;
    assert origin[|domain| + 8..] == ":8443";
    if |domain| >= 4 {
      assert origin[|origin| - 5] == ':';
      assert dotted[|dotted| - 5] != ':';
      assert origin[k + |dotted| - 5] != dotted[|dotted| - 5];
    } else {
      assert origin[k] in "8443";
      assert origin[k] != dotted[0];
    }
  }

  /** A list of two clean entries admits what either entry matches. */
  lemma TwoEntries(origin: string, a: string, b: string)
    requires ',' !in a && ',' !in b && |a| > 0 && |b| > 0
    requires !IsSpace(a[0]) && !IsSpace(a[|a| - 1]) && !IsSpace(b[0]) && !IsSpace(b[|b| - 1])
    ensures IsAllowed(origin, a + "," + b) <==> Matches(origin, a) || Matches(origin, b)
  {
    ListAppend(origin, a, b);
    SingleEntry(origin, a);
    SingleEntry(origin, b);
  }

  /** The worked list `a.com,b.com`, read as its two entries. */
  lemma ExampleList(origin: string, list: string)
    requires list == "a.com,b.com"
    ensures IsAllowed(origin, list) <==> Matches(origin, "a.com") || Matches(origin, "b.com")
  {
    var a, b := "a.com", "b.com";
    assert list == a + "," + b;
    assert !IsSpace('a') && !IsSpace('m') && !IsSpace('b');
    TwoEntries(origin, a, b);
  }

  /** `a.com,b.com` admits a listed site over https. */
  lemma ExampleAdmitsHttps(list: string)
    requires list == "a.com,b.com"
    ensures IsAllowed("https://a.com", list)
  {
    var a := "a.com";
    assert "https://a.com" == "https://" + a;
    ExampleList("https://" + a, list);
  }

  /** `a.com,b.com` admits a listed site over plain http. */
  lemma ExampleAdmitsHttp(list: string)
    requires list == "a.com,b.com"
    ensures IsAllowed("http://b.com", list)
  {
    var b := "b.com";
    assert "http://b.com" == "http://" + b;
    ExampleList("http://" + b, list);
  }

  /** `a.com,b.com` admits a subdomain of a listed domain. */
  lemma ExampleAdmitsSubdomain(origin: string, list: string)
    requires origin == "https://fonts.a.com" && list == "a.com,b.com"
    ensures IsAllowed(origin, list)
  {
    var dotted := ".a.com";
    assert origin == "https://fonts" + dotted;
    EndsWithAppend("https://fonts", dotted);
    assert dotted == "." + "a.com";
    ExampleList(origin, list);
  }

  /**
   * An origin is not matched by a domain when its length rules out both exact
   * forms and the character just before the domain's place at its end is not a dot.
   */
  lemma NoMatch(origin: string, domain: string)
    requires |origin| != |domain| + 8 && |origin| != |domain| + 7
    requires |origin| > |domain| && origin[|origin| - |domain| - 1] != '.'
    ensures !Matches(origin, domain)
  {
    var dotted := "." + domain;
    assert origin[|origin| - |dotted|..][0] != dotted[0];
  }

  /** `a.com,b.com` refuses an unlisted site. */
  lemma ExampleRefusesUnlisted(origin: string, list: string)
    requires origin == "https://evil.com" && list == "a.com,b.com"
    ensures !IsAllowed(origin, list)
  {
    assert |origin| == 16 && origin[10] == 'i';
    NoMatch(origin, "a.com");
    NoMatch(origin, "b.com");
    ExampleList(origin, list);
  }

  /** `a.com,b.com` refuses a look-alike that only starts with a listed domain. */
  lemma ExampleRefusesLookAlike(origin: string, list: string)
    requires origin == "https://a.com.evil" && list == "a.com,b.com"
    ensures !IsAllowed(origin, list)
  {
    assert |origin| == 18 && origin[12] == 'm';
    NoMatch(origin, "a.com");
    NoMatch(origin, "b.com");
    ExampleList(origin, list);
  }
}
