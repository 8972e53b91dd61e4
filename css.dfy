/**
 * The rewrite applied to stylesheets fetched from the CSS host: every literal
 * `https://fonts.gstatic.com/` and `https://fonts.googleapis.com/` prefix, inside
 * `url(` or bare, is replaced by the proxy's own base URL, so that browsers fetch
 * the fonts through the proxy. Other spellings of those hosts are left as they are.
 */
module Css {
  import opened Text

  const GstaticPrefix := "https://fonts.gstatic.com/"
  const GoogleapisPrefix := "https://fonts.googleapis.com/"

  /**
   * A global replace of the literal `pat` by the literal `rep`: the input is
   * scanned left to right, every occurrence found is replaced, and scanning
   * resumes after it, so occurrences never overlap and the text `rep` inserts is
   * never scanned again.
   */
  function ReplaceAll(s: string, pat: string, rep: string): string
    requires |pat| > 0
    decreases |s|
  {
    if |s| == 0 then []
    else if StartsWith(s, pat) then rep + ReplaceAll(s[|pat|..], pat, rep)
    else [s[0]] + ReplaceAll(s[1..], pat, rep)
  }

  /** Text with no occurrence of the pattern comes out unchanged. */
  lemma {:induction false} ReplaceAllNoMatch(s: string, pat: string, rep: string)
    requires |pat| > 0
    ensures !Contains(s, pat) ==> ReplaceAll(s, pat, rep) == s
    decreases |s|
  {
    if |s| > 0 && !Contains(s, pat) {
      assert !OccursAt(s, pat, 0);
      assert |pat| <= |s| ==> s[0..|pat|] == s[..|pat|];
      assert !StartsWith(s, pat);
      ContainsSuffix(s, 1, pat);
      ReplaceAllNoMatch(s[1..], pat, rep);
      assert [s[0]] + s[1..] == s;
    }
  }

  /** The pattern at the head of the text is replaced and the rest is rewritten on its own. */
  lemma ReplaceAllHead(pat: string, tail: string, rep: string)
    requires |pat| > 0
    ensures ReplaceAll(pat + tail, pat, rep) == rep + ReplaceAll(tail, pat, rep)
  {
    assert StartsWith(pat + tail, pat);
    assert (pat + tail)[|pat|..] == tail;
  }

  /**
   * Where the output begins with a proper suffix `q[k..]` of `q`, so does the
   * input: text copied through keeps its prefix, and `rep` cannot begin one
   * because its first character does not occur in `q[1..]`.
   */
  lemma {:induction false} SuffixStartPreserved(s: string, pat: string, rep: string, q: string, k: nat)
    requires |pat| > 0 && |rep| > 0
    requires 1 <= k < |q| && rep[0] !in q[1..]
    ensures StartsWith(ReplaceAll(s, pat, rep), q[k..]) ==> StartsWith(s, q[k..])
    decreases |s|
  {
    var r := ReplaceAll(s, pat, rep);
    if |s| == 0 {
    } else if StartsWith(s, pat) {
      assert r[0] == rep[0];
      assert q[k] == q[1..][k - 1];
    } else {
      var x := ReplaceAll(s[1..], pat, rep);
      assert r == [s[0]] + x;
      var t, t' := q[k..], q[k + 1..];
      assert t == [q[k]] + t';
      if k + 1 < |q| {
        SuffixStartPreserved(s[1..], pat, rep, q, k + 1);
      }
      if StartsWith(r, t) {
        assert r[..|t|] == [s[0]] + x[..|t'|];
        assert x[..|t'|] == t';
        assert s[..|t|] == [s[0]] + s[1..][..|t'|];
      }
    }
  }

  /**
   * After replacing `pat` by `rep`, no occurrence of `q` is left, provided that
   * `rep` can neither contain nor begin an occurrence of `q` and its first
   * character does not recur in `q`: this holds for `q` the pattern itself, and
   * for any other `q` the input was already free of.
   */
  lemma {:induction false} ReplaceAllLeavesNone(s: string, pat: string, rep: string, q: string)
    requires |pat| > 0 && |rep| > 0 && |q| > 0
    requires rep[0] !in q[1..]
    requires !MayStartIn(rep, q)
    requires q == pat || !Contains(s, q)
    ensures !Contains(ReplaceAll(s, pat, rep), q)
    decreases |s|
  {
    if |s| == 0 {
      return;
    }
    var r := ReplaceAll(s, pat, rep);
    if StartsWith(s, pat) {
      var rest := s[|pat|..];
      assert q != pat ==> !Contains(rest, q) by {
        if q != pat && Contains(rest, q) {
          ContainsSuffix(s, |pat|, q);
        }
      }
      ReplaceAllLeavesNone(rest, pat, rep, q);
      ContainsConcat(rep, ReplaceAll(rest, pat, rep), q);
    } else {
      var x := ReplaceAll(s[1..], pat, rep);
      assert r == [s[0]] + x;
      assert q != pat ==> !Contains(s[1..], q) by {
        if q != pat && Contains(s[1..], q) {
          ContainsSuffix(s, 1, q);
        }
      }
      ReplaceAllLeavesNone(s[1..], pat, rep, q);
      forall i: nat | i <= |r| ensures !OccursAt(r, q, i) {
        if i == 0 {
          CopiedHead(s, pat, rep, q);
        } else if i + |q| <= |r| {
          assert r[i..i + |q|] == x[i - 1..i - 1 + |q|];
          assert !OccursAt(x, q, i - 1);
        }
      }
    }
  }

  /**
   * An occurrence at the head of the output, where the first character was
   * copied through, was already at the head of the input.
   */
  lemma CopiedHead(s: string, pat: string, rep: string, q: string)
    requires |pat| > 0 && |rep| > 0 && |q| > 0 && |s| > 0
    requires rep[0] !in q[1..]
    requires !StartsWith(s, pat)
    ensures OccursAt(ReplaceAll(s, pat, rep), q, 0) ==> OccursAt(s, q, 0)
  {
    var r := ReplaceAll(s, pat, rep);
    var x := ReplaceAll(s[1..], pat, rep);
    assert r == [s[0]] + x;
    var t' := q[1..];
    assert q == [q[0]] + t';
    if |q| > 1 {
      SuffixStartPreserved(s[1..], pat, rep, q, 1);
    }
    if OccursAt(r, q, 0) {
      assert r[..|q|] == [s[0]] + x[..|t'|];
      assert x[..|t'|] == t';
      assert s[..|q|] == [s[0]] + s[1..][..|t'|];
    }
  }

  // ---------------------------------------------------------------------------
  // The chain of replacements

  const SingleQuotedGstatic := "url('" + GstaticPrefix
  const DoubleQuotedGstatic := "url(\"" + GstaticPrefix
  const SingleQuotedGoogleapis := "url('" + GoogleapisPrefix
  const DoubleQuotedGoogleapis := "url(\"" + GoogleapisPrefix
  const UnquotedGstatic := "url(" + GstaticPrefix
  const UnquotedGoogleapis := "url(" + GoogleapisPrefix

  /** The patterns of the chain, in the order they run. */
  const Patterns := [SingleQuotedGstatic, DoubleQuotedGstatic, SingleQuotedGoogleapis,
                     DoubleQuotedGoogleapis, UnquotedGstatic, UnquotedGoogleapis,
                     GstaticPrefix, GoogleapisPrefix]

  /** What a quoted `url(` prefix becomes: always opened with a single quote. */
  function QuotedBase(proxyUrl: string): string { "url('" + proxyUrl + "/" }

  /** What an unquoted `url(` prefix becomes. */
  function UnquotedBase(proxyUrl: string): string { "url(" + proxyUrl + "/" }

  /** What a bare prefix becomes. */
  function BareBase(proxyUrl: string): string { proxyUrl + "/" }

  /** Where `h` and `u` occur in the upstream prefixes, index by index. */
  lemma GstaticChars()
    ensures forall i :: 1 <= i < |GstaticPrefix| ==> GstaticPrefix[i] != 'h'
    ensures forall i :: 0 <= i < |GstaticPrefix| ==> GstaticPrefix[i] != 'u'
  {
  }

  lemma GoogleapisChars()
    ensures forall i :: 1 <= i < |GoogleapisPrefix| ==> GoogleapisPrefix[i] != 'h'
    ensures forall i :: 0 <= i < |GoogleapisPrefix| ==> GoogleapisPrefix[i] != 'u'
  {
  }

  /** The characters of the two upstream prefixes the proofs below rely on. */
  lemma PrefixFacts()
    ensures GstaticPrefix[0] == 'h' && 'h' !in GstaticPrefix[1..] && 'u' !in GstaticPrefix
    ensures GoogleapisPrefix[0] == 'h' && 'h' !in GoogleapisPrefix[1..] && 'u' !in GoogleapisPrefix
    ensures GstaticPrefix[15] == 's' && GoogleapisPrefix[15] == 'o'
    ensures GstaticPrefix[14] == 'g' && GoogleapisPrefix[14] == 'g'
  {
    GstaticChars();
    GoogleapisChars();
    NotInFrom(GstaticPrefix, 'h', 1);
    NotInFrom(GstaticPrefix, 'u', 0);
    NotInFrom(GoogleapisPrefix, 'h', 1);
    NotInFrom(GoogleapisPrefix, 'u', 0);
    assert GstaticPrefix[0..] == GstaticPrefix && GoogleapisPrefix[0..] == GoogleapisPrefix;
  }

  /** The `url(` patterns open with `url(` and differ from one another where the proofs below need. */
  lemma UrlPatternFacts()
    ensures forall j :: 0 <= j < 6 ==> |Patterns[j]| > 20 && Patterns[j][..4] == "url(" && 'u' !in Patterns[j][1..]
    ensures Patterns[0][4] == '\'' && Patterns[1][4] == '"' && Patterns[2][4] == '\'' && Patterns[3][4] == '"'
    ensures Patterns[4][4] == 'h' && Patterns[5][4] == 'h'
    ensures Patterns[0][20] == 's' && Patterns[2][20] == 'o' && Patterns[1][20] == 's' && Patterns[3][20] == 'o'
    ensures Patterns[4][19] == 's' && Patterns[5][19] == 'o'
  {
    PrefixFacts();
  }

  /**
   * The replacements in the order they run, as (pattern, replacement) pairs:
   * quoted `url(` tokens, unquoted ones, then bare prefixes, each for the
   * static-asset host before the CSS host. A quoted URL is matched with either
   * quote, as two passes, and the replacement always opens with a single quote;
   * the closing quote is not part of the match and stays as it was.
   */
  function Rules(proxyUrl: string): (rules: seq<(string, string)>)
    ensures |rules| == |Patterns|
    ensures forall j :: 0 <= j < |rules| ==> rules[j].0 == Patterns[j] && |rules[j].0| > 0
  {
    [ (SingleQuotedGstatic, QuotedBase(proxyUrl)),
      (DoubleQuotedGstatic, QuotedBase(proxyUrl)),
      (SingleQuotedGoogleapis, QuotedBase(proxyUrl)),
      (DoubleQuotedGoogleapis, QuotedBase(proxyUrl)),
      (UnquotedGstatic, UnquotedBase(proxyUrl)),
      (UnquotedGoogleapis, UnquotedBase(proxyUrl)),
      (GstaticPrefix, BareBase(proxyUrl)),
      (GoogleapisPrefix, BareBase(proxyUrl)) ]
  }

  /** Runs the replacements one after the other, each over the whole text the previous one left. */
  function ApplyRules(s: string, rules: seq<(string, string)>): (r: string)
    requires forall j :: 0 <= j < |rules| ==> |rules[j].0| > 0
    ensures (forall j :: 0 <= j < |rules| ==> !Contains(s, rules[j].0)) ==> r == s
    decreases |rules|
  {
    if |rules| == 0 then s
    else
      ReplaceAllNoMatch(s, rules[0].0, rules[0].1);
      ApplyRules(ReplaceAll(s, rules[0].0, rules[0].1), rules[1..])
  }

  /**
   * The rewrite of a stylesheet's text, with `proxyUrl` the proxy's base URL.
   * For a base URL that starts with `h` and does not bring an upstream prefix
   * back, no `https://fonts.gstatic.com/` and no `https://fonts.googleapis.com/`
   * remains, whatever the input.
   */
  function RewriteCss(css: string, proxyUrl: string): (r: string)
    ensures |proxyUrl| > 0 && proxyUrl[0] == 'h' && KeepsUpstreamOut(proxyUrl) ==>
      !Contains(r, GstaticPrefix) && !Contains(r, GoogleapisPrefix)
  {
    LastPassesBare(css, proxyUrl);
    BarePassesLeaveNone(ApplyRules(css, Rules(proxyUrl)[..6]), BareBase(proxyUrl));
    ApplyRules(css, Rules(proxyUrl))
  }

  lemma {:induction false} ApplyRulesAppend(s: string, r1: seq<(string, string)>, r2: seq<(string, string)>)
    requires forall j :: 0 <= j < |r1| ==> |r1[j].0| > 0
    requires forall j :: 0 <= j < |r2| ==> |r2[j].0| > 0
    ensures ApplyRules(s, r1 + r2) == ApplyRules(ApplyRules(s, r1), r2)
    decreases |r1|
  {
    if |r1| == 0 {
      assert r1 + r2 == r2;
    } else {
      assert (r1 + r2)[0] == r1[0];
      assert (r1 + r2)[1..] == r1[1..] + r2;
      ApplyRulesAppend(ReplaceAll(s, r1[0].0, r1[0].1), r1[1..], r2);
    }
  }

  /**
   * Text in which no occurrence of the pattern can begin is copied through a
   * global replace unchanged, and the text after it is rewritten on its own.
   */
  lemma {:induction false} ReplaceAllInertPrefix(a: string, b: string, pat: string, rep: string)
    requires |pat| > 0 && !MayStartIn(a, pat)
    ensures ReplaceAll(a + b, pat, rep) == a + ReplaceAll(b, pat, rep)
    decreases |a|
  {
    var s := a + b;
    if |a| == 0 {
      assert s == b;
    } else {
      InertHead(a, b, pat);
      ReplaceAllInertPrefix(a[1..], b, pat, rep);
      assert s[1..] == a[1..] + b;
      assert [a[0]] + a[1..] == a;
    }
  }

  /** Text inside which `pat` cannot begin does not start `pat`, whatever follows, and neither does its tail. */
  lemma InertHead(a: string, b: string, pat: string)
    requires |a| > 0 && |pat| > 0 && !MayStartIn(a, pat)
    ensures !StartsWith(a + b, pat) && !MayStartIn(a[1..], pat)
  {
    assert a[0..] == a;
    var s := a + b;
    if |pat| <= |a| {
      assert s[..|pat|] == a[..|pat|];
    } else if |pat| <= |s| {
      assert s[..|pat|][..|a|] == a;
    }
    forall i | 0 <= i < |a[1..]| ensures !Compatible(a[1..][i..], pat) {
      assert a[1..][i..] == a[i + 1..];
    }
  }

  /** Text in which no pattern of a chain can begin passes the whole chain unchanged, ahead of what follows. */
  lemma {:induction false} ApplyRulesInertPrefix(a: string, b: string, rules: seq<(string, string)>)
    requires forall j :: 0 <= j < |rules| ==> |rules[j].0| > 0
    requires forall j :: 0 <= j < |rules| ==> !MayStartIn(a, rules[j].0)
    ensures ApplyRules(a + b, rules) == a + ApplyRules(b, rules)
    decreases |rules|
  {
    if |rules| > 0 {
      ReplaceAllInertPrefix(a, b, rules[0].0, rules[0].1);
      ApplyRulesInertPrefix(a, ReplaceAll(b, rules[0].0, rules[0].1), rules[1..]);
    }
  }

  /**
   * Text that starts with the pattern of rule `m`, where no earlier pattern can
   * begin inside that occurrence and no later one inside its replacement, comes
   * out as the replacement followed by the rewrite of the rest, whatever the
   * rest holds.
   */
  lemma ApplyRulesHeadMatch(tail: string, rules: seq<(string, string)>, m: nat)
    requires forall j :: 0 <= j < |rules| ==> |rules[j].0| > 0
    requires m < |rules|
    requires forall j :: 0 <= j < m ==> !MayStartIn(rules[m].0, rules[j].0)
    requires forall j :: m < j < |rules| ==> !MayStartIn(rules[m].1, rules[j].0)
    ensures ApplyRules(rules[m].0 + tail, rules) == rules[m].1 + ApplyRules(tail, rules)
  {
    var upTo, after := rules[..m + 1], rules[m + 1..];
    assert rules == upTo + after;
    var rep := rules[m].1;
    HeadUpToMatch(tail, rules, m);
    ApplyRulesInertPrefix(rep, ApplyRules(tail, upTo), after);
    ApplyRulesAppend(rules[m].0 + tail, upTo, after);
    ApplyRulesAppend(tail, upTo, after);
  }

  /** The passes up to and including rule `m` turn its pattern at the head into its replacement. */
  lemma HeadUpToMatch(tail: string, rules: seq<(string, string)>, m: nat)
    requires forall j :: 0 <= j < |rules| ==> |rules[j].0| > 0
    requires m < |rules|
    requires forall j :: 0 <= j < m ==> !MayStartIn(rules[m].0, rules[j].0)
    ensures ApplyRules(rules[m].0 + tail, rules[..m + 1]) == rules[m].1 + ApplyRules(tail, rules[..m + 1])
  {
    var before, at := rules[..m], [rules[m]];
    assert rules[..m + 1] == before + at;
    var pat, rep := rules[m].0, rules[m].1;
    var t1 := ApplyRules(tail, before);
    ApplyRulesInertPrefix(pat, tail, before);
    ReplaceAllHead(pat, t1, rep);
    assert ApplyRules(pat + t1, at) == rep + ReplaceAll(t1, pat, rep);
    assert ApplyRules(t1, at) == ReplaceAll(t1, pat, rep);
    ApplyRulesAppend(pat + tail, before, at);
    ApplyRulesAppend(tail, before, at);
  }

  /**
   * The proxy base URL does not bring an upstream prefix back: no occurrence of
   * either prefix can begin inside `proxyUrl + "/"`.
   */
  predicate KeepsUpstreamOut(proxyUrl: string) {
    !MayStartIn(BareBase(proxyUrl), GstaticPrefix) && !MayStartIn(BareBase(proxyUrl), GoogleapisPrefix)
  }

  /** The chain is its six `url(` passes followed by the two bare ones. */
  lemma LastPassesBare(css: string, proxyUrl: string)
    ensures ApplyRules(css, Rules(proxyUrl)) ==
      ReplaceAll(ReplaceAll(ApplyRules(css, Rules(proxyUrl)[..6]), GstaticPrefix, BareBase(proxyUrl)),
                 GoogleapisPrefix, BareBase(proxyUrl))
  {
    var rules := Rules(proxyUrl);
    var rep := BareBase(proxyUrl);
    assert rules == rules[..6] + [(GstaticPrefix, rep)] + [(GoogleapisPrefix, rep)];
    ApplyRulesAppend(css, rules[..6], [(GstaticPrefix, rep)]);
    ApplyRulesAppend(css, rules[..6] + [(GstaticPrefix, rep)], [(GoogleapisPrefix, rep)]);
  }

  /**
   * The two bare passes leave neither prefix, whatever they are given, when
   * their replacement text cannot begin one.
   */
  lemma BarePassesLeaveNone(s: string, rep: string)
    ensures |rep| > 0 && rep[0] == 'h' && !MayStartIn(rep, GstaticPrefix) && !MayStartIn(rep, GoogleapisPrefix) ==>
      && !Contains(ReplaceAll(ReplaceAll(s, GstaticPrefix, rep), GoogleapisPrefix, rep), GstaticPrefix)
      && !Contains(ReplaceAll(ReplaceAll(s, GstaticPrefix, rep), GoogleapisPrefix, rep), GoogleapisPrefix)
  {
    if !(|rep| > 0 && rep[0] == 'h' && !MayStartIn(rep, GstaticPrefix) && !MayStartIn(rep, GoogleapisPrefix)) {
      return;
    }
    var s7 := ReplaceAll(s, GstaticPrefix, rep);
    PrefixFacts();
    ReplaceAllLeavesNone(s, GstaticPrefix, rep, GstaticPrefix);
    ReplaceAllLeavesNone(s7, GoogleapisPrefix, rep, GstaticPrefix);
    ReplaceAllLeavesNone(s7, GoogleapisPrefix, rep, GoogleapisPrefix);
  }

  // ---------------------------------------------------------------------------
  // What becomes of each form of upstream URL

  /** Text in which no pattern of the chain occurs. */
  predicate FreeOfPatterns(t: string) {
    forall j :: 0 <= j < |Patterns| ==> !Contains(t, Patterns[j])
  }

  /** Text without any pattern is left as it is. */
  lemma RewriteFreeUnchanged(t: string, proxyUrl: string)
    requires FreeOfPatterns(t)
    ensures RewriteCss(t, proxyUrl) == t
  {
  }

  /**
   * Text inside which no pattern can begin, such as the `@font-face { src: `
   * before a URL, is kept, and what follows it is rewritten on its own.
   */
  lemma RewriteKeepsInertText(a: string, b: string, proxyUrl: string)
    requires forall j :: 0 <= j < |Patterns| ==> !MayStartIn(a, Patterns[j])
    ensures RewriteCss(a + b, proxyUrl) == a + RewriteCss(b, proxyUrl)
  {
    ApplyRulesInertPrefix(a, b, Rules(proxyUrl));
  }

  /** No pattern of the chain can begin inside any of the three replacement texts. */
  predicate BasesInert(proxyUrl: string) {
    forall j :: 0 <= j < |Patterns| ==>
      && !MayStartIn(QuotedBase(proxyUrl), Patterns[j])
      && !MayStartIn(UnquotedBase(proxyUrl), Patterns[j])
      && !MayStartIn(BareBase(proxyUrl), Patterns[j])
  }

  /** Two strings that differ at index `k` are not prefixes of one another. */
  lemma DifferAt(a: string, q: string, k: nat)
    requires k < |a| && k < |q| && a[k] != q[k]
    ensures !Compatible(a, q)
  {
    if |q| <= |a| {
      assert a[..|q|][k] == a[k];
    }
    if |a| <= |q| {
      assert q[..|a|][k] == q[k];
    }
  }

  /** Where the first character of `q` occurs in `a` only at its head, and not as an occurrence there, `a` cannot start `q`. */
  lemma HeadOnlyAtStart(a: string, q: string)
    requires |a| > 0 && |q| > 0
    requires q[0] !in a[1..] && !Compatible(a, q)
    ensures !MayStartIn(a, q)
  {
    forall i | 0 < i < |a| ensures !Compatible(a[i..], q) {
      assert a[i..][0] == a[1..][i - 1];
    }
  }

  /**
   * Rule `m`'s pattern at the head of a stylesheet: with inert replacement
   * texts, and no earlier pattern able to begin inside it, it becomes its
   * replacement and the rest of the stylesheet is rewritten on its own.
   */
  lemma FormAtHead(tail: string, proxyUrl: string, m: nat)
    requires BasesInert(proxyUrl) && m < |Patterns|
    requires forall j :: 0 <= j < m ==> !MayStartIn(Patterns[m], Patterns[j])
    ensures RewriteCss(Patterns[m] + tail, proxyUrl) == Rules(proxyUrl)[m].1 + RewriteCss(tail, proxyUrl)
  {
    ApplyRulesHeadMatch(tail, Rules(proxyUrl), m);
  }

  /** A single-quoted `url('https://fonts.gstatic.com/` becomes the proxy's; what follows is rewritten on its own. */
  lemma SingleQuotedGstaticForm(tail: string, proxyUrl: string)
    requires BasesInert(proxyUrl)
    ensures RewriteCss(SingleQuotedGstatic + tail, proxyUrl) == QuotedBase(proxyUrl) + RewriteCss(tail, proxyUrl)
  {
    FormAtHead(tail, proxyUrl, 0);
  }

  /**
   * A double-quoted `url("https://fonts.gstatic.com/` comes out opened with a
   * single quote, while its closing double quote, in the rest, is kept.
   */
  lemma DoubleQuotedGstaticForm(tail: string, proxyUrl: string)
    requires BasesInert(proxyUrl)
    ensures RewriteCss(DoubleQuotedGstatic + tail, proxyUrl) == QuotedBase(proxyUrl) + RewriteCss(tail, proxyUrl)
  {
    DoubleQuotedGstaticFresh();
    FormAtHead(tail, proxyUrl, 1);
  }

  /** A single-quoted `url('https://fonts.googleapis.com/` becomes the proxy's; what follows is rewritten on its own. */
  lemma SingleQuotedGoogleapisForm(tail: string, proxyUrl: string)
    requires BasesInert(proxyUrl)
    ensures RewriteCss(SingleQuotedGoogleapis + tail, proxyUrl) == QuotedBase(proxyUrl) + RewriteCss(tail, proxyUrl)
  {
    SingleQuotedGoogleapisFresh();
    FormAtHead(tail, proxyUrl, 2);
  }

  /** A double-quoted `url("https://fonts.googleapis.com/` comes out opened with a single quote. */
  lemma DoubleQuotedGoogleapisForm(tail: string, proxyUrl: string)
    requires BasesInert(proxyUrl)
    ensures RewriteCss(DoubleQuotedGoogleapis + tail, proxyUrl) == QuotedBase(proxyUrl) + RewriteCss(tail, proxyUrl)
  {
    DoubleQuotedGoogleapisFresh();
    FormAtHead(tail, proxyUrl, 3);
  }

  /** An unquoted `url(https://fonts.gstatic.com/` becomes the proxy's; what follows is rewritten on its own. */
  lemma UnquotedGstaticForm(tail: string, proxyUrl: string)
    requires BasesInert(proxyUrl)
    ensures RewriteCss(UnquotedGstatic + tail, proxyUrl) == UnquotedBase(proxyUrl) + RewriteCss(tail, proxyUrl)
  {
    UnquotedGstaticFresh();
    FormAtHead(tail, proxyUrl, 4);
  }

  /** An unquoted `url(https://fonts.googleapis.com/` becomes the proxy's; what follows is rewritten on its own. */
  lemma UnquotedGoogleapisForm(tail: string, proxyUrl: string)
    requires BasesInert(proxyUrl)
    ensures RewriteCss(UnquotedGoogleapis + tail, proxyUrl) == UnquotedBase(proxyUrl) + RewriteCss(tail, proxyUrl)
  {
    UnquotedGoogleapisFresh();
    FormAtHead(tail, proxyUrl, 5);
  }

  /** A bare `https://fonts.gstatic.com/` becomes the proxy's base URL; what follows is rewritten on its own. */
  lemma BareGstaticForm(tail: string, proxyUrl: string)
    requires BasesInert(proxyUrl)
    ensures RewriteCss(GstaticPrefix + tail, proxyUrl) == BareBase(proxyUrl) + RewriteCss(tail, proxyUrl)
  {
    UrlPatternsNotInBare(GstaticPrefix);
    FormAtHead(tail, proxyUrl, 6);
  }

  /** A bare `https://fonts.googleapis.com/` becomes the proxy's base URL; what follows is rewritten on its own. */
  lemma BareGoogleapisForm(tail: string, proxyUrl: string)
    requires BasesInert(proxyUrl)
    ensures RewriteCss(GoogleapisPrefix + tail, proxyUrl) == BareBase(proxyUrl) + RewriteCss(tail, proxyUrl)
  {
    UrlPatternsNotInBare(GoogleapisPrefix);
    PrefixFacts();
    DifferAt(GoogleapisPrefix, GstaticPrefix, 15);
    HeadOnlyAtStart(GoogleapisPrefix, GstaticPrefix);
    FormAtHead(tail, proxyUrl, 7);
  }

  /** No earlier pattern of the chain can begin inside `DoubleQuotedGstatic`. */
  lemma DoubleQuotedGstaticFresh()
    ensures forall j :: 0 <= j < 1 ==> !MayStartIn(Patterns[1], Patterns[j])
  {
    UrlPatternFacts();
    DifferAt(DoubleQuotedGstatic, SingleQuotedGstatic, 4);
    HeadOnlyAtStart(DoubleQuotedGstatic, SingleQuotedGstatic);
  }

  /** No earlier pattern of the chain can begin inside `SingleQuotedGoogleapis`. */
  lemma SingleQuotedGoogleapisFresh()
    ensures forall j :: 0 <= j < 2 ==> !MayStartIn(Patterns[2], Patterns[j])
  {
    UrlPatternFacts();
    forall j | 0 <= j < 2 ensures !MayStartIn(SingleQuotedGoogleapis, Patterns[j]) {
      DifferAt(SingleQuotedGoogleapis, Patterns[j], if j == 0 then 20 else 4);
      HeadOnlyAtStart(SingleQuotedGoogleapis, Patterns[j]);
    }
  }

  /** No earlier pattern of the chain can begin inside `DoubleQuotedGoogleapis`. */
  lemma DoubleQuotedGoogleapisFresh()
    ensures forall j :: 0 <= j < 3 ==> !MayStartIn(Patterns[3], Patterns[j])
  {
    UrlPatternFacts();
    forall j | 0 <= j < 3 ensures !MayStartIn(DoubleQuotedGoogleapis, Patterns[j]) {
      DifferAt(DoubleQuotedGoogleapis, Patterns[j], if j == 1 then 20 else 4);
      HeadOnlyAtStart(DoubleQuotedGoogleapis, Patterns[j]);
    }
  }

  /** No earlier pattern of the chain can begin inside `UnquotedGstatic`. */
  lemma UnquotedGstaticFresh()
    ensures forall j :: 0 <= j < 4 ==> !MayStartIn(Patterns[4], Patterns[j])
  {
    UrlPatternFacts();
    forall j | 0 <= j < 4 ensures !MayStartIn(UnquotedGstatic, Patterns[j]) {
      DifferAt(UnquotedGstatic, Patterns[j], 4);
      HeadOnlyAtStart(UnquotedGstatic, Patterns[j]);
    }
  }

  /** No earlier pattern of the chain can begin inside `UnquotedGoogleapis`. */
  lemma UnquotedGoogleapisFresh()
    ensures forall j :: 0 <= j < 5 ==> !MayStartIn(Patterns[5], Patterns[j])
  {
    UrlPatternFacts();
    forall j | 0 <= j < 5 ensures !MayStartIn(UnquotedGoogleapis, Patterns[j]) {
      DifferAt(UnquotedGoogleapis, Patterns[j], if j == 4 then 19 else 4);
      HeadOnlyAtStart(UnquotedGoogleapis, Patterns[j]);
    }
  }

  /** No `url(` pattern can start inside a bare upstream prefix, which has no `u`. */
  lemma UrlPatternsNotInBare(prefix: string)
    requires prefix == GstaticPrefix || prefix == GoogleapisPrefix
    ensures forall j :: 0 <= j < 6 ==> !MayStartIn(prefix, Patterns[j])
  {
    PrefixFacts();
    UrlPatternFacts();
    forall j | 0 <= j < 6 ensures !MayStartIn(prefix, Patterns[j]) {
      assert Patterns[j][0] == 'u';
      HeadAbsent(prefix, Patterns[j]);
    }
  }

  /** Text whose characters never equal the first one of `q` does not change where `q` may start. */
  lemma SkipHead(a: string, b: string, q: string)
    requires |q| > 0 && q[0] !in a && !MayStartIn(b, q)
    ensures !MayStartIn(a + b, q)
  {
    forall i | 0 <= i < |a + b| ensures !Compatible((a + b)[i..], q) {
      if i < |a| {
        assert (a + b)[i..][0] == a[i];
      } else {
        assert (a + b)[i..] == b[i - |a|..];
      }
    }
  }

  /**
   * A sufficient condition for a proxy URL to be inert: it starts with `h` and
   * has no other `h`, has no `u`, and differs from the upstream prefixes at
   * index 14 (just after `https://fonts.`).
   */
  predicate PlainProxyUrl(proxyUrl: string) {
    && |proxyUrl| > 14 && proxyUrl[0] == 'h' && proxyUrl[14] != 'g'
    && (forall i :: 1 <= i < |proxyUrl| ==> proxyUrl[i] != 'h')
    && (forall i :: 0 <= i < |proxyUrl| ==> proxyUrl[i] != 'u')
  }

  /** The `h` and `u` facts of a plain proxy URL, carried over to its bare base. */
  lemma BareChars(proxyUrl: string)
    requires PlainProxyUrl(proxyUrl)
    ensures BareBase(proxyUrl)[0] == 'h' && BareBase(proxyUrl)[14] != 'g'
    ensures 'h' !in BareBase(proxyUrl)[1..] && 'u' !in BareBase(proxyUrl)
  {
    var bare := BareBase(proxyUrl);
    assert forall i :: 1 <= i < |bare| ==> bare[i] != 'h' by {
      forall i | 1 <= i < |bare| ensures bare[i] != 'h' {
        if i < |proxyUrl| { assert bare[i] == proxyUrl[i]; }
      }
    }
    assert forall i :: 0 <= i < |bare| ==> bare[i] != 'u' by {
      forall i | 0 <= i < |bare| ensures bare[i] != 'u' {
        if i < |proxyUrl| { assert bare[i] == proxyUrl[i]; }
      }
    }
    NotInFrom(bare, 'h', 1);
    NotInFrom(bare, 'u', 0);
    assert bare[0..] == bare;
  }

  lemma BareBaseInert(proxyUrl: string)
    requires PlainProxyUrl(proxyUrl)
    ensures forall j :: 0 <= j < |Patterns| ==> !MayStartIn(BareBase(proxyUrl), Patterns[j])
  {
    BareBaseNoUrl(proxyUrl);
    BareBaseNoPrefix(proxyUrl);
    assert Patterns[6] == GstaticPrefix && Patterns[7] == GoogleapisPrefix;
  }

  /** No `url(` pattern can begin inside the bare base of a plain proxy URL, which has no `u`. */
  lemma BareBaseNoUrl(proxyUrl: string)
    requires PlainProxyUrl(proxyUrl)
    ensures forall j :: 0 <= j < 6 ==> !MayStartIn(BareBase(proxyUrl), Patterns[j])
  {
    BareChars(proxyUrl);
    UrlPatternFacts();
    forall j | 0 <= j < 6 ensures !MayStartIn(BareBase(proxyUrl), Patterns[j]) {
      HeadAbsent(BareBase(proxyUrl), Patterns[j]);
    }
  }

  /** Neither upstream prefix can begin inside the bare base of a plain proxy URL. */
  lemma BareBaseNoPrefix(proxyUrl: string)
    requires PlainProxyUrl(proxyUrl)
    ensures KeepsUpstreamOut(proxyUrl)
  {
    var bare := BareBase(proxyUrl);
    BareChars(proxyUrl);
    PrefixFacts();
    DifferAt(bare, GstaticPrefix, 14);
    HeadOnlyAtStart(bare, GstaticPrefix);
    DifferAt(bare, GoogleapisPrefix, 14);
    HeadOnlyAtStart(bare, GoogleapisPrefix);
  }

  lemma QuotedBaseInert(proxyUrl: string)
    requires PlainProxyUrl(proxyUrl)
    ensures forall j :: 0 <= j < 6 ==> !MayStartIn(QuotedBase(proxyUrl), Patterns[j])
  {
    var quoted := QuotedBase(proxyUrl);
    assert quoted[0] == 'u' && quoted[19] == proxyUrl[14];
    assert forall i :: 1 <= i < |quoted| ==> quoted[i] != 'u' by {
      forall i | 1 <= i < |quoted| ensures quoted[i] != 'u' {
        if 5 <= i < 5 + |proxyUrl| { assert quoted[i] == proxyUrl[i - 5]; }
      }
    }
    NotInFrom(quoted, 'u', 1);
    UrlPatternFacts();
    forall j | 0 <= j < 6 ensures !MayStartIn(quoted, Patterns[j]) {
      DifferAt(quoted, Patterns[j], if j == 0 || j == 2 then 19 else 4);
      HeadOnlyAtStart(quoted, Patterns[j]);
    }
  }

  lemma UnquotedBaseInert(proxyUrl: string)
    requires PlainProxyUrl(proxyUrl)
    ensures forall j :: 0 <= j < 6 ==> !MayStartIn(UnquotedBase(proxyUrl), Patterns[j])
  {
    var unquoted := UnquotedBase(proxyUrl);
    assert unquoted[0] == 'u' && unquoted[18] == proxyUrl[14];
    assert forall i :: 1 <= i < |unquoted| ==> unquoted[i] != 'u' by {
      forall i | 1 <= i < |unquoted| ensures unquoted[i] != 'u' {
        if 4 <= i < 4 + |proxyUrl| { assert unquoted[i] == proxyUrl[i - 4]; }
      }
    }
    NotInFrom(unquoted, 'u', 1);
    UrlPatternFacts();
    forall j | 0 <= j < 6 ensures !MayStartIn(unquoted, Patterns[j]) {
      DifferAt(unquoted, Patterns[j], if j < 4 then 4 else 18);
      HeadOnlyAtStart(unquoted, Patterns[j]);
    }
  }

  /** The `url(` openers hold no `h`, so no upstream prefix can start inside them. */
  lemma OpenersFree()
    ensures 'h' !in "url('" && 'h' !in "url("
  {
  }

  /** The `url(` openers in front of an inert bare base bring no upstream prefix back. */
  lemma OpenersKeepUpstreamOut(proxyUrl: string)
    requires KeepsUpstreamOut(proxyUrl)
    ensures !MayStartIn(QuotedBase(proxyUrl), GstaticPrefix) && !MayStartIn(QuotedBase(proxyUrl), GoogleapisPrefix)
    ensures !MayStartIn(UnquotedBase(proxyUrl), GstaticPrefix) && !MayStartIn(UnquotedBase(proxyUrl), GoogleapisPrefix)
  {
    var bare := BareBase(proxyUrl);
    assert QuotedBase(proxyUrl) == "url('" + bare && UnquotedBase(proxyUrl) == "url(" + bare;
    OpenersFree();
    PrefixFacts();
    SkipHead("url('", bare, GstaticPrefix);
    SkipHead("url('", bare, GoogleapisPrefix);
    SkipHead("url(", bare, GstaticPrefix);
    SkipHead("url(", bare, GoogleapisPrefix);
  }

  /** A plain proxy URL meets the hypotheses of the theorems above. */
  lemma PlainProxyUrlInert(proxyUrl: string)
    requires PlainProxyUrl(proxyUrl)
    ensures BasesInert(proxyUrl) && KeepsUpstreamOut(proxyUrl)
  {
    BareBaseInert(proxyUrl);
    QuotedBaseInert(proxyUrl);
    UnquotedBaseInert(proxyUrl);
    assert Patterns[6] == GstaticPrefix && Patterns[7] == GoogleapisPrefix;
    OpenersKeepUpstreamOut(proxyUrl);
  }

  /** A proxy at `fonts.example.com` is plain, so the hypotheses above can be met. */
  lemma ExampleProxyInert()
    ensures BasesInert("https://fonts.example.com")
    ensures KeepsUpstreamOut("https://fonts.example.com")
  {
    ExamplePlain("https://fonts.example.com");
    PlainProxyUrlInert("https://fonts.example.com");
  }

  lemma ExamplePlain(proxyUrl: string)
    requires proxyUrl == "https://fonts.example.com"
    ensures PlainProxyUrl(proxyUrl)
  {
  }
}
