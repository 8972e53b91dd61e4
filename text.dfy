/**
 * The string operations the handler relies on, with the meaning JavaScript gives
 * them: `startsWith`, `endsWith`, `split` on a one-character separator and `trim`.
 */
module Text {

  /** `s.startsWith(p)`: `s` holds `p`, character by character, from its first index. */
  function StartsWith(s: string, p: string): (b: bool)
    ensures b <==> |p| <= |s| && forall i :: 0 <= i < |p| ==> s[i] == p[i]
  {
    |p| <= |s| && s[..|p|] == p
  }

  /** `s.endsWith(p)`: `s` holds `p`, character by character, at its end. */
  function EndsWith(s: string, p: string): (b: bool)
    ensures b <==> |p| <= |s| && forall i :: 0 <= i < |p| ==> s[|s| - |p| + i] == p[i]
  {
    |p| <= |s| && s[|s| - |p|..] == p
  }

  /** `p` occurs in `s` starting at index `i`. */
  predicate OccursAt(s: string, p: string, i: nat) {
    i + |p| <= |s| && s[i..i + |p|] == p
  }

  predicate Contains(s: string, p: string) {
    exists i: nat :: i <= |s| && OccursAt(s, p, i)
  }

  /** One of `a` and `p` is a prefix of the other. */
  predicate Compatible(a: string, p: string) {
    StartsWith(a, p) || StartsWith(p, a)
  }

  /**
   * An occurrence of `p` could begin inside `a`, whatever text follows `a`:
   * some non-empty suffix of `a` is compatible with `p`.
   */
  predicate MayStartIn(a: string, p: string) {
    exists i :: 0 <= i < |a| && Compatible(a[i..], p)
  }

  lemma StartsWithPrefix(s: string, p: string, q: string)
    requires StartsWith(s, p + q)
    ensures StartsWith(s, p)
  {
    assert s[..|p|] == (p + q)[..|p|];
  }

  /** A string whose characters never equal the first one of `p` cannot start an occurrence of `p`. */
  lemma {:induction false} HeadAbsent(a: string, p: string)
    requires |p| > 0 && p[0] !in a
    ensures !MayStartIn(a, p)
  {
  }

  /**
   * Text that cannot start an occurrence of `p`, followed by text free of `p`,
   * is free of `p`.
   */
  lemma {:induction false} ContainsConcat(a: string, b: string, p: string)
    requires |p| > 0
    requires !MayStartIn(a, p) && !Contains(b, p)
    ensures !Contains(a + b, p)
  {
    var s := a + b;
    forall i: nat | i <= |s| ensures !OccursAt(s, p, i) {
      if i < |a| {
        assert !Compatible(a[i..], p);
        if |a| - i >= |p| {
          assert s[i..i + |p|] == a[i..][..|p|];
        } else if i + |p| <= |s| {
          assert forall k :: 0 <= k < |a| - i ==> s[i..i + |p|][k] == a[i..][k];
          assert s[i..i + |p|][..|a| - i] == a[i..];
        }
      } else if i + |p| <= |s| {
        assert s[i..i + |p|] == b[i - |a|..i - |a| + |p|];
        assert !OccursAt(b, p, i - |a|);
      }
    }
  }

  /** A string that ends with `p + q` ends with `q`. */
  lemma EndsWithTail(s: string, p: string, q: string)
    ensures EndsWith(s, p + q) ==> EndsWith(s, q)
  {
    if EndsWith(s, p + q) {
      forall i | 0 <= i < |q| ensures s[|s| - |q| + i] == q[i] {
        assert (p + q)[|p| + i] == q[i];
      }
    }
  }

  /** A character that no index of `s` from `lo` on holds is not in `s[lo..]`. */
  lemma NotInFrom(s: string, c: char, lo: nat)
    requires lo <= |s|
    requires forall i :: lo <= i < |s| ==> s[i] != c
    ensures c !in s[lo..]
  {
    forall k | 0 <= k < |s[lo..]| ensures s[lo..][k] != c {
      assert s[lo..][k] == s[lo + k];
    }
  }

  lemma EndsWithAppend(p: string, q: string)
    ensures EndsWith(p + q, q)
  {
    assert (p + q)[|p|..] == q;
  }

  /** An occurrence in a suffix of `s` is an occurrence in `s`. */
  lemma ContainsSuffix(s: string, j: nat, p: string)
    requires j <= |s|
    ensures Contains(s[j..], p) ==> Contains(s, p)
  {
    if !Contains(s[j..], p) {
      return;
    }
    var i: nat :| i <= |s[j..]| && OccursAt(s[j..], p, i);
    assert s[j..][i..i + |p|] == s[i + j..i + j + |p|];
    assert OccursAt(s, p, i + j);
  }

  // ---------------------------------------------------------------------------
  // split(',')

  /**
   * `s.split(sep)`: the maximal separator-free pieces between separators, in
   * order, empty pieces included; the empty string splits into one empty piece.
   */
  function Split(s: string, sep: char): (parts: seq<string>)
    ensures |parts| >= 1
    ensures forall i :: 0 <= i < |parts| ==> sep !in parts[i]
    decreases |s|
  {
    if |s| == 0 then [""]
    else
      var rest := Split(s[1..], sep);
      if s[0] == sep then [""] + rest
      else [[s[0]] + rest[0]] + rest[1..]
  }

  /** `parts.join(sep)`, the inverse of `Split`. */
  function Join(parts: seq<string>, sep: char): string
    requires |parts| >= 1
  {
    if |parts| == 1 then parts[0] else parts[0] + [sep] + Join(parts[1..], sep)
  }

  lemma {:induction false} JoinSplit(s: string, sep: char)
    ensures Join(Split(s, sep), sep) == s
    decreases |s|
  {
    if |s| > 0 {
      var rest := Split(s[1..], sep);
      JoinSplit(s[1..], sep);
      if s[0] == sep {
        assert Split(s, sep)[1..] == rest;
      } else if |rest| == 1 {
        assert Split(s, sep) == [[s[0]] + rest[0]];
      } else {
        assert Split(s, sep)[1..] == rest[1..];
        assert Join(rest, sep) == rest[0] + [sep] + Join(rest[1..], sep);
      }
    }
  }

  /** A separator-free string is one piece. */
  lemma {:induction false} SplitNoSeparator(s: string, sep: char)
    requires sep !in s
    ensures Split(s, sep) == [s]
    decreases |s|
  {
    if |s| > 0 {
      SplitNoSeparator(s[1..], sep);
      assert [s[0]] + s[1..] == s;
    }
  }

  /** Splitting at a separator concatenates the pieces of both sides. */
  lemma ConsAppend<T>(x: T, p: seq<T>, q: seq<T>)
    ensures [x] + (p + q) == ([x] + p) + q
  {
  }

  lemma HeadTailAppend<T>(p: seq<T>, q: seq<T>)
    requires |p| >= 1
    ensures (p + q)[0] == p[0] && (p + q)[1..] == p[1..] + q
  {
  }

  lemma {:induction false} SplitAppend(a: string, b: string, sep: char)
    ensures Split(a + [sep] + b, sep) == Split(a, sep) + Split(b, sep)
    decreases |a|
  {
    var s := a + [sep] + b;
    if |a| == 0 {
      assert s[0] == sep && s[1..] == b;
    } else {
      assert s[0] == a[0] && s[1..] == a[1..] + [sep] + b;
      SplitAppend(a[1..], b, sep);
      var ra, rb := Split(a[1..], sep), Split(b, sep);
      if a[0] == sep {
        ConsAppend("", ra, rb);
      } else {
        HeadTailAppend(ra, rb);
        ConsAppend([a[0]] + ra[0], ra[1..], rb);
      }
    }
  }

  lemma {:induction false} SplitJoin(parts: seq<string>, sep: char)
    requires |parts| >= 1
    requires forall i :: 0 <= i < |parts| ==> sep !in parts[i]
    ensures Split(Join(parts, sep), sep) == parts
    decreases |parts|
  {
    SplitNoSeparator(parts[0], sep);
    if |parts| > 1 {
      SplitJoin(parts[1..], sep);
      SplitAppend(parts[0], Join(parts[1..], sep), sep);
      assert [parts[0]] + parts[1..] == parts;
    }
  }

  // ---------------------------------------------------------------------------
  // trim()

  /**
   * The code points `String.prototype.trim` removes: ECMAScript WhiteSpace
   * (tab, vertical tab, form feed, space, no-break space, the byte order mark and
   * the other space separators) and LineTerminator (LF, CR, U+2028, U+2029).
   */
  predicate IsSpace(c: char) {
    var n := c as int;
    n == 0x09 || n == 0x0A || n == 0x0B || n == 0x0C || n == 0x0D || n == 0x20
    || n == 0xA0 || n == 0x1680 || (0x2000 <= n <= 0x200A) || n == 0x2028
    || n == 0x2029 || n == 0x202F || n == 0x205F || n == 0x3000 || n == 0xFEFF
  }

  /** The number of white-space characters `s` starts with. */
  function LeadingSpaces(s: string): (k: nat)
    ensures k <= |s|
    ensures forall i :: 0 <= i < k ==> IsSpace(s[i])
    ensures k == |s| || !IsSpace(s[k])
    decreases |s|
  {
    if |s| > 0 && IsSpace(s[0]) then 1 + LeadingSpaces(s[1..]) else 0
  }

  /** The number of white-space characters `s` ends with. */
  function TrailingSpaces(s: string): (k: nat)
    ensures k <= |s|
    ensures forall i :: |s| - k <= i < |s| ==> IsSpace(s[i])
    ensures k == |s| || !IsSpace(s[|s| - k - 1])
    decreases |s|
  {
    if |s| > 0 && IsSpace(s[|s| - 1]) then 1 + TrailingSpaces(s[..|s| - 1]) else 0
  }

  /** `r` is the slice of `s` at `lo`, and everything of `s` around it is white space. */
  predicate TrimmedAt(s: string, r: string, lo: int) {
    && 0 <= lo <= |s| - |r| && r == s[lo..lo + |r|]
    && (forall i :: 0 <= i < lo ==> IsSpace(s[i]))
    && (forall i :: lo + |r| <= i < |s| ==> IsSpace(s[i]))
  }

  /**
   * `s.trim()`: the slice of `s` left once every leading and trailing white-space
   * character is removed; it neither starts nor ends with white space.
   */
  function Trim(s: string): (r: string)
    ensures exists lo :: TrimmedAt(s, r, lo)
    ensures r == [] || (!IsSpace(r[0]) && !IsSpace(r[|r| - 1]))
  {
    var lo := LeadingSpaces(s);
    var hi := |s| - TrailingSpaces(s[lo..]);
    assert TrimmedAt(s, s[lo..hi], lo);
    s[lo..hi]
  }

  /** White space around text that neither starts nor ends with white space is what `trim()` removes. */
  lemma TrimPadded(pre: string, d: string, post: string)
    requires forall i :: 0 <= i < |pre| ==> IsSpace(pre[i])
    requires forall i :: 0 <= i < |post| ==> IsSpace(post[i])
    requires |d| > 0 && !IsSpace(d[0]) && !IsSpace(d[|d| - 1])
    ensures Trim(pre + d + post) == d
  {
    var s := pre + d + post;
    var lo := LeadingSpaces(s);
    assert s[|pre|] == d[0];
    assert forall i :: 0 <= i < |pre| ==> s[i] == pre[i];
    assert lo == |pre|;
    var t := s[lo..];
    assert t == d + post;
    var k := TrailingSpaces(t);
    assert t[|d| - 1] == d[|d| - 1];
    assert forall i :: |d| <= i < |t| ==> t[i] == post[i - |d|];
    assert k == |post|;
  }

  /** A string with no white space at either end is its own trim. */
  lemma TrimUnchanged(s: string)
    requires s == [] || (!IsSpace(s[0]) && !IsSpace(s[|s| - 1]))
    ensures Trim(s) == s
  {
  }
}
