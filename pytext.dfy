/**
 * The few Python `str` operations the modelled code relies on: `strip`,
 * `lower`, `capitalize`, `endswith`, `join`, `replace`, slicing, the
 * `in` substring test, integer formatting, and `pathlib.PurePath.suffix`.
 */
module PyText {

  /** Python's `str.isspace()` characters. */
  predicate IsSpace(c: char) {
    c == ' ' || ('\t' <= c <= '\r') || ('\U{1c}' <= c <= '\U{1f}') ||
    c == '\U{85}' || c == '\U{a0}' || c == '\U{1680}' || ('\U{2000}' <= c <= '\U{200a}') ||
    c == '\U{2028}' || c == '\U{2029}' || c == '\U{202f}' || c == '\U{205f}' || c == '\U{3000}'
  }

  predicate AllSpace(s: string) {
    forall k :: 0 <= k < |s| ==> IsSpace(s[k])
  }

  /** Neither end of `s` is whitespace: what `strip` produces. */
  predicate IsStripped(s: string) {
    s == [] || (!IsSpace(s[0]) && !IsSpace(s[|s| - 1]))
  }

  /** How many whitespace characters `s` starts with. */
  function LeadingSpaces(s: string): (n: nat)
    ensures n <= |s|
  {
    if s == [] || !IsSpace(s[0]) then 0 else 1 + LeadingSpaces(s[1..])
  }

  /** How many whitespace characters `s` ends with. */
  function TrailingSpaces(s: string): (n: nat)
    ensures n <= |s|
  {
    if s == [] || !IsSpace(s[|s| - 1]) then 0 else 1 + TrailingSpaces(s[..|s| - 1])
  }

  /** `s.strip()`: the part of `s` between its leading and its trailing whitespace. */
  function Strip(s: string): string {
    var t := s[LeadingSpaces(s)..];
    t[..|t| - TrailingSpaces(t)]
  }

  lemma {:induction false} LeadingSpacesAreSpaces(s: string)
    ensures forall k :: 0 <= k < LeadingSpaces(s) ==> IsSpace(s[k])
    ensures LeadingSpaces(s) < |s| ==> !IsSpace(s[LeadingSpaces(s)])
  {
    if s != [] && IsSpace(s[0]) {
      LeadingSpacesAreSpaces(s[1..]);
    }
  }

  lemma {:induction false} TrailingSpacesAreSpaces(s: string)
    ensures forall k :: |s| - TrailingSpaces(s) <= k < |s| ==> IsSpace(s[k])
    ensures TrailingSpaces(s) < |s| ==> !IsSpace(s[|s| - 1 - TrailingSpaces(s)])
  {
    if s != [] && IsSpace(s[|s| - 1]) {
      TrailingSpacesAreSpaces(s[..|s| - 1]);
    }
  }

  /**
   * What `strip` promises: the result has no whitespace at either end, it is
   * a contiguous part of the input, and it is empty exactly when the input is
   * all whitespace.
   */
  lemma StripSpec(s: string)
    ensures IsStripped(Strip(s))
    ensures Contains(s, Strip(s))
    ensures Strip(s) == [] <==> AllSpace(s)
  {
    var a := LeadingSpaces(s);
    var t := s[a..];
    var b := |t| - TrailingSpaces(t);
    LeadingSpacesAreSpaces(s);
    TrailingSpacesAreSpaces(t);
    assert Strip(s) == s[a..a + b];
    if b > 0 {
      assert t[0] == s[a];
    }
    if Strip(s) != [] {
      assert !IsSpace(s[a]);
    }
  }

  /** Stripping is idempotent: a stripped string is left as it is. */
  lemma StripStripped(s: string)
    requires IsStripped(s)
    ensures Strip(s) == s
  {
    assert LeadingSpaces(s) == 0;
    assert TrailingSpaces(s) == 0;
  }

  /** Python truthiness of `s.strip()`: the string holds a non-space character. */
  predicate NonBlank(s: string) {
    Strip(s) != []
  }

  function LowerChar(c: char): (r: char)
    ensures 'A' <= c <= 'Z' ==> r as int == c as int + 32
    ensures !('A' <= c <= 'Z') ==> r == c
  {
    if 'A' <= c <= 'Z' then (c as int + 32) as char else c
  }

  function UpperChar(c: char): (r: char)
    ensures 'a' <= c <= 'z' ==> r as int == c as int - 32
    ensures !('a' <= c <= 'z') ==> r == c
  {
    if 'a' <= c <= 'z' then (c as int - 32) as char else c
  }

  /** `s.lower()`, on the ASCII letters. */
  function Lower(s: string): (r: string)
    ensures |r| == |s| && forall k :: 0 <= k < |s| ==> r[k] == LowerChar(s[k])
  {
    seq(|s|, k requires 0 <= k < |s| => LowerChar(s[k]))
  }

  /** `s.capitalize()`: first character upper-cased, the rest lower-cased. */
  function Capitalize(s: string): (r: string)
    ensures |r| == |s|
    ensures s != [] ==> r[0] == UpperChar(s[0]) && r[1..] == Lower(s[1..])
  {
    if s == [] then [] else [UpperChar(s[0])] + Lower(s[1..])
  }

  predicate EndsWith(s: string, suffix: string) {
    |suffix| <= |s| && s[|s| - |suffix|..] == suffix
  }

  /** A suffix of a suffix is a suffix. */
  lemma EndsWithTrans(a: string, b: string, c: string)
    requires EndsWith(a, b)
    requires |c| <= |b| && c == b[|b| - |c|..]
    ensures EndsWith(a, c)
  {
    assert a[|a| - |c|..] == a[|a| - |b|..][|b| - |c|..];
  }

  predicate StartsWith(s: string, prefix: string) {
    |prefix| <= |s| && s[..|prefix|] == prefix
  }

  /** `sub in s` for strings. */
  predicate Contains(s: string, sub: string) {
    exists i, j :: 0 <= i <= j <= |s| && s[i..j] == sub
  }

  /** `s[:n]`. */
  function Take(s: string, n: nat): (r: string)
    ensures |r| == if n < |s| then n else |s|
    ensures r == s[..|r|]
  {
    if n < |s| then s[..n] else s
  }

  /** `sep.join(parts)`. */
  function Join(sep: string, parts: seq<string>): (r: string)
    ensures |parts| == 1 ==> r == parts[0]
    ensures parts == [] ==> r == []
  {
    if parts == [] then []
    else if |parts| == 1 then parts[0]
    else Join(sep, parts[..|parts| - 1]) + sep + parts[|parts| - 1]
  }

  lemma ContainsInLonger(a: string, b: string, sub: string)
    requires Contains(a, sub)
    ensures Contains(a + b, sub)
  {
    var i, j :| 0 <= i <= j <= |a| && a[i..j] == sub;
    assert (a + b)[i..j] == sub;
  }

  /** Every part of a join appears in the joined string. */
  lemma {:induction false} JoinHasParts(sep: string, parts: seq<string>)
    ensures forall k :: 0 <= k < |parts| ==> Contains(Join(sep, parts), parts[k])
  {
    if |parts| == 1 {
      assert Join(sep, parts)[0..|parts[0]|] == parts[0];
    } else if |parts| > 1 {
      var init := parts[..|parts| - 1];
      var last := parts[|parts| - 1];
      var s := Join(sep, parts);
      JoinHasParts(sep, init);
      assert s == Join(sep, init) + (sep + last);
      forall k | 0 <= k < |parts|
        ensures Contains(s, parts[k])
      {
        if k < |init| {
          assert init[k] == parts[k];
          ContainsInLonger(Join(sep, init), sep + last, parts[k]);
        } else {
          assert s[|s| - |last|..|s|] == last;
        }
      }
    }
  }

  /** A join starts with its first part. */
  lemma {:induction false} JoinStartsWithFirst(sep: string, parts: seq<string>)
    requires parts != []
    ensures StartsWith(Join(sep, parts), parts[0])
    decreases |parts|
  {
    if |parts| > 1 {
      var init := parts[..|parts| - 1];
      JoinStartsWithFirst(sep, init);
      var j := Join(sep, init);
      assert Join(sep, parts) == j + sep + parts[|parts| - 1];
      assert (j + sep + parts[|parts| - 1])[..|parts[0]|] == j[..|parts[0]|];
    }
  }

  /** `s * n`. */
  function Repeat(s: string, n: nat): (r: string)
    ensures |r| == |s| * n
  {
    if n == 0 then [] else Repeat(s, n - 1) + s
  }

  /** `s.replace(a, b)` for single characters `a` and `b`. */
  function ReplaceChar(s: string, a: char, b: char): (r: string)
    ensures |r| == |s|
    ensures forall k :: 0 <= k < |s| ==> r[k] == (if s[k] == a then b else s[k])
  {
    seq(|s|, k requires 0 <= k < |s| => if s[k] == a then b else s[k])
  }

  /** `s.replace(c, '')`: every occurrence of `c` removed, the other characters kept in order. */
  function RemoveChar(s: string, c: char): (r: string)
    ensures c !in r
    ensures forall k :: 0 <= k < |r| ==> r[k] in s
    ensures c !in s ==> r == s
    ensures multiset(r) == multiset(s)[c := 0]
    decreases |s|
  {
    if s == [] then []
    else
      assert s == s[..|s| - 1] + [s[|s| - 1]];
      RemoveChar(s[..|s| - 1], c) + (if s[|s| - 1] == c then [] else [s[|s| - 1]])
  }

  /**
   * Removal works piece by piece: removing `c` from `a + b` is removing it from `a` and then
   * from `b`, so the characters that stay keep their order. With `RemoveCharOne` this
   * determines `RemoveChar` on every string.
   */
  lemma {:induction false} RemoveCharAppend(a: string, b: string, c: char)
    ensures RemoveChar(a + b, c) == RemoveChar(a, c) + RemoveChar(b, c)
    decreases |b|
  {
    if b == [] {
      assert a + b == a;
    } else {
      var init, x := b[..|b| - 1], b[|b| - 1];
      assert (a + b)[..|a + b| - 1] == a + init;
      RemoveCharAppend(a, init, c);
    }
  }

  /** A single character is dropped exactly when it is `c`. */
  lemma RemoveCharOne(x: char, c: char)
    ensures RemoveChar([x], c) == (if x == c then [] else [x])
  {
    assert [x][..0] == [];
  }

  function DigitChar(d: nat): char
    requires d < 10
  {
    "0123456789"[d]
  }

  /** The number a run of decimal digits spells, most significant digit first. */
  function DecimalValue(s: string): nat
    requires forall k :: 0 <= k < |s| ==> '0' <= s[k] <= '9'
    decreases |s|
  {
    if s == [] then 0
    else DecimalValue(s[..|s| - 1]) * 10 + (s[|s| - 1] as int - '0' as int)
  }

  /** `str(n)` for a natural number: its decimal digits, without leading zeros. */
  function NatToString(n: nat): (r: string)
    ensures r != []
    ensures forall k :: 0 <= k < |r| ==> '0' <= r[k] <= '9'
    ensures DecimalValue(r) == n
    ensures r[0] == '0' <==> n == 0
  {
    if n < 10 then [DigitChar(n)]
    else
      var r := NatToString(n / 10) + [DigitChar(n % 10)];
      assert r[..|r| - 1] == NatToString(n / 10);
      r
  }

  /** `p` without the '/' characters it ends with, as `PurePath` drops them. */
  function DropTrailingSlashes(p: string): (q: string)
    ensures |q| <= |p| && q == p[..|q|]
    ensures q == [] || q[|q| - 1] != '/'
    decreases |p|
  {
    if p != [] && p[|p| - 1] == '/' then DropTrailingSlashes(p[..|p| - 1]) else p
  }

  /** Only '/' characters are dropped. */
  lemma {:induction false} DroppedAreSlashes(p: string)
    ensures forall k :: |DropTrailingSlashes(p)| <= k < |p| ==> p[k] == '/'
    decreases |p|
  {
    if p != [] && p[|p| - 1] == '/' {
      DroppedAreSlashes(p[..|p| - 1]);
    }
  }

  /** The text after the last '/' of `q`, or all of `q` when it holds none. */
  function LastComponent(q: string): (r: string)
    ensures '/' !in r
    ensures EndsWith(q, r)
    ensures r == q || q[|q| - |r| - 1] == '/'
    decreases |q|
  {
    if q == [] || q[|q| - 1] == '/' then []
    else
      var init := q[..|q| - 1];
      var r := LastComponent(init);
      LastComponentStep(q, r);
      r + [q[|q| - 1]]
  }

  /** Extending the component of `q` without its last character by that character. */
  lemma LastComponentStep(q: string, r: string)
    requires q != [] && q[|q| - 1] != '/'
    requires '/' !in r && EndsWith(q[..|q| - 1], r)
    requires r == q[..|q| - 1] || q[..|q| - 1][|q| - 1 - |r| - 1] == '/'
    ensures '/' !in r + [q[|q| - 1]]
    ensures EndsWith(q, r + [q[|q| - 1]])
    ensures r + [q[|q| - 1]] == q || q[|q| - |r| - 2] == '/'
  {
    assert q[..|q| - 1] + [q[|q| - 1]] == q;
    assert q[|q| - |r| - 1..] == q[..|q| - 1][|q| - 1 - |r|..] + [q[|q| - 1]];
  }

  /**
   * `PurePath(p).name`: trailing separators are skipped, then the text after
   * the last '/' is taken.
   */
  function BaseName(p: string): (r: string)
    ensures '/' !in r
    decreases |p|
  {
    if p != [] && p[|p| - 1] == '/' then BaseName(p[..|p| - 1]) else LastComponent(p)
  }

  /**
   * The final component is the last component of the path once its trailing
   * separators are dropped: it ends the trimmed path and reaches back to the
   * previous '/' or to the start.
   */
  lemma {:induction false} BaseNameSpec(p: string)
    ensures BaseName(p) == LastComponent(DropTrailingSlashes(p))
    ensures EndsWith(DropTrailingSlashes(p), BaseName(p))
    ensures BaseName(p) == DropTrailingSlashes(p) ||
            DropTrailingSlashes(p)[|DropTrailingSlashes(p)| - |BaseName(p)| - 1] == '/'
    decreases |p|
  {
    if p != [] && p[|p| - 1] == '/' {
      BaseNameSpec(p[..|p| - 1]);
    }
  }

  /** A path without a separator is its own final component. */
  lemma {:induction false} BaseNameOfPlainName(p: string)
    requires '/' !in p
    ensures BaseName(p) == p
  {
    LastComponentOfPlainName(p);
    if p != [] {
      assert p[|p| - 1] in p;
    }
  }

  lemma {:induction false} LastComponentOfPlainName(p: string)
    requires '/' !in p
    ensures LastComponent(p) == p
  {
    if p != [] {
      assert p[..|p| - 1] + [p[|p| - 1]] == p;
      LastComponentOfPlainName(p[..|p| - 1]);
    }
  }

  /** Separators at the end never change the final component: `PurePath("a/b.pdf/").name` is "b.pdf". */
  lemma TrailingSlashIgnored(p: string)
    ensures BaseName(p + "/") == BaseName(p)
  {
    assert (p + "/")[..|p|] == p;
  }

  /** Index of the last occurrence of `c` in `s`, or -1. */
  function LastIndexOf(s: string, c: char): (i: int)
    ensures -1 <= i < |s|
    ensures i >= 0 ==> s[i] == c
    ensures forall k :: i < k < |s| ==> s[k] != c
  {
    if s == [] then -1
    else if s[|s| - 1] == c then |s| - 1
    else LastIndexOf(s[..|s| - 1], c)
  }

  /**
   * `PurePath(p).suffix`: from the last '.' of the final component, provided that
   * dot is neither the component's first nor its last character; otherwise "".
   */
  function Suffix(p: string): (r: string)
    ensures r == [] || (r[0] == '.' && |r| >= 2 && '.' !in r[1..] && '/' !in r)
    ensures EndsWith(BaseName(p), r)
  {
    var name := BaseName(p);
    var i := LastIndexOf(name, '.');
    if 0 < i < |name| - 1 then
      assert EndsWith(name, name[i..]);
      name[i..]
    else []
  }

  /** The suffix ends the path once its trailing separators are dropped. */
  lemma SuffixEndsPath(p: string)
    ensures EndsWith(DropTrailingSlashes(p), Suffix(p))
  {
    BaseNameSpec(p);
    var name := BaseName(p);
    EndsWithTrans(DropTrailingSlashes(p), name, Suffix(p));
  }
}
