/**
 * The few string operations the report engine uses: upper-casing, prefix and
 * substring tests, the `split(...)[0]` / `split('.').pop()` projections and the
 * JavaScript `x || default` idiom on optional strings.
 */
module Text {
  import opened Wrappers

  /** ASCII upper-casing of one character. */
  function UpperChar(c: char): (u: char)
    ensures 'a' <= c <= 'z' ==> u as int == c as int - 32
    ensures !('a' <= c <= 'z') ==> u == c
    ensures !('a' <= u <= 'z')
  {
    if 'a' <= c <= 'z' then (c as int - 32) as char else c
  }

  /** `s.toUpperCase()` on the ASCII letters. */
  function Upper(s: string): (u: string)
    ensures |u| == |s|
    ensures forall i :: 0 <= i < |s| ==> u[i] == UpperChar(s[i])
  {
    seq(|s|, i requires 0 <= i < |s| => UpperChar(s[i]))
  }

  /** No character of an upper-cased string is a lower-case ASCII letter. */
  predicate NoLowerCase(s: string)
  {
    forall i :: 0 <= i < |s| ==> !('a' <= s[i] <= 'z')
  }

  lemma UpperHasNoLowerCase(s: string)
    ensures NoLowerCase(Upper(s))
  {
  }

  /** `s.startsWith(p)`. */
  predicate StartsWith(s: string, p: string)
  {
    |p| <= |s| && s[..|p|] == p
  }

  /** `s.includes(sub)`. */
  predicate Contains(s: string, sub: string)
    decreases |s|
  {
    StartsWith(s, sub) || (s != [] && Contains(s[1..], sub))
  }

  predicate DoubleColonAt(s: string, i: nat)
    requires i + 1 < |s|
  {
    s[i] == ':' && s[i + 1] == ':'
  }

  /** `s.split('::')[0]`: the text before the first `::`, or all of `s`. */
  function BeforeDoubleColon(s: string): (r: string)
    ensures StartsWith(s, r)
    ensures forall i :: 0 <= i < |r| - 1 ==> !DoubleColonAt(r, i)
    ensures forall i :: 0 <= i < |r| && i + 1 < |s| ==> !DoubleColonAt(s, i)
    ensures |r| < |s| ==> |r| + 2 <= |s| && s[|r|..|r| + 2] == "::"
  {
    if |s| < 2 then s
    else if s[0] == ':' && s[1] == ':' then ""
    else
      var rest := BeforeDoubleColon(s[1..]);
      var r := [s[0]] + rest;
      assert forall i :: 1 <= i < |r| - 1 ==> DoubleColonAt(r, i) == DoubleColonAt(rest, i - 1);
      assert |r| > 1 ==> r[1] == s[1];
      assert forall i :: 1 <= i < |r| && i + 1 < |s| ==> DoubleColonAt(s, i) == DoubleColonAt(s[1..], i - 1);
      r
  }

  /** `s.split(sep)[0]`: the text before the first `sep`, or all of `s`. */
  function BeforeFirst(s: string, sep: char): (r: string)
    ensures StartsWith(s, r)
    ensures sep !in r
    ensures |r| < |s| ==> s[|r|] == sep
  {
    if s == [] then ""
    else if s[0] == sep then ""
    else [s[0]] + BeforeFirst(s[1..], sep)
  }

  /** The text before the first `sep` of `a + [sep] + b` is `a` when `a` has no `sep`. */
  lemma {:induction false} BeforeFirstOfJoin(a: string, sep: char, b: string)
    requires sep !in a
    ensures BeforeFirst(a + [sep] + b, sep) == a
  {
    if a != [] {
      assert (a + [sep] + b)[1..] == a[1..] + [sep] + b;
      BeforeFirstOfJoin(a[1..], sep, b);
    }
  }

  /** `s.split(sep).pop()`: the text after the last `sep`, or all of `s`. */
  function LastSegment(s: string, sep: char): (r: string)
    ensures |r| <= |s| && r == s[|s| - |r|..]
    ensures sep !in r
    ensures |r| < |s| ==> s[|s| - |r| - 1] == sep
  {
    if s == [] then ""
    else if s[|s| - 1] == sep then ""
    else LastSegment(s[..|s| - 1], sep) + [s[|s| - 1]]
  }

  /** JavaScript `o || d` on an optional string: a missing or empty value gives `d`. */
  function OrDefault(o: Option<string>, d: string): (r: string)
    ensures o.Some? && o.value != "" ==> r == o.value
    ensures o.None? || o.value == "" ==> r == d
  {
    if o.Some? && o.value != "" then o.value else d
  }
}
