/**
 * The JavaScript string operations the client relies on, written out for
 * the cases it uses: `split` and `join` with a one-character separator,
 * `indexOf` of one character, `substring` with its clamping rules, the
 * `\s`/`trim` whitespace class, `toUpperCase` on ASCII letters, global
 * replacement of a literal pattern, and number-to-string.
 */
module Text {

  /** ECMAScript WhiteSpace and LineTerminator code points: what `\s` and `trim()` remove. */
  predicate IsJsSpace(ch: char) {
    || ch == '\t' || ch == '\n' || ch == '\U{000B}' || ch == '\U{000C}' || ch == '\r'
    || ch == ' ' || ch == '\U{00A0}' || ch == '\U{1680}'
    || ('\U{2000}' <= ch <= '\U{200A}')
    || ch == '\U{2028}' || ch == '\U{2029}' || ch == '\U{202F}' || ch == '\U{205F}'
    || ch == '\U{3000}' || ch == '\U{FEFF}'
  }

  predicate AllSpace(s: string) {
    forall i :: 0 <= i < |s| ==> IsJsSpace(s[i])
  }

  // ---------------------------------------------------------------------
  // indexOf, substring

  /** `s.indexOf(c)`: the first position of `c`, or -1. */
  function IndexOf(s: string, c: char): (i: int)
    ensures -1 <= i < |s|
    ensures i == -1 <==> c !in s
    ensures 0 <= i ==> s[i] == c && c !in s[..i]
  {
    if s == [] then -1
    else if s[0] == c then 0
    else
      var j := IndexOf(s[1..], c);
      assert s[1..][..if j < 0 then 0 else j] == s[1..if j < 0 then 1 else j + 1];
      if j == -1 then -1 else j + 1
  }

  function Clamp(k: int, len: nat): (r: nat)
    ensures r <= len
  {
    if k < 0 then 0 else if k > len then len else k
  }

  /** `s.substring(start, end)`: both ends clamped to [0, |s|], swapped when reversed. */
  function Substring(s: string, start: int, end: int): (r: string)
    ensures |r| <= |s|
  {
    var a := Clamp(start, |s|);
    var b := Clamp(end, |s|);
    if a <= b then s[a..b] else s[b..a]
  }

  // ---------------------------------------------------------------------
  // split and join

  /** `s.split(c)` for a one-character separator: never empty, `"".split(c) == [""]`. */
  function Split(s: string, c: char): (parts: seq<string>)
    ensures |parts| >= 1
  {
    if s == [] then [""]
    else
      var rest := Split(s[1..], c);
      if s[0] == c then [""] + rest else [[s[0]] + rest[0]] + rest[1..]
  }

  /** `parts.join(c)` for a one-character separator. */
  function Join(parts: seq<string>, c: char): string {
    if |parts| == 0 then ""
    else if |parts| == 1 then parts[0]
    else parts[0] + [c] + Join(parts[1..], c)
  }

  /** Text before the first `c` (all of `s` when there is none): `s.split(c)[0]`. */
  function Before(s: string, c: char): string {
    Split(s, c)[0]
  }

  lemma {:induction false} JoinPrepend(a: char, parts: seq<string>, c: char)
    requires |parts| >= 1
    ensures Join([[a] + parts[0]] + parts[1..], c) == [a] + Join(parts, c)
  {
    var ps := [[a] + parts[0]] + parts[1..];
    if |parts| > 1 {
      assert ps[1..] == parts[1..];
    }
  }

  /** Splitting then joining with the same separator gives the input back. */
  lemma {:induction false} JoinSplit(s: string, c: char)
    ensures Join(Split(s, c), c) == s
  {
    if s != [] {
      var rest := Split(s[1..], c);
      JoinSplit(s[1..], c);
      if s[0] == c {
        assert ([""] + rest)[1..] == rest;
      } else {
        JoinPrepend(s[0], rest, c);
      }
      assert s == [s[0]] + s[1..];
    }
  }

  /** `split` finds the first separator: the head is the text before it, the tail splits what follows. */
  lemma {:induction false} SplitAtFirst(s: string, c: char)
    ensures c !in s ==> Split(s, c) == [s]
    ensures c in s ==> var i := IndexOf(s, c);
      Split(s, c) == [s[..i]] + Split(s[i + 1..], c)
  {
    if s != [] {
      SplitAtFirst(s[1..], c);
      if s[0] != c {
        var i := IndexOf(s, c);
        if c in s {
          assert c in s[1..];
          assert s[1..][..i - 1] == s[1..i];
          assert [s[0]] + s[1..i] == s[..i];
          assert s[1..][i - 1 + 1..] == s[i + 1..];
        } else {
          assert c !in s[1..];
          assert [s[0]] + s[1..] == s;
        }
      }
    }
  }

  /** A first occurrence found by other means is the one `IndexOf` reports. */
  lemma IndexOfAt(s: string, c: char, i: nat)
    requires i < |s| && s[i] == c && c !in s[..i]
    ensures IndexOf(s, c) == i
  {
    var j := IndexOf(s, c);
    assert forall k :: 0 <= k < i ==> s[k] == s[..i][k];
    assert 0 <= j ==> forall k :: 0 <= k < j ==> s[k] == s[..j][k];
  }

  /** A piece free of the separator, then the separator, splits off as the first part. */
  lemma SplitCons(a: string, rest: string, c: char)
    requires c !in a
    ensures Split(a + [c] + rest, c) == [a] + Split(rest, c)
  {
    var s := a + [c] + rest;
    assert s[..|a|] == a;
    IndexOfAt(s, c, |a|);
    SplitAtFirst(s, c);
    assert s[|a| + 1..] == rest;
  }

  /** The head of a split is the text before the first separator. */
  lemma BeforeIsPrefix(s: string, c: char)
    ensures Before(s, c) == if c in s then s[..IndexOf(s, c)] else s
    ensures c !in Before(s, c)
  {
    SplitAtFirst(s, c);
  }

  /** Joining pieces that do not contain the separator, then splitting, gives the pieces back. */
  lemma {:induction false} SplitJoin(parts: seq<string>, c: char)
    requires |parts| >= 1
    requires forall k :: 0 <= k < |parts| ==> c !in parts[k]
    ensures Split(Join(parts, c), c) == parts
  {
    if |parts| == 1 {
      SplitAtFirst(parts[0], c);
    } else {
      var s := Join(parts, c);
      var head := parts[0];
      SplitJoin(parts[1..], c);
      assert s == head + [c] + Join(parts[1..], c);
      assert c in s by { assert s[|head|] == c; }
      var i := IndexOf(s, c);
      assert i == |head| by {
        assert s[..|head|] == head;
      }
      SplitAtFirst(s, c);
      assert s[..i] == head;
      assert s[i + 1..] == Join(parts[1..], c);
      assert [head] + parts[1..] == parts;
    }
  }

  /** Every occurrence of `a` replaced by `b`. */
  function Substitute(s: string, a: char, b: char): (r: string)
    ensures |r| == |s|
    ensures forall i :: 0 <= i < |s| ==> r[i] == if s[i] == a then b else s[i]
  {
    seq(|s|, i requires 0 <= i < |s| => if s[i] == a then b else s[i])
  }

  /** Re-joining a split with another separator substitutes that separator for the old one. */
  lemma {:induction false} JoinSplitSubstitutes(s: string, a: char, b: char)
    ensures Join(Split(s, a), b) == Substitute(s, a, b)
  {
    if s != [] {
      var rest := Split(s[1..], a);
      JoinSplitSubstitutes(s[1..], a, b);
      if s[0] == a {
        assert ([""] + rest)[1..] == rest;
        assert Join([""] + rest, b) == [b] + Join(rest, b);
      } else {
        JoinPrepend(s[0], rest, b);
      }
      assert Substitute(s, a, b) == [if s[0] == a then b else s[0]] + Substitute(s[1..], a, b);
    }
  }

  // ---------------------------------------------------------------------
  // whitespace

  /** Where the whitespace run that starts at `i` ends. */
  function LeadingEnd(s: string, i: nat): (n: nat)
    requires i <= |s|
    ensures i <= n <= |s|
    ensures forall k :: i <= k < n ==> IsJsSpace(s[k])
    ensures n < |s| ==> !IsJsSpace(s[n])
    decreases |s| - i
  {
    if i < |s| && IsJsSpace(s[i]) then LeadingEnd(s, i + 1) else i
  }

  /** Where the whitespace run that ends just before `j` starts. */
  function TrailingStart(s: string, j: nat): (n: nat)
    requires j <= |s|
    ensures n <= j
    ensures forall k :: n <= k < j ==> IsJsSpace(s[k])
    ensures 0 < n ==> !IsJsSpace(s[n - 1])
  {
    if 0 < j && IsJsSpace(s[j - 1]) then TrailingStart(s, j - 1) else j
  }

  /** `s.replace(/^\s+/, "")`: drop the leading whitespace run. */
  function TrimStart(s: string): string {
    s[LeadingEnd(s, 0)..]
  }

  /** Drop the trailing whitespace run. */
  function TrimEnd(s: string): string {
    s[..TrailingStart(s, |s|)]
  }

  /** `String.prototype.trim`. */
  function Trim(s: string): string {
    TrimEnd(TrimStart(s))
  }

  /** `leftTrim` of src/utils/utils.ts: the empty string comes back as is, otherwise `TrimStart`. */
  function LeftTrim(s: string): string {
    if s == "" then s else TrimStart(s)
  }

  /** Text that does not start with whitespace is left as it is. */
  lemma LeftTrimUnspaced(s: string)
    requires s != [] && !IsJsSpace(s[0])
    ensures LeftTrim(s) == s
  {
  }

  /** Text that neither starts nor ends with whitespace is left as it is by `Trim`. */
  lemma TrimUnspaced(s: string)
    requires s != [] ==> !IsJsSpace(s[0]) && !IsJsSpace(s[|s| - 1])
    ensures Trim(s) == s
  {
    assert TrimStart(s) == s;
  }

  /** Slicing a suffix again is slicing the original. */
  lemma SliceOfSuffix(s: string, a: nat, k: nat)
    requires a + k <= |s|
    ensures s[a..][..k] == s[a..a + k] && s[a..][k..] == s[a + k..]
  {
  }

  /** A stretch of whitespace, cut out of the text, is whitespace. */
  lemma AllSpaceSlice(s: string, a: nat, b: nat)
    requires a <= b <= |s|
    requires forall k :: a <= k < b ==> IsJsSpace(s[k])
    ensures AllSpace(s[a..b])
  {
    assert forall k :: 0 <= k < b - a ==> s[a..b][k] == s[a + k];
  }

  /** `LeftTrim` removes exactly a leading whitespace run and nothing else; applying it twice changes nothing more. */
  lemma LeftTrimSpec(s: string)
    ensures var r := LeftTrim(s);
      && s == s[..|s| - |r|] + r
      && AllSpace(s[..|s| - |r|])
      && (r != [] ==> !IsJsSpace(r[0]))
      && LeftTrim(r) == r
  {
    if s != "" {
      var n := LeadingEnd(s, 0);
      var r := s[n..];
      assert LeftTrim(s) == r && |s| - |r| == n;
      AllSpaceSlice(s, 0, n);
      assert s[0..n] == s[..n];
      if r != [] {
        assert r[0] == s[n];
        LeftTrimUnspaced(r);
      }
    }
  }

  /**
   * `Trim` keeps the middle part of the text that starts after the leading
   * whitespace run, removes only whitespace on both sides, and leaves no
   * whitespace at either end.
   */
  lemma TrimSpec(s: string)
    ensures var r := Trim(s);
      var a := |s| - |TrimStart(s)|;
      && a + |r| <= |s| && r == s[a..a + |r|]
      && AllSpace(s[..a]) && AllSpace(s[a + |r|..])
      && (r != [] ==> !IsJsSpace(r[0]) && !IsJsSpace(r[|r| - 1]))
  {
    var n := LeadingEnd(s, 0);
    var t := s[n..];
    var m := TrailingStart(t, |t|);
    var r := t[..m];
    assert Trim(s) == r && |s| - |TrimStart(s)| == n;
    SliceOfSuffix(s, n, m);
    AllSpaceSlice(s, 0, n);
    assert s[0..n] == s[..n];
    AllSpaceSlice(t, m, |t|);
    assert t[m..|t|] == t[m..];
    if r != [] {
      assert r[0] == s[n];
      assert r[m - 1] == t[m - 1];
    }
  }

  // ---------------------------------------------------------------------
  // case, replacement, numbers

  function UpperChar(ch: char): char {
    if 'a' <= ch <= 'z' then (ch as int - 32) as char else ch
  }

  /** `toUpperCase`, on ASCII letters. */
  function ToUpper(s: string): (r: string)
    ensures |r| == |s|
    ensures forall i :: 0 <= i < |s| ==> r[i] == UpperChar(s[i])
    ensures forall i :: 0 <= i < |r| ==> !('a' <= r[i] <= 'z')
  {
    seq(|s|, i requires 0 <= i < |s| => UpperChar(s[i]))
  }

  predicate StartsWith(s: string, pat: string) {
    |pat| <= |s| && s[..|pat|] == pat
  }

  /** No occurrence of `pat` starts anywhere in `s`. */
  predicate Free(s: string, pat: string) {
    forall i :: 0 <= i <= |s| ==> !StartsWith(s[i..], pat)
  }

  /** Text whose first character differs from the pattern's does not start with it. */
  lemma NotStartsWith(s: string, pat: string)
    requires s != [] && pat != [] && s[0] != pat[0]
    ensures !StartsWith(s, pat)
  {
    if |pat| <= |s| {
      assert s[..|pat|][0] == s[0];
    }
  }

  /** `s.replace(/pat/g, rep)` for a literal pattern: leftmost occurrences, left to right, without overlap. */
  function ReplaceAll(s: string, pat: string, rep: string): string
    requires pat != []
    decreases |s|
  {
    if StartsWith(s, pat) then rep + ReplaceAll(s[|pat|..], pat, rep)
    else if s == [] then []
    else [s[0]] + ReplaceAll(s[1..], pat, rep)
  }

  /** Replacing a pattern that does not occur changes nothing. */
  lemma {:induction false} ReplaceAllFree(s: string, pat: string, rep: string)
    requires pat != []
    requires Free(s, pat)
    ensures ReplaceAll(s, pat, rep) == s
    decreases |s|
  {
    assert s[0..] == s;
    if s != [] {
      assert Free(s[1..], pat) by {
        forall i | 0 <= i <= |s[1..]| ensures !StartsWith(s[1..][i..], pat) {
          assert s[1..][i..] == s[i + 1..];
        }
      }
      ReplaceAllFree(s[1..], pat, rep);
    }
  }

  /** Removing every occurrence never lengthens the text. */
  lemma {:induction false} RemoveAllShrinks(s: string, pat: string)
    requires pat != []
    ensures |ReplaceAll(s, pat, "")| <= |s|
    decreases |s|
  {
    if StartsWith(s, pat) {
      RemoveAllShrinks(s[|pat|..], pat);
    } else if s != [] {
      RemoveAllShrinks(s[1..], pat);
    }
  }

  function DigitChar(d: nat): char
    requires d < 10
  {
    ('0' as int + d) as char
  }

  predicate IsDigit(ch: char) {
    '0' <= ch <= '9'
  }

  /** Decimal notation of a non-negative number, as `String(n)` writes it. */
  function NatToString(n: nat): (r: string)
    ensures |r| >= 1
    ensures forall i :: 0 <= i < |r| ==> IsDigit(r[i])
    ensures n >= 10 ==> r[0] != '0'
  {
    if n < 10 then [DigitChar(n)] else NatToString(n / 10) + [DigitChar(n % 10)]
  }

  /** Decimal notation of an integer, with a leading '-' when negative. */
  function IntToString(n: int): string {
    if n < 0 then "-" + NatToString(-n) else NatToString(n)
  }
}
