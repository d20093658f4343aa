/** String helpers shared by the backend (Python `str`) and the frontend
    (JavaScript `string`) models: substring search in the manner of
    `str.find` / `str.rfind` / `in`, whitespace trimming in the manner of
    `str.strip()` / `String.prototype.trim()`, ASCII lower-casing, prefix
    truncation, and deletion of every occurrence of a pattern
    (`str.replace(pat, '')`). */
module Text {

  /** Whitespace as both Python's `str.isspace` and JavaScript's `trim`
      understand it (the characters the two agree on). */
  predicate IsSpace(c: char) {
    c == ' ' || c == '\t' || c == '\n' || c == '\r' || c == '\U{000B}' || c == '\U{000C}'
    || c == '\U{00A0}' || c == '\U{1680}' || ('\U{2000}' <= c <= '\U{200A}')
    || c == '\U{2028}' || c == '\U{2029}' || c == '\U{202F}' || c == '\U{205F}' || c == '\U{3000}'
  }

  predicate AllSpace(s: string) {
    forall i :: 0 <= i < |s| ==> IsSpace(s[i])
  }

  /** `pat` occurs in `s` starting at index `i`. */
  predicate OccursAt(s: string, pat: string, i: int) {
    0 <= i && i + |pat| <= |s| && s[i..i + |pat|] == pat
  }

  /** Python's `s.startswith(prefix)`. */
  predicate StartsWith(s: string, prefix: string) {
    |prefix| <= |s| && s[..|prefix|] == prefix
  }

  /** Python's `pat in s`, computed by scanning from the left. */
  function Contains(s: string, pat: string): (r: bool)
    decreases |s|
  {
    if |s| < |pat| then false
    else if s[..|pat|] == pat then true
    else Contains(s[1..], pat)
  }

  /** `Contains` agrees with the positional definition of a substring. */
  lemma {:induction false} ContainsIff(s: string, pat: string)
    ensures Contains(s, pat) <==> exists i :: OccursAt(s, pat, i)
    decreases |s|
  {
    if |s| < |pat| {
      forall i ensures !OccursAt(s, pat, i) { }
    } else if s[..|pat|] == pat {
      assert OccursAt(s, pat, 0);
    } else {
      ContainsIff(s[1..], pat);
      if Contains(s[1..], pat) {
        var i :| OccursAt(s[1..], pat, i);
        assert s[1..][i..i + |pat|] == s[i + 1..i + 1 + |pat|];
        assert OccursAt(s, pat, i + 1);
      } else {
        assert !OccursAt(s, pat, 0);
        forall i | 0 < i && OccursAt(s, pat, i) ensures OccursAt(s[1..], pat, i - 1) {
          assert s[1..][i - 1..i - 1 + |pat|] == s[i..i + |pat|];
        }
      }
    }
  }

  /** Python's `s.find(pat, from)` for `0 <= from`: the least index at or
      after `from` where `pat` occurs, or -1. */
  function FindFrom(s: string, pat: string, from: nat): (r: int)
    ensures r == -1 || (from <= r && OccursAt(s, pat, r))
    ensures forall i :: from <= i && (r == -1 || i < r) ==> !OccursAt(s, pat, i)
    decreases |s| - from
  {
    if from + |pat| > |s| then -1
    else if s[from..from + |pat|] == pat then from
    else FindFrom(s, pat, from + 1)
  }

  /** Python's `s.find(pat)`. */
  function Find(s: string, pat: string): int {
    FindFrom(s, pat, 0)
  }

  /** The greatest index below `k` where `pat` occurs, or -1. */
  function FindLastBelow(s: string, pat: string, k: nat): (r: int)
    ensures r == -1 || (r < k && OccursAt(s, pat, r))
    ensures forall i :: r < i < k ==> !OccursAt(s, pat, i)
  {
    if k == 0 then -1
    else if OccursAt(s, pat, k - 1) then k - 1
    else FindLastBelow(s, pat, k - 1)
  }

  /** Python's `s.rfind(pat)`. */
  function RFind(s: string, pat: string): int {
    FindLastBelow(s, pat, |s| + 1)
  }

  /** The first index at or after `i` that is not whitespace, or `|s|`. */
  function SkipSpace(s: string, i: nat): (j: nat)
    requires i <= |s|
    ensures i <= j <= |s| && AllSpace(s[i..j])
    ensures j < |s| ==> !IsSpace(s[j])
    decreases |s| - i
  {
    if i == |s| || !IsSpace(s[i]) then i
    else
      var j := SkipSpace(s, i + 1);
      assert s[i..j] == [s[i]] + s[i + 1..j];
      j
  }

  /** The least index `j` in `lo..hi` such that `s[j..hi]` is all
      whitespace: `hi` moved back over the whitespace before it, but never
      below `lo`. */
  function BackOverSpace(s: string, lo: nat, hi: nat): (j: nat)
    requires lo <= hi <= |s|
    ensures lo <= j <= hi && AllSpace(s[j..hi])
    ensures lo < j ==> !IsSpace(s[j - 1])
    decreases hi - lo
  {
    if hi == lo || !IsSpace(s[hi - 1]) then hi
    else
      var j := BackOverSpace(s, lo, hi - 1);
      assert s[j..hi] == s[j..hi - 1] + [s[hi - 1]];
      j
  }

  /** Python's `str.strip()` / JavaScript's `trim()`. */
  function Strip(s: string): string {
    var a := SkipSpace(s, 0);
    var b := BackOverSpace(s, a, |s|);
    s[a..b]
  }

  /** The stripped text is the input with whitespace removed at both ends
      only: it is a slice `s[a..b]`, everything outside it is whitespace,
      and it neither starts nor ends with whitespace. */
  lemma StripSpec(s: string)
    ensures exists a, b :: 0 <= a <= b <= |s| && Strip(s) == s[a..b]
              && AllSpace(s[..a]) && AllSpace(s[b..])
    ensures Strip(s) != [] ==> !IsSpace(Strip(s)[0]) && !IsSpace(Strip(s)[|Strip(s)| - 1])
  {
    var a := SkipSpace(s, 0);
    var b := BackOverSpace(s, a, |s|);
    assert s[..a] == s[0..a];
    if a < b {
      assert Strip(s)[0] == s[a];
      assert Strip(s)[|Strip(s)| - 1] == s[b - 1];
    }
  }

  /** Stripping yields the empty string exactly when the input is all
      whitespace. */
  lemma StripEmptyIff(s: string)
    ensures Strip(s) == [] <==> AllSpace(s)
  {
    var a := SkipSpace(s, 0);
    var b := BackOverSpace(s, a, |s|);
    assert s[..a] == s[0..a];
    if a == b {
      assert a == |s|;
      assert s[..a] == s;
    } else {
      assert !IsSpace(s[a]);
    }
  }

  /** Stripping twice is the same as stripping once. */
  lemma StripIdempotent(s: string)
    ensures Strip(Strip(s)) == Strip(s)
  {
    var t := Strip(s);
    StripSpec(s);
    if t != [] {
      assert SkipSpace(t, 0) == 0;
      assert BackOverSpace(t, 0, |t|) == |t|;
      assert t[0..|t|] == t;
    }
  }

  /** A stripped string has no whitespace at either end, so stripping it
      changes nothing. */
  lemma StripOfTrimmed(t: string)
    requires t == [] || (!IsSpace(t[0]) && !IsSpace(t[|t| - 1]))
    ensures Strip(t) == t
  {
    if t != [] {
      assert SkipSpace(t, 0) == 0;
      assert BackOverSpace(t, 0, |t|) == |t|;
      assert t[0..|t|] == t;
    }
  }

  function LowerChar(c: char): char {
    if 'A' <= c <= 'Z' then (c as int + 32) as char else c
  }

  /** Python's `str.lower()`, restricted to ASCII letters. */
  function Lower(s: string): (r: string)
    ensures |r| == |s|
    ensures forall i :: 0 <= i < |s| ==> r[i] == LowerChar(s[i])
  {
    if s == [] then [] else [LowerChar(s[0])] + Lower(s[1..])
  }

  /** Python's `s[:n] + '...' if len(s) > n else s`. */
  function Truncate(s: string, n: nat): (r: string)
    ensures |s| <= n ==> r == s
    ensures |s| > n ==> |r| == n + 3 && r[..n] == s[..n] && r[n..] == "..."
  {
    if |s| > n then s[..n] + "..." else s
  }

  /** Python's `s[:n]`. */
  function Prefix(s: string, n: nat): (r: string)
    ensures |r| == if |s| <= n then |s| else n
    ensures r == s[..|r|]
  {
    if |s| <= n then s else s[..n]
  }

  /** Python's `s.replace(pat, '')`: every non-overlapping occurrence of
      `pat`, scanning from the left, is deleted. */
  function RemoveAll(s: string, pat: string): (r: string)
    requires pat != []
    ensures |r| <= |s|
    decreases |s|
  {
    if |s| < |pat| then s
    else if s[..|pat|] == pat then RemoveAll(s[|pat|..], pat)
    else [s[0]] + RemoveAll(s[1..], pat)
  }

  /** Deleting an absent pattern changes nothing. */
  lemma {:induction false} RemoveAllAbsent(s: string, pat: string)
    requires pat != [] && !Contains(s, pat)
    ensures RemoveAll(s, pat) == s
    decreases |s|
  {
    if |s| >= |pat| {
      assert s[..|pat|] != pat;
      RemoveAllAbsent(s[1..], pat);
      assert s == [s[0]] + s[1..];
    }
  }

  const Fence: string := "```"

  /** A markdown fence that opens a JSON block. */
  const JsonFence: string := "```json"

  /** A character other than a backtick survives at the front. */
  lemma RemoveFenceKeepsHead(s: string)
    requires |s| > 0 && s[0] != '`'
    ensures |RemoveAll(s, Fence)| > 0 && RemoveAll(s, Fence)[0] == s[0]
  {
    if |s| >= 3 {
      assert s[..3][0] == s[0];
    }
  }

  /** Deletion never leaves a fence at the front of what remains of a
      string that did not start with one. */
  lemma FenceNotAtFront(s: string)
    requires !OccursAt(s, Fence, 0)
    ensures !OccursAt(RemoveAll(s, Fence), Fence, 0)
  {
    if |s| >= 3 {
      var t := s[1..];
      var r := RemoveAll(s, Fence);
      assert s[..3] == [s[0], t[0], t[1]];
      assert r == [s[0]] + RemoveAll(t, Fence);
      if s[0] == '`' && t[0] == '`' {
        assert t[1] != '`';
        if |t| >= 3 {
          assert t[..3][1] == t[1];
          assert RemoveAll(t, Fence) == [t[0]] + RemoveAll(t[1..], Fence);
          RemoveFenceKeepsHead(t[1..]);
          assert r[2] == t[1];
        } else {
          assert RemoveAll(t, Fence) == t;
          assert r == s;
        }
      } else if s[0] == '`' {
        RemoveFenceKeepsHead(t);
        assert r[1] == t[0];
      }
    }
  }

  /** An occurrence past the first character of `[c] + t` is one in `t`. */
  lemma OccursInTail(c: char, t: string, pat: string, i: int)
    requires i > 0 && OccursAt([c] + t, pat, i)
    ensures OccursAt(t, pat, i - 1)
  {
    assert ([c] + t)[i..i + |pat|] == t[i - 1..i - 1 + |pat|];
  }

  /** After `replace('```', '')` no "```" is left. (This is particular to
      a run of one repeated character: deleting a general pattern can
      create a new occurrence of it.) */
  lemma {:induction false} RemoveFenceLeavesNone(s: string)
    ensures !Contains(RemoveAll(s, Fence), Fence)
    decreases |s|
  {
    var r := RemoveAll(s, Fence);
    if |s| < 3 {
      assert |r| < 3;
    } else if s[..3] == Fence {
      RemoveFenceLeavesNone(s[3..]);
    } else {
      var rt := RemoveAll(s[1..], Fence);
      RemoveFenceLeavesNone(s[1..]);
      ContainsIff(rt, Fence);
      assert r == [s[0]] + rt;
      FenceNotAtFront(s);
      forall i | OccursAt(r, Fence, i) ensures false {
        OccursInTail(s[0], rt, Fence, i);
      }
      ContainsIff(r, Fence);
    }
  }

  /** `xs` can be obtained from `ys` by deleting elements. */
  predicate IsSubsequence<T(==)>(xs: seq<T>, ys: seq<T>)
    decreases |ys|
  {
    if ys == [] then xs == []
    else (xs != [] && xs[0] == ys[0] && IsSubsequence(xs[1..], ys[1..])) || IsSubsequence(xs, ys[1..])
  }

  lemma {:induction false} SubsequenceDropFront<T>(xs: seq<T>, ys: seq<T>, k: nat)
    requires k <= |ys| && IsSubsequence(xs, ys[k..])
    ensures IsSubsequence(xs, ys)
    decreases k
  {
    if k > 0 {
      assert ys[k..] == ys[1..][k - 1..];
      SubsequenceDropFront(xs, ys[1..], k - 1);
    }
  }

  lemma {:induction false} SubsequenceRefl<T>(s: seq<T>)
    ensures IsSubsequence(s, s)
    decreases |s|
  {
    if s != [] { SubsequenceRefl(s[1..]); }
  }

  /** Deleting a pattern keeps the remaining characters in order. */
  lemma {:induction false} RemoveAllIsSubsequence(s: string, pat: string)
    requires pat != []
    ensures IsSubsequence(RemoveAll(s, pat), s)
    decreases |s|
  {
    var r := RemoveAll(s, pat);
    if |s| < |pat| {
      SubsequenceRefl(s);
    } else if s[..|pat|] == pat {
      RemoveAllIsSubsequence(s[|pat|..], pat);
      SubsequenceDropFront(r, s, |pat|);
    } else {
      RemoveAllIsSubsequence(s[1..], pat);
      assert r[1..] == RemoveAll(s[1..], pat);
    }
  }
}
