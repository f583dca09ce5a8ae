/**
 * The JavaScript string primitives the applications rely on, over ASCII:
 * `\s` / `trim` whitespace, `toLowerCase`, `startsWith`, `includes` and
 * `replace` with a string pattern.
 */
module Text {

  /** Space, tab, line feed, vertical tab, form feed and carriage return. */
  predicate IsSpace(c: char) {
    c == ' ' || '\t' <= c <= '\r'
  }

  ghost predicate AllSpace(s: string) {
    forall k :: 0 <= k < |s| ==> IsSpace(s[k])
  }

  function LowerChar(c: char): char {
    if 'A' <= c <= 'Z' then (c as int + 32) as char else c
  }

  /** String.prototype.toLowerCase, letter by letter. */
  function Lower(s: string): (r: string)
    ensures |r| == |s|
    ensures forall k :: 0 <= k < |s| ==> r[k] == LowerChar(s[k])
  {
    seq(|s|, k requires 0 <= k < |s| => LowerChar(s[k]))
  }

  /** Drops the leading whitespace: the result is the longest suffix that does not start with a space. */
  function TrimStart(s: string): (r: string)
    ensures |r| <= |s| && r == s[|s| - |r|..]
    ensures AllSpace(s[..|s| - |r|])
    ensures r == [] || !IsSpace(r[0])
  {
    if s != [] && IsSpace(s[0]) then
      var r := TrimStart(s[1..]);
      assert s[1..][|s| - 1 - |r|..] == s[|s| - |r|..];
      assert forall k :: 1 <= k < |s| - |r| ==> s[k] == s[1..][k - 1];
      r
    else s
  }

  /** Drops the trailing whitespace: the result is the longest prefix that does not end with a space. */
  function TrimEnd(s: string): (r: string)
    ensures |r| <= |s| && r == s[..|r|]
    ensures AllSpace(s[|r|..])
    ensures r == [] || !IsSpace(r[|r| - 1])
  {
    if s != [] && IsSpace(s[|s| - 1]) then
      var t := s[..|s| - 1];
      var r := TrimEnd(t);
      assert s[..|r|] == t[..|r|];
      assert forall k :: |r| <= k < |s| - 1 ==> s[k] == t[k];
      r
    else s
  }

  /**
   * String.prototype.trim: `s` with a whitespace prefix and a whitespace suffix
   * cut off, what is left neither starting nor ending with whitespace; empty
   * exactly when the input is all whitespace.
   */
  function Trim(s: string): (r: string)
    ensures |r| <= |s|
    ensures exists a :: IsMiddle(s, r, a)
    ensures r == [] <==> AllSpace(s)
    ensures r == [] || (!IsSpace(r[0]) && !IsSpace(r[|r| - 1]))
  {
    var t := TrimStart(s);
    var r := TrimEnd(t);
    MiddleOfCuts(s, t, r);
    MiddleBlankIff(s, r, |s| - |t|);
    r
  }

  /** `r` is the piece of `s` at index `a` with nothing but whitespace before and after it. */
  ghost predicate IsMiddle(s: string, r: string, a: int) {
    0 <= a <= |s| - |r| && r == s[a..a + |r|] && AllSpace(s[..a]) && AllSpace(s[a + |r|..])
  }

  /** A prefix `r` of a suffix `t` of `s`, each cut leaving only whitespace behind, is a middle piece of `s`. */
  lemma MiddleOfCuts(s: string, t: string, r: string)
    requires |t| <= |s| && t == s[|s| - |t|..] && AllSpace(s[..|s| - |t|])
    requires |r| <= |t| && r == t[..|r|] && AllSpace(t[|r|..])
    ensures IsMiddle(s, r, |s| - |t|)
  {
    var a := |s| - |t|;
    assert s[a..a + |r|] == t[..|r|];
    assert s[a + |r|..] == t[|r|..];
  }

  /** A middle piece between whitespace is all whitespace exactly when the whole string is. */
  lemma MiddleBlankIff(s: string, r: string, a: int)
    requires IsMiddle(s, r, a)
    ensures AllSpace(s) <==> AllSpace(r)
  {
    assert forall k :: 0 <= k < |r| ==> r[k] == s[a + k];
    if AllSpace(r) {
      forall k | 0 <= k < |s|
        ensures IsSpace(s[k])
      {
        if k < a {
          assert s[k] == s[..a][k];
        } else if k < a + |r| {
          assert s[k] == r[k - a];
        } else {
          assert s[k] == s[a + |r|..][k - a - |r|];
        }
      }
    }
  }

  /** String.prototype.startsWith: `prefix` occurs at index 0, so `s` also includes it. */
  predicate StartsWith(s: string, prefix: string): (r: bool)
    ensures r <==> OccursAt(s, prefix, 0)
    ensures r ==> Contains(s, prefix)
  {
    |prefix| <= |s| && s[..|prefix|] == prefix
  }

  /** `part` occurs in `s` starting at index `k`. */
  predicate OccursAt(s: string, part: string, k: int) {
    0 <= k && k + |part| <= |s| && s[k..k + |part|] == part
  }

  /**
   * String.prototype.includes: `part` occurs somewhere in `s`. The empty string
   * occurs in every string, and every string includes itself.
   */
  predicate Contains(s: string, part: string): (r: bool)
    ensures r ==> |part| <= |s|
    ensures part == [] ==> r
    ensures part == s ==> r
  {
    assert part == [] || part == s ==> s[0..|part|] == part && OccursAt(s, part, 0);
    exists k :: 0 <= k <= |s| - |part| && OccursAt(s, part, k)
  }

  /**
   * String.prototype.replace with a string pattern: only the first
   * occurrence of `pattern` is replaced.
   */
  function ReplaceFirst(s: string, pattern: string, replacement: string): (r: string)
    ensures StartsWith(s, pattern) ==> r == replacement + s[|pattern|..]
    ensures !Contains(s, pattern) ==> r == s
    decreases |s|
  {
    if StartsWith(s, pattern) then
      assert OccursAt(s, pattern, 0);
      replacement + s[|pattern|..]
    else if |s| <= |pattern| then s
    else
      var rest := ReplaceFirst(s[1..], pattern, replacement);
      assert Contains(s[1..], pattern) ==> Contains(s, pattern) by {
        if Contains(s[1..], pattern) {
          var k :| 0 <= k <= |s| - 1 - |pattern| && OccursAt(s[1..], pattern, k);
          assert s[k + 1..k + 1 + |pattern|] == s[1..][k..k + |pattern|];
          assert OccursAt(s, pattern, k + 1);
        }
      }
      [s[0]] + rest
  }

  lemma {:induction false} TrimStartOfAppend(s: string, t: string)
    ensures TrimStart(s + t) == if AllSpace(s) then TrimStart(t) else TrimStart(s) + t
    decreases |s|
  {
    if s == [] {
      assert s + t == t;
    } else if IsSpace(s[0]) {
      assert (s + t)[0] == s[0];
      assert (s + t)[1..] == s[1..] + t;
      assert AllSpace(s) == AllSpace(s[1..]) by {
        assert forall k :: 0 <= k < |s| - 1 ==> s[1..][k] == s[k + 1];
      }
      TrimStartOfAppend(s[1..], t);
    } else {
      assert (s + t)[0] == s[0];
      assert !AllSpace(s);
    }
  }

  lemma {:induction false} TrimEndOfSpaces(s: string, pad: string)
    requires AllSpace(pad)
    ensures TrimEnd(s + pad) == TrimEnd(s)
    decreases |pad|
  {
    if pad == [] {
      assert s + pad == s;
    } else {
      assert (s + pad)[..|s + pad| - 1] == s + pad[..|pad| - 1];
      TrimEndOfSpaces(s, pad[..|pad| - 1]);
    }
  }

  /** Whitespace added around a string does not change its trimmed form. */
  lemma TrimIgnoresPadding(front: string, s: string, back: string)
    requires AllSpace(front) && AllSpace(back)
    ensures Trim(front + s + back) == Trim(s)
  {
    assert front + s + back == front + (s + back);
    TrimStartOfAppend(front, s + back);
    TrimStartOfAppend(s, back);
    if AllSpace(s) {
      assert TrimStart(s) == [];
      assert TrimStart(back) == [];
    } else {
      TrimEndOfSpaces(TrimStart(s), back);
    }
  }

  lemma {:induction false} LowerTrimStart(s: string)
    ensures Lower(TrimStart(s)) == TrimStart(Lower(s))
    decreases |s|
  {
    if s != [] {
      assert IsSpace(Lower(s)[0]) == IsSpace(s[0]);
      if IsSpace(s[0]) {
        assert Lower(s)[1..] == Lower(s[1..]);
        LowerTrimStart(s[1..]);
      }
    }
  }

  lemma {:induction false} LowerTrimEnd(s: string)
    ensures Lower(TrimEnd(s)) == TrimEnd(Lower(s))
    decreases |s|
  {
    if s != [] {
      assert IsSpace(Lower(s)[|s| - 1]) == IsSpace(s[|s| - 1]);
      if IsSpace(s[|s| - 1]) {
        assert Lower(s)[..|s| - 1] == Lower(s[..|s| - 1]);
        LowerTrimEnd(s[..|s| - 1]);
      }
    }
  }

  /** Lower-casing and trimming commute, because lower-casing keeps every whitespace character. */
  lemma LowerTrimCommute(s: string)
    ensures Lower(Trim(s)) == Trim(Lower(s))
  {
    LowerTrimStart(s);
    LowerTrimEnd(TrimStart(s));
  }
}
