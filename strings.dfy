/**
 * The few Python `str` operations the core relies on: `lower()` and `upper()`
 * (ASCII letters only), the `in` substring test, `replace(old, "")` and
 * `strip()`, with the facts about them the rest of the model uses.
 */
module Strings {

  /** The characters for which Python's `str.isspace()` holds, i.e. those `strip()` removes. */
  predicate IsSpace(c: char) {
    || '\U{9}' <= c <= '\U{D}'
    || '\U{1C}' <= c <= '\U{1F}'
    || c == ' ' || c == '\U{85}' || c == '\U{A0}' || c == '\U{1680}'
    || '\U{2000}' <= c <= '\U{200A}'
    || c == '\U{2028}' || c == '\U{2029}' || c == '\U{202F}' || c == '\U{205F}' || c == '\U{3000}'
  }

  predicate IsUpperLetter(c: char) {
    'A' <= c <= 'Z'
  }

  predicate IsLowerLetter(c: char) {
    'a' <= c <= 'z'
  }

  function LowerChar(c: char): char {
    if IsUpperLetter(c) then (c as int + 32) as char else c
  }

  function UpperChar(c: char): char {
    if IsLowerLetter(c) then (c as int - 32) as char else c
  }

  /** `s.lower()`, restricted to ASCII letters. */
  function Lower(s: string): string {
    seq(|s|, i requires 0 <= i < |s| => LowerChar(s[i]))
  }

  /** `s.upper()`, restricted to ASCII letters. */
  function Upper(s: string): string {
    seq(|s|, i requires 0 <= i < |s| => UpperChar(s[i]))
  }

  /** No upper-case ASCII letter occurs in `s`. */
  predicate IsLowerCase(s: string) {
    forall i :: 0 <= i < |s| ==> !IsUpperLetter(s[i])
  }

  /** The result of `lower()` is in lower case, and lowering it again changes nothing. */
  lemma LowerIsLowerCase(s: string)
    ensures IsLowerCase(Lower(s))
    ensures Lower(Lower(s)) == Lower(s)
  {
    assert forall i :: 0 <= i < |s| ==> Lower(Lower(s))[i] == Lower(s)[i];
  }

  predicate StartsWith(s: string, w: string) {
    |w| <= |s| && s[..|w|] == w
  }

  /** `w` occurs in `s` starting at index `i`. */
  predicate OccursAt(s: string, w: string, i: int) {
    0 <= i <= |s| - |w| && s[i..i + |w|] == w
  }

  /** Python's `w in s`. */
  predicate Contains(s: string, w: string) {
    exists i | 0 <= i <= |s| - |w| :: OccursAt(s, w, i)
  }

  /** `w` occurs in `[c] + s` exactly when it starts there or occurs in `s`. */
  lemma ContainsCons(c: char, s: string, w: string)
    ensures Contains([c] + s, w) <==> StartsWith([c] + s, w) || Contains(s, w)
  {
    var cs := [c] + s;
    if Contains(cs, w) && !StartsWith(cs, w) {
      var i :| 0 <= i <= |cs| - |w| && OccursAt(cs, w, i);
      assert i != 0;
      assert cs[1..] == s;
      assert s[i - 1..i - 1 + |w|] == cs[1..][i - 1..i - 1 + |w|] == cs[i..i + |w|];
      assert OccursAt(s, w, i - 1);
    }
    if StartsWith(cs, w) {
      assert cs[0..0 + |w|] == w;
      assert OccursAt(cs, w, 0);
    }
    if Contains(s, w) {
      var j :| 0 <= j <= |s| - |w| && OccursAt(s, w, j);
      assert cs[1..] == s;
      assert cs[j + 1..j + 1 + |w|] == cs[1..][j..j + |w|] == s[j..j + |w|];
      assert OccursAt(cs, w, j + 1);
    }
  }

  /** Whatever occurs in a slice of `s` occurs in `s`. */
  lemma ContainsSlice(s: string, a: nat, b: nat, w: string)
    requires a <= b <= |s|
    requires Contains(s[a..b], w)
    ensures Contains(s, w)
  {
    var t := s[a..b];
    var i :| 0 <= i <= |t| - |w| && OccursAt(t, w, i);
    assert forall k :: a <= k < b ==> t[k - a] == s[k];
    assert s[a + i..a + i + |w|] == t[i..i + |w|];
    assert OccursAt(s, w, a + i);
  }

  /** Upper-casing keeps every occurrence, as an occurrence of the upper-cased word. */
  lemma ContainsUpper(s: string, w: string)
    requires Contains(s, w)
    ensures Contains(Upper(s), Upper(w))
  {
    var i :| 0 <= i <= |s| - |w| && OccursAt(s, w, i);
    assert Upper(s)[i..i + |w|] == Upper(w);
    assert OccursAt(Upper(s), Upper(w), i);
  }

  /**
   * Python's `s.replace(pat, rep)` for a non-empty `pat`: occurrences are found
   * from the left and do not overlap.
   */
  function ReplaceAll(s: string, pat: string, rep: string): string
    requires pat != []
    decreases |s|
  {
    if |s| < |pat| then s
    else if s[..|pat|] == pat then rep + ReplaceAll(s[|pat|..], pat, rep)
    else [s[0]] + ReplaceAll(s[1..], pat, rep)
  }

  /** Replacing a pattern that does not occur leaves the string as it was. */
  lemma {:induction false} ReplaceAllAbsent(s: string, pat: string, rep: string)
    requires pat != []
    requires !Contains(s, pat)
    ensures ReplaceAll(s, pat, rep) == s
    decreases |s|
  {
    if |s| >= |pat| {
      assert s[0..0 + |pat|] == s[..|pat|];
      assert s == [s[0]] + s[1..];
      ContainsCons(s[0], s[1..], pat);
      ReplaceAllAbsent(s[1..], pat, rep);
    }
  }

  const Fence := "```"

  /** The number of backticks `s` starts with. */
  function LeadingTicks(s: string): nat {
    if s != [] && s[0] == '`' then 1 + LeadingTicks(s[1..]) else 0
  }

  lemma {:induction false} LeadingTicksAtLeast(s: string, n: nat)
    ensures LeadingTicks(s) >= n <==> n <= |s| && forall k :: 0 <= k < n ==> s[k] == '`'
  {
    if n > 0 && s != [] {
      LeadingTicksAtLeast(s[1..], n - 1);
    }
  }

  lemma FenceStart(s: string)
    ensures StartsWith(s, Fence) <==> LeadingTicks(s) >= 3
  {
    LeadingTicksAtLeast(s, 3);
    if 3 <= |s| && s[0] == '`' && s[1] == '`' && s[2] == '`' {
      assert s[..3] == Fence;
    }
  }

  /**
   * Removing every fence from left to right leaves no fence behind: each run of
   * backticks keeps only its length modulo 3, and runs are never joined because
   * only backticks are removed.
   */
  lemma {:induction false} RemoveFencesLeavesNone(s: string)
    ensures LeadingTicks(ReplaceAll(s, Fence, "")) == LeadingTicks(s) % 3
    ensures !Contains(ReplaceAll(s, Fence, ""), Fence)
    decreases |s|
  {
    if |s| < 3 {
      LeadingTicksAtLeast(s, 3);
      SmallModThree(LeadingTicks(s));
    } else if s[..3] == Fence {
      RemoveFencesLeavesNone(s[3..]);
      SkipFence(s);
      SmallModThree(LeadingTicks(s[3..]));
    } else {
      RemoveFencesLeavesNone(s[1..]);
      KeepFirst(s);
    }
  }

  /** A leading fence is dropped, along with its three backticks. */
  lemma SkipFence(s: string)
    requires |s| >= 3 && s[..3] == Fence
    ensures ReplaceAll(s, Fence, "") == ReplaceAll(s[3..], Fence, "")
    ensures LeadingTicks(s) == 3 + LeadingTicks(s[3..])
  {
    assert s[0] == '`' && s[1] == '`' && s[2] == '`';
    assert s[1..][1..][1..] == s[3..];
    assert LeadingTicks(s[1..]) == 1 + LeadingTicks(s[1..][1..]);
  }

  lemma SmallModThree(n: nat)
    ensures n < 3 ==> n % 3 == n
    ensures (n + 3) % 3 == n % 3
  {
  }

  /** The step of `RemoveFencesLeavesNone` where the first character is kept. */
  lemma KeepFirst(s: string)
    requires |s| >= 3 && s[..3] != Fence
    requires LeadingTicks(ReplaceAll(s[1..], Fence, "")) == LeadingTicks(s[1..]) % 3
    requires !Contains(ReplaceAll(s[1..], Fence, ""), Fence)
    ensures LeadingTicks(ReplaceAll(s, Fence, "")) == LeadingTicks(s) % 3
    ensures !Contains(ReplaceAll(s, Fence, ""), Fence)
  {
    var t := s[1..];
    var r := ReplaceAll(s, Fence, "");
    var rt := ReplaceAll(t, Fence, "");
    assert r == [s[0]] + rt;
    assert r[0] == s[0] && r[1..] == rt;
    FenceStart(s);
    assert LeadingTicks(s) < 3;
    if s[0] == '`' {
      assert LeadingTicks(s) == 1 + LeadingTicks(t);
      SmallModThree(LeadingTicks(t));
      assert LeadingTicks(r) == 1 + LeadingTicks(rt);
    } else {
      assert LeadingTicks(s) == 0 && LeadingTicks(r) == 0;
    }
    SmallModThree(LeadingTicks(s));
    FenceStart(r);
    ContainsCons(s[0], rt, Fence);
  }

  /** How many whitespace characters `s` starts with. */
  function LeadingSpaces(s: string): (n: nat)
    ensures n <= |s|
    ensures forall k :: 0 <= k < n ==> IsSpace(s[k])
    ensures n < |s| ==> !IsSpace(s[n])
  {
    if s != [] && IsSpace(s[0]) then 1 + LeadingSpaces(s[1..]) else 0
  }

  /** How many whitespace characters `s` ends with. */
  function TrailingSpaces(s: string): (n: nat)
    ensures n <= |s|
    ensures forall k :: |s| - n <= k < |s| ==> IsSpace(s[k])
    ensures n < |s| ==> !IsSpace(s[|s| - 1 - n])
  {
    if s != [] && IsSpace(s[|s| - 1]) then 1 + TrailingSpaces(s[..|s| - 1]) else 0
  }

  /** Python's `s.strip()`. */
  function Strip(s: string): string {
    var t := s[LeadingSpaces(s)..];
    t[..|t| - TrailingSpaces(t)]
  }

  /**
   * The result of `strip()` neither starts nor ends with whitespace, and `s` is
   * that result with only whitespace around it.
   */
  lemma StripShape(s: string)
    ensures var r := Strip(s);
      && (r == [] || (!IsSpace(r[0]) && !IsSpace(r[|r| - 1])))
      && LeadingSpaces(s) + |r| <= |s|
      && s == s[..LeadingSpaces(s)] + r + s[LeadingSpaces(s) + |r|..]
      && forall k :: 0 <= k < |s| && !(LeadingSpaces(s) <= k < LeadingSpaces(s) + |r|) ==> IsSpace(s[k])
  {
    var a := LeadingSpaces(s);
    var r := Strip(s);
    assert s == s[..a] + r + s[a + |r|..];
  }

  /** Stripping twice is stripping once. */
  lemma StripIdempotent(s: string)
    ensures Strip(Strip(s)) == Strip(s)
  {
    var r := Strip(s);
    StripShape(s);
    assert LeadingSpaces(r) == 0;
    assert TrailingSpaces(r) == 0;
  }
}
