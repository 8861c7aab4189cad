/**
 * The few operations of the .NET `System.String` class that the checksum tool
 * relies on: `string.IsNullOrWhiteSpace`, `Trim`, `Replace(x, "")` for a
 * one-character `x`, `ToLower` and a case-insensitive comparison.
 */
module ClrString {
  import opened Wrappers

  /** A .NET string reference: `None` is `null`. */
  type NullableString = Option<string>

  /**
   * `char.IsWhiteSpace`: the Unicode space, line and paragraph separators
   * (categories Zs, Zl, Zp) and the control characters U+0009..U+000D, U+0085.
   */
  predicate IsWhiteSpace(c: char)
    ensures IsWhiteSpace(c) ==> !('0' <= c <= '9' || 'A' <= c <= 'Z' || 'a' <= c <= 'z')
  {
    ('\U{9}' <= c <= '\U{D}') || c == ' ' || c == '\U{85}' || c == '\U{A0}'
    || c == '\U{1680}' || ('\U{2000}' <= c <= '\U{200A}')
    || c == '\U{2028}' || c == '\U{2029}' || c == '\U{202F}' || c == '\U{205F}'
    || c == '\U{3000}'
  }

  /** Every character of `s` is white space (true of the empty string). */
  predicate AllWhiteSpace(s: string) {
    forall i :: 0 <= i < |s| ==> IsWhiteSpace(s[i])
  }

  /** `string.IsNullOrWhiteSpace`. */
  predicate IsBlank(s: NullableString)
    ensures s == Some([]) ==> IsBlank(s)
    ensures s.Some? && |s.value| > 0 && !IsWhiteSpace(s.value[0]) ==> !IsBlank(s)
  {
    s.None? || AllWhiteSpace(s.value)
  }

  /** Where the leading white space of `s` ends, scanning forward from `i`. */
  function LeadingEnd(s: string, i: nat): (r: nat)
    requires i <= |s|
    ensures i <= r <= |s|
    ensures forall j :: i <= j < r ==> IsWhiteSpace(s[j])
    ensures r == |s| || !IsWhiteSpace(s[r])
    decreases |s| - i
  {
    if i < |s| && IsWhiteSpace(s[i]) then LeadingEnd(s, i + 1) else i
  }

  /** Where the trailing white space of `s[lo..j]` starts, scanning backward from `j`. */
  function TrailingStart(s: string, lo: nat, j: nat): (r: nat)
    requires lo <= j <= |s|
    ensures lo <= r <= j
    ensures forall m :: r <= m < j ==> IsWhiteSpace(s[m])
    ensures r == lo || !IsWhiteSpace(s[r - 1])
    decreases j
  {
    if lo < j && IsWhiteSpace(s[j - 1]) then TrailingStart(s, lo, j - 1) else j
  }

  /** The number of white-space characters `Trim` removes from the front of `s`. */
  function LeadingWhiteSpace(s: string): (k: nat)
    ensures k <= |s|
  {
    LeadingEnd(s, 0)
  }

  /**
   * `Trim()`: the longest infix of `s` that neither starts nor ends with
   * white space; everything cut off on either side is white space.
   */
  function Trim(s: string): (r: string)
    ensures LeadingWhiteSpace(s) + |r| <= |s|
    ensures r == s[LeadingWhiteSpace(s)..LeadingWhiteSpace(s) + |r|]
    ensures forall i :: 0 <= i < LeadingWhiteSpace(s) ==> IsWhiteSpace(s[i])
    ensures forall i :: LeadingWhiteSpace(s) + |r| <= i < |s| ==> IsWhiteSpace(s[i])
    ensures r == [] || (!IsWhiteSpace(r[0]) && !IsWhiteSpace(r[|r| - 1]))
  {
    var k := LeadingWhiteSpace(s);
    var e := TrailingStart(s, k, |s|);
    assert k < e ==> s[k..e][0] == s[k] && s[k..e][e - k - 1] == s[e - 1];
    s[k..e]
  }

  /** Trimming keeps every character that is not white space, and brings in none. */
  lemma TrimKeepsNonWhiteSpace(s: string, d: char)
    requires !IsWhiteSpace(d)
    ensures d in Trim(s) <==> d in s
  {
    var r := Trim(s);
    var k := LeadingWhiteSpace(s);
    if d in s {
      var j :| 0 <= j < |s| && s[j] == d;
      assert k <= j < k + |r|;
      assert r[j - k] == d;
    }
    if d in r {
      var i :| 0 <= i < |r| && r[i] == d;
      assert s[k + i] == d;
    }
  }

  /** A string trims to nothing exactly when `IsNullOrWhiteSpace` holds of it. */
  lemma TrimEmptyIffBlank(s: string)
    ensures Trim(s) == [] <==> IsBlank(Some(s))
  {
    var k := LeadingWhiteSpace(s);
    if Trim(s) != [] {
      var r := Trim(s);
      assert s[k] == r[0];
    }
  }

  /** Trimming a trimmed string changes nothing. */
  lemma TrimIdempotent(s: string)
    ensures Trim(Trim(s)) == Trim(s)
  {
    var r := Trim(s);
    if r != [] {
      assert LeadingWhiteSpace(r) == 0;
      assert TrailingStart(r, 0, |r|) == |r|;
      assert r[0..|r|] == r;
    }
  }

  /**
   * `s.Replace(c.ToString(), "")`: every occurrence of `c` removed, the
   * other characters kept in order.
   */
  function Remove(s: string, c: char): (r: string)
    ensures |r| <= |s|
    ensures c !in r
  {
    if s == [] then [] else (if s[0] == c then [] else [s[0]]) + Remove(s[1..], c)
  }

  /** Removal keeps exactly the other characters: nothing else disappears and nothing new appears. */
  lemma {:induction false} RemoveKeepsOthers(s: string, c: char, d: char)
    requires d != c
    ensures d in Remove(s, c) <==> d in s
  {
    if s != [] {
      RemoveKeepsOthers(s[1..], c, d);
      assert d in s <==> d == s[0] || d in s[1..];
    }
  }

  /** Removing from a string of `c` and `d` characters leaves only `d` characters. */
  lemma {:induction false} RemoveLeavesOther(s: string, c: char, d: char)
    requires forall i :: 0 <= i < |s| ==> s[i] == c || s[i] == d
    ensures forall i :: 0 <= i < |Remove(s, c)| ==> Remove(s, c)[i] == d
  {
    if s != [] {
      RemoveLeavesOther(s[1..], c, d);
    }
  }

  /** Removing the only character a string holds leaves nothing. */
  lemma {:induction false} RemoveAll(s: string, c: char)
    requires forall i :: 0 <= i < |s| ==> s[i] == c
    ensures Remove(s, c) == []
  {
    if s != [] {
      RemoveAll(s[1..], c);
    }
  }

  /** Removal distributes over concatenation (so order is kept). */
  lemma {:induction false} RemoveConcat(a: string, b: string, c: char)
    ensures Remove(a + b, c) == Remove(a, c) + Remove(b, c)
  {
    if a != [] {
      assert (a + b)[1..] == a[1..] + b;
      RemoveConcat(a[1..], b, c);
    } else {
      assert a + b == b;
    }
  }

  /** Removing a character that does not occur is the identity. */
  lemma {:induction false} RemoveAbsent(s: string, c: char)
    requires c !in s
    ensures Remove(s, c) == s
  {
    if s != [] {
      assert s == [s[0]] + s[1..];
      RemoveAbsent(s[1..], c);
    }
  }

  /** `char.ToLower` restricted to ASCII: 'A'..'Z' become 'a'..'z'. */
  function LowerChar(c: char): (r: char)
    ensures 'A' <= c <= 'Z' ==> 'a' <= r <= 'z' && r as int - 'a' as int == c as int - 'A' as int
    ensures !('A' <= c <= 'Z') ==> r == c
  {
    if 'A' <= c <= 'Z' then (c as int - 'A' as int + 'a' as int) as char else c
  }

  /** `ToLower()` on the ASCII letters, character by character. */
  function Lower(s: string): (r: string)
    ensures |r| == |s|
    ensures forall i :: 0 <= i < |s| ==> r[i] == LowerChar(s[i])
  {
    seq(|s|, i requires 0 <= i < |s| => LowerChar(s[i]))
  }

  /**
   * `string.Compare(a, b, ignoreCase: true, ...) == 0` on ASCII text: equal
   * once both are lower-cased.
   */
  predicate EqualsIgnoreCase(a: string, b: string)
    ensures EqualsIgnoreCase(a, b) <==>
      |a| == |b| && forall i :: 0 <= i < |a| ==> LowerChar(a[i]) == LowerChar(b[i])
  {
    Lower(a) == Lower(b)
  }

  /** A character that lower-cases to the same character as a white-space character is itself white space. */
  lemma LowerCharKeepsWhiteSpace(c: char, d: char)
    requires IsWhiteSpace(c) && LowerChar(c) == LowerChar(d)
    ensures IsWhiteSpace(d)
  {
  }
}
