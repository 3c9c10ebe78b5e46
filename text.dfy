// Text helpers used by the name filter: ASCII lower-casing (standing in for
// JavaScript's String.prototype.toLowerCase) and substring containment
// (standing in for String.prototype.includes).

module Text {

  predicate IsUpper(c: char) {
    'A' <= c <= 'Z'
  }

  /** True iff the text holds at least one upper-case ASCII letter. */
  predicate HasUpper(s: string) {
    exists i :: 0 <= i < |s| && IsUpper(s[i])
  }

  /** Lower-case one character: 'A'..'Z' become 'a'..'z', all else is kept. */
  function LowerChar(c: char): (d: char)
    ensures !IsUpper(d)
    ensures IsUpper(c) ==> 'a' <= d <= 'z' && d as int - c as int == 'a' as int - 'A' as int
    ensures !IsUpper(c) ==> d == c
  {
    if IsUpper(c) then (c as int + ('a' as int - 'A' as int)) as char else c
  }

  /** Lower-case a whole text, character by character. */
  function Lower(s: string): (r: string)
    ensures |r| == |s|
    ensures forall i :: 0 <= i < |s| ==> r[i] == LowerChar(s[i])
    ensures !HasUpper(r)
  {
    seq(|s|, i requires 0 <= i < |s| => LowerChar(s[i]))
  }

  /** Two texts that differ at most in the case of their ASCII letters. */
  predicate SameUpToCase(s: string, t: string) {
    |s| == |t| && forall i :: 0 <= i < |s| ==> LowerChar(s[i]) == LowerChar(t[i])
  }

  /** `t` occurs in `s` as a contiguous substring; the empty text occurs in every text. */
  predicate Contains(s: string, t: string) {
    exists i :: 0 <= i <= |s| - |t| && t <= s[i..]
  }

  /** Lower-casing leaves a text with no upper-case letter unchanged. */
  lemma LowerOfLowerCase(s: string)
    requires !HasUpper(s)
    ensures Lower(s) == s
  {
    forall i | 0 <= i < |s|
      ensures Lower(s)[i] == s[i]
    {
      assert !IsUpper(s[i]);
    }
  }

  /** Texts that agree up to case have the same lower-cased form. */
  lemma LowerSameUpToCase(s: string, t: string)
    requires SameUpToCase(s, t)
    ensures Lower(s) == Lower(t)
  {
  }

  /** Every text contains the empty text and itself. */
  lemma ContainsEmptyAndSelf(s: string)
    ensures Contains(s, "")
    ensures Contains(s, s)
  {
    assert "" <= s[0..];
    assert s <= s[0..];
  }

  /** A text with no upper-case letter never contains one that has an upper-case letter. */
  lemma NoUpperContainsNoUpper(s: string, t: string)
    requires !HasUpper(s)
    requires Contains(s, t)
    ensures !HasUpper(t)
  {
    var i :| 0 <= i <= |s| - |t| && t <= s[i..];
    forall j | 0 <= j < |t|
      ensures !IsUpper(t[j])
    {
      assert t[j] == s[i + j];
    }
  }
}
