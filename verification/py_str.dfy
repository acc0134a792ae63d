/**
 The two pieces of Python string behaviour the file handler relies on:
 `str.lower()` (used to compare an extension case-insensitively when opening)
 and `str.endswith()` (used, case-sensitively, to pick an encoder when saving).
 */
module PyStr {

  /** Lower-cases one ASCII letter and leaves every other character alone. */
  function LowerChar(c: char): char
  {
    if 'A' <= c <= 'Z' then (c as int + 32) as char else c
  }

  /** True iff `c` is an ASCII upper-case letter. */
  predicate IsUpper(c: char)
  {
    'A' <= c <= 'Z'
  }

  /** `s.lower()`, character by character. */
  function Lower(s: string): (r: string)
    ensures |r| == |s|
    ensures forall i :: 0 <= i < |s| ==> r[i] == LowerChar(s[i])
    ensures forall i :: 0 <= i < |r| ==> !IsUpper(r[i])
  {
    if s == [] then [] else [LowerChar(s[0])] + Lower(s[1..])
  }

  /** Lower-casing twice is lower-casing once. */
  lemma LowerIdempotent(s: string)
    ensures Lower(Lower(s)) == Lower(s)
  {
    var once := Lower(s);
    assert forall i :: 0 <= i < |once| ==> LowerChar(once[i]) == once[i];
  }

  /** A string without upper-case letters is its own lower-case form. */
  lemma LowerOfLowerCase(s: string)
    requires forall i :: 0 <= i < |s| ==> !IsUpper(s[i])
    ensures Lower(s) == s
  {
  }

  /** `s.endswith(suffix)`: the last |suffix| characters of `s` are `suffix`. */
  predicate EndsWith(s: string, suffix: string)
  {
    |suffix| <= |s| && s[|s| - |suffix|..] == suffix
  }

  /** `endswith` as concatenation: `s` ends with `suffix` exactly when some prefix followed by `suffix` is `s`. */
  lemma EndsWithIffConcat(s: string, suffix: string)
    ensures EndsWith(s, suffix) <==> exists p :: s == p + suffix
  {
    if EndsWith(s, suffix) {
      var p := s[..|s| - |suffix|];
      assert s == p + suffix;
    }
    if p :| s == p + suffix {
      assert s[|s| - |suffix|..] == suffix;
    }
  }

  /** A string does not end with a suffix whose last character differs from its own. */
  lemma LastCharRulesOut(s: string, suffix: string)
    requires |s| > 0 && |suffix| > 0 && s[|s| - 1] != suffix[|suffix| - 1]
    ensures !EndsWith(s, suffix)
  {
  }

  /** Two suffixes of one string agree, character for character, counting from the end. */
  lemma EndsWithAgree(s: string, a: string, b: string, k: nat)
    requires EndsWith(s, a) && EndsWith(s, b) && 1 <= k <= |a| && k <= |b|
    ensures a[|a| - k] == b[|b| - k]
  {
    assert a[|a| - k] == s[|s| - |a|..][|a| - k] == s[|s| - k];
    assert b[|b| - k] == s[|s| - |b|..][|b| - k] == s[|s| - k];
  }
}
