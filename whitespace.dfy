/**
 * Python's `str.strip()` with no argument, which the chat wrapper applies to
 * the text the inference engine generates. It removes every leading and
 * trailing character for which `str.isspace()` holds and keeps the rest.
 */
module Whitespace {

  /** The characters Python's `str.isspace()` accepts (its Unicode whitespace set). */
  predicate IsSpace(c: char)
    ensures c == ' ' || c == '\t' || c == '\n' || c == '\r' ==> IsSpace(c)
    ensures IsSpace(c) ==> !('0' <= c <= '9' || 'A' <= c <= 'Z' || 'a' <= c <= 'z' || c == ':')
  {
    var n := c as int;
    || (0x09 <= n <= 0x0D)      // tab, line feed, vertical tab, form feed, carriage return
    || (0x1C <= n <= 0x20)      // file/group/record/unit separators, space
    || n == 0x85 || n == 0xA0
    || n == 0x1680
    || (0x2000 <= n <= 0x200A)
    || n == 0x2028 || n == 0x2029 || n == 0x202F || n == 0x205F
    || n == 0x3000
  }

  predicate AllSpace(s: string) {
    forall i :: 0 <= i < |s| ==> IsSpace(s[i])
  }

  /** Neither the first nor the last character is whitespace. */
  predicate NoOuterSpace(s: string) {
    s == [] || (!IsSpace(s[0]) && !IsSpace(s[|s| - 1]))
  }

  /**
   * The scan from the left: the index of the first character at or after `i`
   * that is not whitespace, or `|s|` if there is none.
   */
  function SkipSpace(s: string, i: nat): (j: nat)
    requires i <= |s|
    ensures i <= j <= |s|
    ensures forall k :: i <= k < j ==> IsSpace(s[k])
    ensures j == |s| || !IsSpace(s[j])
    decreases |s| - i
  {
    if i < |s| && IsSpace(s[i]) then SkipSpace(s, i + 1) else i
  }

  /**
   * The scan from the right, which stops at `lo`: one past the last character
   * before `j` that is not whitespace, or `lo` if there is none.
   */
  function SkipSpaceBack(s: string, lo: nat, j: nat): (k: nat)
    requires lo <= j <= |s|
    ensures lo <= k <= j
    ensures forall m :: k <= m < j ==> IsSpace(s[m])
    ensures k == lo || !IsSpace(s[k - 1])
    decreases j
  {
    if lo < j && IsSpace(s[j - 1]) then SkipSpaceBack(s, lo, j - 1) else j
  }

  /** The number of leading whitespace characters of `s`. */
  function LeadingSpace(s: string): nat {
    SkipSpace(s, 0)
  }

  /**
   * `s.strip()`: the slice of `s` between its leading and its trailing
   * whitespace; no whitespace is left at either end.
   */
  function Strip(s: string): (r: string)
    ensures NoOuterSpace(r)
    ensures |r| <= |s|
  {
    var i := SkipSpace(s, 0);
    s[i..SkipSpaceBack(s, i, |s|)]
  }

  /**
   * What `Strip` keeps is the contiguous slice of `s` that starts after the
   * leading whitespace, and only whitespace is cut on either side.
   */
  lemma StripIsSlice(s: string)
    ensures var i, r := LeadingSpace(s), Strip(s);
      i + |r| <= |s| && r == s[i..i + |r|] && AllSpace(s[..i]) && AllSpace(s[i + |r|..])
  {
  }

  /** Text that already has no outer whitespace is left unchanged. */
  lemma StripKeepsTrimmed(s: string)
    requires NoOuterSpace(s)
    ensures Strip(s) == s
  {
  }

  /** Stripping twice is the same as stripping once. */
  lemma StripIdempotent(s: string)
    ensures Strip(Strip(s)) == Strip(s)
  {
    StripKeepsTrimmed(Strip(s));
  }

  /** Text made only of whitespace strips to the empty string. */
  lemma StripAllSpace(s: string)
    requires AllSpace(s)
    ensures Strip(s) == ""
  {
  }
}
