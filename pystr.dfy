/**
 * Python's `str.strip()` with no argument: it removes the leading and
 * trailing characters for which `str.isspace()` holds.
 */
module PyStr {

  /** The characters Python's `str.isspace()` accepts. */
  predicate IsSpace(c: char)
  {
    || c == ' '
    || '\t' <= c <= '\r'
    || '\U{1c}' <= c <= '\U{1f}'
    || c == '\U{85}' || c == '\U{a0}' || c == '\U{1680}'
    || '\U{2000}' <= c <= '\U{200a}'
    || c == '\U{2028}' || c == '\U{2029}' || c == '\U{202f}'
    || c == '\U{205f}' || c == '\U{3000}'
  }

  /** Every character of `s` is whitespace (the empty string included). */
  predicate AllSpace(s: string)
  {
    forall k :: 0 <= k < |s| ==> IsSpace(s[k])
  }

  /** The length of the longest all-whitespace prefix of `s`. */
  function LeadingSpaces(s: string): (n: nat)
    ensures n <= |s|
    ensures forall k :: 0 <= k < n ==> IsSpace(s[k])
    ensures n < |s| ==> !IsSpace(s[n])
  {
    if s == [] || !IsSpace(s[0]) then 0 else LeadingSpaces(s[1..]) + 1
  }

  /** The length of the longest all-whitespace suffix of `s`. */
  function TrailingSpaces(s: string): (n: nat)
    ensures n <= |s|
    ensures forall k :: |s| - n <= k < |s| ==> IsSpace(s[k])
    ensures n < |s| ==> !IsSpace(s[|s| - 1 - n])
  {
    if s == [] || !IsSpace(s[|s| - 1]) then 0 else TrailingSpaces(s[..|s| - 1]) + 1
  }

  /**
   * `s.strip()`: the slice of `s` left once its leading and trailing
   * whitespace is removed. Only whitespace is removed, and the result
   * neither starts nor ends with whitespace; it is empty exactly when
   * `s` is all whitespace.
   */
  function Strip(s: string): (r: string)
    ensures var i := LeadingSpaces(s);
      && i + |r| <= |s|
      && r == s[i..i + |r|]
      && (forall k :: 0 <= k < i ==> IsSpace(s[k]))
      && (forall k :: i + |r| <= k < |s| ==> IsSpace(s[k]))
    ensures r != [] ==> !IsSpace(r[0]) && !IsSpace(r[|r| - 1])
    ensures r == [] <==> AllSpace(s)
  {
    var i := LeadingSpaces(s);
    var rest := s[i..];
    var n := TrailingSpaces(rest);
    assert forall k :: i + |rest| - n <= k < |s| ==> s[k] == rest[k - i];
    rest[..|rest| - n]
  }

  /** One space on each side of a word is removed, and nothing else. */
  lemma StripPadded()
    ensures Strip(" Gifts ") == "Gifts"
  {
    assert !IsSpace('G') && !IsSpace('s') && IsSpace(' ');
    assert " Gifts "[1..] == "Gifts ";
    assert LeadingSpaces("Gifts ") == 0;
    assert LeadingSpaces(" Gifts ") == 1;
    assert "Gifts "[..5] == "Gifts";
    assert TrailingSpaces("Gifts") == 0;
    assert TrailingSpaces("Gifts ") == 1;
  }
}
