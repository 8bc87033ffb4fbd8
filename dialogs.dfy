/**
 * The add-site dialog's `get_inputs`: the two line-edit texts, each passed
 * through Python's `str.strip()` with no argument.
 */
module Dialogs {

  /**
   * Python's `str.isspace()` for one character: the characters that
   * `str.strip()` with no argument removes.
   */
  predicate IsSpace(c: char) {
    || '\t' <= c <= '\r'
    || '\U{1C}' <= c <= '\U{1F}'
    || c == ' '
    || c == '\U{85}'
    || c == '\U{A0}'
    || c == '\U{1680}'
    || '\U{2000}' <= c <= '\U{200A}'
    || c == '\U{2028}'
    || c == '\U{2029}'
    || c == '\U{202F}'
    || c == '\U{205F}'
    || c == '\U{3000}'
  }

  /** Neither the first nor the last character is whitespace. */
  predicate IsTrimmed(s: string) {
    s == [] || (!IsSpace(s[0]) && !IsSpace(s[|s| - 1]))
  }

  predicate AllSpace(s: string) {
    forall k :: 0 <= k < |s| ==> IsSpace(s[k])
  }

  /** How many characters the left-hand scan of `strip` skips. */
  function LeadingSpace(s: string): (n: nat)
    ensures n <= |s|
    ensures AllSpace(s[..n])
    ensures n < |s| ==> !IsSpace(s[n])
  {
    if s == [] || !IsSpace(s[0]) then 0
    else
      var n := 1 + LeadingSpace(s[1..]);
      assert s[1..][..n - 1] == s[1..n];
      n
  }

  /** How many characters the right-hand scan of `strip` skips. */
  function TrailingSpace(s: string): (n: nat)
    ensures n <= |s|
    ensures AllSpace(s[|s| - n..])
    ensures n < |s| ==> !IsSpace(s[|s| - n - 1])
  {
    if s == [] || !IsSpace(s[|s| - 1]) then 0
    else
      var t := s[..|s| - 1];
      var n := 1 + TrailingSpace(t);
      assert s[|s| - n..] == t[|t| - (n - 1)..] + [s[|s| - 1]];
      n
  }

  /**
   * `str.strip()`: the slice between the leading and the trailing run of
   * whitespace. The right-hand scan runs on what the left-hand scan left.
   */
  function Strip(s: string): (r: string)
    ensures |r| <= |s|
    ensures IsTrimmed(r)
  {
    var t := s[LeadingSpace(s)..];
    t[..|t| - TrailingSpace(t)]
  }

  /** `get_inputs`: the name field and the URL field, both stripped. */
  function GetInputs(nameText: string, urlText: string): (r: (string, string))
    ensures IsTrimmed(r.0) && IsTrimmed(r.1)
    ensures AllSpace(nameText) <==> r.0 == []
    ensures AllSpace(urlText) <==> r.1 == []
  {
    StripEmptyIffAllSpace(nameText);
    StripEmptyIffAllSpace(urlText);
    (Strip(nameText), Strip(urlText))
  }

  /**
   * What `strip` returns is one contiguous slice `s[lo..hi]` of its input,
   * everything cut off on either side is whitespace, and the slice neither
   * starts nor ends with whitespace; so the slice is the largest trimmed one.
   */
  lemma StripIsMaximalSlice(s: string)
    ensures exists lo, hi ::
              && 0 <= lo <= hi <= |s| && Strip(s) == s[lo..hi]
              && AllSpace(s[..lo]) && AllSpace(s[hi..]) && IsTrimmed(s[lo..hi])
  {
    var lo := LeadingSpace(s);
    var t := s[lo..];
    var n := TrailingSpace(t);
    var hi := lo + |t| - n;
    assert Strip(s) == t[..|t| - n] == s[lo..hi];
    assert AllSpace(s[..lo]);
    assert AllSpace(s[hi..]) by {
      assert t[|t| - n..] == s[hi..];
    }
    assert IsTrimmed(s[lo..hi]);
  }

  /** A string with no whitespace at either end is returned unchanged, and only such a string. */
  lemma StripUnchangedIffTrimmed(s: string)
    ensures Strip(s) == s <==> IsTrimmed(s)
  {
    if IsTrimmed(s) {
      assert LeadingSpace(s) == 0;
      assert s[0..] == s;
      assert TrailingSpace(s) == 0;
    }
  }

  /** Stripping twice is stripping once. */
  lemma StripIdempotent(s: string)
    ensures Strip(Strip(s)) == Strip(s)
  {
    StripUnchangedIffTrimmed(Strip(s));
  }

  /** A field that is empty or all whitespace, and only such a field, strips to the empty string. */
  lemma StripEmptyIffAllSpace(s: string)
    ensures Strip(s) == [] <==> AllSpace(s)
  {
    var lo := LeadingSpace(s);
    var t := s[lo..];
    if AllSpace(s) {
      assert lo == |s|;
    }
    if Strip(s) == [] {
      assert lo == |s|;
      assert s[..lo] == s;
    }
  }
}
