/** The part of JavaScript's string semantics the chat component relies on:
    `String.prototype.trim` and the truthiness of its result, which is how
    `handleSendMessage` decides whether the pending text may be sent. */
module JsString {

  /** The characters `trim` strips: the WhiteSpace and LineTerminator
      productions of ECMAScript (tab, line tabulation, form feed, space,
      no-break space, byte order mark, the Unicode space separators, and
      LF, CR, line separator, paragraph separator). */
  predicate IsJsWhitespace(c: char) {
    c == '\t' || c == '\n' || c == '\U{000B}' || c == '\U{000C}' || c == '\r' ||
    c == ' ' || c == '\U{00A0}' || c == '\U{1680}' ||
    ('\U{2000}' <= c <= '\U{200A}') ||
    c == '\U{2028}' || c == '\U{2029}' || c == '\U{202F}' || c == '\U{205F}' ||
    c == '\U{3000}' || c == '\U{FEFF}'
  }

  /** Every character of `s` is whitespace (vacuously so for ""). */
  predicate AllWhitespace(s: string) {
    forall i :: 0 <= i < |s| ==> IsJsWhitespace(s[i])
  }

  /** The index of the first character at or after `i` that is not
      whitespace, or |s| if there is none. */
  function ContentStart(s: string, i: nat): (lo: nat)
    requires i <= |s|
    ensures i <= lo <= |s|
    ensures forall k :: i <= k < lo ==> IsJsWhitespace(s[k])
    ensures lo < |s| ==> !IsJsWhitespace(s[lo])
    decreases |s| - i
  {
    if i < |s| && IsJsWhitespace(s[i]) then ContentStart(s, i + 1) else i
  }

  /** One past the last character before `j`, and at or after `lo`, that is
      not whitespace, or `lo` if there is none. */
  function ContentEnd(s: string, lo: nat, j: nat): (hi: nat)
    requires lo <= j <= |s|
    ensures lo <= hi <= j
    ensures forall k :: hi <= k < j ==> IsJsWhitespace(s[k])
    ensures hi > lo ==> !IsJsWhitespace(s[hi - 1])
    decreases j
  {
    if j > lo && IsJsWhitespace(s[j - 1]) then ContentEnd(s, lo, j - 1) else j
  }

  /** `s.trim()`: the characters from where the content starts to where it
      ends; what is cut on either side is whitespace (`ContentStart`,
      `ContentEnd`), and what is kept neither starts nor ends with it. */
  function Trim(s: string): (r: string)
    ensures |r| <= |s|
    ensures r == [] || (!IsJsWhitespace(r[0]) && !IsJsWhitespace(r[|r| - 1]))
  {
    var lo := ContentStart(s, 0);
    s[lo..ContentEnd(s, lo, |s|)]
  }

  /** Where `s.trim()` sits in `s`: between a whitespace prefix and a
      whitespace suffix. */
  lemma TrimBounds(s: string) returns (lo: nat, hi: nat)
    ensures lo <= hi <= |s| && Trim(s) == s[lo..hi]
    ensures AllWhitespace(s[..lo]) && AllWhitespace(s[hi..])
  {
    lo := ContentStart(s, 0);
    hi := ContentEnd(s, lo, |s|);
    forall k | 0 <= k < lo ensures IsJsWhitespace(s[..lo][k]) {
      assert s[..lo][k] == s[k];
    }
    forall k | 0 <= k < |s| - hi ensures IsJsWhitespace(s[hi..][k]) {
      assert s[hi..][k] == s[hi + k];
    }
  }

  lemma SplitThree(s: string, lo: nat, hi: nat)
    requires lo <= hi <= |s|
    ensures s == s[..lo] + s[lo..hi] + s[hi..]
  {
    assert s[..hi] == s[..lo] + s[lo..hi];
    assert s == s[..hi] + s[hi..];
  }

  /** What `trim` cuts is whitespace only: the input is some whitespace,
      then the trimmed text, then some more whitespace. Together with the
      ends of `Trim`'s result not being whitespace, this pins the result
      down exactly. */
  lemma TrimCutsOnlyWhitespace(s: string)
    ensures exists p, q :: s == p + Trim(s) + q && AllWhitespace(p) && AllWhitespace(q)
  {
    var lo, hi := TrimBounds(s);
    SplitThree(s, lo, hi);
    var p, q := s[..lo], s[hi..];
    assert s == p + Trim(s) + q && AllWhitespace(p) && AllWhitespace(q);
  }

  /** The guard `if (text.trim())`: a JavaScript string is falsy exactly when
      it is empty, so the text counts as blank when trimming leaves nothing. */
  predicate IsBlank(s: string) {
    Trim(s) == []
  }

  /** Blank text is exactly text made of whitespace only: "" and "   " are
      blank, "hi" and " hi " are not. */
  lemma BlankIffAllWhitespace(s: string)
    ensures IsBlank(s) <==> AllWhitespace(s)
  {
    var lo := ContentStart(s, 0);
    var hi := ContentEnd(s, lo, |s|);
    if AllWhitespace(s) {
      assert lo == |s|;
    }
  }

  /** "" and "   " are blank; "hi" is not. */
  lemma BlankExamples()
    ensures IsBlank("") && IsBlank("   ") && !IsBlank("hi")
  {
    BlankIffAllWhitespace("   ");
    assert !IsJsWhitespace("hi"[0]);
    BlankIffAllWhitespace("hi");
  }
}
