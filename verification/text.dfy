/** Python's `str.strip()` with no argument, the only text operation the
    request handlers apply to user input. */
module Text {

  /** The characters for which Python's `str.isspace()` holds: the C0
      controls TAB..CR and FS..US, SPACE, NEL, NO-BREAK SPACE, and the
      Unicode space separators and line/paragraph separators. */
  predicate IsSpace(c: char) {
    || ('\t' <= c <= '\r')
    || ('\U{1C}' <= c <= ' ')
    || c == '\U{85}'
    || c == '\U{A0}'
    || c == '\U{1680}'
    || ('\U{2000}' <= c <= '\U{200A}')
    || c == '\U{2028}'
    || c == '\U{2029}'
    || c == '\U{202F}'
    || c == '\U{205F}'
    || c == '\U{3000}'
  }

  /** Every character of `s` is whitespace (true of the empty string):
      exactly the strings whose strip is empty, i.e. falsy in Python. */
  predicate IsBlank(s: string) {
    forall k :: 0 <= k < |s| ==> IsSpace(s[k])
  }

  /** Every character of `s` from index `lo` up to (not including) `hi` is
      whitespace. */
  predicate SpacesBetween(s: string, lo: nat, hi: nat)
    requires lo <= hi <= |s|
  {
    forall k :: lo <= k < hi ==> IsSpace(s[k])
  }

  /** Neither end of `s` is whitespace. */
  predicate Trimmed(s: string) {
    s == [] || (!IsSpace(s[0]) && !IsSpace(s[|s| - 1]))
  }

  /** `r` is what is left of `s` once whitespace is cut from both ends:
      a slice of `s`, with only whitespace outside it and none at its ends. */
  ghost predicate IsStripOf(r: string, s: string) {
    exists i, j :: 0 <= i <= j <= |s| && s[i..j] == r
      && SpacesBetween(s, 0, i) && SpacesBetween(s, j, |s|) && Trimmed(r)
  }

  /** The index of the first non-space character of `s` at or after `i`,
      or `|s|` when there is none. */
  function SkipSpaces(s: string, i: nat): (k: nat)
    requires i <= |s|
    ensures i <= k <= |s|
    ensures SpacesBetween(s, i, k)
    ensures k < |s| ==> !IsSpace(s[k])
    decreases |s| - i
  {
    if i < |s| && IsSpace(s[i]) then SkipSpaces(s, i + 1) else i
  }

  /** The index just past the last non-space character of `s` before `j`
      and not before `lo`, or `lo` when there is none. */
  function SkipSpacesBack(s: string, lo: nat, j: nat): (k: nat)
    requires lo <= j <= |s|
    ensures lo <= k <= j
    ensures SpacesBetween(s, k, j)
    ensures lo < k ==> !IsSpace(s[k - 1])
    decreases j - lo
  {
    if lo < j && IsSpace(s[j - 1]) then SkipSpacesBack(s, lo, j - 1) else j
  }

  /** Python's `s.strip()`: the slice between the first non-space
      character and the end of the last one. */
  function Strip(s: string): (r: string)
    ensures Trimmed(r)
    ensures |r| <= |s|
    ensures r == [] <==> IsBlank(s)
  {
    var i := SkipSpaces(s, 0);
    var j := SkipSpacesBack(s, i, |s|);
    assert i == |s| ==> IsBlank(s);
    s[i..j]
  }

  /** `Strip` meets its characterisation: it cuts only whitespace, from
      the two ends, and leaves none there. */
  lemma StripIsStripOf(s: string)
    ensures IsStripOf(Strip(s), s)
  {
    var i := SkipSpaces(s, 0);
    var j := SkipSpacesBack(s, i, |s|);
    assert s[i..j] == Strip(s);
  }

  /** The characterisation of `Strip` is complete: any slice of `s` that
      has only whitespace around it and none at its ends is `Strip(s)`. */
  lemma StripOfUnique(r: string, s: string)
    requires IsStripOf(r, s)
    ensures r == Strip(s)
  {
  }

  /** A string that is already trimmed is its own strip. */
  lemma StripTrimmed(s: string)
    requires Trimmed(s)
    ensures Strip(s) == s
  {
    assert s[0..|s|] == s;
    StripOfUnique(s, s);
  }

  /** Stripping twice is stripping once. */
  lemma StripIdempotent(s: string)
    ensures Strip(Strip(s)) == Strip(s)
  {
    StripTrimmed(Strip(s));
  }

  /** Text between a trimmed non-empty start and a trimmed non-empty end is
      trimmed, whatever lies between them. */
  lemma TrimmedJoin(a: string, middle: string, b: string)
    requires Trimmed(a) && a != []
    requires Trimmed(b) && b != []
    ensures Trimmed(a + middle + b) && a + middle + b != []
  {
    var p := a + middle + b;
    assert p[0] == a[0];
    assert p == (a + middle) + b;
    assert p[|p| - 1] == b[|b| - 1];
  }
}
