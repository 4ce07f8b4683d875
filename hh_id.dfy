/**
  `extract_hh_id`: the vacancy number in an hh.ru link, found by searching for
  the pattern `/vacancy/(\d+)` with case folding.
 */
module HhId {
  import opened Wrappers

  /** The literal part of the pattern. */
  const Marker: string := "/vacancy/"

  /** ASCII case folding; the letters of the marker have no other case variants. */
  function FoldAscii(c: char): char {
    if 'A' <= c <= 'Z' then (c as int + 32) as char else c
  }

  /** `\d`, for the ASCII digits. */
  predicate IsDigit(c: char) {
    '0' <= c <= '9'
  }

  /** The pattern matches at position `i`: the marker, case-insensitively, then a digit. */
  predicate MatchAt(s: string, i: int) {
    && 0 <= i
    && i + |Marker| < |s|
    && (forall k :: 0 <= k < |Marker| ==> FoldAscii(s[i + k]) == Marker[k])
    && IsDigit(s[i + |Marker|])
  }

  /** `\d+` from position `j`: the longest run of digits starting there. */
  function DigitRun(s: string, j: nat): (r: string)
    requires j <= |s|
    ensures j + |r| <= |s| && r == s[j..j + |r|]
    ensures forall k :: 0 <= k < |r| ==> IsDigit(r[k])
    ensures j + |r| == |s| || !IsDigit(s[j + |r|])
    decreases |s| - j
  {
    if j < |s| && IsDigit(s[j]) then [s[j]] + DigitRun(s, j + 1) else []
  }

  /** The leftmost match at or after position `from`, as `re.search` scans. */
  function FindMatch(s: string, from: nat): (r: Option<nat>)
    ensures r.Some? ==> from <= r.value && MatchAt(s, r.value)
    ensures r.Some? ==> forall j :: from <= j < r.value ==> !MatchAt(s, j)
    ensures r.None? ==> forall j :: from <= j ==> !MatchAt(s, j)
    decreases |s| - from
  {
    if from + |Marker| >= |s| then None
    else if MatchAt(s, from) then Some(from)
    else FindMatch(s, from + 1)
  }

  /** `extract_hh_id(url)`: `None` for an empty URL or no match, otherwise the
      digits captured by the leftmost match. */
  function ExtractHhId(url: string): (r: Option<string>)
    ensures r.None? <==> url == "" || forall i :: !MatchAt(url, i)
    ensures r.Some? ==> exists i :: FirstMatch(url, i) && r.value == DigitRun(url, i + |Marker|)
  {
    if url == "" then None
    else
      match FindMatch(url, 0)
      case None => None
      case Some(i) => assert FirstMatch(url, i); Some(DigitRun(url, i + |Marker|))
  }

  /** `i` is the leftmost position where the pattern matches. */
  predicate FirstMatch(s: string, i: int) {
    MatchAt(s, i) && forall j :: 0 <= j < i ==> !MatchAt(s, j)
  }

  /** The captured id is a non-empty run of digits that cannot be extended:
      the character after it, if any, is not a digit. */
  lemma HhIdIsNumber(url: string)
    requires ExtractHhId(url).Some?
    ensures var d := ExtractHhId(url).value;
      |d| > 0 && (forall k :: 0 <= k < |d| ==> IsDigit(d[k]))
    ensures exists i :: FirstMatch(url, i) && url[i + |Marker|..i + |Marker| + |ExtractHhId(url).value|] == ExtractHhId(url).value
  {
    var i := FindMatch(url, 0).value;
    assert FirstMatch(url, i);
    var d := DigitRun(url, i + |Marker|);
    assert d[0] == url[i + |Marker|];
  }
}
