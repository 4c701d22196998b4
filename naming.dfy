/**
 * Derivation of a flat file name from a hierarchical parameter-store key:
 * strip every leading and trailing '/', then turn each remaining '/' into '-'.
 */
module Naming {

  const Separator: char := '/'
  const Replacement: char := '-'

  /** Every position of `s` in [lo, hi) holds a separator. */
  predicate SeparatorsBetween(s: string, lo: int, hi: int)
    requires 0 <= lo && hi <= |s|
  {
    forall k :: lo <= k < hi ==> s[k] == Separator
  }

  /** Neither end of `s` is a separator. */
  predicate NoEdgeSeparator(s: string) {
    s == [] || (s[0] != Separator && s[|s| - 1] != Separator)
  }

  /** Length of the maximal run of separators at the start of `s`. */
  function LeadingSeparators(s: string): (n: nat)
    ensures n <= |s|
    ensures SeparatorsBetween(s, 0, n)
    ensures n < |s| ==> s[n] != Separator
  {
    if |s| > 0 && s[0] == Separator then
      var rest := LeadingSeparators(s[1..]);
      assert forall k :: 1 <= k < 1 + rest ==> s[k] == s[1..][k - 1];
      1 + rest
    else
      0
  }

  /** Length of the maximal run of separators at the end of `s`. */
  function TrailingSeparators(s: string): (n: nat)
    ensures n <= |s|
    ensures SeparatorsBetween(s, |s| - n, |s|)
    ensures n < |s| ==> s[|s| - n - 1] != Separator
  {
    if |s| > 0 && s[|s| - 1] == Separator then
      var init := s[..|s| - 1];
      var rest := TrailingSeparators(init);
      assert forall k :: |init| - rest <= k < |init| ==> s[k] == init[k];
      1 + rest
    else
      0
  }

  /**
   * `r` is `s` with a run of `i` separators removed in front and a run of
   * separators removed behind, and `r` itself neither starts nor ends with one.
   */
  predicate IsSeparatorTrim(s: string, r: string, i: nat) {
    && i + |r| <= |s|
    && r == s[i..i + |r|]
    && SeparatorsBetween(s, 0, i)
    && SeparatorsBetween(s, i + |r|, |s|)
    && NoEdgeSeparator(r)
  }

  /** lodash `_.trim(s, '/')`: the slice between the first and the last non-separator. */
  function Trim(s: string): (r: string)
    ensures IsSeparatorTrim(s, r, LeadingSeparators(s))
  {
    var start := LeadingSeparators(s);
    if start == |s| then
      []
    else
      var stop := |s| - TrailingSeparators(s);
      assert s[start] != Separator;
      s[start..stop]
  }

  /** Only the maximal runs are stripped: every separator trim of `s` is `Trim(s)`. */
  lemma {:induction false} TrimUnique(s: string, r: string, i: nat)
    requires IsSeparatorTrim(s, r, i)
    ensures r == Trim(s)
    ensures r != [] ==> i == LeadingSeparators(s)
  {
    var lead := LeadingSeparators(s);
    var stop := |s| - TrailingSeparators(s);
    if r == [] {
      assert SeparatorsBetween(s, 0, |s|);
      assert lead == |s|;
    } else {
      var end := i + |r|;
      assert s[i] == r[0] && s[end - 1] == r[|r| - 1];
      assert lead == i;
      assert stop == end;
    }
  }

  /** The character a single input character becomes in a file name. */
  function Flatten(c: char): char {
    if c == Separator then Replacement else c
  }

  /** `_.replace(s, /\//g, '-')`: every separator becomes one replacement character. */
  function ReplaceSeparators(s: string): (r: string)
    ensures |r| == |s|
    ensures forall k :: 0 <= k < |s| ==> r[k] == Flatten(s[k])
  {
    if s == [] then [] else [Flatten(s[0])] + ReplaceSeparators(s[1..])
  }

  /** The file name (without directory and extension) derived from a parameter name. */
  function FileName(name: string): (r: string)
    ensures Separator !in r
    ensures |r| == |Trim(name)|
    ensures forall k :: 0 <= k < |r| ==> r[k] == Flatten(name[LeadingSeparators(name) + k])
  {
    var trimmed := Trim(name);
    var start := LeadingSeparators(name);
    assert trimmed == name[start..start + |trimmed|];
    var r := ReplaceSeparators(trimmed);
    assert forall k :: 0 <= k < |r| ==> r[k] == Flatten(name[start + k]) by {
      forall k | 0 <= k < |r| ensures r[k] == Flatten(name[start + k]) {
        assert trimmed[k] == name[start + k];
      }
    }
    assert forall k :: 0 <= k < |r| ==> r[k] != Separator;
    r
  }

  /** A name that holds no separator is its own file name. */
  lemma {:induction false} FileNameOfFlat(s: string)
    requires Separator !in s
    ensures FileName(s) == s
  {
    TrimUnique(s, s, 0);
  }

  /** Deriving a file name twice changes nothing more. */
  lemma {:induction false} FileNameIdempotent(name: string)
    ensures FileName(FileName(name)) == FileName(name)
  {
    FileNameOfFlat(FileName(name));
  }
}
