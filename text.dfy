/**
 * The two pieces of Python's `str` the core relies on: `strip()` without
 * arguments, and finding a literal substring.
 */
module Text {
  import opened Wrappers

  /**
   * The characters `str.strip()` removes when called without arguments:
   * exactly those for which `str.isspace()` holds (the ASCII controls
   * 0x09-0x0D and 0x1C-0x1F, the space, and the Unicode space separators
   * and line/paragraph separators).
   */
  predicate IsSpace(c: char) {
    || ('\t' <= c <= '\r')
    || ('\U{1C}' <= c <= ' ')
    || c == '\U{85}' || c == '\U{A0}' || c == '\U{1680}'
    || ('\U{2000}' <= c <= '\U{200A}')
    || c == '\U{2028}' || c == '\U{2029}' || c == '\U{202F}' || c == '\U{205F}' || c == '\U{3000}'
  }

  predicate AllSpace(s: string) {
    forall k :: 0 <= k < |s| ==> IsSpace(s[k])
  }

  /** How many whitespace characters `s` starts with. */
  function LeadingSpaces(s: string): (n: nat)
    ensures n <= |s|
    ensures forall k :: 0 <= k < n ==> IsSpace(s[k])
    ensures n < |s| ==> !IsSpace(s[n])
  {
    if |s| > 0 && IsSpace(s[0]) then 1 + LeadingSpaces(s[1..]) else 0
  }

  /** How many whitespace characters `s` ends with. */
  function TrailingSpaces(s: string): (n: nat)
    ensures n <= |s|
    ensures forall k :: |s| - n <= k < |s| ==> IsSpace(s[k])
    ensures n < |s| ==> !IsSpace(s[|s| - n - 1])
  {
    if |s| > 0 && IsSpace(s[|s| - 1]) then 1 + TrailingSpaces(s[..|s| - 1]) else 0
  }

  /**
   * Python's `s.strip()`: the slice of `s` that starts after its leading
   * whitespace and stops where only whitespace is left; neither end of the
   * result is whitespace.
   */
  function Strip(s: string): (r: string)
    ensures var lead := LeadingSpaces(s);
            && lead + |r| <= |s|
            && r == s[lead..lead + |r|]
            && forall k :: lead + |r| <= k < |s| ==> IsSpace(s[k])
    ensures r == [] || (!IsSpace(r[0]) && !IsSpace(r[|r| - 1]))
  {
    var lead := LeadingSpaces(s);
    if lead == |s| then
      []
    else
      var trail := TrailingSpaces(s);
      assert !IsSpace(s[lead]);
      s[lead..|s| - trail]
  }

  /** `Strip` undoes whitespace padding around a text that does not itself start or end with whitespace. */
  lemma {:induction false} StripPadded(lead: string, t: string, trail: string)
    requires AllSpace(lead) && AllSpace(trail)
    requires t == [] || (!IsSpace(t[0]) && !IsSpace(t[|t| - 1]))
    ensures Strip(lead + t + trail) == t
  {
    var s := lead + t + trail;
    if t == [] {
      assert s == (lead + trail) + [];
      assert AllSpace(lead + trail);
      LeadingSpacesPadded(lead + trail, []);
    } else {
      assert s == lead + (t + trail);
      LeadingSpacesPadded(lead, t + trail);
      assert s == (lead + t) + trail;
      assert (lead + t)[|lead + t| - 1] == t[|t| - 1];
      TrailingSpacesPadded(lead + t, trail);
      assert s[|lead|..|s| - |trail|] == t;
    }
  }

  lemma {:induction false} LeadingSpacesPadded(lead: string, rest: string)
    requires AllSpace(lead)
    requires rest == [] || !IsSpace(rest[0])
    ensures LeadingSpaces(lead + rest) == |lead|
  {
    if lead != [] {
      assert (lead + rest)[1..] == lead[1..] + rest;
      LeadingSpacesPadded(lead[1..], rest);
    }
  }

  lemma {:induction false} TrailingSpacesPadded(t: string, trail: string)
    requires AllSpace(trail)
    requires t != [] && !IsSpace(t[|t| - 1])
    ensures TrailingSpaces(t + trail) == |trail|
  {
    if trail != [] {
      assert (t + trail)[..|t + trail| - 1] == t + trail[..|trail| - 1];
      TrailingSpacesPadded(t, trail[..|trail| - 1]);
    }
  }

  /** `pat` occurs in `s` starting at index `i`. */
  predicate OccursAt(s: string, pat: string, i: nat) {
    i + |pat| <= |s| && s[i..i + |pat|] == pat
  }

  /** The first index at or after `from` where `pat` occurs in `s`, if any (Python's `s.find(pat, from)`). */
  function FindFrom(s: string, pat: string, from: nat): (r: Option<nat>)
    ensures r.Some? ==> from <= r.value && OccursAt(s, pat, r.value)
    ensures forall k :: from <= k && (r.None? || k < r.value) ==> !OccursAt(s, pat, k)
    decreases |s| - from
  {
    if |s| < from + |pat| then None
    else if s[from..from + |pat|] == pat then Some(from)
    else FindFrom(s, pat, from + 1)
  }
}
