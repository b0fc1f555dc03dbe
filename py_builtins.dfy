/** The handful of Python built-ins the overlay's logic leans on, stated
    exactly: `None`-or-value results, `str.isspace`, `str.strip()`,
    `str.replace(pat, "")` and `int()` applied to a float. */
module PyBuiltins {

  datatype Option<+T> = None | Some(value: T)

  /** `str.isspace()` of a one-character string; the regex class `\s` of a
      `str` pattern and the argument-less `strip()` use the same table. */
  predicate IsSpace(c: char) {
    ('\t' <= c <= '\r') || ('\U{1C}' <= c <= ' ') || c == '\U{85}' || c == '\U{A0}' ||
    c == '\U{1680}' || ('\U{2000}' <= c <= '\U{200A}') || c == '\U{2028}' || c == '\U{2029}' ||
    c == '\U{202F}' || c == '\U{205F}' || c == '\U{3000}'
  }

  predicate AllSpace(s: string) {
    forall k :: 0 <= k < |s| ==> IsSpace(s[k])
  }

  /** True when `s` neither starts nor ends with whitespace. */
  predicate Trimmed(s: string) {
    s == [] || (!IsSpace(s[0]) && !IsSpace(s[|s| - 1]))
  }

  /** End of the whitespace run of `s` that starts at `i`. */
  function SpaceRunEnd(s: string, i: nat): (j: nat)
    requires i <= |s|
    ensures i <= j <= |s| && AllSpace(s[i..j]) && (j == |s| || !IsSpace(s[j]))
    decreases |s| - i
  {
    if i < |s| && IsSpace(s[i]) then
      var j := SpaceRunEnd(s, i + 1);
      assert s[i..j] == [s[i]] + s[i + 1..j];
      j
    else i
  }

  /** Start of the whitespace run of `s` that ends at `j`, not going
      below `lo`. */
  function SpaceRunStart(s: string, lo: nat, j: nat): (i: nat)
    requires lo <= j <= |s|
    ensures lo <= i <= j && AllSpace(s[i..j]) && (i == lo || !IsSpace(s[i - 1]))
    decreases j
  {
    if lo < j && IsSpace(s[j - 1]) then
      var i := SpaceRunStart(s, lo, j - 1);
      assert s[i..j] == s[i..j - 1] + [s[j - 1]];
      i
    else j
  }

  /** `s.strip()`: the longest infix of `s` that neither starts nor ends
      with whitespace, once the whitespace around it is removed. */
  function Strip(s: string): (r: string)
    ensures Trimmed(r)
    ensures exists i :: 0 <= i <= |s| - |r| && r == s[i..i + |r|] && AllSpace(s[..i]) && AllSpace(s[i + |r|..])
  {
    var i := SpaceRunEnd(s, 0);
    var j := SpaceRunStart(s, i, |s|);
    assert s[..i] == s[0..i] && s[j..] == s[j..|s|];
    s[i..j]
  }

  /** Stripping is idempotent, which is why the second `strip()` calls in
      the title parser change nothing. */
  lemma StripTrimmed(s: string)
    requires Trimmed(s)
    ensures Strip(s) == s
  {
  }

  /** `s.startswith(pat)` at index `i`. */
  predicate OccursAt(s: string, pat: string, i: int) {
    0 <= i && i + |pat| <= |s| && s[i..i + |pat|] == pat
  }

  /** `s.replace(pat, "")`: removes the non-overlapping occurrences of
      `pat` found scanning left to right. An empty `pat` leaves `s` as it
      is (Python inserts the empty replacement between characters). */
  function RemoveAll(s: string, pat: string): (r: string)
    ensures |r| <= |s|
    ensures pat == [] ==> r == s
    decreases |s|
  {
    if pat == [] || |s| < |pat| then s
    else if s[..|pat|] == pat then RemoveAll(s[|pat|..], pat)
    else [s[0]] + RemoveAll(s[1..], pat)
  }

  /** Partner of RemoveAll: a string in which `pat` never occurs comes back
      unchanged. */
  lemma {:induction false} RemoveAllAbsent(s: string, pat: string)
    requires forall i :: !OccursAt(s, pat, i)
    ensures RemoveAll(s, pat) == s
    decreases |s|
  {
    if pat == [] || |s| < |pat| {
    } else {
      assert !OccursAt(s, pat, 0);
      assert s[..|pat|] != pat;
      forall i ensures !OccursAt(s[1..], pat, i) {
        if OccursAt(s[1..], pat, i) {
          assert s[1..][i..i + |pat|] == s[i + 1..i + 1 + |pat|];
          assert OccursAt(s, pat, i + 1);
        }
      }
      RemoveAllAbsent(s[1..], pat);
      assert s == [s[0]] + s[1..];
    }
  }

  /** A title made only of the player's name is emptied by the removal. */
  lemma {:induction false} RemoveAllRepeated(pat: string, n: nat)
    requires pat != []
    ensures RemoveAll(Repeat(pat, n), pat) == []
  {
    if n > 0 {
      var s := Repeat(pat, n);
      assert s[..|pat|] == pat && s[|pat|..] == Repeat(pat, n - 1);
      RemoveAllRepeated(pat, n - 1);
    }
  }

  function Repeat(pat: string, n: nat): (r: string)
    ensures |r| == n * |pat|
  {
    if n == 0 then [] else pat + Repeat(pat, n - 1)
  }

  /** Python's `int(x)` on a float: truncation toward zero, which differs
      from Dafny's `Floor` for negative `x`. */
  function Trunc(x: real): (r: int)
    ensures x >= 0.0 ==> r as real <= x < r as real + 1.0
    ensures x < 0.0 ==> r as real - 1.0 < x <= r as real
  {
    if x >= 0.0 then x.Floor else -((-x).Floor)
  }
}
