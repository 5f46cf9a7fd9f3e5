/** The Python string operations the parsers use: `startswith`, `endswith`,
    `split`, `join` and the slice `s[:-n]`. */
module Text {
  import opened Common

  predicate StartsWith(s: string, prefix: string) {
    |prefix| <= |s| && s[..|prefix|] == prefix
  }

  predicate EndsWith(s: string, suffix: string) {
    |suffix| <= |s| && s[|s| - |suffix|..] == suffix
  }

  /** `sep` occurs in `s` starting at index `i`. */
  predicate OccursAt(s: string, sep: string, i: int) {
    0 <= i && i + |sep| <= |s| && s[i..i + |sep|] == sep
  }

  /** The first index at or after `i` where `sep` occurs (`str.find`). */
  function FindFrom(s: string, sep: string, i: nat): (r: Option<nat>)
    requires |sep| > 0 && i <= |s|
    ensures r.Some? ==> i <= r.value && OccursAt(s, sep, r.value)
    ensures r.Some? ==> forall j :: i <= j < r.value ==> !OccursAt(s, sep, j)
    ensures r.None? ==> forall j :: i <= j ==> !OccursAt(s, sep, j)
    decreases |s| - i
  {
    if i + |sep| > |s| then None
    else if s[i..i + |sep|] == sep then Some(i)
    else FindFrom(s, sep, i + 1)
  }

  /** `s.split(sep)` for a non-empty separator: the pieces between the
      left-most non-overlapping occurrences of `sep`. */
  function Split(s: string, sep: string): (r: seq<string>)
    requires |sep| > 0
    ensures |r| >= 1
    decreases |s|
  {
    match FindFrom(s, sep, 0)
    case None => [s]
    case Some(i) => [s[..i]] + Split(s[i + |sep|..], sep)
  }

  /** `sep.join(parts)`. */
  function Join(parts: seq<string>, sep: string): string {
    if |parts| == 0 then ""
    else if |parts| == 1 then parts[0]
    else parts[0] + sep + Join(parts[1..], sep)
  }

  /** `s[:-n]` for `n > 0`: everything but the last `n` characters, or the
      empty string when `s` is shorter than `n`. */
  function DropLast(s: string, n: nat): (r: string)
    ensures |s| >= n ==> s == r + s[|s| - n..]
    ensures |s| < n ==> r == ""
  {
    if |s| >= n then s[..|s| - n] else ""
  }

  /** No window of `s` that starts before `|a|` matches `sep`, when the
      marker character `sep[k]` occurs neither in `a` nor earlier in `sep`. */
  lemma {:induction false} NoOccurrenceBefore(a: string, sep: string, b: string, k: nat, j: int)
    requires k < |sep| && sep[k] !in a && sep[k] !in sep[..k]
    requires 0 <= j < |a|
    ensures !OccursAt(a + sep + b, sep, j)
  {
    var s := a + sep + b;
    if j + |sep| <= |s| {
      if j + k < |a| {
        assert s[j + k] == a[j + k];
      } else {
        assert s[j + k] == sep[..k][j + k - |a|];
      }
      assert s[j..j + |sep|][k] == s[j + k] != sep[k];
    }
  }

  /** Splitting `a + sep + b` yields `a` first when `a` cannot hide an
      occurrence of `sep`. */
  lemma SplitAtMarker(a: string, sep: string, b: string, k: nat)
    requires k < |sep| && sep[k] !in a && sep[k] !in sep[..k]
    ensures Split(a + sep + b, sep) == [a] + Split(b, sep)
  {
    var s := a + sep + b;
    assert OccursAt(s, sep, |a|) by { assert s[|a|..|a| + |sep|] == sep; }
    forall j | 0 <= j < |a| ensures !OccursAt(s, sep, j) {
      NoOccurrenceBefore(a, sep, b, k, j);
    }
    assert FindFrom(s, sep, 0) == Some(|a|);
    assert s[..|a|] == a;
    assert s[|a| + |sep|..] == b;
  }

  /** A string without the marker character of `sep` is not split at all. */
  lemma SplitWithoutMarker(a: string, sep: string, k: nat)
    requires k < |sep| && sep[k] !in a
    ensures Split(a, sep) == [a]
  {
    forall i: int ensures !OccursAt(a, sep, i) {
      if 0 <= i && i + |sep| <= |a| {
        assert a[i..i + |sep|][k] == a[i + k] != sep[k];
      }
    }
  }

  /** Splitting `a + sep + b` at `sep` gives exactly `a` and `b` when the
      marker character `sep[k]` occurs in neither. */
  lemma SplitPair(a: string, sep: string, b: string, k: nat)
    requires k < |sep| && sep[k] !in a && sep[k] !in b && sep[k] !in sep[..k]
    ensures Split(a + sep + b, sep) == [a, b]
  {
    SplitAtMarker(a, sep, b, k);
    SplitWithoutMarker(b, sep, k);
  }

  /** Joining with a one-character separator and splitting again gives the
      parts back, when no part contains the separator. */
  lemma {:induction false} SplitJoin(parts: seq<string>, c: char)
    requires |parts| >= 1
    requires forall p :: p in parts ==> c !in p
    ensures Split(Join(parts, [c]), [c]) == parts
    decreases |parts|
  {
    if |parts| == 1 {
      SplitWithoutMarker(parts[0], [c], 0);
    } else {
      SplitJoin(parts[1..], c);
      SplitAtMarker(parts[0], [c], Join(parts[1..], [c]), 0);
    }
  }
}
