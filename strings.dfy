/** The few string operations of JavaScript that the services use:
    ASCII `toLowerCase`, `includes`/`indexOf`, `replace` with a string
    pattern, `Array.prototype.join` and the decimal rendering of a number. */
module Strings {
  import opened Wrappers

  function LowerChar(c: char): char {
    if 'A' <= c <= 'Z' then (c as int - 'A' as int + 'a' as int) as char else c
  }

  /** `toLowerCase`, restricted to the ASCII letters. */
  function Lower(s: string): (r: string)
    ensures |r| == |s|
    ensures forall i :: 0 <= i < |s| ==> r[i] == LowerChar(s[i])
  {
    seq(|s|, i requires 0 <= i < |s| => LowerChar(s[i]))
  }

  /** Lower-casing distributes over concatenation. */
  lemma LowerConcat(a: string, b: string)
    ensures Lower(a + b) == Lower(a) + Lower(b)
  {
    assert forall i :: 0 <= i < |a + b| ==> Lower(a + b)[i] == (Lower(a) + Lower(b))[i];
  }

  /** `pat` occurs in `s` starting at index `k`. */
  predicate OccursAt(s: string, pat: string, k: nat) {
    k + |pat| <= |s| && s[k..k + |pat|] == pat
  }

  /** The first index at or after `k` where `pat` occurs. */
  function IndexOfFrom(s: string, pat: string, k: nat): (r: Option<nat>)
    requires k <= |s|
    decreases |s| - k
    ensures r.Some? ==> k <= r.value && OccursAt(s, pat, r.value)
    ensures r.Some? ==> forall j :: k <= j < r.value ==> !OccursAt(s, pat, j)
    ensures r.None? ==> forall j :: k <= j ==> !OccursAt(s, pat, j)
  {
    if OccursAt(s, pat, k) then Some(k)
    else if k == |s| then None
    else IndexOfFrom(s, pat, k + 1)
  }

  /** `s.indexOf(pat)`, with `None` for -1. */
  function IndexOf(s: string, pat: string): Option<nat> {
    IndexOfFrom(s, pat, 0)
  }

  /** `s.includes(pat)`. */
  predicate Contains(s: string, pat: string) {
    IndexOf(s, pat).Some?
  }

  /** `pat` occurs in `s` exactly when some index holds it. */
  lemma ContainsOccurrence(s: string, pat: string, k: nat)
    requires OccursAt(s, pat, k)
    ensures Contains(s, pat)
  {
  }

  /** Whatever stands between `a` and `b` is contained in `a + x + b`. */
  lemma ContainsPrefix(x: string, b: string)
    ensures Contains(x + b, x)
  {
    assert (x + b)[0..|x|] == x;
    ContainsOccurrence(x + b, x, 0);
  }

  lemma ContainsMiddle(a: string, x: string, b: string)
    ensures Contains(a + x + b, x)
  {
    var s := a + x + b;
    assert s[|a|..|a| + |x|] == x;
    ContainsOccurrence(s, x, |a|);
  }

  /** `s.replace(pat, rep)` with a string pattern: only the first occurrence
      is replaced. */
  function ReplaceFirst(s: string, pat: string, rep: string): string {
    match IndexOf(s, pat)
    case None => s
    case Some(k) => s[..k] + rep + s[k + |pat|..]
  }

  /** Replacing a pattern that splits `s` at its first occurrence puts the
      replacement exactly there. */
  lemma ReplaceFirstAt(a: string, pat: string, b: string, rep: string)
    requires forall j :: 0 <= j < |a| ==> !OccursAt(a + pat + b, pat, j)
    ensures ReplaceFirst(a + pat + b, pat, rep) == a + rep + b
  {
    var s := a + pat + b;
    assert OccursAt(s, pat, |a|) by { assert s[|a|..|a| + |pat|] == pat; }
    assert s[..|a|] == a;
    assert s[|a| + |pat|..] == b;
  }

  /** A pattern whose first character does not recur in it cannot start
      inside `a` and run into its own next occurrence: if `a` does not
      contain it, `replace` acts on the occurrence right after `a`. */
  lemma ReplaceFirstAfter(a: string, pat: string, b: string, rep: string)
    requires |pat| > 0
    requires forall d :: 1 <= d < |pat| ==> pat[d] != pat[0]
    requires !Contains(a, pat)
    ensures ReplaceFirst(a + pat + b, pat, rep) == a + rep + b
  {
    var s := a + pat + b;
    forall j | 0 <= j < |a|
      ensures !OccursAt(s, pat, j)
    {
      if j + |pat| <= |a| {
        assert a[j..j + |pat|] == s[j..j + |pat|];
        if OccursAt(s, pat, j) {
          ContainsOccurrence(a, pat, j);
        }
      } else {
        var d := |a| - j;
        assert s[j..j + |pat|][d] == pat[0] != pat[d];
      }
    }
    ReplaceFirstAt(a, pat, b, rep);
  }

  /** Replacing a one-character pattern that splits `s` at its first
      occurrence puts the replacement exactly there. */
  lemma {:induction false} ReplaceFirstChar(a: string, c: char, b: string, rep: string)
    requires c !in a
    ensures ReplaceFirst(a + [c] + b, [c], rep) == a + rep + b
  {
    var s := a + [c] + b;
    assert OccursAt(s, [c], |a|) by { assert s[|a|..|a| + 1] == [c]; }
    assert forall j :: 0 <= j < |a| ==> !OccursAt(s, [c], j) by {
      forall j | 0 <= j < |a| ensures !OccursAt(s, [c], j) {
        assert s[j..j + 1] == [a[j]];
      }
    }
    assert s[..|a|] == a;
    assert s[|a| + 1..] == b;
  }

  /** A string without the pattern is left unchanged by `replace`. */
  lemma ReplaceFirstAbsent(s: string, pat: string, rep: string)
    requires forall k: nat :: !OccursAt(s, pat, k)
    ensures ReplaceFirst(s, pat, rep) == s
  {
  }

  /** `parts.join(sep)`. */
  function Join(parts: seq<string>, sep: string): string
    decreases |parts|
  {
    if |parts| == 0 then ""
    else if |parts| == 1 then parts[0]
    else parts[0] + sep + Join(parts[1..], sep)
  }

  /** Joining one more part adds the separator and the part at the end. */
  lemma {:induction false} JoinSnoc(parts: seq<string>, p: string, sep: string)
    requires |parts| > 0
    ensures Join(parts + [p], sep) == Join(parts, sep) + sep + p
  {
    if |parts| == 1 {
      assert (parts + [p])[1..] == [p];
    } else {
      assert (parts + [p])[1..] == parts[1..] + [p];
      JoinSnoc(parts[1..], p, sep);
    }
  }

  function DigitChar(d: nat): char
    requires d < 10
  {
    ('0' as int + d) as char
  }

  /** The decimal rendering of a number, as in `${n}` for a non-negative
      integer. */
  function NatToString(n: nat): (r: string)
    ensures |r| > 0
    ensures forall i :: 0 <= i < |r| ==> '0' <= r[i] <= '9'
  {
    if n < 10 then [DigitChar(n)] else NatToString(n / 10) + [DigitChar(n % 10)]
  }

  /** Reads a string of decimal digits back as a number. */
  function DecimalValue(s: string): nat
    requires forall i :: 0 <= i < |s| ==> '0' <= s[i] <= '9'
  {
    if s == [] then 0
    else 10 * DecimalValue(s[..|s| - 1]) + (s[|s| - 1] as int - '0' as int)
  }

  /** The decimal rendering loses nothing: reading it back gives the number. */
  lemma {:induction false} NatToStringRoundTrip(n: nat)
    ensures DecimalValue(NatToString(n)) == n
  {
    var r := NatToString(n);
    if n >= 10 {
      NatToStringRoundTrip(n / 10);
      assert r[..|r| - 1] == NatToString(n / 10);
    }
  }
}
