/**
 * The few JavaScript string operations the site relies on: `indexOf`,
 * `replace` with a string pattern (which replaces the first occurrence only),
 * `split(sep)[0]`, and the decimal text a template literal gives a
 * non-negative integer.
 */
module Text {
  import opened Wrappers

  /** `pat` occurs in `s` starting at position `i`. */
  predicate OccursAt(s: string, pat: string, i: nat) {
    i + |pat| <= |s| && s[i..i + |pat|] == pat
  }

  /** `i` is the first position at which `pat` occurs in `s`. */
  predicate FirstOccurrence(s: string, pat: string, i: nat) {
    OccursAt(s, pat, i) && forall j: nat :: j < i ==> !OccursAt(s, pat, j)
  }

  /** `s.indexOf(pat, from)`: the first occurrence of `pat` at or after `from`. */
  function IndexFrom(s: string, pat: string, from: nat): (r: Option<nat>)
    ensures r.Some? ==> from <= r.value && OccursAt(s, pat, r.value)
    ensures r.Some? ==> forall j: nat :: from <= j < r.value ==> !OccursAt(s, pat, j)
    ensures r.None? ==> forall j: nat :: from <= j ==> !OccursAt(s, pat, j)
    decreases |s| - from
  {
    if from + |pat| > |s| then None
    else if s[from..from + |pat|] == pat then Some(from)
    else IndexFrom(s, pat, from + 1)
  }

  /** `s.indexOf(pat)`, with `None` for JavaScript's -1. */
  function IndexOf(s: string, pat: string): (r: Option<nat>)
    ensures r.Some? ==> FirstOccurrence(s, pat, r.value)
    ensures r.None? <==> forall j: nat :: !OccursAt(s, pat, j)
  {
    IndexFrom(s, pat, 0)
  }

  /**
   * `s.replace(pat, rep)` with a string pattern: only the first occurrence
   * of `pat` is replaced, and `s` comes back unchanged when `pat` does not
   * occur. (`rep` is taken literally; `$` patterns are not interpreted.)
   */
  function ReplaceFirst(s: string, pat: string, rep: string): (r: string)
    ensures (forall j: nat :: !OccursAt(s, pat, j)) ==> r == s
    ensures forall i: nat :: FirstOccurrence(s, pat, i) ==> r == s[..i] + rep + s[i + |pat|..]
  {
    match IndexOf(s, pat)
    case None => s
    case Some(i) => s[..i] + rep + s[i + |pat|..]
  }

  /**
   * An occurrence of `q` lying wholly before or wholly after the slot that
   * `ReplaceFirst` rewrites survives it: in place when before, shifted by the
   * change of length when after. With `q == pat`, a second occurrence of the
   * pattern is left as it was.
   */
  lemma ReplaceFirstKeepsOccurrence(s: string, pat: string, rep: string, i: nat, q: string, p: nat)
    requires FirstOccurrence(s, pat, i) && OccursAt(s, q, p)
    requires p + |q| <= i || i + |pat| <= p
    ensures p + |q| <= i ==> OccursAt(ReplaceFirst(s, pat, rep), q, p)
    ensures i + |pat| <= p ==> OccursAt(ReplaceFirst(s, pat, rep), q, p - |pat| + |rep|)
  {
    ReplaceFirstIsSplice(s, pat, rep, i);
    SpliceKeepsSlice(s, i, |pat|, rep, p, |q|);
  }

  lemma ReplaceFirstIsSplice(s: string, pat: string, rep: string, i: nat)
    requires FirstOccurrence(s, pat, i)
    ensures i + |pat| <= |s| && ReplaceFirst(s, pat, rep) == Splice(s, i, |pat|, rep)
  {
  }

  /** `s` with its `len` characters from `i` on replaced by `rep`. */
  function Splice<T>(s: seq<T>, i: nat, len: nat, rep: seq<T>): seq<T>
    requires i + len <= |s|
  {
    s[..i] + rep + s[i + len..]
  }

  /** A slice of `s` lying wholly before or wholly after the spliced part is kept by `Splice`. */
  lemma SpliceKeepsSlice<T>(s: seq<T>, i: nat, len: nat, rep: seq<T>, p: nat, m: nat)
    requires i + len <= |s| && p + m <= |s|
    requires p + m <= i || i + len <= p
    ensures p + m <= i ==> Splice(s, i, len, rep)[p..p + m] == s[p..p + m]
    ensures i + len <= p ==> Splice(s, i, len, rep)[p - len + |rep|..p - len + |rep| + m] == s[p..p + m]
  {
    var head, tail := s[..i] + rep, s[i + len..];
    if p + m <= i {
      SliceOfConcat(head, tail, p, m);
      SliceOfConcat(s[..i], rep, p, m);
    } else {
      var d := p - i - len;
      SliceOfConcat(head, tail, |head| + d, m);
      assert tail[d..d + m] == s[p..p + m];
    }
  }

  /** A slice of `a + b` lying wholly inside `a` or wholly inside `b`. */
  lemma SliceOfConcat<T>(a: seq<T>, b: seq<T>, p: nat, len: nat)
    requires p + len <= |a| + |b|
    ensures p + len <= |a| ==> (a + b)[p..p + len] == a[p..p + len]
    ensures |a| <= p ==> (a + b)[p..p + len] == b[p - |a|..p - |a| + len]
  {
  }

  /** `s.split(sep)[0]`: the text of `s` before the first `sep`, or all of `s` when it has none. */
  function SplitFirst(s: string, sep: char): (r: string)
    ensures sep !in r
    ensures |r| <= |s| && r == s[..|r|]
    ensures |r| < |s| ==> s[|r|] == sep
  {
    if s == [] || s[0] == sep then [] else [s[0]] + SplitFirst(s[1..], sep)
  }

  predicate IsDigit(c: char) {
    '0' <= c <= '9'
  }

  predicate AllDigits(s: string) {
    forall k :: 0 <= k < |s| ==> IsDigit(s[k])
  }

  function DigitChar(d: nat): (c: char)
    requires d < 10
    ensures IsDigit(c)
  {
    ('0' as int + d) as char
  }

  function DigitValue(c: char): nat
    requires IsDigit(c)
  {
    c as int - '0' as int
  }

  /** The decimal text of `n`, as a template literal renders a non-negative integer. */
  function NatToString(n: nat): (r: string)
    ensures |r| > 0 && AllDigits(r)
    ensures r[0] == '0' ==> n == 0
  {
    if n < 10 then [DigitChar(n)] else NatToString(n / 10) + [DigitChar(n % 10)]
  }

  /** The value of a string of decimal digits. */
  function ParseNat(s: string): nat
    requires AllDigits(s)
  {
    if s == [] then 0 else ParseNat(s[..|s| - 1]) * 10 + DigitValue(s[|s| - 1])
  }

  /** Reading back the decimal text of `n` gives `n`. */
  lemma {:induction false} ParseNatToString(n: nat)
    ensures ParseNat(NatToString(n)) == n
  {
    var s := NatToString(n);
    if n >= 10 {
      ParseNatToString(n / 10);
      assert s[..|s| - 1] == NatToString(n / 10);
    }
  }
}
