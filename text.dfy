/**
 * String operations the screens rely on, written with the JavaScript
 * semantics the source uses: `String(n)` for numbers, `substring` with
 * clamped bounds, and `replace` of the first occurrence of a literal.
 */
module Text {
  import opened Wrappers

  function DigitChar(d: nat): (c: char)
    requires d < 10
    ensures '0' <= c <= '9'
  {
    (('0' as int) + d) as char
  }

  function DigitValue(c: char): nat
  {
    if '0' <= c <= '9' then (c as int) - ('0' as int) else 0
  }

  /** Decimal notation of a natural number, as a template literal prints it. */
  function NatToString(n: nat): (s: string)
    ensures |s| >= 1
    ensures forall i :: 0 <= i < |s| ==> '0' <= s[i] <= '9'
    ensures (|s| == 1) <==> n < 10
    decreases n
  {
    if n < 10 then [DigitChar(n)] else NatToString(n / 10) + [DigitChar(n % 10)]
  }

  /** Reads a string of decimal digits back as a number. */
  function ParseNat(s: string): nat
    decreases |s|
  {
    if s == [] then 0 else ParseNat(s[..|s| - 1]) * 10 + DigitValue(s[|s| - 1])
  }

  /** Decimal notation is read back to the number it was written from. */
  lemma {:induction false} ParseNatToString(n: nat)
    ensures ParseNat(NatToString(n)) == n
    decreases n
  {
    if n >= 10 {
      var s := NatToString(n);
      assert s[..|s| - 1] == NatToString(n / 10);
      ParseNatToString(n / 10);
    }
  }

  /** Decimal notation is injective: distinct numbers print differently. */
  lemma NatToStringInjective(m: nat, n: nat)
    requires NatToString(m) == NatToString(n)
    ensures m == n
  {
    ParseNatToString(m);
    ParseNatToString(n);
  }

  function Min(a: nat, b: nat): nat { if a <= b then a else b }

  /**
   * `s.substring(start, end)`: both bounds are clamped to the length of
   * `s`, and they are swapped when `start` exceeds `end`.
   */
  function Substring(s: string, start: nat, end: nat): (r: string)
    ensures start <= end <= |s| ==> r == s[start..end]
    ensures |r| <= |s|
  {
    var a := Min(start, |s|);
    var b := Min(end, |s|);
    if a <= b then s[a..b] else s[b..a]
  }

  predicate OccursAt(s: string, pat: string, k: nat)
  {
    k + |pat| <= |s| && s[k..k + |pat|] == pat
  }

  /** The first index at or after `from` where `pat` occurs in `s` (`indexOf`). */
  function IndexOfFrom(s: string, pat: string, from: nat): (r: Option<nat>)
    ensures r.Some? ==> from <= r.value && OccursAt(s, pat, r.value)
    ensures r.Some? ==> forall j :: from <= j < r.value ==> !OccursAt(s, pat, j)
    ensures r.None? ==> forall j :: from <= j ==> !OccursAt(s, pat, j)
    decreases |s| - from
  {
    if from + |pat| > |s| then None
    else if s[from..from + |pat|] == pat then Some(from)
    else IndexOfFrom(s, pat, from + 1)
  }

  function IndexOf(s: string, pat: string): (r: Option<nat>)
  {
    IndexOfFrom(s, pat, 0)
  }

  /** `s.replace(pat, '')` for a literal `pat`: only the first occurrence is removed. */
  function RemoveFirst(s: string, pat: string): (r: string)
    ensures |r| == if IndexOf(s, pat).Some? then |s| - |pat| else |s|
    ensures IndexOf(s, pat).Some? ==> var k := IndexOf(s, pat).value; k <= |r| && s == r[..k] + pat + r[k..]
    ensures IndexOf(s, pat).None? ==> r == s
  {
    match IndexOf(s, pat)
    case None => s
    case Some(k) => s[..k] + s[k + |pat|..]
  }

  /** Removing the first occurrence leaves a string without it unchanged. */
  lemma RemoveFirstAbsent(s: string, pat: string)
    requires forall j :: !OccursAt(s, pat, j)
    ensures RemoveFirst(s, pat) == s
  {
  }

  /** A string that starts with `pat` loses exactly that prefix. */
  lemma RemoveFirstPrefix(pat: string, rest: string)
    ensures RemoveFirst(pat + rest, pat) == rest
  {
    var s := pat + rest;
    assert s[0..|pat|] == pat;
    assert OccursAt(s, pat, 0);
    assert IndexOf(s, pat) == Some(0);
    assert s[|pat|..] == rest;
  }
}
