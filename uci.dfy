/** Four-character move keys (`e2e4`): origin square then destination square. */
module Uci {
  import opened Text

  /** `{ from: s.substring(0, 2), to: s.substring(2, 4) }`. */
  function ParseMove(s: string): (r: (string, string))
    ensures |s| >= 4 ==> r == (s[0..2], s[2..4])
    ensures |r.0| <= 2 && |r.1| <= 2
  {
    (Substring(s, 0, 2), Substring(s, 2, 4))
  }

  /** Parsing the key built from two square labels gives the two labels back. */
  lemma ParseMoveRoundTrip(from: string, to: string)
    requires |from| == 2 && |to| == 2
    ensures ParseMove(from + to) == (from, to)
  {
    assert (from + to)[0..2] == from;
    assert (from + to)[2..4] == to;
  }
}
