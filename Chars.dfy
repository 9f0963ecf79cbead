/** Character-level rewriting shared by the path and line-ending code: a
    global replacement of one character by another, as `replace(/c/g, d)`
    does for a single-character pattern. */
module Chars {

  /** Every occurrence of `c` replaced by `d`, everything else kept. */
  function ReplaceChar(s: string, c: char, d: char): (r: string)
    ensures |r| == |s|
    ensures forall i :: 0 <= i < |s| ==> r[i] == (if s[i] == c then d else s[i])
  {
    seq(|s|, i requires 0 <= i < |s| => if s[i] == c then d else s[i])
  }

  /** Replacing works piece by piece. */
  lemma ReplaceCharAppend(a: string, b: string, c: char, d: char)
    ensures ReplaceChar(a + b, c, d) == ReplaceChar(a, c, d) + ReplaceChar(b, c, d)
  {
  }

  /** No `c` is left unless `d` is `c`. */
  lemma ReplaceCharRemoves(s: string, c: char, d: char)
    requires c != d
    ensures c !in ReplaceChar(s, c, d)
  {
    var r := ReplaceChar(s, c, d);
    assert forall i :: 0 <= i < |r| ==> r[i] != c;
  }
}
