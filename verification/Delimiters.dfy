/** Reading back a piece of text that ends at its first stop character. */
module Delimiters {
  /** A piece without `stop` is delimited by the first `stop` after it. */
  lemma StopDelimits(stop: char, a: string, b: string, x: string, y: string)
    requires stop !in a && stop !in b && a + [stop] + x == b + [stop] + y
    ensures a == b && x == y
  {
    var s := a + [stop] + x;
    assert s[|a|] == stop && s[|b|] == stop;
    assert forall i | 0 <= i < |a| :: s[i] == a[i];
    assert forall i | 0 <= i < |b| :: s[i] == b[i];
    assert a == s[..|a|] && b == s[..|b|] && x == s[|a| + 1..] && y == s[|b| + 1..];
  }
}
