/** Small facts about strings shared by the rendering and parsing code. */
module Text {

  /** Index of the first occurrence of `c` in `s`, or `|s|` when `c` does not occur. */
  function Find(s: string, c: char): (k: nat)
    ensures k <= |s|
    ensures forall i | 0 <= i < k :: s[i] != c
    ensures k < |s| ==> s[k] == c
  {
    if s == [] then 0 else if s[0] == c then 0 else 1 + Find(s[1..], c)
  }

  /** In `x + y`, where `x` lacks `c` and `y` starts with it, `c` is first found right after `x`. */
  lemma FindAfter(x: string, y: string, c: char)
    requires c !in x
    requires |y| > 0 && y[0] == c
    ensures Find(x + y, c) == |x|
    ensures (x + y)[..|x|] == x && (x + y)[|x|..] == y
  {
    var s := x + y;
    assert s[|x|] == c;
  }

  /** Two splits of one string, each just before the first `c`, are the same split. */
  lemma SplitBefore(x: string, y: string, u: string, v: string, c: char)
    requires c !in x && c !in u
    requires |y| > 0 && y[0] == c && |v| > 0 && v[0] == c
    requires x + y == u + v
    ensures x == u && y == v
  {
    FindAfter(x, y, c);
    FindAfter(u, v, c);
  }

  predicate StartsWith(s: string, prefix: string)
  {
    |prefix| <= |s| && s[..|prefix|] == prefix
  }

  /** The lines of `lines` glued together with `sep` in between (Rust's `join`). */
  function Join(lines: seq<string>, sep: string): string
  {
    if |lines| == 0 then ""
    else if |lines| == 1 then lines[0]
    else lines[0] + sep + Join(lines[1..], sep)
  }
}
