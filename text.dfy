/** String helpers the services use: `toLowerCase` (ASCII letters only) and `Array.prototype.join`. */
module Text {

  /** `c` is an ASCII capital letter. */
  predicate IsUpper(c: char) {
    'A' <= c <= 'Z'
  }

  /** Lower-cases one ASCII capital letter; every other character is left alone. */
  function LowerChar(c: char): (d: char)
    ensures IsUpper(c) ==> d as int == c as int + 32
    ensures !IsUpper(c) ==> d == c
    ensures !IsUpper(d)
  {
    if IsUpper(c) then (c as int + 32) as char else c
  }

  /** `s.toLowerCase()`, restricted to ASCII letters. */
  function Lower(s: string): (r: string)
    ensures |r| == |s|
    ensures forall i :: 0 <= i < |s| ==> r[i] == LowerChar(s[i])
  {
    seq(|s|, i requires 0 <= i < |s| => LowerChar(s[i]))
  }

  /** Lowering leaves no capital letter behind, so lowering twice is lowering once. */
  lemma LowerIdempotent(s: string)
    ensures forall i :: 0 <= i < |s| ==> !IsUpper(Lower(s)[i])
    ensures Lower(Lower(s)) == Lower(s)
  {
  }

  /** `xs.join(sep)`: the elements with `sep` between neighbours; `[].join(sep)` is `""`. */
  function Join(xs: seq<string>, sep: string): string {
    if |xs| == 0 then ""
    else if |xs| == 1 then xs[0]
    else xs[0] + sep + Join(xs[1..], sep)
  }

  /** Total length of the strings in `xs`. */
  function TotalLength(xs: seq<string>): nat {
    if xs == [] then 0 else |xs[0]| + TotalLength(xs[1..])
  }

  /** Where element `i` starts in `Join(xs, sep)`. */
  function JoinOffset(xs: seq<string>, sep: string, i: nat): nat
    requires i <= |xs|
  {
    TotalLength(xs[..i]) + i * |sep|
  }

  /** A join is as long as its elements plus one separator between each pair of neighbours. */
  lemma {:induction false} JoinLength(xs: seq<string>, sep: string)
    requires xs != []
    ensures |Join(xs, sep)| == TotalLength(xs) + (|xs| - 1) * |sep|
  {
    if |xs| > 1 {
      JoinLength(xs[1..], sep);
    }
  }

  /** Slicing past a known prefix. */
  lemma SliceAfter(p: string, q: string, a: nat, b: nat)
    requires a <= b <= |q|
    ensures (p + q)[|p| + a..|p| + b] == q[a..b]
  {
  }

  /** Each element appears verbatim in the join, at its offset. */
  lemma {:induction false} JoinElement(xs: seq<string>, sep: string, i: nat)
    requires i < |xs|
    ensures JoinOffset(xs, sep, i) + |xs[i]| <= |Join(xs, sep)|
    ensures Join(xs, sep)[JoinOffset(xs, sep, i)..JoinOffset(xs, sep, i) + |xs[i]|] == xs[i]
  {
    if i == 0 {
      assert xs[..0] == [];
      assert JoinOffset(xs, sep, 0) == 0;
      if |xs| > 1 {
        assert Join(xs, sep) == xs[0] + (sep + Join(xs[1..], sep));
      }
    } else {
      var tail := xs[1..];
      JoinElement(tail, sep, i - 1);
      var o := JoinOffset(tail, sep, i - 1);
      var p := xs[0] + sep;
      assert xs[..i] == [xs[0]] + tail[..i - 1];
      assert xs[..i][1..] == tail[..i - 1];
      assert JoinOffset(xs, sep, i) == |p| + o;
      assert Join(xs, sep) == p + Join(tail, sep);
      SliceAfter(p, Join(tail, sep), o, o + |xs[i]|);
    }
  }
}
