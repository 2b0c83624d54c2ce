/**
 * Counting by exact string equality, as the report and dashboard pages do
 * with `list.filter(x => x.status === value).length`.
 */
module Tally {
  /** The number of entries equal to `v`: `xs.filter(x => x === v).length`. */
  function CountEq(xs: seq<string>, v: string): (n: nat)
    ensures n == multiset(xs)[v]
    ensures n <= |xs|
    ensures n == 0 <==> v !in xs
  {
    if xs == [] then 0
    else
      var init := xs[..|xs| - 1];
      assert xs == init + [xs[|xs| - 1]];
      CountEq(init, v) + (if xs[|xs| - 1] == v then 1 else 0)
  }

  /** Counts of four different values together never exceed the list length. */
  lemma {:induction false} FourCountsBounded(xs: seq<string>, a: string, b: string, c: string, d: string)
    requires a != b && a != c && a != d && b != c && b != d && c != d
    ensures CountEq(xs, a) + CountEq(xs, b) + CountEq(xs, c) + CountEq(xs, d) <= |xs|
  {
    if xs != [] {
      FourCountsBounded(xs[..|xs| - 1], a, b, c, d);
    }
  }

  /** When every entry is one of four different values, their counts add up to the list length. */
  lemma {:induction false} FourCountsCover(xs: seq<string>, a: string, b: string, c: string, d: string)
    requires a != b && a != c && a != d && b != c && b != d && c != d
    requires forall i | 0 <= i < |xs| :: xs[i] in {a, b, c, d}
    ensures CountEq(xs, a) + CountEq(xs, b) + CountEq(xs, c) + CountEq(xs, d) == |xs|
  {
    if xs != [] {
      var init := xs[..|xs| - 1];
      assert forall i | 0 <= i < |init| :: init[i] == xs[i];
      FourCountsCover(init, a, b, c, d);
    }
  }
}
