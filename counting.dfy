/**
 * Counting occurrences into a map, as `*counts.entry(x).or_insert(0) += 1`
 * does in src/strategy/node.rs and src/math/base.rs, together with the
 * order in which the keys first arrive.
 */
module Counting {

  /** How often `a` occurs. */
  function Count<T(==,!new)>(xs: seq<T>, a: T): nat { multiset(xs)[a] }

  /** The counting map: every element with its number of occurrences. */
  function Counts<T(==,!new)>(xs: seq<T>): (m: map<T, nat>)
    ensures forall a :: a in m <==> a in xs
    ensures forall a :: a in m ==> m[a] == Count(xs, a) && m[a] > 0
  {
    map a | a in multiset(xs) :: multiset(xs)[a]
  }

  /** The distinct elements in the order they were first counted. */
  function Distinct<T(==,!new)>(xs: seq<T>): (r: seq<T>)
    ensures forall a :: a in r <==> a in xs
    ensures forall i, j :: 0 <= i < j < |r| ==> r[i] != r[j]
    decreases |xs|
  {
    if |xs| == 0 then []
    else
      var p := Distinct(xs[..|xs| - 1]);
      var last := xs[|xs| - 1];
      assert xs == xs[..|xs| - 1] + [last];
      if last in p then p else p + [last]
  }

  /** Counting one more element: its entry goes up by one, or appears with count one. */
  lemma CountsSnoc<T(!new)>(p: seq<T>, a: T)
    ensures Counts(p + [a]) == Counts(p)[a := if a in Counts(p) then Counts(p)[a] + 1 else 1]
  {
    assert multiset(p + [a]) == multiset(p) + multiset{a};
    var l := Counts(p + [a]);
    var r := Counts(p)[a := if a in Counts(p) then Counts(p)[a] + 1 else 1];
    assert forall b :: b in l <==> b in r;
    assert forall b :: b in l ==> l[b] == r[b];
  }

  /** One more element joins the distinct ones when it is new. */
  lemma DistinctSnoc<T(!new)>(p: seq<T>, a: T)
    ensures Distinct(p + [a]) == if a in p then Distinct(p) else Distinct(p) + [a]
  {
    assert (p + [a])[..|p|] == p;
  }

  /** The counting fold, remembering the order keys arrived in. */
  method Tally<T(==,!new)>(xs: seq<T>) returns (counts: map<T, nat>, keys: seq<T>)
    ensures counts == Counts(xs) && keys == Distinct(xs)
  {
    counts, keys := map[], [];
    var i := 0;
    while i < |xs|
      invariant 0 <= i <= |xs|
      invariant counts == Counts(xs[..i]) && keys == Distinct(xs[..i])
      decreases |xs| - i
    {
      var a := xs[i];
      assert xs[..i + 1] == xs[..i] + [a];
      CountsSnoc(xs[..i], a);
      DistinctSnoc(xs[..i], a);
      if a in counts {
        counts := counts[a := counts[a] + 1];
      } else {
        counts := counts[a := 1];
        keys := keys + [a];
      }
      i := i + 1;
    }
    assert xs[..i] == xs;
  }

  /** No element occurs more often than the sequence is long. */
  lemma {:induction false} CountAtMostLength<T(!new)>(xs: seq<T>, a: T)
    ensures Count(xs, a) <= |xs|
    decreases |xs|
  {
    if |xs| > 0 {
      var p := xs[..|xs| - 1];
      assert xs == p + [xs[|xs| - 1]];
      CountAtMostLength(p, a);
    }
  }
}
