/**
 * Summary statistics over price slices (src/math/base.rs): mean, median and
 * mode, each refusing an empty slice, and the comparison the median sorts by.
 * Prices are IEEE doubles; `F64` keeps NaN apart from the real values, which
 * is what the median's filter and the mode's integer cast look at.
 */
module MathBase {
  import opened Wrappers
  import opened Counting
  import Numeric

  datatype F64 = Num(value: real) | NaN

  // ---------------------------------------------------------------- mean

  /** `mean`: the sum over the count; an empty slice is an error. */
  function Mean(prices: seq<real>): (r: Result<real>)
    ensures r.Err? <==> |prices| == 0
    ensures r.Err? ==> r.error == EmptyIterator
  {
    if |prices| == 0 then Err(EmptyIterator) else Ok(Numeric.Mean(prices))
  }

  /** The mean lies between any bounds of the prices. */
  lemma MeanBounds(prices: seq<real>, lo: real, hi: real)
    requires |prices| > 0 && forall i :: 0 <= i < |prices| ==> lo <= prices[i] <= hi
    ensures lo <= Mean(prices).value <= hi
  {
    assert Numeric.Within(prices, lo, hi);
    Numeric.MeanWithin(prices, lo, hi);
  }

  /** The mean of two prices is their midpoint, as the median's even case uses it. */
  lemma MeanOfTwo(a: real, b: real)
    ensures Mean([a, b]) == Ok((a + b) / 2.0)
  {
    assert [a, b][1..] == [b] && [b][1..] == [];
    assert Numeric.Sum([b]) == b;
    assert Numeric.Sum([a, b]) == a + b;
  }

  // ---------------------------------------------------------------- cmp_f64

  datatype Ordering = Less | Equal | Greater

  /** `a < b` and `a > b` as IEEE doubles compare: false whenever NaN is involved. */
  predicate Below(a: F64, b: F64) { a.Num? && b.Num? && a.value < b.value }

  /** `cmp_f64`: Less, Greater, and Equal when neither is below the other. */
  function CmpF64(a: F64, b: F64): (o: Ordering)
    ensures o == Less <==> a.Num? && b.Num? && a.value < b.value
    ensures o == Greater <==> a.Num? && b.Num? && a.value > b.value
    ensures o == Equal <==> a.NaN? || b.NaN? || a.value == b.value
  {
    if Below(a, b) then Less else if Below(b, a) then Greater else Equal
  }

  /** On NaN-free values the comparison is the order of the reals, and it is antisymmetric. */
  lemma CmpIsOrder(x: real, y: real)
    ensures CmpF64(Num(x), Num(y)) == (if x < y then Less else if x > y then Greater else Equal)
    ensures CmpF64(Num(x), Num(y)) == Less <==> CmpF64(Num(y), Num(x)) == Greater
  {
  }

  /** NaN compares Equal to everything, so with NaN the comparison is not transitive. */
  lemma CmpNaNNotTransitive()
    ensures CmpF64(Num(1.0), NaN) == Equal && CmpF64(NaN, Num(2.0)) == Equal
    ensures CmpF64(Num(1.0), Num(2.0)) == Less
  {
  }

  // ---------------------------------------------------------------- median

  /** The prices that are not NaN, in order. */
  function Finite(prices: seq<F64>): (r: seq<real>)
    ensures |r| <= |prices|
    decreases |prices|
  {
    if |prices| == 0 then []
    else
      var p := prices[..|prices| - 1];
      match prices[|prices| - 1]
      case NaN => Finite(p)
      case Num(x) => Finite(p) + [x]
  }

  /** The values kept are exactly those of the prices that are not NaN. */
  lemma {:induction false} FiniteMembers(prices: seq<F64>, x: real)
    ensures x in Finite(prices) <==> Num(x) in prices
    decreases |prices|
  {
    if |prices| > 0 {
      var p := prices[..|prices| - 1];
      assert prices == p + [prices[|prices| - 1]];
      FiniteMembers(p, x);
    }
  }

  /** Without NaN every price is kept. */
  lemma {:induction false} FiniteKeepsAll(prices: seq<F64>)
    requires forall i :: 0 <= i < |prices| ==> prices[i].Num?
    ensures |Finite(prices)| == |prices|
    decreases |prices|
  {
    if |prices| > 0 {
      FiniteKeepsAll(prices[..|prices| - 1]);
    }
  }

  predicate Sorted(s: seq<real>)
  {
    forall i, j :: 0 <= i < j < |s| ==> s[i] <= s[j]
  }

  lemma SortedCons(h: real, t: seq<real>)
    requires Sorted(t) && forall j :: 0 <= j < |t| ==> h <= t[j]
    ensures Sorted([h] + t)
  {
    var r := [h] + t;
    assert forall j :: 0 < j < |r| ==> r[j] == t[j - 1];
  }

  /** `x` put in its place in the sorted `s`. */
  function Insert(x: real, s: seq<real>): (r: seq<real>)
    requires Sorted(s)
    ensures Sorted(r) && multiset(r) == multiset(s) + multiset{x}
    decreases |s|
  {
    if |s| == 0 || x <= s[0] then
      SortedCons(x, s);
      [x] + s
    else
      assert s == [s[0]] + s[1..];
      SortedTail(s);
      var rest := Insert(x, s[1..]);
      assert forall j :: 0 <= j < |rest| ==> s[0] <= rest[j] by {
        forall j | 0 <= j < |rest| ensures s[0] <= rest[j] {
          assert rest[j] in multiset(rest);
          if rest[j] != x {
            assert rest[j] in multiset(s[1..]);
            assert rest[j] in s[1..];
          }
        }
      }
      SortedCons(s[0], rest);
      [s[0]] + rest
  }

  /** The prices in ascending order. */
  function SortedOf(s: seq<real>): (r: seq<real>)
    ensures Sorted(r) && multiset(r) == multiset(s)
    decreases |s|
  {
    if |s| == 0 then []
    else
      assert s == [s[0]] + s[1..];
      Insert(s[0], SortedOf(s[1..]))
  }

  /** The first of a sorted sequence is at most each of its elements. */
  lemma SortedHeadIsLeast(s: seq<real>, x: real)
    requires Sorted(s) && |s| > 0 && x in multiset(s)
    ensures s[0] <= x
  {
    assert x in s;
  }

  lemma SortedTail(s: seq<real>)
    requires Sorted(s) && |s| > 0
    ensures Sorted(s[1..])
  {
    assert forall i :: 0 <= i < |s| - 1 ==> s[1..][i] == s[i + 1];
  }

  lemma MultisetTail(s: seq<real>)
    requires |s| > 0
    ensures multiset(s[1..]) == multiset(s) - multiset{s[0]}
  {
    assert s == [s[0]] + s[1..];
  }

  /** A multiset has one ascending arrangement: sorting is determined by the contents alone. */
  lemma {:induction false} SortedUnique(a: seq<real>, b: seq<real>)
    requires Sorted(a) && Sorted(b) && multiset(a) == multiset(b)
    ensures a == b
    decreases |a|
  {
    if |a| == 0 {
      assert multiset(b) == multiset{};
    } else {
      assert a[0] in multiset(a);
      assert |b| > 0;
      assert b[0] in multiset(b);
      SortedHeadIsLeast(a, b[0]);
      SortedHeadIsLeast(b, a[0]);
      assert a[0] == b[0];
      MultisetTail(a);
      MultisetTail(b);
      SortedTail(a);
      SortedTail(b);
      SortedUnique(a[1..], b[1..]);
      assert a == [a[0]] + a[1..] && b == [b[0]] + b[1..];
    }
  }

  /** The middle of sorted values: the middle one, or the mean of the middle two for an even count. */
  function MiddleOf(s: seq<real>): Result<real>
  {
    var n := |s|;
    if n == 0 then Err(EmptyIterator)
    else if n % 2 == 0 then Mean(s[n / 2 - 1..n / 2 + 1])
    else Ok(s[n / 2])
  }

  /**
   * `median` over the prices that are not NaN: the middle of their sorted
   * arrangement.
   */
  function Median(prices: seq<F64>): Result<real>
  {
    MiddleOf(SortedOf(Finite(prices)))
  }

  /** There is no median exactly when every price is NaN, the empty slice included. */
  lemma MedianFailsWithoutValues(prices: seq<F64>)
    ensures Median(prices).Err? <==> forall i :: 0 <= i < |prices| ==> prices[i].NaN?
    ensures Median(prices).Err? ==> Median(prices).error == EmptyIterator
  {
    var s := SortedOf(Finite(prices));
    if exists i :: 0 <= i < |prices| && prices[i].Num? {
      var i :| 0 <= i < |prices| && prices[i].Num?;
      FiniteMembers(prices, prices[i].value);
      assert prices[i].value in multiset(s);
    }
    if |s| > 0 {
      assert s[0] in multiset(Finite(prices));
      FiniteMembers(prices, s[0]);
    }
  }

  /** The median lies between any bounds of the prices that are not NaN. */
  lemma MedianBounds(prices: seq<F64>, lo: real, hi: real)
    requires forall i :: 0 <= i < |prices| && prices[i].Num? ==> lo <= prices[i].value <= hi
    ensures Median(prices).Ok? ==> lo <= Median(prices).value <= hi
  {
    var f := Finite(prices);
    var s := SortedOf(f);
    var n := |s|;
    assert forall k :: 0 <= k < n ==> lo <= s[k] <= hi by {
      forall k | 0 <= k < n ensures lo <= s[k] <= hi {
        assert s[k] in multiset(f);
        FiniteMembers(prices, s[k]);
      }
    }
    MiddleOfBounds(s, lo, hi);
  }

  /** The middle of values within bounds is within them. */
  lemma MiddleOfBounds(s: seq<real>, lo: real, hi: real)
    requires forall k :: 0 <= k < |s| ==> lo <= s[k] <= hi
    ensures MiddleOf(s).Ok? ==> lo <= MiddleOf(s).value <= hi
  {
    var n := |s|;
    if n > 0 && n % 2 == 0 {
      var two := s[n / 2 - 1..n / 2 + 1];
      assert two == [s[n / 2 - 1], s[n / 2]];
      MeanOfTwo(s[n / 2 - 1], s[n / 2]);
    }
  }

  /** A sorted rearrangement of `s` is what sorting `s` gives. */
  lemma SortedOfIs(s: seq<real>, t: seq<real>)
    requires Sorted(t) && multiset(s) == multiset(t)
    ensures SortedOf(s) == t
  {
    SortedUnique(SortedOf(s), t);
  }

  lemma SortingThree()
    ensures SortedOf([3.0, 1.0, 2.0]) == [1.0, 2.0, 3.0]
  {
    assert multiset([3.0, 1.0, 2.0]) == multiset([1.0, 2.0, 3.0]);
    assert Sorted([1.0, 2.0, 3.0]);
    SortedOfIs([3.0, 1.0, 2.0], [1.0, 2.0, 3.0]);
  }

  /** Example: the middle of three values, one of them NaN left out. */
  lemma MedianExample()
    ensures Median([Num(3.0), NaN, Num(1.0), Num(2.0)]) == Ok(2.0)
  {
    var a := [Num(3.0), NaN, Num(1.0), Num(2.0)];
    assert Finite(a[..1]) == [3.0] by { assert a[..1][..0] == []; }
    assert Finite(a[..2]) == [3.0] by { assert a[..2][..1] == a[..1]; }
    assert Finite(a[..3]) == [3.0, 1.0] by { assert a[..3][..2] == a[..2]; }
    assert Finite(a) == [3.0, 1.0, 2.0] by { assert a[..3] == a[..|a| - 1]; }
    SortingThree();
    assert MiddleOf([1.0, 2.0, 3.0]) == Ok(2.0);
  }

  /**
   * `median` as written: the sorted values have NaN removed, but the middle
   * index is taken from the length of the unfiltered slice.  `None` stands
   * for an index out of range, where the source panics.
   */
  function MedianAsWritten(prices: seq<F64>): (r: Option<Result<real>>)
    ensures |prices| == 0 ==> r == Some(Err(EmptyIterator))
  {
    if |prices| == 0 then Some(Err(EmptyIterator))
    else
      var s := SortedOf(Finite(prices));
      var middle := |prices| / 2;
      if |prices| % 2 == 0 then
        if middle + 1 <= |s| then Some(Mean(s[middle - 1..middle + 1])) else Option.None
      else
        if middle < |s| then Some(Ok(s[middle])) else Option.None
  }

  /** Without NaN the code as written computes the median. */
  lemma MedianAsWrittenWithoutNaN(prices: seq<F64>)
    requires |prices| > 0 && forall i :: 0 <= i < |prices| ==> prices[i].Num?
    ensures MedianAsWritten(prices) == Some(Median(prices))
  {
    FiniteKeepsAll(prices);
    var s := SortedOf(Finite(prices));
    assert |s| == |multiset(s)| == |multiset(Finite(prices))| == |prices|;
    assert Median(prices) == MiddleOf(s);
  }

  /** With NaN present it panics on `[NaN]`, and on `[1, 2, NaN]` it answers 2 where the median of 1 and 2 is 1.5. */
  lemma MedianAsWrittenWithNaN()
    ensures MedianAsWritten([NaN]).None?
    ensures MedianAsWritten([Num(1.0), Num(2.0), NaN]) == Some(Ok(2.0))
    ensures Median([Num(1.0), Num(2.0), NaN]) == Ok(1.5)
  {
    assert [NaN][..0] == [];
    var a := [Num(1.0), Num(2.0), NaN];
    assert Finite(a[..1]) == [1.0] by { assert a[..1][..0] == []; }
    assert Finite(a[..2]) == [1.0, 2.0] by { assert a[..2][..1] == a[..1]; }
    assert Finite(a) == [1.0, 2.0] by { assert a[..2] == a[..|a| - 1]; }
    assert SortedOf([2.0]) == [2.0] by { assert [2.0][1..] == []; }
    assert SortedOf([1.0, 2.0]) == [1.0, 2.0] by { assert [1.0, 2.0][1..] == [2.0]; }
    assert [1.0, 2.0][0..2] == [1.0, 2.0];
    MeanOfTwo(1.0, 2.0);
  }

  /** `sort_by(cmp_f64)` on NaN-free values: insertion by adjacent swaps, in place. */
  method SortInPlace(a: array<real>)
    modifies a
    ensures Sorted(a[..]) && multiset(a[..]) == old(multiset(a[..]))
  {
    var i := 0;
    while i < a.Length
      invariant 0 <= i <= a.Length
      invariant SortedPrefix(a[..], i)
      invariant multiset(a[..]) == old(multiset(a[..]))
      decreases a.Length - i
    {
      SinkInto(a, i);
      i := i + 1;
    }
  }

  /** The first `n` entries ascend. */
  ghost predicate SortedPrefix(s: seq<real>, n: nat)
  {
    n <= |s| && forall k, l :: 0 <= k < l < n ==> s[k] <= s[l]
  }

  /**
   * Halfway through inserting entry `i`: the moving value sits at `j`, the
   * first `i + 1` entries ascend apart from it, and it is below everything
   * after it.
   */
  ghost predicate Sinking(s: seq<real>, i: nat, j: nat)
  {
    && j <= i < |s|
    && (forall k, l :: 0 <= k < l <= i && l != j && k != j ==> s[k] <= s[l])
    && (forall k, l :: 0 <= k < j < l <= i ==> s[k] <= s[l])
    && (forall l :: j < l <= i ==> s[j] < s[l])
  }

  /** One swap moves the value a place left and keeps the insertion state. */
  lemma SinkStep(s: seq<real>, i: nat, j: nat)
    requires Sinking(s, i, j) && 0 < j && s[j - 1] > s[j]
    ensures Sinking(s[j - 1 := s[j]][j := s[j - 1]], i, j - 1)
  {
  }

  /** Once the value is not below its left neighbour the first `i + 1` entries ascend. */
  lemma SinkDone(s: seq<real>, i: nat, j: nat)
    requires Sinking(s, i, j) && (j == 0 || s[j - 1] <= s[j])
    ensures SortedPrefix(s, i + 1)
  {
    forall k, l | 0 <= k < l <= i
      ensures s[k] <= s[l]
    {
      if k == j {
        assert s[j] < s[l];
      } else if l == j {
        assert s[k] <= s[j - 1];
      }
    }
  }

  /** One insertion step: entry `i` swaps leftwards until the first `i + 1` entries ascend. */
  method SinkInto(a: array<real>, i: nat)
    requires i < a.Length && SortedPrefix(a[..], i)
    modifies a
    ensures SortedPrefix(a[..], i + 1) && multiset(a[..]) == old(multiset(a[..]))
  {
    var j := i;
    while j > 0 && a[j - 1] > a[j]
      invariant 0 <= j <= i
      invariant multiset(a[..]) == old(multiset(a[..]))
      invariant Sinking(a[..], i, j)
      decreases j
    {
      ghost var before := a[..];
      SinkStep(before, i, j);
      a[j - 1], a[j] := a[j], a[j - 1];
      assert a[..] == before[j - 1 := before[j]][j := before[j - 1]];
      SwapKeepsMultiset(before, a[..], j - 1, j);
      j := j - 1;
    }
    SinkDone(a[..], i, j);
  }

  /** Exchanging two entries keeps the contents. */
  lemma SwapKeepsMultiset(s: seq<real>, t: seq<real>, p: nat, q: nat)
    requires p < q < |s| == |t| && t == s[p := s[q]][q := s[p]]
    ensures multiset(t) == multiset(s)
  {
    assert s == s[..p] + [s[p]] + s[p + 1..q] + [s[q]] + s[q + 1..];
    assert t == s[..p] + [s[q]] + s[p + 1..q] + [s[p]] + s[q + 1..];
  }

  /** `median` as it runs, with the middle taken from the values kept: filter, sort in place, pick. */
  method MedianOf(prices: seq<F64>) returns (r: Result<real>)
    ensures r == Median(prices)
  {
    var fin: seq<real> := [];
    var i := 0;
    while i < |prices|
      invariant 0 <= i <= |prices| && fin == Finite(prices[..i])
      decreases |prices| - i
    {
      assert prices[..i + 1][..i] == prices[..i];
      if prices[i].Num? {
        fin := fin + [prices[i].value];
      }
      i := i + 1;
    }
    assert prices[..i] == prices;
    var a := new real[|fin|];
    forall k | 0 <= k < |fin| {
      a[k] := fin[k];
    }
    assert a[..] == fin;
    SortInPlace(a);
    SortedUnique(a[..], SortedOf(fin));
    assert Median(prices) == MiddleOf(a[..]);
    var n := a.Length;
    if n == 0 {
      return Err(EmptyIterator);
    }
    if n % 2 == 0 {
      assert a[n / 2 - 1..n / 2 + 1] == a[..][n / 2 - 1..n / 2 + 1];
      return Mean(a[n / 2 - 1..n / 2 + 1]);
    }
    return Ok(a[n / 2]);
  }

  // ---------------------------------------------------------------- most_frequent and mode

  const I64Min: int := -0x8000_0000_0000_0000
  const I64Max: int := 0x7fff_ffff_ffff_ffff

  /** `x.round() as i64`: NaN becomes 0 and the cast saturates at the bounds of `i64`. */
  function RoundToI64(x: F64): (r: int)
    ensures I64Min <= r <= I64Max
    ensures x.Num? && I64Min <= Numeric.Round(x.value) <= I64Max ==> r == Numeric.Round(x.value)
    ensures x.NaN? ==> r == 0
  {
    match x
    case NaN => 0
    case Num(v) =>
      var n := Numeric.Round(v);
      if n < I64Min then I64Min else if n > I64Max then I64Max else n
  }

  /** The largest count among `keys`, 0 when there are none (`values().max().unwrap_or(&0)`). */
  function MaxCount(counts: map<int, nat>, keys: seq<int>): (m: nat)
    requires forall i :: 0 <= i < |keys| ==> keys[i] in counts
    ensures forall i :: 0 <= i < |keys| ==> counts[keys[i]] <= m
    ensures |keys| > 0 ==> exists i :: 0 <= i < |keys| && counts[keys[i]] == m
    ensures |keys| == 0 ==> m == 0
    decreases |keys|
  {
    if |keys| == 0 then 0
    else
      var p := keys[..|keys| - 1];
      var rest := MaxCount(counts, p);
      var last := counts[keys[|keys| - 1]];
      assert forall i :: 0 <= i < |p| ==> p[i] == keys[i];
      if |p| == 0 || last > rest then last else rest
  }

  /** The largest count over one more key. */
  lemma MaxCountSnoc(counts: map<int, nat>, keys: seq<int>, i: nat)
    requires forall k :: 0 <= k < |keys| ==> keys[k] in counts
    requires i < |keys|
    ensures MaxCount(counts, keys[..i + 1])
            == if i == 0 || counts[keys[i]] > MaxCount(counts, keys[..i]) then counts[keys[i]] else MaxCount(counts, keys[..i])
  {
    assert keys[..i + 1][..i] == keys[..i];
  }

  /** The keys whose count is `m`, in order. */
  function Ties(counts: map<int, nat>, keys: seq<int>, m: nat): (t: seq<int>)
    requires forall i :: 0 <= i < |keys| ==> keys[i] in counts
    ensures forall x :: x in t <==> x in keys && counts[x] == m
    decreases |keys|
  {
    if |keys| == 0 then []
    else
      var p := keys[..|keys| - 1];
      var last := keys[|keys| - 1];
      assert keys == p + [last];
      Ties(counts, p, m) + if counts[last] == m then [last] else []
  }

  function IntsAsReals(xs: seq<int>): (r: seq<real>)
    ensures |r| == |xs| && forall i :: 0 <= i < |xs| ==> r[i] == xs[i] as real
  {
    seq(|xs|, i requires 0 <= i < |xs| => xs[i] as real)
  }

  /**
   * `most_frequent`: the average of the values that occur most often, 0 for
   * no values.  (The tuples of the map are destructured as `(count, _)`, so
   * it is the values, not their counts, that are averaged.)
   */
  function MostFrequent(xs: seq<int>): real
  {
    var counts := Counts(xs);
    var keys := Distinct(xs);
    Average(Ties(counts, keys, MaxCount(counts, keys)))
  }

  /** The average of the keys, 0 when there are none. */
  function Average(t: seq<int>): real
  {
    if |t| == 0 then 0.0 else Numeric.Sum(IntsAsReals(t)) / (|t| as real)
  }

  /** The values averaged are exactly the modes: each occurs at least as often as any value. */
  lemma TiesAreModes(xs: seq<int>, x: int)
    ensures var counts := Counts(xs);
            var keys := Distinct(xs);
            x in Ties(counts, keys, MaxCount(counts, keys)) <==> x in xs && forall y :: Count(xs, y) <= Count(xs, x)
  {
    var counts := Counts(xs);
    var keys := Distinct(xs);
    var m := MaxCount(counts, keys);
    if x in xs && forall y :: Count(xs, y) <= Count(xs, x) {
      if |keys| > 0 {
        var i :| 0 <= i < |keys| && counts[keys[i]] == m;
        assert Count(xs, keys[i]) <= Count(xs, x);
        assert x in keys;
        var j :| 0 <= j < |keys| && keys[j] == x;
        assert counts[x] <= m;
      }
    }
    if x in Ties(counts, keys, m) {
      forall y
        ensures Count(xs, y) <= Count(xs, x)
      {
        if y in xs {
          assert y in keys;
          var j :| 0 <= j < |keys| && keys[j] == y;
        }
      }
    }
  }

  /** A value occurring more often than every other is the answer. */
  lemma MostFrequentUnique(xs: seq<int>, v: int)
    requires v in xs && forall w :: w != v ==> Count(xs, w) < Count(xs, v)
    ensures MostFrequent(xs) == v as real
  {
    var counts := Counts(xs);
    var keys := Distinct(xs);
    forall x | x in keys && x != v
      ensures counts[x] < counts[v]
    {
      assert counts[x] == Count(xs, x) < Count(xs, v) == counts[v];
    }
    forall k | 0 <= k < |keys|
      ensures keys[k] in counts
    {
      assert keys[k] in xs;
    }
    UniqueTie(counts, keys, v);
  }

  /** Over distinct keys, when one key has a larger count than every other the average of the ties is that key. */
  lemma UniqueTie(counts: map<int, nat>, keys: seq<int>, v: int)
    requires forall k :: 0 <= k < |keys| ==> keys[k] in counts
    requires forall k, l :: 0 <= k < l < |keys| ==> keys[k] != keys[l]
    requires v in keys && forall x :: x in keys && x != v ==> counts[x] < counts[v]
    ensures Average(Ties(counts, keys, MaxCount(counts, keys))) == v as real
  {
    var m := MaxCount(counts, keys);
    var i :| 0 <= i < |keys| && counts[keys[i]] == m;
    var j :| 0 <= j < |keys| && keys[j] == v;
    assert counts[v] <= m;
    assert keys[i] == v;
    TiesSingle(counts, keys, m, v);
    AverageOfOne(v);
  }

  lemma AverageOfOne(v: int)
    ensures Average([v]) == v as real
  {
    assert IntsAsReals([v]) == [v as real];
    assert [v as real][1..] == [];
    assert Numeric.Sum([v as real]) == v as real;
  }

  /** Over distinct keys, when exactly one key has count `m` the ties are that key alone. */
  lemma {:induction false} TiesSingle(counts: map<int, nat>, keys: seq<int>, m: nat, v: int)
    requires forall k :: 0 <= k < |keys| ==> keys[k] in counts
    requires forall k, l :: 0 <= k < l < |keys| ==> keys[k] != keys[l]
    requires v in keys && counts[v] == m
    requires forall x :: x in keys && x != v ==> counts[x] != m
    ensures Ties(counts, keys, m) == [v]
    decreases |keys|
  {
    var p := keys[..|keys| - 1];
    var last := keys[|keys| - 1];
    assert keys == p + [last];
    assert forall k :: 0 <= k < |p| ==> p[k] == keys[k];
    if last == v {
      forall k | 0 <= k < |p|
        ensures p[k] != v
      {
        assert keys[k] != keys[|keys| - 1];
      }
      TiesNone(counts, p, m);
    } else {
      TiesSingle(counts, p, m, v);
    }
  }

  /** When no key has count `m` there are no ties. */
  lemma {:induction false} TiesNone(counts: map<int, nat>, keys: seq<int>, m: nat)
    requires forall k :: 0 <= k < |keys| ==> keys[k] in counts && counts[keys[k]] != m
    ensures Ties(counts, keys, m) == []
    decreases |keys|
  {
    if |keys| > 0 {
      var p := keys[..|keys| - 1];
      assert forall k :: 0 <= k < |p| ==> p[k] == keys[k];
      TiesNone(counts, p, m);
    }
  }

  /** Ties over one more key. */
  lemma TiesSnoc(counts: map<int, nat>, keys: seq<int>, m: nat, i: nat)
    requires forall k :: 0 <= k < |keys| ==> keys[k] in counts
    requires i < |keys|
    ensures Ties(counts, keys[..i + 1], m) == Ties(counts, keys[..i], m) + if counts[keys[i]] == m then [keys[i]] else []
  {
    assert keys[..i + 1][..i] == keys[..i];
  }

  /** Summing one more integer. */
  lemma SumSnoc(t: seq<int>, x: int)
    ensures Numeric.Sum(IntsAsReals(t + [x])) == Numeric.Sum(IntsAsReals(t)) + x as real
  {
    assert IntsAsReals(t + [x]) == IntsAsReals(t) + [x as real];
    Numeric.SumSnoc(IntsAsReals(t), x as real);
  }

  /** Nothing to count answers 0. */
  lemma MostFrequentEmpty()
    ensures MostFrequent([]) == 0.0
  {
  }

  /** `most_frequent` as it runs: the counting fold, the maximum count, then the average over the entries holding it. */
  method MostFrequentOf(xs: seq<int>) returns (r: real)
    ensures r == MostFrequent(xs)
  {
    var counts, keys := Counting.Tally(xs);
    assert forall k :: 0 <= k < |keys| ==> keys[k] in counts by {
      forall k | 0 <= k < |keys|
        ensures keys[k] in counts
      {
        assert keys[k] in Distinct(xs);
      }
    }
    var maxCount := MaxCountOf(counts, keys);
    r := AverageOfTies(counts, keys, maxCount);
  }

  /** `values().max().unwrap_or(&0)`, as a loop over the keys. */
  method MaxCountOf(counts: map<int, nat>, keys: seq<int>) returns (m: nat)
    requires forall k :: 0 <= k < |keys| ==> keys[k] in counts
    ensures m == MaxCount(counts, keys)
  {
    m := 0;
    var i := 0;
    while i < |keys|
      invariant 0 <= i <= |keys| && m == MaxCount(counts, keys[..i])
      decreases |keys| - i
    {
      MaxCountSnoc(counts, keys, i);
      if i == 0 || counts[keys[i]] > m {
        m := counts[keys[i]];
      }
      i := i + 1;
    }
    assert keys[..i] == keys;
  }

  /** The filter, sum and count over the entries holding `m`, then their average. */
  method AverageOfTies(counts: map<int, nat>, keys: seq<int>, m: nat) returns (r: real)
    requires forall k :: 0 <= k < |keys| ==> keys[k] in counts
    ensures r == Average(Ties(counts, keys, m))
  {
    var sum, tied := 0.0, 0;
    ghost var t: seq<int> := [];
    var i := 0;
    assert keys[..0] == [] && IntsAsReals([]) == [];
    while i < |keys|
      invariant 0 <= i <= |keys| && t == Ties(counts, keys[..i], m)
      invariant sum == Numeric.Sum(IntsAsReals(t)) && tied == |t|
      decreases |keys| - i
    {
      TiesSnoc(counts, keys, m, i);
      if counts[keys[i]] == m {
        SumSnoc(t, keys[i]);
        t := t + [keys[i]];
        sum, tied := sum + keys[i] as real, tied + 1;
      }
      i := i + 1;
    }
    assert keys[..i] == keys;
    if tied == 0 {
      return 0.0;
    }
    return sum / (tied as real);
  }

  /** Every price rounded to an `i64`. */
  function Rounded(prices: seq<F64>): (r: seq<int>)
    ensures |r| == |prices| && forall i :: 0 <= i < |prices| ==> r[i] == RoundToI64(prices[i])
  {
    seq(|prices|, i requires 0 <= i < |prices| => RoundToI64(prices[i]))
  }

  /** `mode`: the prices rounded to integers, then `most_frequent`; an empty slice is an error. */
  function Mode(prices: seq<F64>): (r: Result<real>)
    ensures r.Err? <==> |prices| == 0
    ensures r.Err? ==> r.error == EmptyIterator
  {
    if |prices| == 0 then Err(EmptyIterator) else Ok(MostFrequent(Rounded(prices)))
  }

  /** When one rounded price occurs more often than every other, the mode is that integer. */
  lemma ModeIsUnique(prices: seq<F64>, v: int)
    requires v in Rounded(prices) && forall w :: w != v ==> Count(Rounded(prices), w) < Count(Rounded(prices), v)
    ensures Mode(prices) == Ok(v as real)
  {
    MostFrequentUnique(Rounded(prices), v);
  }

  /** The examples of the source: three prices round to 101 and two to 100, then the other way round. */
  lemma ModeExamples()
    ensures Mode([Num(100.2), Num(100.46), Num(100.53), Num(101.08), Num(101.19)]) == Ok(101.0)
    ensures Mode([Num(100.2), Num(100.46), Num(100.35), Num(101.08), Num(101.19)]) == Ok(100.0)
  {
    var up := [Num(100.2), Num(100.46), Num(100.53), Num(101.08), Num(101.19)];
    RoundedExample(up, [100, 100, 101, 101, 101]);
    ThreeOverTwo([100, 100, 101, 101, 101], 101, 100);
    ModeIsUnique(up, 101);
    var down := [Num(100.2), Num(100.46), Num(100.35), Num(101.08), Num(101.19)];
    RoundedExample(down, [100, 100, 100, 101, 101]);
    ThreeOverTwo([100, 100, 100, 101, 101], 100, 101);
    ModeIsUnique(down, 100);
  }

  /** The roundings of the examples' prices. */
  lemma RoundedExample(prices: seq<F64>, r: seq<int>)
    requires || (prices == [Num(100.2), Num(100.46), Num(100.53), Num(101.08), Num(101.19)] && r == [100, 100, 101, 101, 101])
             || (prices == [Num(100.2), Num(100.46), Num(100.35), Num(101.08), Num(101.19)] && r == [100, 100, 100, 101, 101])
    ensures Rounded(prices) == r
  {
    assert Numeric.Round(100.2) == 100 && Numeric.Round(100.46) == 100 && Numeric.Round(100.35) == 100;
    assert Numeric.Round(100.53) == 101 && Numeric.Round(101.08) == 101 && Numeric.Round(101.19) == 101;
  }

  /** In a sequence holding `v` three times and `w` twice, `v` occurs more often than anything else. */
  lemma ThreeOverTwo(xs: seq<int>, v: int, w: int)
    requires v != w && multiset(xs) == multiset{v, v, v, w, w}
    ensures v in xs && forall u :: u != v ==> Count(xs, u) < Count(xs, v)
  {
    assert v in multiset(xs);
  }
}
