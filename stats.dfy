/**
 * The summary statistics the dashboard takes from d3: `d3.mean`, `d3.min`,
 * `d3.max` over values that may be missing, and the first-seen list of
 * distinct keys that `d3.set(...).values()` and `d3.map(...).keys()` return.
 * A missing value (undefined, or NaN after coercion) is `None`; d3 skips it.
 */
module Stats {
  import opened Wrappers

  /** The present values of `vals`, in order. */
  function Present(vals: seq<Option<real>>): (xs: seq<real>)
    ensures |xs| <= |vals|
    ensures forall x :: x in xs <==> Some(x) in vals
  {
    if vals == [] then []
    else
      var rest := Present(vals[1..]);
      assert forall x :: Some(x) in vals <==> Some(x) == vals[0] || Some(x) in vals[1..];
      match vals[0]
      case None => rest
      case Some(x) => [x] + rest
  }

  /** Each present value is kept as often as it occurs: d3 skips only the missing ones. */
  lemma {:induction false} PresentCounts(vals: seq<Option<real>>)
    ensures forall x :: multiset(Present(vals))[x] == multiset(vals)[Some(x)]
  {
    if vals != [] {
      PresentCounts(vals[1..]);
      assert vals == [vals[0]] + vals[1..];
    }
  }

  function Sum(xs: seq<real>): real
  {
    if xs == [] then 0.0 else xs[0] + Sum(xs[1..])
  }

  /** `d3.max`: the greatest present value, `None` when there is none. */
  function Max(vals: seq<Option<real>>): (r: Option<real>)
    ensures r.None? <==> forall i :: 0 <= i < |vals| ==> vals[i].None?
    ensures r.Some? ==> Some(r.value) in vals
    ensures r.Some? ==> forall i :: 0 <= i < |vals| && vals[i].Some? ==> vals[i].value <= r.value
  {
    if vals == [] then None
    else
      var rest := Max(vals[1..]);
      assert forall i :: 1 <= i < |vals| ==> vals[i] == vals[1..][i - 1];
      match vals[0]
      case None => rest
      case Some(x) => if rest.Some? && x < rest.value then rest else Some(x)
  }

  /** `d3.min`: the least present value, `None` when there is none. */
  function Min(vals: seq<Option<real>>): (r: Option<real>)
    ensures r.None? <==> forall i :: 0 <= i < |vals| ==> vals[i].None?
    ensures r.Some? ==> Some(r.value) in vals
    ensures r.Some? ==> forall i :: 0 <= i < |vals| && vals[i].Some? ==> r.value <= vals[i].value
  {
    if vals == [] then None
    else
      var rest := Min(vals[1..]);
      assert forall i :: 1 <= i < |vals| ==> vals[i] == vals[1..][i - 1];
      match vals[0]
      case None => rest
      case Some(x) => if rest.Some? && rest.value < x then rest else Some(x)
  }

  /** `d3.mean`: the arithmetic mean of the present values, `None` when there is none. */
  function Mean(vals: seq<Option<real>>): (m: Option<real>)
    ensures m.None? <==> forall i :: 0 <= i < |vals| ==> vals[i].None?
    ensures m.Some? ==> m.value == Average(Present(vals))
    ensures m.Some? ==> Min(vals).Some? && Min(vals).value <= m.value <= Max(vals).value
  {
    var xs := Present(vals);
    if xs == [] then
      assert forall i :: 0 <= i < |vals| ==> vals[i].None? by {
        forall i | 0 <= i < |vals| ensures vals[i].None? {
          assert vals[i] in vals;
        }
      }
      None
    else
      MeanWithinExtent(vals);
      Some(Average(xs))
  }

  /** The sum of the terms divided by their number, each occurrence counted. */
  function Average(xs: seq<real>): (a: real)
    requires xs != []
    ensures a * (|xs| as real) == Sum(xs)
  {
    DivTimes(Sum(xs), |xs| as real);
    Sum(xs) / (|xs| as real)
  }

  /** A worked example: the mean of 10, 20 and 30 is 20. */
  lemma MeanExample()
    ensures Mean([Some(10.0), Some(20.0), Some(30.0)]) == Some(20.0)
  {
    var vals: seq<Option<real>> := [Some(10.0), Some(20.0), Some(30.0)];
    var tail, last := vals[1..], vals[2..];
    assert tail == [Some(20.0), Some(30.0)] && last == [Some(30.0)] && last[1..] == [];
    assert Present(last) == [30.0];
    assert Present(tail) == [20.0, 30.0];
    var xs := [10.0, 20.0, 30.0];
    assert Present(vals) == xs;
    assert xs[1..] == [20.0, 30.0] && xs[2..] == [30.0] && xs[3..] == [];
    assert Sum(xs[2..]) == 30.0;
    assert Sum(xs[1..]) == 50.0;
    assert Sum(xs) == 60.0;
  }

  /** A missing value is skipped: the mean of 10, undefined and 30 is 20. */
  lemma MeanSkipsMissing()
    ensures Mean([Some(10.0), None, Some(30.0)]) == Some(20.0)
  {
    var vals: seq<Option<real>> := [Some(10.0), None, Some(30.0)];
    var tail, last := vals[1..], vals[2..];
    assert tail == [None, Some(30.0)] && last == [Some(30.0)] && last[1..] == [];
    assert Present(last) == [30.0];
    assert Present(tail) == [30.0];
    var xs := [10.0, 30.0];
    assert Present(vals) == xs;
    assert xs[1..] == [30.0] && xs[2..] == [];
    assert Sum(xs[1..]) == 30.0;
    assert Sum(xs) == 40.0;
  }

  /** The mean of the present values lies between their minimum and maximum. */
  lemma MeanWithinExtent(vals: seq<Option<real>>)
    requires Present(vals) != []
    ensures Min(vals).Some? && Max(vals).Some?
    ensures Min(vals).value <= Average(Present(vals)) <= Max(vals).value
  {
    var xs := Present(vals);
    PresentWithinExtent(vals);
    var lo, hi := Min(vals).value, Max(vals).value;
    AverageBounds(xs, lo, hi);
  }

  lemma PresentWithinExtent(vals: seq<Option<real>>)
    requires Present(vals) != []
    ensures Min(vals).Some? && Max(vals).Some?
    ensures forall x :: x in Present(vals) ==> Min(vals).value <= x <= Max(vals).value
  {
    var xs := Present(vals);
    assert Some(xs[0]) in vals;
    forall x | x in xs ensures Min(vals).value <= x <= Max(vals).value {
      var i :| 0 <= i < |vals| && vals[i] == Some(x);
    }
  }

  /** The average of terms between `lo` and `hi` lies between them. */
  lemma AverageBounds(xs: seq<real>, lo: real, hi: real)
    requires xs != []
    requires forall x :: x in xs ==> lo <= x <= hi
    ensures lo <= Average(xs) <= hi
  {
    assert forall i :: 0 <= i < |xs| ==> lo <= xs[i] <= hi by {
      forall i | 0 <= i < |xs| ensures lo <= xs[i] <= hi {
        assert xs[i] in xs;
      }
    }
    SumBounds(xs, lo, hi);
    DivBounds(Sum(xs), |xs| as real, lo, hi);
  }

  lemma DivTimes(s: real, n: real)
    requires n > 0.0
    ensures s / n * n == s
  {
  }

  lemma DivBounds(s: real, n: real, lo: real, hi: real)
    requires n > 0.0 && n * lo <= s <= n * hi
    ensures lo <= s / n <= hi
  {
    assert s / n * n == s;
  }

  /** Each term between `lo` and `hi` bounds the sum by count times `lo` and `hi`. */
  lemma {:induction false} SumBounds(xs: seq<real>, lo: real, hi: real)
    requires forall i :: 0 <= i < |xs| ==> lo <= xs[i] <= hi
    ensures (|xs| as real) * lo <= Sum(xs) <= (|xs| as real) * hi
  {
    if xs != [] {
      var tail := xs[1..];
      assert forall i :: 0 <= i < |tail| ==> tail[i] == xs[i + 1];
      SumBounds(tail, lo, hi);
      StepBounds(xs[0], Sum(tail), |tail| as real, lo, hi);
    }
  }

  /** Adding one more term between `lo` and `hi` keeps the count-times bounds. */
  lemma StepBounds(x: real, s: real, k: real, lo: real, hi: real)
    requires lo <= x <= hi && k * lo <= s <= k * hi
    ensures (k + 1.0) * lo <= x + s <= (k + 1.0) * hi
  {
    assert (k + 1.0) * lo == k * lo + lo;
    assert (k + 1.0) * hi == k * hi + hi;
  }

  /** The position of the first occurrence of `x` in `s`. */
  function IndexOf<T(==)>(s: seq<T>, x: T): (k: nat)
    requires x in s
    ensures k < |s| && s[k] == x && x !in s[..k]
  {
    if s[0] == x then 0
    else
      var k := IndexOf(s[1..], x);
      assert s[..k + 1] == [s[0]] + s[1..][..k];
      k + 1
  }

  predicate NoDuplicates<T(==)>(s: seq<T>)
  {
    forall i, j :: 0 <= i < j < |s| ==> s[i] != s[j]
  }

  /**
   * The distinct elements of `s` in first-seen order: what `d3.set(s).values()`
   * and the keys of `d3.map(s)` list.
   */
  function Distinct<T(==, !new)>(s: seq<T>): (r: seq<T>)
    ensures forall x :: x in r <==> x in s
    ensures NoDuplicates(r)
  {
    if s == [] then []
    else
      var init := s[..|s| - 1];
      var d := Distinct(init);
      assert forall x :: x in s <==> x in init || x == s[|s| - 1];
      if s[|s| - 1] in d then d else d + [s[|s| - 1]]
  }

  /** A first occurrence in a prefix is the first occurrence in the whole sequence. */
  lemma IndexOfPrefix<T>(s: seq<T>, n: nat, x: T)
    requires n <= |s| && x in s[..n]
    ensures IndexOf(s, x) == IndexOf(s[..n], x)
  {
    var k, k' := IndexOf(s, x), IndexOf(s[..n], x);
    assert s[..n][k'] == s[k'];
    assert s[..n][..k'] == s[..k'];
    assert forall j :: 0 <= j < k' ==> s[..k'][j] == s[j];
    assert forall j :: 0 <= j < k ==> s[..k][j] == s[j];
  }

  /** `Distinct` lists the elements in the order of their first occurrence in `s`. */
  lemma {:induction false} DistinctFirstSeenOrder<T(!new)>(s: seq<T>)
    ensures forall i, j :: 0 <= i < j < |Distinct(s)| ==> IndexOf(s, Distinct(s)[i]) < IndexOf(s, Distinct(s)[j])
  {
    if s != [] {
      var n := |s| - 1;
      var init := s[..n];
      var d := Distinct(init);
      DistinctFirstSeenOrder(init);
      forall x | x in d ensures IndexOf(s, x) == IndexOf(init, x) && IndexOf(s, x) < n {
        IndexOfPrefix(s, n, x);
      }
      if s[n] !in d {
        assert s[n] !in init;
        assert s[..n] == init;
        assert IndexOf(s, s[n]) == n;
      }
    }
  }
}
