/** Generic list operations that every screen of the application uses on its
    immutable arrays: `find`, `filter`, `map`-by-id replacement, summing with
    `reduce`, and de-duplication through a `Set`. Each is stated once here and
    instantiated with the entity's key or predicate by the screen modules. */
module Collections {

  datatype Option<+T> = None | Some(value: T)

  /** Position of the first element satisfying `p`, the index behind
      `Array.prototype.find`. */
  function FindIndex<T>(xs: seq<T>, p: T -> bool): (r: Option<nat>)
    ensures r.None? <==> forall i :: 0 <= i < |xs| ==> !p(xs[i])
    ensures r.Some? ==> r.value < |xs| && p(xs[r.value])
    ensures r.Some? ==> forall j :: 0 <= j < r.value ==> !p(xs[j])
  {
    if |xs| == 0 then None
    else if p(xs[0]) then Some(0)
    else
      match FindIndex(xs[1..], p)
      case None => None
      case Some(i) => Some(i + 1)
  }

  /** `xs.find(p)`: the first element satisfying `p`, or nothing. */
  function FindFirst<T>(xs: seq<T>, p: T -> bool): (r: Option<T>)
    ensures r.None? <==> forall i :: 0 <= i < |xs| ==> !p(xs[i])
    ensures r.Some? ==> exists i :: 0 <= i < |xs| && xs[i] == r.value && p(xs[i])
                                    && forall j :: 0 <= j < i ==> !p(xs[j])
  {
    match FindIndex(xs, p)
    case None => None
    case Some(i) => Some(xs[i])
  }

  /** `xs.filter(p)`: keeps, in order, exactly the elements satisfying `p`. */
  function Filter<T>(xs: seq<T>, p: T -> bool): (r: seq<T>)
    ensures |r| <= |xs|
    ensures forall i :: 0 <= i < |r| ==> r[i] in xs && p(r[i])
    ensures forall i :: 0 <= i < |xs| && p(xs[i]) ==> xs[i] in r
  {
    if |xs| == 0 then []
    else
      assert xs == [xs[0]] + xs[1..];
      if p(xs[0]) then [xs[0]] + Filter(xs[1..], p) else Filter(xs[1..], p)
  }

  /** Filtering distributes over concatenation, so the survivors keep their
      relative order. */
  lemma {:induction false} FilterConcat<T>(a: seq<T>, b: seq<T>, p: T -> bool)
    ensures Filter(a + b, p) == Filter(a, p) + Filter(b, p)
  {
    if |a| == 0 {
      assert a + b == b;
    } else {
      assert (a + b)[1..] == a[1..] + b;
      FilterConcat(a[1..], b, p);
    }
  }

  /** A filter whose predicate holds everywhere returns the list unchanged. */
  lemma {:induction false} FilterKeepsAll<T>(xs: seq<T>, p: T -> bool)
    requires forall i :: 0 <= i < |xs| ==> p(xs[i])
    ensures Filter(xs, p) == xs
  {
    if |xs| > 0 {
      FilterKeepsAll(xs[1..], p);
    }
  }

  /** `xs.map(x => key(x) === key(u) ? u : x)`: replaces by key. */
  function ReplaceWhere<T>(xs: seq<T>, key: T -> string, u: T): (r: seq<T>)
    ensures |r| == |xs|
    ensures forall i :: 0 <= i < |xs| ==> r[i] == (if key(xs[i]) == key(u) then u else xs[i])
  {
    seq(|xs|, i requires 0 <= i < |xs| => if key(xs[i]) == key(u) then u else xs[i])
  }

  /** Replacing twice with the same record is replacing once. */
  lemma ReplaceWhereIdempotent<T>(xs: seq<T>, key: T -> string, u: T)
    ensures ReplaceWhere(ReplaceWhere(xs, key, u), key, u) == ReplaceWhere(xs, key, u)
  {
  }

  /** After a replacement whose key is present, looking that key up yields the
      new record. */
  lemma ReplaceWhereThenFind<T>(xs: seq<T>, key: T -> string, u: T)
    requires exists i :: 0 <= i < |xs| && key(xs[i]) == key(u)
    ensures FindFirst(ReplaceWhere(xs, key, u), x => key(x) == key(u)) == Some(u)
  {
    var r := ReplaceWhere(xs, key, u);
    var f := FindFirst(r, x => key(x) == key(u));
    var i :| 0 <= i < |xs| && key(xs[i]) == key(u);
    assert key(r[i]) == key(u);
  }

  /** `list.filter(x => key(x) !== k)`: deletion by key. */
  function RemoveWhere<T>(xs: seq<T>, key: T -> string, k: string): (r: seq<T>)
    ensures forall i :: 0 <= i < |r| ==> r[i] in xs && key(r[i]) != k
    ensures forall i :: 0 <= i < |xs| && key(xs[i]) != k ==> xs[i] in r
    ensures |r| <= |xs|
  {
    Filter(xs, x => key(x) != k)
  }

  /** Filtering keeps each element exactly as often as it occurs when it
      satisfies the predicate, and drops every occurrence otherwise. */
  lemma {:induction false} FilterCounts<T>(xs: seq<T>, p: T -> bool)
    ensures forall i :: 0 <= i < |xs| ==>
              multiset(Filter(xs, p))[xs[i]] == if p(xs[i]) then multiset(xs)[xs[i]] else 0
  {
    if |xs| > 0 {
      FilterCounts(xs[1..], p);
      assert xs == [xs[0]] + xs[1..];
      forall i | 0 <= i < |xs|
        ensures multiset(Filter(xs, p))[xs[i]] == if p(xs[i]) then multiset(xs)[xs[i]] else 0
      {
        var x := xs[i];
        if x !in xs[1..] {
          assert multiset(xs[1..])[x] == 0;
          assert multiset(Filter(xs[1..], p))[x] == 0;
        }
      }
    }
  }

  /** Deletion by key keeps each element with another key exactly as often
      as it occurs, and no element with the deleted key. */
  lemma RemoveWhereCounts<T>(xs: seq<T>, key: T -> string, k: string)
    ensures forall i :: 0 <= i < |xs| ==>
              multiset(RemoveWhere(xs, key, k))[xs[i]] == if key(xs[i]) != k then multiset(xs)[xs[i]] else 0
  {
    FilterCounts(xs, x => key(x) != k);
  }

  /** Deleting a key that was just prepended and was not present before
      restores the previous list. */
  lemma PrependThenRemove<T>(xs: seq<T>, key: T -> string, x: T)
    requires forall i :: 0 <= i < |xs| ==> key(xs[i]) != key(x)
    ensures RemoveWhere([x] + xs, key, key(x)) == xs
  {
    assert ([x] + xs)[1..] == xs;
    FilterKeepsAll(xs, y => key(y) != key(x));
  }

  /** Deletion keeps the relative order of the survivors: it distributes over
      any split of the list. */
  lemma RemoveWhereConcat<T>(a: seq<T>, b: seq<T>, key: T -> string, k: string)
    ensures RemoveWhere(a + b, key, k) == RemoveWhere(a, key, k) + RemoveWhere(b, key, k)
  {
    FilterConcat(a, b, x => key(x) != k);
  }

  /** Deletion from a list split at `i` is deletion from each part. */
  lemma RemoveWhereSplit<T>(xs: seq<T>, key: T -> string, k: string, i: nat)
    requires i <= |xs|
    ensures RemoveWhere(xs, key, k) == RemoveWhere(xs[..i], key, k) + RemoveWhere(xs[i..], key, k)
  {
    assert xs == xs[..i] + xs[i..];
    RemoveWhereConcat(xs[..i], xs[i..], key, k);
  }

  /** `xs.reduce((sum, x) => sum + f(x), 0)` over exact reals. */
  function SumOf<T>(xs: seq<T>, f: T -> real): real
  {
    if |xs| == 0 then 0.0 else f(xs[0]) + SumOf(xs[1..], f)
  }

  lemma {:induction false} SumOfConcat<T>(a: seq<T>, b: seq<T>, f: T -> real)
    ensures SumOf(a + b, f) == SumOf(a, f) + SumOf(b, f)
  {
    if |a| == 0 {
      assert a + b == b;
    } else {
      assert (a + b)[1..] == a[1..] + b;
      SumOfConcat(a[1..], b, f);
    }
  }

  /** The sum splits at any position of the list. */
  lemma SumOfSplitAnywhere<T>(xs: seq<T>, f: T -> real)
    ensures forall k :: 0 <= k <= |xs| ==> SumOf(xs, f) == SumOf(xs[..k], f) + SumOf(xs[k..], f)
  {
    forall k | 0 <= k <= |xs|
      ensures SumOf(xs, f) == SumOf(xs[..k], f) + SumOf(xs[k..], f)
    {
      assert xs == xs[..k] + xs[k..];
      SumOfConcat(xs[..k], xs[k..], f);
    }
  }

  /** Two lists of equal length whose elements agree under `f` and `g` have
      equal sums. */
  lemma {:induction false} SumOfPointwise<T, U>(xs: seq<T>, f: T -> real, ys: seq<U>, g: U -> real)
    requires |xs| == |ys|
    requires forall i :: 0 <= i < |xs| ==> f(xs[i]) == g(ys[i])
    ensures SumOf(xs, f) == SumOf(ys, g)
  {
    if |xs| > 0 {
      SumOfPointwise(xs[1..], f, ys[1..], g);
    }
  }

  lemma {:induction false} SumOfNonNegative<T>(xs: seq<T>, f: T -> real)
    requires forall i :: 0 <= i < |xs| ==> f(xs[i]) >= 0.0
    ensures SumOf(xs, f) >= 0.0
  {
    if |xs| > 0 {
      SumOfNonNegative(xs[1..], f);
    }
  }

  /** Summing the elements that satisfy `p` and those that do not gives the
      sum of the whole list. */
  lemma {:induction false} SumOfPartition<T>(xs: seq<T>, p: T -> bool, q: T -> bool, f: T -> real)
    requires forall i :: 0 <= i < |xs| ==> q(xs[i]) == !p(xs[i])
    ensures SumOf(Filter(xs, p), f) + SumOf(Filter(xs, q), f) == SumOf(xs, f)
  {
    if |xs| > 0 {
      SumOfPartition(xs[1..], p, q, f);
    }
  }

  /** Position of the first occurrence of `x`. */
  function IndexOf<T(==)>(xs: seq<T>, x: T): (i: nat)
    requires x in xs
    ensures i < |xs| && xs[i] == x
    ensures forall j :: 0 <= j < i ==> xs[j] != x
  {
    if xs[0] == x then 0 else IndexOf(xs[1..], x) + 1
  }

  /** Dropping the last element does not move the first occurrence of an
      earlier value. */
  lemma IndexOfPrefix<T>(xs: seq<T>, x: T)
    requires |xs| > 0 && x in xs[..|xs| - 1]
    ensures IndexOf(xs, x) == IndexOf(xs[..|xs| - 1], x)
  {
    var i := IndexOf(xs[..|xs| - 1], x);
    var k := IndexOf(xs, x);
    assert xs[i] == x;
    assert k <= i;
    assert xs[..|xs| - 1][k] == x;
  }

  /** `[...new Set(xs)]`: the distinct values of `xs`, each once. */
  function Distinct<T(==)>(xs: seq<T>): (r: seq<T>)
    ensures forall i :: 0 <= i < |r| ==> r[i] in xs
    ensures forall i :: 0 <= i < |xs| ==> xs[i] in r
    ensures forall i, j :: 0 <= i < j < |r| ==> r[i] != r[j]
  {
    if |xs| == 0 then []
    else
      var init := xs[..|xs| - 1];
      var last := xs[|xs| - 1];
      assert xs == init + [last];
      var prev := Distinct(init);
      if last in prev then prev else prev + [last]
  }

  /** A `Set` iterates in insertion order, so the distinct values come out in
      the order of their first occurrence in `xs`. */
  lemma {:induction false} DistinctFirstOccurrenceOrder<T>(xs: seq<T>)
    ensures forall i, j :: 0 <= i < j < |Distinct(xs)| ==>
              IndexOf(xs, Distinct(xs)[i]) < IndexOf(xs, Distinct(xs)[j])
  {
    if |xs| > 0 {
      var init := xs[..|xs| - 1];
      var last := xs[|xs| - 1];
      var prev := Distinct(init);
      var r := Distinct(xs);
      DistinctFirstOccurrenceOrder(init);
      forall y | y in prev
        ensures IndexOf(xs, y) == IndexOf(init, y)
      {
        IndexOfPrefix(xs, y);
      }
      if last !in prev {
        assert r == prev + [last];
        assert last !in init;
        assert IndexOf(xs, last) == |xs| - 1;
        forall i, j | 0 <= i < j < |r|
          ensures IndexOf(xs, r[i]) < IndexOf(xs, r[j])
        {
          if j == |r| - 1 {
            assert r[i] == prev[i];
          } else {
            assert r[i] == prev[i] && r[j] == prev[j];
          }
        }
      }
    }
  }
}
