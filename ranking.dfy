/** The pure parts of the selection step of src/Ai/Environment.js: the
    stable sort by fitness (`Array.prototype.sort` with a numeric
    comparator), the first-maximum fold of `evaluateFitness`, and the rank
    arithmetic of `selectParent`. */
module Ranking {
  import opened Wrappers

  /** An element paired with the number it is sorted by. The sort of the
      source compares agents' fitness; pairing each agent with its fitness
      keeps the sort free of the heap. */
  type Keyed<T> = (real, T)

  /** `x` must come strictly before `y`: `a.fitness - b.fitness` is negative
      for the ascending comparator, positive for the descending one. */
  predicate Before<T>(x: Keyed<T>, y: Keyed<T>, descending: bool)
  {
    if descending then x.0 > y.0 else x.0 < y.0
  }

  predicate Sorted<T>(s: seq<Keyed<T>>, descending: bool)
  {
    forall i, j :: 0 <= i < j < |s| ==> !Before(s[j], s[i], descending)
  }

  /** Insert `x` after every element it does not come strictly before, so
      that equal keys keep their order. */
  function Insert<T>(x: Keyed<T>, s: seq<Keyed<T>>, descending: bool): (r: seq<Keyed<T>>)
    ensures |r| == |s| + 1
    decreases |s|
  {
    if s == [] then [x]
    else if Before(x, s[0], descending) then [x] + s
    else [s[0]] + Insert(x, s[1..], descending)
  }

  /** Inserting adds exactly `x`. */
  lemma {:induction false} InsertPermutes<T>(x: Keyed<T>, s: seq<Keyed<T>>, descending: bool)
    ensures multiset(Insert(x, s, descending)) == multiset(s) + multiset{x}
    decreases |s|
  {
    if s != [] && !Before(x, s[0], descending) {
      assert s == [s[0]] + s[1..];
      InsertPermutes(x, s[1..], descending);
    }
  }

  /** Every element of `Insert(x, s)` is `x` or an element of `s`. */
  lemma InsertFrom<T>(x: Keyed<T>, s: seq<Keyed<T>>, descending: bool, k: nat)
    requires k < |Insert(x, s, descending)|
    ensures Insert(x, s, descending)[k] == x || Insert(x, s, descending)[k] in s
  {
    var r := Insert(x, s, descending);
    InsertPermutes(x, s, descending);
    assert r[k] in multiset(r);
    assert r[k] in multiset(s) + multiset{x};
  }

  lemma {:induction false} InsertSorted<T>(x: Keyed<T>, s: seq<Keyed<T>>, descending: bool)
    requires Sorted(s, descending)
    ensures Sorted(Insert(x, s, descending), descending)
    decreases |s|
  {
    if s != [] && !Before(x, s[0], descending) {
      var rest := Insert(x, s[1..], descending);
      InsertSorted(x, s[1..], descending);
      forall k | 0 <= k < |rest|
        ensures !Before(rest[k], s[0], descending)
      {
        InsertFrom(x, s[1..], descending, k);
      }
      var r := [s[0]] + rest;
      forall i, j | 0 <= i < j < |r|
        ensures !Before(r[j], r[i], descending)
      {
        if i > 0 {
          assert r[i] == rest[i - 1] && r[j] == rest[j - 1];
        } else {
          assert r[j] == rest[j - 1];
        }
      }
    }
  }

  /** Stable insertion sort by key. */
  function Sort<T>(s: seq<Keyed<T>>, descending: bool): (r: seq<Keyed<T>>)
    ensures |r| == |s|
    decreases |s|
  {
    if s == [] then []
    else Insert(s[|s| - 1], Sort(s[..|s| - 1], descending), descending)
  }

  /** Sorting permutes the keyed elements. */
  lemma {:induction false} SortPermutes<T>(s: seq<Keyed<T>>, descending: bool)
    ensures multiset(Sort(s, descending)) == multiset(s)
    decreases |s|
  {
    if s != [] {
      var init := s[..|s| - 1];
      assert s == init + [s[|s| - 1]];
      SortPermutes(init, descending);
      InsertPermutes(s[|s| - 1], Sort(init, descending), descending);
    }
  }

  lemma {:induction false} SortSorted<T>(s: seq<Keyed<T>>, descending: bool)
    ensures Sorted(Sort(s, descending), descending)
    decreases |s|
  {
    if s != [] {
      var init := s[..|s| - 1];
      SortSorted(init, descending);
      InsertSorted(s[|s| - 1], Sort(init, descending), descending);
    }
  }

  /** The elements without their keys. */
  function Items<T>(s: seq<Keyed<T>>): (r: seq<T>)
    ensures |r| == |s|
    decreases |s|
  {
    if s == [] then [] else [s[0].1] + Items(s[1..])
  }

  lemma {:induction false} ItemsAt<T>(s: seq<Keyed<T>>, i: nat)
    requires i < |s|
    ensures Items(s)[i] == s[i].1
    decreases |s|
  {
    if i > 0 {
      ItemsAt(s[1..], i - 1);
    }
  }

  lemma {:induction false} ItemsConcat<T>(a: seq<Keyed<T>>, b: seq<Keyed<T>>)
    ensures Items(a + b) == Items(a) + Items(b)
  {
    assert |Items(a + b)| == |Items(a) + Items(b)|;
    forall i | 0 <= i < |a + b|
      ensures Items(a + b)[i] == (Items(a) + Items(b))[i]
    {
      ItemsAt(a + b, i);
      if i < |a| {
        ItemsAt(a, i);
      } else {
        ItemsAt(b, i - |a|);
      }
    }
  }

  lemma ItemsCons<T>(y: Keyed<T>, r: seq<Keyed<T>>)
    ensures Items([y] + r) == [y.1] + Items(r)
  {
    assert ([y] + r)[1..] == r;
  }

  lemma {:induction false} ItemsInsert<T>(x: Keyed<T>, s: seq<Keyed<T>>, descending: bool)
    ensures multiset(Items(Insert(x, s, descending))) == multiset(Items(s)) + multiset{x.1}
    decreases |s|
  {
    if s == [] {
      assert Items([x]) == [x.1];
    } else if Before(x, s[0], descending) {
      ItemsCons(x, s);
    } else {
      ItemsInsert(x, s[1..], descending);
      ItemsInsertLater(x, s, descending);
    }
  }

  /** The step of `ItemsInsert` where `x` goes after the head. */
  lemma ItemsInsertLater<T>(x: Keyed<T>, s: seq<Keyed<T>>, descending: bool)
    requires s != [] && !Before(x, s[0], descending)
    requires multiset(Items(Insert(x, s[1..], descending))) == multiset(Items(s[1..])) + multiset{x.1}
    ensures multiset(Items(Insert(x, s, descending))) == multiset(Items(s)) + multiset{x.1}
  {
    assert s == [s[0]] + s[1..];
    var rest := Insert(x, s[1..], descending);
    assert Insert(x, s, descending) == [s[0]] + rest;
    ConsKeepsAddition(s[0], rest, s[1..], x.1);
  }

  /** Putting the same head on two sequences keeps a multiset relation
      between their elements. */
  lemma ConsKeepsAddition<T>(h: Keyed<T>, r: seq<Keyed<T>>, t: seq<Keyed<T>>, y: T)
    requires multiset(Items(r)) == multiset(Items(t)) + multiset{y}
    ensures multiset(Items([h] + r)) == multiset(Items([h] + t)) + multiset{y}
  {
    ItemsCons(h, r);
    ItemsCons(h, t);
  }

  /** Sorting keyed elements permutes the elements themselves. */
  lemma {:induction false} ItemsSort<T>(s: seq<Keyed<T>>, descending: bool)
    ensures multiset(Items(Sort(s, descending))) == multiset(Items(s))
    decreases |s|
  {
    if s != [] {
      var init := s[..|s| - 1];
      var last := s[|s| - 1];
      assert s == init + [last];
      ItemsConcat(init, [last]);
      ItemsSort(init, descending);
      ItemsInsert(last, Sort(init, descending), descending);
      ConcatKeepsPermutation(Items(Sort(s, descending)), Items(Sort(init, descending)), Items(init), last.1);
    }
  }

  lemma ConcatKeepsPermutation<T>(r: seq<T>, a: seq<T>, b: seq<T>, y: T)
    requires multiset(r) == multiset(a) + multiset{y}
    requires multiset(a) == multiset(b)
    ensures multiset(r) == multiset(b + [y])
  {
  }

  /** `max` after `reduce((max, x) => x > max ? x : max, f[0])` over the
      prefix seen so far, as an index: a later value replaces the current
      maximum only when it is strictly greater. */
  function FirstMaxIndex(f: seq<real>): (k: nat)
    requires |f| > 0
    ensures k < |f|
    ensures forall j :: 0 <= j < |f| ==> f[j] <= f[k]
    ensures forall j :: 0 <= j < k ==> f[j] < f[k]
    decreases |f|
  {
    if |f| == 1 then 0
    else
      var k := FirstMaxIndex(f[..|f| - 1]);
      if f[|f| - 1] > f[k] then |f| - 1 else k
  }

  /** The first index of a maximum is determined by the two properties
      above: any index that has them is `FirstMaxIndex`. */
  lemma FirstMaxUnique(f: seq<real>, k: nat)
    requires k < |f|
    requires forall j :: 0 <= j < |f| ==> f[j] <= f[k]
    requires forall j :: 0 <= j < k ==> f[j] < f[k]
    ensures k == FirstMaxIndex(f)
  {
    var m := FirstMaxIndex(f);
    assert f[m] <= f[k] && f[k] <= f[m];
  }

  /** 1 + 2 + ... + k, the sum of the ranks of `k` agents. */
  function Triangle(k: nat): nat
  {
    if k == 0 then 0 else Triangle(k - 1) + k
  }

  /** The source's `(n * (n + 1)) / 2` is that sum. */
  lemma {:induction false} TriangleFormula(k: nat)
    ensures k * (k + 1) / 2 == Triangle(k)
  {
    if k > 0 {
      TriangleFormula(k - 1);
      assert k * (k + 1) == (k - 1) * k + 2 * k;
    }
  }

  lemma {:induction false} TriangleMonotone(i: nat, j: nat)
    requires i <= j
    ensures Triangle(i) <= Triangle(j)
    decreases j
  {
    if i < j {
      TriangleMonotone(i, j - 1);
    }
  }

  /** `runningSum` after the agent at index `k`, whose rank is `k + 1`. */
  function RunningSum(k: nat): nat
  {
    Triangle(k + 1)
  }

  /** The first index `k` from `i` on, below `n`, at which the running sum
      exceeds the threshold. */
  function RankFrom(n: nat, threshold: real, i: nat): (r: Option<nat>)
    decreases n - i
  {
    if i >= n then None
    else if RunningSum(i) as real > threshold then Some(i)
    else RankFrom(n, threshold, i + 1)
  }

  function RankIndex(n: nat, threshold: real): Option<nat>
  {
    RankFrom(n, threshold, 0)
  }

  lemma {:induction false} RankFromSpec(n: nat, threshold: real, i: nat)
    ensures RankFrom(n, threshold, i).Some? ==>
      var k := RankFrom(n, threshold, i).value;
      && i <= k < n
      && threshold < RunningSum(k) as real
      && forall j :: i <= j < k ==> RunningSum(j) as real <= threshold
    ensures RankFrom(n, threshold, i).None? ==>
      forall j :: i <= j < n ==> RunningSum(j) as real <= threshold
    decreases n - i
  {
    if i < n && RunningSum(i) as real <= threshold {
      RankFromSpec(n, threshold, i + 1);
    }
  }

  /** `selectParent` picks rank `k` exactly when the threshold falls into
      that rank's share, `Triangle(k) <= t < Triangle(k + 1)`. */
  lemma RankIndexSpec(n: nat, threshold: real, k: nat)
    requires 0.0 <= threshold
    ensures RankIndex(n, threshold) == Some(k) <==>
      k < n && Triangle(k) as real <= threshold < Triangle(k + 1) as real
  {
    RankFromSpec(n, threshold, 0);
    assert RunningSum(k) == Triangle(k + 1);
    if k > 0 {
      assert RunningSum(k - 1) == Triangle(k);
    }
    var r := RankIndex(n, threshold);
    if r.Some? && r.value < k {
      TriangleMonotone(r.value + 1, k);
    }
  }

  /** A threshold drawn in [0, Triangle(n)) always selects some rank: the
      loop of `selectParent` never runs off the end. */
  lemma RankIndexInRange(n: nat, threshold: real)
    requires 0.0 <= threshold < Triangle(n) as real
    ensures RankIndex(n, threshold).Some?
    ensures RankIndex(n, threshold).value < n
  {
    RankFromSpec(n, threshold, 0);
    assert n > 0;
    assert RunningSum(n - 1) == Triangle(n);
  }
}
