/** Sequence combinators the source uses through `Array.prototype`: `map`
    with an index, `map` whose callback may throw, `filter`, and
    `Array.from(new Set(xs))`. */
module Seqs {
  import opened Wrappers

  /** `xs.map(f)`. */
  function Map<A, B>(f: A -> B, xs: seq<A>): (r: seq<B>)
    ensures |r| == |xs|
    ensures forall i :: 0 <= i < |xs| ==> r[i] == f(xs[i])
  {
    seq(|xs|, i requires 0 <= i < |xs| => f(xs[i]))
  }

  lemma MapConcat<A, B>(f: A -> B, xs: seq<A>, ys: seq<A>)
    ensures Map(f, xs + ys) == Map(f, xs) + Map(f, ys)
  {
  }

  lemma MapSingle<A, B>(f: A -> B, x: A)
    ensures Map(f, [x]) == [f(x)]
  {
  }

  /** `xs.flatMap(f)`. */
  function FlatMap<A, B>(f: A -> seq<B>, xs: seq<A>): (r: seq<B>)
    ensures forall i :: 0 <= i < |xs| ==> forall j :: 0 <= j < |f(xs[i])| ==> f(xs[i])[j] in r
  {
    if xs == [] then []
    else
      var r := f(xs[0]) + FlatMap(f, xs[1..]);
      assert forall i :: 1 <= i < |xs| ==> xs[i] == xs[1..][i - 1];
      r
  }

  lemma {:induction false} FlatMapConcat<A, B>(f: A -> seq<B>, xs: seq<A>, ys: seq<A>)
    ensures FlatMap(f, xs + ys) == FlatMap(f, xs) + FlatMap(f, ys)
  {
    if xs == [] {
      assert xs + ys == ys;
    } else {
      assert (xs + ys)[1..] == xs[1..] + ys;
      FlatMapConcat(f, xs[1..], ys);
    }
  }

  /** `xs.slice(0, n)`. */
  function Take<T>(xs: seq<T>, n: nat): (r: seq<T>)
    ensures |r| == if |xs| <= n then |xs| else n
    ensures r == xs[..|r|]
  {
    if |xs| <= n then xs else xs[..n]
  }

  /** `xs.filter(p)`. */
  function Filter<T>(p: T -> bool, xs: seq<T>): (r: seq<T>)
    ensures |r| <= |xs|
    ensures forall i :: 0 <= i < |r| ==> p(r[i])
  {
    if xs == [] then []
    else (if p(xs[0]) then [xs[0]] else []) + Filter(p, xs[1..])
  }

  /** The kept elements are exactly the elements that pass. */
  lemma {:induction false} FilterMembers<T>(p: T -> bool, xs: seq<T>)
    ensures forall x :: x in Filter(p, xs) <==> x in xs && p(x)
  {
    if xs != [] {
      FilterMembers(p, xs[1..]);
      assert xs == [xs[0]] + xs[1..];
    }
  }

  /** Whatever holds of every element holds of every kept element. */
  lemma {:induction false} FilterPreserves<T>(p: T -> bool, q: T -> bool, xs: seq<T>)
    requires forall i :: 0 <= i < |xs| ==> q(xs[i])
    ensures forall i :: 0 <= i < |Filter(p, xs)| ==> q(Filter(p, xs)[i])
  {
    if xs != [] {
      assert forall i :: 0 <= i < |xs[1..]| ==> q(xs[1..][i]) by {
        forall i | 0 <= i < |xs[1..]| ensures q(xs[1..][i]) { assert xs[1..][i] == xs[i + 1]; }
      }
      FilterPreserves(p, q, xs[1..]);
    }
  }

  /** Filtering distributes over concatenation, so it keeps the relative order. */
  lemma {:induction false} FilterConcat<T>(p: T -> bool, xs: seq<T>, ys: seq<T>)
    ensures Filter(p, xs + ys) == Filter(p, xs) + Filter(p, ys)
  {
    if xs == [] {
      assert xs + ys == ys;
    } else {
      assert (xs + ys)[1..] == xs[1..] + ys;
      FilterConcat(p, xs[1..], ys);
      var head := if p(xs[0]) then [xs[0]] else [];
      assert Filter(p, xs + ys) == head + (Filter(p, xs[1..]) + Filter(p, ys));
    }
  }

  /** Filtering removes everything when nothing passes. */
  lemma {:induction false} NoneFiltered<T>(p: T -> bool, xs: seq<T>)
    requires forall i :: 0 <= i < |xs| ==> !p(xs[i])
    ensures Filter(p, xs) == []
  {
    if xs != [] {
      NoneFiltered(p, xs[1..]);
    }
  }

  /** The first kept element is the first element that passes. */
  lemma {:induction false} FilterFirst<T>(p: T -> bool, xs: seq<T>, k: nat)
    requires k < |xs| && p(xs[k]) && forall j :: 0 <= j < k ==> !p(xs[j])
    ensures Filter(p, xs) != [] && Filter(p, xs)[0] == xs[k]
  {
    if k > 0 {
      FilterFirst(p, xs[1..], k - 1);
    }
  }

  /** A single element is kept exactly when it passes. */
  lemma FilterSingle<T>(p: T -> bool, x: T)
    ensures Filter(p, [x]) == if p(x) then [x] else []
  {
    assert [x][1..] == [];
  }

  /** Filtering keeps everything exactly when every element passes. */
  lemma {:induction false} FilterAll<T>(p: T -> bool, xs: seq<T>)
    ensures (Filter(p, xs) == xs) <==> forall i :: 0 <= i < |xs| ==> p(xs[i])
  {
    if xs != [] {
      FilterAll(p, xs[1..]);
      if !p(xs[0]) {
        assert |Filter(p, xs)| <= |xs[1..]| < |xs|;
      }
      if forall i :: 0 <= i < |xs| ==> p(xs[i]) {
        assert forall i :: 0 <= i < |xs[1..]| ==> p(xs[1..][i]) by {
          forall i | 0 <= i < |xs[1..]| ensures p(xs[1..][i]) { assert xs[1..][i] == xs[i + 1]; }
        }
      } else if p(xs[0]) {
        var k :| 0 <= k < |xs| && !p(xs[k]);
        assert k > 0 && xs[1..][k - 1] == xs[k];
        assert Filter(p, xs[1..]) != xs[1..];
      }
    }
  }

  /** `xs.findIndex(p)`: the first index whose element satisfies `p`. */
  function FindIndex<T>(p: T -> bool, xs: seq<T>): (r: Option<nat>)
    ensures r.Some? ==> r.value < |xs| && p(xs[r.value]) && forall j :: 0 <= j < r.value ==> !p(xs[j])
    ensures r.None? <==> forall j :: 0 <= j < |xs| ==> !p(xs[j])
  {
    FindIndexFrom(p, xs, 0)
  }

  function FindIndexFrom<T>(p: T -> bool, xs: seq<T>, k: nat): (r: Option<nat>)
    requires k <= |xs| && forall j :: 0 <= j < k ==> !p(xs[j])
    ensures r.Some? ==> k <= r.value < |xs| && p(xs[r.value]) && forall j :: 0 <= j < r.value ==> !p(xs[j])
    ensures r.None? <==> forall j :: 0 <= j < |xs| ==> !p(xs[j])
    decreases |xs| - k
  {
    if k == |xs| then None
    else if p(xs[k]) then Some(k)
    else FindIndexFrom(p, xs, k + 1)
  }

  /** The first index satisfying `p` is the one `FindIndex` returns. */
  lemma FindIndexIsFirst<T>(p: T -> bool, xs: seq<T>, i: nat)
    requires i < |xs| && p(xs[i]) && forall j :: 0 <= j < i ==> !p(xs[j])
    ensures FindIndex(p, xs) == Some(i)
  {
  }

  ghost predicate NoDuplicates<T>(xs: seq<T>) {
    forall i, j :: 0 <= i < j < |xs| ==> xs[i] != xs[j]
  }

  /** The index of the first occurrence of `x` in `xs`. */
  ghost function FirstIndex<T>(xs: seq<T>, x: T): (k: nat)
    requires x in xs
    ensures k < |xs| && xs[k] == x
    ensures forall j :: 0 <= j < k ==> xs[j] != x
  {
    if xs[0] == x then 0 else 1 + FirstIndex(xs[1..], x)
  }

  lemma {:induction false} FirstIndexPrefix<T>(xs: seq<T>, n: nat, x: T)
    requires n <= |xs| && x in xs[..n]
    ensures FirstIndex(xs, x) == FirstIndex(xs[..n], x)
  {
    var k := FirstIndex(xs[..n], x);
    assert xs[k] == x;
    assert forall j :: 0 <= j < k ==> xs[j] != x by {
      forall j | 0 <= j < k ensures xs[j] != x { assert xs[..n][j] == xs[j]; }
    }
  }

  /** `Array.from(new Set(xs))`: every element once, in order of first appearance. */
  function Dedup<T(==)>(xs: seq<T>): (r: seq<T>)
    ensures NoDuplicates(r)
    ensures forall i :: 0 <= i < |r| ==> r[i] in xs
    ensures forall i :: 0 <= i < |xs| ==> xs[i] in r
    ensures |r| <= |xs|
  {
    if xs == [] then []
    else
      var front := xs[..|xs| - 1];
      var d := Dedup(front);
      assert xs == front + [xs[|xs| - 1]];
      if xs[|xs| - 1] in d then d else d + [xs[|xs| - 1]]
  }

  /** The elements of `Dedup(xs)` appear in the order in which each one
      first occurs in `xs`. */
  lemma {:induction false} DedupFirstSeenOrder<T>(xs: seq<T>, i: nat, j: nat)
    requires i < j < |Dedup(xs)|
    ensures Dedup(xs)[i] in xs && Dedup(xs)[j] in xs
    ensures FirstIndex(xs, Dedup(xs)[i]) < FirstIndex(xs, Dedup(xs)[j])
  {
    var n := |xs|;
    var front := xs[..n - 1];
    var d := Dedup(front);
    var last := xs[n - 1];
    assert xs == front + [last];
    var r := Dedup(xs);
    if last in d || j < |d| {
      assert r[i] == d[i] && r[j] == d[j];
      DedupFirstSeenOrder(front, i, j);
      FirstIndexPrefix(xs, n - 1, d[i]);
      FirstIndexPrefix(xs, n - 1, d[j]);
    } else {
      assert r[j] == last && r[i] == d[i] && last !in front;
      FirstIndexPrefix(xs, n - 1, d[i]);
      assert forall k :: 0 <= k < n - 1 ==> xs[k] != last by {
        forall k | 0 <= k < n - 1 ensures xs[k] != last { assert front[k] == xs[k]; }
      }
    }
  }

  /** A list that already has no duplicates is its own `Dedup`. */
  lemma {:induction false} DedupOfDistinct<T>(xs: seq<T>)
    requires NoDuplicates(xs)
    ensures Dedup(xs) == xs
  {
    if xs != [] {
      var front := xs[..|xs| - 1];
      assert NoDuplicates(front);
      DedupOfDistinct(front);
      assert xs[|xs| - 1] !in front;
      assert xs == front + [xs[|xs| - 1]];
    }
  }

  /** `i` is the first index at which `f` fails. */
  predicate FirstFailure<A, B>(xs: seq<A>, f: (A, nat) -> Result<B>, i: int) {
    && 0 <= i < |xs|
    && f(xs[i], i).Err?
    && forall j :: 0 <= j < i ==> f(xs[j], j).Ok?
  }

  /** `xs.map((x, i) => f(x, i))` where `f` may throw: the first element that
      fails decides the error, otherwise every result is kept in order. */
  function Traverse<A, B>(xs: seq<A>, f: (A, nat) -> Result<B>): (r: Result<seq<B>>)
    ensures r.Ok? <==> forall i :: 0 <= i < |xs| ==> f(xs[i], i).Ok?
    ensures r.Ok? ==> |r.value| == |xs| && forall i :: 0 <= i < |xs| ==> r.value[i] == f(xs[i], i).value
    ensures forall i :: FirstFailure(xs, f, i) ==> r == Err(f(xs[i], i).error)
  {
    TraverseFrom(xs, f, 0)
  }

  function TraverseFrom<A, B>(xs: seq<A>, f: (A, nat) -> Result<B>, k: nat): (r: Result<seq<B>>)
    requires k <= |xs|
    ensures r.Ok? <==> forall i :: k <= i < |xs| ==> f(xs[i], i).Ok?
    ensures r.Ok? ==> |r.value| == |xs| - k && forall i :: k <= i < |xs| ==> r.value[i - k] == f(xs[i], i).value
    ensures forall i :: k <= i < |xs| && f(xs[i], i).Err? && (forall j :: k <= j < i ==> f(xs[j], j).Ok?)
              ==> r == Err(f(xs[i], i).error)
    decreases |xs| - k
  {
    if k == |xs| then Ok([])
    else
      var head :- f(xs[k], k);
      var tail :- TraverseFrom(xs, f, k + 1);
      Ok([head] + tail)
  }

  /** A traversal fails exactly when some element fails, and then with the
      error of the first one. */
  lemma TraverseFailsAtFirst<A, B>(xs: seq<A>, f: (A, nat) -> Result<B>)
    requires Traverse(xs, f).Err?
    ensures exists i :: FirstFailure(xs, f, i) && Traverse(xs, f).error == f(xs[i], i).error
  {
    var i :| 0 <= i < |xs| && f(xs[i], i).Err?;
    var first := FirstFailingIndex(xs, f, i);
    assert FirstFailure(xs, f, first);
  }

  ghost function FirstFailingIndex<A, B>(xs: seq<A>, f: (A, nat) -> Result<B>, bound: nat): (i: nat)
    requires bound < |xs| && f(xs[bound], bound).Err?
    ensures FirstFailure(xs, f, i) && i <= bound
  {
    if forall j :: 0 <= j < bound ==> f(xs[j], j).Ok? then bound
    else
      var j :| 0 <= j < bound && f(xs[j], j).Err?;
      FirstFailingIndex(xs, f, j)
  }
}
