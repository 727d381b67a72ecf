/** `[...xs].sort((a, b) => key(a).localeCompare(key(b)))`: a stable sort of
    a copy by a string key. The comparison is code-point order. */
module Sorting {
  import opened Seqs

  /** `a` comes no later than `b` in code-point lexicographic order. */
  predicate StrLeq(a: string, b: string) {
    a == [] || (b != [] && (a[0] < b[0] || (a[0] == b[0] && StrLeq(a[1..], b[1..]))))
  }

  lemma {:induction false} StrLeqTotal(a: string, b: string)
    ensures StrLeq(a, b) || StrLeq(b, a)
  {
    if a != [] && b != [] && a[0] == b[0] {
      StrLeqTotal(a[1..], b[1..]);
    }
  }

  lemma {:induction false} StrLeqTrans(a: string, b: string, c: string)
    requires StrLeq(a, b) && StrLeq(b, c)
    ensures StrLeq(a, c)
  {
    if a != [] && a[0] == b[0] && b[0] == c[0] {
      StrLeqTrans(a[1..], b[1..], c[1..]);
    }
  }

  lemma {:induction false} StrLeqAntisym(a: string, b: string)
    requires StrLeq(a, b) && StrLeq(b, a)
    ensures a == b
  {
    if a != [] {
      StrLeqAntisym(a[1..], b[1..]);
      assert a == [a[0]] + a[1..] && b == [b[0]] + b[1..];
    }
  }

  predicate SortedBy<T>(xs: seq<T>, key: T -> string) {
    forall i, j :: 0 <= i < j < |xs| ==> StrLeq(key(xs[i]), key(xs[j]))
  }

  /** `x` placed after every leading element whose key is not greater. */
  function Insert<T>(s: seq<T>, x: T, key: T -> string): (r: seq<T>)
    ensures |r| == |s| + 1
    ensures multiset(r) == multiset(s) + multiset{x}
  {
    if s == [] then [x]
    else if StrLeq(key(s[0]), key(x)) then
      assert s == [s[0]] + s[1..];
      [s[0]] + Insert(s[1..], x, key)
    else [x] + s
  }

  /** Insertion sort, taking the elements from the front. */
  function SortBy<T>(xs: seq<T>, key: T -> string): (r: seq<T>)
    ensures |r| == |xs|
    ensures multiset(r) == multiset(xs)
  {
    if xs == [] then []
    else
      assert xs == xs[..|xs| - 1] + [xs[|xs| - 1]];
      Insert(SortBy(xs[..|xs| - 1], key), xs[|xs| - 1], key)
  }

  lemma {:induction false} InsertSorted<T>(s: seq<T>, x: T, key: T -> string)
    requires SortedBy(s, key)
    ensures SortedBy(Insert(s, x, key), key)
  {
    if s != [] && StrLeq(key(s[0]), key(x)) {
      InsertSorted(s[1..], x, key);
      var r := Insert(s, x, key);
      var tail := Insert(s[1..], x, key);
      assert r == [s[0]] + tail;
      forall j | 0 < j < |r|
        ensures StrLeq(key(r[0]), key(r[j]))
      {
        assert r[j] in multiset(tail);
        assert r[j] in multiset(s[1..]) + multiset{x};
        if r[j] == x {
        } else {
          assert r[j] in s[1..];
          var k :| 0 <= k < |s[1..]| && s[1..][k] == r[j];
          assert s[k + 1] == r[j];
        }
      }
    } else if s != [] {
      StrLeqTotal(key(s[0]), key(x));
      var r := [x] + s;
      forall i, j | 0 <= i < j < |r|
        ensures StrLeq(key(r[i]), key(r[j]))
      {
        if i == 0 {
          if j > 1 {
            StrLeqTrans(key(x), key(s[0]), key(s[j - 1]));
          }
        } else {
          assert r[i] == s[i - 1] && r[j] == s[j - 1];
        }
      }
    }
  }

  lemma {:induction false} SortBySorted<T>(xs: seq<T>, key: T -> string)
    ensures SortedBy(SortBy(xs, key), key)
  {
    if xs != [] {
      SortBySorted(xs[..|xs| - 1], key);
      InsertSorted(SortBy(xs[..|xs| - 1], key), xs[|xs| - 1], key);
    }
  }

  /** The elements whose key is `k`. */
  function HasKey<T>(key: T -> string, k: string): T -> bool {
    (e: T) => key(e) == k
  }

  lemma {:induction false} StrLeqRefl(a: string)
    ensures StrLeq(a, a)
  {
    if a != [] {
      StrLeqRefl(a[1..]);
    }
  }

  /** No element of a sorted list whose first key is greater than `k` has key `k`. */
  lemma AboveKeyNone<T>(s: seq<T>, key: T -> string, k: string)
    requires SortedBy(s, key) && s != [] && !StrLeq(key(s[0]), k)
    ensures Filter(HasKey(key, k), s) == []
  {
    forall i | 0 <= i < |s|
      ensures !HasKey(key, k)(s[i])
    {
      if key(s[i]) == k {
        if i == 0 {
          StrLeqRefl(k);
        }
      }
    }
    NoneFiltered(HasKey(key, k), s);
  }

  /** Inserting into a sorted list puts `x` after every element with the same key. */
  lemma {:induction false} InsertStable<T>(s: seq<T>, x: T, key: T -> string, k: string)
    requires SortedBy(s, key)
    ensures Filter(HasKey(key, k), Insert(s, x, key)) == Filter(HasKey(key, k), s) + Filter(HasKey(key, k), [x])
  {
    var p := HasKey(key, k);
    if s == [] {
    } else if StrLeq(key(s[0]), key(x)) {
      SortedTail(s, key);
      InsertStable(s[1..], x, key, k);
      var tail := Insert(s[1..], x, key);
      calc {
        Filter(p, Insert(s, x, key));
      == { assert Insert(s, x, key) == [s[0]] + tail; FilterConcat(p, [s[0]], tail); }
        Filter(p, [s[0]]) + Filter(p, tail);
      ==
        Filter(p, [s[0]]) + (Filter(p, s[1..]) + Filter(p, [x]));
      ==
        (Filter(p, [s[0]]) + Filter(p, s[1..])) + Filter(p, [x]);
      == { assert s == [s[0]] + s[1..]; FilterConcat(p, [s[0]], s[1..]); }
        Filter(p, s) + Filter(p, [x]);
      }
    } else {
      InsertBeforeStable(s, x, key, k);
    }
  }

  /** `x` placed in front of a sorted list whose first key is greater. */
  lemma InsertBeforeStable<T>(s: seq<T>, x: T, key: T -> string, k: string)
    requires SortedBy(s, key) && s != [] && !StrLeq(key(s[0]), key(x))
    ensures Filter(HasKey(key, k), Insert(s, x, key)) == Filter(HasKey(key, k), s) + Filter(HasKey(key, k), [x])
  {
    var p := HasKey(key, k);
    assert Insert(s, x, key) == [x] + s;
    FilterConcat(p, [x], s);
    if key(x) == k {
      AboveKeyNone(s, key, k);
    } else {
      assert Filter(p, [x]) == [];
    }
  }

  lemma SortedTail<T>(s: seq<T>, key: T -> string)
    requires SortedBy(s, key) && s != []
    ensures SortedBy(s[1..], key)
  {
    forall i, j | 0 <= i < j < |s[1..]|
      ensures StrLeq(key(s[1..][i]), key(s[1..][j]))
    {
      assert s[1..][i] == s[i + 1] && s[1..][j] == s[j + 1];
    }
  }

  /** Stability: among the elements with any one key, the sort keeps the
      input order. */
  lemma {:induction false} SortByStable<T>(xs: seq<T>, key: T -> string, k: string)
    ensures Filter(HasKey(key, k), SortBy(xs, key)) == Filter(HasKey(key, k), xs)
  {
    if xs != [] {
      var front, last := xs[..|xs| - 1], xs[|xs| - 1];
      SortByStable(front, key, k);
      SortBySorted(front, key);
      InsertStable(SortBy(front, key), last, key, k);
      assert xs == front + [last];
      FilterConcat(HasKey(key, k), front, [last]);
    }
  }
}
