/**
 * Generic sequence operations that the pages and controllers use through
 * JavaScript's `filter`, `reduce` and `sort` and Laravel's collection methods:
 * an order-preserving filter, a left-to-right sum, and a stable insertion sort.
 */
module Collections {

  /** `r` is obtained from `s` by deleting elements, keeping the order of the rest. */
  predicate Subsequence<T(==)>(r: seq<T>, s: seq<T>)
    decreases |s|
  {
    if r == [] then true
    else if s == [] then false
    else if r[0] == s[0] then Subsequence(r[1..], s[1..])
    else Subsequence(r, s[1..])
  }

  /** Keeps, in their order, the elements of `s` that satisfy `p` (Array.prototype.filter). */
  function Filter<T(!new)>(s: seq<T>, p: T -> bool): (r: seq<T>)
    ensures |r| <= |s|
    ensures forall x :: x in r <==> x in s && p(x)
    ensures forall i :: 0 <= i < |r| ==> p(r[i])
    ensures multiset(r) <= multiset(s)
  {
    if s == [] then []
    else
      assert s == [s[0]] + s[1..];
      if p(s[0]) then [s[0]] + Filter(s[1..], p)
      else Filter(s[1..], p)
  }

  lemma {:induction false} FilterIsSubsequence<T(!new)>(s: seq<T>, p: T -> bool)
    ensures Subsequence(Filter(s, p), s)
  {
    if s != [] {
      FilterIsSubsequence(s[1..], p);
    }
  }

  lemma {:induction false} FilterConcat<T(!new)>(a: seq<T>, b: seq<T>, p: T -> bool)
    ensures Filter(a + b, p) == Filter(a, p) + Filter(b, p)
  {
    if a != [] {
      var ab := a + b;
      assert ab[0] == a[0];
      assert ab[1..] == a[1..] + b;
      assert Filter(ab, p) == (if p(a[0]) then [a[0]] else []) + Filter(a[1..] + b, p);
      assert Filter(a, p) == (if p(a[0]) then [a[0]] else []) + Filter(a[1..], p);
      FilterConcat(a[1..], b, p);
    } else {
      assert a + b == b;
    }
  }

  /** When every element passes, the filter returns its input unchanged. */
  lemma {:induction false} FilterAll<T(!new)>(s: seq<T>, p: T -> bool)
    requires forall i :: 0 <= i < |s| ==> p(s[i])
    ensures Filter(s, p) == s
  {
    if s != [] {
      FilterAll(s[1..], p);
    }
  }

  /** When no element passes, the filter is empty. */
  lemma {:induction false} FilterNone<T(!new)>(s: seq<T>, p: T -> bool)
    requires forall i :: 0 <= i < |s| ==> !p(s[i])
    ensures Filter(s, p) == []
  {
    if s != [] {
      FilterNone(s[1..], p);
    }
  }

  /** Two tests that agree on every element keep the same elements. */
  lemma {:induction false} FilterCongruent<T(!new)>(s: seq<T>, p: T -> bool, q: T -> bool)
    requires forall i :: 0 <= i < |s| ==> p(s[i]) == q(s[i])
    ensures Filter(s, p) == Filter(s, q)
  {
    if s != [] {
      FilterCongruent(s[1..], p, q);
    }
  }

  /** Left-to-right sum of `f` over `s`, in the order of Array.prototype.reduce. */
  function Sum<T>(s: seq<T>, f: T -> real): real
  {
    if s == [] then 0.0 else Sum(s[..|s| - 1], f) + f(s[|s| - 1])
  }

  lemma {:induction false} SumConcat<T>(a: seq<T>, b: seq<T>, f: T -> real)
    ensures Sum(a + b, f) == Sum(a, f) + Sum(b, f)
    decreases |b|
  {
    if b == [] {
      assert a + b == a;
    } else {
      assert (a + b)[..|a + b| - 1] == a + b[..|b| - 1];
      SumConcat(a, b[..|b| - 1], f);
    }
  }

  /** Sum over the first element plus the rest. */
  lemma SumCons<T>(s: seq<T>, f: T -> real)
    requires s != []
    ensures Sum(s, f) == f(s[0]) + Sum(s[1..], f)
  {
    assert s == [s[0]] + s[1..];
    SumConcat([s[0]], s[1..], f);
    assert [s[0]][..0] == [];
  }

  /** Summing the two halves of a partition gives the whole sum. */
  lemma {:induction false} SumPartition<T(!new)>(s: seq<T>, p: T -> bool, f: T -> real)
    ensures Sum(s, f) == Sum(Filter(s, p), f) + Sum(Filter(s, x => !p(x)), f)
  {
    if s != [] {
      SumPartition(s[1..], p, f);
      SumCons(s, f);
      if p(s[0]) {
        SumCons(Filter(s, p), f);
        assert Filter(s, p)[1..] == Filter(s[1..], p);
      } else {
        SumCons(Filter(s, x => !p(x)), f);
        assert Filter(s, x => !p(x))[1..] == Filter(s[1..], x => !p(x));
      }
    }
  }

  /** A sum whose terms are all non-negative is non-negative. */
  lemma {:induction false} SumNonNegative<T>(s: seq<T>, f: T -> real)
    requires forall i :: 0 <= i < |s| ==> f(s[i]) >= 0.0
    ensures Sum(s, f) >= 0.0
  {
    if s != [] {
      SumNonNegative(s[..|s| - 1], f);
    }
  }

  /** Sums agree when the summed functions agree on every element. */
  lemma {:induction false} SumCongruent<T>(s: seq<T>, f: T -> real, g: T -> real)
    requires forall i :: 0 <= i < |s| ==> f(s[i]) == g(s[i])
    ensures Sum(s, f) == Sum(s, g)
  {
    if s != [] {
      SumCongruent(s[..|s| - 1], f, g);
    }
  }

  /** Sums depend only on the multiset of elements: a permutation has the same sum. */
  lemma {:induction false} SumPermutation<T>(a: seq<T>, b: seq<T>, f: T -> real)
    requires multiset(a) == multiset(b)
    ensures Sum(a, f) == Sum(b, f)
    decreases |a|
  {
    if a != [] {
      var x := a[0];
      assert x in multiset(b);
      var k :| 0 <= k < |b| && b[k] == x;
      var rest := b[..k] + b[k + 1..];
      RemoveAt(b, k);
      assert a == [x] + a[1..];
      assert multiset(a[1..]) == multiset(rest);
      SumPermutation(a[1..], rest, f);
      SumCons(a, f);
      SumRemoveAt(b, k, f);
    }
  }

  lemma RemoveAt<T>(b: seq<T>, k: nat)
    requires k < |b|
    ensures multiset(b[..k] + b[k + 1..]) == multiset(b) - multiset{b[k]}
  {
    assert b == b[..k] + [b[k]] + b[k + 1..];
  }

  lemma SumRemoveAt<T>(b: seq<T>, k: nat, f: T -> real)
    requires k < |b|
    ensures Sum(b, f) == f(b[k]) + Sum(b[..k] + b[k + 1..], f)
  {
    var x, front, back := b[k], b[..k], b[k + 1..];
    assert b == (front + [x]) + back;
    SumConcat(front + [x], back, f);
    SumSnoc(front, x, f);
    SumConcat(front, back, f);
  }

  lemma SumSnoc<T>(s: seq<T>, x: T, f: T -> real)
    ensures Sum(s + [x], f) == Sum(s, f) + f(x)
  {
    assert (s + [x])[..|s|] == s;
  }

  /** `le` is a total preorder: total and transitive. */
  ghost predicate TotalPreorder<T(!new)>(le: (T, T) -> bool)
  {
    && (forall x, y :: le(x, y) || le(y, x))
    && (forall x, y, z :: le(x, y) && le(y, z) ==> le(x, z))
  }

  /** Every earlier element is `le` every later one. */
  ghost predicate SortedBy<T>(s: seq<T>, le: (T, T) -> bool)
  {
    forall i, j :: 0 <= i < j < |s| ==> le(s[i], s[j])
  }

  /** Inserts `x` before the first element it is `le`; ties keep `x` first. */
  function Insert<T>(x: T, s: seq<T>, le: (T, T) -> bool): (r: seq<T>)
    ensures multiset(r) == multiset(s) + multiset{x}
    ensures |r| == |s| + 1
  {
    if s == [] then [x]
    else if le(x, s[0]) then [x] + s
    else
      assert s == [s[0]] + s[1..];
      [s[0]] + Insert(x, s[1..], le)
  }

  /** Stable insertion sort by `le` (Array.prototype.sort with a consistent comparator). */
  function SortBy<T>(s: seq<T>, le: (T, T) -> bool): (r: seq<T>)
    ensures multiset(r) == multiset(s)
    ensures |r| == |s|
  {
    if s == [] then []
    else
      assert s == [s[0]] + s[1..];
      Insert(s[0], SortBy(s[1..], le), le)
  }

  lemma {:induction false} InsertSorted<T(!new)>(x: T, s: seq<T>, le: (T, T) -> bool)
    requires TotalPreorder(le)
    requires SortedBy(s, le)
    ensures SortedBy(Insert(x, s, le), le)
  {
    if s != [] && !le(x, s[0]) {
      InsertSorted(x, s[1..], le);
      var r := Insert(x, s, le);
      var t := Insert(x, s[1..], le);
      assert r == [s[0]] + t;
      forall j | 0 < j < |r| ensures le(r[0], r[j]) {
        assert r[j] in multiset(t);
        assert r[j] in multiset(s[1..]) + multiset{x};
        if r[j] == x {
          assert le(s[0], x);
        } else {
          assert r[j] in s[1..];
        }
      }
    }
  }

  lemma {:induction false} SortBySorted<T(!new)>(s: seq<T>, le: (T, T) -> bool)
    requires TotalPreorder(le)
    ensures SortedBy(SortBy(s, le), le)
  {
    if s != [] {
      SortBySorted(s[1..], le);
      InsertSorted(s[0], SortBy(s[1..], le), le);
    }
  }

  /** The sum of a pointwise sum is the sum of the two sums. */
  lemma {:induction false} SumAdd<T>(s: seq<T>, f: T -> real, g: T -> real, h: T -> real)
    requires forall i :: 0 <= i < |s| ==> h(s[i]) == f(s[i]) + g(s[i])
    ensures Sum(s, h) == Sum(s, f) + Sum(s, g)
  {
    if s != [] {
      SumAdd(s[..|s| - 1], f, g, h);
    }
  }

  /** Each term between `lo` and `hi` bounds the sum between `|s| * lo` and `|s| * hi`. */
  lemma {:induction false} SumBounds<T>(s: seq<T>, f: T -> real, lo: real, hi: real)
    requires forall i :: 0 <= i < |s| ==> lo <= f(s[i]) <= hi
    ensures |s| as real * lo <= Sum(s, f) <= |s| as real * hi
  {
    if s != [] {
      SumBounds(s[..|s| - 1], f, lo, hi);
    }
  }

  /** Index of the last element whose key is `k`, or -1 when there is none. */
  function LastIndexOf<T, K(==)>(s: seq<T>, key: T -> K, k: K): (i: int)
    ensures -1 <= i < |s|
    ensures i == -1 <==> forall j :: 0 <= j < |s| ==> key(s[j]) != k
    ensures i >= 0 ==> key(s[i]) == k
    ensures forall j :: i < j < |s| ==> key(s[j]) != k
  {
    if s == [] then -1
    else if key(s[|s| - 1]) == k then |s| - 1
    else LastIndexOf(s[..|s| - 1], key, k)
  }

  /** The keys that occur in `s`. */
  function KeysOf<T, K(==)>(s: seq<T>, key: T -> K): (r: set<K>)
    ensures forall i :: 0 <= i < |s| ==> key(s[i]) in r
    ensures forall k :: k in r ==> LastIndexOf(s, key, k) >= 0
  {
    if s == [] then {}
    else KeysOf(s[..|s| - 1], key) + {key(s[|s| - 1])}
  }

  /**
   * The dictionary that assigning `d[key(x)] = val(x)` for each `x` of `s`, in
   * order, leaves behind.
   */
  function KeyedBy<T, K(==), V>(s: seq<T>, key: T -> K, val: T -> V): map<K, V>
  {
    if s == [] then map[]
    else KeyedBy(s[..|s| - 1], key, val)[key(s[|s| - 1]) := val(s[|s| - 1])]
  }

  /** Every key that occurs has an entry, none other does, and the last element with that key wins. */
  lemma {:induction false} KeyedByLastWins<T, K, V>(s: seq<T>, key: T -> K, val: T -> V)
    ensures KeyedBy(s, key, val).Keys == KeysOf(s, key)
    ensures forall k :: k in KeyedBy(s, key, val) ==>
              KeyedBy(s, key, val)[k] == val(s[LastIndexOf(s, key, k)])
  {
    if s != [] {
      var init, last := s[..|s| - 1], s[|s| - 1];
      KeyedByLastWins(init, key, val);
      forall k | k in KeyedBy(s, key, val)
        ensures KeyedBy(s, key, val)[k] == val(s[LastIndexOf(s, key, k)])
      {
        if k != key(last) {
          assert LastIndexOf(s, key, k) == LastIndexOf(init, key, k);
          assert s[LastIndexOf(init, key, k)] == init[LastIndexOf(init, key, k)];
        }
      }
    }
  }

  /** The test `x => key(x) === k`, as one function value wherever it is used. */
  function KeyIs<T, K(==)>(key: T -> K, k: K): T -> bool
  {
    x => key(x) == k
  }

  /** The sum of `f` over the elements whose key is `k`. */
  function KeySum<T(!new), K(==)>(s: seq<T>, key: T -> K, f: T -> real, k: K): real
  {
    Sum(Filter(s, KeyIs(key, k)), f)
  }

  /** Appending one element adds its value to the sum of its own key only. */
  lemma KeySumSnoc<T(!new), K>(s: seq<T>, last: T, key: T -> K, f: T -> real, k: K)
    ensures KeySum(s + [last], key, f, k) == KeySum(s, key, f, k) + (if key(last) == k then f(last) else 0.0)
  {
    FilterConcat(s, [last], KeyIs(key, k));
    SumConcat(Filter(s, KeyIs(key, k)), Filter([last], KeyIs(key, k)), f);
    assert [last][1..] == [];
    assert [last][..0] == [];
  }

  /** Filtering a sequence grown by one element. */
  lemma FilterSnoc<T(!new)>(s: seq<T>, last: T, p: T -> bool)
    ensures Filter(s + [last], p) == if p(last) then Filter(s, p) + [last] else Filter(s, p)
  {
    FilterConcat(s, [last], p);
    assert [last][1..] == [];
    assert Filter([last], p) == if p(last) then [last] else [];
    assert Filter(s, p) + [] == Filter(s, p);
  }

  /** A key that no element has sums to zero. */
  lemma KeySumAbsent<T(!new), K>(s: seq<T>, key: T -> K, f: T -> real, k: K)
    requires forall j :: 0 <= j < |s| ==> key(s[j]) != k
    ensures KeySum(s, key, f, k) == 0.0
  {
    FilterNone(s, KeyIs(key, k));
  }

  /**
   * The dictionary that `d[key(x)] = (d[key(x)] || 0) + f(x)` for each `x` of
   * `s`, in order, leaves behind.
   */
  function SumsBy<T, K(==)>(s: seq<T>, key: T -> K, f: T -> real): map<K, real>
  {
    if s == [] then map[]
    else
      var m := SumsBy(s[..|s| - 1], key, f);
      var k := key(s[|s| - 1]);
      m[k := (if k in m then m[k] else 0.0) + f(s[|s| - 1])]
  }

  /** Exactly the keys that occur have an entry, and each entry is the sum over that key's elements. */
  lemma SumsBySpec<T(!new), K>(s: seq<T>, key: T -> K, f: T -> real)
    ensures SumsBy(s, key, f).Keys == KeysOf(s, key)
    ensures forall k :: k in SumsBy(s, key, f) ==> SumsBy(s, key, f)[k] == KeySum(s, key, f, k)
  {
    SumsByKeys(s, key, f);
    SumsByValues(s, key, f);
  }

  lemma {:induction false} SumsByKeys<T, K>(s: seq<T>, key: T -> K, f: T -> real)
    ensures SumsBy(s, key, f).Keys == KeysOf(s, key)
  {
    if s != [] {
      SumsByKeys(s[..|s| - 1], key, f);
    }
  }

  lemma SumsByValues<T(!new), K>(s: seq<T>, key: T -> K, f: T -> real)
    ensures forall k :: k in SumsBy(s, key, f) ==> SumsBy(s, key, f)[k] == KeySum(s, key, f, k)
  {
    forall k | k in SumsBy(s, key, f) ensures SumsBy(s, key, f)[k] == KeySum(s, key, f, k) {
      SumsByEntry(s, key, f, k);
    }
  }

  /** The entry of one key is the sum over that key's elements. */
  lemma {:induction false} SumsByEntry<T(!new), K>(s: seq<T>, key: T -> K, f: T -> real, k: K)
    ensures k in SumsBy(s, key, f) ==> SumsBy(s, key, f)[k] == KeySum(s, key, f, k)
  {
    if s != [] {
      var init, last := s[..|s| - 1], s[|s| - 1];
      SumsByEntry(init, key, f, k);
      SumsByKeys(init, key, f);
      assert s == init + [last];
      if k in SumsBy(s, key, f) {
        SumsByStep(init, last, key, f, k);
      }
    }
  }

  /** One step of the sums: the last element adds to its own key's entry. */
  lemma SumsByStep<T(!new), K>(init: seq<T>, last: T, key: T -> K, f: T -> real, k: K)
    requires k in SumsBy(init, key, f) <==> k in KeysOf(init, key)
    requires k in SumsBy(init, key, f) ==> SumsBy(init, key, f)[k] == KeySum(init, key, f, k)
    requires k in SumsBy(init + [last], key, f)
    ensures SumsBy(init + [last], key, f)[k] == KeySum(init + [last], key, f, k)
  {
    assert (init + [last])[..|init|] == init;
    KeySumSnoc(init, last, key, f, k);
    if k !in SumsBy(init, key, f) {
      KeySumAbsent(init, key, f, k);
    }
  }

  /** A map entry, or 0 when the key is absent (`d[k] || 0`). */
  function EntryOrZero<K>(m: map<K, real>, k: K): real
  {
    if k in m then m[k] else 0.0
  }

  /** How many times `x` occurs in a filtered sequence: as often as in the input when it passes, else never. */
  lemma {:induction false} FilterMultiset<T(!new)>(s: seq<T>, p: T -> bool)
    ensures forall x :: multiset(Filter(s, p))[x] == if p(x) then multiset(s)[x] else 0
  {
    if s != [] {
      FilterMultiset(s[1..], p);
      assert s == [s[0]] + s[1..];
      assert multiset(s) == multiset{s[0]} + multiset(s[1..]);
      if p(s[0]) {
        assert multiset(Filter(s, p)) == multiset{s[0]} + multiset(Filter(s[1..], p));
      }
    }
  }

  /** No element occurs twice. */
  ghost predicate NoDuplicates<T>(s: seq<T>)
  {
    forall i, j :: 0 <= i < j < |s| ==> s[i] != s[j]
  }

  /** Without duplicates, every element occurs at most once. */
  lemma {:induction false} NoDuplicatesOnce<T>(s: seq<T>, x: T)
    requires NoDuplicates(s)
    ensures multiset(s)[x] <= 1
  {
    if s != [] {
      assert s == [s[0]] + s[1..];
      assert NoDuplicates(s[1..]) by {
        forall i, j | 0 <= i < j < |s[1..]| ensures s[1..][i] != s[1..][j] {
          assert s[1..][i] == s[i + 1] && s[1..][j] == s[j + 1];
        }
      }
      NoDuplicatesOnce(s[1..], x);
      if x == s[0] {
        assert x !in s[1..] by {
          forall j | 0 <= j < |s[1..]| ensures s[1..][j] != x {
            assert s[1..][j] == s[j + 1];
          }
        }
      }
    }
  }

  /** A permutation of a sequence without duplicates has none either. */
  lemma NoDuplicatesPermutation<T>(a: seq<T>, b: seq<T>)
    requires NoDuplicates(a) && multiset(a) == multiset(b)
    ensures NoDuplicates(b)
  {
    forall i, j | 0 <= i < j < |b| ensures b[i] != b[j] {
      NoDuplicatesOnce(a, b[i]);
      assert b == b[..j] + [b[j]] + b[j + 1..];
      assert b[i] in b[..j];
      assert multiset(b)[b[i]] >= multiset(b[..j])[b[i]] + multiset([b[j]])[b[i]];
    }
  }
}
