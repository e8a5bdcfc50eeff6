/** `list.sort(key=...)`: stable sorting by an integer key, and when it restores a known order. */
module StableSort {

  /** Insert behind every element whose key is not larger. */
  function Insert<T>(x: T, s: seq<T>, key: T -> int): (r: seq<T>)
    ensures |r| == |s| + 1
  {
    if s == [] || key(x) < key(s[0]) then [x] + s else [s[0]] + Insert(x, s[1..], key)
  }

  function Sort<T>(xs: seq<T>, key: T -> int): (r: seq<T>)
    ensures |r| == |xs|
  {
    if xs == [] then [] else Insert(xs[|xs| - 1], Sort(xs[..|xs| - 1], key), key)
  }

  lemma {:induction false} InsertKeepsElements<T>(x: T, s: seq<T>, key: T -> int)
    ensures multiset(Insert(x, s, key)) == multiset(s) + multiset{x}
  {
    if s != [] {
      InsertKeepsElements(x, s[1..], key);
      assert s == [s[0]] + s[1..];
    }
  }

  /** Nothing is lost, added or duplicated. */
  lemma {:induction false} SortKeepsElements<T>(xs: seq<T>, key: T -> int)
    ensures multiset(Sort(xs, key)) == multiset(xs)
  {
    if xs != [] {
      var front := xs[..|xs| - 1];
      SortKeepsElements(front, key);
      InsertKeepsElements(xs[|xs| - 1], Sort(front, key), key);
      assert xs == front + [xs[|xs| - 1]];
    }
  }

  ghost predicate Sorted<T>(s: seq<T>, key: T -> int) {
    forall i, j :: 0 <= i < j < |s| ==> key(s[i]) <= key(s[j])
  }

  lemma {:induction false} InsertedElement<T>(x: T, s: seq<T>, key: T -> int, i: nat)
    requires i <= |s|
    ensures var e := Insert(x, s, key)[i]; e == x || e in s
  {
    if s != [] && key(x) >= key(s[0]) && i > 0 {
      InsertedElement(x, s[1..], key, i - 1);
    }
  }

  lemma {:induction false} InsertKeepsSorted<T>(x: T, s: seq<T>, key: T -> int)
    requires Sorted(s, key)
    ensures Sorted(Insert(x, s, key), key)
  {
    if s != [] && key(x) >= key(s[0]) {
      var rest := Insert(x, s[1..], key);
      InsertKeepsSorted(x, s[1..], key);
      forall i | 0 <= i < |rest| ensures key(s[0]) <= key(rest[i]) {
        InsertedElement(x, s[1..], key, i);
      }
    }
  }

  lemma {:induction false} SortIsSorted<T>(xs: seq<T>, key: T -> int)
    ensures Sorted(Sort(xs, key), key)
  {
    if xs != [] {
      SortIsSorted(xs[..|xs| - 1], key);
      InsertKeepsSorted(xs[|xs| - 1], Sort(xs[..|xs| - 1], key), key);
    }
  }

  function Map<A, B>(xs: seq<A>, f: A --> B): (r: seq<B>)
    requires forall i :: 0 <= i < |xs| ==> f.requires(xs[i])
    ensures |r| == |xs|
    ensures forall i :: 0 <= i < |xs| ==> r[i] == f(xs[i])
  {
    seq(|xs|, i requires 0 <= i < |xs| => f(xs[i]))
  }

  lemma {:induction false} InsertMap<A, B>(x: A, s: seq<A>, f: A --> B, keyA: A -> int, keyB: B -> int)
    requires f.requires(x) && forall i :: 0 <= i < |s| ==> f.requires(s[i])
    requires keyA(x) == keyB(f(x)) && forall i :: 0 <= i < |s| ==> keyA(s[i]) == keyB(f(s[i]))
    ensures forall i :: 0 <= i <= |s| ==> f.requires(Insert(x, s, keyA)[i])
    ensures Insert(f(x), Map(s, f), keyB) == Map(Insert(x, s, keyA), f)
  {
    if s == [] || keyA(x) < keyA(s[0]) {
    } else {
      InsertMap(x, s[1..], f, keyA, keyB);
      var ms := Map(s, f);
      assert ms[1..] == Map(s[1..], f);
      assert Insert(f(x), ms, keyB) == [ms[0]] + Insert(f(x), ms[1..], keyB);
    }
  }

  /** Sorting tagged records is sorting their tags. */
  lemma {:induction false} SortMap<A, B>(xs: seq<A>, f: A --> B, keyA: A -> int, keyB: B -> int)
    requires forall i :: 0 <= i < |xs| ==> f.requires(xs[i])
    requires forall i :: 0 <= i < |xs| ==> keyA(xs[i]) == keyB(f(xs[i]))
    ensures forall i :: 0 <= i < |xs| ==> f.requires(Sort(xs, keyA)[i])
    ensures Sort(Map(xs, f), keyB) == Map(Sort(xs, keyA), f)
  {
    if xs != [] {
      var front := xs[..|xs| - 1];
      SortMap(front, f, keyA, keyB);
      assert Map(xs, f)[..|xs| - 1] == Map(front, f);
      var s := Sort(front, keyA);
      SortKeepsElements(front, keyA);
      forall i | 0 <= i < |s| ensures f.requires(s[i]) && keyA(s[i]) == keyB(f(s[i])) {
        assert s[i] in multiset(s);
        assert s[i] in multiset(front);
        assert s[i] in front;
      }
      InsertMap(xs[|xs| - 1], s, f, keyA, keyB);
    }
  }

  lemma {:induction false} InsertSameKeys<T>(x: T, s: seq<T>, k: T -> int, l: T -> int)
    requires k(x) == l(x) && forall i :: 0 <= i < |s| ==> k(s[i]) == l(s[i])
    ensures Insert(x, s, k) == Insert(x, s, l)
  {
    if s != [] { InsertSameKeys(x, s[1..], k, l); }
  }

  /** Only the keys of the listed elements matter. */
  lemma {:induction false} SortSameKeys<T>(xs: seq<T>, k: T -> int, l: T -> int)
    requires forall x :: x in xs ==> k(x) == l(x)
    ensures Sort(xs, k) == Sort(xs, l)
  {
    if xs != [] {
      var front := xs[..|xs| - 1];
      SortSameKeys(front, k, l);
      SortKeepsElements(front, k);
      forall i | 0 <= i < |Sort(front, k)| ensures k(Sort(front, k)[i]) == l(Sort(front, k)[i]) {
        assert Sort(front, k)[i] in multiset(Sort(front, k));
        assert Sort(front, k)[i] in multiset(front);
      }
      InsertSameKeys(xs[|xs| - 1], Sort(front, k), k, l);
    }
  }

  function Range(n: nat): (r: seq<nat>)
    ensures |r| == n && forall i :: 0 <= i < n ==> r[i] == i
  {
    seq(n, i => i)
  }

  /** Each future of a batch of n completes exactly once. */
  ghost predicate IsPermutation(p: seq<nat>, n: nat) {
    && |p| == n
    && (forall i :: 0 <= i < |p| ==> p[i] < n)
    && multiset(p) == multiset(Range(n))
  }

  lemma {:induction false} IncreasingIsRange(r: seq<nat>, n: nat)
    requires |r| == n && (forall i :: 0 <= i < n ==> r[i] < n)
    requires forall i, j :: 0 <= i < j < n ==> r[i] < r[j]
    ensures r == Range(n)
  {
    forall i | 0 <= i < n ensures r[i] == i {
      AtLeastIndex(r, i);
      AtMostIndex(r, i);
    }
  }

  lemma {:induction false} AtLeastIndex(r: seq<nat>, i: nat)
    requires i < |r| && forall i, j :: 0 <= i < j < |r| ==> r[i] < r[j]
    ensures r[i] >= i
  {
    if i > 0 { AtLeastIndex(r, i - 1); }
  }

  lemma {:induction false} AtMostIndex(r: seq<nat>, i: nat)
    requires i < |r| && (forall i :: 0 <= i < |r| ==> r[i] < |r|)
    requires forall i, j :: 0 <= i < j < |r| ==> r[i] < r[j]
    ensures r[i] <= i
    decreases |r| - i
  {
    if i + 1 < |r| { AtMostIndex(r, i + 1); }
  }

  lemma {:induction false} RangeDistinct(p: seq<nat>, n: nat)
    requires IsPermutation(p, n)
    ensures forall i, j :: 0 <= i < j < n ==> p[i] != p[j]
    ensures forall k :: 0 <= k < n ==> k in p
  {
    forall i, j | 0 <= i < j < n ensures p[i] != p[j] {
      if p[i] == p[j] {
        var x := p[i];
        CountOnce(n, x);
        CountTwice(p, i, j);
      }
    }
    forall k | 0 <= k < n ensures k in p {
      assert Range(n)[k] == k;
      assert k in multiset(Range(n));
      assert k in multiset(p);
    }
  }

  lemma {:induction false} CountTwice(p: seq<nat>, i: nat, j: nat)
    requires i < j < |p| && p[i] == p[j]
    ensures multiset(p)[p[i]] >= 2
  {
    assert p == p[..i] + [p[i]] + p[i + 1..j] + [p[j]] + p[j + 1..];
  }

  lemma {:induction false} CountOnce(n: nat, x: nat)
    ensures multiset(Range(n))[x] <= 1
    ensures x >= n ==> multiset(Range(n))[x] == 0
  {
    if n > 0 {
      assert Range(n) == Range(n - 1) + [n - 1];
      CountOnce(n - 1, x);
    }
  }

  /** Strictly increasing keys undo every completion order. */
  lemma {:induction false} RestoresRange(p: seq<nat>, n: nat, key: nat -> int)
    requires IsPermutation(p, n)
    requires forall i, j :: 0 <= i < j < n ==> key(i) < key(j)
    ensures Sort(p, key) == Range(n)
  {
    var s := Sort(p, key);
    SortIsSorted(p, key);
    SortKeepsElements(p, key);
    forall i | 0 <= i < n ensures s[i] < n {
      assert s[i] in multiset(s);
      assert s[i] in multiset(p);
    }
    RangeDistinct(s, n);
    forall i, j | 0 <= i < j < n ensures s[i] < s[j] {
      assert key(s[i]) <= key(s[j]);
    }
    IncreasingIsRange(s, n);
  }

  lemma {:induction false} InsertLast<T>(x: T, s: seq<T>, key: T -> int)
    requires forall i :: 0 <= i < |s| ==> key(s[i]) <= key(x)
    ensures Insert(x, s, key) == s + [x]
  {
    if s != [] {
      InsertLast(x, s[1..], key);
      assert s == [s[0]] + s[1..];
    }
  }

  /** Sorting a sorted list changes nothing: the sort is stable. */
  lemma {:induction false} SortSorted<T>(s: seq<T>, key: T -> int)
    requires Sorted(s, key)
    ensures Sort(s, key) == s
  {
    if s != [] {
      SortSorted(s[..|s| - 1], key);
      InsertLast(s[|s| - 1], s[..|s| - 1], key);
    }
  }

  function Swapped(n: nat, i: nat): (p: seq<nat>)
    requires i + 1 < n
    ensures |p| == n
    ensures forall k :: 0 <= k < n ==> p[k] == if k == i then i + 1 else if k == i + 1 then i else k
  {
    Range(n)[i := i + 1][i + 1 := i]
  }

  lemma {:induction false} SwappedIsPermutation(n: nat, i: nat)
    requires i + 1 < n
    ensures IsPermutation(Swapped(n, i), n)
  {
    var r, p := Range(n), Swapped(n, i);
    assert r == r[..i] + [i, i + 1] + r[i + 2..];
    assert p == r[..i] + [i + 1, i] + r[i + 2..];
  }

  /** If two neighbours' keys do not increase, completing them the other way round is not undone. */
  lemma {:induction false} SwapNotRestored(n: nat, i: nat, key: nat -> int)
    requires i + 1 < n && key(i) >= key(i + 1)
    ensures Sort(Swapped(n, i), key) != Range(n)
  {
    var r, p := Range(n), Swapped(n, i);
    assert p[i] != r[i];
    if Sort(p, key) == r {
      SortIsSorted(p, key);
      assert key(r[i]) <= key(r[i + 1]);
      forall a, b | 0 <= a < b < n ensures key(p[a]) <= key(p[b]) {
        if p[a] < p[b] {
          assert key(r[p[a]]) <= key(r[p[b]]);
        }
      }
      SortSorted(p, key);
    }
  }
}
