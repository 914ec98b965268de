/**
 * A stable sort by an integer key: the result the manifest loader's
 * Collections.sort gives, stated as insertion sort on values.
 */
module StableSort {

  /** Places x after every element whose key does not exceed its own. */
  function Insert<T>(r: seq<T>, x: T, key: T -> int): seq<T>
  {
    if r == [] then [x]
    else if key(r[|r| - 1]) <= key(x) then r + [x]
    else Insert(r[..|r| - 1], x, key) + [r[|r| - 1]]
  }

  function SortBy<T>(s: seq<T>, key: T -> int): seq<T>
  {
    if s == [] then [] else Insert(SortBy(s[..|s| - 1], key), s[|s| - 1], key)
  }

  ghost predicate Sorted<T>(s: seq<T>, key: T -> int)
  {
    forall i, j :: 0 <= i < j < |s| ==> key(s[i]) <= key(s[j])
  }

  /** The elements of s whose key is k, in their order in s. */
  function WithKey<T>(s: seq<T>, key: T -> int, k: int): seq<T>
  {
    if s == [] then []
    else WithKey(s[..|s| - 1], key, k) + (if key(s[|s| - 1]) == k then [s[|s| - 1]] else [])
  }

  function Map<A, B>(f: A -> B, s: seq<A>): (r: seq<B>)
    ensures |r| == |s| && forall i :: 0 <= i < |s| ==> r[i] == f(s[i])
  {
    if s == [] then [] else Map(f, s[..|s| - 1]) + [f(s[|s| - 1])]
  }

  lemma MapAppend<A, B>(f: A -> B, s: seq<A>, t: seq<A>)
    ensures Map(f, s + t) == Map(f, s) + Map(f, t)
  {
  }

  lemma {:induction false} WithKeyAppend<T>(a: seq<T>, b: seq<T>, key: T -> int, k: int)
    ensures WithKey(a + b, key, k) == WithKey(a, key, k) + WithKey(b, key, k)
    decreases |b|
  {
    if b == [] {
      assert a + b == a;
    } else {
      var b' := b[..|b| - 1];
      assert (a + b)[..|a + b| - 1] == a + b';
      WithKeyAppend(a, b', key, k);
    }
  }

  lemma {:induction false} InsertKeepsElements<T>(r: seq<T>, x: T, key: T -> int)
    ensures multiset(Insert(r, x, key)) == multiset(r) + multiset{x}
    decreases |r|
  {
    if r != [] && key(r[|r| - 1]) > key(x) {
      var init := r[..|r| - 1];
      assert r == init + [r[|r| - 1]];
      InsertKeepsElements(init, x, key);
    }
  }

  lemma {:induction false} InsertKeepsOrder<T>(r: seq<T>, x: T, key: T -> int)
    requires Sorted(r, key)
    ensures Sorted(Insert(r, x, key), key)
    decreases |r|
  {
    if r != [] && key(r[|r| - 1]) > key(x) {
      var init, last := r[..|r| - 1], r[|r| - 1];
      InsertKeepsOrder(init, x, key);
      var ins := Insert(init, x, key);
      InsertKeepsElements(init, x, key);
      forall i | 0 <= i < |ins| ensures key(ins[i]) <= key(last) {
        assert ins[i] in multiset(ins);
        if ins[i] != x {
          assert ins[i] in multiset(init);
          var j :| 0 <= j < |init| && init[j] == ins[i];
          assert r[j] == init[j];
        }
      }
    }
  }

  lemma {:induction false} InsertKeepsTies<T>(r: seq<T>, x: T, key: T -> int, k: int)
    ensures WithKey(Insert(r, x, key), key, k) == WithKey(r, key, k) + WithKey([x], key, k)
    decreases |r|
  {
    if r == [] {
    } else if key(r[|r| - 1]) <= key(x) {
      WithKeyAppend(r, [x], key, k);
    } else {
      var init, last := r[..|r| - 1], r[|r| - 1];
      assert r == init + [last];
      InsertKeepsTies(init, x, key, k);
      WithKeyAppend(Insert(init, x, key), [last], key, k);
      WithKeyAppend(init, [last], key, k);
      assert WithKey([x], key, k) == [] || WithKey([last], key, k) == [];
    }
  }

  /** The sort orders by key, keeps every element, and keeps equal keys in input order. */
  lemma {:induction false} SortByIsStableSort<T>(s: seq<T>, key: T -> int)
    ensures Sorted(SortBy(s, key), key)
    ensures multiset(SortBy(s, key)) == multiset(s)
    ensures forall k :: WithKey(SortBy(s, key), key, k) == WithKey(s, key, k)
    decreases |s|
  {
    if s != [] {
      var init, last := s[..|s| - 1], s[|s| - 1];
      assert s == init + [last];
      SortByIsStableSort(init, key);
      InsertKeepsOrder(SortBy(init, key), last, key);
      InsertKeepsElements(SortBy(init, key), last, key);
      forall k ensures WithKey(SortBy(s, key), key, k) == WithKey(s, key, k) {
        InsertKeepsTies(SortBy(init, key), last, key, k);
        WithKeyAppend(init, [last], key, k);
      }
    }
  }

  /** Sorting commutes with a projection that keeps the key. */
  lemma {:induction false} SortByMap<A, B>(s: seq<A>, f: A -> B, keyA: A -> int, keyB: B -> int)
    requires forall x :: keyA(x) == keyB(f(x))
    ensures Map(f, SortBy(s, keyA)) == SortBy(Map(f, s), keyB)
    decreases |s|
  {
    if s != [] {
      var init := s[..|s| - 1];
      assert Map(f, s)[..|s| - 1] == Map(f, init);
      SortByMap(init, f, keyA, keyB);
      InsertMap(SortBy(init, keyA), s[|s| - 1], f, keyA, keyB);
    }
  }

  lemma {:induction false} InsertMap<A, B>(r: seq<A>, x: A, f: A -> B, keyA: A -> int, keyB: B -> int)
    requires forall y :: keyA(y) == keyB(f(y))
    ensures Map(f, Insert(r, x, keyA)) == Insert(Map(f, r), f(x), keyB)
    decreases |r|
  {
    if r != [] {
      var init := r[..|r| - 1];
      assert Map(f, r)[..|r| - 1] == Map(f, init);
      if keyA(r[|r| - 1]) > keyA(x) {
        InsertMap(init, x, f, keyA, keyB);
        assert Map(f, Insert(init, x, keyA) + [r[|r| - 1]]) == Map(f, Insert(init, x, keyA)) + [f(r[|r| - 1])];
      }
    }
  }
}
