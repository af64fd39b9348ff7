/** `Array.prototype.sort` with a comparator of the form
    `(a, b) => key(b) - key(a)`: since ES2019 the sort is stable, so the
    result is the list ordered by non-increasing key, with elements of equal
    key in their original order. Modelled as a stable insertion sort. */
module StableSort {

  /** Non-increasing by key. */
  predicate SortedDesc<T>(s: seq<T>, key: T -> real)
  {
    forall i, j :: 0 <= i < j < |s| ==> key(s[i]) >= key(s[j])
  }

  /** Places x, which came before every element of s, in front of the first
      element whose key is not larger than its own. */
  function Insert<T>(x: T, s: seq<T>, key: T -> real): seq<T>
  {
    if s == [] || key(x) >= key(s[0]) then [x] + s else [s[0]] + Insert(x, s[1..], key)
  }

  function SortDesc<T>(s: seq<T>, key: T -> real): seq<T>
  {
    if s == [] then [] else Insert(s[0], SortDesc(s[1..], key), key)
  }

  /** The elements of s whose key is v, in their order in s. */
  function WithKey<T>(s: seq<T>, key: T -> real, v: real): seq<T>
  {
    if s == [] then [] else (if key(s[0]) == v then [s[0]] else []) + WithKey(s[1..], key, v)
  }

  lemma {:induction false} InsertPermutes<T>(x: T, s: seq<T>, key: T -> real)
    ensures multiset(Insert(x, s, key)) == multiset(s) + multiset{x}
  {
    if s != [] && key(x) < key(s[0]) {
      InsertPermutes(x, s[1..], key);
      assert s == [s[0]] + s[1..];
    }
  }

  lemma {:induction false} InsertSorted<T>(x: T, s: seq<T>, key: T -> real)
    requires SortedDesc(s, key)
    ensures SortedDesc(Insert(x, s, key), key)
  {
    if s != [] && key(x) < key(s[0]) {
      var rest := Insert(x, s[1..], key);
      InsertSorted(x, s[1..], key);
      InsertPermutes(x, s[1..], key);
      forall j | 0 <= j < |rest| ensures key(s[0]) >= key(rest[j]) {
        assert rest[j] in multiset(rest);
        if rest[j] != x {
          assert rest[j] in multiset(s[1..]);
          var k :| 0 <= k < |s[1..]| && s[1..][k] == rest[j];
          assert s[k + 1] == rest[j];
        }
      }
      var r := Insert(x, s, key);
      assert r == [s[0]] + rest;
      forall i, j | 0 <= i < j < |r| ensures key(r[i]) >= key(r[j]) {
        if i == 0 {
          assert r[j] == rest[j - 1];
        } else {
          assert r[i] == rest[i - 1] && r[j] == rest[j - 1];
        }
      }
    }
  }

  /** The sorted list is ordered by non-increasing key and is a permutation of
      the input. */
  lemma {:induction false} SortDescCorrect<T>(s: seq<T>, key: T -> real)
    ensures SortedDesc(SortDesc(s, key), key)
    ensures multiset(SortDesc(s, key)) == multiset(s)
    ensures |SortDesc(s, key)| == |s|
  {
    if s != [] {
      SortDescCorrect(s[1..], key);
      InsertSorted(s[0], SortDesc(s[1..], key), key);
      InsertPermutes(s[0], SortDesc(s[1..], key), key);
      assert s == [s[0]] + s[1..];
      assert |SortDesc(s, key)| == |multiset(SortDesc(s, key))| == |multiset(s)| == |s|;
    }
  }

  lemma {:induction false} WithKeyInsert<T>(x: T, s: seq<T>, key: T -> real, v: real)
    ensures WithKey(Insert(x, s, key), key, v) == (if key(x) == v then [x] else []) + WithKey(s, key, v)
  {
    if s == [] || key(x) >= key(s[0]) {
      assert ([x] + s)[1..] == s;
    } else {
      WithKeyInsert(x, s[1..], key, v);
      assert ([s[0]] + Insert(x, s[1..], key))[1..] == Insert(x, s[1..], key);
    }
  }

  /** Stability: the elements sharing any one key keep their input order. */
  lemma {:induction false} SortDescStable<T>(s: seq<T>, key: T -> real, v: real)
    ensures WithKey(SortDesc(s, key), key, v) == WithKey(s, key, v)
  {
    if s != [] {
      SortDescStable(s[1..], key, v);
      WithKeyInsert(s[0], SortDesc(s[1..], key), key, v);
    }
  }

  /** `xs.map(f)`. */
  function Map<A, B>(s: seq<A>, f: A -> B): (r: seq<B>)
    ensures |r| == |s| && forall k :: 0 <= k < |s| ==> r[k] == f(s[k])
  {
    seq(|s|, k requires 0 <= k < |s| => f(s[k]))
  }

  lemma {:induction false} InsertMap<A, B>(x: A, s: seq<A>, f: A -> B, ka: A -> real, kb: B -> real)
    requires forall y :: kb(f(y)) == ka(y)
    ensures Map(Insert(x, s, ka), f) == Insert(f(x), Map(s, f), kb)
  {
    if s != [] && ka(x) < ka(s[0]) {
      InsertMap(x, s[1..], f, ka, kb);
      assert Map(s, f)[1..] == Map(s[1..], f);
    }
  }

  /** Sorting then mapping is mapping then sorting, when the map keeps the key:
      so sorting entries by one field and then rewriting them gives the same
      list as sorting the rewritten values. */
  lemma {:induction false} SortDescMap<A, B>(s: seq<A>, f: A -> B, ka: A -> real, kb: B -> real)
    requires forall y :: kb(f(y)) == ka(y)
    ensures Map(SortDesc(s, ka), f) == SortDesc(Map(s, f), kb)
  {
    if s != [] {
      SortDescMap(s[1..], f, ka, kb);
      InsertMap(s[0], SortDesc(s[1..], ka), f, ka, kb);
      assert Map(s, f)[1..] == Map(s[1..], f);
    }
  }

  lemma {:induction false} InsertMapMultiset<A, B>(x: A, s: seq<A>, key: A -> real, f: A -> B)
    ensures multiset(Map(Insert(x, s, key), f)) == multiset(Map(s, f)) + multiset{f(x)}
  {
    if s != [] && key(x) < key(s[0]) {
      InsertMapMultiset(x, s[1..], key, f);
      assert Map(s, f) == [f(s[0])] + Map(s[1..], f);
      assert Map(Insert(x, s, key), f) == [f(s[0])] + Map(Insert(x, s[1..], key), f);
    } else {
      assert Map(Insert(x, s, key), f) == [f(x)] + Map(s, f);
    }
  }

  /** Sorting keeps every projection of the elements, counted with
      multiplicity. */
  lemma {:induction false} SortDescMapMultiset<A, B>(s: seq<A>, key: A -> real, f: A -> B)
    ensures multiset(Map(SortDesc(s, key), f)) == multiset(Map(s, f))
  {
    if s != [] {
      SortDescMapMultiset(s[1..], key, f);
      InsertMapMultiset(s[0], SortDesc(s[1..], key), key, f);
      assert Map(s, f) == [f(s[0])] + Map(s[1..], f);
    }
  }
}
