/** Python's stable `sort` by an integer key. */
module StableSort {

  /** Insert after every element whose key is not greater, so equal keys keep their order. */
  function Insert<T>(s: seq<T>, x: T, key: T -> int): seq<T> {
    if s == [] || key(s[|s| - 1]) <= key(x) then s + [x]
    else Insert(s[..|s| - 1], x, key) + [s[|s| - 1]]
  }

  function Sort<T>(s: seq<T>, key: T -> int): seq<T> {
    if s == [] then [] else Insert(Sort(s[..|s| - 1], key), s[|s| - 1], key)
  }

  lemma SortAppend<T>(s: seq<T>, x: T, key: T -> int)
    ensures Sort(s + [x], key) == Insert(Sort(s, key), x, key)
  {
    assert (s + [x])[..|s|] == s;
  }

  lemma {:induction false} InsertMembers<T>(s: seq<T>, x: T, key: T -> int)
    ensures multiset(Insert(s, x, key)) == multiset(s) + multiset{x}
  {
    if s != [] && key(s[|s| - 1]) > key(x) {
      InsertMembers(s[..|s| - 1], x, key);
      assert s == s[..|s| - 1] + [s[|s| - 1]];
    }
  }

  lemma {:induction false} SortMembers<T>(s: seq<T>, key: T -> int)
    ensures multiset(Sort(s, key)) == multiset(s)
  {
    if s != [] {
      SortMembers(s[..|s| - 1], key);
      InsertMembers(Sort(s[..|s| - 1], key), s[|s| - 1], key);
      assert s == s[..|s| - 1] + [s[|s| - 1]];
    }
  }

  /** Sorting neither loses nor adds an element. */
  lemma InBoth<T>(s: seq<T>, x: T, key: T -> int)
    ensures x in Sort(s, key) <==> x in s
  {
    SortMembers(s, key);
    assert x in multiset(s) <==> x in s;
    assert x in multiset(Sort(s, key)) <==> x in Sort(s, key);
  }

  predicate Ordered<T>(s: seq<T>, key: T -> int) {
    forall a, b :: 0 <= a < b < |s| ==> key(s[a]) <= key(s[b])
  }

  lemma {:induction false} InsertOrdered<T>(s: seq<T>, x: T, key: T -> int)
    requires Ordered(s, key)
    ensures Ordered(Insert(s, x, key), key)
  {
    if s != [] && key(s[|s| - 1]) > key(x) {
      var n := |s| - 1;
      InsertOrdered(s[..n], x, key);
      var r := Insert(s[..n], x, key);
      InsertMembers(s[..n], x, key);
      forall k | 0 <= k < |r|
        ensures key(r[k]) <= key(s[n])
      {
        assert r[k] in multiset(r);
        assert r[k] in s[..n] || r[k] == x;
      }
    }
  }

  lemma {:induction false} SortOrdered<T>(s: seq<T>, key: T -> int)
    ensures Ordered(Sort(s, key), key)
  {
    if s != [] {
      SortOrdered(s[..|s| - 1], key);
      InsertOrdered(Sort(s[..|s| - 1], key), s[|s| - 1], key);
    }
  }
}
