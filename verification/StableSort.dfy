/** A stable sort by an integer key, and why sorting a batch onto a prefix is sorting it all. */
module StableSort {
  import opened ByteLines

  predicate Sorted<T(!new)>(s: seq<T>, key: T -> int) {
    forall i, j :: 0 <= i < j < |s| ==> key(s[i]) <= key(s[j])
  }

  /** The elements with key `k`, in order. */
  function Having<T>(s: seq<T>, key: T -> int, k: int): seq<T> {
    if s == [] then []
    else if key(Last(s)) == k then Having(Front(s), key, k) + [Last(s)] else Having(Front(s), key, k)
  }

  /** Sorted, with every key's elements in their original order. */
  ghost predicate IsStableSort<T(!new)>(t: seq<T>, s: seq<T>, key: T -> int) {
    Sorted(t, key) && forall k :: Having(t, key, k) == Having(s, key, k)
  }

  /** Insert after every element whose key is not larger. */
  function Insert<T>(t: seq<T>, x: T, key: T -> int): (r: seq<T>)
    ensures |r| == |t| + 1
  {
    if t == [] || key(Last(t)) <= key(x) then t + [x] else Insert(Front(t), x, key) + [Last(t)]
  }

  function Sort<T>(s: seq<T>, key: T -> int): (r: seq<T>)
    ensures |r| == |s|
  {
    if s == [] then [] else Insert(Sort(Front(s), key), Last(s), key)
  }

  lemma {:induction false} InsertMembers<T(!new)>(t: seq<T>, x: T, key: T -> int)
    ensures forall y :: y in Insert(t, x, key) <==> y in t || y == x
  {
    if t != [] {
      InsertMembers(Front(t), x, key);
      assert t == Front(t) + [Last(t)];
    }
  }

  lemma {:induction false} SortMembers<T(!new)>(s: seq<T>, key: T -> int)
    ensures forall y :: y in Sort(s, key) <==> y in s
  {
    if s != [] {
      SortMembers(Front(s), key);
      InsertMembers(Sort(Front(s), key), Last(s), key);
      assert s == Front(s) + [Last(s)];
    }
  }

  lemma {:induction false} InsertSorts<T(!new)>(t: seq<T>, x: T, key: T -> int)
    requires Sorted(t, key)
    ensures Sorted(Insert(t, x, key), key)
    ensures forall k :: Having(Insert(t, x, key), key, k) == Having(t + [x], key, k)
  {
    if t != [] && key(Last(t)) > key(x) {
      InsertSorts(Front(t), x, key);
      InsertMembers(Front(t), x, key);
      var r := Insert(Front(t), x, key);
      forall i | 0 <= i < |r| ensures key(r[i]) <= key(Last(t)) {
        assert r[i] in r;
      }
      forall k ensures Having(r + [Last(t)], key, k) == Having(t + [x], key, k) {
        FrontLast(r, Last(t));
        FrontLast(t, x);
        FrontLast(Front(t), x);
      }
    }
  }

  /** The sort is a stable sort. */
  lemma {:induction false} SortIsStable<T(!new)>(s: seq<T>, key: T -> int)
    ensures IsStableSort(Sort(s, key), s, key)
  {
    if s != [] {
      SortIsStable(Front(s), key);
      var t := Sort(Front(s), key);
      InsertSorts(t, Last(s), key);
      forall k ensures Having(Sort(s, key), key, k) == Having(s, key, k) {
        FrontLast(t, Last(s));
      }
    }
  }

  lemma {:induction false} HavingLast<T(!new)>(s: seq<T>, key: T -> int, k: int)
    ensures Having(s, key, k) != [] ==> exists i :: 0 <= i < |s| && key(s[i]) == k
    ensures forall i :: 0 <= i < |s| && key(s[i]) == k ==> Having(s, key, k) != []
  {
    if s != [] {
      HavingLast(Front(s), key, k);
    }
  }

  lemma SameLastKey<T(!new)>(t: seq<T>, u: seq<T>, key: T -> int)
    requires Sorted(t, key) && Sorted(u, key) && t != []
    requires forall k :: Having(t, key, k) == Having(u, key, k)
    ensures u != [] && key(Last(t)) <= key(Last(u))
  {
    var k := key(Last(t));
    HavingLast(t, key, k);
    HavingLast(u, key, k);
    assert key(t[|t| - 1]) == k;
  }

  /** There is only one: the order `sorted` produces is determined by the keys. */
  lemma {:induction false} StableSortUnique<T(!new)>(t: seq<T>, u: seq<T>, key: T -> int)
    requires Sorted(t, key) && Sorted(u, key)
    requires forall k :: Having(t, key, k) == Having(u, key, k)
    ensures t == u
  {
    if t != [] {
      SameLastKey(t, u, key);
      SameLastKey(u, t, key);
      var k := key(Last(t));
      assert Having(t, key, k) == Having(u, key, k);
      assert Last(t) == Last(Having(t, key, k)) == Last(Having(u, key, k)) == Last(u);
      forall j ensures Having(Front(t), key, j) == Having(Front(u), key, j) {
        assert Having(t, key, j) == Having(u, key, j);
        if j == k {
          FrontLast(Having(Front(t), key, j), Last(t));
          FrontLast(Having(Front(u), key, j), Last(u));
        }
      }
      StableSortUnique(Front(t), Front(u), key);
      assert t == Front(t) + [Last(t)] && u == Front(u) + [Last(u)];
    } else if u != [] {
      SameLastKey(u, t, key);
    }
  }

  /** `Sort` is the one stable sort. */
  lemma OnlyStableSort<T(!new)>(t: seq<T>, s: seq<T>, key: T -> int)
    ensures IsStableSort(t, s, key) <==> t == Sort(s, key)
  {
    SortIsStable(s, key);
    if IsStableSort(t, s, key) {
      StableSortUnique(t, Sort(s, key), key);
    }
  }

  lemma {:induction false} InsertPast<T(!new)>(t: seq<T>, u: seq<T>, x: T, key: T -> int)
    requires forall y :: y in t ==> key(y) <= key(x)
    ensures Insert(t + u, x, key) == t + Insert(u, x, key)
  {
    if u == [] {
      assert t + u == t;
      assert t != [] ==> Last(t) in t;
    } else {
      FrontOfConcat(t, u);
      if key(Last(u)) <= key(x) {
        assert (t + u) + [x] == t + (u + [x]);
      } else {
        InsertPast(t, Front(u), x, key);
        assert t + Insert(Front(u), x, key) + [Last(u)] == t + (Insert(Front(u), x, key) + [Last(u)]);
      }
    }
  }

  /** When no element of the batch has a smaller key than one of the prefix, sorting both
      together is sorting each. */
  lemma {:induction false} SortConcat<T(!new)>(a: seq<T>, b: seq<T>, key: T -> int)
    requires forall x, y :: x in a && y in b ==> key(x) <= key(y)
    ensures Sort(a + b, key) == Sort(a, key) + Sort(b, key)
  {
    if b == [] {
      assert a + b == a;
    } else {
      FrontOfConcat(a, b);
      assert forall y :: y in Front(b) ==> y in b;
      SortConcat(a, Front(b), key);
      SortMembers(a, key);
      assert Last(b) in b;
      InsertPast(Sort(a, key), Sort(Front(b), key), Last(b), key);
    }
  }
}
