/** The library's `sort` with a comparison that puts larger keys first. It is
    stable: elements with equal keys keep their order. */
module StableSort {

  function Sorted<T>(list: seq<T>, key: T -> int): seq<T> {
    if list == [] then [] else Inserted(Sorted(list[..|list| - 1], key), list[|list| - 1], key)
  }

  function Inserted<T>(sorted: seq<T>, x: T, key: T -> int): seq<T> {
    if sorted == [] || key(sorted[|sorted| - 1]) >= key(x) then sorted + [x]
    else Inserted(sorted[..|sorted| - 1], x, key) + [sorted[|sorted| - 1]]
  }

  ghost predicate Descending<T>(list: seq<T>, key: T -> int) {
    forall i, j :: 0 <= i < j < |list| ==> key(list[i]) >= key(list[j])
  }

  lemma {:induction false} InsertedMultiset<T>(sorted: seq<T>, x: T, key: T -> int)
    ensures multiset(Inserted(sorted, x, key)) == multiset(sorted) + multiset{x}
  {
    if sorted != [] {
      var init, last := sorted[..|sorted| - 1], sorted[|sorted| - 1];
      InsertedMultiset(init, x, key);
      assert sorted == init + [last];
    }
  }

  lemma {:induction false} InsertedDescends<T>(sorted: seq<T>, x: T, key: T -> int)
    requires Descending(sorted, key)
    ensures Descending(Inserted(sorted, x, key), key)
  {
    if sorted != [] && key(sorted[|sorted| - 1]) < key(x) {
      var init, last := sorted[..|sorted| - 1], sorted[|sorted| - 1];
      var rest := Inserted(init, x, key);
      InsertedDescends(init, x, key);
      InsertedMultiset(init, x, key);
      forall i | 0 <= i < |rest| ensures key(rest[i]) >= key(last) {
        assert rest[i] in multiset(rest);
        assert rest[i] in init || rest[i] == x;
      }
    }
  }

  lemma {:induction false} SortedSorts<T>(list: seq<T>, key: T -> int)
    ensures Descending(Sorted(list, key), key)
    ensures multiset(Sorted(list, key)) == multiset(list)
  {
    if list != [] {
      var init, last := list[..|list| - 1], list[|list| - 1];
      SortedSorts(init, key);
      InsertedDescends(Sorted(init, key), last, key);
      InsertedMultiset(Sorted(init, key), last, key);
      assert list == init + [last];
    }
  }

  /** The elements of one key, in order. */
  function WithKey<T>(list: seq<T>, key: T -> int, k: int): seq<T> {
    if list == [] then []
    else
      var last := list[|list| - 1];
      WithKey(list[..|list| - 1], key, k) + if key(last) == k then [last] else []
  }

  lemma WithKeySnoc<T>(list: seq<T>, x: T, key: T -> int, k: int)
    ensures WithKey(list + [x], key, k) == WithKey(list, key, k) + if key(x) == k then [x] else []
  {
    assert (list + [x])[..|list|] == list;
  }

  lemma {:induction false} InsertedLast<T>(sorted: seq<T>, x: T, key: T -> int, k: int)
    ensures WithKey(Inserted(sorted, x, key), key, k) == WithKey(sorted, key, k) + if key(x) == k then [x] else []
  {
    WithKeySnoc(sorted, x, key, k);
    if sorted != [] && key(sorted[|sorted| - 1]) < key(x) {
      var init, last := sorted[..|sorted| - 1], sorted[|sorted| - 1];
      InsertedLast(init, x, key, k);
      WithKeySnoc(Inserted(init, x, key), last, key, k);
    }
  }

  /** Elements with equal keys keep their order. */
  lemma {:induction false} SortedStable<T>(list: seq<T>, key: T -> int, k: int)
    ensures WithKey(Sorted(list, key), key, k) == WithKey(list, key, k)
  {
    if list != [] {
      SortedStable(list[..|list| - 1], key, k);
      InsertedLast(Sorted(list[..|list| - 1], key), list[|list| - 1], key, k);
    }
  }
}
