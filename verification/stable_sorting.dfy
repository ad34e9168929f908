/** What a stable sort by a key promises, and why that leaves only one possible result. */
module StableSorting {

  function Insert<T>(item: T, sorted: seq<T>, key: T -> int): seq<T> {
    if sorted == [] || key(item) <= key(sorted[0]) then [item] + sorted
    else [sorted[0]] + Insert(item, sorted[1..], key)
  }

  function Sort<T>(items: seq<T>, key: T -> int): seq<T> {
    if items == [] then [] else Insert(items[0], Sort(items[1..], key), key)
  }

  ghost predicate Sorted<T>(items: seq<T>, key: T -> int) {
    forall i, j | 0 <= i < j < |items| :: key(items[i]) <= key(items[j])
  }

  /** The items with one key, in the order they are listed. */
  function WithKey<T>(items: seq<T>, key: T -> int, k: int): seq<T> {
    if items == [] then []
    else (if key(items[0]) == k then [items[0]] else []) + WithKey(items[1..], key, k)
  }

  lemma ConsSorts<T>(head: T, rest: seq<T>, key: T -> int)
    requires Sorted(rest, key) && forall x | x in rest :: key(head) <= key(x)
    ensures Sorted([head] + rest, key)
  {
    var all := [head] + rest;
    forall i, j | 0 <= i < j < |all| ensures key(all[i]) <= key(all[j]) {
      if i > 0 { assert all[i] == rest[i - 1]; }
      assert all[j] == rest[j - 1];
    }
  }

  lemma {:induction false} InsertSorts<T>(item: T, sorted: seq<T>, key: T -> int)
    requires Sorted(sorted, key)
    ensures Sorted(Insert(item, sorted, key), key)
    ensures multiset(Insert(item, sorted, key)) == multiset{item} + multiset(sorted)
  {
    if sorted == [] || key(item) <= key(sorted[0]) {
      ConsSorts(item, sorted, key);
    } else {
      var rest := Insert(item, sorted[1..], key);
      InsertSorts(item, sorted[1..], key);
      assert sorted == [sorted[0]] + sorted[1..];
      forall x | x in rest ensures key(sorted[0]) <= key(x) {
        assert x in multiset(rest);
      }
      ConsSorts(sorted[0], rest, key);
    }
  }

  lemma WithKeyCons<T>(head: T, tail: seq<T>, key: T -> int, k: int)
    ensures WithKey([head] + tail, key, k) == (if key(head) == k then [head] else []) + WithKey(tail, key, k)
  {
    assert ([head] + tail)[1..] == tail;
  }

  lemma {:induction false} InsertKeepsOrder<T>(item: T, sorted: seq<T>, key: T -> int, k: int)
    ensures WithKey(Insert(item, sorted, key), key, k) ==
            (if key(item) == k then [item] else []) + WithKey(sorted, key, k)
  {
    if sorted == [] || key(item) <= key(sorted[0]) {
      WithKeyCons(item, sorted, key, k);
    } else {
      InsertKeepsOrder(item, sorted[1..], key, k);
      WithKeyCons(sorted[0], Insert(item, sorted[1..], key), key, k);
      WithKeyCons(sorted[0], sorted[1..], key, k);
      assert sorted == [sorted[0]] + sorted[1..];
      hide WithKey;
    }
  }

  /** Sorting gives a sorted permutation. */
  lemma {:induction false} SortSorts<T>(items: seq<T>, key: T -> int)
    ensures Sorted(Sort(items, key), key)
    ensures multiset(Sort(items, key)) == multiset(items)
  {
    if items != [] {
      SortSorts(items[1..], key);
      InsertSorts(items[0], Sort(items[1..], key), key);
      assert items == [items[0]] + items[1..];
    }
  }

  /** Items that compare equal stay in the order they were listed. */
  lemma {:induction false} SortIsStable<T>(items: seq<T>, key: T -> int, k: int)
    ensures WithKey(Sort(items, key), key, k) == WithKey(items, key, k)
  {
    if items != [] {
      SortIsStable(items[1..], key, k);
      InsertKeepsOrder(items[0], Sort(items[1..], key), key, k);
    }
  }

  lemma {:induction false} WithKeyMember<T>(items: seq<T>, key: T -> int, k: int, item: T)
    ensures item in WithKey(items, key, k) <==> item in items && key(item) == k
  {
    if items != [] {
      WithKeyMember(items[1..], key, k, item);
    }
  }

  lemma WithKeyTail<T>(items: seq<T>, key: T -> int, k: int)
    requires items != []
    ensures var tail := WithKey(items[1..], key, k);
            WithKey(items, key, k) == if key(items[0]) == k then [items[0]] + tail else tail
    ensures key(items[0]) == k ==> WithKey(items[1..], key, k) == WithKey(items, key, k)[1..]
  {
  }

  ghost predicate SameOrder<T>(a: seq<T>, b: seq<T>, key: T -> int) {
    forall k :: WithKey(a, key, k) == WithKey(b, key, k)
  }

  lemma FirstIsLeast<T>(a: seq<T>, b: seq<T>, key: T -> int)
    requires Sorted(a, key) && Sorted(b, key) && SameOrder(a, b, key) && a != []
    ensures b != [] && key(b[0]) <= key(a[0])
  {
    WithKeyMember(a, key, key(a[0]), a[0]);
    WithKeyMember(b, key, key(a[0]), a[0]);
  }

  /** Only one sequence is sorted and keeps equals in their listed order. */
  lemma {:induction false} StableSortIsUnique<T>(a: seq<T>, b: seq<T>, key: T -> int)
    requires Sorted(a, key) && Sorted(b, key) && SameOrder(a, b, key)
    ensures a == b
  {
    if a == [] {
      if b != [] { FirstIsLeast(b, a, key); }
    } else {
      FirstIsLeast(a, b, key);
      FirstIsLeast(b, a, key);
      var k := key(a[0]);
      assert WithKey(a, key, k)[0] == a[0] && WithKey(b, key, k)[0] == b[0];
      forall j ensures WithKey(a[1..], key, j) == WithKey(b[1..], key, j) {
        WithKeyTail(a, key, j);
        WithKeyTail(b, key, j);
        assert WithKey(a, key, j) == WithKey(b, key, j);
      }
      StableSortIsUnique(a[1..], b[1..], key);
    }
  }
}
