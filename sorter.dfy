/** The `sort` routine both collectors run on their collected reviews.

    PHP's `usort` (stable since PHP 8.0) with a comparator `k(a) <=> k(b)`
    orders by the integer key `k` and keeps equal keys in input order; it is
    modelled by an insertion sort on the array, with a functional insertion
    sort as its specification. The reversed comparator `k(b) <=> k(a)` is the
    same sort on the negated key. */
module Sorter {

  /** Non-decreasing by `key`. */
  predicate SortedBy<T>(s: seq<T>, key: T -> int) {
    forall i, j :: 0 <= i < j < |s| ==> key(s[i]) <= key(s[j])
  }

  function Negated<T>(key: T -> int): T -> int {
    x => -key(x)
  }

  /** The subsequence of the elements whose key is `k`. */
  function WithKey<T>(s: seq<T>, key: T -> int, k: int): seq<T>
    decreases |s|
  {
    if s == [] then []
    else WithKey(s[..|s| - 1], key, k) + (if key(s[|s| - 1]) == k then [s[|s| - 1]] else [])
  }

  /** Stability: for every key, the elements with that key keep their
      relative order. */
  ghost predicate Stable<T>(input: seq<T>, output: seq<T>, key: T -> int) {
    forall k :: WithKey(output, key, k) == WithKey(input, key, k)
  }

  /** Puts `x` after the last element whose key is at most the key of `x`. */
  function Insert<T>(t: seq<T>, x: T, key: T -> int): seq<T>
    decreases |t|
  {
    if t == [] then [x]
    else if key(t[|t| - 1]) > key(x) then Insert(t[..|t| - 1], x, key) + [t[|t| - 1]]
    else t + [x]
  }

  function InsertionSort<T>(s: seq<T>, key: T -> int): seq<T>
    decreases |s|
  {
    if s == [] then [] else Insert(InsertionSort(s[..|s| - 1], key), s[|s| - 1], key)
  }

  /** What `sort(&$data)` leaves in `$data`. `time` with `desc` returns
      before sorting; any `orderBy` other than `time` and `rating` sorts
      nothing; `rating` sorts descending for every `order` but `asc`. */
  function Ordered<T>(s: seq<T>, orderBy: string, order: string, timeOf: T -> int, ratingOf: T -> int): seq<T>
  {
    if orderBy == "time" then
      if order == "desc" then s else InsertionSort(s, timeOf)
    else if orderBy == "rating" then
      if order == "asc" then InsertionSort(s, ratingOf) else InsertionSort(s, Negated(ratingOf))
    else s
  }

  // ------------------------------------------------------------------ lemmas

  lemma {:induction false} InsertPermutes<T>(t: seq<T>, x: T, key: T -> int)
    ensures multiset(Insert(t, x, key)) == multiset(t) + multiset{x}
    decreases |t|
  {
    if t != [] && key(t[|t| - 1]) > key(x) {
      InsertPermutes(t[..|t| - 1], x, key);
      assert t == t[..|t| - 1] + [t[|t| - 1]];
    }
  }

  lemma {:induction false} InsertKeepsSorted<T>(t: seq<T>, x: T, key: T -> int)
    requires SortedBy(t, key)
    ensures SortedBy(Insert(t, x, key), key)
    decreases |t|
  {
    if t != [] && key(t[|t| - 1]) > key(x) {
      var init, last := t[..|t| - 1], t[|t| - 1];
      InsertKeepsSorted(init, x, key);
      var u := Insert(init, x, key);
      InsertPermutes(init, x, key);
      forall i | 0 <= i < |u| ensures key(u[i]) <= key(last) {
        assert u[i] in multiset(u);
        assert u[i] in multiset(init) || u[i] == x;
        if u[i] != x {
          var j :| 0 <= j < |init| && init[j] == u[i];
          assert t[j] == init[j];
        }
      }
    }
  }

  lemma {:induction false} WithKeyAppend<T>(a: seq<T>, b: seq<T>, key: T -> int, k: int)
    ensures WithKey(a + b, key, k) == WithKey(a, key, k) + WithKey(b, key, k)
    decreases |b|
  {
    if b != [] {
      var init := b[..|b| - 1];
      WithKeyAppend(a, init, key, k);
      assert (a + b)[..|a + b| - 1] == a + init;
    } else {
      assert a + b == a;
    }
  }

  lemma {:induction false} InsertWithKey<T>(t: seq<T>, x: T, key: T -> int, k: int)
    ensures WithKey(Insert(t, x, key), key, k) == WithKey(t, key, k) + (if key(x) == k then [x] else [])
    decreases |t|
  {
    if t == [] {
      assert WithKey([x], key, k) == WithKey([], key, k) + (if key(x) == k then [x] else []) by {
        assert [x][..0] == [];
      }
    } else {
      var init, last := t[..|t| - 1], t[|t| - 1];
      if key(last) > key(x) {
        InsertWithKey(init, x, key, k);
        WithKeyAppend(Insert(init, x, key), [last], key, k);
        assert [last][..0] == [];
      } else {
        WithKeyAppend(t, [x], key, k);
        assert [x][..0] == [];
      }
    }
  }

  /** The insertion sort is a permutation of its input. */
  lemma {:induction false} InsertionSortPermutes<T>(s: seq<T>, key: T -> int)
    ensures multiset(InsertionSort(s, key)) == multiset(s)
    decreases |s|
  {
    if s != [] {
      InsertionSortPermutes(s[..|s| - 1], key);
      InsertPermutes(InsertionSort(s[..|s| - 1], key), s[|s| - 1], key);
      assert s == s[..|s| - 1] + [s[|s| - 1]];
    }
  }

  /** The insertion sort is non-decreasing by its key. */
  lemma {:induction false} InsertionSortSorts<T>(s: seq<T>, key: T -> int)
    ensures SortedBy(InsertionSort(s, key), key)
    decreases |s|
  {
    if s != [] {
      InsertionSortSorts(s[..|s| - 1], key);
      InsertKeepsSorted(InsertionSort(s[..|s| - 1], key), s[|s| - 1], key);
    }
  }

  /** The insertion sort keeps elements with equal keys in input order. */
  lemma {:induction false} InsertionSortIsStable<T>(s: seq<T>, key: T -> int)
    ensures Stable(s, InsertionSort(s, key), key)
    decreases |s|
  {
    if s != [] {
      var init, last := s[..|s| - 1], s[|s| - 1];
      InsertionSortIsStable(init, key);
      forall k ensures WithKey(InsertionSort(s, key), key, k) == WithKey(s, key, k) {
        InsertWithKey(InsertionSort(init, key), last, key, k);
      }
    }
  }

  /** Sorting an already sorted sequence changes nothing. */
  lemma {:induction false} InsertionSortOfSorted<T>(s: seq<T>, key: T -> int)
    requires SortedBy(s, key)
    ensures InsertionSort(s, key) == s
    decreases |s|
  {
    if s != [] {
      var init := s[..|s| - 1];
      assert SortedBy(init, key);
      InsertionSortOfSorted(init, key);
      assert s == init + [s[|s| - 1]];
    }
  }

  lemma {:induction false} WithKeyNegated<T>(s: seq<T>, key: T -> int, k: int)
    ensures WithKey(s, Negated(key), -k) == WithKey(s, key, k)
    decreases |s|
  {
    if s != [] { WithKeyNegated(s[..|s| - 1], key, k); }
  }

  /** What each `orderBy`/`order` combination promises of `Ordered`. */
  lemma OrderedMeaning<T>(s: seq<T>, orderBy: string, order: string, timeOf: T -> int, ratingOf: T -> int)
    ensures multiset(Ordered(s, orderBy, order, timeOf, ratingOf)) == multiset(s)
    ensures orderBy == "time" && order == "desc" ==> Ordered(s, orderBy, order, timeOf, ratingOf) == s
    ensures orderBy == "time" && order != "desc" ==>
      SortedBy(Ordered(s, orderBy, order, timeOf, ratingOf), timeOf) &&
      Stable(s, Ordered(s, orderBy, order, timeOf, ratingOf), timeOf)
    ensures orderBy == "rating" && order == "asc" ==>
      SortedBy(Ordered(s, orderBy, order, timeOf, ratingOf), ratingOf) &&
      Stable(s, Ordered(s, orderBy, order, timeOf, ratingOf), ratingOf)
    ensures orderBy == "rating" && order != "asc" ==>
      (var r := Ordered(s, orderBy, order, timeOf, ratingOf);
       (forall i, j :: 0 <= i < j < |r| ==> ratingOf(r[i]) >= ratingOf(r[j])) && Stable(s, r, ratingOf))
    ensures orderBy != "time" && orderBy != "rating" ==> Ordered(s, orderBy, order, timeOf, ratingOf) == s
  {
    var r := Ordered(s, orderBy, order, timeOf, ratingOf);
    if orderBy == "time" && order != "desc" {
      InsertionSortPermutes(s, timeOf);
      InsertionSortSorts(s, timeOf);
      InsertionSortIsStable(s, timeOf);
    } else if orderBy == "rating" {
      var key := if order == "asc" then ratingOf else Negated(ratingOf);
      InsertionSortPermutes(s, key);
      InsertionSortSorts(s, key);
      InsertionSortIsStable(s, key);
      if order != "asc" {
        forall i, j | 0 <= i < j < |r| ensures ratingOf(r[i]) >= ratingOf(r[j]) {
          assert Negated(ratingOf)(r[i]) <= Negated(ratingOf)(r[j]);
        }
        forall k ensures WithKey(r, ratingOf, k) == WithKey(s, ratingOf, k) {
          WithKeyNegated(r, ratingOf, k);
          WithKeyNegated(s, ratingOf, k);
        }
      }
    }
  }

  /** Sorting twice with the same settings is sorting once. */
  lemma OrderedIsIdempotent<T>(s: seq<T>, orderBy: string, order: string, timeOf: T -> int, ratingOf: T -> int)
    ensures Ordered(Ordered(s, orderBy, order, timeOf, ratingOf), orderBy, order, timeOf, ratingOf)
         == Ordered(s, orderBy, order, timeOf, ratingOf)
  {
    if orderBy == "time" && order != "desc" {
      InsertionSortSorts(s, timeOf);
      InsertionSortOfSorted(InsertionSort(s, timeOf), timeOf);
    } else if orderBy == "rating" {
      var key := if order == "asc" then ratingOf else Negated(ratingOf);
      InsertionSortSorts(s, key);
      InsertionSortOfSorted(InsertionSort(s, key), key);
    }
  }

  // ------------------------------------------------------------------ methods

  /** `Insert` puts `x` right after the elements of `t[..j]` when every
      element from `j` on has a greater key and the one before does not. */
  lemma {:induction false} InsertSplit<T>(t: seq<T>, j: nat, x: T, key: T -> int)
    requires j <= |t|
    requires forall k :: j <= k < |t| ==> key(t[k]) > key(x)
    requires j == 0 || key(t[j - 1]) <= key(x)
    ensures Insert(t, x, key) == t[..j] + [x] + t[j..]
    decreases |t|
  {
    if j < |t| {
      var init := t[..|t| - 1];
      assert init[..j] == t[..j];
      InsertSplit(init, j, x, key);
      assert t[j..] == init[j..] + [t[|t| - 1]];
    } else {
      assert t[..j] == t;
    }
  }

  /** One pass of the insertion sort: moves `a[i]` left past every element
      of the sorted prefix with a greater key. */
  method InsertAt<T>(a: array<T>, i: nat, key: T -> int)
    requires i < a.Length
    modifies a
    ensures a[..i + 1] == Insert(old(a[..i]), old(a[i]), key)
    ensures a[i + 1..] == old(a[i + 1..])
  {
    ghost var p := a[..i];
    var x := a[i];
    var j := i;
    while j > 0 && key(a[j - 1]) > key(x)
      invariant 0 <= j <= i
      invariant forall k :: 0 <= k < j ==> a[k] == p[k]
      invariant forall k :: j < k <= i ==> a[k] == p[k - 1]
      invariant forall k :: i < k < a.Length ==> a[k] == old(a[k])
      invariant forall k :: j <= k < i ==> key(p[k]) > key(x)
      invariant a[j] == x
    {
      a[j], a[j - 1] := a[j - 1], x;
      j := j - 1;
    }
    InsertSplit(p, j, x, key);
    assert a[..i + 1] == p[..j] + [x] + p[j..];
    assert a[i + 1..] == old(a[i + 1..]);
  }

  /** `usort($data, fn ($a, $b) => key($a) <=> key($b))`, in place. */
  method SortByKey<T>(a: array<T>, key: T -> int)
    modifies a
    ensures a[..] == InsertionSort(old(a[..]), key)
  {
    ghost var s := a[..];
    var i := 0;
    while i < a.Length
      invariant 0 <= i <= a.Length
      invariant a[..i] == InsertionSort(s[..i], key)
      invariant a[i..] == s[i..]
    {
      InsertAt(a, i, key);
      assert s[..i + 1][..i] == s[..i];
      i := i + 1;
    }
    assert a[..] == a[..a.Length];
    assert s == s[..a.Length];
  }

  /** `sort(&$data)`: sorts `data` in place as `orderBy` and `order` ask. */
  method Sort<T>(data: array<T>, orderBy: string, order: string, timeOf: T -> int, ratingOf: T -> int)
    modifies data
    ensures data[..] == Ordered(old(data[..]), orderBy, order, timeOf, ratingOf)
    ensures multiset(data[..]) == multiset(old(data[..]))
    ensures orderBy == "time" && order == "desc" ==> data[..] == old(data[..])
    ensures orderBy == "time" && order != "desc" ==> SortedBy(data[..], timeOf)
    ensures orderBy == "rating" && order == "asc" ==> SortedBy(data[..], ratingOf)
    ensures orderBy == "rating" && order != "asc" ==>
      forall i, j :: 0 <= i < j < data.Length ==> ratingOf(data[i]) >= ratingOf(data[j])
  {
    if orderBy == "time" {
      if order == "desc" {
        OrderedMeaning(data[..], orderBy, order, timeOf, ratingOf);
        return;
      }
      SortByKey(data, timeOf);
    } else if orderBy == "rating" {
      if order == "asc" {
        SortByKey(data, ratingOf);
      } else {
        SortByKey(data, Negated(ratingOf));
      }
    }
    OrderedMeaning(old(data[..]), orderBy, order, timeOf, ratingOf);
  }
}
