/** Pagination of list queries (pkg/store/memory/memory.go, page; pkg/store/store.go, ListOptions). */
module Paging {
  import opened Identity

  const DEFAULT_LIMIT: int := 50
  const MAX_LIMIT: int := 500

  datatype ListOptions = ListOptions(offset: int, limit: int) {
    function Normalized(): ListOptions {
      ListOptions(
        if offset < 0 then 0 else offset,
        if limit <= 0 then DEFAULT_LIMIT else if limit > MAX_LIMIT then MAX_LIMIT else limit)
    }
  }

  // ---------- The order: creation time, then id ----------

  /** The order of strings: by bytes, a prefix first. */
  predicate TextLess(a: string, b: string) {
    b != "" && (a == "" || a[0] < b[0] || (a[0] == b[0] && TextLess(a[1..], b[1..])))
  }

  datatype Key = Key(time: Time, id: string)

  predicate Before(a: Key, b: Key) {
    a.time < b.time || (a.time == b.time && TextLess(a.id, b.id))
  }

  lemma {:induction false} TextOrder(a: string, b: string, c: string)
    ensures !(TextLess(a, b) && TextLess(b, a))
    ensures TextLess(a, b) || TextLess(b, a) || a == b
    ensures TextLess(a, b) && TextLess(b, c) ==> TextLess(a, c)
  {
    if a != "" && b != "" {
      TextOrder(a[1..], b[1..], if c == "" then "" else c[1..]);
      assert a == [a[0]] + a[1..] && b == [b[0]] + b[1..];
    }
  }

  lemma KeyOrder(a: Key, b: Key, c: Key)
    ensures !(Before(a, b) && Before(b, a))
    ensures Before(a, b) || Before(b, a) || a == b
    ensures Before(a, b) && Before(b, c) ==> Before(a, c)
  {
    TextOrder(a.id, b.id, c.id);
  }

  // ---------- Sorting ----------

  ghost predicate Ascending<T>(items: seq<T>, key: T -> Key) {
    forall i, j :: 0 <= i < j < |items| ==> Before(key(items[i]), key(items[j]))
  }

  ghost predicate DistinctKeys<T>(items: seq<T>, key: T -> Key) {
    forall i, j :: 0 <= i < j < |items| ==> key(items[i]) != key(items[j])
  }

  function Insert<T(==)>(x: T, sorted: seq<T>, key: T -> Key): (r: seq<T>)
    ensures multiset(r) == multiset(sorted) + multiset{x}
    ensures |r| == |sorted| + 1
  {
    if sorted == [] then [x]
    else if Before(key(sorted[0]), key(x)) then
      assert sorted == [sorted[0]] + sorted[1..];
      [sorted[0]] + Insert(x, sorted[1..], key)
    else [x] + sorted
  }

  /** sort.Slice with the key order; SortingIsDetermined shows that the algorithm does not matter. */
  function Sorted<T(==)>(items: seq<T>, key: T -> Key): (r: seq<T>)
    ensures multiset(r) == multiset(items)
    ensures |r| == |items|
  {
    if items == [] then []
    else
      assert items == [items[0]] + items[1..];
      Insert(items[0], Sorted(items[1..], key), key)
  }

  lemma {:induction false} InsertKeepsOrder<T>(x: T, sorted: seq<T>, key: T -> Key)
    requires Ascending(sorted, key)
    requires forall y :: y in sorted ==> key(y) != key(x)
    ensures Ascending(Insert(x, sorted, key), key)
  {
    if sorted != [] {
      var s0 := sorted[0];
      KeyOrder(key(s0), key(x), key(x));
      if Before(key(s0), key(x)) {
        InsertKeepsOrder(x, sorted[1..], key);
        var rest := Insert(x, sorted[1..], key);
        forall j | 0 <= j < |rest| ensures Before(key(s0), key(rest[j])) {
          assert rest[j] in multiset(rest);
          assert rest[j] == x || rest[j] in sorted[1..];
        }
      } else {
        forall j | 0 <= j < |sorted| ensures Before(key(x), key(sorted[j])) {
          KeyOrder(key(x), key(s0), key(sorted[j]));
        }
      }
    }
  }

  lemma {:induction false} SortedIsAscending<T>(items: seq<T>, key: T -> Key)
    requires DistinctKeys(items, key)
    ensures Ascending(Sorted(items, key), key)
  {
    if items != [] {
      SortedIsAscending(items[1..], key);
      var rest := Sorted(items[1..], key);
      forall y | y in rest ensures key(y) != key(items[0]) {
        assert y in multiset(items[1..]);
      }
      InsertKeepsOrder(items[0], rest, key);
    }
  }

  lemma SameLeastItem<T>(a: seq<T>, b: seq<T>, key: T -> Key)
    requires a != [] && b != [] && Ascending(a, key) && Ascending(b, key)
    requires a[0] in b && b[0] in a
    ensures a[0] == b[0]
  {
    var i :| 0 <= i < |b| && b[i] == a[0];
    var j :| 0 <= j < |a| && a[j] == b[0];
    KeyOrder(key(a[0]), key(b[0]), key(b[0]));
  }

  lemma RestOfMultiset<T>(a: seq<T>)
    requires a != []
    ensures multiset(a[1..]) == multiset(a) - multiset{a[0]} && a == [a[0]] + a[1..]
  {
    assert a == [a[0]] + a[1..];
  }

  /** Two strictly ascending arrangements of the same items are the same list: the result of
      sorting does not depend on the algorithm or on the order in which a map is walked. */
  lemma {:induction false} SortingIsDetermined<T>(a: seq<T>, b: seq<T>, key: T -> Key)
    requires multiset(a) == multiset(b) && Ascending(a, key) && Ascending(b, key)
    ensures a == b
  {
    assert |multiset(a)| == |a| && |multiset(b)| == |b|;
    if a != [] {
      assert a[0] in multiset(a) && b[0] in multiset(b);
      SameLeastItem(a, b, key);
      RestOfMultiset(a);
      RestOfMultiset(b);
      SortingIsDetermined(a[1..], b[1..], key);
    }
  }

  // ---------- Pages ----------

  function Min(a: int, b: int): int {
    if a <= b then a else b
  }

  /** The part of the sorted list that a page shows. */
  function Slice<T>(sorted: seq<T>, offset: nat, limit: nat): seq<T> {
    if offset >= |sorted| then [] else sorted[offset..Min(offset + limit, |sorted|)]
  }

  method Page<T(==)>(items: seq<T>, key: T -> Key, opts: ListOptions) returns (result: seq<T>, total: nat)
    ensures total == |items|
    ensures result == Slice(Sorted(items, key), opts.Normalized().offset, opts.Normalized().limit)
  {
    var o := opts.Normalized();
    var sorted := Sorted(items, key);
    total := |sorted|;
    if o.offset >= total {
      return [], total;
    }
    var end := o.offset + o.limit;
    if end > total {
      end := total;
    }
    result := sorted[o.offset..end];
  }

  /** What the API answers for the given options. */
  function PageOf<T(==)>(items: seq<T>, key: T -> Key, opts: ListOptions): seq<T> {
    Slice(Sorted(items, key), opts.Normalized().offset, opts.Normalized().limit)
  }

  /** A page shows the same items for every order in which the rows are collected. */
  lemma PageIgnoresCollectionOrder<T>(a: seq<T>, b: seq<T>, key: T -> Key, opts: ListOptions)
    requires multiset(a) == multiset(b) && DistinctKeys(a, key) && DistinctKeys(b, key)
    ensures PageOf(a, key, opts) == PageOf(b, key, opts)
  {
    SortedIsAscending(a, key);
    SortedIsAscending(b, key);
    SortingIsDetermined(Sorted(a, key), Sorted(b, key), key);
  }

  /** The pages at offsets 0, step, ..., (count - 1) * step, one after the other. */
  function Pages<T(==)>(items: seq<T>, key: T -> Key, step: nat, limit: int, count: nat): seq<T> {
    if count == 0 then []
    else Pages(items, key, step, limit, count - 1) + PageOf(items, key, ListOptions((count - 1) * step, limit))
  }

  lemma SliceExtends<T>(sorted: seq<T>, offset: nat, limit: nat)
    ensures sorted[..Min(offset, |sorted|)] + Slice(sorted, offset, limit) == sorted[..Min(offset + limit, |sorted|)]
  {
  }

  lemma {:induction false} PagesArePrefix<T>(items: seq<T>, key: T -> Key, limit: int, count: nat)
    ensures var step := ListOptions(0, limit).Normalized().limit;
            Pages(items, key, step, limit, count) == Sorted(items, key)[..Min(count * step, |items|)]
  {
    var step, sorted := ListOptions(0, limit).Normalized().limit, Sorted(items, key);
    if count == 0 {
      assert 0 * step == 0;
    } else {
      var offset := (count - 1) * step;
      assert count * step == offset + step;
      assert ListOptions(offset, limit).Normalized() == ListOptions(offset, step);
      SliceExtends(sorted, offset, step);
      PagesArePrefix(items, key, limit, count - 1);
    }
  }

  /** Stepping by the limit that the server applies, enough pages show every item exactly once,
      in order, whatever limit was asked for. */
  lemma PagesCoverEverything<T>(items: seq<T>, key: T -> Key, limit: int, count: nat)
    requires count * ListOptions(0, limit).Normalized().limit >= |items|
    ensures Pages(items, key, ListOptions(0, limit).Normalized().limit, limit, count) == Sorted(items, key)
    ensures multiset(Sorted(items, key)) == multiset(items)
  {
    PagesArePrefix(items, key, limit, count);
    assert Sorted(items, key)[..|items|] == Sorted(items, key);
  }

  lemma CappedPage<T>(items: seq<T>, key: T -> Key, offset: nat, limit: nat)
    requires limit > MAX_LIMIT
    ensures |PageOf(items, key, ListOptions(offset, limit))| ==
            if offset >= |items| then 0 else Min(MAX_LIMIT, |items| - offset)
  {
    assert ListOptions(offset, limit).Normalized() == ListOptions(offset, MAX_LIMIT);
  }

  lemma {:induction false} PagesTotal<T>(items: seq<T>, key: T -> Key, limit: nat, count: nat)
    requires limit > MAX_LIMIT
    ensures |Pages(items, key, limit, limit, count)| <= Min(count * limit, |items|)
    ensures count > 0 && |items| > MAX_LIMIT ==> |Pages(items, key, limit, limit, count)| < Min(count * limit, |items|)
  {
    hide PageOf, Sorted;
    if count > 0 {
      var offset := (count - 1) * limit;
      assert count * limit == offset + limit && (count == 1 ==> offset == 0);
      PagesTotal(items, key, limit, count - 1);
      CappedPage(items, key, offset, limit);
    }
  }

  lemma SliceOfShortList<T>(sorted: seq<T>, offset: nat, limit: nat)
    requires |sorted| <= limit
    ensures offset == 0 ==> Slice(sorted, offset, limit) == sorted
    ensures offset >= limit ==> Slice(sorted, offset, limit) == []
  {
  }

  lemma CappedPageOfShortList<T>(items: seq<T>, key: T -> Key, offset: nat, limit: nat)
    requires limit > MAX_LIMIT && |items| <= MAX_LIMIT && (offset == 0 || offset >= limit)
    ensures PageOf(items, key, ListOptions(offset, limit)) == if offset == 0 then Sorted(items, key) else []
  {
    hide Sorted, Slice;
    assert ListOptions(offset, limit).Normalized() == ListOptions(offset, MAX_LIMIT);
    SliceOfShortList(Sorted(items, key), offset, MAX_LIMIT);
  }

  lemma OffsetOfLaterPage(limit: nat, count: nat)
    requires count > 1
    ensures (count - 1) * limit >= limit
  {
    assert (count - 1) * limit == (count - 2) * limit + limit;
  }

  lemma {:induction false} CappedPagesOfShortList<T>(items: seq<T>, key: T -> Key, limit: nat, count: nat)
    requires limit > MAX_LIMIT && |items| <= MAX_LIMIT && count > 0
    ensures Pages(items, key, limit, limit, count) == Sorted(items, key)
  {
    hide PageOf, Sorted;
    var offset := (count - 1) * limit;
    if count == 1 {
      assert offset == 0 && Pages(items, key, limit, limit, 0) == [];
      CappedPageOfShortList(items, key, 0, limit);
      assert [] + Sorted(items, key) == Sorted(items, key);
    } else {
      OffsetOfLaterPage(limit, count);
      CappedPageOfShortList(items, key, offset, limit);
      CappedPagesOfShortList(items, key, limit, count - 1);
      assert Sorted(items, key) + [] == Sorted(items, key);
    }
  }

  /** Stepping by the limit that the caller asked for covers the list exactly when that limit is
      at most 500 or the list fits the first page: a larger limit is cut to 500, and the items
      between position 500 and the next offset are never shown. */
  lemma PagesByRequestedLimit<T>(items: seq<T>, key: T -> Key, limit: nat, count: nat)
    requires limit > 0 && count > 0 && count * limit >= |items|
    ensures Pages(items, key, limit, limit, count) == Sorted(items, key) <==> limit <= MAX_LIMIT || |items| <= MAX_LIMIT
  {
    if limit <= MAX_LIMIT {
      PagesCoverEverything(items, key, limit, count);
    } else if |items| <= MAX_LIMIT {
      CappedPagesOfShortList(items, key, limit, count);
    } else {
      PagesTotal(items, key, limit, count);
    }
  }

  /** For instance: 501 items, asked for by 501, need one page by that count, and the last item is
      never shown. */
  lemma LastItemIsNeverShown<T>(items: seq<T>, key: T -> Key)
    requires |items| == 501
    ensures Pages(items, key, 501, 501, 1) == Sorted(items, key)[..500]
    ensures Pages(items, key, 501, 501, 1) != Sorted(items, key)
  {
    assert ListOptions(0, 501).Normalized() == ListOptions(0, MAX_LIMIT);
    assert Pages(items, key, 501, 501, 0) == [];
  }
}
