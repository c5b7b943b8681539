/** When the order of the items in an insert payload matters: the sort is stable, and insertion is injective. */
module InsertOrder {
  import opened Common
  import opened MessageEvents

  /** The items that a payload gives for one index, in payload order. */
  function ItemsFor(items: seq<InsertItem>, k: int): seq<InsertItem> {
    if items == [] then [] else
      var before, last := ItemsFor(items[..|items| - 1], k), items[|items| - 1];
      if last.index == k then before + [last] else before
  }

  predicate NonDecreasing(items: seq<InsertItem>) {
    forall i, j :: 0 <= i < j < |items| ==> items[i].index <= items[j].index
  }

  lemma ItemsForOneMore(items: seq<InsertItem>, x: InsertItem, k: int)
    ensures ItemsFor(items + [x], k) == ItemsFor(items, k) + if x.index == k then [x] else []
  {
    InitOfConcat(items, [x]);
    assert items + [] == items;
  }

  lemma {:induction false} ItemsForAppend(a: seq<InsertItem>, b: seq<InsertItem>, k: int)
    ensures ItemsFor(a + b, k) == ItemsFor(a, k) + ItemsFor(b, k)
  {
    if b == [] {
      assert a + b == a;
    } else {
      InitOfConcat(a, b);
      ItemsForAppend(a, b[..|b| - 1], k);
    }
  }

  // ---------------------------------------------------------------------------------------
  // The sort is stable

  lemma {:induction false} PlaceBound(sorted: seq<InsertItem>, item: InsertItem, m: int)
    requires item.index <= m && forall i :: 0 <= i < |sorted| ==> sorted[i].index <= m
    ensures forall i :: 0 <= i < |PlaceItem(sorted, item)| ==> PlaceItem(sorted, item)[i].index <= m
  {
    if sorted != [] && sorted[|sorted| - 1].index > item.index {
      PlaceBound(sorted[..|sorted| - 1], item, m);
    }
  }

  lemma {:induction false} PlaceKeepsOrder(sorted: seq<InsertItem>, item: InsertItem)
    requires NonDecreasing(sorted)
    ensures NonDecreasing(PlaceItem(sorted, item))
  {
    if sorted != [] && sorted[|sorted| - 1].index > item.index {
      var init, last := sorted[..|sorted| - 1], sorted[|sorted| - 1];
      PlaceKeepsOrder(init, item);
      PlaceBound(init, item, last.index);
    }
  }

  lemma {:induction false} PlaceIsStable(sorted: seq<InsertItem>, item: InsertItem, k: int)
    ensures ItemsFor(PlaceItem(sorted, item), k) == ItemsFor(sorted, k) + if item.index == k then [item] else []
  {
    if sorted != [] && sorted[|sorted| - 1].index > item.index {
      var init, last := sorted[..|sorted| - 1], sorted[|sorted| - 1];
      PlaceIsStable(init, item, k);
      ItemsForOneMore(PlaceItem(init, item), last, k);
    } else {
      ItemsForOneMore(sorted, item, k);
    }
  }

  lemma {:induction false} SortIsStable(items: seq<InsertItem>, k: int)
    ensures NonDecreasing(SortItems(items)) && ItemsFor(SortItems(items), k) == ItemsFor(items, k)
  {
    hide PlaceItem;
    if items != [] {
      SortIsStable(items[..|items| - 1], k);
      PlaceKeepsOrder(SortItems(items[..|items| - 1]), items[|items| - 1]);
      PlaceIsStable(SortItems(items[..|items| - 1]), items[|items| - 1], k);
    }
  }

  /** A sorted list has nothing past the index of its last item. */
  lemma {:induction false} NothingPastTheLast(s: seq<InsertItem>, k: int)
    requires NonDecreasing(s) && ItemsFor(s, k) != []
    ensures s != [] && k <= s[|s| - 1].index
  {
    if s[|s| - 1].index != k { NothingPastTheLast(s[..|s| - 1], k); }
  }

  lemma SameLastIndex(s: seq<InsertItem>, t: seq<InsertItem>)
    requires NonDecreasing(s) && NonDecreasing(t) && s != []
    requires forall k :: |ItemsFor(s, k)| == |ItemsFor(t, k)|
    ensures t != [] && s[|s| - 1].index == t[|t| - 1].index
  {
    assert |ItemsFor(s, s[|s| - 1].index)| > 0;
    NothingPastTheLast(t, s[|s| - 1].index);
    assert |ItemsFor(t, t[|t| - 1].index)| > 0;
    NothingPastTheLast(s, t[|t| - 1].index);
  }

  /** Sorted lists with as many items for each index have the same indexes. */
  lemma {:induction false} SortedIndexes(s: seq<InsertItem>, t: seq<InsertItem>)
    requires NonDecreasing(s) && NonDecreasing(t)
    requires forall k :: |ItemsFor(s, k)| == |ItemsFor(t, k)|
    ensures Indexes(s) == Indexes(t)
  {
    if s == [] {
      if t != [] { SameLastIndex(t, s); }
    } else {
      SameLastIndex(s, t);
      var s', t' := s[..|s| - 1], t[..|t| - 1];
      forall k ensures |ItemsFor(s', k)| == |ItemsFor(t', k)| {
        assert |ItemsFor(s, k)| == |ItemsFor(t, k)|;
      }
      SortedIndexes(s', t');
      IndexesInit(s);
      IndexesInit(t);
    }
  }

  /** Sorted lists with the same items for each index, in the same order, are equal. */
  lemma {:induction false} SortedDetermined(s: seq<InsertItem>, t: seq<InsertItem>)
    requires NonDecreasing(s) && NonDecreasing(t)
    requires forall k :: ItemsFor(s, k) == ItemsFor(t, k)
    ensures s == t
  {
    if s == [] {
      if t != [] { SameLastIndex(t, s); }
    } else {
      SameLastIndex(s, t);
      var s', t', last := s[..|s| - 1], t[..|t| - 1], s[|s| - 1].index;
      assert ItemsFor(s, last)[|ItemsFor(s, last)| - 1] == ItemsFor(t, last)[|ItemsFor(t, last)| - 1];
      forall k ensures ItemsFor(s', k) == ItemsFor(t', k) {
        assert ItemsFor(s, k) == ItemsFor(t, k);
        if k == last {
          assert ItemsFor(s', k) == ItemsFor(s, k)[..|ItemsFor(s, k)| - 1];
          assert ItemsFor(t', k) == ItemsFor(t, k)[..|ItemsFor(t, k)| - 1];
        }
      }
      SortedDetermined(s', t');
      assert s == s' + [s[|s| - 1]] && t == t' + [t[|t| - 1]];
    }
  }

  // ---------------------------------------------------------------------------------------
  // Insertion sees every item

  lemma InsertAtInjective<T>(s: seq<T>, t: seq<T>, i: nat, x: T, y: T)
    requires |s| == |t| && i <= |s| && InsertAt(s, i, x) == InsertAt(t, i, y)
    ensures s == t && x == y
  {
    RemoveAtInsertAt(s, i, x);
    RemoveAtInsertAt(t, i, y);
    assert InsertAt(s, i, x)[i] == x && InsertAt(t, i, y)[i] == y;
  }

  /** Whether an insert is accepted depends on its indexes alone. */
  lemma {:induction false} AcceptedByIndexes(parts: seq<Part>, a: seq<InsertItem>, b: seq<InsertItem>)
    requires Indexes(a) == Indexes(b)
    ensures InsertAll(parts, a).Err? ==> InsertAll(parts, b) == InsertAll(parts, a)
    ensures InsertAll(parts, a).Ok? ==> InsertAll(parts, b).Ok? && |InsertAll(parts, b).value| == |InsertAll(parts, a).value|
  {
    assert |a| == |b|;
    if a != [] {
      IndexesInit(a);
      IndexesInit(b);
      assert Indexes(a[..|a| - 1]) == Indexes(a)[..|a| - 1] && Indexes(b[..|b| - 1]) == Indexes(b)[..|b| - 1];
      AcceptedByIndexes(parts, a[..|a| - 1], b[..|b| - 1]);
    }
  }

  /** Lists of one sequence of indexes that insert to the same parts are the same list. */
  lemma {:induction false} InsertAllInjective(parts: seq<Part>, a: seq<InsertItem>, b: seq<InsertItem>)
    requires Indexes(a) == Indexes(b) && InsertAll(parts, a).Ok? && InsertAll(parts, a) == InsertAll(parts, b)
    ensures a == b
  {
    assert |a| == |b|;
    if a != [] {
      var a', b', x, y := a[..|a| - 1], b[..|b| - 1], a[|a| - 1], b[|b| - 1];
      IndexesInit(a);
      IndexesInit(b);
      assert Indexes(a') == Indexes(a)[..|a| - 1] && Indexes(b') == Indexes(b)[..|b| - 1];
      AcceptedByIndexes(parts, a', b');
      InsertAtInjective(InsertAll(parts, a').value, InsertAll(parts, b').value, x.index, x.part, y.part);
      InsertAllInjective(parts, a', b');
      assert a == a' + [x] && b == b' + [y];
    }
  }

  // ---------------------------------------------------------------------------------------
  // The order of a payload

  lemma {:induction false} CountOf(items: seq<InsertItem>, k: int, x: InsertItem)
    ensures multiset(ItemsFor(items, k))[x] == if x.index == k then multiset(items)[x] else 0
  {
    if items != [] {
      var init, last := items[..|items| - 1], items[|items| - 1];
      CountOf(init, k, x);
      assert items == init + [last];
    }
  }

  /** The same items in another order: as many for each index. */
  lemma SameCounts(a: seq<InsertItem>, b: seq<InsertItem>, k: int)
    requires multiset(a) == multiset(b)
    ensures |ItemsFor(a, k)| == |ItemsFor(b, k)|
  {
    forall x ensures multiset(ItemsFor(a, k))[x] == multiset(ItemsFor(b, k))[x] {
      CountOf(a, k, x);
      CountOf(b, k, x);
    }
    assert multiset(ItemsFor(a, k)) == multiset(ItemsFor(b, k));
    assert |multiset(ItemsFor(a, k))| == |ItemsFor(a, k)|;
  }

  lemma SameSortedIndexes(a: seq<InsertItem>, b: seq<InsertItem>)
    requires multiset(a) == multiset(b)
    ensures Indexes(SortItems(a)) == Indexes(SortItems(b))
  {
    hide SortItems, Indexes;
    forall k ensures |ItemsFor(SortItems(a), k)| == |ItemsFor(SortItems(b), k)| {
      SortIsStable(a, k);
      SortIsStable(b, k);
      SameCounts(a, b, k);
    }
    SortIsStable(a, 0);
    SortIsStable(b, 0);
    SortedIndexes(SortItems(a), SortItems(b));
  }

  /** For every index the items given for it come in the same order. */
  ghost predicate SameOrderForEachIndex(a: seq<InsertItem>, b: seq<InsertItem>) {
    forall k :: ItemsFor(a, k) == ItemsFor(b, k)
  }

  /**
   Two payloads of the same items in another order are rejected alike; when they are accepted they
   give the same parts exactly when for every index the parts given for it come in the same order.
   */
  lemma {:induction false} OrderMattersOnlyWithinAnIndex(parts: seq<Part>, a: seq<InsertItem>, b: seq<InsertItem>)
    requires multiset(a) == multiset(b)
    ensures InsertParts(parts, a).Err? ==> InsertParts(parts, b) == InsertParts(parts, a)
    ensures InsertParts(parts, a).Ok? ==>
              (InsertParts(parts, a) == InsertParts(parts, b) <==> SameOrderForEachIndex(a, b))
  {
    hide SortItems, Indexes, InsertAll, ItemsFor;
    SameSortedIndexes(a, b);
    AcceptedByIndexes(parts, SortItems(a), SortItems(b));
    forall k ensures ItemsFor(SortItems(a), k) == ItemsFor(a, k) && ItemsFor(SortItems(b), k) == ItemsFor(b, k) {
      SortIsStable(a, k);
      SortIsStable(b, k);
    }
    SortIsStable(a, 0);
    SortIsStable(b, 0);
    if SameOrderForEachIndex(a, b) {
      forall k ensures ItemsFor(SortItems(a), k) == ItemsFor(SortItems(b), k) {
        assert ItemsFor(a, k) == ItemsFor(b, k);
      }
      SortedDetermined(SortItems(a), SortItems(b));
    }
    if InsertParts(parts, a).Ok? && InsertParts(parts, a) == InsertParts(parts, b) {
      InsertAllInjective(parts, SortItems(a), SortItems(b));
      forall k ensures ItemsFor(a, k) == ItemsFor(b, k) {
        assert ItemsFor(SortItems(a), k) == ItemsFor(SortItems(b), k);
      }
    }
  }

  lemma Around(x: seq<InsertItem>, i: InsertItem, j: InsertItem, y: seq<InsertItem>, k: int)
    ensures ItemsFor(x + [i, j] + y, k) ==
            ItemsFor(x, k) + ((if i.index == k then [i] else []) + (if j.index == k then [j] else [])) + ItemsFor(y, k)
  {
    ItemsForAppend(x + [i, j], y, k);
    ItemsForAppend(x, [i, j], k);
    assert [i, j][..1] == [i] && [i][..0] == [];
    assert ItemsFor([i], k) == if i.index == k then [i] else [];
  }

  lemma SameMultiset(x: seq<InsertItem>, i: InsertItem, j: InsertItem, y: seq<InsertItem>)
    ensures multiset(x + [i, j] + y) == multiset(x + [j, i] + y)
  {
    assert multiset([i, j]) == multiset([j, i]);
    assert multiset(x + [i, j] + y) == multiset(x) + multiset([i, j]) + multiset(y);
    assert multiset(x + [j, i] + y) == multiset(x) + multiset([j, i]) + multiset(y);
  }

  /** Swapping two neighbours of an accepted payload is visible exactly when they share an index and differ. */
  lemma {:induction false} SwapIsVisibleIff(parts: seq<Part>, x: seq<InsertItem>, i: InsertItem, j: InsertItem,
      y: seq<InsertItem>)
    requires InsertParts(parts, x + [i, j] + y).Ok?
    ensures InsertParts(parts, x + [i, j] + y) != InsertParts(parts, x + [j, i] + y) <==>
            i.index == j.index && i.part != j.part
  {
    hide InsertParts, ItemsFor;
    var a, b := x + [i, j] + y, x + [j, i] + y;
    SameMultiset(x, i, j, y);
    OrderMattersOnlyWithinAnIndex(parts, a, b);
    if i.index == j.index && i.part != j.part {
      Around(x, i, j, y, i.index);
      Around(x, j, i, y, i.index);
      assert ItemsFor(a, i.index)[|ItemsFor(x, i.index)|] == i && ItemsFor(b, i.index)[|ItemsFor(x, i.index)|] == j;
    } else {
      forall k ensures ItemsFor(a, k) == ItemsFor(b, k) {
        Around(x, i, j, y, k);
        Around(x, j, i, y, k);
      }
    }
  }

  function AllAt(k: int, parts: seq<Part>): (r: seq<InsertItem>)
    ensures |r| == |parts| && forall i :: 0 <= i < |r| ==> r[i] == InsertItem(k, parts[i])
  {
    if parts == [] then [] else AllAt(k, parts[..|parts| - 1]) + [InsertItem(k, parts[|parts| - 1])]
  }

  function Reversed(parts: seq<Part>): seq<Part> {
    if parts == [] then [] else [parts[|parts| - 1]] + Reversed(parts[..|parts| - 1])
  }

  lemma InsertInFront(parts: seq<Part>, k: nat, reversed: seq<Part>, last: Part)
    requires k <= |parts|
    ensures InsertAt(parts[..k] + reversed + parts[k..], k, last) == parts[..k] + ([last] + reversed) + parts[k..]
  {
  }

  /** Any number of parts for one index come out in reverse order at that index. */
  lemma {:induction false} OneIndexReverses(parts: seq<Part>, k: nat, given: seq<Part>)
    requires k <= |parts|
    ensures SortItems(AllAt(k, given)) == AllAt(k, given)
    ensures InsertParts(parts, AllAt(k, given)) == Ok(parts[..k] + Reversed(given) + parts[k..])
  {
    if given == [] {
      assert parts == parts[..k] + [] + parts[k..];
    } else {
      var init, last := given[..|given| - 1], given[|given| - 1];
      OneIndexReverses(parts, k, init);
      InitOfConcat(AllAt(k, init), [InsertItem(k, last)]);
      assert AllAt(k, init) + [] == AllAt(k, init);
      InsertInFront(parts, k, Reversed(init), last);
      hide InsertAt;
    }
  }
}
