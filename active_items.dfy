/** The list of spawned scene items the source counts against its cap, and
    the erase-remove that forgets an item when its media ends. */
module ActiveItems {

  /** An opaque scene-item handle; only its identity matters here. */
  datatype SceneItem = SceneItem(id: nat)

  /** `std::remove` followed by `erase`: every occurrence of `item` goes,
      everything else stays, with its multiplicity. */
  function Without(items: seq<SceneItem>, item: SceneItem): (r: seq<SceneItem>)
    ensures item !in r
    ensures |r| <= |items|
  {
    if items == [] then []
    else
      var last := items[|items| - 1];
      Without(items[..|items| - 1], item) + (if last == item then [] else [last])
  }

  /** Every occurrence of `item` goes; every other handle keeps its multiplicity. */
  lemma {:induction false} WithoutMultiset(items: seq<SceneItem>, item: SceneItem)
    ensures multiset(Without(items, item)) == multiset(items)[item := 0]
    decreases |items|
  {
    if items != [] {
      var init, last := items[..|items| - 1], items[|items| - 1];
      assert items == init + [last];
      WithoutMultiset(init, item);
    }
  }

  /** The removal applied to a list with one more handle at the end. */
  lemma WithoutSnoc(items: seq<SceneItem>, x: SceneItem, item: SceneItem)
    ensures Without(items + [x], item) == Without(items, item) + (if x == item then [] else [x])
  {
    assert (items + [x])[..|items|] == items;
  }

  /** Removal keeps the other handles in their original relative order. */
  lemma {:induction false} WithoutAppend(a: seq<SceneItem>, b: seq<SceneItem>, item: SceneItem)
    ensures Without(a + b, item) == Without(a, item) + Without(b, item)
    decreases |b|
  {
    if b == [] {
      assert a + b == a;
    } else {
      var b', x := b[..|b| - 1], b[|b| - 1];
      assert b == b' + [x];
      assert a + b == (a + b') + [x];
      WithoutAppend(a, b', item);
      WithoutSnoc(a + b', x, item);
      WithoutSnoc(b', x, item);
    }
  }

  /** Removing a handle that is not in the list leaves the list unchanged. */
  lemma {:induction false} WithoutAbsent(items: seq<SceneItem>, item: SceneItem)
    requires item !in items
    ensures Without(items, item) == items
    decreases |items|
  {
    if items != [] {
      var init := items[..|items| - 1];
      assert items == init + [items[|items| - 1]];
      WithoutAbsent(init, item);
      WithoutSnoc(init, items[|items| - 1], item);
    }
  }

  /** Removing twice leaves the list as removing once. */
  lemma WithoutIdempotent(items: seq<SceneItem>, item: SceneItem)
    ensures Without(Without(items, item), item) == Without(items, item)
  {
    var once := Without(items, item);
    WithoutMultiset(items, item);
    assert multiset(once)[item] == 0;
    WithoutAbsent(once, item);
  }

  /** The list shrinks by exactly the number of occurrences removed. */
  lemma WithoutLength(items: seq<SceneItem>, item: SceneItem)
    ensures |Without(items, item)| == |items| - multiset(items)[item]
  {
    var r := Without(items, item);
    WithoutMultiset(items, item);
    assert |multiset(r)| == |r|;
    assert |multiset(items)| == |items|;
    assert multiset(items) == multiset(r) + multiset{}[item := multiset(items)[item]];
  }
}
