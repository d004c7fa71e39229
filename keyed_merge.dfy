/** Merging a sequence of items by identity, for any identity function:
    one slot per identity, opened where the identity first appears and
    holding the last item seen with it. The stream merge instantiates it
    with the identity of message content parts. */
module KeyedMerge {

  /** The first position in `s` whose item has identity `k`, or -1. */
  function FirstWith<T, K(==)>(s: seq<T>, key: T -> K, k: K): (r: int)
    ensures -1 <= r < |s|
    ensures r >= 0 ==> key(s[r]) == k && forall j :: 0 <= j < r ==> key(s[j]) != k
    ensures r < 0 ==> forall j :: 0 <= j < |s| ==> key(s[j]) != k
  {
    if s == [] then -1
    else if key(s[0]) == k then 0
    else
      var i := FirstWith(s[1..], key, k);
      if i < 0 then -1 else i + 1
  }

  /** The last position in `s` whose item has identity `k`, or -1. */
  function LastWith<T, K(==)>(s: seq<T>, key: T -> K, k: K): (r: int)
    ensures -1 <= r < |s|
    ensures r >= 0 ==> key(s[r]) == k && forall j :: r < j < |s| ==> key(s[j]) != k
    ensures r < 0 ==> forall j :: 0 <= j < |s| ==> key(s[j]) != k
  {
    if s == [] then -1
    else if key(s[|s| - 1]) == k then |s| - 1
    else LastWith(s[..|s| - 1], key, k)
  }

  predicate DistinctBy<T, K(==)>(s: seq<T>, key: T -> K) {
    forall i, j :: 0 <= i < j < |s| ==> key(s[i]) != key(s[j])
  }

  /** One upsert on the slot list: an item with a known identity replaces
      that slot, a new identity is appended. */
  function Place<T, K(==)>(slots: seq<T>, key: T -> K, p: T): (r: seq<T>)
    ensures |slots| <= |r| <= |slots| + 1
  {
    var i := FirstWith(slots, key, key(p));
    if i >= 0 then slots[i := p] else slots + [p]
  }

  /** The slots after upserting every item of `items`, in order. */
  function MergeBy<T, K(==)>(items: seq<T>, key: T -> K): (r: seq<T>)
    ensures |r| <= |items|
    decreases |items|
  {
    if items == [] then [] else Place(MergeBy(items[..|items| - 1], key), key, items[|items| - 1])
  }

  /** What the merged slots are, independently of how they are built:
      one slot per identity, every identity of the input has a slot,
      each slot holds the last item seen with its identity, and slots
      follow the order in which identities first appear. */
  ghost predicate MergedFrom<T, K>(r: seq<T>, items: seq<T>, key: T -> K) {
    DistinctBy(r, key) && Covers(r, items, key) && NewestInSlots(r, items, key)
    && FirstAppearanceOrder(r, items, key)
  }

  predicate Covers<T, K(==)>(r: seq<T>, items: seq<T>, key: T -> K) {
    forall j :: 0 <= j < |items| ==> FirstWith(r, key, key(items[j])) >= 0
  }

  ghost predicate NewestInSlots<T, K>(r: seq<T>, items: seq<T>, key: T -> K) {
    forall i :: 0 <= i < |r| ==>
      LastWith(items, key, key(r[i])) >= 0 && r[i] == items[LastWith(items, key, key(r[i]))]
  }

  predicate FirstAppearanceOrder<T, K(==)>(r: seq<T>, items: seq<T>, key: T -> K) {
    forall i, j :: 0 <= i < j < |r| ==>
      FirstWith(items, key, key(r[i])) < FirstWith(items, key, key(r[j]))
  }

  lemma LastWithSnoc<T, K>(s: seq<T>, key: T -> K, p: T, k: K)
    ensures LastWith(s + [p], key, k) == if key(p) == k then |s| else LastWith(s, key, k)
  {
    assert (s + [p])[..|s|] == s;
  }

  lemma FirstWithSnoc<T, K>(s: seq<T>, key: T -> K, p: T, k: K)
    ensures FirstWith(s + [p], key, k) ==
              if FirstWith(s, key, k) >= 0 then FirstWith(s, key, k)
              else if key(p) == k then |s| else -1
  {
    var f := FirstWith(s, key, k);
    assert (s + [p])[|s|] == p;
    if f >= 0 {
      assert (s + [p])[f] == s[f];
    }
  }

  /** Two slot lists with the same identities in the same places find
      every identity at the same place. */
  lemma FirstWithSameKeys<T, K>(a: seq<T>, b: seq<T>, key: T -> K, k: K)
    requires |a| == |b| && forall i :: 0 <= i < |a| ==> key(a[i]) == key(b[i])
    ensures FirstWith(a, key, k) == FirstWith(b, key, k)
  {
    var x := FirstWith(a, key, k);
    var y := FirstWith(b, key, k);
    if x >= 0 && y >= 0 {
      assert !(x < y) && !(y < x);
    }
  }

  /** An item whose identity already has a slot takes that slot over. */
  lemma PlaceReplaces<T, K>(slots: seq<T>, init: seq<T>, key: T -> K, p: T)
    requires MergedFrom(slots, init, key)
    requires FirstWith(slots, key, key(p)) >= 0
    ensures MergedFrom(Place(slots, key, p), init + [p], key)
  {
    var s := FirstWith(slots, key, key(p));
    assert Place(slots, key, p) == slots[s := p];
    ReplaceKeepsKeys(slots, key, s, p);
    ReplaceCovers(slots, init, key, s, p);
    ReplaceNewest(slots, init, key, s, p);
    ReplaceOrder(slots, init, key, s, p);
  }

  lemma ReplaceKeepsKeys<T, K>(slots: seq<T>, key: T -> K, s: int, p: T)
    requires 0 <= s < |slots| && key(slots[s]) == key(p)
    requires DistinctBy(slots, key)
    ensures forall i :: 0 <= i < |slots| ==> key(slots[s := p][i]) == key(slots[i])
    ensures DistinctBy(slots[s := p], key)
  {
  }

  lemma ReplaceCovers<T, K>(slots: seq<T>, init: seq<T>, key: T -> K, s: int, p: T)
    requires 0 <= s < |slots| && key(slots[s]) == key(p)
    requires Covers(slots, init, key)
    ensures Covers(slots[s := p], init + [p], key)
  {
    var r := slots[s := p];
    var items := init + [p];
    forall j | 0 <= j < |items| ensures FirstWith(r, key, key(items[j])) >= 0 {
      FirstWithSameKeys(r, slots, key, key(items[j]));
      if j < |init| {
        assert items[j] == init[j];
      } else {
        assert items[j] == p;
      }
    }
  }

  lemma ReplaceNewest<T, K>(slots: seq<T>, init: seq<T>, key: T -> K, s: int, p: T)
    requires 0 <= s < |slots| && key(slots[s]) == key(p)
    requires DistinctBy(slots, key) && NewestInSlots(slots, init, key)
    ensures NewestInSlots(slots[s := p], init + [p], key)
  {
    var r := slots[s := p];
    var items := init + [p];
    forall i | 0 <= i < |r|
      ensures LastWith(items, key, key(r[i])) >= 0 && r[i] == items[LastWith(items, key, key(r[i]))]
    {
      LastWithSnoc(init, key, p, key(r[i]));
      if i != s {
        assert key(r[i]) != key(p);
        assert items[LastWith(init, key, key(r[i]))] == init[LastWith(init, key, key(r[i]))];
      } else {
        assert items[|init|] == p;
      }
    }
  }

  lemma ReplaceOrder<T, K>(slots: seq<T>, init: seq<T>, key: T -> K, s: int, p: T)
    requires 0 <= s < |slots| && key(slots[s]) == key(p)
    requires NewestInSlots(slots, init, key) && FirstAppearanceOrder(slots, init, key)
    ensures FirstAppearanceOrder(slots[s := p], init + [p], key)
  {
    var r := slots[s := p];
    var items := init + [p];
    forall i, j | 0 <= i < j < |r|
      ensures FirstWith(items, key, key(r[i])) < FirstWith(items, key, key(r[j]))
    {
      assert key(r[i]) == key(slots[i]) && key(r[j]) == key(slots[j]);
      FirstWithSnoc(init, key, p, key(slots[i]));
      FirstWithSnoc(init, key, p, key(slots[j]));
      assert LastWith(init, key, key(slots[i])) >= 0;
      assert LastWith(init, key, key(slots[j])) >= 0;
    }
  }

  /** An item with an identity not seen before opens a new last slot. */
  lemma PlaceAppends<T, K>(slots: seq<T>, init: seq<T>, key: T -> K, p: T)
    requires MergedFrom(slots, init, key)
    requires FirstWith(slots, key, key(p)) < 0
    ensures MergedFrom(Place(slots, key, p), init + [p], key)
  {
    assert Place(slots, key, p) == slots + [p];
    assert FirstWith(init, key, key(p)) < 0 by {
      forall j | 0 <= j < |init| ensures key(init[j]) != key(p) {
        var t := FirstWith(slots, key, key(init[j]));
        assert key(slots[t]) == key(init[j]);
      }
    }
    AppendDistinct(slots, key, p);
    AppendCovers(slots, init, key, p);
    AppendNewest(slots, init, key, p);
    AppendOrder(slots, init, key, p);
  }

  lemma AppendDistinct<T, K>(slots: seq<T>, key: T -> K, p: T)
    requires DistinctBy(slots, key) && FirstWith(slots, key, key(p)) < 0
    ensures DistinctBy(slots + [p], key)
  {
    var r := slots + [p];
    forall i, j | 0 <= i < j < |r| ensures key(r[i]) != key(r[j]) {
      assert r[i] == slots[i];
      if j < |slots| {
        assert r[j] == slots[j];
      }
    }
  }

  lemma AppendCovers<T, K>(slots: seq<T>, init: seq<T>, key: T -> K, p: T)
    requires Covers(slots, init, key)
    ensures Covers(slots + [p], init + [p], key)
  {
    var items := init + [p];
    forall j | 0 <= j < |items| ensures FirstWith(slots + [p], key, key(items[j])) >= 0 {
      FirstWithSnoc(slots, key, p, key(items[j]));
      if j < |init| {
        assert items[j] == init[j];
      } else {
        assert items[j] == p;
      }
    }
  }

  lemma AppendNewest<T, K>(slots: seq<T>, init: seq<T>, key: T -> K, p: T)
    requires NewestInSlots(slots, init, key) && FirstWith(slots, key, key(p)) < 0
    ensures NewestInSlots(slots + [p], init + [p], key)
  {
    var r := slots + [p];
    var items := init + [p];
    forall i | 0 <= i < |r|
      ensures LastWith(items, key, key(r[i])) >= 0 && r[i] == items[LastWith(items, key, key(r[i]))]
    {
      LastWithSnoc(init, key, p, key(r[i]));
      if i < |slots| {
        assert r[i] == slots[i];
        assert key(r[i]) != key(p);
        assert items[LastWith(init, key, key(r[i]))] == init[LastWith(init, key, key(r[i]))];
      } else {
        assert r[i] == p && items[|init|] == p;
      }
    }
  }

  lemma AppendOrder<T, K>(slots: seq<T>, init: seq<T>, key: T -> K, p: T)
    requires NewestInSlots(slots, init, key) && FirstAppearanceOrder(slots, init, key)
    requires FirstWith(init, key, key(p)) < 0
    ensures FirstAppearanceOrder(slots + [p], init + [p], key)
  {
    var r := slots + [p];
    var items := init + [p];
    forall i, j | 0 <= i < j < |r|
      ensures FirstWith(items, key, key(r[i])) < FirstWith(items, key, key(r[j]))
    {
      assert r[i] == slots[i];
      FirstWithSnoc(init, key, p, key(r[i]));
      FirstWithSnoc(init, key, p, key(r[j]));
      assert LastWith(init, key, key(r[i])) >= 0;
      if j < |slots| {
        assert r[j] == slots[j];
      } else {
        assert r[j] == p;
      }
    }
  }

  /** The merge specification: `MergeBy` builds exactly the merged slots. */
  lemma {:induction false} MergeByIsMerged<T, K>(items: seq<T>, key: T -> K)
    ensures MergedFrom(MergeBy(items, key), items, key)
  {
    if items != [] {
      var init := items[..|items| - 1];
      var p := items[|items| - 1];
      assert items == init + [p];
      MergeByIsMerged(init, key);
      if FirstWith(MergeBy(init, key), key, key(p)) >= 0 {
        PlaceReplaces(MergeBy(init, key), init, key, p);
      } else {
        PlaceAppends(MergeBy(init, key), init, key, p);
      }
    }
  }

  /** The two locals of the client's merge loop describe `slots`:
      `orderedKeys` lists the slot identities in order and `byIdentity`
      maps each identity to its slot's item. */
  ghost predicate Tracks<T, K>(orderedKeys: seq<K>, byIdentity: map<K, T>, slots: seq<T>, key: T -> K) {
    |orderedKeys| == |slots|
    && (forall i :: 0 <= i < |slots| ==> orderedKeys[i] == key(slots[i]))
    && (forall i, j :: 0 <= i < j < |orderedKeys| ==> orderedKeys[i] != orderedKeys[j])
    && (forall i :: 0 <= i < |orderedKeys| ==> orderedKeys[i] in byIdentity
                                               && byIdentity[orderedKeys[i]] == slots[i])
    && (forall k :: k in byIdentity ==> k in orderedKeys)
  }

  /** One upsert on the two locals keeps them describing the slots. */
  lemma TracksPlace<T, K>(orderedKeys: seq<K>, byIdentity: map<K, T>, slots: seq<T>, key: T -> K, item: T)
    requires Tracks(orderedKeys, byIdentity, slots, key)
    ensures Tracks(if key(item) in byIdentity then orderedKeys else orderedKeys + [key(item)],
                   byIdentity[key(item) := item], Place(slots, key, item), key)
  {
    if key(item) in byIdentity {
      TracksReplace(orderedKeys, byIdentity, slots, key, item);
    } else {
      TracksAppend(orderedKeys, byIdentity, slots, key, item);
    }
  }

  lemma TracksReplace<T, K>(orderedKeys: seq<K>, byIdentity: map<K, T>, slots: seq<T>, key: T -> K, item: T)
    requires Tracks(orderedKeys, byIdentity, slots, key) && key(item) in byIdentity
    ensures Tracks(orderedKeys, byIdentity[key(item) := item], Place(slots, key, item), key)
  {
    var i :| 0 <= i < |orderedKeys| && orderedKeys[i] == key(item);
    assert FirstWith(slots, key, key(item)) == i;
    assert Place(slots, key, item) == slots[i := item];
  }

  lemma TracksAppend<T, K>(orderedKeys: seq<K>, byIdentity: map<K, T>, slots: seq<T>, key: T -> K, item: T)
    requires Tracks(orderedKeys, byIdentity, slots, key) && key(item) !in byIdentity
    ensures Tracks(orderedKeys + [key(item)], byIdentity[key(item) := item], Place(slots, key, item), key)
  {
    assert FirstWith(slots, key, key(item)) < 0;
    assert Place(slots, key, item) == slots + [item];
    var keys := orderedKeys + [key(item)];
    assert forall i :: 0 <= i < |orderedKeys| ==> keys[i] == orderedKeys[i];
  }
}
