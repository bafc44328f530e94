/** The performance helpers of `src/autonomous_dev/performance.py`: the LRU cache
    `SimpleCache` over an ordered dictionary, the memoising wrapper built by `cached`,
    and the three `OptimizationStrategy` helpers. */
module Performance {
  import opened Python

  // ---------------------------------------------------------------------------
  // The ordered dictionary under the cache

  predicate Distinct(s: seq<string>)
  {
    forall i, j :: 0 <= i < j < |s| ==> s[i] != s[j]
  }

  lemma DistinctAppend(s: seq<string>, x: string)
    ensures Distinct(s + [x]) <==> Distinct(s) && x !in s
  {
    var t := s + [x];
    if Distinct(t) {
      assert Distinct(s) by {
        forall i, j | 0 <= i < j < |s| ensures s[i] != s[j] {
          assert t[i] == s[i] && t[j] == s[j];
        }
      }
      forall i | 0 <= i < |s| ensures s[i] != x {
        assert t[i] == s[i] && t[|s|] == x;
      }
    }
  }

  /** The keys in order with `key` taken out. */
  function Remove(order: seq<string>, key: string): seq<string>
  {
    if order == [] then []
    else
      var last := order[|order| - 1];
      Remove(order[..|order| - 1], key) + (if last == key then [] else [last])
  }

  /** Taking a key out keeps every other key and no copy of the key. */
  lemma {:induction false} RemoveMembers(order: seq<string>, key: string)
    ensures forall x :: x in Remove(order, key) <==> x in order && x != key
    decreases |order|
  {
    if order != [] {
      var init, last := order[..|order| - 1], order[|order| - 1];
      RemoveMembers(init, key);
      assert order == init + [last];
    }
  }

  /** Taking a key out of distinct keys leaves distinct keys, one fewer when it was
      there. */
  lemma {:induction false} RemoveDistinct(order: seq<string>, key: string)
    requires Distinct(order)
    ensures Distinct(Remove(order, key))
    ensures key in order ==> |Remove(order, key)| == |order| - 1
    decreases |order|
  {
    if order != [] {
      var init, last := order[..|order| - 1], order[|order| - 1];
      assert order == init + [last];
      DistinctAppend(init, last);
      RemoveDistinct(init, key);
      if last != key {
        RemoveMembers(init, key);
        DistinctAppend(Remove(init, key), last);
      } else {
        RemoveAbsent(init, key);
      }
    }
  }

  /** Taking out a key that is not there changes nothing. */
  lemma {:induction false} RemoveAbsent(order: seq<string>, key: string)
    requires key !in order
    ensures Remove(order, key) == order
    decreases |order|
  {
    if order != [] {
      var init, last := order[..|order| - 1], order[|order| - 1];
      assert order == init + [last];
      RemoveAbsent(init, key);
    }
  }

  /** Taking a key out keeps every other key, in order, and no copy of the key; in a
      sequence of distinct keys that holds it, it is one key fewer. */
  lemma RemoveSpec(order: seq<string>, key: string)
    ensures forall x :: x in Remove(order, key) <==> x in order && x != key
    ensures Distinct(order) ==> Distinct(Remove(order, key))
    ensures Distinct(order) && key in order ==> |Remove(order, key)| == |order| - 1
    ensures key !in order ==> Remove(order, key) == order
  {
    RemoveMembers(order, key);
    if Distinct(order) {
      RemoveDistinct(order, key);
    }
    if key !in order {
      RemoveAbsent(order, key);
    }
  }

  /** A value of Python's `OrderedDict[str, V]`: the keys from least to most recently
      placed at the end, and the value of each key. */
  datatype OrderedDict<V> = OrderedDict(order: seq<string>, items: map<string, V>)

  /** Every key occurs once in the order and the order holds exactly the keys. */
  ghost predicate WellFormed<V>(d: OrderedDict<V>)
  {
    Distinct(d.order) && forall k :: k in d.order <==> k in d.items
  }

  /** `move_to_end(key)`. */
  function MoveToEnd<V>(d: OrderedDict<V>, key: string): OrderedDict<V>
  {
    OrderedDict(Remove(d.order, key) + [key], d.items)
  }

  /** `d[key] = value`: a present key keeps its place, a new key goes to the end. */
  function Assign<V>(d: OrderedDict<V>, key: string, value: V): OrderedDict<V>
  {
    OrderedDict(if key in d.items then d.order else d.order + [key], d.items[key := value])
  }

  /** `popitem(last=False)`: drops the oldest key. */
  function PopFirst<V>(d: OrderedDict<V>): OrderedDict<V>
    requires |d.order| > 0
  {
    OrderedDict(d.order[1..], d.items - {d.order[0]})
  }

  /** The number of entries a cache of `max_size` holds once it has been filled. */
  function Capacity(maxSize: int): nat
  {
    if maxSize < 0 then 0 else maxSize
  }

  /** `SimpleCache.get(key)`: the value and the dictionary afterwards. */
  function AfterGet<V>(d: OrderedDict<V>, key: string): (Option<V>, OrderedDict<V>)
  {
    if key !in d.items then (None, d) else (Some(d.items[key]), MoveToEnd(d, key))
  }

  /** `SimpleCache.set(key, value)`: promote a present key, assign, then drop the oldest
      entry once there are more than `max_size`. */
  function AfterSet<V>(d: OrderedDict<V>, key: string, value: V, maxSize: int): OrderedDict<V>
  {
    var promoted := if key in d.items then MoveToEnd(d, key) else d;
    var stored := Assign(promoted, key, value);
    if |stored.order| > maxSize then PopFirst(stored) else stored
  }

  /** After `max_size` is lowered below the number of entries, `set` drops one entry at
      most: a new key leaves the size as it was, an overwrite takes one entry off, so a
      cache more than one entry over its new bound stays over it. */
  lemma LoweredBound<V>(d: OrderedDict<V>, key: string, value: V, maxSize: int)
    requires WellFormed(d) && |d.order| > Capacity(maxSize)
    ensures key !in d.items ==> |AfterSet(d, key, value, maxSize).order| == |d.order|
    ensures key in d.items ==> |AfterSet(d, key, value, maxSize).order| == |d.order| - 1
    ensures |d.order| > Capacity(maxSize) + 1 ==> |AfterSet(d, key, value, maxSize).order| > Capacity(maxSize)
  {
    RemoveSpec(d.order, key);
  }

  /** A lookup never adds or drops a key: the value is returned exactly when the key is
      present; a missing key leaves the dictionary as it was; a present key becomes the
      most recent and every other key keeps its relative order. */
  lemma GetSpec<V>(d: OrderedDict<V>, key: string)
    requires WellFormed(d)
    ensures var (r, d') := AfterGet(d, key);
            && WellFormed(d')
            && d'.items == d.items
            && |d'.order| == |d.order|
            && (r.Some? <==> key in d.items)
            && (key in d.items ==> r.value == d.items[key] && d'.order[|d'.order| - 1] == key
                                   && Remove(d'.order, key) == Remove(d.order, key))
            && (key !in d.items ==> d' == d)
  {
    if key in d.items {
      var d' := MoveToEnd(d, key);
      RemoveSpec(d.order, key);
      DistinctAppend(Remove(d.order, key), key);
      RemoveSpec(d'.order, key);
      RemoveRemovesLast(Remove(d.order, key), key);
    }
  }

  /** Removing a key that was just appended after a sequence without it gives that
      sequence back. */
  lemma RemoveRemovesLast(s: seq<string>, key: string)
    requires key !in s
    ensures Remove(s + [key], key) == s
  {
    assert (s + [key])[..|s|] == s;
    RemoveSpec(s, key);
  }

  /** A store keeps the dictionary well formed and within the capacity of `max_size`:
      the size grows by one for a new key below capacity and is unchanged otherwise. */
  lemma SetKeepsBound<V>(d: OrderedDict<V>, key: string, value: V, maxSize: int)
    requires WellFormed(d) && |d.order| <= Capacity(maxSize)
    ensures var d' := AfterSet(d, key, value, maxSize);
            && WellFormed(d')
            && |d'.order| <= Capacity(maxSize)
            && (key in d.items || |d.order| == Capacity(maxSize) ==> |d'.order| == |d.order|)
            && (key !in d.items && |d.order| < Capacity(maxSize) ==> |d'.order| == |d.order| + 1)
  {
    var promoted := if key in d.items then MoveToEnd(d, key) else d;
    if key in d.items {
      GetSpec(d, key);
    }
    var stored := Assign(promoted, key, value);
    if key !in promoted.items {
      DistinctAppend(promoted.order, key);
    }
    assert WellFormed(stored);
    if |stored.order| > maxSize {
      var popped := PopFirst(stored);
      assert Distinct(popped.order) by {
        forall i, j | 0 <= i < j < |popped.order| ensures popped.order[i] != popped.order[j] {
          assert popped.order[i] == stored.order[i + 1] && popped.order[j] == stored.order[j + 1];
        }
      }
      forall k ensures k in popped.order <==> k in popped.items {
        if k in popped.order {
          var i :| 0 <= i < |popped.order| && popped.order[i] == k;
          assert stored.order[i + 1] == k;
        }
        if k in stored.order && k != stored.order[0] {
          var i :| 0 <= i < |stored.order| && stored.order[i] == k;
          assert popped.order[i - 1] == k;
        }
      }
    }
  }

  /** After a store every resident entry holds the stored value or its earlier value. */
  lemma SetItems<V>(d: OrderedDict<V>, key: string, value: V, maxSize: int)
    ensures var d' := AfterSet(d, key, value, maxSize);
            forall k :: k in d'.items ==>
              (k == key && d'.items[k] == value) || (k != key && k in d.items && d'.items[k] == d.items[k])
  {
  }

  /** Storing under a present key replaces its value, makes it the most recent and keeps
      the size; every other entry is untouched. */
  lemma OverwriteSpec<V>(d: OrderedDict<V>, key: string, value: V, maxSize: int)
    requires WellFormed(d) && |d.order| <= Capacity(maxSize)
    requires key in d.items
    ensures var d' := AfterSet(d, key, value, maxSize);
            && |d'.order| == |d.order|
            && d'.items == d.items[key := value]
            && d'.order == Remove(d.order, key) + [key]
  {
    GetSpec(d, key);
  }

  /** Storing a new key into a full cache evicts exactly the least recently used key;
      below capacity nothing is evicted. */
  lemma EvictSpec<V>(d: OrderedDict<V>, key: string, value: V, maxSize: int)
    requires WellFormed(d) && |d.order| <= Capacity(maxSize)
    requires key !in d.items
    ensures var d' := AfterSet(d, key, value, maxSize);
            && (|d.order| == maxSize && maxSize > 0 ==>
                  d'.order == d.order[1..] + [key] && d'.items == (d.items - {d.order[0]})[key := value])
            && (|d.order| < maxSize ==> d'.order == d.order + [key] && d'.items == d.items[key := value])
            && (maxSize <= 0 ==> d'.order == [] && d'.items == map[])
  {
    if |d.order| == maxSize && maxSize > 0 {
      var oldest := d.order[0];
      assert oldest != key;
      assert (d.order + [key])[1..] == d.order[1..] + [key];
    }
  }

  /** With room for at least one entry, a lookup right after a store finds the stored
      value. */
  lemma SetThenGet<V>(d: OrderedDict<V>, key: string, value: V, maxSize: int)
    requires WellFormed(d) && |d.order| <= Capacity(maxSize) && maxSize >= 1
    ensures AfterGet(AfterSet(d, key, value, maxSize), key).0 == Some(value)
  {
    var promoted := if key in d.items then MoveToEnd(d, key) else d;
    var stored := Assign(promoted, key, value);
    if key in d.items {
      GetSpec(d, key);
    }
    if |stored.order| > maxSize {
      assert key !in d.items;
      assert stored.order[0] != key by {
        assert stored.order[0] == d.order[0];
        assert d.order[0] in d.order;
      }
    }
  }

  // ---------------------------------------------------------------------------
  // SimpleCache

  /** The default `max_size` of `SimpleCache`. */
  const DefaultMaxSize := 100

  /** `SimpleCache`: an LRU cache of at most `max_size` entries. */
  class SimpleCache<V> {
    const maxSize: int
    var order: seq<string>
    var items: map<string, V>

    function Contents(): OrderedDict<V>
      reads this
    {
      OrderedDict(order, items)
    }

    ghost predicate Valid()
      reads this
    {
      WellFormed(Contents()) && |order| <= Capacity(maxSize)
    }

    /** `SimpleCache(max_size)`: empty. */
    constructor (maxSize: int)
      ensures Valid()
      ensures this.maxSize == maxSize && Contents() == OrderedDict([], map[])
    {
      this.maxSize := maxSize;
      order := [];
      items := map[];
    }

    /** `get(key)`: the value, promoted to most recent, or None for a missing key. */
    method Get(key: string) returns (r: Option<V>)
      requires Valid()
      modifies this
      ensures Valid()
      ensures (r, Contents()) == AfterGet(old(Contents()), key)
    {
      GetSpec(Contents(), key);
      if key !in items {
        return None;
      }
      order := Remove(order, key) + [key];
      r := Some(items[key]);
    }

    /** `set(key, value)`. */
    method Set(key: string, value: V)
      requires Valid()
      modifies this
      ensures Valid()
      ensures Contents() == AfterSet(old(Contents()), key, value, maxSize)
    {
      SetKeepsBound(Contents(), key, value, maxSize);
      if key in items {
        order := Remove(order, key) + [key];
      }
      if key !in items {
        order := order + [key];
      }
      items := items[key := value];
      if |order| > maxSize {
        var oldest := order[0];
        order := order[1..];
        items := items - {oldest};
      }
    }

    /** `clear()`. */
    method Clear()
      modifies this
      ensures Valid()
      ensures Contents() == OrderedDict([], map[])
    {
      order := [];
      items := map[];
    }

    /** `size()`: the number of entries, never more than the capacity of `max_size`. */
    method Size() returns (n: nat)
      requires Valid()
      ensures n == |order| == |items|
      ensures n <= Capacity(maxSize)
    {
      n := |order|;
      assert |items| == n by {
        var keys := set k | k in order;
        assert items.Keys == keys;
        DistinctCard(order);
      }
    }
  }

  /** A sequence of distinct keys has as many elements as its set of keys. */
  lemma {:induction false} DistinctCard(s: seq<string>)
    requires Distinct(s)
    ensures |set k | k in s| == |s|
    decreases |s|
  {
    if s != [] {
      var init, last := s[..|s| - 1], s[|s| - 1];
      assert s == init + [last];
      DistinctAppend(init, last);
      DistinctCard(init);
      assert (set k | k in s) == (set k | k in init) + {last};
    }
  }

  /** The tested LRU scenarios, for any three distinct keys: with room for two, storing
      a, b and c evicts a; reading a between the stores of b and c evicts b instead. */
  lemma LruScenarios<V>(a: string, b: string, c: string, va: V, vb: V, vc: V)
    requires a != b && b != c && a != c
    ensures var d2 := AfterSet(AfterSet(OrderedDict([], map[]), a, va, 2), b, vb, 2);
            && AfterSet(d2, c, vc, 2) == OrderedDict([b, c], map[b := vb, c := vc])
            && AfterSet(AfterGet(d2, a).1, c, vc, 2) == OrderedDict([a, c], map[a := va, c := vc])
  {
    var m := map[a := va, b := vb];
    StoreTwo(a, b, va, vb);
    StoreIntoFull(a, b, c, m, vc);
    ReadOldest(a, b, m);
    StoreIntoFull(b, a, c, m, vc);
  }

  /** Storing two distinct keys into an empty cache with room for two keeps both. */
  lemma StoreTwo<V>(a: string, b: string, va: V, vb: V)
    requires a != b
    ensures AfterSet(AfterSet(OrderedDict([], map[]), a, va, 2), b, vb, 2)
            == OrderedDict([a, b], map[a := va, b := vb])
  {
    var d1 := AfterSet(OrderedDict([], map[]), a, va, 2);
    assert d1 == OrderedDict([a], map[a := va]);
  }

  /** A new key stored into a full cache for two evicts the older of the two keys. */
  lemma StoreIntoFull<V>(x: string, y: string, z: string, m: map<string, V>, vz: V)
    requires x != y && z != x && z != y && m.Keys == {x, y}
    ensures AfterSet(OrderedDict([x, y], m), z, vz, 2) == OrderedDict([y, z], map[y := m[y], z := vz])
  {
    var d := AfterSet(OrderedDict([x, y], m), z, vz, 2);
    assert d.order == [y, z];
    assert d.items == map[y := m[y], z := vz];
  }

  /** Reading the older of two keys makes it the more recent one. */
  lemma ReadOldest<V>(a: string, b: string, m: map<string, V>)
    requires a != b && a in m
    ensures AfterGet(OrderedDict([a, b], m), a).1 == OrderedDict([b, a], m)
  {
    assert Remove([a, b], a) == [b] by {
      assert [a][..0] == [];
      assert Remove([a], a) == [];
      assert [a, b][..1] == [a];
    }
  }


  // ---------------------------------------------------------------------------
  // The `cached` wrapper

  /** Every resident entry holds the result of the wrapped function for its key. */
  ghost predicate Memoizes<R>(d: OrderedDict<Option<R>>, f: string -> Option<R>)
  {
    forall k :: k in d.items ==> d.items[k] == f(k)
  }

  /** One call of the wrapper: the result, whether the function ran, and the cache
      afterwards. A resident result that is None does not count as a hit. */
  function CallStep<R>(d: OrderedDict<Option<R>>, key: string, f: string -> Option<R>, maxSize: int)
    : (Option<R>, bool, OrderedDict<Option<R>>)
  {
    var (found, looked) := AfterGet(d, key);
    if found.Some? && found.value.Some? then (found.value, false, looked)
    else (f(key), true, AfterSet(looked, key, f(key), maxSize))
  }

  /** The wrapper returns what the function returns and keeps the cache faithful to the
      function; it runs the function exactly when the key is not resident with a
      non-None result. */
  lemma CallSpec<R>(d: OrderedDict<Option<R>>, key: string, f: string -> Option<R>, maxSize: int)
    requires WellFormed(d) && |d.order| <= Capacity(maxSize) && Memoizes(d, f)
    ensures var (r, computed, d') := CallStep(d, key, f, maxSize);
            && r == f(key)
            && (computed <==> !(key in d.items && d.items[key].Some?))
            && WellFormed(d') && |d'.order| <= Capacity(maxSize) && Memoizes(d', f)
  {
    GetSpec(d, key);
    var looked := AfterGet(d, key).1;
    SetKeepsBound(looked, key, f(key), maxSize);
    SetItems(looked, key, f(key), maxSize);
  }

  /** Two calls in a row with the same key and room for one entry run the function at
      most once, unless it returns None, in which case it runs both times. */
  lemma CallTwice<R>(d: OrderedDict<Option<R>>, key: string, f: string -> Option<R>, maxSize: int)
    requires WellFormed(d) && |d.order| <= Capacity(maxSize) && Memoizes(d, f) && maxSize >= 1
    ensures var (_, _, d1) := CallStep(d, key, f, maxSize);
            var (r2, computed2, _) := CallStep(d1, key, f, maxSize);
            r2 == f(key) && (computed2 <==> f(key).None?)
  {
    CallSpec(d, key, f, maxSize);
    var (r1, computed1, d1) := CallStep(d, key, f, maxSize);
    GetSpec(d, key);
    if computed1 {
      SetThenGet(AfterGet(d, key).1, key, f(key), maxSize);
    } else {
      GetSpec(d1, key);
    }
    CallSpec(d1, key, f, maxSize);
  }

  /** The default `max_size` of `cached`. */
  const CachedMaxSize := 128

  /** The function `cached(max_size)` wraps, with the cache it keeps. */
  class Cached<R> {
    const cache: SimpleCache<Option<R>>
    const f: string -> Option<R>

    ghost predicate Valid()
      reads this, cache
    {
      cache.Valid() && Memoizes(cache.Contents(), f)
    }

    constructor (maxSize: int, f: string -> Option<R>)
      ensures Valid() && fresh(cache) && this.f == f && cache.maxSize == maxSize
      ensures cache.Contents() == OrderedDict([], map[])
    {
      this.f := f;
      cache := new SimpleCache(maxSize);
    }

    /** `wrapper(*args, **kwargs)` for the cache key `key`. */
    method Call(key: string) returns (r: Option<R>, computed: bool)
      requires Valid()
      modifies cache
      ensures Valid()
      ensures (r, computed, cache.Contents()) == CallStep(old(cache.Contents()), key, f, cache.maxSize)
    {
      CallSpec(cache.Contents(), key, f, cache.maxSize);
      var found := cache.Get(key);
      if found.Some? && found.value.Some? {
        return found.value, false;
      }
      r := f(key);
      computed := true;
      cache.Set(key, r);
    }
  }

  // ---------------------------------------------------------------------------
  // OptimizationStrategy

  /** The batches joined back together. */
  function Flatten<T>(batches: seq<seq<T>>): seq<T>
  {
    if batches == [] then [] else Flatten(batches[..|batches| - 1]) + batches[|batches| - 1]
  }

  /** A number between k * b and k * b + b - 1 divides by b to k. */
  lemma DivUnique(m: int, b: int, k: int)
    requires b > 0 && k * b <= m < k * b + b
    ensures m / b == k
  {
    var q := m / b;
    assert q * b + m % b == m;
    var d := q - k;
    assert d * b == q * b - k * b;
    assert d >= 1 ==> d * b >= b;
    assert d <= -1 ==> d * b <= -b;
  }

  /** `(n + b - 1) / b` is the least k with `n <= k * b`. */
  lemma CeilDiv(n: nat, b: nat, k: nat)
    requires b > 0 && n <= k * b && (k == 0 || (k - 1) * b < n)
    ensures (n + b - 1) / b == k
  {
    if k > 0 {
      assert k * b == (k - 1) * b + b;
    }
    DivUnique(n + b - 1, b, k);
  }

  /** Every batch holds between 1 and `size` items and all but the last hold `size`. */
  predicate Batched<T>(batches: seq<seq<T>>, size: int)
  {
    && (forall j :: 0 <= j < |batches| ==> 0 < |batches[j]| <= size)
    && (forall j :: 0 <= j < |batches| - 1 ==> |batches[j]| == size)
  }

  lemma MulSucc(n: int, b: int)
    ensures (n + 1) * b == n * b + b
  {
  }

  lemma {:induction false} FlattenCons<T>(batch: seq<T>, rest: seq<seq<T>>)
    ensures Flatten([batch] + rest) == batch + Flatten(rest)
    decreases |rest|
  {
    if rest == [] {
      assert [batch] + rest == [batch];
      assert [batch][..0] == [];
    } else {
      var init := rest[..|rest| - 1];
      FlattenCons(batch, init);
      assert ([batch] + rest)[..|rest|] == [batch] + init;
    }
  }

  /** The batches of `range(0, len(items), size)` with a positive step: the first `size`
      items, then the batches of the rest. */
  function Chunks<T>(items: seq<T>, size: int): seq<seq<T>>
    requires size > 0
    decreases |items|
  {
    if items == [] then []
    else
      var end := MinInt(size, |items|);
      [items[..end]] + Chunks(items[end..], size)
  }

  /** The batches join back into the items. */
  lemma {:induction false} ChunksFlatten<T>(items: seq<T>, size: int)
    requires size > 0
    ensures Flatten(Chunks(items, size)) == items
    decreases |items|
  {
    if items != [] {
      var end := MinInt(size, |items|);
      ChunksFlatten(items[end..], size);
      FlattenCons(items[..end], Chunks(items[end..], size));
      assert items[..end] + items[end..] == items;
    }
  }

  /** Every batch holds between 1 and `size` items, and all but the last hold `size`. */
  lemma {:induction false} ChunksBatched<T>(items: seq<T>, size: int)
    requires size > 0
    ensures Batched(Chunks(items, size), size)
    decreases |items|
  {
    if items != [] {
      var end := MinInt(size, |items|);
      var rest := Chunks(items[end..], size);
      var all := Chunks(items, size);
      ChunksBatched(items[end..], size);
      assert all == [items[..end]] + rest;
      assert rest != [] ==> end == size;
      forall j | 0 < j < |all| ensures all[j] == rest[j - 1] { }
    }
  }

  /** There are as many batches as `range(0, len(items), size)` has steps. */
  lemma {:induction false} ChunksCount<T>(items: seq<T>, size: int)
    requires size > 0
    ensures |items| <= |Chunks(items, size)| * size
    ensures Chunks(items, size) != [] ==> (|Chunks(items, size)| - 1) * size < |items|
    decreases |items|
  {
    if items != [] {
      var end := MinInt(size, |items|);
      var rest := Chunks(items[end..], size);
      ChunksCount(items[end..], size);
      assert |Chunks(items, size)| == |rest| + 1;
      assert rest != [] ==> end == size;
      MulSucc(|rest|, size);
    }
  }

  /** The batches from position i on: the batch at i, then the batches after it. */
  lemma ChunksFrom<T>(items: seq<T>, i: int, size: int)
    requires size > 0 && 0 <= i < |items|
    ensures var end := MinInt(i + size, |items|);
            Chunks(items[i..], size) == [items[i..end]] + Chunks(items[end..], size)
  {
    var end := MinInt(i + size, |items|);
    assert items[i..][..MinInt(size, |items| - i)] == items[i..end];
    assert items[i..][MinInt(size, |items| - i)..] == items[end..];
  }

  /** The batches join back into the items, all hold `size` items but the last (which
      holds between 1 and `size`), and there are ceil(len(items) / size) of them. */
  lemma ChunksSpec<T>(items: seq<T>, size: int)
    requires size > 0
    ensures Flatten(Chunks(items, size)) == items && Batched(Chunks(items, size), size)
    ensures |Chunks(items, size)| == (|items| + size - 1) / size
  {
    ChunksFlatten(items, size);
    ChunksBatched(items, size);
    ChunksCount(items, size);
    CeilDiv(|items|, size, |Chunks(items, size)|);
  }

  /** `batch_operations(items, batch_size)`: `range` refuses a step of 0; a negative
      step gives no batches; a positive one cuts the items into consecutive batches of
      `batch_size`, the last one possibly shorter. */
  method BatchOperations<T>(items: seq<T>, batchSize: int) returns (r: Result<seq<seq<T>>>)
    ensures batchSize == 0 <==> r.Err?
    ensures r.Err? ==> r.error == ValueError
    ensures batchSize < 0 ==> r == Ok([])
    ensures batchSize > 0 ==> r == Ok(Chunks(items, batchSize))
    ensures batchSize > 0 ==> r.Ok? && Flatten(r.value) == items && Batched(r.value, batchSize)
    ensures batchSize > 0 ==> |r.value| == (|items| + batchSize - 1) / batchSize
  {
    if batchSize == 0 {
      return Err(ValueError);
    }
    var batches: seq<seq<T>> := [];
    if batchSize < 0 {
      return Ok(batches);
    }
    var i := 0;
    while i < |items|
      invariant 0 <= i
      invariant batches + Chunks(items[MinInt(i, |items|)..], batchSize) == Chunks(items, batchSize)
      decreases |items| - i
    {
      var end := MinInt(i + batchSize, |items|);
      var batch := items[i..end];
      ChunksFrom(items, i, batchSize);
      batches := batches + [batch];
      i := i + batchSize;
      assert MinInt(i, |items|) == end;
    }
    assert items[MinInt(i, |items|)..] == [];
    assert batches == Chunks(items, batchSize);
    ChunksSpec(items, batchSize);
    r := Ok(batches);
  }

  /** The defaults of `batch_size`, `threshold` and `complexity_type`. */
  const DefaultBatchSize := 10
  const DefaultThreshold := 10
  const DefaultComplexity := "linear"

  /** `should_parallelize(item_count, threshold)`. */
  function ShouldParallelize(itemCount: int, threshold: int): bool
  {
    itemCount >= threshold
  }

  /** Parallelising is recommended from the threshold on: more items or a lower
      threshold never withdraw the recommendation, and one item fewer than the threshold
      never gets it. */
  lemma ParallelizeMonotone(itemCount: int, threshold: int, moreItems: int, lowerThreshold: int)
    requires itemCount <= moreItems && lowerThreshold <= threshold
    ensures ShouldParallelize(itemCount, threshold) ==> ShouldParallelize(moreItems, lowerThreshold)
    ensures ShouldParallelize(threshold, threshold) && !ShouldParallelize(threshold - 1, threshold)
  {
  }

  /** The value `estimate_complexity` returns: an operation count, or `log2(n)` for the
      logarithmic kind, which is not evaluated here. */
  datatype Estimate = Ops(count: int) | Log2Of(n: int)

  const Two64: int := 0x1_0000_0000_0000_0000
  const Two512: int := Two64 * Two64 * Two64 * Two64 * Two64 * Two64 * Two64 * Two64

  /** The least magnitude of an integer that `float()` rounds past the largest double
      (2^1024 - 2^971): 2^1024 - 2^970, the halfway point, which rounds to even and so
      away from the largest double. From there on `float()` raises OverflowError. */
  const FloatLimit: int := Two512 * Two64 * Two64 * Two64 * Two64 * Two64 * Two64 * Two64 * 1024
                           * (0x40_0000_0000_0000 - 1)

  /** `float(x)` of an integer, as an operation count. */
  function ToFloat(x: int): Result<Estimate>
  {
    if -FloatLimit < x < FloatLimit then Ok(Ops(x)) else Err(OverflowError)
  }

  /** `estimate_complexity(n, complexity_type)`; unknown kinds count as linear. */
  function EstimateComplexity(n: int, kind: string): Result<Estimate>
  {
    if kind == "linear" then ToFloat(n)
    else if kind == "logarithmic" then Ok(if n > 0 then Log2Of(n) else Ops(0))
    else if kind == "quadratic" then ToFloat(n * n)
    else if kind == "constant" then Ok(Ops(1))
    else ToFloat(n)
  }

  predicate KnownKind(kind: string)
  {
    kind == "linear" || kind == "logarithmic" || kind == "quadratic" || kind == "constant"
  }

  /** An unknown kind gives the linear estimate. The linear estimate is n, raising
      OverflowError exactly when |n| reaches `FloatLimit`; the quadratic one is n * n,
      raising exactly when n * n reaches it, and whenever it does not raise neither does
      the linear one, which it never lies below. The logarithm is taken only of a
      positive size and the constant kind gives 1; neither raises. */
  lemma EstimateComplexitySpec(n: int, kind: string)
    ensures !KnownKind(kind) ==> EstimateComplexity(n, kind) == EstimateComplexity(n, "linear")
    ensures EstimateComplexity(n, "linear").Err? <==> n <= -FloatLimit || FloatLimit <= n
    ensures EstimateComplexity(n, "linear").Ok? ==> EstimateComplexity(n, "linear").value == Ops(n)
    ensures EstimateComplexity(n, "quadratic").Err? <==> FloatLimit <= n * n
    ensures EstimateComplexity(n, "quadratic").Ok? ==>
              && EstimateComplexity(n, "quadratic").value == Ops(n * n)
              && EstimateComplexity(n, "linear").Ok?
              && n * n >= 0
              && n * n >= EstimateComplexity(n, "linear").value.count
    ensures EstimateComplexity(n, "logarithmic").Ok?
    ensures EstimateComplexity(n, "logarithmic").value.Log2Of? <==> n > 0
    ensures EstimateComplexity(n, "constant") == Ok(Ops(1))
  {
    var square := n * n;
    if n < 0 {
      assert square == (-n) * (-n);
      assert square >= -n;
    } else if n > 0 {
      assert square >= n * 1;
    }
    assert FloatLimit > 0;
  }

  /** The tested values: 100 linear operations for n = 100, 100 for a quadratic n = 10,
      50 for an unknown kind with n = 50, and `log2(100)` for a logarithmic n = 100. */
  lemma EstimateComplexityTested()
    ensures EstimateComplexity(100, "linear") == Ok(Ops(100))
    ensures EstimateComplexity(10, "quadratic") == Ok(Ops(100))
    ensures EstimateComplexity(50, "unknown") == Ok(Ops(50))
    ensures EstimateComplexity(100, "logarithmic") == Ok(Log2Of(100))
  {
  }

  /** The quadratic estimate raises long before the linear one: for n = 2^512 the square
      2^1024 is past `FloatLimit` while n itself is far below it. */
  lemma QuadraticOverflowsFirst()
    ensures EstimateComplexity(Two512, "quadratic") == Err(OverflowError)
    ensures EstimateComplexity(Two512, "linear") == Ok(Ops(Two512))
  {
  }

  /** With the default arguments, parallelising starts at ten items, the estimate is
      the linear one, and items are cut into batches of ten. */
  lemma DefaultArguments<T>(n: int, items: seq<T>)
    ensures ShouldParallelize(10, DefaultThreshold) && !ShouldParallelize(9, DefaultThreshold)
    ensures EstimateComplexity(n, DefaultComplexity) == EstimateComplexity(n, "linear")
    ensures -FloatLimit < n < FloatLimit ==> EstimateComplexity(n, DefaultComplexity) == Ok(Ops(n))
    ensures Flatten(Chunks(items, DefaultBatchSize)) == items
    ensures |Chunks(items, DefaultBatchSize)| == (|items| + 9) / 10
  {
    ChunksSpec(items, DefaultBatchSize);
  }

}
