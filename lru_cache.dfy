/**
 * The least-recently-used caches of the image generator: a hash map from key
 * to value beside a double-ended queue of keys whose FRONT is the most
 * recently used key and whose BACK is the oldest. The generator keeps three
 * such caches (pipelines, textures, buffers) that share this behaviour.
 *
 * `CacheState` is the abstract value; `Touch`, `Inserted` and `Resize` are the
 * three ways the source changes it; `LruCache` is the object the generator
 * mutates, and each of its methods is proved against one of those functions.
 */
module Lru {
  import opened Wrappers

  datatype CacheState<K, V> = CacheState(entries: map<K, V>, order: seq<K>, maxSize: nat)

  predicate NoDuplicates<K(==)>(s: seq<K>)
  {
    forall i, j :: 0 <= i < j < |s| ==> s[i] != s[j]
  }

  /** The order list names exactly the keys of the map. */
  ghost predicate SameKeys<K, V>(c: CacheState<K, V>)
  {
    && (forall i :: 0 <= i < |c.order| ==> c.order[i] in c.entries)
    && (forall k :: k in c.entries ==> k in c.order)
  }

  /** What every cache of the generator keeps between calls. */
  ghost predicate Invariant<K, V>(c: CacheState<K, V>)
  {
    && NoDuplicates(c.order)
    && SameKeys(c)
    && |c.order| <= c.maxSize
  }

  /** The position `VecDeque::iter().position` finds: the first occurrence. */
  function FirstIndex<K(==)>(s: seq<K>, x: K): (r: Option<nat>)
    ensures r.None? <==> x !in s
    ensures r.Some? ==> r.value < |s| && s[r.value] == x && x !in s[..r.value]
  {
    if s == [] then None
    else if s[0] == x then Some(0)
    else
      match FirstIndex(s[1..], x)
      case None => None
      case Some(i) => assert s[..i + 1] == [s[0]] + s[1..][..i]; Some(i + 1)
  }

  /** The order list after the hit path removed the key from its position. */
  function RemoveFirst<K(==)>(s: seq<K>, x: K): seq<K>
  {
    match FirstIndex(s, x)
    case None => s
    case Some(i) => s[..i] + s[i + 1..]
  }

  /** Hit path: the stored value is kept and the key moves to the front. */
  function Touch<K(==), V>(c: CacheState<K, V>, key: K): CacheState<K, V>
  {
    c.(order := [key] + RemoveFirst(c.order, key))
  }

  /** Drop the oldest key (the back of the order list) and its entry. */
  function PopBack<K(==), V>(c: CacheState<K, V>): CacheState<K, V>
    requires |c.order| > 0
  {
    var oldest := c.order[|c.order| - 1];
    c.(entries := c.entries - {oldest}, order := c.order[..|c.order| - 1])
  }

  /** Miss path: insert, push the key to the front, and evict once if over capacity. */
  function Inserted<K(==), V>(c: CacheState<K, V>, key: K, value: V): CacheState<K, V>
  {
    var grown := c.(entries := c.entries[key := value], order := [key] + c.order);
    if |grown.order| > grown.maxSize then PopBack(grown) else grown
  }

  /** The eviction loop: pop from the back until the order list fits. */
  function EvictTo<K(==), V>(c: CacheState<K, V>): CacheState<K, V>
    decreases |c.order|
  {
    if |c.order| > c.maxSize then EvictTo(PopBack(c)) else c
  }

  /** Setting a new maximum size, then evicting down to it. */
  function Resize<K(==), V>(c: CacheState<K, V>, size: nat): CacheState<K, V>
  {
    EvictTo(c.(maxSize := size))
  }

  // ---------------------------------------------------------------------
  // Properties of the abstract cache

  lemma RemoveFirstFacts<K>(s: seq<K>, x: K)
    requires NoDuplicates(s)
    ensures NoDuplicates(RemoveFirst(s, x))
    ensures forall y :: y in RemoveFirst(s, x) <==> y in s && y != x
    ensures |RemoveFirst(s, x)| == if x in s then |s| - 1 else |s|
  {
    match FirstIndex(s, x)
    case None =>
    case Some(i) =>
      RemoveAtDistinct(s, i);
      RemoveAtMembers(s, i);
  }

  /** Removing one position keeps the rest distinct. */
  lemma RemoveAtDistinct<K>(s: seq<K>, i: nat)
    requires NoDuplicates(s) && i < |s|
    ensures NoDuplicates(s[..i] + s[i + 1..])
  {
    var r := s[..i] + s[i + 1..];
    forall a, b | 0 <= a < b < |r| ensures r[a] != r[b] {
      var a' := if a < i then a else a + 1;
      var b' := if b < i then b else b + 1;
      assert r[a] == s[a'] && r[b] == s[b'] && a' < b';
    }
  }

  /** Removing one position of a sequence without duplicates drops exactly the element there. */
  lemma RemoveAtMembers<K>(s: seq<K>, i: nat)
    requires NoDuplicates(s) && i < |s|
    ensures forall y :: y in s[..i] + s[i + 1..] <==> y in s && y != s[i]
  {
    var r := s[..i] + s[i + 1..];
    forall y ensures y in r <==> y in s && y != s[i] {
      if y in r {
        var k :| 0 <= k < |r| && r[k] == y;
        var k' := if k < i then k else k + 1;
        assert s[k'] == y && k' != i;
      }
      if y in s && y != s[i] {
        var k :| 0 <= k < |s| && s[k] == y;
        assert k != i;
        if k < i { assert r[k] == y; } else { assert r[k - 1] == y; }
      }
    }
  }

  /** A hit keeps every entry and every key, moves the key to the front and
   * keeps the invariant; the other keys keep their relative order. */
  lemma TouchKeepsInvariant<K, V>(c: CacheState<K, V>, key: K)
    requires Invariant(c) && key in c.entries
    ensures var t := Touch(c, key);
      && Invariant(t)
      && t.entries == c.entries
      && t.maxSize == c.maxSize
      && |t.order| == |c.order|
      && t.order[0] == key
      && (forall k :: k in t.order[1..] <==> k in c.order && k != key)
  {
    RemoveFirstFacts(c.order, key);
    var t := Touch(c, key);
    assert t.order[1..] == RemoveFirst(c.order, key);
    forall a, b | 0 <= a < b < |t.order| ensures t.order[a] != t.order[b] {
      if a == 0 { assert t.order[b] in t.order[1..]; }
      else { assert t.order[a] == t.order[1..][a - 1] && t.order[b] == t.order[1..][b - 1]; }
    }
  }

  /** A miss on a cache holding the invariant: the new key becomes the most
   * recent entry; when the cache was full the least recently used key (the
   * back of the order list) is the one evicted; nothing else changes. */
  lemma InsertKeepsInvariant<K, V>(c: CacheState<K, V>, key: K, value: V)
    requires Invariant(c) && key !in c.entries
    ensures var n := Inserted(c, key, value);
      && Invariant(n)
      && n.maxSize == c.maxSize
      && (|c.order| < c.maxSize ==>
            n.entries == c.entries[key := value] && n.order == [key] + c.order)
      && (0 < |c.order| == c.maxSize ==>
            var lru := c.order[|c.order| - 1];
            && n.entries == c.entries[key := value] - {lru}
            && n.order == [key] + c.order[..|c.order| - 1])
      && (c.maxSize == 0 ==> n.entries == map[] && n.order == [])
  {
    var grown := c.(entries := c.entries[key := value], order := [key] + c.order);
    PushFrontFacts(c, key, value);
    if |grown.order| > grown.maxSize {
      PopBackFacts(grown);
      if c.order != [] {
        assert grown.order[|grown.order| - 1] == c.order[|c.order| - 1];
        assert grown.order[..|grown.order| - 1] == [key] + c.order[..|c.order| - 1];
      }
    }
  }

  /** Pushing a new key to the front keeps the keys distinct and in step with the map. */
  lemma PushFrontFacts<K, V>(c: CacheState<K, V>, key: K, value: V)
    requires Invariant(c) && key !in c.entries
    ensures var g := c.(entries := c.entries[key := value], order := [key] + c.order);
      NoDuplicates(g.order) && SameKeys(g)
  {
    var g := [key] + c.order;
    assert key !in c.order;
    forall a, b | 0 <= a < b < |g| ensures g[a] != g[b] {
      if a > 0 { assert g[a] == c.order[a - 1] && g[b] == c.order[b - 1]; }
      else { assert g[b] in c.order; }
    }
  }

  /** Dropping the oldest key keeps the keys distinct and in step with the map. */
  lemma PopBackFacts<K, V>(c: CacheState<K, V>)
    requires NoDuplicates(c.order) && SameKeys(c) && |c.order| > 0
    ensures var p := PopBack(c);
      && NoDuplicates(p.order) && SameKeys(p)
      && p.order == c.order[..|c.order| - 1]
      && p.entries == c.entries - {c.order[|c.order| - 1]}
  {
    var p := PopBack(c);
    var last := |c.order| - 1;
    forall k ensures k in p.order ==> k in p.entries {
      if k in p.order {
        var i :| 0 <= i < last && p.order[i] == k;
        assert c.order[i] != c.order[last];
      }
    }
    forall k ensures k in p.entries ==> k in p.order {
      if k in p.entries {
        var i :| 0 <= i < |c.order| && c.order[i] == k;
        assert i < last;
        assert p.order[i] == k;
      }
    }
  }

  /** The eviction loop keeps exactly the `size` most recently used keys
   * (all of them if there are fewer) with their values. */
  lemma {:induction false} EvictToKeepsMostRecent<K, V>(c: CacheState<K, V>)
    requires NoDuplicates(c.order)
    requires SameKeys(c)
    ensures var e := EvictTo(c);
      && Invariant(e)
      && e.maxSize == c.maxSize
      && e.order == c.order[..if |c.order| <= c.maxSize then |c.order| else c.maxSize]
      && (forall k :: k in e.entries ==> k in c.entries && e.entries[k] == c.entries[k])
    decreases |c.order|
  {
    if |c.order| > c.maxSize {
      var p := PopBack(c);
      var n := |c.order|;
      PopBackFacts(c);
      EvictToKeepsMostRecent(p);
      assert EvictTo(c) == EvictTo(p);
      assert c.order[..n - 1][..c.maxSize] == c.order[..c.maxSize];
    }
  }

  /** `set_max_cache_size`: the cache obeys the new bound and keeps its most
   * recently used entries. */
  lemma ResizeKeepsMostRecent<K, V>(c: CacheState<K, V>, size: nat)
    requires Invariant(c)
    ensures var r := Resize(c, size);
      && Invariant(r)
      && r.maxSize == size
      && r.order == c.order[..if |c.order| <= size then |c.order| else size]
      && (forall k :: k in r.entries ==> k in c.entries && r.entries[k] == c.entries[k])
  {
    EvictToKeepsMostRecent(c.(maxSize := size));
  }

  // ---------------------------------------------------------------------
  // The mutable cache

  class LruCache<K(==), V> {
    var entries: map<K, V>
    var order: seq<K>
    var maxSize: nat

    function Model(): CacheState<K, V>
      reads this
    {
      CacheState(entries, order, maxSize)
    }

    ghost predicate Valid()
      reads this
    {
      Invariant(Model())
    }

    constructor (maxSize: nat)
      ensures Valid() && Model() == CacheState(map[], [], maxSize)
    {
      entries := map[];
      order := [];
      this.maxSize := maxSize;
    }

    /** The hit path of `get_or_create_*`: a stored value is returned and its
     * key moves to the front; a missing key changes nothing. */
    method Lookup(key: K) returns (hit: Option<V>)
      requires Valid()
      modifies this
      ensures Valid()
      ensures hit == if key in old(entries) then Some(old(entries)[key]) else None
      ensures Model() == if key in old(entries) then Touch(old(Model()), key) else old(Model())
    {
      if key in entries {
        TouchKeepsInvariant(Model(), key);
        var pos := Position(order, key);
        if pos.Some? {
          order := order[..pos.value] + order[pos.value + 1..];
        }
        order := [key] + order;
        hit := Some(entries[key]);
      } else {
        hit := None;
      }
    }

    /** The miss path of `get_or_create_*`: the new value is inserted at the
     * front, then the oldest entry is dropped if the cache is over its size. */
    method Insert(key: K, value: V)
      requires Valid() && key !in entries
      modifies this
      ensures Valid()
      ensures Model() == Inserted(old(Model()), key, value)
    {
      InsertKeepsInvariant(Model(), key, value);
      entries := entries[key := value];
      order := [key] + order;
      if |order| > maxSize {
        var oldest := order[|order| - 1];
        order := order[..|order| - 1];
        entries := entries - {oldest};
      }
    }

    /** `set_max_*_cache_size`: store the new bound, then pop from the back
     * until the cache fits. */
    method SetMaxSize(size: nat)
      requires Valid()
      modifies this
      ensures Valid()
      ensures Model() == Resize(old(Model()), size)
    {
      ResizeKeepsMostRecent(Model(), size);
      maxSize := size;
      while |order| > maxSize
        invariant EvictTo(Model()) == Resize(old(Model()), size)
        decreases |order|
      {
        var oldest := order[|order| - 1];
        order := order[..|order| - 1];
        entries := entries - {oldest};
      }
    }
  }

  /** The linear search of `VecDeque::iter().position`. */
  method Position<K(==)>(s: seq<K>, x: K) returns (p: Option<nat>)
    ensures p == FirstIndex(s, x)
  {
    var i := 0;
    while i < |s|
      invariant 0 <= i <= |s|
      invariant x !in s[..i]
    {
      if s[i] == x {
        return Some(i);
      }
      assert s[..i + 1] == s[..i] + [s[i]];
      i := i + 1;
    }
    assert s[..i] == s;
    return None;
  }
}
