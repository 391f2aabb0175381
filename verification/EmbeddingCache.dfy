/** The embedding cache of utils/batch_embedder.py: what `_cache_get` and `_cache_put` keep, and
    exactly how far the put departs from a least-recently-used cache. */
module EmbeddingCache {
  import opened Sequences
  import opened OrderedDicts

  type Cache = OrderedDict<string, Vector>

  /** The state part of `_cache_get`. */
  function AfterGet(c: Cache, key: string): Cache {
    if key in c.vals then c.MoveToEnd(key) else c
  }

  /** `_cache_put`: evicts before it looks whether the key is already present. */
  function AfterPut(c: Cache, size: nat, key: string, v: Vector): Cache
    requires 0 < size
  {
    var c1 := if c.Size() >= size then c.PopFirst() else c;
    c1.Set(key, v).MoveToEnd(key)
  }

  /** One operation that touches a key. A missing `_cache_get` touches nothing. */
  datatype Touch = Hit(key: string) | Put(key: string, v: Vector)

  predicate CanTouch(c: Cache, t: Touch) {
    t.Hit? ==> t.key in c.vals
  }

  function Apply(c: Cache, size: nat, t: Touch): Cache
    requires 0 < size
  {
    match t
    case Hit(k) => AfterGet(c, k)
    case Put(k, v) => AfterPut(c, size, k, v)
  }

  /** Every key ever touched, ordered by its last touch. */
  function Recency(ts: seq<Touch>): (r: seq<string>)
    decreases |ts|
  {
    if ts == [] then []
    else
      var k := ts[|ts| - 1].key;
      Without(Recency(ts[..|ts| - 1]), k) + [k]
  }

  /** `c` is reached from an empty cache by the touches `ts`. */
  ghost predicate Reaches(ts: seq<Touch>, size: nat, c: Cache)
    requires 0 < size
    decreases |ts|
  {
    if ts == [] then c == Empty()
    else
      var n := |ts| - 1;
      exists c0: Cache :: Reaches(ts[..n], size, c0) && CanTouch(c0, ts[n]) && c == Apply(c0, size, ts[n])
  }

  lemma ReachesNext(ts: seq<Touch>, size: nat, c: Cache, t: Touch)
    requires 0 < size && Reaches(ts, size, c) && CanTouch(c, t)
    ensures Reaches(ts + [t], size, Apply(c, size, t))
  {
    assert (ts + [t])[..|ts|] == ts;
  }

  ghost predicate SuffixOf<T>(a: seq<T>, b: seq<T>) {
    |a| <= |b| && a == b[|b| - |a|..]
  }

  ghost predicate Sound(c: Cache, size: nat, recency: seq<string>) {
    && c.Valid()
    && c.Size() <= size
    && SuffixOf(c.order, recency)
    && Distinct(recency)
  }

  lemma PutShape(c: Cache, size: nat, key: string, v: Vector)
    requires c.Valid() && 0 < size && c.Size() <= size
    ensures var kept := if c.Size() >= size then c.order[1..] else c.order;
            AfterPut(c, size, key, v).order == Without(kept, key) + [key]
    ensures AfterPut(c, size, key, v).Valid()
    ensures AfterPut(c, size, key, v).Size() <= size
  {
    if c.Size() >= size {
      PopFirstValid(c);
      PlaceShape(c.PopFirst(), key, v);
    } else {
      PlaceShape(c, key, v);
    }
  }

  /** Setting a key and moving it to the end, once there is room. */
  lemma PlaceShape(c: Cache, key: string, v: Vector)
    requires c.Valid()
    ensures var c' := c.Set(key, v).MoveToEnd(key);
            c'.Valid() && c'.order == Without(c.order, key) + [key] && c'.Size() <= c.Size() + 1
  {
    SetValid(c, key, v);
    MoveToEndValid(c.Set(key, v), key);
    if key !in c.vals {
      WithoutConcat(c.order, [key], key);
      WithoutAbsent(c.order, key);
    }
  }

  /** Moving a key to the end of the recency order and of a suffix of it leaves a suffix. */
  lemma TouchSuffix(a: seq<string>, r: seq<string>, key: string)
    requires SuffixOf(a, r) && Distinct(r)
    ensures SuffixOf(Without(a, key) + [key], Without(r, key) + [key])
    ensures Distinct(Without(r, key) + [key])
  {
    var pre := r[..|r| - |a|];
    assert r == pre + a;
    WithoutConcat(pre, a, key);
    WithoutDistinct(r, key);
    var w := Without(r, key);
    assert forall i :: 0 <= i < |w| ==> w[i] in w;
    var full := w + [key];
    var tail := Without(a, key) + [key];
    assert full == Without(pre, key) + tail;
    assert full[|full| - |tail|..] == tail;
  }

  lemma ApplySound(c: Cache, size: nat, t: Touch, r: seq<string>)
    requires 0 < size && Sound(c, size, r) && CanTouch(c, t)
    ensures Sound(Apply(c, size, t), size, Without(r, t.key) + [t.key])
  {
    match t
    case Hit(k) =>
      MoveToEndValid(c, k);
      TouchSuffix(c.order, r, k);
    case Put(k, v) =>
      PutShape(c, size, k, v);
      var kept := if c.Size() >= size then c.order[1..] else c.order;
      assert SuffixOf(kept, r);
      TouchSuffix(kept, r, k);
  }

  /** After any sequence of hits and puts the cache holds a suffix of the recency order, without
      duplicates, of at most `size` keys, and the key touched last is its newest. */
  lemma {:induction false} CacheIsRecencySuffix(ts: seq<Touch>, size: nat, c: Cache)
    requires 0 < size && Reaches(ts, size, c)
    ensures Sound(c, size, Recency(ts))
    ensures ts != [] ==> c.order != [] && c.order[|c.order| - 1] == ts[|ts| - 1].key
    decreases |ts|
  {
    if ts != [] {
      var n := |ts| - 1;
      var c0: Cache :| Reaches(ts[..n], size, c0) && CanTouch(c0, ts[n]) && c == Apply(c0, size, ts[n]);
      CacheIsRecencySuffix(ts[..n], size, c0);
      ApplySound(c0, size, ts[n], Recency(ts[..n]));
      TouchedIsNewest(c0, size, ts[n]);
    }
  }

  lemma TouchedIsNewest(c: Cache, size: nat, t: Touch)
    requires 0 < size && c.Valid() && c.Size() <= size && CanTouch(c, t)
    ensures var order := Apply(c, size, t).order; order != [] && order[|order| - 1] == t.key
  {
    if t.Put? { PutShape(c, size, t.key, t.v); }
  }

  /** The cache is what a least-recently-used cache of this size would hold. */
  ghost predicate ExactlyLru(c: Cache, size: nat, recency: seq<string>) {
    c.order == if |recency| <= size then recency else recency[|recency| - size..]
  }

  /** The caller-visible condition under which a put loses an entry for nothing: the cache is full,
      and the key is already there but is not the entry about to be evicted. */
  predicate Shrinks(c: Cache, size: nat, t: Touch)
    requires 0 < size
  {
    t.Put? && c.Size() >= size && t.key in c.order[1..]
  }

  lemma ExactBySize(c: Cache, size: nat, r: seq<string>)
    requires Sound(c, size, r)
    ensures ExactlyLru(c, size, r) <==> (c.Size() == size || c.Size() == |r|)
  {
  }

  lemma SizeAfterTouch(c: Cache, size: nat, t: Touch)
    requires 0 < size && c.Valid() && c.Size() <= size && CanTouch(c, t)
    ensures Apply(c, size, t).Size() ==
            if t.Hit? || (t.key in c.vals && c.Size() < size) then c.Size()
            else if Shrinks(c, size, t) then size - 1
            else if c.Size() >= size then size
            else c.Size() + 1
  {
    if t.Hit? {
      MoveToEndValid(c, t.key);
    } else {
      PutShape(c, size, t.key, t.v);
      var kept := if c.Size() >= size then c.order[1..] else c.order;
      WithoutDistinct(kept, t.key);
    }
  }

  /** A reached cache is never more than one entry short of a least-recently-used one, and one touch
      decides it exactly: from a full cache it stays exact if and only if the touch does not shrink
      it; from a short cache it becomes exact again if and only if a key is put that is not there. */
  lemma ExactnessAfterTouch(c: Cache, size: nat, t: Touch, r: seq<string>)
    requires 0 < size && Sound(c, size, r) && CanTouch(c, t)
    requires ExactlyLru(c, size, r) || c.Size() == size - 1
    ensures var c' := Apply(c, size, t);
            var r' := Without(r, t.key) + [t.key];
            && (ExactlyLru(c, size, r) ==> (ExactlyLru(c', size, r') <==> !Shrinks(c, size, t)))
            && (!ExactlyLru(c, size, r) ==> (ExactlyLru(c', size, r') <==> t.key !in c.vals))
            && (ExactlyLru(c', size, r') || c'.Size() == size - 1)
  {
    ApplySound(c, size, t, r);
    ExactBySize(c, size, r);
    ExactBySize(Apply(c, size, t), size, Without(r, t.key) + [t.key]);
    WithoutDistinct(r, t.key);
    SizeAfterTouch(c, size, t);
    assert c.Size() == |r| ==> c.order == r;
    assert t.key in c.order ==> t.key in r;
  }

  ghost predicate ShrinkFree(ts: seq<Touch>, size: nat)
    requires 0 < size
  {
    forall n, c :: 0 <= n < |ts| && Reaches(ts[..n], size, c) ==> !Shrinks(c, size, ts[n])
  }

  /** If no put hits a full cache that already holds its key elsewhere than at the front, the cache
      is exactly the last `size` distinct keys touched. */
  lemma {:induction false} LruWhenShrinkFree(ts: seq<Touch>, size: nat, c: Cache)
    requires 0 < size && Reaches(ts, size, c) && ShrinkFree(ts, size)
    ensures ExactlyLru(c, size, Recency(ts))
    decreases |ts|
  {
    if ts != [] {
      var n := |ts| - 1;
      var c0: Cache :| Reaches(ts[..n], size, c0) && CanTouch(c0, ts[n]) && c == Apply(c0, size, ts[n]);
      forall m, d | 0 <= m < n && Reaches(ts[..n][..m], size, d)
        ensures !Shrinks(d, size, ts[..n][m])
      {
        assert ts[..n][..m] == ts[..m];
      }
      LruWhenShrinkFree(ts[..n], size, c0);
      CacheIsRecencySuffix(ts[..n], size, c0);
      ExactnessAfterTouch(c0, size, ts[n], Recency(ts[..n]));
    }
  }

  /** With room for two, putting "a", "b" and "b" again leaves one entry: "a" is gone although the
      cache never held more than two keys. */
  lemma ReputShrinks(v: Vector)
    ensures var c := AfterPut(AfterPut(AfterPut(Empty(), 2, "a", v), 2, "b", v), 2, "b", v);
            c.order == ["b"] && !ExactlyLru(c, 2, Recency([Put("a", v), Put("b", v), Put("b", v)]))
  {
    var c1 := AfterPut(Empty(), 2, "a", v);
    assert c1.order == ["a"];
    var c2 := AfterPut(c1, 2, "b", v);
    assert Without(["a", "b"], "b") == ["a"];
    assert c2.order == ["a", "b"];
    var c3 := AfterPut(c2, 2, "b", v);
    assert c2.order[1..] == ["b"];
    assert Without(["b"], "b") == [];
    assert c3.order == ["b"];
    var ts := [Put("a", v), Put("b", v), Put("b", v)];
    assert ts[..2] == [Put("a", v), Put("b", v)] && ts[..2][..1] == [Put("a", v)] && ts[..2][..1][..0] == [];
    assert Recency(ts[..2][..1]) == ["a"];
    assert Recency(ts[..2]) == ["a", "b"];
    assert Recency(ts) == ["a", "b"];
  }
}
