/** `functools.lru_cache(maxsize=256)` as a value: the cached results and
    the recency order of their keys, least recently used first. The process
    that owns a cache keeps it in a field and reassigns it on every call. */
module Memo {
  import opened Wrappers

  /** The capacity every cache of the handlers is created with. */
  const MaxSize: nat := 256

  datatype Lru<K, V> = Lru(entries: map<K, V>, order: seq<K>)

  ghost predicate Distinct<K>(s: seq<K>) {
    forall i, j :: 0 <= i < j < |s| ==> s[i] != s[j]
  }

  /** The cache invariant: every cached key appears once in the recency
      order, nothing else does, and there are at most `MaxSize` of them. */
  ghost predicate Valid<K(!new), V>(c: Lru<K, V>) {
    && (forall k :: k in c.entries <==> k in c.order)
    && Distinct(c.order)
    && |c.order| <= MaxSize
  }

  /** The cache a process starts with. */
  function Empty<K(==,!new), V>(): (c: Lru<K, V>)
    ensures Valid(c) && c.entries == map[]
  {
    Lru(map[], [])
  }

  /** The cached result for `k`, if any. */
  function Find<K, V>(c: Lru<K, V>, k: K): Option<V>
  {
    if k in c.entries then Some(c.entries[k]) else None
  }

  /** `s` with every occurrence of `k` taken out, the rest in order. */
  function Without<K(==,!new)>(s: seq<K>, k: K): (r: seq<K>)
    ensures forall x :: x in r <==> x in s && x != k
    ensures |r| <= |s|
    ensures k in s ==> |r| < |s|
    ensures Distinct(s) ==> Distinct(r)
    ensures k !in s ==> r == s
  {
    if s == [] then []
    else if s[0] == k then Without(s[1..], k)
    else
      var rest := Without(s[1..], k);
      assert Distinct(s) ==> s[0] !in rest;
      [s[0]] + rest
  }

  /** A hit: `k` becomes the most recently used key; the results stay, and
      the recency order never grows. */
  function Touch<K(==,!new), V>(c: Lru<K, V>, k: K): (c': Lru<K, V>)
    ensures c'.entries == c.entries
    ensures k in c.order ==> |c'.order| <= |c.order|
    ensures k in c.entries ==> c'.order != [] && c'.order[|c'.order| - 1] == k
  {
    if k in c.entries then Lru(c.entries, Without(c.order, k) + [k]) else c
  }

  /** A miss whose computation returned `v`: the result is stored as the most
      recently used entry, and when the cache is full the least recently
      used entry is evicted first. A key cached meanwhile is left as it is. */
  function Store<K, V>(c: Lru<K, V>, k: K, v: V): (c': Lru<K, V>)
    ensures k in c'.entries
    ensures k !in c.entries ==> c'.entries[k] == v
    ensures c'.entries.Keys <= c.entries.Keys + {k}
    ensures |c.order| <= MaxSize ==> |c'.order| <= MaxSize
  {
    if k in c.entries then c
    else if |c.order| >= MaxSize && c.order != [] then
      Lru((c.entries - {c.order[0]})[k := v], c.order[1..] + [k])
    else Lru(c.entries[k := v], c.order + [k])
  }

  /** Taking out the one occurrence of `k` leaves the keys before it and
      the keys after it, each group in its order. */
  lemma {:induction false} WithoutSplice<K(!new)>(a: seq<K>, k: K, b: seq<K>)
    requires k !in a && k !in b
    ensures Without(a + [k] + b, k) == a + b
    decreases |a|
  {
    if a == [] {
      assert a + [k] + b == [k] + b;
      assert ([k] + b)[1..] == b;
    } else {
      WithoutSplice(a[1..], k, b);
      assert (a + [k] + b)[1..] == a[1..] + [k] + b;
      assert a + b == [a[0]] + (a[1..] + b);
    }
  }

  /** A hit keeps the invariant and every result, and makes `k` the most
      recently used key, the other keys keeping their recency order. */
  lemma TouchKeeps<K(!new), V>(c: Lru<K, V>, k: K)
    requires Valid(c) && k in c.entries
    ensures Valid(Touch(c, k))
    ensures Touch(c, k).entries == c.entries
    ensures Touch(c, k).order == Without(c.order, k) + [k]
    ensures Touch(c, k).order[|Touch(c, k).order| - 1] == k
  {
    var o := Without(c.order, k) + [k];
    assert |Without(c.order, k)| < |c.order|;
    forall i, j | 0 <= i < j < |o| ensures o[i] != o[j] {
      if j == |o| - 1 {
        assert o[i] in Without(c.order, k);
      }
    }
  }

  /** A hit on the key at position `i` of the recency order moves that key
      to the end and leaves the keys before and after it in their order:
      the least recently used key stays first unless it was the one hit. */
  lemma TouchMovesToBack<K(!new), V>(c: Lru<K, V>, i: nat)
    requires Valid(c) && i < |c.order|
    ensures Touch(c, c.order[i]).order == c.order[..i] + c.order[i + 1..] + [c.order[i]]
  {
    var k := c.order[i];
    assert c.order == c.order[..i] + [k] + c.order[i + 1..];
    assert k !in c.order[..i] && k !in c.order[i + 1..] by {
      forall j | 0 <= j < |c.order| && j != i ensures c.order[j] != k {
      }
    }
    WithoutSplice(c.order[..i], k, c.order[i + 1..]);
  }

  /** A stored result is found again, the invariant and the capacity bound
      hold afterwards, and at most the least recently used entry is lost. */
  lemma StoreKeeps<K(!new), V>(c: Lru<K, V>, k: K, v: V)
    requires Valid(c) && k !in c.entries
    ensures Valid(Store(c, k, v))
    ensures Find(Store(c, k, v), k) == Some(v)
    ensures Store(c, k, v).order == (if |c.order| < MaxSize then c.order else c.order[1..]) + [k]
    ensures |c.order| < MaxSize ==> Store(c, k, v).entries == c.entries[k := v]
    ensures |c.order| == MaxSize ==>
              Store(c, k, v).entries == (c.entries - {c.order[0]})[k := v]
  {
    var c' := Store(c, k, v);
    if |c.order| >= MaxSize && c.order != [] {
      forall x ensures x in c'.entries <==> x in c'.order {
        if x != k && x in c.order[1..] {
          assert x != c.order[0];
        }
        if x != k && x in c.entries && x != c.order[0] {
          var i :| 0 <= i < |c.order| && c.order[i] == x;
          assert c.order[1..][i - 1] == x;
        }
      }
      forall i, j | 0 <= i < j < |c'.order| ensures c'.order[i] != c'.order[j] {
        if j == |c'.order| - 1 {
          assert c'.order[i] == c.order[i + 1];
        } else {
          assert c'.order[i] == c.order[i + 1] && c'.order[j] == c.order[j + 1];
        }
      }
    } else {
      forall i, j | 0 <= i < j < |c'.order| ensures c'.order[i] != c'.order[j] {
        if j == |c'.order| - 1 {
          assert c'.order[i] in c.order;
        }
      }
    }
  }

  /** Every cached result for a key that `relevant` selects is what `f`
      computes for it. */
  ghost predicate Agrees<K(!new), V(!new)>(c: Lru<K, V>, f: K -> V, relevant: K -> bool) {
    forall k :: k in c.entries && relevant(k) ==> c.entries[k] == f(k)
  }

  /** A hit returns the result `f` computes, and keeps the agreement. */
  lemma TouchAgrees<K(!new), V(!new)>(c: Lru<K, V>, k: K, f: K -> V, relevant: K -> bool)
    requires Valid(c) && Agrees(c, f, relevant) && k in c.entries && relevant(k)
    ensures c.entries[k] == f(k)
    ensures Agrees(Touch(c, k), f, relevant)
  {
    TouchKeeps(c, k);
  }

  /** Storing what `f` computes (or anything, for a key `relevant` does not
      select) keeps the agreement. */
  lemma StoreAgrees<K(!new), V(!new)>(c: Lru<K, V>, k: K, v: V, f: K -> V, relevant: K -> bool)
    requires Valid(c) && Agrees(c, f, relevant) && k !in c.entries
    requires relevant(k) ==> v == f(k)
    ensures Agrees(Store(c, k, v), f, relevant)
  {
    StoreKeeps(c, k, v);
  }

  /** However many keys are looked up, a valid cache never holds more than
      `MaxSize` results. */
  lemma {:induction false} EntriesBounded<K(!new), V>(c: Lru<K, V>)
    requires Valid(c)
    ensures |c.entries| <= MaxSize
  {
    KeysWithin(c.order, c.entries.Keys);
  }

  lemma {:induction false} KeysWithin<K(!new)>(s: seq<K>, keys: set<K>)
    requires forall k :: k in keys ==> k in s
    ensures |keys| <= |s|
    decreases |s|
  {
    if s != [] {
      KeysWithin(s[1..], keys - {s[0]});
    }
  }
}
