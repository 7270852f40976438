/** What a reservation does to the block cache, and how hits, evictions and finished
    jobs move the number of entries that are still tagged speculative. */
module HeadroomCache {
  import opened HeadroomModel

  ghost predicate Distinct<T>(s: seq<T>) {
    forall i, j :: 0 <= i < j < |s| ==> s[i] != s[j]
  }

  ghost function Elements<T>(s: seq<T>): set<T> { set x | x in s }

  lemma SubsetSize<T>(a: set<T>, b: set<T>)
    requires a <= b
    ensures |a| <= |b|
  {
    assert b == a + (b - a);
  }

  lemma UnionSize<T>(a: set<T>, b: set<T>)
    ensures |a| + |b - a| == |a - b| + |b|
  {
    assert |a + b| == |a| + |b - a|;
    assert b + a == a + b;
    assert |b + a| == |b| + |a - b|;
  }

  lemma {:induction false} ElementsSize<T>(s: seq<T>)
    ensures |Elements(s)| <= |s|
    ensures Distinct(s) ==> |Elements(s)| == |s|
  {
    if s != [] {
      ElementsSize(s[1..]);
      assert Elements(s) == {s[0]} + Elements(s[1..]);
      if Distinct(s) {
        assert forall i :: 0 < i < |s| ==> s[0] != s[i];
        assert s[0] !in s[1..];
      }
    }
  }

  lemma KeysDistinct(blocks: seq<Block>)
    ensures Distinct(BlockKeys(blocks))
  {
    var keys := BlockKeys(blocks);
    forall i, j | 0 <= i < j < |keys| ensures keys[i] != keys[j] {
      assert |keys[i]| == i + 1 && |keys[j]| == j + 1;
    }
  }

  /** Two block lists share a key exactly when they agree on every block up to it. */
  lemma KeyIdentity(a: seq<Block>, b: seq<Block>, i: nat, j: nat)
    requires i < |a| && j < |b|
    ensures BlockKeys(a)[i] == BlockKeys(b)[j] <==> i == j && a[..i + 1] == b[..i + 1]
  {
    if BlockKeys(a)[i] == BlockKeys(b)[j] {
      assert |a[..i + 1]| == |b[..j + 1]|;
    }
  }

  lemma {:induction false} UnprotectedDistinct(lru: seq<Key>, keys: seq<Key>)
    requires Distinct(lru)
    ensures Distinct(Unprotected(lru, keys))
  {
    if lru != [] {
      UnprotectedDistinct(lru[1..], keys);
      assert forall i :: 0 < i < |lru| ==> lru[0] != lru[i];
      assert lru[0] !in lru[1..];
    }
  }

  /** `reserve` counts entries plus absent keys; that is unprotected entries plus all keys,
      so a victim exists whenever the count exceeds the capacity. */
  lemma ReservationCount(lru: seq<Key>, keys: seq<Key>)
    requires Distinct(lru) && Distinct(keys)
    ensures |lru| + |Elements(keys) - Elements(lru)| == |Unprotected(lru, keys)| + |keys|
  {
    hide Distinct, Unprotected;
    var l, k, u := Elements(lru), Elements(keys), Elements(Unprotected(lru, keys));
    UnprotectedDistinct(lru, keys);
    ElementsSize(lru);
    ElementsSize(keys);
    ElementsSize(Unprotected(lru, keys));
    UnionSize(l, k);
    assert u == l - k;
  }

  ghost predicate CacheShape(c: Config, st: Sim) {
    && Distinct(st.lru)
    && (forall k :: k in st.tags <==> k in st.lru)
    && |st.lru| <= c.cacheBlocks
  }

  /** A reservation fits the capacity, keeps every reserved key, and only tags as pending
      keys that were absent. */
  lemma ReserveShape(c: Config, st: Sim, keys: seq<Key>)
    requires CacheShape(c, st) && Distinct(keys) && |keys| <= c.cacheBlocks
    ensures CacheShape(c, Reserve(c, st, keys))
    ensures forall k :: k in keys ==> k in Reserve(c, st, keys).tags
    ensures forall k :: k in Reserve(c, st, keys).tags ==>
              || (k in st.tags && Reserve(c, st, keys).tags[k] == st.tags[k])
              || (k in keys && k !in st.tags && Reserve(c, st, keys).tags[k] == Pending)
  {
    var rest := Unprotected(st.lru, keys);
    var n := Excess(c, st.lru, keys);
    var order := ReservedOrder(c, st.lru, keys);
    UnprotectedDistinct(st.lru, keys);
    assert Distinct(rest[n..]);
    assert forall k :: k in rest[n..] ==> k in rest;
    forall i, j | 0 <= i < j < |order| ensures order[i] != order[j] {
      if i < |rest[n..]| <= j {
        assert order[i] in rest[n..] && order[j] in keys;
      }
    }
  }

  ghost function Fresh(tags: map<Key, Tag>): set<Key> {
    set k | k in tags && tags[k] == Speculative
  }

  lemma HitCount(st: Sim, key: Key)
    requires key in st.tags
    ensures var r := Hit(st, key);
            && r.stats.useful + |Fresh(r.tags)| == st.stats.useful + |Fresh(st.tags)|
            && r.stats.useful + r.stats.ordinary == st.stats.useful + st.stats.ordinary + 1
  {
    var r := Hit(st, key);
    if st.tags[key] == Speculative {
      assert Fresh(st.tags) == Fresh(r.tags) + {key};
    } else {
      assert Fresh(st.tags) == Fresh(r.tags);
    }
  }

  /** Charging hits conserves the useful counter plus the entries still tagged speculative. */
  lemma {:induction false} HitsCount(st: Sim, keys: seq<Key>)
    requires forall k :: k in keys ==> k in st.tags
    ensures var r := Hits(st, keys);
            && r == st.(stats := r.stats, tags := r.tags)
            && r.stats == st.stats.(useful := r.stats.useful, ordinary := r.stats.ordinary)
            && r.stats.useful + r.stats.ordinary == st.stats.useful + st.stats.ordinary + |keys|
            && r.stats.useful + |Fresh(r.tags)| == st.stats.useful + |Fresh(st.tags)|
            && r.stats.useful >= st.stats.useful && r.stats.ordinary >= st.stats.ordinary
            && (forall k :: k in st.tags ==> k in r.tags && (r.tags[k] == st.tags[k] || (k in keys && r.tags[k] == Ordinary)))
            && (forall k :: k in keys ==> r.tags[k] == Ordinary)
    decreases |keys|
  {
    hide Fresh;
    if keys != [] {
      HitCount(st, keys[0]);
      HitsCount(Hit(st, keys[0]), keys[1..]);
    }
  }

  lemma ReserveFresh(c: Config, st: Sim, keys: seq<Key>)
    requires CacheShape(c, st) && Distinct(keys) && |keys| <= c.cacheBlocks
    ensures |Fresh(Reserve(c, st, keys).tags)| <= |Fresh(st.tags)|
  {
    ReserveShape(c, st, keys);
    SubsetSize(Fresh(Reserve(c, st, keys).tags), Fresh(st.tags));
  }

  lemma SetTagsFresh(tags: map<Key, Tag>, keys: seq<Key>, tag: Tag)
    requires forall k :: k in keys ==> k in tags
    ensures |Fresh(SetTags(tags, keys, tag))| <= |Fresh(tags)| + if tag == Speculative then |keys| else 0
  {
    var after := Fresh(SetTags(tags, keys, tag));
    ElementsSize(keys);
    if tag == Speculative {
      SubsetSize(after, Fresh(tags) + Elements(keys));
    } else {
      SubsetSize(after, Fresh(tags));
    }
  }

  /******* Which entries are evicted *******/

  lemma DistinctTail(s: seq<Key>)
    requires Distinct(s) && s != []
    ensures Distinct(s[1..]) && forall i :: 0 < i < |s| ==> s[i] != s[0]
  {
  }

  /** Dropping the first `n` unprotected entries drops older ones before newer ones. */
  lemma {:induction false} DropOrder(lru: seq<Key>, keys: seq<Key>, n: nat, i: nat, j: nat)
    requires Distinct(lru) && i < j < |lru| && lru[i] !in keys && lru[j] !in keys
    requires n <= |Unprotected(lru, keys)| && lru[j] in Unprotected(lru, keys)[..n]
    ensures lru[i] in Unprotected(lru, keys)[..n]
  {
    hide Distinct;
    DistinctTail(lru);
    var tail, rest := lru[1..], Unprotected(lru, keys);
    assert tail[j - 1] == lru[j] && (i > 0 ==> tail[i - 1] == lru[i]);
    if lru[0] in keys {
      DropOrder(tail, keys, n, i - 1, j - 1);
    } else {
      assert rest == [lru[0]] + Unprotected(tail, keys);
      assert rest[..n] == [lru[0]] + Unprotected(tail, keys)[..n - 1];
      if i > 0 { DropOrder(tail, keys, n - 1, i - 1, j - 1); }
    }
  }

  lemma DroppedExactly(lru: seq<Key>, keys: seq<Key>, n: nat, k: Key)
    requires Distinct(lru) && n <= |Unprotected(lru, keys)| && k in lru && k !in keys
    ensures k in Unprotected(lru, keys)[..n] <==> k !in Unprotected(lru, keys)[n..]
  {
    var rest := Unprotected(lru, keys);
    UnprotectedDistinct(lru, keys);
    assert rest == rest[..n] + rest[n..] && k in rest;
    forall a, b | 0 <= a < n <= b < |rest| ensures rest[a] != rest[b] { }
  }

  /** A reservation evicts no more than it needs: if anything goes, the cache is full afterwards. */
  lemma EvictsNoMore(c: Config, st: Sim, keys: seq<Key>, k: Key)
    requires CacheShape(c, st) && Distinct(keys) && |keys| <= c.cacheBlocks
    requires k in st.lru && k !in Reserve(c, st, keys).lru
    ensures |Reserve(c, st, keys).lru| == c.cacheBlocks
  {
    hide Distinct, CacheShape, Unprotected;
    var n := Excess(c, st.lru, keys);
    DistinctOrder(c, st);
    DroppedExactly(st.lru, keys, n, k);
  }

  /** It evicts least recently used entries first, none of the reserved ones, and no more than needed. */
  lemma EvictsOldest(c: Config, st: Sim, keys: seq<Key>, j: nat)
    requires CacheShape(c, st) && Distinct(keys) && |keys| <= c.cacheBlocks && j < |st.lru|
    requires st.lru[j] !in Reserve(c, st, keys).lru
    ensures st.lru[j] !in keys && |Reserve(c, st, keys).lru| == c.cacheBlocks
    ensures forall i :: 0 <= i < j && st.lru[i] !in keys ==> st.lru[i] !in Reserve(c, st, keys).lru
  {
    hide Distinct, CacheShape, Unprotected;
    var n := Excess(c, st.lru, keys);
    DistinctOrder(c, st);
    EvictsNoMore(c, st, keys, st.lru[j]);
    DroppedExactly(st.lru, keys, n, st.lru[j]);
    forall i | 0 <= i < j && st.lru[i] !in keys ensures st.lru[i] !in Reserve(c, st, keys).lru {
      DroppedExactly(st.lru, keys, n, st.lru[i]);
      DropOrder(st.lru, keys, n, i, j);
    }
  }

  lemma DistinctOrder(c: Config, st: Sim)
    requires CacheShape(c, st)
    ensures Distinct(st.lru)
  {
  }

  /******* The order that a reservation leaves *******/

  /** `a` comes before `b` in the order. */
  ghost predicate Older(lru: seq<Key>, a: Key, b: Key) { exists i, j :: 0 <= i < j < |lru| && lru[i] == a && lru[j] == b }

  lemma {:induction false} UnprotectedOrder(lru: seq<Key>, keys: seq<Key>, i: nat, j: nat)
    requires i < j < |Unprotected(lru, keys)|
    ensures Older(lru, Unprotected(lru, keys)[i], Unprotected(lru, keys)[j])
  {
    var rest, tail := Unprotected(lru, keys), lru[1..];
    if lru[0] in keys {
      UnprotectedOrder(tail, keys, i, j);
      OlderInTail(lru, rest[i], rest[j]);
    } else {
      assert rest == [lru[0]] + Unprotected(tail, keys);
      if i == 0 {
        assert rest[j] in Unprotected(tail, keys);
        var n :| 0 <= n < |tail| && tail[n] == rest[j];
        assert lru[n + 1] == rest[j];
      } else {
        UnprotectedOrder(tail, keys, i - 1, j - 1);
        OlderInTail(lru, rest[i], rest[j]);
      }
    }
  }

  lemma OlderInTail(lru: seq<Key>, a: Key, b: Key)
    requires lru != [] && Older(lru[1..], a, b)
    ensures Older(lru, a, b)
  {
    var i, j :| 0 <= i < j < |lru[1..]| && lru[1..][i] == a && lru[1..][j] == b;
    assert lru[i + 1] == a && lru[j + 1] == b;
  }

  /** The reserved keys become the newest entries, in their order, and the others keep theirs. */
  lemma ReservedLast(c: Config, st: Sim, keys: seq<Key>)
    requires |keys| <= c.cacheBlocks
    ensures var lru := Reserve(c, st, keys).lru;
            && |keys| <= |lru| && lru[|lru| - |keys|..] == keys
            && forall i, j :: 0 <= i < j < |lru| - |keys| ==> Older(st.lru, lru[i], lru[j])
  {
    hide Unprotected;
    var n, rest, lru := Excess(c, st.lru, keys), Unprotected(st.lru, keys), Reserve(c, st, keys).lru;
    assert lru == rest[n..] + keys;
    forall i, j | 0 <= i < j < |lru| - |keys| ensures Older(st.lru, lru[i], lru[j]) { UnprotectedOrder(st.lru, keys, n + i, n + j); }
  }
}
