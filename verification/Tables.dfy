/**
 * Shards and shard tables as values (shard.go, the shard table of cache.go): which sub-shard holds a
 * key, and what a write, a read or a delete does to the table.
 */
module Tables {
  import opened Bytes
  import opened Eviction
  import opened Hashing
  import opened SubShards

  const SUB_SHARDS := 8

  /** `maxSub` limits each sub-shard; 0 is no limit. */
  datatype Shard = Shard(subs: seq<Sub>, maxSub: nat)

  type Table = seq<Shard>

  /** An entry on its way from one table to another. */
  datatype Item = Item(key: Key, value: Bytes, ttl: nat)

  // ---- Layout ----

  function EffectiveSubShards(maxSize: nat): (n: nat)
    ensures 1 <= n <= SUB_SHARDS
    ensures n == SUB_SHARDS <==> maxSize == 0 || maxSize >= 2 * SUB_SHARDS
    ensures 0 < maxSize ==> n <= maxSize
  {
    if maxSize == 0 then SUB_SHARDS
    else
      var n := maxSize / 2;
      if n < 1 then 1 else if n > SUB_SHARDS then SUB_SHARDS else n
  }

  function SubMax(maxSize: nat): nat {
    var n := maxSize / EffectiveSubShards(maxSize);
    if n < 1 && maxSize > 0 then 1 else n
  }

  /** The sub-shards of a new shard share its capacity: they stay within it, and one entry more in each would not. */
  lemma SubMaxFits(maxSize: nat)
    ensures EffectiveSubShards(maxSize) * SubMax(maxSize) <= maxSize < EffectiveSubShards(maxSize) * (SubMax(maxSize) + 1)
    ensures SubMax(maxSize) == 0 <==> maxSize == 0
  {
    var n := EffectiveSubShards(maxSize);
    assert maxSize == maxSize / n * n + maxSize % n;
  }

  /** Where a table of `count` shards with `n` sub-shards each keeps a key. */
  predicate InPlace(k: Key, i: nat, count: nat, j: nat, n: nat)
    requires count > 0 && n > 0
  {
    ShardIndex(k, count - 1) == i && Fnv(k) % n == j
  }

  predicate CellOk(s: Sub, i: nat, count: nat, j: nat, n: nat)
    requires count > 0 && n > 0
  {
    SubOk(s) && forall k | k in s.entries :: InPlace(k, i, count, j, n)
  }

  predicate ShardOk(sh: Shard, i: nat, count: nat)
    requires count > 0
  {
    0 < |sh.subs| <= SUB_SHARDS && forall j | 0 <= j < |sh.subs| :: CellOk(sh.subs[j], i, count, j, |sh.subs|)
  }

  predicate TableOk(t: Table) {
    PowerOfTwo(|t|) && forall i | 0 <= i < |t| :: ShardOk(t[i], i, |t|)
  }

  // ---- Looking up and replacing the sub-shard of a key ----

  function Home(t: Table, k: Key): nat
    requires TableOk(t)
    ensures Home(t, k) < |t|
  {
    ShardIndex(k, |t| - 1)
  }

  function Room(sh: Shard, k: Key): nat
    requires |sh.subs| > 0
    ensures Room(sh, k) < |sh.subs|
  {
    Fnv(k) % |sh.subs|
  }

  function SubOf(t: Table, k: Key): (s: Sub)
    requires TableOk(t)
    ensures SubOk(s)
  {
    var sh := t[Home(t, k)];
    assert ShardOk(sh, Home(t, k), |t|);
    var j := Room(sh, k);
    assert CellOk(sh.subs[j], Home(t, k), |t|, j, |sh.subs|);
    sh.subs[j]
  }

  function Lookup(m: map<Key, Entry>, k: Key): Option<Entry> {
    if k in m then Some(m[k]) else None
  }

  function Find(t: Table, k: Key): Option<Entry>
    requires TableOk(t)
  {
    Lookup(SubOf(t, k).entries, k)
  }

  function WithSub(sh: Shard, j: nat, s: Sub): Shard
    requires j < |sh.subs|
  {
    sh.(subs := sh.subs[j := s])
  }

  function Replace(t: Table, k: Key, s: Sub): Table
    requires TableOk(t)
  {
    var i := Home(t, k);
    assert ShardOk(t[i], i, |t|);
    t[i := WithSub(t[i], Room(t[i], k), s)]
  }

  predicate SamePlace(t: Table, x: Key, k: Key)
    requires TableOk(t)
  {
    Home(t, x) == Home(t, k) && Fnv(x) % |t[Home(t, k)].subs| == Fnv(k) % |t[Home(t, k)].subs|
  }

  lemma ReplaceShardOk(t: Table, k: Key, s: Sub)
    requires TableOk(t) && SubOk(s) && s.entries.Keys <= SubOf(t, k).entries.Keys + {k}
    ensures ShardOk(Replace(t, k, s)[Home(t, k)], Home(t, k), |t|)
  {
    var i := Home(t, k);
    var sh := t[i];
    assert ShardOk(sh, i, |t|);
    var j := Room(sh, k);
    assert CellOk(sh.subs[j], i, |t|, j, |sh.subs|);
    assert CellOk(s, i, |t|, j, |sh.subs|);
  }

  lemma ReplaceOk(t: Table, k: Key, s: Sub)
    requires TableOk(t) && SubOk(s) && s.entries.Keys <= SubOf(t, k).entries.Keys + {k}
    ensures TableOk(Replace(t, k, s))
  {
    ReplaceShardOk(t, k, s);
    var t' := Replace(t, k, s);
    forall i | 0 <= i < |t'| ensures ShardOk(t'[i], i, |t'|) {
      assert ShardOk(t[i], i, |t|);
    }
  }

  lemma FindReplaced(t: Table, k: Key, s: Sub, x: Key)
    requires TableOk(t) && TableOk(Replace(t, k, s))
    ensures Find(Replace(t, k, s), x) == if SamePlace(t, x, k) then Lookup(s.entries, x) else Find(t, x)
  {
    assert ShardOk(t[Home(t, k)], Home(t, k), |t|);
    assert ShardOk(t[Home(t, x)], Home(t, x), |t|);
  }

  /** A key is nowhere but in its own sub-shard. */
  lemma OnlyAtHome(t: Table, i: nat, j: nat, k: Key)
    requires TableOk(t) && i < |t| && j < |t[i].subs| && k in t[i].subs[j].entries
    ensures i == Home(t, k) && j == Fnv(k) % |t[i].subs| && Find(t, k) == Some(t[i].subs[j].entries[k])
  {
    assert ShardOk(t[i], i, |t|);
    assert CellOk(t[i].subs[j], i, |t|, j, |t[i].subs|);
    assert InPlace(k, i, |t|, j, |t[i].subs|);
  }

  // ---- The operations of a table ----

  function TableSet(t: Table, k: Key, value: Bytes, ttl: nat, now: nat): (Table, seq<Key>)
    requires TableOk(t)
  {
    var (s, evicted) := SubSet(SubOf(t, k), k, value, ttl, now, t[Home(t, k)].maxSub);
    (Replace(t, k, s), evicted)
  }

  function TableDel(t: Table, k: Key): Table
    requires TableOk(t)
  {
    Replace(t, k, SubDel(SubOf(t, k), k))
  }

  function TableGet(t: Table, k: Key, now: nat): (Table, Option<Bytes>)
    requires TableOk(t)
  {
    var (s, value) := SubGet(SubOf(t, k), k, now);
    (Replace(t, k, s), value)
  }

  function SetFind(before: Option<Entry>, k: Key, e: Entry, evicted: seq<Key>, x: Key): Option<Entry> {
    if x in evicted then None else if x == k then Some(e) else before
  }

  lemma SetFinds(t: Table, k: Key, e: Entry, s: Sub, evicted: seq<Key>, x: Key)
    requires TableOk(t) && TableOk(Replace(t, k, s))
    requires
      var full := SubOf(t, k).entries[k := e];
      s.entries == full - KeySet(evicted) && KeySet(evicted) <= full.Keys
    ensures Find(Replace(t, k, s), x) == SetFind(Find(t, x), k, e, evicted, x)
  {
    FindReplaced(t, k, s, x);
    assert x in evicted <==> x in KeySet(evicted);
    if x in evicted {
      EvictedAtHome(t, k, x);
    }
  }

  /** A write adds the entry and takes out the evicted keys; all other keys are found as before. */
  lemma TableSetOk(t: Table, k: Key, value: Bytes, ttl: nat, now: nat)
    requires TableOk(t)
    ensures
      var (t', evicted) := TableSet(t, k, value, ttl, now);
      && TableOk(t') && |t'| == |t|
      && forall x :: Find(t', x) == SetFind(Find(t, x), k, NewEntry(value, ttl, now), evicted, x)
  {
    var s := SubOf(t, k);
    var (s', evicted) := SubSet(s, k, value, ttl, now, t[Home(t, k)].maxSub);
    SubSetOk(s, k, value, ttl, now, t[Home(t, k)].maxSub);
    ReplaceOk(t, k, s');
    forall x ensures Find(Replace(t, k, s'), x) == SetFind(Find(t, x), k, NewEntry(value, ttl, now), evicted, x) {
      SetFinds(t, k, NewEntry(value, ttl, now), s', evicted, x);
    }
  }

  lemma EvictedAtHome(t: Table, k: Key, x: Key)
    requires TableOk(t) && (x == k || x in SubOf(t, k).entries)
    ensures SamePlace(t, x, k)
  {
    assert ShardOk(t[Home(t, k)], Home(t, k), |t|);
    if x != k {
      OnlyAtHome(t, Home(t, k), Room(t[Home(t, k)], k), x);
    }
  }

  lemma TableDelOk(t: Table, k: Key)
    requires TableOk(t)
    ensures TableOk(TableDel(t, k)) && |TableDel(t, k)| == |t|
    ensures forall x :: Find(TableDel(t, k), x) == if x == k then None else Find(t, x)
  {
    var s := SubDel(SubOf(t, k), k);
    DelOk(SubOf(t, k), k);
    ReplaceOk(t, k, s);
    forall x ensures Find(Replace(t, k, s), x) == if x == k then None else Find(t, x) {
      FindReplaced(t, k, s, x);
    }
  }

  /** A read returns the live value, and may drop the key it asked for when that has expired. */
  lemma TableGetOk(t: Table, k: Key, now: nat)
    requires TableOk(t)
    ensures
      var (t', value) := TableGet(t, k, now);
      var live := Find(t, k).Some? && !Expired(Find(t, k).value, now);
      && TableOk(t') && |t'| == |t|
      && value == (if live then Some(Find(t, k).value.value) else None)
      && forall x :: Find(t', x) == if x == k && !live then None else Find(t, x)
  {
    var (s, value) := SubGet(SubOf(t, k), k, now);
    DelOk(SubOf(t, k), k);
    ReplaceOk(t, k, s);
    forall x ensures Find(Replace(t, k, s), x) ==
                     if x == k && !(Find(t, k).Some? && !Expired(Find(t, k).value, now)) then None else Find(t, x)
    {
      FindReplaced(t, k, s, x);
    }
  }
}
