/**
 * Moving entries from one table to another: what `ExtractN` takes out of a shard, and what writing
 * the extracted items to the other table does. Go iterates over a map in any order, so an
 * extraction is a relation: it visits some of the keys of each sub-shard in some order.
 */
module Migration {
  import opened Bytes
  import opened Collections
  import opened Eviction
  import opened Hashing
  import opened SubShards
  import opened Tables

  function LiveAt(o: Option<Entry>, now: nat): Option<Entry> {
    if o.Some? && !Expired(o.value, now) then o else None
  }

  // ---- One sub-shard ----

  /** The lifetime an entry still has; 0 stands for no expiry. */
  function TtlOf(e: Entry, now: nat): nat
    requires !Expired(e, now)
  {
    if e.expiresAt == 0 then 0 else e.expiresAt - now
  }

  function ItemOf(k: Key, e: Entry, now: nat): Item
    requires !Expired(e, now)
  {
    Item(k, e.value, TtlOf(e, now))
  }

  /** Writing an extracted item back at the same instant restores the entry, expiry included. */
  lemma MovedEntryIsSame(k: Key, e: Entry, now: nat)
    requires !Expired(e, now)
    ensures
      var it := ItemOf(k, e, now);
      NewEntry(it.value, it.ttl, now) == e && (it.ttl == 0 <==> e.expiresAt == 0)
  {
  }

  predicate Visits(s: Sub, ks: seq<Key>) {
    NoDup(ks) && forall k | k in ks :: k in s.entries
  }

  /** Of the visited keys, the live ones become items and the expired ones are dropped. */
  function ItemsOf(m: map<Key, Entry>, ks: seq<Key>, now: nat): seq<Item>
    requires forall k | k in ks :: k in m
  {
    if ks == [] then []
    else
      var k := ks[|ks| - 1];
      ItemsOf(m, ks[..|ks| - 1], now) + if Expired(m[k], now) then [] else [ItemOf(k, m[k], now)]
  }

  function ItemKeys(items: seq<Item>): set<Key> {
    set it | it in items :: it.key
  }

  predicate DistinctKeys(items: seq<Item>) {
    forall a, b | 0 <= a < b < |items| :: items[a].key != items[b].key
  }

  /** The items are exactly the live visited entries, each once. */
  lemma {:induction false} ItemsOfAre(m: map<Key, Entry>, ks: seq<Key>, now: nat)
    requires NoDup(ks) && forall k | k in ks :: k in m
    ensures
      var items := ItemsOf(m, ks, now);
      && DistinctKeys(items) && |items| <= |ks|
      && (forall it | it in items :: it.key in ks && !Expired(m[it.key], now) && it == ItemOf(it.key, m[it.key], now))
      && (forall k | k in ks && !Expired(m[k], now) :: ItemOf(k, m[k], now) in items)
  {
    if ks != [] {
      var most, k := ks[..|ks| - 1], ks[|ks| - 1];
      assert ks == most + [k];
      ItemsOfAre(m, most, now);
    }
  }

  // ---- One shard ----

  function AllItems(subs: seq<Sub>, visits: seq<seq<Key>>, now: nat): seq<Item>
    requires |subs| == |visits| && forall j | 0 <= j < |subs| :: Visits(subs[j], visits[j])
  {
    if subs == [] then []
    else
      var j := |subs| - 1;
      assert Visits(subs[j], visits[j]);
      AllItems(subs[..j], visits[..j], now) + ItemsOf(subs[j].entries, visits[j], now)
  }

  predicate EmptySubs(subs: seq<Sub>) {
    forall j | 0 <= j < |subs| :: subs[j].entries == map[]
  }

  /** The walk takes at most n items, and fewer only when it leaves nothing behind. */
  ghost predicate ExtractedBy(sh: Shard, n: nat, now: nat, visits: seq<seq<Key>>, items: seq<Item>, sh': Shard) {
    && |visits| == |sh.subs| == |sh'.subs| && sh'.maxSub == sh.maxSub
    && (forall j | 0 <= j < |sh.subs| :: Visits(sh.subs[j], visits[j]) && sh'.subs[j] == DelAll(sh.subs[j], visits[j]))
    && items == AllItems(sh.subs, visits, now)
    && |items| <= n && (|items| == n || EmptySubs(sh'.subs))
  }

  ghost predicate Extracted(sh: Shard, n: nat, now: nat, items: seq<Item>, sh': Shard) {
    exists visits :: ExtractedBy(sh, n, now, visits, items, sh')
  }

  ghost predicate ItemFrom(subs: seq<Sub>, visits: seq<seq<Key>>, now: nat, it: Item)
    requires |subs| == |visits|
  {
    exists j :: 0 <= j < |subs| && it.key in visits[j] && it.key in subs[j].entries
                && !Expired(subs[j].entries[it.key], now) && it == ItemOf(it.key, subs[j].entries[it.key], now)
  }

  /** No key is in two of the sub-shards. */
  predicate Apart(subs: seq<Sub>) {
    forall j, j' | 0 <= j < j' < |subs| :: subs[j].entries.Keys !! subs[j'].entries.Keys
  }

  lemma {:induction false} ItemsComeFrom(subs: seq<Sub>, visits: seq<seq<Key>>, now: nat, it: Item)
    requires |subs| == |visits| && (forall j | 0 <= j < |subs| :: Visits(subs[j], visits[j])) && it in AllItems(subs, visits, now)
    ensures ItemFrom(subs, visits, now, it)
  {
    var j := |subs| - 1;
    ItemsOfAre(subs[j].entries, visits[j], now);
    if it in AllItems(subs[..j], visits[..j], now) {
      ItemsComeFrom(subs[..j], visits[..j], now, it);
      var i :| 0 <= i < j && it.key in visits[..j][i] && it.key in subs[..j][i].entries
               && !Expired(subs[..j][i].entries[it.key], now) && it == ItemOf(it.key, subs[..j][i].entries[it.key], now);
      assert visits[i] == visits[..j][i] && subs[i] == subs[..j][i];
    } else {
      assert it.key in visits[j];
    }
  }

  lemma {:induction false} VisitedAreItems(subs: seq<Sub>, visits: seq<seq<Key>>, now: nat, i: nat, k: Key)
    requires |subs| == |visits| && forall j | 0 <= j < |subs| :: Visits(subs[j], visits[j])
    requires i < |subs| && k in visits[i] && k in subs[i].entries && !Expired(subs[i].entries[k], now)
    ensures ItemOf(k, subs[i].entries[k], now) in AllItems(subs, visits, now)
  {
    var j := |subs| - 1;
    if i < j {
      assert visits[i] == visits[..j][i] && subs[i] == subs[..j][i];
      VisitedAreItems(subs[..j], visits[..j], now, i, k);
    } else {
      ItemsOfAre(subs[j].entries, visits[j], now);
    }
  }

  lemma AllItemsAre(subs: seq<Sub>, visits: seq<seq<Key>>, now: nat)
    requires |subs| == |visits| && forall j | 0 <= j < |subs| :: Visits(subs[j], visits[j])
    ensures
      var items := AllItems(subs, visits, now);
      && (forall it | it in items :: ItemFrom(subs, visits, now, it))
      && (forall j, k | 0 <= j < |subs| && k in visits[j] && !Expired(subs[j].entries[k], now) ::
            ItemOf(k, subs[j].entries[k], now) in items)
  {
    forall it | it in AllItems(subs, visits, now) ensures ItemFrom(subs, visits, now, it) {
      ItemsComeFrom(subs, visits, now, it);
    }
    forall j, k | 0 <= j < |subs| && k in visits[j] && !Expired(subs[j].entries[k], now)
      ensures ItemOf(k, subs[j].entries[k], now) in AllItems(subs, visits, now)
    {
      VisitedAreItems(subs, visits, now, j, k);
    }
  }

  lemma DistinctConcat(a: seq<Item>, b: seq<Item>)
    requires DistinctKeys(a) && DistinctKeys(b) && forall x, y | x in a && y in b :: x.key != y.key
    ensures DistinctKeys(a + b)
  {
    forall i, j | 0 <= i < j < |a + b| ensures (a + b)[i].key != (a + b)[j].key {
      if i < |a| <= j {
        assert a[i] in a && b[j - |a|] in b;
      }
    }
  }

  lemma {:induction false} AllItemsDistinct(subs: seq<Sub>, visits: seq<seq<Key>>, now: nat)
    requires |subs| == |visits| && forall j | 0 <= j < |subs| :: Visits(subs[j], visits[j])
    requires Apart(subs)
    ensures DistinctKeys(AllItems(subs, visits, now))
  {
    if subs != [] {
      var j := |subs| - 1;
      AllItemsDistinct(subs[..j], visits[..j], now);
      AllItemsAre(subs[..j], visits[..j], now);
      ItemsOfAre(subs[j].entries, visits[j], now);
      var a, b := AllItems(subs[..j], visits[..j], now), ItemsOf(subs[j].entries, visits[j], now);
      forall x, y | x in a && y in b ensures x.key != y.key {
        assert ItemFrom(subs[..j], visits[..j], now, x);
        var i :| 0 <= i < j && x.key in subs[..j][i].entries;
        assert subs[i].entries.Keys !! subs[j].entries.Keys;
        assert x.key in subs[i].entries.Keys && y.key in subs[j].entries.Keys;
      }
      DistinctConcat(a, b);
    }
  }

  /** The entry a shard holds for a key. */
  function At(sh: Shard, k: Key): Option<Entry>
    requires |sh.subs| > 0
  {
    Lookup(sh.subs[Room(sh, k)].entries, k)
  }

  lemma ShardApart(sh: Shard, i: nat, count: nat)
    requires count > 0 && ShardOk(sh, i, count)
    ensures Apart(sh.subs)
  {
    forall j, j' | 0 <= j < j' < |sh.subs| ensures sh.subs[j].entries.Keys !! sh.subs[j'].entries.Keys {
      assert CellOk(sh.subs[j], i, count, j, |sh.subs|) && CellOk(sh.subs[j'], i, count, j', |sh.subs|);
      assert forall k | k in sh.subs[j].entries :: InPlace(k, i, count, j, |sh.subs|);
    }
  }

  lemma AtHome(sh: Shard, i: nat, count: nat, j: nat, k: Key)
    requires count > 0 && ShardOk(sh, i, count) && j < |sh.subs| && k in sh.subs[j].entries
    ensures ShardIndex(k, count - 1) == i && j == Room(sh, k) && At(sh, k) == Some(sh.subs[j].entries[k])
  {
    assert CellOk(sh.subs[j], i, count, j, |sh.subs|);
    assert InPlace(k, i, count, j, |sh.subs|);
  }

  lemma ExtractedShardOk(sh: Shard, n: nat, now: nat, visits: seq<seq<Key>>, items: seq<Item>, sh': Shard, i: nat, count: nat)
    requires count > 0 && ShardOk(sh, i, count) && ExtractedBy(sh, n, now, visits, items, sh')
    ensures ShardOk(sh', i, count)
    ensures forall j | 0 <= j < |sh.subs| :: SameKind(sh'.subs[j].policy, sh.subs[j].policy)
  {
    forall j | 0 <= j < |sh'.subs|
      ensures CellOk(sh'.subs[j], i, count, j, |sh'.subs|) && SameKind(sh'.subs[j].policy, sh.subs[j].policy)
    {
      assert CellOk(sh.subs[j], i, count, j, |sh.subs|);
      DelAllOk(sh.subs[j], visits[j]);
    }
  }

  /** What happens to one key of the shard: it stays, it is dropped as expired, or it becomes an item. */
  ghost predicate KeyMoved(before: Option<Entry>, after: Option<Entry>, k: Key, now: nat, items: seq<Item>) {
    && (after == before || after == None)
    && (k in ItemKeys(items) ==> LiveAt(before, now).Some? && after == None && ItemOf(k, before.value, now) in items)
    && (k !in ItemKeys(items) ==> LiveAt(after, now) == LiveAt(before, now))
  }

  lemma ExtractedAt(sh: Shard, n: nat, now: nat, visits: seq<seq<Key>>, items: seq<Item>, sh': Shard, i: nat, count: nat, k: Key)
    requires count > 0 && ShardOk(sh, i, count) && ExtractedBy(sh, n, now, visits, items, sh')
    ensures KeyMoved(At(sh, k), At(sh', k), k, now, items)
  {
    var j := Room(sh, k);
    assert CellOk(sh.subs[j], i, count, j, |sh.subs|);
    assert Visits(sh.subs[j], visits[j]);
    DelAllOk(sh.subs[j], visits[j]);
    assert k in visits[j] <==> k in KeySet(visits[j]);
    AllItemsAre(sh.subs, visits, now);
    if k in visits[j] && !Expired(sh.subs[j].entries[k], now) {
      assert ItemOf(k, sh.subs[j].entries[k], now).key in ItemKeys(items);
    }
    if k in ItemKeys(items) {
      var it :| it in items && it.key == k;
      ItemAtHome(sh, visits, now, it, i, count);
    }
  }

  lemma ItemAtHome(sh: Shard, visits: seq<seq<Key>>, now: nat, it: Item, i: nat, count: nat)
    requires count > 0 && ShardOk(sh, i, count) && |visits| == |sh.subs| && ItemFrom(sh.subs, visits, now, it)
    ensures ShardIndex(it.key, count - 1) == i && it.key in visits[Room(sh, it.key)]
    ensures LiveAt(At(sh, it.key), now).Some? && it == ItemOf(it.key, At(sh, it.key).value, now)
  {
    var j :| 0 <= j < |sh.subs| && it.key in visits[j] && it.key in sh.subs[j].entries
             && !Expired(sh.subs[j].entries[it.key], now) && it == ItemOf(it.key, sh.subs[j].entries[it.key], now);
    AtHome(sh, i, count, j, it.key);
  }

  /**
   * An extraction takes live entries out of the shard, each once and with its remaining lifetime;
   * it drops expired entries on the way and changes nothing else.
   */
  lemma ExtractedOk(sh: Shard, n: nat, now: nat, items: seq<Item>, sh': Shard, i: nat, count: nat)
    requires count > 0 && ShardOk(sh, i, count) && Extracted(sh, n, now, items, sh')
    ensures ShardOk(sh', i, count) && |sh'.subs| == |sh.subs| && sh'.maxSub == sh.maxSub && DistinctKeys(items)
    ensures forall k :: KeyMoved(At(sh, k), At(sh', k), k, now, items)
    ensures forall it | it in items :: ShardIndex(it.key, count - 1) == i && LiveAt(At(sh, it.key), now).Some?
                                       && it == ItemOf(it.key, At(sh, it.key).value, now)
    ensures |items| <= n && (|items| < n ==> EmptySubs(sh'.subs))
  {
    var visits :| ExtractedBy(sh, n, now, visits, items, sh');
    ExtractedShardOk(sh, n, now, visits, items, sh', i, count);
    ShardApart(sh, i, count);
    AllItemsDistinct(sh.subs, visits, now);
    forall k ensures KeyMoved(At(sh, k), At(sh', k), k, now, items) {
      ExtractedAt(sh, n, now, visits, items, sh', i, count, k);
    }
    AllItemsAre(sh.subs, visits, now);
    forall it | it in items
      ensures ShardIndex(it.key, count - 1) == i && LiveAt(At(sh, it.key), now).Some?
              && it == ItemOf(it.key, At(sh, it.key).value, now)
    {
      ItemAtHome(sh, visits, now, it, i, count);
    }
  }

  // ---- Writing the items to the new table ----

  function PutAll(t: Table, items: seq<Item>, now: nat): (t': Table)
    requires TableOk(t)
    ensures TableOk(t') && |t'| == |t|
  {
    if items == [] then t
    else
      var most, it := PutAll(t, items[..|items| - 1], now), items[|items| - 1];
      TableSetOk(most, it.key, it.value, it.ttl, now);
      TableSet(most, it.key, it.value, it.ttl, now).0
  }

  /** A table that never evicts: it has no size limit, or its policy is the no-op one. */
  predicate Roomy(t: Table) {
    forall i | 0 <= i < |t| :: RoomyShard(t[i])
  }

  predicate RoomyShard(sh: Shard) {
    sh.maxSub == 0 || forall j | 0 <= j < |sh.subs| :: sh.subs[j].policy.Noop?
  }

  lemma ReplaceRoomy(t: Table, k: Key, s: Sub)
    requires TableOk(t) && Roomy(t) && SameKind(s.policy, SubOf(t, k).policy)
    ensures Roomy(Replace(t, k, s))
  {
    var i := Home(t, k);
    assert ShardOk(t[i], i, |t|) && RoomyShard(t[i]);
    assert RoomyShard(Replace(t, k, s)[i]);
  }

  lemma RoomySet(t: Table, k: Key, value: Bytes, ttl: nat, now: nat)
    requires TableOk(t) && Roomy(t)
    ensures TableSet(t, k, value, ttl, now).1 == [] && Roomy(TableSet(t, k, value, ttl, now).0)
  {
    var i := Home(t, k);
    assert ShardOk(t[i], i, |t|) && RoomyShard(t[i]);
    SubSetOk(SubOf(t, k), k, value, ttl, now, t[i].maxSub);
    ReplaceRoomy(t, k, SubSet(SubOf(t, k), k, value, ttl, now, t[i].maxSub).0);
  }

  ghost predicate OrGone(o: Option<Entry>, wanted: Option<Entry>) {
    o == None || o == wanted
  }

  function ItemEntry(it: Item, now: nat): Entry {
    NewEntry(it.value, it.ttl, now)
  }

  /** What a lookup should give after the items have been written: the last write of the key. */
  function Wanted(before: Option<Entry>, items: seq<Item>, now: nat, x: Key): Option<Entry> {
    if items == [] then before
    else
      var it := items[|items| - 1];
      if x == it.key then Some(ItemEntry(it, now)) else Wanted(before, items[..|items| - 1], now, x)
  }

  lemma {:induction false} WantedItem(before: Option<Entry>, items: seq<Item>, now: nat, it: Item)
    requires DistinctKeys(items) && it in items
    ensures Wanted(before, items, now, it.key) == Some(ItemEntry(it, now))
  {
    var n := |items| - 1;
    var a :| 0 <= a < |items| && items[a] == it;
    if a < n {
      assert items[..n][a] == it;
      WantedItem(before, items[..n], now, it);
    }
  }

  lemma {:induction false} WantedOther(before: Option<Entry>, items: seq<Item>, now: nat, x: Key)
    requires x !in ItemKeys(items)
    ensures Wanted(before, items, now, x) == before
  {
    if items != [] {
      var n := |items| - 1;
      assert items[n].key in ItemKeys(items);
      assert ItemKeys(items[..n]) <= ItemKeys(items);
      WantedOther(before, items[..n], now, x);
    }
  }

  /** After the writes a key is found as it should be, or not at all if it has been evicted. */
  lemma {:induction false} PutAllFinds(t: Table, items: seq<Item>, now: nat, x: Key)
    requires TableOk(t)
    ensures OrGone(Find(PutAll(t, items, now), x), Wanted(Find(t, x), items, now, x))
  {
    if items != [] {
      var most, it := items[..|items| - 1], items[|items| - 1];
      PutAllFinds(t, most, now, x);
      TableSetOk(PutAll(t, most, now), it.key, it.value, it.ttl, now);
    }
  }

  lemma {:induction false} RoomyPutAll(t: Table, items: seq<Item>, now: nat)
    requires TableOk(t) && Roomy(t)
    ensures Roomy(PutAll(t, items, now))
  {
    if items != [] {
      var most, it := items[..|items| - 1], items[|items| - 1];
      RoomyPutAll(t, most, now);
      RoomySet(PutAll(t, most, now), it.key, it.value, it.ttl, now);
    }
  }

  lemma {:induction false} RoomyPutAllFinds(t: Table, items: seq<Item>, now: nat, x: Key)
    requires TableOk(t) && Roomy(t)
    ensures Find(PutAll(t, items, now), x) == Wanted(Find(t, x), items, now, x)
  {
    if items != [] {
      var most, it := items[..|items| - 1], items[|items| - 1];
      RoomyPutAllFinds(t, most, now, x);
      RoomyPutAll(t, most, now);
      RoomySet(PutAll(t, most, now), it.key, it.value, it.ttl, now);
      TableSetOk(PutAll(t, most, now), it.key, it.value, it.ttl, now);
    }
  }
}
