/** Counting keys: what `Len` adds up, and how much an incremental rehash still has to do. */
module CacheCounting {
  import opened Bytes
  import opened Collections
  import opened Eviction
  import opened Hashing
  import opened SubShards
  import opened Tables
  import opened Migration
  import opened CacheModel
  import opened CacheInvariant

  // ---- The keys of a table, and their number ----

  function SubsKeys(subs: seq<Sub>, w: Which): set<Key> {
    if subs == [] then {} else SubsKeys(subs[..|subs| - 1], w) + Pick(subs[|subs| - 1], w)
  }

  function TableKeys(t: Table, w: Which): set<Key> {
    if t == [] then {} else TableKeys(t[..|t| - 1], w) + SubsKeys(t[|t| - 1].subs, w)
  }

  ghost predicate InSub(subs: seq<Sub>, w: Which, k: Key, j: nat) {
    j < |subs| && k in Pick(subs[j], w)
  }

  ghost predicate InShard(t: Table, w: Which, k: Key, i: nat) {
    i < |t| && k in SubsKeys(t[i].subs, w)
  }

  lemma {:induction false} SubsKeysAre(subs: seq<Sub>, w: Which, k: Key)
    ensures k in SubsKeys(subs, w) <==> exists j: nat :: InSub(subs, w, k, j)
  {
    if subs != [] {
      var n := |subs| - 1;
      SubsKeysAre(subs[..n], w, k);
      if j: nat :| InSub(subs[..n], w, k, j) {
        assert InSub(subs, w, k, j);
      }
      if j: nat :| InSub(subs, w, k, j) {
        assert j == n || InSub(subs[..n], w, k, j);
      }
      assert k in Pick(subs[n], w) ==> InSub(subs, w, k, n);
    }
  }

  lemma {:induction false} TableKeysAre(t: Table, w: Which, k: Key)
    ensures k in TableKeys(t, w) <==> exists i: nat :: InShard(t, w, k, i)
  {
    if t != [] {
      var n := |t| - 1;
      TableKeysAre(t[..n], w, k);
      if i: nat :| InShard(t[..n], w, k, i) {
        assert InShard(t, w, k, i);
      }
      if i: nat :| InShard(t, w, k, i) {
        assert i == n || InShard(t[..n], w, k, i);
      }
      assert k in SubsKeys(t[n].subs, w) ==> InShard(t, w, k, n);
    }
  }

  lemma DisjointCard(a: set<Key>, b: set<Key>)
    requires a !! b
    ensures |a + b| == |a| + |b|
  {
  }

  lemma {:induction false} SubsCard(subs: seq<Sub>, w: Which)
    requires Apart(subs)
    ensures |SubsKeys(subs, w)| == CountSubs(subs, w)
  {
    if subs != [] {
      var n := |subs| - 1;
      SubsCard(subs[..n], w);
      forall k | k in SubsKeys(subs[..n], w) ensures k !in Pick(subs[n], w) {
        SubsKeysAre(subs[..n], w, k);
        var j: nat :| InSub(subs[..n], w, k, j);
        assert k in subs[j].entries.Keys && subs[j].entries.Keys !! subs[n].entries.Keys;
      }
      DisjointCard(SubsKeys(subs[..n], w), Pick(subs[n], w));
    }
  }

  ghost predicate ShardsApart(t: Table, w: Which) {
    && (forall i | 0 <= i < |t| :: Apart(t[i].subs))
    && forall i, i' | 0 <= i < i' < |t| :: SubsKeys(t[i].subs, w) !! SubsKeys(t[i'].subs, w)
  }

  lemma {:induction false} TableCard(t: Table, w: Which)
    requires ShardsApart(t, w)
    ensures |TableKeys(t, w)| == CountTable(t, w)
  {
    if t != [] {
      var n := |t| - 1;
      TableCard(t[..n], w);
      SubsCard(t[n].subs, w);
      forall k | k in TableKeys(t[..n], w) ensures k !in SubsKeys(t[n].subs, w) {
        TableKeysAre(t[..n], w, k);
        var i: nat :| InShard(t[..n], w, k, i);
        assert SubsKeys(t[i].subs, w) !! SubsKeys(t[n].subs, w);
      }
      DisjointCard(TableKeys(t[..n], w), SubsKeys(t[n].subs, w));
    }
  }

  lemma KeyAtHome(t: Table, i: nat, w: Which, k: Key)
    requires TableOk(t) && i < |t| && k in SubsKeys(t[i].subs, w)
    ensures i == Home(t, k) && k in Pick(SubOf(t, k), w)
  {
    SubsKeysAre(t[i].subs, w, k);
    var j: nat :| InSub(t[i].subs, w, k, j);
    OnlyAtHome(t, i, j, k);
  }

  lemma TableApart(t: Table, w: Which)
    requires TableOk(t)
    ensures ShardsApart(t, w)
  {
    forall i | 0 <= i < |t| ensures Apart(t[i].subs) {
      assert ShardOk(t[i], i, |t|);
      ShardApart(t[i], i, |t|);
    }
    forall i, i' | 0 <= i < i' < |t| ensures SubsKeys(t[i].subs, w) !! SubsKeys(t[i'].subs, w) {
      forall k | k in SubsKeys(t[i].subs, w) ensures k !in SubsKeys(t[i'].subs, w) {
        KeyAtHome(t, i, w, k);
        if k in SubsKeys(t[i'].subs, w) {
          KeyAtHome(t, i', w, k);
        }
      }
    }
  }

  lemma LiveKeysAre(t: Table, now: nat, k: Key)
    requires TableOk(t)
    ensures k in TableKeys(t, Live(now)) <==> LiveAt(Find(t, k), now).Some?
  {
    var w := Live(now);
    TableKeysAre(t, w, k);
    if i: nat :| InShard(t, w, k, i) {
      KeyAtHome(t, i, w, k);
    }
    if LiveAt(Find(t, k), now).Some? {
      var i := Home(t, k);
      assert ShardOk(t[i], i, |t|);
      assert InSub(t[i].subs, w, k, Room(t[i], k));
      SubsKeysAre(t[i].subs, w, k);
      assert InShard(t, w, k, i);
    }
  }

  // ---- Len ----

  ghost function VisibleKeys(s: State, now: nat): (ks: set<Key>)
    requires TablesOk(s)
  {
    TableKeys(s.table, Live(now)) + if s.rehashing then TableKeys(s.former, Live(now)) else {}
  }

  lemma VisibleKeysAre(s: State, now: nat, k: Key)
    requires OpenOk(s)
    ensures k in VisibleKeys(s, now) <==> LiveAt(Stored(s, k), now).Some?
  {
    LiveKeysAre(s.table, now, k);
    if s.rehashing {
      LiveKeysAre(s.former, now, k);
    }
  }

  lemma TableCount(t: Table, w: Which)
    requires TableOk(t)
    ensures CountTable(t, w) == |TableKeys(t, w)|
  {
    TableApart(t, w);
    TableCard(t, w);
  }

  lemma TablesShareNoKey(t: Table, u: Table, now: nat)
    requires TableOk(t) && TableOk(u) && Disjoint(t, u)
    ensures TableKeys(t, Live(now)) !! TableKeys(u, Live(now))
  {
    forall k | k in TableKeys(t, Live(now)) ensures k !in TableKeys(u, Live(now)) {
      LiveKeysAre(t, now, k);
      LiveKeysAre(u, now, k);
    }
  }

  /** The sum over all the shards of both tables is the number of visible keys. */
  lemma CountIsVisible(s: State, now: nat)
    requires OpenOk(s)
    ensures Count(s, Live(now)) == |VisibleKeys(s, now)|
    ensures forall k :: k in VisibleKeys(s, now) <==> LiveAt(Stored(s, k), now).Some?
  {
    TableCount(s.table, Live(now));
    if s.rehashing {
      TableCount(s.former, Live(now));
      TablesShareNoKey(s.table, s.former, now);
      DisjointCard(TableKeys(s.table, Live(now)), TableKeys(s.former, Live(now)));
    }
    forall k ensures k in VisibleKeys(s, now) <==> LiveAt(Stored(s, k), now).Some? {
      VisibleKeysAre(s, now, k);
    }
  }

  // ---- Work left in an incremental rehash ----

  function Batches(n: nat): nat {
    (n + 15) / 16
  }

  /** For every shard still to drain, one step per batch of entries and one to find it empty. */
  function Remaining(t: Table, i: nat): nat
    decreases |t| - i
  {
    if i >= |t| then 0 else Batches(CountSubs(t[i].subs, All)) + 1 + Remaining(t, i + 1)
  }

  lemma {:induction false} FewerInSubs(subs: seq<Sub>, subs': seq<Sub>)
    requires |subs| == |subs'| && forall j | 0 <= j < |subs| :: subs'[j].entries.Keys <= subs[j].entries.Keys
    ensures CountSubs(subs', All) <= CountSubs(subs, All)
  {
    if subs != [] {
      var n := |subs| - 1;
      FewerInSubs(subs[..n], subs'[..n]);
      SubsetSize(subs'[n].entries.Keys, subs[n].entries.Keys);
    }
  }

  /** Losing keys never adds work. */
  lemma {:induction false} ShrunkNeedsNoMore(t: Table, t': Table, i: nat)
    requires Shrinks(t, t')
    ensures Remaining(t', i) <= Remaining(t, i)
    decreases |t| - i
  {
    if i < |t| {
      ShrunkNeedsNoMore(t, t', i + 1);
      FewerInSubs(t[i].subs, t'[i].subs);
    }
  }

  lemma {:induction false} RemainingAfter(t: Table, i: nat, sh: Shard, j: nat)
    requires i < j && i < |t|
    ensures Remaining(t[i := sh], j) == Remaining(t, j)
    decreases |t| - j
  {
    if j < |t| {
      RemainingAfter(t, i, sh, j + 1);
    }
  }

  lemma {:induction false} KeySetSize(ks: seq<Key>)
    requires NoDup(ks)
    ensures |KeySet(ks)| == |ks|
  {
    if ks != [] {
      var most, k := ks[..|ks| - 1], ks[|ks| - 1];
      KeySetSize(most);
      assert ks == most + [k];
      assert KeySet(ks) == KeySet(most) + {k} && k !in KeySet(most);
    }
  }

  lemma VisitedCount(s: Sub, ks: seq<Key>, now: nat)
    requires SubOk(s) && Visits(s, ks)
    ensures |DelAll(s, ks).entries.Keys| + |ItemsOf(s.entries, ks, now)| <= |s.entries.Keys|
  {
    DelAllOk(s, ks);
    ItemsOfAre(s.entries, ks, now);
    KeySetSize(ks);
    var rest := DelAll(s, ks).entries.Keys;
    assert s.entries.Keys == rest + KeySet(ks);
    DisjointCard(rest, KeySet(ks));
  }

  lemma VisitedAll(s: Sub, ks: seq<Key>, now: nat)
    requires SubOk(s) && Visits(s, ks)
    ensures |ItemsOf(s.entries, ks, now)| <= |Pick(s, Live(now))|
    ensures KeySet(ks) == s.entries.Keys ==>
              DelAll(s, ks).entries == map[] && |ItemsOf(s.entries, ks, now)| == |Pick(s, Live(now))|
  {
    var items := ItemsOf(s.entries, ks, now);
    ItemsOfAre(s.entries, ks, now);
    DelAllOk(s, ks);
    DistinctSize(items);
    SubsetSize(ItemKeys(items), Pick(s, Live(now)));
    if KeySet(ks) == s.entries.Keys {
      forall k | k in Pick(s, Live(now)) ensures k in ItemKeys(items) {
        assert k in KeySet(ks);
        assert ItemOf(k, s.entries[k], now).key in ItemKeys(items);
      }
      assert ItemKeys(items) == Pick(s, Live(now));
    }
  }

  lemma {:induction false} DistinctSize(items: seq<Item>)
    requires DistinctKeys(items)
    ensures |ItemKeys(items)| == |items|
  {
    if items != [] {
      var most, it := items[..|items| - 1], items[|items| - 1];
      DistinctSize(most);
      assert items == most + [it];
      assert ItemKeys(items) == ItemKeys(most) + {it.key};
      assert it.key !in ItemKeys(most);
    }
  }

  /** An extraction leaves the shard at least as many entries short as it returns items. */
  lemma {:induction false} ExtractedCount(subs: seq<Sub>, visits: seq<seq<Key>>, now: nat, subs': seq<Sub>)
    requires |subs| == |visits| == |subs'|
    requires forall j | 0 <= j < |subs| :: SubOk(subs[j]) && Visits(subs[j], visits[j]) && subs'[j] == DelAll(subs[j], visits[j])
    ensures CountSubs(subs', All) + |AllItems(subs, visits, now)| <= CountSubs(subs, All)
  {
    if subs != [] {
      var n := |subs| - 1;
      ExtractedCount(subs[..n], visits[..n], now, subs'[..n]);
      VisitedCount(subs[n], visits[n], now);
    }
  }

  /** An extraction that leaves nothing behind returns every live entry. */
  lemma {:induction false} ExtractedAllLive(subs: seq<Sub>, visits: seq<seq<Key>>, now: nat, subs': seq<Sub>)
    requires |subs| == |visits| == |subs'| && EmptySubs(subs')
    requires forall j | 0 <= j < |subs| :: SubOk(subs[j]) && Visits(subs[j], visits[j]) && subs'[j] == DelAll(subs[j], visits[j])
    ensures |AllItems(subs, visits, now)| == CountSubs(subs, Live(now))
  {
    if subs != [] {
      var n := |subs| - 1;
      ExtractedAllLive(subs[..n], visits[..n], now, subs'[..n]);
      DelAllOk(subs[n], visits[n]);
      assert subs'[n].entries == map[];
      forall k | k in subs[n].entries ensures k in KeySet(visits[n]) {
        assert k !in subs'[n].entries;
      }
      VisitedAll(subs[n], visits[n], now);
    }
  }

  lemma {:induction false} EmptyCount(subs: seq<Sub>)
    requires EmptySubs(subs)
    ensures CountSubs(subs, All) == 0
  {
    if subs != [] {
      EmptyCount(subs[..|subs| - 1]);
      assert subs[|subs| - 1].entries == map[];
    }
  }

  lemma BatchesDrop(n: nat, moved: nat, n': nat)
    requires n' + moved <= n && 0 < moved && (moved == BATCH_SIZE || n' == 0)
    ensures Batches(n') < Batches(n)
  {
  }

  lemma ExtractedFewer(sh: Shard, i: nat, count: nat, n: nat, now: nat, items: seq<Item>, sh': Shard)
    requires count > 0 && ShardOk(sh, i, count) && Extracted(sh, n, now, items, sh')
    ensures CountSubs(sh'.subs, All) + |items| <= CountSubs(sh.subs, All)
    ensures |items| == n || CountSubs(sh'.subs, All) == 0
  {
    var visits :| ExtractedBy(sh, n, now, visits, items, sh');
    forall j | 0 <= j < |sh.subs| ensures SubOk(sh.subs[j]) {
      assert CellOk(sh.subs[j], i, count, j, |sh.subs|);
    }
    ExtractedCount(sh.subs, visits, now, sh'.subs);
    if EmptySubs(sh'.subs) {
      EmptyCount(sh'.subs);
    }
  }

  /** In a shard that lacks sub-shards an extraction that returns is a full batch. */
  lemma ExtractedIsFull(sh: Shard, i: nat, count: nat, n: nat, now: nat, items: seq<Item>, sh': Shard)
    requires count > 0 && ShardOk(sh, i, count) && Extracted(sh, n, now, items, sh')
    requires Extractable(sh, n, now) && |sh.subs| < SUB_SHARDS
    ensures |items| == n
  {
    var visits :| ExtractedBy(sh, n, now, visits, items, sh');
    forall j | 0 <= j < |sh.subs| ensures SubOk(sh.subs[j]) {
      assert CellOk(sh.subs[j], i, count, j, |sh.subs|);
    }
    if |items| < n {
      ExtractedAllLive(sh.subs, visits, now, sh'.subs);
    }
  }

  lemma RemainingAt(t: Table, i: nat, sh: Shard)
    requires i < |t|
    ensures Remaining(t[i := sh], i) == Batches(CountSubs(sh.subs, All)) + 1 + Remaining(t, i + 1)
    ensures Remaining(t[i := sh], i + 1) == Remaining(t, i + 1)
  {
    RemainingAfter(t, i, sh, i + 1);
  }

  lemma ExtractedProgress(f: Table, i: nat, now: nat, items: seq<Item>, sh: Shard)
    requires TableOk(f) && i < |f| && Extracted(f[i], BATCH_SIZE, now, items, sh)
    ensures Remaining(f[i := sh], if items != [] then i else i + 1) < Remaining(f, i)
  {
    assert ShardOk(f[i], i, |f|);
    var n, n' := CountSubs(f[i].subs, All), CountSubs(sh.subs, All);
    ExtractedFewer(f[i], i, |f|, BATCH_SIZE, now, items, sh);
    RemainingAt(f, i, sh);
    assert Remaining(f, i) == Batches(n) + 1 + Remaining(f, i + 1);
    if items != [] {
      BatchesDrop(n, |items|, n');
    }
  }

  /** Every incremental step leaves less to do. */
  lemma BatchStepProgress(s: State, now: nat, items: seq<Item>, sh: Shard, s': State, completed: bool)
    requires TablesOk(s) && s.rehashing && MovesBatch(s, now, items, sh, s', completed)
    ensures s'.rehashing ==> Remaining(s'.former, s'.idx) < Remaining(s.former, s.idx)
    ensures completed <==> !s'.rehashing
  {
    WhereItStands(s, now, items, sh, s', completed);
    ExtractedProgress(s.former, s.idx, now, items, sh);
  }

  lemma WhereItStands(s: State, now: nat, items: seq<Item>, sh: Shard, s': State, completed: bool)
    requires TablesOk(s) && s.rehashing && MovesBatch(s, now, items, sh, s', completed)
    ensures s'.rehashing ==> s'.former == s.former[s.idx := sh] && s'.idx == if items != [] then s.idx else s.idx + 1
    ensures completed <==> !s'.rehashing
  {
  }
}
