/**
 * What every operation of the cache keeps: each key sits where its hash says, in one table only,
 * and what is visible changes as it should.
 */
module CacheInvariant {
  import opened Bytes
  import opened Collections
  import opened Eviction
  import opened EvictionRuns
  import opened Hashing
  import opened SubShards
  import opened Tables
  import opened Migration
  import opened CacheModel

  // ---- What is stored, over both tables ----

  function Either(a: Option<Entry>, b: Option<Entry>): Option<Entry> {
    if a.Some? then a else b
  }

  function Former(s: State, k: Key): Option<Entry>
    requires TablesOk(s)
  {
    if s.rehashing then Find(s.former, k) else None
  }

  function Stored(s: State, k: Key): Option<Entry>
    requires TablesOk(s)
  {
    Either(Find(s.table, k), Former(s, k))
  }

  /** What is live stays live, or goes if the table has a size limit. */
  ghost predicate Kept(s: State, s': State, now: nat, x: Key)
    requires TablesOk(s) && TablesOk(s')
  {
    var before, after := LiveAt(Stored(s, x), now), LiveAt(Stored(s', x), now);
    OrGone(after, before) && (Roomy(s.table) ==> after == before)
  }

  // ---- Tables that only lose keys ----

  predicate Shrinks(t: Table, t': Table) {
    SameShape(t, t')
    && forall i, j | 0 <= i < |t| && 0 <= j < |t[i].subs| :: t'[i].subs[j].entries.Keys <= t[i].subs[j].entries.Keys
  }

  lemma ShrunkStaysDrained(t: Table, t': Table, n: nat)
    requires Shrinks(t, t') && Drained(t, n)
    ensures Drained(t', n)
  {
    forall i | 0 <= i < |t'| && i < n ensures EmptySubs(t'[i].subs) {
      assert EmptySubs(t[i].subs);
      forall j | 0 <= j < |t'[i].subs| ensures t'[i].subs[j].entries == map[] {
        assert t'[i].subs[j].entries.Keys <= t[i].subs[j].entries.Keys;
        assert t'[i].subs[j].entries.Keys == {};
      }
    }
  }

  lemma ReplaceShrinks(t: Table, k: Key, s: Sub)
    requires TableOk(t) && s.entries.Keys <= SubOf(t, k).entries.Keys
    ensures Shrinks(t, Replace(t, k, s))
  {
    assert ShardOk(t[Home(t, k)], Home(t, k), |t|);
  }

  lemma DelShrinks(t: Table, k: Key)
    requires TableOk(t)
    ensures Shrinks(t, TableDel(t, k))
  {
    DelOk(SubOf(t, k), k);
    ReplaceShrinks(t, k, SubDel(SubOf(t, k), k));
  }

  lemma GetShrinks(t: Table, k: Key, now: nat)
    requires TableOk(t)
    ensures Shrinks(t, TableGet(t, k, now).0)
  {
    DelOk(SubOf(t, k), k);
    ReplaceShrinks(t, k, SubGet(SubOf(t, k), k, now).0);
  }

  // ---- Set, Del and Get before their rehash step ----

  lemma EvictedWereThere(t: Table, k: Key, value: Bytes, ttl: nat, now: nat, x: Key)
    requires TableOk(t) && x in TableSet(t, k, value, ttl, now).1
    ensures x == k || Find(t, x).Some?
  {
    SubSetOk(SubOf(t, k), k, value, ttl, now, t[Home(t, k)].maxSub);
    assert x in KeySet(TableSet(t, k, value, ttl, now).1);
    if x != k {
      assert ShardOk(t[Home(t, k)], Home(t, k), |t|);
      OnlyAtHome(t, Home(t, k), Room(t[Home(t, k)], k), x);
    }
  }

  lemma InsertStores(s: State, k: Key, value: Bytes, ttl: nat, now: nat, x: Key)
    requires OpenOk(s)
    ensures
      var s', evicted := Insert(s, k, value, ttl, now), TableSet(s.table, k, value, ttl, now).1;
      && (Find(s'.table, x) == None || Former(s', x) == None)
      && Stored(s', x) == SetFind(Stored(s, x), k, NewEntry(value, ttl, now), evicted, x)
  {
    TableSetOk(s.table, k, value, ttl, now);
    if x in TableSet(s.table, k, value, ttl, now).1 {
      EvictedWereThere(s.table, k, value, ttl, now, x);
    }
    if s.rehashing {
      TableDelOk(s.former, k);
    }
  }

  lemma InsertKeepsOk(s: State, k: Key, value: Bytes, ttl: nat, now: nat)
    requires OpenOk(s)
    ensures OpenOk(Insert(s, k, value, ttl, now))
  {
    var s' := Insert(s, k, value, ttl, now);
    forall x ensures Find(s'.table, x) == None || Former(s', x) == None {
      InsertStores(s, k, value, ttl, now, x);
    }
    if s.rehashing {
      DelShrinks(s.former, k);
      ShrunkStaysDrained(s.former, s'.former, s.idx);
      assert forall x :: Former(s', x) == Find(s'.former, x);
    }
  }

  lemma DropStores(s: State, k: Key, x: Key)
    requires OpenOk(s)
    ensures
      var s' := Drop(s, k);
      && (Find(s'.table, x) == None || Former(s', x) == None)
      && Stored(s', x) == if x == k then None else Stored(s, x)
  {
    TableDelOk(s.table, k);
    if s.rehashing {
      TableDelOk(s.former, k);
    }
  }

  lemma DropKeepsOk(s: State, k: Key)
    requires OpenOk(s)
    ensures OpenOk(Drop(s, k))
  {
    var s' := Drop(s, k);
    forall x ensures Find(s'.table, x) == None || Former(s', x) == None {
      DropStores(s, k, x);
    }
    if s.rehashing {
      DelShrinks(s.former, k);
      ShrunkStaysDrained(s.former, s'.former, s.idx);
      assert forall x :: Former(s', x) == Find(s'.former, x);
    }
  }

  /** A read finds the live value in whichever table has it, and loses at most expired entries. */
  lemma LookStores(s: State, k: Key, now: nat, x: Key)
    requires OpenOk(s)
    ensures
      var (s', found) := Look(s, k, now);
      && (Find(s'.table, x) == None || Former(s', x) == None)
      && LiveAt(Stored(s', x), now) == LiveAt(Stored(s, x), now)
      && found == (var e := LiveAt(Stored(s, k), now); if e.Some? then Some(e.value.value) else None)
  {
    TableGetOk(s.table, k, now);
    if s.rehashing {
      TableGetOk(s.former, k, now);
    }
  }

  lemma LookKeepsOk(s: State, k: Key, now: nat)
    requires OpenOk(s)
    ensures OpenOk(Look(s, k, now).0)
  {
    var s' := Look(s, k, now).0;
    forall x ensures Find(s'.table, x) == None || Former(s', x) == None {
      LookStores(s, k, now, x);
    }
    if s.rehashing {
      GetShrinks(s.former, k, now);
      ShrunkStaysDrained(s.former, TableGet(s.former, k, now).0, s.idx);
      assert forall x :: Former(s', x) == Find(s'.former, x);
    }
  }

  // ---- The rehash step ----

  /** One key across a migration step: found in one table at most, and live exactly as before unless evicted. */
  lemma MigratedKey(t: Option<Entry>, f: Option<Entry>, t': Option<Entry>, f': Option<Entry>, items: seq<Item>, now: nat, x: Key)
    requires t == None || f == None
    requires DistinctKeys(items) && KeyMoved(f, f', x, now, items) && OrGone(t', Wanted(t, items, now, x))
    ensures t' == None || f' == None
    ensures OrGone(LiveAt(Either(t', f'), now), LiveAt(Either(t, f), now))
    ensures t' == Wanted(t, items, now, x) ==> LiveAt(Either(t', f'), now) == LiveAt(Either(t, f), now)
  {
    if x in ItemKeys(items) {
      WantedItem(t, items, now, ItemOf(x, f.value, now));
      MovedEntryIsSame(x, f.value, now);
    } else {
      WantedOther(t, items, now, x);
    }
  }

  lemma WithShardOk(t: Table, i: nat, sh: Shard)
    requires TableOk(t) && i < |t| && ShardOk(sh, i, |t|)
    ensures TableOk(t[i := sh])
    ensures forall x :: Find(t[i := sh], x) == if Home(t, x) == i then At(sh, x) else Find(t, x)
  {
    var t' := t[i := sh];
    forall j | 0 <= j < |t'| ensures ShardOk(t'[j], j, |t'|) {
      assert j != i ==> ShardOk(t[j], j, |t|);
    }
    forall x ensures Find(t', x) == if Home(t, x) == i then At(sh, x) else Find(t, x) {
      FindWithShard(t, i, sh, x);
    }
  }

  lemma FindWithShard(t: Table, i: nat, sh: Shard, x: Key)
    requires TableOk(t) && i < |t| && TableOk(t[i := sh]) && ShardOk(sh, i, |t|)
    ensures Find(t[i := sh], x) == if Home(t, x) == i then At(sh, x) else Find(t, x)
  {
    assert ShardOk(t[Home(t, x)], Home(t, x), |t|);
  }

  lemma BatchMoves(t: Table, i: nat, n: nat, now: nat, items: seq<Item>, sh: Shard)
    requires TableOk(t) && i < |t| && Extracted(t[i], n, now, items, sh)
    ensures TableOk(t[i := sh]) && DistinctKeys(items)
    ensures forall x :: KeyMoved(Find(t, x), Find(t[i := sh], x), x, now, items)
    ensures |sh.subs| == |t[i].subs| && (|items| < n ==> EmptySubs(sh.subs))
  {
    assert ShardOk(t[i], i, |t|);
    ExtractedOk(t[i], n, now, items, sh, i, |t|);
    WithShardOk(t, i, sh);
    forall x ensures KeyMoved(Find(t, x), Find(t[i := sh], x), x, now, items) {
      if Home(t, x) == i {
        assert Find(t, x) == At(t[i], x);
      } else {
        assert x !in ItemKeys(items);
      }
    }
  }

  /** Both tables before and after items have moved from one to the other. */
  ghost predicate Migrates(t: Table, f: Table, t': Table, f': Table, items: seq<Item>, now: nat)
    requires TableOk(t) && TableOk(f) && TableOk(f')
  {
    && t' == PutAll(t, items, now) && DistinctKeys(items)
    && forall x :: KeyMoved(Find(f, x), Find(f', x), x, now, items)
  }

  lemma MigratesKey(t: Table, f: Table, t': Table, f': Table, items: seq<Item>, now: nat, x: Key)
    requires TableOk(t) && TableOk(f) && TableOk(f') && Disjoint(t, f) && Migrates(t, f, t', f', items, now)
    ensures Find(t', x) == None || Find(f', x) == None
    ensures
      var before, after := LiveAt(Either(Find(t, x), Find(f, x)), now), LiveAt(Either(Find(t', x), Find(f', x)), now);
      OrGone(after, before) && (Roomy(t) ==> after == before)
  {
    PutAllFinds(t, items, now, x);
    if Roomy(t) {
      RoomyPutAllFinds(t, items, now, x);
    }
    MigratedKey(Find(t, x), Find(f, x), Find(t', x), Find(f', x), items, now, x);
  }

  lemma MigratesApart(t: Table, f: Table, t': Table, f': Table, items: seq<Item>, now: nat)
    requires TableOk(t) && TableOk(f) && TableOk(f') && Disjoint(t, f) && Migrates(t, f, t', f', items, now)
    ensures Disjoint(t', f')
  {
    forall x ensures Find(t', x) == None || Find(f', x) == None {
      MigratesKey(t, f, t', f', items, now, x);
    }
  }

  lemma EmptyFindsNothing(t: Table)
    requires TableOk(t) && Drained(t, |t|)
    ensures forall x :: Find(t, x) == None
  {
    forall x ensures Find(t, x) == None {
      assert EmptySubs(t[Home(t, x)].subs);
    }
  }

  lemma DrainedNext(t: Table, i: nat, sh: Shard)
    requires Drained(t, i) && i < |t|
    ensures Drained(t[i := sh], i) && (EmptySubs(sh.subs) ==> Drained(t[i := sh], i + 1))
  {
    var t' := t[i := sh];
    forall j | 0 <= j < |t'| && j < i ensures EmptySubs(t'[j].subs) {
      assert EmptySubs(t[j].subs);
    }
  }

  lemma BatchStepKeeps(s: State, now: nat, items: seq<Item>, sh: Shard, s': State, completed: bool)
    requires OpenOk(s) && s.rehashing && MovesBatch(s, now, items, sh, s', completed)
    ensures OpenOk(s')
    ensures forall x :: Kept(s, s', now, x)
  {
    var f, f' := s.former, s.former[s.idx := sh];
    BatchMoves(f, s.idx, BATCH_SIZE, now, items, sh);
    DrainedNext(f, s.idx, sh);
    assert Migrates(s.table, f, s'.table, f', items, now);
    if !s'.rehashing {
      EmptyFindsNothing(f');
    }
    MigratesApart(s.table, f, s'.table, f', items, now);
    forall x ensures Kept(s, s', now, x) {
      MigratesKey(s.table, f, s'.table, f', items, now, x);
    }
  }

  lemma DrainMoves(f: Table, now: nat, items: seq<Item>, x: Key)
    requires TableOk(f) && Drains(f, now, items)
    ensures KeyMoved(Find(f, x), None, x, now, items)
  {
    if x in ItemKeys(items) {
      var it :| it in items && it.key == x;
      assert LiveAt(Find(f, x), now).Some?;
    }
  }

  lemma DrainStepKeeps(s: State, now: nat, items: seq<Item>, s': State, completed: bool)
    requires OpenOk(s) && s.rehashing && MovesAll(s, now, items, s', completed)
    ensures OpenOk(s')
    ensures forall x :: Kept(s, s', now, x)
  {
    forall x ensures Kept(s, s', now, x) {
      DrainMoves(s.former, now, items, x);
      PutAllFinds(s.table, items, now, x);
      if Roomy(s.table) {
        RoomyPutAllFinds(s.table, items, now, x);
      }
      MigratedKey(Find(s.table, x), Find(s.former, x), Find(s'.table, x), None, items, now, x);
    }
  }

  lemma PutAllRoomyOk(s: State, now: nat, s': State, items: seq<Item>)
    requires OpenOk(s) && s'.table == PutAll(s.table, items, now) && Roomy(s.table)
    ensures Roomy(s'.table)
  {
    RoomyPutAll(s.table, items, now);
  }

  /** A rehash step keeps the invariant and what is visible; only a size limit can make it lose keys. */
  lemma StepKeeps(s: State, now: nat, s': State, completed: bool)
    requires OpenOk(s) && Steps(s, now, s', completed)
    ensures OpenOk(s') && (Roomy(s.table) ==> Roomy(s'.table))
    ensures s'.config == s.config && s'.policy == s.policy && s'.closed == s.closed
    ensures forall x :: Kept(s, s', now, x)
  {
    if s.rehashing {
      match s.config.rehasher
      case Incremental =>
        var items, sh :| MovesBatch(s, now, items, sh, s', completed);
        BatchStepKeeps(s, now, items, sh, s', completed);
        if Roomy(s.table) {
          PutAllRoomyOk(s, now, s', items);
        }
      case Batch =>
        var items :| MovesAll(s, now, items, s', completed);
        DrainStepKeeps(s, now, items, s', completed);
        if Roomy(s.table) {
          PutAllRoomyOk(s, now, s', items);
        }
    }
  }

  // ---- Cleanup, a policy swap and a resize ----

  /** Tables of one shape whose sub-shards each keep or lose keys. */
  ghost predicate Cellwise(t: Table, t': Table) {
    Shrinks(t, t') && forall i, j | 0 <= i < |t'| && 0 <= j < |t'[i].subs| :: SubOk(t'[i].subs[j])
  }

  lemma CellwiseOk(t: Table, t': Table)
    requires TableOk(t) && Cellwise(t, t')
    ensures TableOk(t')
  {
    forall i | 0 <= i < |t'| ensures ShardOk(t'[i], i, |t'|) {
      assert ShardOk(t[i], i, |t|);
      forall j | 0 <= j < |t'[i].subs| ensures CellOk(t'[i].subs[j], i, |t'|, j, |t'[i].subs|) {
        assert CellOk(t[i].subs[j], i, |t|, j, |t[i].subs|);
        assert t'[i].subs[j].entries.Keys <= t[i].subs[j].entries.Keys;
      }
    }
  }

  lemma CleanedCell(t: Table, now: nat, t': Table, i: nat, j: nat)
    requires TableOk(t) && Cleaned(t, now, t') && i < |t| && j < |t[i].subs|
    ensures SubOk(t'[i].subs[j]) && SameKind(t'[i].subs[j].policy, t[i].subs[j].policy)
    ensures t'[i].subs[j].entries == t[i].subs[j].entries - ExpiredKeys(t[i].subs[j], now)
  {
    var s := t[i].subs[j];
    assert ShardOk(t[i], i, |t|);
    assert CellOk(s, i, |t|, j, |t[i].subs|);
    assert SubCleaned(s, now, t'[i].subs[j]);
    var ks :| NoDup(ks) && KeySet(ks) == ExpiredKeys(s, now) && t'[i].subs[j] == DelAll(s, ks);
    DelAllOk(s, ks);
  }

  lemma CleanedOk(t: Table, now: nat, t': Table)
    requires TableOk(t) && Cleaned(t, now, t')
    ensures Cellwise(t, t') && TableOk(t')
  {
    forall i, j | 0 <= i < |t| && 0 <= j < |t[i].subs|
      ensures SubOk(t'[i].subs[j]) && t'[i].subs[j].entries.Keys <= t[i].subs[j].entries.Keys
    {
      CleanedCell(t, now, t', i, j);
    }
    CellwiseOk(t, t');
  }

  lemma FoundIn(t: Table, t': Table, x: Key)
    requires TableOk(t) && TableOk(t') && SameShape(t, t')
    ensures Home(t, x) < |t| && Room(t[Home(t, x)], x) < |t[Home(t, x)].subs|
    ensures Find(t, x) == Lookup(t[Home(t, x)].subs[Room(t[Home(t, x)], x)].entries, x)
    ensures Find(t', x) == Lookup(t'[Home(t, x)].subs[Room(t[Home(t, x)], x)].entries, x)
  {
    assert ShardOk(t[Home(t, x)], Home(t, x), |t|);
  }

  /** Cleaning up drops the expired entries and nothing else. */
  lemma CleanedFinds(t: Table, now: nat, t': Table, x: Key)
    requires TableOk(t) && TableOk(t') && Cleaned(t, now, t')
    ensures Find(t', x) == LiveAt(Find(t, x), now)
  {
    FoundIn(t, t', x);
    CleanedCell(t, now, t', Home(t, x), Room(t[Home(t, x)], x));
  }

  lemma SwappedCell(t: Table, p: Policy, t': Table, i: nat, j: nat)
    requires Swapped(t, p, t') && Fresh(p) && i < |t| && j < |t[i].subs|
    ensures SubOk(t'[i].subs[j]) && SameKind(t'[i].subs[j].policy, p)
    ensures t'[i].subs[j].entries == t[i].subs[j].entries
  {
    var s := t[i].subs[j];
    assert SubSwapped(s, p, t'[i].subs[j]);
    var ks :| NoDup(ks) && KeySet(ks) == s.entries.Keys && t'[i].subs[j] == Sub(s.entries, AddAll(p, ks));
    FreshInStep(p, 0);
    AddAllOk(p, ks);
  }

  lemma SwappedOk(t: Table, p: Policy, t': Table)
    requires TableOk(t) && Swapped(t, p, t') && Fresh(p)
    ensures Cellwise(t, t') && TableOk(t')
  {
    forall i, j | 0 <= i < |t| && 0 <= j < |t[i].subs|
      ensures SubOk(t'[i].subs[j]) && t'[i].subs[j].entries.Keys <= t[i].subs[j].entries.Keys
    {
      SwappedCell(t, p, t', i, j);
    }
    CellwiseOk(t, t');
  }

  lemma SwappedFinds(t: Table, p: Policy, t': Table, x: Key)
    requires TableOk(t) && TableOk(t') && Swapped(t, p, t') && Fresh(p)
    ensures Find(t', x) == Find(t, x)
  {
    FoundIn(t, t', x);
    SwappedCell(t, p, t', Home(t, x), Room(t[Home(t, x)], x));
  }

  lemma CleanUpKeeps(s: State, now: nat, s': State)
    requires OpenOk(s) && CleansUp(s, now, s')
    ensures OpenOk(s') && forall x :: Stored(s', x) == LiveAt(Stored(s, x), now)
  {
    CleanedOk(s.table, now, s'.table);
    if s.rehashing {
      CleanedOk(s.former, now, s'.former);
      ShrunkStaysDrained(s.former, s'.former, s.idx);
    }
    forall x ensures Stored(s', x) == LiveAt(Stored(s, x), now) && (Find(s'.table, x) == None || Former(s', x) == None) {
      CleanedFinds(s.table, now, s'.table, x);
      if s.rehashing {
        CleanedFinds(s.former, now, s'.former, x);
      }
    }
    assert s.rehashing ==> forall x :: Former(s', x) == Find(s'.former, x);
  }

  lemma SwapKeeps(s: State, p: Policy, s': State)
    requires OpenOk(s) && Swaps(s, p, s') && Fresh(p)
    ensures OpenOk(s') && forall x :: Stored(s', x) == Stored(s, x)
  {
    SwappedOk(s.table, p, s'.table);
    if s.rehashing {
      SwappedOk(s.former, p, s'.former);
      ShrunkStaysDrained(s.former, s'.former, s.idx);
    }
    forall x ensures Stored(s', x) == Stored(s, x) && (Find(s'.table, x) == None || Former(s', x) == None) {
      SwappedFinds(s.table, p, s'.table, x);
      if s.rehashing {
        SwappedFinds(s.former, p, s'.former, x);
      }
    }
    assert s.rehashing ==> forall x :: Former(s', x) == Find(s'.former, x);
  }

  lemma NewTableOk(p: Policy, maxSize: nat, count: nat)
    requires Fresh(p) && PowerOfTwo(count)
    ensures TableOk(NewTable(p, maxSize, count)) && forall x :: Find(NewTable(p, maxSize, count), x) == None
  {
    var t := NewTable(p, maxSize, count);
    FreshInStep(p, 0);
    forall i | 0 <= i < |t| ensures ShardOk(t[i], i, |t|) {
      assert t[i] == NewShard(p, PerShardMax(maxSize, count));
      forall j | 0 <= j < |t[i].subs| ensures CellOk(t[i].subs[j], i, |t|, j, |t[i].subs|) {
        assert t[i].subs[j] == Sub(map[], p);
      }
    }
    forall x ensures Find(t, x) == None {
      assert ShardOk(t[Home(t, x)], Home(t, x), |t|);
      assert SubOf(t, x) == Sub(map[], p);
    }
  }

  /** Starting a rehash moves nothing: everything is now found in the former table. */
  lemma StartRehashKeeps(s: State, count: nat)
    requires OpenOk(s) && Fresh(s.policy) && !s.rehashing && PowerOfTwo(count)
    ensures OpenOk(StartRehash(s, count)) && forall x :: Stored(StartRehash(s, count), x) == Stored(s, x)
  {
    NewTableOk(s.policy, s.config.maxSize, count);
  }
}
