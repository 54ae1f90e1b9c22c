/**
 * Evictions in the whole cache: every sub-shard of either table, in every state of every run, is what
 * operations on one sub-shard have made of an empty one, so what holds of those holds here, for the
 * writes of a Set and for the writes by which a rehash moves entries.
 */
module CacheVictims {
  import opened Bytes
  import opened Collections
  import opened Eviction
  import opened EvictionOrder
  import EvictionRuns
  import opened SubShards
  import opened Tables
  import opened Migration
  import opened CacheModel
  import opened CacheInvariant
  import opened CacheRefinement
  import opened CacheRuns

  // ---- Histories of a sub-shard ----

  /** Performed from an empty sub-shard on, the operations lead to `s`. */
  ghost predicate HistoryOf(rs: seq<EvictionRuns.Recorded>, ops: seq<EvictionRuns.SubOp>, p: Policy, max: nat, s: Sub) {
    EvictionRuns.IsRun(rs, ops, p, max) && rs[|ops|].sub == s
  }

  ghost predicate Lived(s: Sub, max: nat) {
    exists rs, ops, p :: HistoryOf(rs, ops, p, max, s)
  }

  lemma Performed(rs: seq<EvictionRuns.Recorded>, ops: seq<EvictionRuns.SubOp>, p: Policy, max: nat, s: Sub, op: EvictionRuns.SubOp)
    requires HistoryOf(rs, ops, p, max, s) && SubOk(s) && EvictionRuns.CanPerform(rs[|ops|], op)
    ensures Lived(EvictionRuns.Perform(rs[|ops|], op, max).0.sub, max)
  {
    var r := EvictionRuns.Perform(rs[|ops|], op, max).0;
    EvictionRuns.RunGoesOn(rs, ops, p, max, op);
    assert HistoryOf(rs + [r], ops + [op], p, max, r.sub);
  }

  lemma WriteLives(s: Sub, k: Key, value: Bytes, ttl: nat, now: nat, max: nat)
    requires Lived(s, max) && SubOk(s)
    ensures Lived(SubSet(s, k, value, ttl, now, max).0, max)
  {
    var rs, ops, p :| HistoryOf(rs, ops, p, max, s);
    Performed(rs, ops, p, max, s, EvictionRuns.Write(k, value, ttl, now));
  }

  lemma ReadLives(s: Sub, k: Key, now: nat, max: nat)
    requires Lived(s, max) && SubOk(s)
    ensures Lived(SubGet(s, k, now).0, max)
  {
    var rs, ops, p :| HistoryOf(rs, ops, p, max, s);
    Performed(rs, ops, p, max, s, EvictionRuns.Read(k, now));
  }

  lemma RemoveLives(s: Sub, ks: seq<Key>, max: nat)
    requires Lived(s, max) && SubOk(s)
    ensures Lived(DelAll(s, ks), max)
  {
    var rs, ops, p :| HistoryOf(rs, ops, p, max, s);
    Performed(rs, ops, p, max, s, EvictionRuns.Remove(ks));
  }

  lemma DelLives(s: Sub, k: Key, max: nat)
    requires Lived(s, max) && SubOk(s)
    ensures Lived(SubDel(s, k), max)
  {
    RemoveLives(s, [k], max);
    assert [k][..0] == [];
    assert DelAll(s, [k]) == SubDel(s, k);
  }

  lemma SwapLives(s: Sub, q: Policy, ks: seq<Key>, max: nat)
    requires Lived(s, max) && SubOk(s) && EvictionRuns.Fresh(q) && NoDup(ks) && KeySet(ks) == s.entries.Keys
    ensures Lived(Sub(s.entries, AddAll(q, ks)), max)
  {
    var rs, ops, p :| HistoryOf(rs, ops, p, max, s);
    Performed(rs, ops, p, max, s, EvictionRuns.Swap(q, ks));
  }

  lemma EmptyLives(p: Policy, max: nat)
    requires EvictionRuns.Fresh(p)
    ensures Lived(Sub(map[], p), max)
  {
    assert HistoryOf([EvictionRuns.Start(p)], [], p, max, Sub(map[], p));
  }

  // ---- Tables ----

  ghost predicate TableLived(t: Table) {
    forall n, j | 0 <= n < |t| && 0 <= j < |t[n].subs| :: Lived(t[n].subs[j], t[n].maxSub)
  }

  lemma CellsOk(t: Table, n: nat, j: nat)
    requires TableOk(t) && n < |t| && j < |t[n].subs|
    ensures SubOk(t[n].subs[j])
  {
    assert ShardOk(t[n], n, |t|);
    assert CellOk(t[n].subs[j], n, |t|, j, |t[n].subs|);
  }

  lemma HomeLived(t: Table, k: Key)
    requires TableOk(t) && TableLived(t)
    ensures Lived(SubOf(t, k), t[Home(t, k)].maxSub)
  {
    assert ShardOk(t[Home(t, k)], Home(t, k), |t|);
  }

  lemma ReplaceLives(t: Table, k: Key, s: Sub)
    requires TableOk(t) && TableLived(t) && Lived(s, t[Home(t, k)].maxSub)
    ensures TableLived(Replace(t, k, s))
  {
    var i := Home(t, k);
    assert ShardOk(t[i], i, |t|);
    var t' := Replace(t, k, s);
    forall n, j | 0 <= n < |t'| && 0 <= j < |t'[n].subs| ensures Lived(t'[n].subs[j], t'[n].maxSub) {
      assert n != i ==> t'[n] == t[n];
      assert n == i && j != Room(t[i], k) ==> t'[n].subs[j] == t[n].subs[j];
    }
  }

  lemma TableSetLives(t: Table, k: Key, value: Bytes, ttl: nat, now: nat)
    requires TableOk(t) && TableLived(t)
    ensures TableLived(TableSet(t, k, value, ttl, now).0)
  {
    HomeLived(t, k);
    WriteLives(SubOf(t, k), k, value, ttl, now, t[Home(t, k)].maxSub);
    ReplaceLives(t, k, SubSet(SubOf(t, k), k, value, ttl, now, t[Home(t, k)].maxSub).0);
  }

  lemma TableDelLives(t: Table, k: Key)
    requires TableOk(t) && TableLived(t)
    ensures TableLived(TableDel(t, k))
  {
    HomeLived(t, k);
    DelLives(SubOf(t, k), k, t[Home(t, k)].maxSub);
    ReplaceLives(t, k, SubDel(SubOf(t, k), k));
  }

  lemma TableGetLives(t: Table, k: Key, now: nat)
    requires TableOk(t) && TableLived(t)
    ensures TableLived(TableGet(t, k, now).0)
  {
    HomeLived(t, k);
    ReadLives(SubOf(t, k), k, now, t[Home(t, k)].maxSub);
    ReplaceLives(t, k, SubGet(SubOf(t, k), k, now).0);
  }

  lemma {:induction false} PutAllLives(t: Table, items: seq<Item>, now: nat)
    requires TableOk(t) && TableLived(t)
    ensures TableLived(PutAll(t, items, now))
  {
    if items != [] {
      var most, it := items[..|items| - 1], items[|items| - 1];
      PutAllLives(t, most, now);
      TableSetLives(PutAll(t, most, now), it.key, it.value, it.ttl, now);
    }
  }

  lemma ExtractedLives(t: Table, i: nat, n: nat, now: nat, items: seq<Item>, sh: Shard)
    requires TableOk(t) && TableLived(t) && i < |t| && Extracted(t[i], n, now, items, sh)
    ensures TableLived(t[i := sh])
  {
    var visits :| ExtractedBy(t[i], n, now, visits, items, sh);
    var t' := t[i := sh];
    forall m, j | 0 <= m < |t'| && 0 <= j < |t'[m].subs| ensures Lived(t'[m].subs[j], t'[m].maxSub) {
      if m == i {
        CellsOk(t, i, j);
        assert Lived(t[i].subs[j], t[i].maxSub);
        RemoveLives(t[i].subs[j], visits[j], t[i].maxSub);
      } else {
        assert Lived(t[m].subs[j], t[m].maxSub);
      }
    }
  }

  lemma CleanedLives(t: Table, now: nat, t': Table)
    requires TableOk(t) && TableLived(t) && Cleaned(t, now, t')
    ensures TableLived(t')
  {
    forall n, j | 0 <= n < |t'| && 0 <= j < |t'[n].subs| ensures Lived(t'[n].subs[j], t'[n].maxSub) {
      assert SubCleaned(t[n].subs[j], now, t'[n].subs[j]);
      var ks :| NoDup(ks) && KeySet(ks) == ExpiredKeys(t[n].subs[j], now) && t'[n].subs[j] == DelAll(t[n].subs[j], ks);
      CellsOk(t, n, j);
      assert Lived(t[n].subs[j], t[n].maxSub);
      RemoveLives(t[n].subs[j], ks, t[n].maxSub);
    }
  }

  lemma SwappedLives(t: Table, p: Policy, t': Table)
    requires TableOk(t) && TableLived(t) && Swapped(t, p, t') && EvictionRuns.Fresh(p)
    ensures TableLived(t')
  {
    forall n, j | 0 <= n < |t'| && 0 <= j < |t'[n].subs| ensures Lived(t'[n].subs[j], t'[n].maxSub) {
      var s := t[n].subs[j];
      assert SubSwapped(s, p, t'[n].subs[j]);
      var ks :| NoDup(ks) && KeySet(ks) == s.entries.Keys && t'[n].subs[j] == Sub(s.entries, AddAll(p, ks));
      CellsOk(t, n, j);
      assert Lived(t[n].subs[j], t[n].maxSub);
      SwapLives(s, p, ks, t[n].maxSub);
    }
  }

  lemma NewTableLives(p: Policy, maxSize: nat, count: nat)
    requires EvictionRuns.Fresh(p) && count > 0
    ensures TableLived(NewTable(p, maxSize, count))
  {
    var t := NewTable(p, maxSize, count);
    forall n, j | 0 <= n < |t| && 0 <= j < |t[n].subs| ensures Lived(t[n].subs[j], t[n].maxSub) {
      EmptyLives(p, t[n].maxSub);
    }
  }

  // ---- Runs ----

  ghost predicate StateLived(s: State) {
    !s.closed ==> TableLived(s.table) && (s.rehashing ==> TableLived(s.former))
  }

  lemma StepLives(s: State, now: nat, s': State, completed: bool)
    requires OpenOk(s) && StateLived(s) && !s.closed && Steps(s, now, s', completed)
    ensures StateLived(s')
  {
    if s.rehashing {
      match s.config.rehasher
      case Incremental =>
        var items, sh :| MovesBatch(s, now, items, sh, s', completed);
        PutAllLives(s.table, items, now);
        ExtractedLives(s.former, s.idx, BATCH_SIZE, now, items, sh);
      case Batch =>
        var items :| MovesAll(s, now, items, s', completed);
        PutAllLives(s.table, items, now);
    }
  }

  lemma PreparedLives(s: State, op: Op, now: nat)
    requires OpenOk(s) && StateLived(s) && Drives(s, op)
    ensures StateLived(Prepared(s, op, now))
  {
    match op
    case Set(k, value, ttl) =>
      TableSetLives(s.table, k, value.value, Lifetime(s.config, ttl), now);
      if s.rehashing {
        TableDelLives(s.former, k);
      }
    case Get(k) =>
      TableGetLives(s.table, k, now);
      if s.rehashing {
        TableGetLives(s.former, k, now);
      }
    case Del(k) =>
      TableDelLives(s.table, k);
      if s.rehashing {
        TableDelLives(s.former, k);
      }
  }

  lemma NextLives(s: State, e: Event, s': State)
    requires Takes(s, e, s') && StateLived(s)
    ensures StateLived(s')
  {
    if Drives(s, e.op) {
      PreparedLives(s, e.op, e.now);
      PreparedOk(s, e.op, e.now);
      DrivenIsStep(s, e.op, e.now, e.out, s');
      StepLives(Prepared(s, e.op, e.now), e.now, s', e.out.completed);
    } else {
      OtherLives(s, e, s');
    }
  }

  lemma OtherLives(s: State, e: Event, s': State)
    requires Takes(s, e, s') && StateLived(s) && !Drives(s, e.op)
    ensures StateLived(s')
  {
    if Refusal(s, e.op) == None && !s.closed {
      match e.op
      case Len =>
      case Cleanup =>
        CleanedLives(s.table, e.now, s'.table);
        if s.rehashing {
          CleanedLives(s.former, e.now, s'.former);
        }
      case Resize(count) => NewTableLives(s.policy, s.config.maxSize, count);
      case SwapPolicy(p) =>
        SwappedLives(s.table, p, s'.table);
        if s.rehashing {
          SwappedLives(s.former, p, s'.former);
        }
      case Close =>
    }
  }

  lemma {:induction false} RunLives(states: seq<State>, events: seq<Event>, i: nat)
    requires IsRun(states, events) && i <= |events|
    ensures StateLived(states[i])
  {
    if i == 0 {
      NewTableLives(states[0].policy, states[0].config.maxSize, |states[0].table|);
    } else {
      RunLives(states, events, i - 1);
      assert Takes(states[i - 1], events[i - 1], states[i - 1 + 1]);
      NextLives(states[i - 1], events[i - 1], states[i]);
    }
  }

  // ---- Victims ----

  /**
   * The keys a write to the table evicts are the right ones by the record of every history its
   * sub-shard can have had, and it has had one.
   */
  ghost predicate EvictsVictims(t: Table, k: Key, value: Bytes, ttl: nat, now: nat)
    requires TableOk(t)
  {
    var s, max := SubOf(t, k), t[Home(t, k)].maxSub;
    && Lived(s, max)
    && forall rs: seq<EvictionRuns.Recorded>, ops: seq<EvictionRuns.SubOp>, p :: HistoryOf(rs, ops, p, max, s) ==>
         EvictionRuns.Victims(s.policy, Written(rs[|ops|].uses, k, rs[|ops|].tick), TableSet(t, k, value, ttl, now).1)
  }

  lemma WriteEvictsVictims(t: Table, k: Key, value: Bytes, ttl: nat, now: nat)
    requires TableOk(t) && TableLived(t)
    ensures EvictsVictims(t, k, value, ttl, now)
  {
    var s, max := SubOf(t, k), t[Home(t, k)].maxSub;
    HomeLived(t, k);
    forall rs: seq<EvictionRuns.Recorded>, ops: seq<EvictionRuns.SubOp>, p | HistoryOf(rs, ops, p, max, s)
      ensures EvictionRuns.Victims(s.policy, Written(rs[|ops|].uses, k, rs[|ops|].tick), TableSet(t, k, value, ttl, now).1)
    {
      EvictionRuns.RunKeepsRecord(rs, ops, p, max, |ops|);
      EvictionRuns.PerformKeepsRecord(rs[|ops|], EvictionRuns.Write(k, value, ttl, now), max);
    }
  }

  /** In every run of the cache, whatever a Set evicts is what its sub-shard ought to give up. */
  lemma SetEvictsVictims(states: seq<State>, events: seq<Event>, i: nat)
    requires IsRun(states, events) && i < |events| && events[i].op.Set? && Refusal(states[i], events[i].op) == None
    ensures
      var s, e := states[i], events[i];
      var ttl := Lifetime(s.config, e.op.ttl);
      && TablesOk(s) && e.out.evicted == TableSet(s.table, e.op.key, e.op.value.value, ttl, e.now).1
      && EvictsVictims(s.table, e.op.key, e.op.value.value, ttl, e.now)
  {
    var s, e := states[i], events[i];
    RunOk(states, events, i);
    RunLives(states, events, i);
    assert Takes(states[i], events[i], states[i + 1]);
    WriteEvictsVictims(s.table, e.op.key, e.op.value.value, Lifetime(s.config, e.op.ttl), e.now);
  }

  lemma PutSomeOk(t: Table, items: seq<Item>, now: nat)
    requires TableOk(t) && TableLived(t)
    ensures TableOk(PutAll(t, items, now)) && TableLived(PutAll(t, items, now))
  {
    PutAllLives(t, items, now);
  }

  /** The same for every single write by which the rehash step of an operation moves an entry. */
  lemma MoveEvictsVictims(states: seq<State>, events: seq<Event>, i: nat, items: seq<Item>, m: nat)
    requires IsRun(states, events) && i < |events| && Drives(states[i], events[i].op) && m < |items|
    ensures StateOk(states[i]) && !states[i].closed
    ensures
      var t := PutAll(Prepared(states[i], events[i].op, events[i].now).table, items[..m], events[i].now);
      TableOk(t) && EvictsVictims(t, items[m].key, items[m].value, items[m].ttl, events[i].now)
  {
    var e := events[i];
    RunOk(states, events, i);
    RunLives(states, events, i);
    PreparedLives(states[i], e.op, e.now);
    PreparedOk(states[i], e.op, e.now);
    var s := Prepared(states[i], e.op, e.now);
    PutSomeOk(s.table, items[..m], e.now);
    WriteEvictsVictims(PutAll(s.table, items[..m], e.now), items[m].key, items[m].value, items[m].ttl, e.now);
  }
}
