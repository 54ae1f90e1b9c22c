/** Counts that must add up: what a Cleanup reports, and how much one step of a rehash moves. */
module CacheSweeping {
  import opened Bytes
  import opened Collections
  import opened Eviction
  import opened SubShards
  import opened Tables
  import opened Migration
  import opened CacheModel
  import opened CacheInvariant
  import opened CacheRefinement
  import opened CacheRuns

  // ---- Cleanup ----

  lemma SubSwept(s: Sub, now: nat, s': Sub)
    requires SubOk(s) && SubCleaned(s, now, s')
    ensures |Pick(s, All)| == |Pick(s, Dead(now))| + |Pick(s', All)|
  {
    var ks :| NoDup(ks) && KeySet(ks) == ExpiredKeys(s, now) && s' == DelAll(s, ks);
    DelAllOk(s, ks);
    KeysSplit(s.entries, ExpiredKeys(s, now));
  }

  lemma KeysSplit(m: map<Key, Entry>, gone: set<Key>)
    requires gone <= m.Keys
    ensures |m.Keys| == |gone| + |(m - gone).Keys|
  {
    assert m.Keys == gone + (m - gone).Keys;
  }

  lemma {:induction false} SubsSwept(subs: seq<Sub>, now: nat, subs': seq<Sub>)
    requires |subs'| == |subs| && forall j | 0 <= j < |subs| :: SubOk(subs[j]) && SubCleaned(subs[j], now, subs'[j])
    ensures CountSubs(subs, All) == CountSubs(subs, Dead(now)) + CountSubs(subs', All)
  {
    if subs != [] {
      var n := |subs| - 1;
      SubsSwept(subs[..n], now, subs'[..n]);
      SubSwept(subs[n], now, subs'[n]);
    }
  }

  lemma {:induction false} ShardsSwept(t: Table, now: nat, t': Table)
    requires |t'| == |t| && forall i | 0 <= i < |t| ::
               CountSubs(t[i].subs, All) == CountSubs(t[i].subs, Dead(now)) + CountSubs(t'[i].subs, All)
    ensures CountTable(t, All) == CountTable(t, Dead(now)) + CountTable(t', All)
  {
    if t != [] {
      var n := |t| - 1;
      ShardsSwept(t[..n], now, t'[..n]);
    }
  }

  lemma TableSwept(t: Table, now: nat, t': Table)
    requires TableOk(t) && Cleaned(t, now, t')
    ensures CountTable(t, All) == CountTable(t, Dead(now)) + CountTable(t', All)
  {
    forall i | 0 <= i < |t|
      ensures CountSubs(t[i].subs, All) == CountSubs(t[i].subs, Dead(now)) + CountSubs(t'[i].subs, All)
    {
      assert ShardOk(t[i], i, |t|);
      forall j | 0 <= j < |t[i].subs| ensures SubOk(t[i].subs[j]) && SubCleaned(t[i].subs[j], now, t'[i].subs[j]) {
        assert CellOk(t[i].subs[j], i, |t|, j, |t[i].subs|);
      }
      SubsSwept(t[i].subs, now, t'[i].subs);
    }
    ShardsSwept(t, now, t');
  }

  lemma StateSwept(s: State, now: nat, s': State)
    requires OpenOk(s) && CleansUp(s, now, s')
    ensures Count(s, All) == Count(s, Dead(now)) + Count(s', All)
  {
    TableSwept(s.table, now, s'.table);
    if s.rehashing {
      TableSwept(s.former, now, s'.former);
    }
  }

  /** In every run, the number a Cleanup reports is the number of stored entries that are gone after it. */
  lemma CleanupReportsWhatIsGone(states: seq<State>, events: seq<Event>, i: nat)
    requires IsRun(states, events) && i < |events| && events[i].op.Cleanup? && !states[i].closed
    ensures
      && events[i].out.reply.Number? && Count(states[i], All) == events[i].out.reply.n + Count(states[i + 1], All)
      && TablesOk(states[i]) && TablesOk(states[i + 1])
      && forall k :: Stored(states[i + 1], k) == LiveAt(Stored(states[i], k), events[i].now)
  {
    RunOk(states, events, i);
    assert Takes(states[i], events[i], states[i + 1]);
    StateSwept(states[i], events[i].now, states[i + 1]);
    CleanUpKeeps(states[i], events[i].now, states[i + 1]);
  }

  // ---- One incremental step ----

  lemma FewKeys(items: seq<Item>, ks: set<Key>)
    requires ks <= ItemKeys(items)
    ensures |ks| <= |items|
  {
    if items == [] {
      assert ks == {};
    } else {
      var n := |items| - 1;
      assert items == items[..n] + [items[n]];
      FewKeys(items[..n], ks - {items[n].key});
      assert ks <= (ks - {items[n].key}) + {items[n].key};
      SubsetSize(ks, (ks - {items[n].key}) + {items[n].key});
    }
  }

  lemma BatchIsSmall(s: State, now: nat, items: seq<Item>, sh: Shard, s': State, completed: bool, ks: set<Key>)
    requires OpenOk(s) && s.rehashing && MovesBatch(s, now, items, sh, s', completed)
    requires forall k | k in ks :: LiveAt(Find(s.former, k), now).Some? && k in ItemKeys(items)
    ensures |ks| <= 16
  {
    var visits :| ExtractedBy(s.former[s.idx], BATCH_SIZE, now, visits, items, sh);
    FewKeys(items, ks);
  }

  lemma TakenOver(s: State, now: nat, items: seq<Item>, sh: Shard, s': State, completed: bool, k: Key)
    requires OpenOk(s) && s.rehashing && MovesBatch(s, now, items, sh, s', completed) && OpenOk(s')
    requires LiveAt(Find(s.former, k), now).Some? && s'.rehashing && Find(s'.former, k) == None
    ensures k in ItemKeys(items)
  {
    BatchMoves(s.former, s.idx, BATCH_SIZE, now, items, sh);
    assert KeyMoved(Find(s.former, k), Find(s.former[s.idx := sh], k), k, now, items);
  }

  /** An incremental step takes at most 16 live entries out of the old table. */
  lemma StepTakesFew(s: State, now: nat, s': State, completed: bool, ks: set<Key>)
    requires OpenOk(s) && s.rehashing && s.config.rehasher == Incremental && Steps(s, now, s', completed)
    requires OpenOk(s') && s'.rehashing
    requires forall k | k in ks :: LiveAt(Find(s.former, k), now).Some? && Find(s'.former, k) == None
    ensures |ks| <= 16
  {
    var items, sh :| MovesBatch(s, now, items, sh, s', completed);
    forall k | k in ks ensures k in ItemKeys(items) {
      TakenOver(s, now, items, sh, s', completed, k);
    }
    BatchIsSmall(s, now, items, sh, s', completed, ks);
  }

  lemma PreparedLoses(s: State, op: Op, now: nat, k: Key)
    requires OpenOk(s) && Drives(s, op) && s.rehashing && k != op.key && LiveAt(Find(s.former, k), now).Some?
    ensures var s1 := Prepared(s, op, now); s1.rehashing && LiveAt(Find(s1.former, k), now).Some?
  {
    if op.Get? {
      TableGetOk(s.former, op.key, now);
    } else {
      TableDelOk(s.former, op.key);
    }
  }

  /**
   * In every run with the incremental rehasher, an operation that finds a rehash under way and leaves it
   * so takes at most 16 live entries out of the old table, not counting the key it is about itself.
   */
  lemma OperationTakesFew(states: seq<State>, events: seq<Event>, i: nat, ks: set<Key>)
    requires IsRun(states, events) && i < |events| && states[0].config.rehasher == Incremental
    requires states[i].rehashing && states[i + 1].rehashing && Drives(states[i], events[i].op)
    requires StateOk(states[i]) && StateOk(states[i + 1]) && !states[i].closed && !states[i + 1].closed
    requires forall k | k in ks ::
               && k != events[i].op.key && LiveAt(Find(states[i].former, k), events[i].now).Some?
               && Find(states[i + 1].former, k) == None
    ensures |ks| <= 16
  {
    var s, e := states[i], events[i];
    RunOk(states, events, i);
    assert Takes(states[i], events[i], states[i + 1]);
    PreparedOk(s, e.op, e.now);
    DrivenIsStep(s, e.op, e.now, e.out, states[i + 1]);
    var s1 := Prepared(s, e.op, e.now);
    forall k | k in ks ensures LiveAt(Find(s1.former, k), e.now).Some? {
      PreparedLoses(s, e.op, e.now, k);
    }
    StepTakesFew(s1, e.now, states[i + 1], e.out.completed, ks);
  }
}
