/** How many entries a size-limited cache can hold, over every run that uses LRU or LFU throughout. */
module CacheCapacity {
  import opened Bytes
  import opened Collections
  import opened Eviction
  import EvictionRuns
  import opened Hashing
  import opened SubShards
  import opened Tables
  import opened Migration
  import opened CacheModel
  import opened CacheInvariant
  import opened CacheCounting
  import opened CacheRefinement
  import opened CacheRuns

  predicate Tight(s: Sub, max: nat) {
    !s.policy.Noop? && |s.entries| <= max
  }

  predicate TightShard(sh: Shard, maxSize: nat) {
    |sh.subs| == EffectiveSubShards(maxSize) && sh.maxSub == SubMax(maxSize)
    && forall j | 0 <= j < |sh.subs| :: Tight(sh.subs[j], sh.maxSub)
  }

  /** Every shard is laid out for its share of the limit, and no sub-shard is over its own. */
  predicate TightTable(t: Table, maxSize: nat) {
    |t| > 0 && forall i | 0 <= i < |t| :: TightShard(t[i], PerShardMax(maxSize, |t|))
  }

  // ---- The bound ----

  lemma {:induction false} CountIsWithin(subs: seq<Sub>, max: nat)
    requires forall j | 0 <= j < |subs| :: |subs[j].entries| <= max
    ensures CountSubs(subs, All) <= |subs| * max
  {
    if subs != [] {
      var n := |subs| - 1;
      CountIsWithin(subs[..n], max);
      assert |subs[n].entries.Keys| == |subs[n].entries|;
      assert (n + 1) * max == n * max + max;
    }
  }

  lemma {:induction false} CountTableIsWithin(t: Table, max: nat)
    requires forall i | 0 <= i < |t| :: CountSubs(t[i].subs, All) <= max
    ensures CountTable(t, All) <= |t| * max
  {
    if t != [] {
      var n := |t| - 1;
      CountTableIsWithin(t[..n], max);
      assert (n + 1) * max == n * max + max;
    }
  }

  /**
   * The shards share the limit of the cache: they stay within it, unless there are more shards than
   * entries, and one entry more in each would not.
   */
  lemma ShareFits(maxSize: nat, count: nat)
    requires maxSize > 0 && count > 0
    ensures count * PerShardMax(maxSize, count) <= if maxSize > count then maxSize else count
    ensures maxSize < count * (PerShardMax(maxSize, count) + 1)
    ensures maxSize < count ==> PerShardMax(maxSize, count) == 1
  {
    assert maxSize == maxSize / count * count + maxSize % count;
    assert count * (maxSize / count + 1) == maxSize / count * count + count;
    if maxSize / count >= 1 {
      assert maxSize / count * count >= count by { Grows(maxSize / count, count); }
    }
  }

  /** The sub-shard limits add up to the limit of the cache, or to one entry a shard if that is more. */
  lemma TightTableFits(t: Table, maxSize: nat)
    requires TightTable(t, maxSize) && maxSize > 0
    ensures CountTable(t, All) <= if maxSize > |t| then maxSize else |t|
  {
    var share := PerShardMax(maxSize, |t|);
    forall i | 0 <= i < |t| ensures CountSubs(t[i].subs, All) <= share {
      assert TightShard(t[i], share);
      forall j | 0 <= j < |t[i].subs| ensures |t[i].subs[j].entries| <= SubMax(share) {
        assert Tight(t[i].subs[j], t[i].maxSub);
      }
      CountIsWithin(t[i].subs, SubMax(share));
      SubMaxFits(share);
    }
    CountTableIsWithin(t, share);
    ShareFits(maxSize, |t|);
  }

  // ---- With as many shards as sub-shards, only one sub-shard of each shard is in use ----

  lemma {:induction false} CountOfOne(subs: seq<Sub>, j: nat)
    requires j < |subs| && forall i | 0 <= i < |subs| && i != j :: subs[i].entries == map[]
    ensures CountSubs(subs, All) == |subs[j].entries|
  {
    var n := |subs| - 1;
    assert |subs[n].entries.Keys| == |subs[n].entries|;
    if j < n {
      CountOfOne(subs[..n], j);
    } else {
      EmptyCount(subs[..n]);
    }
  }

  lemma OneSubInUse(t: Table, i: nat, j: nat, j': nat)
    requires TableOk(t) && i < |t| && |t| % |t[i].subs| == 0 && j < |t[i].subs| && j' < |t[i].subs|
    requires t[i].subs[j].entries != map[] && t[i].subs[j'].entries != map[]
    ensures j == j'
  {
    var a :| a in t[i].subs[j].entries;
    var b :| b in t[i].subs[j'].entries;
    OnlyAtHome(t, i, j, a);
    OnlyAtHome(t, i, j', b);
    SameShardSameSub(a, b, |t|, |t[i].subs|);
  }

  lemma ShardHoldsOneSub(t: Table, i: nat, max: nat)
    requires TableOk(t) && i < |t| && |t[i].subs| > 0 && |t| % |t[i].subs| == 0
    requires forall j | 0 <= j < |t[i].subs| :: |t[i].subs[j].entries| <= max
    ensures CountSubs(t[i].subs, All) <= max
  {
    if j: nat :| j < |t[i].subs| && t[i].subs[j].entries != map[] {
      forall j' | 0 <= j' < |t[i].subs| && j' != j ensures t[i].subs[j'].entries == map[] {
        if t[i].subs[j'].entries != map[] {
          OneSubInUse(t, i, j, j');
        }
      }
      CountOfOne(t[i].subs, j);
    } else {
      EmptyCount(t[i].subs);
    }
  }

  /**
   * When the number of shards is a multiple of the number of sub-shards, the table holds no more
   * than one sub-shard limit per shard: with eight sub-shards, an eighth of what it is sized for.
   */
  lemma BunchedTableFits(t: Table, maxSize: nat)
    requires TableOk(t) && TightTable(t, maxSize) && maxSize > 0
    requires |t| % EffectiveSubShards(PerShardMax(maxSize, |t|)) == 0
    ensures CountTable(t, All) <= |t| * SubMax(PerShardMax(maxSize, |t|))
  {
    var share := PerShardMax(maxSize, |t|);
    forall i | 0 <= i < |t| ensures CountSubs(t[i].subs, All) <= SubMax(share) {
      assert TightShard(t[i], share);
      forall j | 0 <= j < |t[i].subs| ensures |t[i].subs[j].entries| <= SubMax(share) {
        assert Tight(t[i].subs[j], t[i].maxSub);
      }
      ShardHoldsOneSub(t, i, SubMax(share));
    }
    CountTableIsWithin(t, SubMax(share));
  }

  // ---- What keeps a table tight ----

  lemma ReplaceTight(t: Table, k: Key, s: Sub, maxSize: nat)
    requires TableOk(t) && TightTable(t, maxSize) && Tight(s, t[Home(t, k)].maxSub)
    ensures TightTable(Replace(t, k, s), maxSize)
  {
    var i := Home(t, k);
    assert ShardOk(t[i], i, |t|);
    var share := PerShardMax(maxSize, |t|);
    assert TightShard(t[i], share);
    var t' := Replace(t, k, s);
    assert TightShard(t'[i], share);
    forall n | 0 <= n < |t'| ensures TightShard(t'[n], share) {
      assert TightShard(t[n], share);
    }
  }

  lemma SubOfIsTight(t: Table, k: Key, maxSize: nat)
    requires TableOk(t) && TightTable(t, maxSize)
    ensures Tight(SubOf(t, k), t[Home(t, k)].maxSub)
  {
    var i := Home(t, k);
    assert ShardOk(t[i], i, |t|);
    assert TightShard(t[i], PerShardMax(maxSize, |t|));
    assert Tight(t[i].subs[Room(t[i], k)], t[i].maxSub);
  }

  lemma LimitIsPositive(t: Table, i: nat, maxSize: nat)
    requires TightTable(t, maxSize) && maxSize > 0 && i < |t|
    ensures t[i].maxSub > 0
  {
    var share := PerShardMax(maxSize, |t|);
    assert TightShard(t[i], share);
    SubMaxFits(share);
  }

  lemma SetTight(t: Table, k: Key, value: Bytes, ttl: nat, now: nat, maxSize: nat)
    requires TableOk(t) && TightTable(t, maxSize) && maxSize > 0
    ensures TightTable(TableSet(t, k, value, ttl, now).0, maxSize)
  {
    var max := t[Home(t, k)].maxSub;
    SubOfIsTight(t, k, maxSize);
    LimitIsPositive(t, Home(t, k), maxSize);
    SubSetOk(SubOf(t, k), k, value, ttl, now, max);
    ReplaceTight(t, k, SubSet(SubOf(t, k), k, value, ttl, now, max).0, maxSize);
  }

  lemma DelTight(t: Table, k: Key, maxSize: nat)
    requires TableOk(t) && TightTable(t, maxSize)
    ensures TightTable(TableDel(t, k), maxSize)
  {
    SubOfIsTight(t, k, maxSize);
    DelFewer(SubOf(t, k), k);
    ReplaceTight(t, k, SubDel(SubOf(t, k), k), maxSize);
  }

  lemma GetTight(t: Table, k: Key, now: nat, maxSize: nat)
    requires TableOk(t) && TightTable(t, maxSize)
    ensures TightTable(TableGet(t, k, now).0, maxSize)
  {
    SubOfIsTight(t, k, maxSize);
    DelFewer(SubOf(t, k), k);
    ReplaceTight(t, k, SubGet(SubOf(t, k), k, now).0, maxSize);
  }

  lemma DelFewer(s: Sub, k: Key)
    requires SubOk(s)
    ensures |SubDel(s, k).entries| <= |s.entries| && SameKind(SubDel(s, k).policy, s.policy)
  {
    DelOk(s, k);
    if k in s.entries {
      SizeWithout(s.entries, k);
    }
  }

  lemma {:induction false} PutAllTight(t: Table, items: seq<Item>, now: nat, maxSize: nat)
    requires TableOk(t) && TightTable(t, maxSize) && maxSize > 0
    ensures TightTable(PutAll(t, items, now), maxSize)
  {
    if items != [] {
      var most, it := items[..|items| - 1], items[|items| - 1];
      PutAllTight(t, most, now, maxSize);
      SetTight(PutAll(t, most, now), it.key, it.value, it.ttl, now, maxSize);
    }
  }

  lemma StepTight(s: State, now: nat, s': State, completed: bool)
    requires TablesOk(s) && Steps(s, now, s', completed) && TightTable(s.table, s.config.maxSize) && s.config.maxSize > 0
    ensures TightTable(s'.table, s.config.maxSize)
  {
    if s.rehashing {
      match s.config.rehasher
      case Incremental =>
        var items, sh :| MovesBatch(s, now, items, sh, s', completed);
        PutAllTight(s.table, items, now, s.config.maxSize);
      case Batch =>
        var items :| MovesAll(s, now, items, s', completed);
        PutAllTight(s.table, items, now, s.config.maxSize);
    }
  }

  /** Sub-shards that lose keys or only change their policy for another that evicts. */
  lemma CellwiseTight(t: Table, t': Table, maxSize: nat)
    requires TightTable(t, maxSize) && Shrinks(t, t')
    requires forall i, j | 0 <= i < |t'| && 0 <= j < |t'[i].subs| :: !t'[i].subs[j].policy.Noop?
    ensures TightTable(t', maxSize)
  {
    var share := PerShardMax(maxSize, |t|);
    forall i | 0 <= i < |t'| ensures TightShard(t'[i], share) {
      assert TightShard(t[i], share);
      forall j | 0 <= j < |t'[i].subs| ensures Tight(t'[i].subs[j], t'[i].maxSub) {
        assert Tight(t[i].subs[j], t[i].maxSub);
        SubsetSize(t'[i].subs[j].entries.Keys, t[i].subs[j].entries.Keys);
        assert |t'[i].subs[j].entries.Keys| == |t'[i].subs[j].entries|;
        assert |t[i].subs[j].entries.Keys| == |t[i].subs[j].entries|;
      }
    }
  }

  lemma TightEvicts(t: Table, maxSize: nat, i: nat, j: nat)
    requires TightTable(t, maxSize) && i < |t| && j < |t[i].subs|
    ensures !t[i].subs[j].policy.Noop?
  {
    assert TightShard(t[i], PerShardMax(maxSize, |t|));
    assert Tight(t[i].subs[j], t[i].maxSub);
  }

  lemma CleanedTight(t: Table, now: nat, t': Table, maxSize: nat)
    requires TableOk(t) && TightTable(t, maxSize) && Cleaned(t, now, t')
    ensures TightTable(t', maxSize)
  {
    CleanedOk(t, now, t');
    forall i, j | 0 <= i < |t'| && 0 <= j < |t'[i].subs| ensures !t'[i].subs[j].policy.Noop? {
      TightEvicts(t, maxSize, i, j);
      CleanedCell(t, now, t', i, j);
    }
    CellwiseTight(t, t', maxSize);
  }

  lemma SwappedTight(t: Table, p: Policy, t': Table, maxSize: nat)
    requires TableOk(t) && TightTable(t, maxSize) && Swapped(t, p, t') && EvictionRuns.Fresh(p) && !p.Noop?
    ensures TightTable(t', maxSize)
  {
    SwappedOk(t, p, t');
    forall i, j | 0 <= i < |t'| && 0 <= j < |t'[i].subs| ensures !t'[i].subs[j].policy.Noop? {
      SwappedCell(t, p, t', i, j);
    }
    CellwiseTight(t, t', maxSize);
  }

  lemma NewTableTight(p: Policy, maxSize: nat, count: nat)
    requires !p.Noop? && count > 0
    ensures TightTable(NewTable(p, maxSize, count), maxSize)
  {
    var t := NewTable(p, maxSize, count);
    forall i | 0 <= i < |t| ensures TightShard(t[i], PerShardMax(maxSize, count)) {
      assert t[i] == NewShard(p, PerShardMax(maxSize, count));
    }
  }

  // ---- Runs ----

  ghost predicate TightState(s: State) {
    !s.policy.Noop? && s.config.maxSize > 0 && (!s.closed ==> TightTable(s.table, s.config.maxSize))
  }

  lemma NextTight(s: State, op: Op, now: nat, out: Output, s': State)
    requires StateOk(s) && Enabled(op) && Next(s, op, now, out, s') && TightState(s)
    requires op.SwapPolicy? ==> !op.policy.Noop?
    ensures TightState(s')
  {
    if Refusal(s, op) == None && !s.closed {
      var max := s.config.maxSize;
      match op
      case Set(k, value, ttl) =>
        SetTight(s.table, k, value.value, Lifetime(s.config, ttl), now, max);
        StepTight(Insert(s, k, value.value, Lifetime(s.config, ttl), now), now, s', out.completed);
        StepConfig(Insert(s, k, value.value, Lifetime(s.config, ttl), now), now, s', out.completed);
      case Get(k) =>
        GetTight(s.table, k, now, max);
        StepTight(Look(s, k, now).0, now, s', out.completed);
        StepConfig(Look(s, k, now).0, now, s', out.completed);
      case Del(k) =>
        DelTight(s.table, k, max);
        StepTight(Drop(s, k), now, s', out.completed);
        StepConfig(Drop(s, k), now, s', out.completed);
      case Len =>
      case Cleanup => CleanedTight(s.table, now, s'.table, max);
      case Resize(count) => NewTableTight(s.policy, max, count);
      case SwapPolicy(p) => SwappedTight(s.table, p, s'.table, max);
      case Close =>
    }
  }

  lemma StepConfig(s: State, now: nat, s': State, completed: bool)
    requires TablesOk(s) && Steps(s, now, s', completed)
    ensures s'.config == s.config && s'.policy == s.policy
  {
  }

  /** A run that starts with LRU or LFU and a size limit, and is never switched to the no-op policy. */
  ghost predicate AlwaysEvicts(states: seq<State>, events: seq<Event>) {
    && IsRun(states, events) && states[0].config.maxSize > 0 && !states[0].policy.Noop?
    && forall i | 0 <= i < |events| :: events[i].op.SwapPolicy? ==> !events[i].op.policy.Noop?
  }

  lemma {:induction false} RunIsTight(states: seq<State>, events: seq<Event>, i: nat)
    requires AlwaysEvicts(states, events) && i <= |events|
    ensures TightState(states[i]) && states[i].config == states[0].config
  {
    RunOk(states, events, i);
    if i == 0 {
      NewTableTight(states[0].policy, states[0].config.maxSize, |states[0].table|);
    } else {
      RunIsTight(states, events, i - 1);
      assert Takes(states[i - 1], events[i - 1], states[i]);
      NextTight(states[i - 1], events[i - 1].op, events[i - 1].now, events[i - 1].out, states[i]);
    }
  }

  /**
   * In every such run, whenever no rehash is under way, the cache stores at most `maxSize` entries,
   * or one per shard if there are more shards than that; and when the number of shards is a
   * multiple of that of sub-shards, at most one sub-shard limit per shard.
   */
  lemma CapacityIsKept(states: seq<State>, events: seq<Event>, i: nat)
    requires AlwaysEvicts(states, events) && i <= |events| && !states[i].closed && !states[i].rehashing
    ensures
      var s, max := states[i], states[0].config.maxSize;
      && |s.table| > 0
      && Count(s, All) <= (if max > |s.table| then max else |s.table|)
      && (|s.table| % EffectiveSubShards(PerShardMax(max, |s.table|)) == 0 ==>
            Count(s, All) <= |s.table| * SubMax(PerShardMax(max, |s.table|)))
  {
    RunIsTight(states, events, i);
    RunOk(states, events, i);
    var t, max := states[i].table, states[0].config.maxSize;
    TightTableFits(t, max);
    if |t| % EffectiveSubShards(PerShardMax(max, |t|)) == 0 {
      BunchedTableFits(t, max);
    }
  }
}
