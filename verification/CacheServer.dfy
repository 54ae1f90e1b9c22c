/** The cache object of cache.go with its rehasher: every method makes a step of the model. */
module CacheServer {
  import opened Bytes
  import opened Eviction
  import EvictionRuns
  import opened Hashing
  import opened SubShards
  import opened Tables
  import opened Migration
  import opened CacheModel
  import opened CacheInvariant
  import opened CacheCounting
  import opened CacheRefinement
  import opened CacheProgress
  import ShardServer

  const DRAIN_SIZE := 1000

  // ---- Shards of a table ----

  lemma ShardIsOk(t: Table, i: nat)
    requires TableOk(t) && i < |t|
    ensures ShardServer.SubsOk(t[i]) && ShardOk(t[i], i, |t|)
  {
    assert ShardOk(t[i], i, |t|);
    forall j | 0 <= j < |t[i].subs| ensures SubOk(t[i].subs[j]) {
      assert CellOk(t[i].subs[j], i, |t|, j, |t[i].subs|);
    }
  }

  method SetIn(t: Table, k: Key, value: Bytes, ttl: nat, now: nat) returns (t': Table, evicted: seq<Key>)
    requires TableOk(t)
    ensures (t', evicted) == TableSet(t, k, value, ttl, now)
  {
    var i := ShardIndex(k, |t| - 1);
    ShardIsOk(t, i);
    var sh, ks := ShardServer.Set(t[i], k, value, ttl, now);
    t', evicted := t[i := sh], ks;
  }

  method GetIn(t: Table, k: Key, now: nat) returns (t': Table, value: Option<Bytes>)
    requires TableOk(t)
    ensures (t', value) == TableGet(t, k, now)
  {
    var i := ShardIndex(k, |t| - 1);
    ShardIsOk(t, i);
    var sh, v := ShardServer.Get(t[i], k, now);
    t', value := t[i := sh], v;
  }

  method DelIn(t: Table, k: Key) returns (t': Table)
    requires TableOk(t)
    ensures t' == TableDel(t, k)
  {
    var i := ShardIndex(k, |t| - 1);
    ShardIsOk(t, i);
    var sh := ShardServer.Del(t[i], k);
    t' := t[i := sh];
  }

  method PutItems(t: Table, items: seq<Item>, now: nat) returns (t': Table)
    requires TableOk(t)
    ensures t' == PutAll(t, items, now)
  {
    t' := t;
    for i := 0 to |items|
      invariant t' == PutAll(t, items[..i], now)
    {
      assert items[..i + 1][..i] == items[..i];
      var evicted;
      t', evicted := SetIn(t', items[i].key, items[i].value, items[i].ttl, now);
    }
    assert items[..|items|] == items;
  }

  method NewTableOf(p: Policy, maxSize: nat, count: nat) returns (t: Table)
    requires count > 0
    ensures t == NewTable(p, maxSize, count)
  {
    var perShardMax := 0;
    if maxSize > 0 {
      perShardMax := maxSize / count;
      if perShardMax < 1 {
        perShardMax := 1;
      }
    }
    t := [];
    for i := 0 to count
      invariant |t| == i && forall n | 0 <= n < i :: t[n] == NewShard(p, perShardMax)
    {
      var sh := ShardServer.NewShardOf(p, perShardMax);
      t := t + [sh];
    }
  }

  lemma CountOneMore(t: Table, i: nat, w: Which)
    requires i < |t|
    ensures CountTable(t[..i + 1], w) == CountTable(t[..i], w) + CountSubs(t[i].subs, w)
  {
    assert t[..i + 1][..i] == t[..i];
  }

  method LenOf(t: Table, now: nat) returns (n: nat)
    ensures n == CountTable(t, Live(now))
  {
    n := 0;
    for i := 0 to |t|
      invariant n == CountTable(t[..i], Live(now))
    {
      var c := ShardServer.Len(t[i], now);
      CountOneMore(t, i, Live(now));
      n := n + c;
    }
    assert t[..|t|] == t;
  }

  lemma AllCleaned(t: Table, now: nat, t': Table)
    requires |t'| == |t| && forall i | 0 <= i < |t| :: ShardServer.ShardCleaned(t[i], now, t'[i])
    ensures Cleaned(t, now, t')
  {
    forall i | 0 <= i < |t|
      ensures |t'[i].subs| == |t[i].subs| && t'[i].maxSub == t[i].maxSub
      ensures forall j | 0 <= j < |t[i].subs| :: SubCleaned(t[i].subs[j], now, t'[i].subs[j])
    {
      assert ShardServer.ShardCleaned(t[i], now, t'[i]);
    }
  }

  lemma AllSwapped(t: Table, p: Policy, t': Table)
    requires |t'| == |t| && forall i | 0 <= i < |t| :: ShardServer.ShardSwapped(t[i], p, t'[i])
    ensures Swapped(t, p, t')
  {
    forall i | 0 <= i < |t|
      ensures |t'[i].subs| == |t[i].subs| && t'[i].maxSub == t[i].maxSub
      ensures forall j | 0 <= j < |t[i].subs| :: SubSwapped(t[i].subs[j], p, t'[i].subs[j])
    {
      assert ShardServer.ShardSwapped(t[i], p, t'[i]);
    }
  }

  method CleanupOf(t: Table, now: nat) returns (t': Table, removed: nat)
    requires forall i | 0 <= i < |t| :: ShardServer.SubsOk(t[i])
    ensures Cleaned(t, now, t') && removed == CountTable(t, Dead(now))
  {
    t', removed := [], 0;
    for i := 0 to |t|
      invariant |t'| == i && removed == CountTable(t[..i], Dead(now))
      invariant forall n | 0 <= n < i :: ShardServer.ShardCleaned(t[n], now, t'[n])
    {
      var sh, c := ShardServer.Cleanup(t[i], now);
      CountOneMore(t, i, Dead(now));
      assert ShardServer.ShardCleaned(t[i], now, sh);
      t' := t' + [sh];
      removed := removed + c;
    }
    assert t[..|t|] == t;
    AllCleaned(t, now, t');
  }

  method SwapPolicyOf(t: Table, p: Policy) returns (t': Table)
    ensures Swapped(t, p, t')
  {
    t' := [];
    for i := 0 to |t|
      invariant |t'| == i && forall n | 0 <= n < i :: ShardServer.ShardSwapped(t[n], p, t'[n])
    {
      var sh := ShardServer.SwapPolicyIn(t[i], p);
      t' := t' + [sh];
    }
    AllSwapped(t, p, t');
  }

  // ---- Draining a whole table ----

  /** The moved items have left the table f0, which is now f. */
  ghost predicate Moved(f0: Table, f: Table, moved: seq<Item>, now: nat)
    requires TableOk(f0) && TableOk(f)
  {
    && DistinctKeys(moved)
    && (forall x :: KeyMoved(Find(f0, x), Find(f, x), x, now, moved))
    && forall it | it in moved :: LiveAt(Find(f0, it.key), now).Some? && it == ItemOf(it.key, Find(f0, it.key).value, now)
  }

  predicate SubCounts(f0: Table, f: Table) {
    |f| == |f0| && forall i | 0 <= i < |f| :: |f[i].subs| == |f0[i].subs|
  }

  /** Of the tables t0 and f0 at the start, the items moved so far have led to t and f. */
  ghost predicate Draining(t0: Table, f0: Table, t: Table, f: Table, moved: seq<Item>, now: nat)
    requires TableOk(t0) && TableOk(f0)
  {
    TableOk(f) && SubCounts(f0, f) && t == PutAll(t0, moved, now) && Moved(f0, f, moved, now)
  }

  lemma PutOneMore(t: Table, items: seq<Item>, it: Item, now: nat)
    requires TableOk(t)
    ensures PutAll(t, items + [it], now) == TableSet(PutAll(t, items, now), it.key, it.value, it.ttl, now).0
  {
    var all := items + [it];
    assert all[..|all| - 1] == items && all[|all| - 1] == it;
  }

  lemma SplitLast(a: seq<Item>, b: seq<Item>)
    ensures b == [] ==> a + b == a
    ensures b != [] ==> b == b[..|b| - 1] + [b[|b| - 1]] && a + b == a + b[..|b| - 1] + [b[|b| - 1]]
  {
  }

  lemma {:induction false} PutAllConcat(t: Table, a: seq<Item>, b: seq<Item>, now: nat)
    requires TableOk(t)
    ensures PutAll(PutAll(t, a, now), b, now) == PutAll(t, a + b, now)
  {
    SplitLast(a, b);
    if b != [] {
      var most, it := b[..|b| - 1], b[|b| - 1];
      PutAllConcat(t, a, most, now);
      PutOneMore(PutAll(t, a, now), most, it, now);
      PutOneMore(t, a + most, it, now);
    }
  }

  lemma MovedTwice(o: Option<Entry>, p: Option<Entry>, q: Option<Entry>, x: Key, now: nat, a: seq<Item>, b: seq<Item>)
    requires KeyMoved(o, p, x, now, a) && KeyMoved(p, q, x, now, b)
    ensures KeyMoved(o, q, x, now, a + b)
  {
    assert ItemKeys(a + b) == ItemKeys(a) + ItemKeys(b);
  }

  lemma AllMovedTwice(f0: Table, f: Table, f': Table, now: nat, a: seq<Item>, b: seq<Item>)
    requires TableOk(f0) && TableOk(f) && TableOk(f')
    requires (forall x :: KeyMoved(Find(f0, x), Find(f, x), x, now, a)) && forall x :: KeyMoved(Find(f, x), Find(f', x), x, now, b)
    ensures forall x :: KeyMoved(Find(f0, x), Find(f', x), x, now, a + b)
  {
    forall x ensures KeyMoved(Find(f0, x), Find(f', x), x, now, a + b) {
      MovedTwice(Find(f0, x), Find(f, x), Find(f', x), x, now, a, b);
    }
  }

  lemma MovedMore(f0: Table, f: Table, moved: seq<Item>, now: nat, items: seq<Item>, f': Table)
    requires TableOk(f0) && TableOk(f) && TableOk(f') && Moved(f0, f, moved, now)
    requires DistinctKeys(items) && forall x :: KeyMoved(Find(f, x), Find(f', x), x, now, items)
    ensures Moved(f0, f', moved + items, now)
  {
    AllMovedTwice(f0, f, f', now, moved, items);
    forall a, b | a in moved && b in items ensures a.key != b.key {
      assert a.key in ItemKeys(moved) && b.key in ItemKeys(items);
    }
    DistinctConcat(moved, items);
    forall it | it in items ensures LiveAt(Find(f0, it.key), now).Some? && it == ItemOf(it.key, Find(f0, it.key).value, now) {
      assert it.key in ItemKeys(items);
      SameKeySameItem(items, it, ItemOf(it.key, Find(f, it.key).value, now));
    }
  }

  lemma DrainOne(t0: Table, f0: Table, t: Table, f: Table, moved: seq<Item>, now: nat, i: nat, items: seq<Item>, sh: Shard)
    requires TableOk(t0) && TableOk(f0) && Draining(t0, f0, t, f, moved, now)
    requires i < |f| && Extracted(f[i], DRAIN_SIZE, now, items, sh)
    ensures Draining(t0, f0, PutAll(t, items, now), f[i := sh], moved + items, now)
  {
    BatchMoves(f, i, DRAIN_SIZE, now, items, sh);
    PutAllConcat(t0, moved, items, now);
    MovedMore(f0, f, moved, now, items, f[i := sh]);
  }

  lemma SameKeySameItem(items: seq<Item>, a: Item, b: Item)
    requires DistinctKeys(items) && a in items && b in items && a.key == b.key
    ensures a == b
  {
    var i :| 0 <= i < |items| && items[i] == a;
    var j :| 0 <= j < |items| && items[j] == b;
  }

  lemma AllDrained(t0: Table, f0: Table, t: Table, f: Table, moved: seq<Item>, now: nat)
    requires TableOk(t0) && TableOk(f0) && Draining(t0, f0, t, f, moved, now) && Drained(f, |f|)
    ensures Drains(f0, now, moved)
  {
    EmptyFindsNothing(f);
    forall k | LiveAt(Find(f0, k), now).Some? ensures k in ItemKeys(moved) {
      assert KeyMoved(Find(f0, k), Find(f, k), k, now, moved);
    }
  }

  /** Takes all there is out of a shard; if that lacks sub-shards, the walk runs into a nil slot in the end. */
  method DrainShard(ghost t0: Table, ghost f0: Table, t: Table, f: Table, ghost moved: seq<Item>, i: nat, now: nat)
    returns (panics: bool, t': Table, f': Table, ghost moved': seq<Item>)
    requires TableOk(t0) && TableOk(f0) && Draining(t0, f0, t, f, moved, now) && Drained(f, i) && i < |f|
    ensures panics <==> |f0[i].subs| < SUB_SHARDS
    ensures !panics ==> Draining(t0, f0, t', f', moved', now) && Drained(f', i + 1)
  {
    t', f', moved' := t, f, moved;
    while true
      invariant Draining(t0, f0, t', f', moved', now) && Drained(f', i)
      decreases CountSubs(f'[i].subs, All)
    {
      ShardIsOk(f', i);
      var sh, items;
      panics, sh, items := ShardServer.ExtractN(f'[i], DRAIN_SIZE, now);
      if panics {
        return;
      }
      DrainOne(t0, f0, t', f', moved', now, i, items, sh);
      DrainedNext(f', i, sh);
      ExtractedFewer(f'[i], i, |f'|, DRAIN_SIZE, now, items, sh);
      BatchMoves(f', i, DRAIN_SIZE, now, items, sh);
      if |f'[i].subs| < SUB_SHARDS {
        ExtractedIsFull(f'[i], i, |f'|, DRAIN_SIZE, now, items, sh);
      }
      f' := f'[i := sh];
      if |items| == 0 {
        moved' := moved' + items;
        return;
      }
      t' := PutItems(t', items, now);
      moved' := moved' + items;
    }
  }

  /** Takes everything out of every shard and puts it into the other table. */
  method DrainTable(table: Table, former: Table, now: nat) returns (panics: bool, t: Table, ghost moved: seq<Item>)
    requires TableOk(table) && TableOk(former)
    ensures panics <==> !Drainable(former)
    ensures !panics ==> t == PutAll(table, moved, now) && Drains(former, now, moved)
  {
    var f := former;
    moved := [];
    t := table;
    panics := false;
    DrainStart(table, former, now);
    for i := 0 to |former|
      invariant Draining(table, former, t, f, moved, now) && Drained(f, i)
      invariant forall n | 0 <= n < i :: |former[n].subs| >= SUB_SHARDS
    {
      panics, t, f, moved := DrainShard(table, former, t, f, moved, i, now);
      if panics {
        return;
      }
    }
    AtMostEight(former);
    AllDrained(table, former, t, f, moved, now);
  }

  // ---- The cache ----

  class Cache {
    const config: Config
    var closed: bool
    var policy: Policy
    var table: Table
    var rehashing: bool
    var former: Table
    var idx: nat

    function State(): State
      reads this
    {
      CacheModel.State(config, closed, policy, table, rehashing, former, idx)
    }

    ghost predicate Valid()
      reads this
    {
      StateOk(State())
    }

    constructor (config: Config, policy: Policy, table: Table)
      ensures State() == CacheModel.State(config, false, policy, table, false, [], 0)
    {
      this.config, this.closed, this.policy, this.table := config, false, policy, table;
      this.rehashing, this.former, this.idx := false, [], 0;
    }

    static method New(shardCount: int, maxSize: int, defaultTTL: int, policy: Policy, rehasher: Rehasher)
      returns (c: Cache?, error: Option<Error>)
      requires EvictionRuns.Fresh(policy)
      ensures error == (if !PowerOfTwo(shardCount) then Some(InvalidShards)
                        else if defaultTTL < 0 then Some(NegativeTTL) else None)
      ensures c == null <==> error.Some?
      ensures c != null ==> fresh(c) && c.Valid() && shardCount > 0 && defaultTTL >= 0
                            && c.State() == Init(Config(if maxSize < 0 then 0 else maxSize, defaultTTL, rehasher), policy, shardCount)
    {
      if !PowerOfTwo(shardCount) {
        return null, Some(InvalidShards);
      }
      var limit := if maxSize < 0 then 0 else maxSize;
      if defaultTTL < 0 {
        return null, Some(NegativeTTL);
      }
      var t := NewTableOf(policy, limit, shardCount);
      NewTableOk(policy, limit, shardCount);
      c := new Cache(Config(limit, defaultTTL, rehasher), policy, t);
      error := None;
    }

    // ---- Rehashing ----

    method StepIncremental(now: nat) returns (panics: bool, completed: bool)
      requires OpenOk(State()) && rehashing && config.rehasher == Incremental
      modifies this
      ensures panics <==> StepPanics(old(State()), now)
      ensures !panics ==> Steps(old(State()), now, State(), completed)
    {
      ShardIsOk(former, idx);
      ghost var before := State();
      var sh, items;
      panics, sh, items := ShardServer.ExtractN(former[idx], BATCH_SIZE, now);
      completed := false;
      if panics {
        return;
      }
      former := former[idx := sh];
      table := PutItems(table, items, now);
      if |items| == 0 {
        idx := idx + 1;
        if idx >= |former| {
          rehashing := false;
          former := [];
          completed := true;
        }
      }
      assert MovesBatch(before, now, items, sh, State(), completed);
    }

    method StepBatch(now: nat) returns (panics: bool, completed: bool)
      requires OpenOk(State()) && rehashing && config.rehasher == Batch
      modifies this
      ensures panics <==> StepPanics(old(State()), now)
      ensures !panics ==> Steps(old(State()), now, State(), completed)
    {
      ghost var before := State();
      var t;
      ghost var moved;
      panics, t, moved := DrainTable(table, former, now);
      completed := false;
      if panics {
        return;
      }
      table := t;
      rehashing := false;
      former := [];
      completed := true;
      assert MovesAll(before, now, moved, State(), completed);
    }

    method Step(now: nat) returns (panics: bool, completed: bool)
      requires OpenOk(State()) && rehashing
      modifies this
      ensures panics <==> StepPanics(old(State()), now)
      ensures !panics ==> Steps(old(State()), now, State(), completed)
    {
      match config.rehasher
      case Incremental => panics, completed := StepIncremental(now);
      case Batch => panics, completed := StepBatch(now);
    }

    // ---- Operations ----

    method Set(key: Key, value: Option<Bytes>, ttl: Option<int>, now: nat) returns (panics: bool, out: Output)
      requires Valid()
      modifies this
      ensures panics <==> Panics(old(State()), Op.Set(key, value, ttl), now)
      ensures !panics ==> Valid() && Next(old(State()), Op.Set(key, value, ttl), now, out, State())
    {
      panics := false;
      if closed {
        return false, Output(Failed(CacheClosed), [], false);
      }
      if key == [] {
        return false, Output(Failed(KeyEmpty), [], false);
      }
      if value == None {
        return false, Output(Failed(ValueNil), [], false);
      }
      ghost var before := State();
      var d: nat := config.defaultTTL;
      if ttl.Some? {
        d := if ttl.value > 0 then ttl.value else 0;
      }
      InsertKeepsOk(before, key, value.value, d, now);
      var evicted;
      table, evicted := SetIn(table, key, value.value, d, now);
      var completed := false;
      if rehashing {
        former := DelIn(former, key);
        panics, completed := Step(now);
      }
      out := Output(Done, evicted, completed);
      if !panics {
        NextKeepsOk(before, Op.Set(key, value, ttl), now, out, State());
      }
    }

    method Get(key: Key, now: nat) returns (panics: bool, out: Output)
      requires Valid()
      modifies this
      ensures panics <==> Panics(old(State()), Op.Get(key), now)
      ensures !panics ==> Valid() && Next(old(State()), Op.Get(key), now, out, State())
    {
      panics := false;
      if closed {
        return false, Output(Failed(CacheClosed), [], false);
      }
      if key == [] {
        return false, Output(Failed(KeyEmpty), [], false);
      }
      ghost var before := State();
      LookKeepsOk(before, key, now);
      var value;
      table, value := GetIn(table, key, now);
      if value.None? && rehashing {
        former, value := GetIn(former, key, now);
      }
      var completed := false;
      if rehashing {
        panics, completed := Step(now);
      }
      out := Output(if value.Some? then Value(value.value) else Failed(KeyNotFound), [], completed);
      if !panics {
        NextKeepsOk(before, Op.Get(key), now, out, State());
      }
    }

    method Del(key: Key, now: nat) returns (panics: bool, out: Output)
      requires Valid()
      modifies this
      ensures panics <==> Panics(old(State()), Op.Del(key), now)
      ensures !panics ==> Valid() && Next(old(State()), Op.Del(key), now, out, State())
    {
      panics := false;
      if closed {
        return false, Output(Failed(CacheClosed), [], false);
      }
      if key == [] {
        return false, Output(Failed(KeyEmpty), [], false);
      }
      ghost var before := State();
      DropKeepsOk(before, key);
      table := DelIn(table, key);
      var completed := false;
      if rehashing {
        former := DelIn(former, key);
        panics, completed := Step(now);
      }
      out := Output(Done, [], completed);
      if !panics {
        NextKeepsOk(before, Op.Del(key), now, out, State());
      }
    }

    method Len(now: nat) returns (out: Output)
      requires Valid()
      ensures Next(State(), Op.Len, now, out, State())
    {
      if closed {
        return Output(Number(0), [], false);
      }
      var total := LenOf(table, now);
      if rehashing {
        var more := LenOf(former, now);
        total := total + more;
      }
      out := Output(Number(total), [], false);
    }

    method Cleanup(now: nat) returns (out: Output)
      requires Valid()
      modifies this
      ensures Valid() && Next(old(State()), Op.Cleanup, now, out, State())
    {
      if closed {
        return Output(Number(0), [], false);
      }
      ghost var before := State();
      AllShardsOk(before);
      var t, total := CleanupOf(table, now);
      var f := former;
      if rehashing {
        var more;
        f, more := CleanupOf(former, now);
        total := total + more;
      }
      CleanUpNext(before, now, t, f, total);
      table, former := t, f;
      out := Output(Number(total), [], false);
    }

    method Resize(shardCount: int, now: nat) returns (out: Output)
      requires Valid()
      modifies this
      ensures Valid() && Next(old(State()), Op.Resize(shardCount), now, out, State())
    {
      if closed {
        return Output(Failed(CacheClosed), [], false);
      }
      if !PowerOfTwo(shardCount) {
        return Output(Failed(InvalidShards), [], false);
      }
      if rehashing {
        return Output(Failed(RehashInProgress), [], false);
      }
      ghost var before := State();
      former, idx, rehashing := table, 0, true;
      table := NewTableOf(policy, config.maxSize, shardCount);
      out := Output(Done, [], false);
      NextKeepsOk(before, Op.Resize(shardCount), now, out, State());
    }

    method SetEvictionPolicy(p: Policy, now: nat) returns (out: Output)
      requires Valid() && EvictionRuns.Fresh(p)
      modifies this
      ensures Valid() && Next(old(State()), Op.SwapPolicy(p), now, out, State())
    {
      if closed {
        return Output(Failed(CacheClosed), [], false);
      }
      ghost var before := State();
      policy := p;
      table := SwapPolicyOf(table, p);
      if rehashing {
        former := SwapPolicyOf(former, p);
      }
      out := Output(Done, [], false);
      NextKeepsOk(before, Op.SwapPolicy(p), now, out, State());
    }

    method Close(now: nat) returns (out: Output)
      requires Valid()
      modifies this
      ensures Valid() && Next(old(State()), Op.Close, now, out, State())
    {
      if closed {
        return Output(Failed(CacheClosed), [], false);
      }
      closed, table, rehashing, former, idx := true, [], false, [], 0;
      out := Output(Done, [], false);
    }

    /**
     * Reads a key until the rehash is over, at whatever times: the reads themselves are what finishes
     * it, and they do unless a shard that is being drained lacks sub-shards.
     */
    method ForceComplete(key: Key, start: nat) returns (panics: bool)
      requires Valid() && key != []
      modifies this
      ensures panics <==> old(Undrainable(State()))
      ensures !panics ==> Valid() && !rehashing && closed == old(closed)
    {
      panics := false;
      var now := start;
      while rehashing
        invariant Valid() && closed == old(closed)
        invariant old(Undrainable(State())) <==> Undrainable(State())
        decreases Work(State())
      {
        ghost var before := State();
        var later: nat :| now <= later;
        now := later;
        var out;
        panics, out := Get(key, now);
        if panics {
          PanicIsUndrainable(before, Op.Get(key), now);
          return;
        }
        UndrainableStays(before, Op.Get(key), now, out, State());
        NextProgress(before, Op.Get(key), now, out, State());
        if !rehashing {
          break;
        }
      }
    }
  }

  lemma AllShardsOk(s: State)
    requires OpenOk(s)
    ensures forall i | 0 <= i < |s.table| :: ShardServer.SubsOk(s.table[i])
    ensures s.rehashing ==> forall i | 0 <= i < |s.former| :: ShardServer.SubsOk(s.former[i])
  {
    forall i | 0 <= i < |s.table| ensures ShardServer.SubsOk(s.table[i]) {
      ShardIsOk(s.table, i);
    }
    if s.rehashing {
      forall i | 0 <= i < |s.former| ensures ShardServer.SubsOk(s.former[i]) {
        ShardIsOk(s.former, i);
      }
    }
  }

  lemma CleanUpNext(s: State, now: nat, t: Table, f: Table, total: nat)
    requires StateOk(s) && !s.closed && Cleaned(s.table, now, t) && total == Count(s, Dead(now))
    requires if s.rehashing then Cleaned(s.former, now, f) else f == s.former
    ensures
      var s' := s.(table := t, former := f);
      StateOk(s') && Next(s, Op.Cleanup, now, Output(Number(total), [], false), s')
  {
    var s' := s.(table := t, former := f);
    assert CleansUp(s, now, s');
    CleanUpKeeps(s, now, s');
  }

  lemma DrainStart(t: Table, f: Table, now: nat)
    requires TableOk(t) && TableOk(f)
    ensures Draining(t, f, t, f, [], now) && Drained(f, 0)
  {
  }

  lemma AtMostEight(t: Table)
    requires TableOk(t) && forall i | 0 <= i < |t| :: |t[i].subs| >= SUB_SHARDS
    ensures Drainable(t)
  {
    forall i | 0 <= i < |t| ensures |t[i].subs| == SUB_SHARDS {
      assert ShardOk(t[i], i, |t|);
    }
  }

  /** Some shard still to be drained lacks sub-shards. */
  predicate Undrainable(s: State) {
    s.rehashing &&
    match s.config.rehasher
    case Incremental => s.idx < |s.former| && exists i :: s.idx <= i < |s.former| && |s.former[i].subs| != SUB_SHARDS
    case Batch => !Drainable(s.former)
  }

  lemma SameUndrainable(s: State, s': State)
    requires SameShape(s.former, s'.former) && s'.rehashing == s.rehashing && s'.idx == s.idx && s'.config == s.config
    ensures Undrainable(s) <==> Undrainable(s')
  {
  }

  lemma PanicIsUndrainable(s: State, op: Op, now: nat)
    requires StateOk(s) && s.rehashing && Panics(s, op, now)
    ensures Undrainable(s)
  {
    PreparedOk(s, op, now);
    SameUndrainable(s, Prepared(s, op, now));
  }

  lemma BatchUndrainable(s: State, now: nat, items: seq<Item>, sh: Shard, s': State, completed: bool)
    requires OpenOk(s) && s.rehashing && s.config.rehasher == Incremental && MovesBatch(s, now, items, sh, s', completed)
    ensures Undrainable(s) <==> Undrainable(s')
  {
    assert ShardOk(s.former[s.idx], s.idx, |s.former|);
    BatchMoves(s.former, s.idx, BATCH_SIZE, now, items, sh);
    if items == [] && |s.former[s.idx].subs| != SUB_SHARDS {
      ExtractedIsFull(s.former[s.idx], s.idx, |s.former|, BATCH_SIZE, now, items, sh);
    }
    var f := s.former[s.idx := sh];
    assert forall i | 0 <= i < |f| :: |f[i].subs| == |s.former[i].subs|;
    if items == [] {
      forall i | s.idx <= i < |f| && |f[i].subs| != SUB_SHARDS ensures s.idx + 1 <= i {
      }
    }
  }

  /** An operation that returns has drained no shard that lacks sub-shards. */
  lemma UndrainableStays(s: State, op: Op, now: nat, out: Output, s': State)
    requires StateOk(s) && s.rehashing && Drives(s, op) && Next(s, op, now, out, s')
    ensures Undrainable(s) <==> Undrainable(s')
  {
    PreparedOk(s, op, now);
    DrivenIsStep(s, op, now, out, s');
    var s1 := Prepared(s, op, now);
    SameUndrainable(s, s1);
    if s.config.rehasher == Incremental {
      var items, sh :| MovesBatch(s1, now, items, sh, s', out.completed);
      BatchUndrainable(s1, now, items, sh, s', out.completed);
    }
  }
}
