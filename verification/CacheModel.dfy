/**
 * The cache of cache.go and its two rehashers as a transition relation: one step per operation, at
 * one instant, from one state to the next. The order in which Go iterates over a map is the only
 * freedom a step has.
 */
module CacheModel {
  import opened Bytes
  import opened Collections
  import opened Eviction
  import opened EvictionRuns
  import opened Hashing
  import opened SubShards
  import opened Tables
  import opened Migration

  datatype Rehasher = Incremental | Batch

  const BATCH_SIZE := 16

  datatype Config = Config(maxSize: nat, defaultTTL: nat, rehasher: Rehasher)

  /** `policy` is the empty policy new sub-shards start with; `former` is the table being drained. */
  datatype State = State(config: Config, closed: bool, policy: Policy, table: Table, rehashing: bool, former: Table, idx: nat)

  datatype Error = CacheClosed | KeyEmpty | ValueNil | KeyNotFound | InvalidShards | NegativeTTL | RehashInProgress

  datatype Reply = Done | Value(value: Bytes) | Number(n: nat) | Failed(error: Error)

  /** What a caller and the observer see of an operation. */
  datatype Output = Output(reply: Reply, evicted: seq<Key>, completed: bool)

  datatype Op =
    | Set(key: Key, value: Option<Bytes>, ttl: Option<int>)
    | Get(key: Key)
    | Del(key: Key)
    | Len
    | Cleanup
    | Resize(count: int)
    | SwapPolicy(policy: Policy)
    | Close

  // ---- New tables ----

  function PerShardMax(maxSize: nat, count: nat): nat
    requires count > 0
  {
    if maxSize == 0 then 0 else if maxSize / count < 1 then 1 else maxSize / count
  }

  function NewShard(p: Policy, maxSize: nat): Shard {
    Shard(seq(EffectiveSubShards(maxSize), _ => Sub(map[], p)), SubMax(maxSize))
  }

  function NewTable(p: Policy, maxSize: nat, count: nat): Table
    requires count > 0
  {
    seq(count, _ => NewShard(p, PerShardMax(maxSize, count)))
  }

  function Init(config: Config, p: Policy, count: nat): State
    requires count > 0
  {
    State(config, false, p, NewTable(p, config.maxSize, count), false, [], 0)
  }

  // ---- The rehashers ----

  /** Every live entry of the table, once, in some order. */
  ghost predicate Drains(t: Table, now: nat, items: seq<Item>)
    requires TableOk(t)
  {
    && DistinctKeys(items)
    && (forall it | it in items :: LiveAt(Find(t, it.key), now).Some? && it == ItemOf(it.key, Find(t, it.key).value, now))
    && (forall k :: LiveAt(Find(t, k), now).Some? ==> k in ItemKeys(items))
  }

  /**
   * `ExtractN` always walks eight sub-shards. In a shard that has fewer it comes to a nil slot unless
   * the live entries fill the batch before.
   */
  predicate Extractable(sh: Shard, n: nat, now: nat) {
    |sh.subs| == SUB_SHARDS || CountSubs(sh.subs, Live(now)) >= n
  }

  /** Shards with all eight sub-shards can be drained to the end. */
  predicate Drainable(t: Table) {
    forall i | 0 <= i < |t| :: |t[i].subs| == SUB_SHARDS
  }

  /** One incremental step: a batch from the current old shard, or on to the next one when that is empty. */
  ghost predicate MovesBatch(s: State, now: nat, items: seq<Item>, sh: Shard, s': State, completed: bool)
    requires TableOk(s.table) && s.idx < |s.former|
  {
    && Extractable(s.former[s.idx], BATCH_SIZE, now) && Extracted(s.former[s.idx], BATCH_SIZE, now, items, sh)
    && var s1 := s.(table := PutAll(s.table, items, now), former := s.former[s.idx := sh]);
       if items != [] then s' == s1 && !completed
       else if s.idx + 1 < |s.former| then s' == s1.(idx := s.idx + 1) && !completed
       else s' == s1.(idx := s.idx + 1, rehashing := false, former := []) && completed
  }

  ghost predicate MovesAll(s: State, now: nat, items: seq<Item>, s': State, completed: bool)
    requires TableOk(s.table) && TableOk(s.former)
  {
    && Drainable(s.former) && Drains(s.former, now, items) && completed
    && s' == s.(table := PutAll(s.table, items, now), rehashing := false, former := [])
  }

  ghost predicate Steps(s: State, now: nat, s': State, completed: bool)
    requires TablesOk(s)
  {
    if !s.rehashing then s' == s && !completed
    else match s.config.rehasher
      case Incremental => exists items, sh :: MovesBatch(s, now, items, sh, s', completed)
      case Batch => exists items :: MovesAll(s, now, items, s', completed)
  }

  // ---- Invariant ----

  predicate TablesOk(s: State) {
    TableOk(s.table) && (s.rehashing ==> TableOk(s.former) && s.idx < |s.former|)
  }

  ghost predicate Disjoint(t: Table, u: Table)
    requires TableOk(t) && TableOk(u)
  {
    forall k :: Find(t, k) == None || Find(u, k) == None
  }

  predicate Drained(t: Table, n: nat) {
    forall i | 0 <= i < |t| && i < n :: EmptySubs(t[i].subs)
  }

  ghost predicate OpenOk(s: State) {
    && TablesOk(s)
    && (s.rehashing ==> Drained(s.former, s.idx) && Disjoint(s.table, s.former))
    && (!s.rehashing ==> s.former == [])
  }

  ghost predicate StateOk(s: State) {
    Fresh(s.policy) && if s.closed then !s.rehashing else OpenOk(s)
  }

  // ---- The operations ----

  function Lifetime(config: Config, ttl: Option<int>): nat {
    match ttl
    case None => config.defaultTTL
    case Some(t) => if t > 0 then t else 0
  }

  function Insert(s: State, k: Key, value: Bytes, ttl: nat, now: nat): (s': State)
    requires TablesOk(s)
    ensures TablesOk(s')
  {
    TableSetOk(s.table, k, value, ttl, now);
    if s.rehashing then
      TableDelOk(s.former, k);
      s.(table := TableSet(s.table, k, value, ttl, now).0, former := TableDel(s.former, k))
    else s.(table := TableSet(s.table, k, value, ttl, now).0)
  }

  function Drop(s: State, k: Key): (s': State)
    requires TablesOk(s)
    ensures TablesOk(s')
  {
    TableDelOk(s.table, k);
    if s.rehashing then
      TableDelOk(s.former, k);
      s.(table := TableDel(s.table, k), former := TableDel(s.former, k))
    else s.(table := TableDel(s.table, k))
  }

  /** A read tries the new table and then, during a rehash, the old one. */
  function Look(s: State, k: Key, now: nat): (r: (State, Option<Bytes>))
    requires TablesOk(s)
    ensures TablesOk(r.0)
  {
    TableGetOk(s.table, k, now);
    var (table, value) := TableGet(s.table, k, now);
    if value.Some? || !s.rehashing then (s.(table := table), value)
    else
      TableGetOk(s.former, k, now);
      var (former, value2) := TableGet(s.former, k, now);
      (s.(table := table, former := former), value2)
  }

  function ExpiredKeys(s: Sub, now: nat): set<Key> {
    set k | k in s.entries && Expired(s.entries[k], now)
  }

  ghost predicate SubCleaned(s: Sub, now: nat, s': Sub) {
    exists ks :: NoDup(ks) && KeySet(ks) == ExpiredKeys(s, now) && s' == DelAll(s, ks)
  }

  ghost predicate SubSwapped(s: Sub, p: Policy, s': Sub) {
    exists ks :: NoDup(ks) && KeySet(ks) == s.entries.Keys && s' == Sub(s.entries, AddAll(p, ks))
  }

  predicate SameShape(t: Table, t': Table) {
    |t'| == |t| && forall i | 0 <= i < |t| :: |t'[i].subs| == |t[i].subs| && t'[i].maxSub == t[i].maxSub
  }

  ghost predicate Cleaned(t: Table, now: nat, t': Table) {
    SameShape(t, t') && forall i, j | 0 <= i < |t| && 0 <= j < |t[i].subs| :: SubCleaned(t[i].subs[j], now, t'[i].subs[j])
  }

  ghost predicate Swapped(t: Table, p: Policy, t': Table) {
    SameShape(t, t') && forall i, j | 0 <= i < |t| && 0 <= j < |t[i].subs| :: SubSwapped(t[i].subs[j], p, t'[i].subs[j])
  }

  /** Which of a sub-shard's keys to count. */
  datatype Which = All | Live(now: nat) | Dead(now: nat)

  function Pick(s: Sub, w: Which): set<Key> {
    match w
    case All => s.entries.Keys
    case Live(now) => set k | k in s.entries && !Expired(s.entries[k], now)
    case Dead(now) => ExpiredKeys(s, now)
  }

  function CountSubs(subs: seq<Sub>, w: Which): nat {
    if subs == [] then 0 else CountSubs(subs[..|subs| - 1], w) + |Pick(subs[|subs| - 1], w)|
  }

  function CountTable(t: Table, w: Which): nat {
    if t == [] then 0 else CountTable(t[..|t| - 1], w) + CountSubs(t[|t| - 1].subs, w)
  }

  /** Both tables together, as the loops over the current and the old shards add them up. */
  function Count(s: State, w: Which): nat {
    CountTable(s.table, w) + if s.rehashing then CountTable(s.former, w) else 0
  }

  function Refusal(s: State, op: Op): Option<Error> {
    if s.closed then (if op.Len? || op.Cleanup? then None else Some(CacheClosed))
    else match op
      case Set(k, value, _) => if k == [] then Some(KeyEmpty) else if value == None then Some(ValueNil) else None
      case Get(k) => if k == [] then Some(KeyEmpty) else None
      case Del(k) => if k == [] then Some(KeyEmpty) else None
      case Resize(count) =>
        if !PowerOfTwo(count) then Some(InvalidShards) else if s.rehashing then Some(RehashInProgress) else None
      case _ => None
  }

  /** A policy factory makes empty policies. */
  predicate Enabled(op: Op) {
    op.SwapPolicy? ==> Fresh(op.policy)
  }

  // ---- Where the program panics ----

  /** The operations that carry a rehash one step on. */
  predicate Drives(s: State, op: Op) {
    (op.Set? || op.Get? || op.Del?) && Refusal(s, op) == None
  }

  /** What such an operation has done when its rehash step begins. */
  function Prepared(s: State, op: Op, now: nat): (s': State)
    requires TablesOk(s) && Drives(s, op)
    ensures TablesOk(s')
  {
    match op
    case Set(k, value, ttl) => Insert(s, k, value.value, Lifetime(s.config, ttl), now)
    case Get(k) => Look(s, k, now).0
    case Del(k) => Drop(s, k)
  }

  predicate StepPanics(s: State, now: nat)
    requires TablesOk(s)
  {
    s.rehashing &&
    match s.config.rehasher
    case Incremental => !Extractable(s.former[s.idx], BATCH_SIZE, now)
    case Batch => !Drainable(s.former)
  }

  /** The operation does not return: its rehash step dereferences a nil slot. */
  predicate Panics(s: State, op: Op, now: nat)
    requires !s.closed ==> TablesOk(s)
  {
    Drives(s, op) && StepPanics(Prepared(s, op, now), now)
  }

  function StartRehash(s: State, count: nat): State
    requires count > 0
  {
    s.(table := NewTable(s.policy, s.config.maxSize, count), rehashing := true, former := s.table, idx := 0)
  }

  ghost predicate CleansUp(s: State, now: nat, s': State) {
    && Cleaned(s.table, now, s'.table)
    && (if s.rehashing then Cleaned(s.former, now, s'.former) else s'.former == s.former)
    && s' == s.(table := s'.table, former := s'.former)
  }

  ghost predicate Swaps(s: State, p: Policy, s': State) {
    && Swapped(s.table, p, s'.table)
    && (if s.rehashing then Swapped(s.former, p, s'.former) else s'.former == s.former)
    && s' == s.(policy := p, table := s'.table, former := s'.former)
  }

  /** One operation that returns. */
  ghost predicate Next(s: State, op: Op, now: nat, out: Output, s': State)
    requires StateOk(s)
  {
    if Refusal(s, op).Some? then s' == s && out == Output(Failed(Refusal(s, op).value), [], false)
    else match op
      case Set(k, value, ttl) =>
        var d := Lifetime(s.config, ttl);
        && Steps(Insert(s, k, value.value, d, now), now, s', out.completed)
        && out.reply == Done && out.evicted == TableSet(s.table, k, value.value, d, now).1
      case Get(k) =>
        var (s1, found) := Look(s, k, now);
        && Steps(s1, now, s', out.completed)
        && out.reply == (if found.Some? then Value(found.value) else Failed(KeyNotFound)) && out.evicted == []
      case Del(k) =>
        Steps(Drop(s, k), now, s', out.completed) && out.reply == Done && out.evicted == []
      case Len =>
        s' == s && out == Output(Number(if s.closed then 0 else Count(s, Live(now))), [], false)
      case Cleanup =>
        if s.closed then s' == s && out == Output(Number(0), [], false)
        else CleansUp(s, now, s') && out == Output(Number(Count(s, Dead(now))), [], false)
      case Resize(count) =>
        s' == StartRehash(s, count) && out == Output(Done, [], false)
      case SwapPolicy(p) =>
        Swaps(s, p, s') && out == Output(Done, [], false)
      case Close =>
        s' == s.(closed := true, table := [], rehashing := false, former := [], idx := 0) && out == Output(Done, [], false)
  }
}
