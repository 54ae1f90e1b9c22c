/**
 * The whole cache against one expiring map. `Ideal` knows nothing of shards, sub-shards, policies or
 * rehashing; every operation of the cache follows it.
 */
module CacheRefinement {
  import opened Bytes
  import opened Eviction
  import opened EvictionRuns
  import opened Hashing
  import opened SubShards
  import opened Tables
  import opened Migration
  import opened CacheModel
  import opened CacheInvariant
  import opened CacheCounting

  // ---- The reference ----

  /** A value and the instant from which it is gone; None stands for never. */
  datatype Held = Held(value: Bytes, until: Option<nat>)

  datatype Ideal = Ideal(entries: map<Key, Held>, closed: bool)

  /** Without a TTL the default applies, and a default of 0 is none; a TTL that is not positive means for ever. */
  function Until(config: Config, ttl: Option<int>, now: nat): Option<nat> {
    match ttl
    case None => if config.defaultTTL == 0 then None else Some(now + config.defaultTTL)
    case Some(t) => if t > 0 then Some(now + t) else None
  }

  predicate Lasting(h: Held, now: nat) {
    h.until == None || now < h.until.value
  }

  function HeldAt(o: Option<Held>, now: nat): Option<Held> {
    if o.Some? && Lasting(o.value, now) then o else None
  }

  function IdealGet(m: Ideal, k: Key, now: nat): Option<Held> {
    if k in m.entries then HeldAt(Some(m.entries[k]), now) else None
  }

  function IdealKeys(m: Ideal, now: nat): set<Key> {
    set k | k in m.entries && Lasting(m.entries[k], now)
  }

  /** An entry of the cache as the map holds it. */
  function AsHeld(o: Option<Entry>): Option<Held> {
    match o
    case None => None
    case Some(e) => Some(Held(e.value, if e.expiresAt == 0 then None else Some(e.expiresAt)))
  }

  /** What the cache shows of a key. */
  ghost function Shown(s: State, k: Key, now: nat): Option<Held>
    requires TablesOk(s)
  {
    AsHeld(LiveAt(Stored(s, k), now))
  }

  ghost predicate HeldOrGone(o: Option<Held>, wanted: Option<Held>) {
    o == None || o == wanted
  }

  function IdealNext(m: Ideal, config: Config, op: Op, now: nat): Ideal {
    if m.closed then m
    else match op
      case Set(k, value, ttl) =>
        if k == [] || value == None then m
        else m.(entries := m.entries[k := Held(value.value, Until(config, ttl, now))])
      case Del(k) => if k == [] then m else m.(entries := m.entries - {k})
      case Close => Ideal(map[], true)
      case _ => m
  }

  /** The replies a caller can predict from the map alone. */
  function IdealReply(m: Ideal, op: Op, now: nat): Reply
    requires op.Set? || op.Get? || op.Del? || op.Len?
  {
    if m.closed then (if op.Len? then Number(0) else Failed(CacheClosed))
    else match op
      case Len => Number(|IdealKeys(m, now)|)
      case Get(k) =>
        if k == [] then Failed(KeyEmpty)
        else if IdealGet(m, k, now).Some? then Value(IdealGet(m, k, now).value.value)
        else Failed(KeyNotFound)
      case Set(k, value, _) => if k == [] then Failed(KeyEmpty) else if value == None then Failed(ValueNil) else Done
      case Del(k) => if k == [] then Failed(KeyEmpty) else Done
  }

  /** The same live entries, now and so at every later instant. */
  ghost predicate Agrees(s: State, m: Ideal, now: nat)
    requires StateOk(s)
  {
    m.closed == s.closed && (!s.closed ==> forall k :: Shown(s, k, now) == IdealGet(m, k, now))
  }

  /** No live entries but those of the map. */
  ghost predicate Below(s: State, m: Ideal, now: nat)
    requires StateOk(s)
  {
    m.closed == s.closed && (!s.closed ==> forall k :: HeldOrGone(Shown(s, k, now), IdealGet(m, k, now)))
  }

  lemma ShownLater(s: State, m: Ideal, k: Key, now: nat, later: nat)
    requires TablesOk(s) && now <= later
    ensures Shown(s, k, now) == IdealGet(m, k, now) ==> Shown(s, k, later) == IdealGet(m, k, later)
    ensures HeldOrGone(Shown(s, k, now), IdealGet(m, k, now)) ==> HeldOrGone(Shown(s, k, later), IdealGet(m, k, later))
  {
  }

  lemma AgreesLater(s: State, m: Ideal, now: nat, later: nat)
    requires StateOk(s) && now <= later
    ensures Agrees(s, m, now) ==> Agrees(s, m, later)
    ensures Below(s, m, now) ==> Below(s, m, later)
  {
    if !s.closed {
      forall k ensures Shown(s, k, now) == IdealGet(m, k, now) ==> Shown(s, k, later) == IdealGet(m, k, later) {
        ShownLater(s, m, k, now, later);
      }
      forall k ensures HeldOrGone(Shown(s, k, now), IdealGet(m, k, now)) ==>
                       HeldOrGone(Shown(s, k, later), IdealGet(m, k, later))
      {
        ShownLater(s, m, k, now, later);
      }
    }
  }

  // ---- Size limits stay as they are ----

  predicate NoLimit(t: Table) {
    forall i | 0 <= i < |t| :: t[i].maxSub == 0
  }

  lemma SetSameShape(t: Table, k: Key, value: Bytes, ttl: nat, now: nat)
    requires TableOk(t)
    ensures SameShape(t, TableSet(t, k, value, ttl, now).0)
  {
    assert ShardOk(t[Home(t, k)], Home(t, k), |t|);
  }

  lemma {:induction false} PutAllSameShape(t: Table, items: seq<Item>, now: nat)
    requires TableOk(t)
    ensures SameShape(t, PutAll(t, items, now))
  {
    if items != [] {
      var most, it := items[..|items| - 1], items[|items| - 1];
      PutAllSameShape(t, most, now);
      SetSameShape(PutAll(t, most, now), it.key, it.value, it.ttl, now);
    }
  }

  lemma StepSameShape(s: State, now: nat, s': State, completed: bool)
    requires OpenOk(s) && Steps(s, now, s', completed)
    ensures SameShape(s.table, s'.table)
  {
    if s.rehashing {
      match s.config.rehasher
      case Incremental =>
        var items, sh :| MovesBatch(s, now, items, sh, s', completed);
        PutAllSameShape(s.table, items, now);
      case Batch =>
        var items :| MovesAll(s, now, items, s', completed);
        PutAllSameShape(s.table, items, now);
    }
  }

  // ---- One operation, one key ----

  /** What an operation should make of the entry of one key. */
  function KeyNext(before: Option<Held>, config: Config, op: Op, now: nat, x: Key): Option<Held> {
    match op
    case Set(k, value, ttl) =>
      if x == k && k != [] && value.Some? then Some(Held(value.value, Until(config, ttl, now))) else before
    case Del(k) => if x == k && k != [] then None else before
    case Close => None
    case _ => before
  }

  lemma IdealKeyNext(m: Ideal, config: Config, op: Op, now: nat, x: Key)
    requires !m.closed
    ensures IdealGet(IdealNext(m, config, op, now), x, now) == HeldAt(KeyNext(IdealGet(m, x, now), config, op, now, x), now)
  {
  }

  /** The key is as it should be, or gone if the table has a size limit. */
  ghost predicate Effect(s: State, op: Op, now: nat, s': State, x: Key)
    requires TablesOk(s) && TablesOk(s')
  {
    var want := HeldAt(KeyNext(Shown(s, x, now), s.config, op, now, x), now);
    var got := Shown(s', x, now);
    HeldOrGone(got, want) && (NoLimit(s.table) ==> got == want)
  }

  lemma NoLimitIsRoomy(t: Table)
    requires NoLimit(t)
    ensures Roomy(t)
  {
  }

  lemma SetIsHeld(before: Option<Entry>, config: Config, k: Key, value: Bytes, ttl: Option<int>, evicted: seq<Key>, now: nat,
                  x: Key, got: Option<Entry>)
    requires k != [] && OrGone(got, LiveAt(SetFind(before, k, NewEntry(value, Lifetime(config, ttl), now), evicted, x), now))
    ensures
      var want := HeldAt(KeyNext(AsHeld(LiveAt(before, now)), config, Set(k, Some(value), ttl), now, x), now);
      && HeldOrGone(AsHeld(got), want)
      && (evicted == [] && got == LiveAt(SetFind(before, k, NewEntry(value, Lifetime(config, ttl), now), evicted, x), now)
          ==> AsHeld(got) == want)
  {
  }

  lemma SetEffect(s: State, k: Key, value: Bytes, ttl: Option<int>, now: nat, s': State, completed: bool, x: Key)
    requires OpenOk(s) && k != [] && Steps(Insert(s, k, value, Lifetime(s.config, ttl), now), now, s', completed)
    requires OpenOk(s') && Kept(Insert(s, k, value, Lifetime(s.config, ttl), now), s', now, x)
    ensures Effect(s, Set(k, Some(value), ttl), now, s', x)
  {
    InsertStores(s, k, value, Lifetime(s.config, ttl), now, x);
    var evicted := TableSet(s.table, k, value, Lifetime(s.config, ttl), now).1;
    if NoLimit(s.table) {
      NoLimitIsRoomy(s.table);
      RoomySet(s.table, k, value, Lifetime(s.config, ttl), now);
    }
    SetIsHeld(Stored(s, x), s.config, k, value, ttl, evicted, now, x, LiveAt(Stored(s', x), now));
  }

  lemma SetEffects(s: State, k: Key, value: Bytes, ttl: Option<int>, now: nat, s': State, completed: bool)
    requires OpenOk(s) && k != [] && Steps(Insert(s, k, value, Lifetime(s.config, ttl), now), now, s', completed)
    ensures OpenOk(s') && SameShape(s.table, s'.table)
    ensures forall x :: Effect(s, Set(k, Some(value), ttl), now, s', x)
  {
    var d := Lifetime(s.config, ttl);
    var s1 := Insert(s, k, value, d, now);
    InsertKeepsOk(s, k, value, d, now);
    StepKeeps(s1, now, s', completed);
    SetSameShape(s.table, k, value, d, now);
    StepSameShape(s1, now, s', completed);
    forall x ensures Effect(s, Set(k, Some(value), ttl), now, s', x) {
      SetEffect(s, k, value, ttl, now, s', completed, x);
    }
  }

  lemma DelEffect(s: State, k: Key, now: nat, s': State, x: Key)
    requires OpenOk(s) && k != [] && OpenOk(s') && Kept(Drop(s, k), s', now, x) && SameShape(s.table, Drop(s, k).table)
    ensures Effect(s, Del(k), now, s', x)
  {
    DropStores(s, k, x);
    if NoLimit(s.table) {
      NoLimitIsRoomy(Drop(s, k).table);
    }
  }

  lemma DelEffects(s: State, k: Key, now: nat, s': State, completed: bool)
    requires OpenOk(s) && k != [] && Steps(Drop(s, k), now, s', completed)
    ensures OpenOk(s') && SameShape(s.table, s'.table)
    ensures forall x :: Effect(s, Del(k), now, s', x)
  {
    DropKeepsOk(s, k);
    StepKeeps(Drop(s, k), now, s', completed);
    DelShrinks(s.table, k);
    StepSameShape(Drop(s, k), now, s', completed);
    forall x ensures Effect(s, Del(k), now, s', x) {
      DelEffect(s, k, now, s', x);
    }
  }

  lemma GetEffect(s: State, k: Key, now: nat, s1: State, s': State, x: Key)
    requires OpenOk(s) && OpenOk(s1) && OpenOk(s') && SameShape(s.table, s1.table) && Kept(s1, s', now, x)
    requires LiveAt(Stored(s1, x), now) == LiveAt(Stored(s, x), now)
    ensures Effect(s, Get(k), now, s', x)
  {
    if NoLimit(s.table) {
      NoLimitIsRoomy(s1.table);
    }
  }

  lemma LookSameShape(s: State, k: Key, now: nat)
    requires OpenOk(s)
    ensures SameShape(s.table, Look(s, k, now).0.table)
  {
    GetShrinks(s.table, k, now);
  }

  lemma GetEffects(s: State, k: Key, now: nat, s': State, completed: bool)
    requires OpenOk(s) && Steps(Look(s, k, now).0, now, s', completed)
    ensures OpenOk(s') && SameShape(s.table, s'.table)
    ensures forall x :: Effect(s, Get(k), now, s', x)
  {
    var s1 := Look(s, k, now).0;
    LookKeepsOk(s, k, now);
    LookSameShape(s, k, now);
    StepKeeps(s1, now, s', completed);
    StepSameShape(s1, now, s', completed);
    forall x ensures Effect(s, Get(k), now, s', x) {
      LookStores(s, k, now, x);
      GetEffect(s, k, now, s1, s', x);
    }
  }

  // ---- One operation ----

  /** Every operation keeps the invariant. */
  lemma NextKeepsOk(s: State, op: Op, now: nat, out: Output, s': State)
    requires StateOk(s) && Enabled(op) && Next(s, op, now, out, s')
    ensures StateOk(s') && s'.config == s.config
    ensures s'.closed <==> s.closed || op.Close?
  {
    if Refusal(s, op) == None && !s.closed {
      match op
      case Set(k, value, ttl) =>
        var s1 := Insert(s, k, value.value, Lifetime(s.config, ttl), now);
        InsertKeepsOk(s, k, value.value, Lifetime(s.config, ttl), now);
        StepKeeps(s1, now, s', out.completed);
      case Get(k) =>
        LookKeepsOk(s, k, now);
        StepKeeps(Look(s, k, now).0, now, s', out.completed);
      case Del(k) =>
        DropKeepsOk(s, k);
        StepKeeps(Drop(s, k), now, s', out.completed);
      case Len =>
      case Cleanup => CleanUpKeeps(s, now, s');
      case Resize(count) => StartRehashKeeps(s, count);
      case SwapPolicy(p) => SwapKeeps(s, p, s');
      case Close =>
    }
  }

  // ---- The shape of the old table ----

  lemma SameShapeTrans(t: Table, t1: Table, t2: Table)
    requires SameShape(t, t1) && SameShape(t1, t2)
    ensures SameShape(t, t2)
  {
  }

  lemma StepKeepsFormer(s: State, now: nat, s': State, completed: bool)
    requires OpenOk(s) && s.rehashing && Steps(s, now, s', completed) && s'.rehashing
    ensures SameShape(s.former, s'.former)
  {
    var items, sh :| MovesBatch(s, now, items, sh, s', completed);
    var visits :| ExtractedBy(s.former[s.idx], BATCH_SIZE, now, visits, items, sh);
  }

  lemma PreparedOk(s: State, op: Op, now: nat)
    requires OpenOk(s) && Drives(s, op)
    ensures
      var s1 := Prepared(s, op, now);
      && OpenOk(s1) && s1.rehashing == s.rehashing && s1.config == s.config && s1.closed == s.closed && s1.idx == s.idx
      && (s.rehashing ==> Shrinks(s.former, s1.former))
  {
    match op
    case Set(k, value, ttl) =>
      InsertKeepsOk(s, k, value.value, Lifetime(s.config, ttl), now);
      if s.rehashing {
        DelShrinks(s.former, k);
      }
    case Get(k) =>
      LookKeepsOk(s, k, now);
      if s.rehashing {
        GetShrinks(s.former, k, now);
        SameShrinks(s.former);
      }
    case Del(k) =>
      DropKeepsOk(s, k);
      if s.rehashing {
        DelShrinks(s.former, k);
      }
  }

  lemma SameShrinks(t: Table)
    ensures Shrinks(t, t)
  {
  }

  lemma DrivenIsStep(s: State, op: Op, now: nat, out: Output, s': State)
    requires StateOk(s) && Drives(s, op) && Next(s, op, now, out, s')
    ensures Steps(Prepared(s, op, now), now, s', out.completed)
  {
  }

  /** While a rehash lasts, the shards of the old table keep their sub-shards. */
  lemma FormerKeepsShape(s: State, op: Op, now: nat, out: Output, s': State)
    requires StateOk(s) && Next(s, op, now, out, s') && s.rehashing && s'.rehashing
    ensures SameShape(s.former, s'.former)
  {
    if Drives(s, op) {
      PreparedOk(s, op, now);
      DrivenIsStep(s, op, now, out, s');
      StepKeepsFormer(Prepared(s, op, now), now, s', out.completed);
      SameShapeTrans(s.former, Prepared(s, op, now).former, s'.former);
    }
  }

  /** Every operation has on every key the effect it has on a plain map. */
  lemma NextEffects(s: State, op: Op, now: nat, out: Output, s': State)
    requires StateOk(s) && !s.closed && !op.Close? && Enabled(op) && Next(s, op, now, out, s') && OpenOk(s')
    ensures forall x :: Effect(s, op, now, s', x)
  {
    if Refusal(s, op) == None {
      match op
      case Set(k, value, ttl) => SetEffects(s, k, value.value, ttl, now, s', out.completed);
      case Get(k) => GetEffects(s, k, now, s', out.completed);
      case Del(k) => DelEffects(s, k, now, s', out.completed);
      case Len =>
      case Cleanup => CleanUpKeeps(s, now, s');
      case Resize(count) => StartRehashKeeps(s, count);
      case SwapPolicy(p) => SwapKeeps(s, p, s');
    }
  }
}
