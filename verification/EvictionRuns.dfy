/**
 * Whole runs of one sub-shard, next to a plain record of writes. In every run the policy tracks the
 * resident keys and every key it gives up is the one the record says it should be.
 */
module EvictionRuns {
  import opened Bytes
  import opened Collections
  import opened Eviction
  import opened EvictionOrder
  import opened SubShards

  /** `uses` records the writes of the resident keys since the last policy swap; `tick` counts writes. */
  datatype Recorded = Recorded(sub: Sub, uses: Uses, tick: nat)

  /** `Remove` is Del of one key, cleanup of the expired ones, or the keys an extraction visits. */
  datatype SubOp =
    | Write(key: Key, value: Bytes, ttl: nat, now: nat)
    | Read(key: Key, now: nat)
    | Remove(keys: seq<Key>)
    | Swap(policy: Policy, order: seq<Key>)

  predicate Fresh(p: Policy) {
    p == Noop || p == Lru([]) || p == Lfu(Frequencies(map[], map[], 0))
  }

  predicate CanPerform(r: Recorded, op: SubOp) {
    op.Swap? ==> Fresh(op.policy) && NoDup(op.order) && KeySet(op.order) == r.sub.entries.Keys
  }

  function WriteAll(uses: Uses, ks: seq<Key>, tick: nat): Uses {
    if ks == [] then uses
    else Written(WriteAll(uses, ks[..|ks| - 1], tick), ks[|ks| - 1], tick + |ks| - 1)
  }

  function Perform(r: Recorded, op: SubOp, max: nat): (Recorded, seq<Key>)
    requires SubOk(r.sub)
  {
    match op
    case Write(k, value, ttl, now) =>
      var (sub, evicted) := SubSet(r.sub, k, value, ttl, now, max);
      (Recorded(sub, Written(r.uses, k, r.tick) - KeySet(evicted), r.tick + 1), evicted)
    case Read(k, now) =>
      var gone := if k in r.sub.entries && Expired(r.sub.entries[k], now) then {k} else {};
      (Recorded(SubGet(r.sub, k, now).0, r.uses - gone, r.tick), [])
    case Remove(ks) =>
      (Recorded(DelAll(r.sub, ks), r.uses - KeySet(ks), r.tick), [])
    case Swap(p, order) =>
      (Recorded(Sub(r.sub.entries, AddAll(p, order)), WriteAll(map[], order, r.tick), r.tick + |order|), [])
  }

  ghost predicate RecordOk(r: Recorded) {
    SubOk(r.sub) && r.uses.Keys == r.sub.entries.Keys && Ranks(r.sub.policy, r.uses) && Before(r.uses, r.tick)
  }

  /** Each key in turn is the right one to evict among those left. */
  ghost predicate Victims(p: Policy, uses: Uses, ks: seq<Key>) {
    ks == [] || (IsVictim(p, uses, ks[0]) && Victims(p, uses - {ks[0]}, ks[1..]))
  }

  // ---- Evictions ----

  lemma VictimOfKind(p: Policy, q: Policy, uses: Uses, k: Key)
    requires SameKind(p, q)
    ensures IsVictim(p, uses, k) <==> IsVictim(q, uses, k)
  {
  }

  lemma {:induction false} VictimsOfKind(p: Policy, q: Policy, uses: Uses, ks: seq<Key>)
    requires SameKind(p, q) && Victims(p, uses, ks)
    ensures Victims(q, uses, ks)
  {
    if ks != [] {
      VictimOfKind(p, q, uses, ks[0]);
      VictimsOfKind(p, q, uses - {ks[0]}, ks[1..]);
    }
  }

  lemma EvictSameKind(p: Policy)
    ensures SameKind(Evict(p).0, p)
  {
  }

  lemma RemoveFromUses(uses: Uses, k: Key, ks: seq<Key>)
    ensures uses - {k} - KeySet(ks) == uses - KeySet([k] + ks)
  {
    assert KeySet([k] + ks) == {k} + KeySet(ks);
  }

  lemma VictimsCons(p: Policy, q: Policy, uses: Uses, k: Key, ks: seq<Key>)
    requires SameKind(p, q) && IsVictim(q, uses, k) && Victims(p, uses - {k}, ks)
    ensures Victims(q, uses, [k] + ks)
  {
    VictimsOfKind(p, q, uses - {k}, ks);
    assert ([k] + ks)[1..] == ks;
  }

  ghost predicate Ready(s: Sub, uses: Uses) {
    SubOk(s) && uses.Keys == s.entries.Keys && Ranks(s.policy, uses) && MinExact(s.policy)
  }

  lemma OneEviction(s: Sub, uses: Uses)
    requires Ready(s, uses) && Evict(s.policy).1.Some?
    ensures
      var (p, k) := (Evict(s.policy).0, Evict(s.policy).1.value);
      && k in s.entries && |s.entries - {k}| < |s.entries|
      && IsVictim(s.policy, uses, k) && SameKind(p, s.policy) && Ready(Sub(s.entries - {k}, p), uses - {k})
  {
    EvictOneOk(s);
    assert Evict(s.policy).1.value in uses.Keys;
    EvictsVictim(s.policy, uses);
    EvictKeepsMinExact(s.policy);
    EvictSameKind(s.policy);
    assert (uses - {Evict(s.policy).1.value}).Keys == (s.entries - {Evict(s.policy).1.value}).Keys;
  }

  lemma {:induction false} ShrinkEvictsVictims(s: Sub, uses: Uses, max: nat)
    requires Ready(s, uses)
    ensures Ranks(Shrink(s, max).0.policy, uses - KeySet(Shrink(s, max).1))
    ensures Victims(s.policy, uses, Shrink(s, max).1)
    decreases |s.entries|
  {
    if max > 0 && |s.entries| > max && Evict(s.policy).1.Some? {
      var p, k := Evict(s.policy).0, Evict(s.policy).1.value;
      OneEviction(s, uses);
      var s1 := Sub(s.entries - {k}, p);
      ShrinkEvictsVictims(s1, uses - {k}, max);
      var ks := Shrink(s1, max).1;
      assert Shrink(s, max) == (Shrink(s1, max).0, [k] + ks);
      VictimsCons(p, s.policy, uses, k, ks);
      RemoveFromUses(uses, k, ks);
    } else {
      assert uses - KeySet([]) == uses;
    }
  }

  // ---- The record stays in step ----

  lemma WriteKeepsKeys(r: Recorded, k: Key, e: Entry)
    requires r.uses.Keys == r.sub.entries.Keys
    ensures Written(r.uses, k, r.tick).Keys == r.sub.entries[k := e].Keys
    ensures k in r.uses <==> k in r.sub.entries
  {
    assert k in r.uses.Keys <==> k in r.sub.entries.Keys;
  }

  lemma BeforeWritten(uses: Uses, k: Key, tick: nat, gone: set<Key>)
    requires Before(uses, tick)
    ensures Before(Written(uses, k, tick) - gone, tick + 1)
  {
  }

  lemma WriteKeepsRecord(r: Recorded, k: Key, value: Bytes, ttl: nat, now: nat, max: nat)
    requires RecordOk(r)
    ensures
      var (r', evicted) := Perform(r, Write(k, value, ttl, now), max);
      RecordOk(r') && Victims(r.sub.policy, Written(r.uses, k, r.tick), evicted)
  {
    var e := NewEntry(value, ttl, now);
    var uses := Written(r.uses, k, r.tick);
    var (sub, evicted) := SubSet(r.sub, k, value, ttl, now, max);
    SubSetOk(r.sub, k, value, ttl, now, max);
    WriteKeepsKeys(r, k, e);
    BeforeWritten(r.uses, k, r.tick, KeySet(evicted));
    assert (uses - KeySet(evicted)).Keys == sub.entries.Keys;
    SetRanks(r, k, e, max);
  }

  lemma SetRanks(r: Recorded, k: Key, e: Entry, max: nat)
    requires RecordOk(r) && (k in r.uses <==> k in r.sub.entries)
    requires Written(r.uses, k, r.tick).Keys == r.sub.entries[k := e].Keys
    ensures SubOk(Sub(r.sub.entries[k := e], OnAdd(r.sub.policy, k)))
    ensures
      var uses := Written(r.uses, k, r.tick);
      var (s', ks) := if k in r.sub.entries then (Sub(r.sub.entries[k := e], OnAccess(r.sub.policy, k)), [])
                      else Shrink(Sub(r.sub.entries[k := e], OnAdd(r.sub.policy, k)), max);
      Ranks(s'.policy, uses - KeySet(ks)) && Victims(r.sub.policy, uses, ks)
  {
    AddOk(r.sub, k, e);
    var uses := Written(r.uses, k, r.tick);
    WriteKeepsRanks(r.sub.policy, r.uses, k, r.tick);
    assert uses - KeySet([]) == uses;
    if k !in r.sub.entries {
      var p := OnAdd(r.sub.policy, k);
      if !r.sub.policy.Noop? {
        AddMakesMinExact(r.sub.policy, k);
      }
      ShrinkEvictsVictims(Sub(r.sub.entries[k := e], p), uses, max);
      VictimsOfKind(p, r.sub.policy, uses, Shrink(Sub(r.sub.entries[k := e], p), max).1);
    }
  }

  lemma DelKeepsRecord(s: Sub, uses: Uses, k: Key)
    requires SubOk(s) && uses.Keys == s.entries.Keys && Ranks(s.policy, uses)
    ensures Ranks(SubDel(s, k).policy, uses - {k})
  {
    assert k in uses.Keys <==> k in s.entries.Keys;
    if k in s.entries {
      RemoveKeepsRanks(s.policy, uses, k);
    } else {
      assert uses - {k} == uses;
    }
  }

  lemma {:induction false} DelAllKeepsRecord(s: Sub, uses: Uses, ks: seq<Key>)
    requires SubOk(s) && uses.Keys == s.entries.Keys && Ranks(s.policy, uses)
    ensures Ranks(DelAll(s, ks).policy, uses - KeySet(ks))
  {
    if ks == [] {
      assert uses - KeySet([]) == uses;
    } else {
      var most, k := ks[..|ks| - 1], ks[|ks| - 1];
      DelAllKeepsRecord(s, uses, most);
      DelAllOk(s, most);
      assert (uses - KeySet(most)).Keys == DelAll(s, most).entries.Keys;
      DelKeepsRecord(DelAll(s, most), uses - KeySet(most), k);
      assert ks == most + [k];
      assert uses - KeySet(most) - {k} == uses - KeySet(ks);
    }
  }

  ghost predicate InStep(p: Policy, uses: Uses, ks: seq<Key>, tick: nat) {
    PolicyOk(p) && uses.Keys == KeySet(ks) && Before(uses, tick) && Ranks(p, uses)
  }

  lemma SwapStep(p: Policy, uses: Uses, most: seq<Key>, k: Key, tick: nat)
    requires InStep(p, uses, most, tick) && k !in most
    ensures InStep(OnAdd(p, k), Written(uses, k, tick), most + [k], tick + 1)
  {
    SwapKeys(uses, most, k, tick);
    OnAddOk(p, k);
    WriteKeepsRanks(p, uses, k, tick);
  }

  lemma SwapKeys(uses: Uses, most: seq<Key>, k: Key, tick: nat)
    requires uses.Keys == KeySet(most) && Before(uses, tick) && k !in most
    ensures k !in uses && Before(Written(uses, k, tick), tick + 1) && Written(uses, k, tick).Keys == KeySet(most + [k])
  {
    assert k !in uses.Keys;
    assert KeySet(most + [k]) == KeySet(most) + {k};
  }

  lemma FreshInStep(p: Policy, tick: nat)
    requires Fresh(p)
    ensures InStep(p, map[], [], tick)
  {
  }

  lemma {:induction false} SwapKeepsRecord(p: Policy, ks: seq<Key>, tick: nat)
    requires Fresh(p) && NoDup(ks)
    ensures InStep(AddAll(p, ks), WriteAll(map[], ks, tick), ks, tick + |ks|)
  {
    if ks == [] {
      FreshInStep(p, tick);
    } else {
      var most, k := ks[..|ks| - 1], ks[|ks| - 1];
      var p1, uses1, tick1 := AddAll(p, most), WriteAll(map[], most, tick), tick + |ks| - 1;
      assert InStep(p1, uses1, most, tick1) by {
        SwapKeepsRecord(p, most, tick);
        assert tick + |most| == tick1;
      }
      assert ks == most + [k] && tick1 + 1 == tick + |ks|;
      assert AddAll(p, ks) == OnAdd(p1, k) && WriteAll(map[], ks, tick) == Written(uses1, k, tick1);
      SwapStep(p1, uses1, most, k, tick1);
    }
  }

  /** Every operation keeps policy, entries and record in step, and a write evicts the right keys. */
  lemma PerformKeepsRecord(r: Recorded, op: SubOp, max: nat)
    requires RecordOk(r) && CanPerform(r, op)
    ensures RecordOk(Perform(r, op, max).0)
    ensures op.Write? ==> Victims(r.sub.policy, Written(r.uses, op.key, r.tick), Perform(r, op, max).1)
  {
    match op
    case Write(k, value, ttl, now) =>
      WriteKeepsRecord(r, k, value, ttl, now, max);
    case Read(k, now) =>
      DelOk(r.sub, k);
      DelKeepsRecord(r.sub, r.uses, k);
      assert r.uses - {} == r.uses;
      assert (r.uses - {k}).Keys == (r.sub.entries - {k}).Keys;
    case Remove(ks) =>
      DelAllOk(r.sub, ks);
      DelAllKeepsRecord(r.sub, r.uses, ks);
      assert (r.uses - KeySet(ks)).Keys == DelAll(r.sub, ks).entries.Keys;
    case Swap(p, order) =>
      SwapKeepsRecord(p, order, r.tick);
      AddAllOk(p, order);
  }

  // ---- Runs ----

  function Start(p: Policy): Recorded {
    Recorded(Sub(map[], p), map[], 0)
  }

  /** That a sub-shard is well formed excludes nothing: every state of a run is, see `RunKeepsRecord`. */
  ghost predicate IsRun(rs: seq<Recorded>, ops: seq<SubOp>, p: Policy, max: nat) {
    |rs| == |ops| + 1 && Fresh(p) && rs[0] == Start(p)
    && forall i | 0 <= i < |ops| :: SubOk(rs[i].sub) && CanPerform(rs[i], ops[i]) && rs[i + 1] == Perform(rs[i], ops[i], max).0
  }

  lemma RunGoesOn(rs: seq<Recorded>, ops: seq<SubOp>, p: Policy, max: nat, op: SubOp)
    requires IsRun(rs, ops, p, max) && SubOk(rs[|ops|].sub) && CanPerform(rs[|ops|], op)
    ensures IsRun(rs + [Perform(rs[|ops|], op, max).0], ops + [op], p, max)
  {
    var rs', ops' := rs + [Perform(rs[|ops|], op, max).0], ops + [op];
    forall i | 0 <= i < |ops'|
      ensures SubOk(rs'[i].sub) && CanPerform(rs'[i], ops'[i]) && rs'[i + 1] == Perform(rs'[i], ops'[i], max).0
    {
      if i < |ops| {
        assert ops'[i] == ops[i] && rs'[i] == rs[i] && rs'[i + 1] == rs[i + 1];
      }
    }
  }

  lemma {:induction false} RunKeepsRecord(rs: seq<Recorded>, ops: seq<SubOp>, p: Policy, max: nat, i: nat)
    requires IsRun(rs, ops, p, max) && i <= |ops|
    ensures RecordOk(rs[i])
  {
    if i == 0 {
      FreshInStep(p, 0);
    } else {
      RunKeepsRecord(rs, ops, p, max, i - 1);
      PerformKeepsRecord(rs[i - 1], ops[i - 1], max);
    }
  }

  /** In every run the policy tracks exactly the resident keys. */
  lemma TrackedAreResident(rs: seq<Recorded>, ops: seq<SubOp>, p: Policy, max: nat, i: nat)
    requires IsRun(rs, ops, p, max) && i <= |ops| && !rs[i].sub.policy.Noop?
    ensures Tracked(rs[i].sub.policy) == rs[i].sub.entries.Keys == rs[i].uses.Keys
  {
    RunKeepsRecord(rs, ops, p, max, i);
  }

  /**
   * In every run each key a write evicts is, when it goes, the least recently written resident key
   * under LRU, and under LFU the oldest of those written least often since they came in.
   */
  lemma RunEvictsVictims(rs: seq<Recorded>, ops: seq<SubOp>, p: Policy, max: nat, i: nat)
    requires IsRun(rs, ops, p, max) && i < |ops| && ops[i].Write?
    ensures Victims(rs[i].sub.policy, Written(rs[i].uses, ops[i].key, rs[i].tick), Perform(rs[i], ops[i], max).1)
  {
    RunKeepsRecord(rs, ops, p, max, i);
    PerformKeepsRecord(rs[i], ops[i], max);
  }

  /** A full sub-shard under LFU gives up the very key being added exactly when all others were written again. */
  lemma NewKeyIsEvictedIff(r: Recorded, k: Key, value: Bytes, ttl: nat, now: nat, max: nat)
    requires RecordOk(r) && !r.sub.policy.Noop? && k !in r.sub.entries && 0 < max == |r.sub.entries|
    ensures
      var evicted := Perform(r, Write(k, value, ttl, now), max).1;
      && |evicted| == 1
      && (evicted[0] == k <==> r.sub.policy.Lfu? && forall x | x in r.uses :: r.uses[x].count >= 2)
  {
    WriteKeepsRecord(r, k, value, ttl, now, max);
    OneIsEvicted(r.sub, k, value, ttl, now, max);
    if r.sub.policy.Lfu? {
      CountsArePositive(r);
    }
    assert r.uses.Keys != {} && k !in r.uses.Keys;
    NewKeyIsVictimIff(r.sub.policy, r.uses, k, r.tick, Perform(r, Write(k, value, ttl, now), max).1[0]);
  }

  lemma OneIsEvicted(s: Sub, k: Key, value: Bytes, ttl: nat, now: nat, max: nat)
    requires SubOk(s) && !s.policy.Noop? && k !in s.entries && 0 < max == |s.entries|
    ensures |SubSet(s, k, value, ttl, now, max).1| == 1 && s.entries.Keys != {}
  {
    var e := NewEntry(value, ttl, now);
    SizeWith(s.entries, k, e);
    AddOk(s, k, e);
    ShrinkOk(Sub(s.entries[k := e], OnAdd(s.policy, k)), max);
    assert |s.entries.Keys| == |s.entries|;
  }

  lemma NewKeyIsVictimIff(p: Policy, uses: Uses, k: Key, tick: nat, victim: Key)
    requires k !in uses && uses.Keys != {} && Before(uses, tick) && IsVictim(p, Written(uses, k, tick), victim)
    requires p.Lfu? ==> forall x | x in uses :: uses[x].count >= 1
    ensures victim == k <==> p.Lfu? && forall x | x in uses :: uses[x].count >= 2
  {
    var uses' := Written(uses, k, tick);
    assert forall x | x in uses :: x in uses' && uses'[x] == uses[x];
    var y :| y in uses.Keys;
    assert y in uses'.Keys && k in uses'.Keys && uses'[k] == Use(1, tick);
    assert victim in uses'.Keys && (victim == k || victim in uses);
  }

  lemma CountsArePositive(r: Recorded)
    requires RecordOk(r) && r.sub.policy.Lfu?
    ensures forall x | x in r.uses :: r.uses[x].count >= 1
  {
    var l := r.sub.policy.lfu;
    forall x | x in r.uses ensures r.uses[x].count >= 1 {
      assert x in l.items.Keys;
      assert ListOk(l, l.items[x], l.freqLists[l.items[x]]);
    }
  }
}
