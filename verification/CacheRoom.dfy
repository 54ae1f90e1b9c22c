/**
 * The layout of the table in every state of every run, in numbers: how many shards and sub-shards,
 * how many entries each may hold, which policy each obeys; and what that makes of a Set.
 */
module CacheRoom {
  import opened Bytes
  import opened Collections
  import opened Eviction
  import EvictionRuns
  import opened Hashing
  import opened SubShards
  import opened Tables
  import opened Migration
  import opened CacheModel
  import opened CacheInvariant
  import opened CacheRefinement
  import opened CacheRuns

  // ---- The numbers ----

  /** The limit divided by the shards, but one entry at least; 0 is no limit. */
  function Share(limit: nat, shards: nat): (n: nat)
    requires shards > 0
    ensures limit > 0 ==> n > 0
  {
    if 0 < limit < shards then 1 else limit / shards
  }

  /** A sub-shard for every two entries, from one to eight. */
  function Parts(share: nat): (n: nat)
    ensures n > 0 && (share > 0 ==> share / n > 0)
  {
    if share == 0 || share >= 16 then 8 else if share < 4 then 1 else share / 2
  }

  predicate Sized(t: Table, limit: nat) {
    |t| > 0 &&
    var share := Share(limit, |t|);
    forall n | 0 <= n < |t| :: |t[n].subs| == Parts(share) && t[n].maxSub == share / Parts(share)
  }

  predicate Obeys(t: Table, p: Policy) {
    forall n, j | 0 <= n < |t| && 0 <= j < |t[n].subs| :: SameKind(t[n].subs[j].policy, p)
  }

  lemma NewTableSized(p: Policy, limit: nat, shards: nat)
    requires shards > 0
    ensures Sized(NewTable(p, limit, shards), limit) && Obeys(NewTable(p, limit, shards), p)
  {
    var share := PerShardMax(limit, shards);
    assert share == Share(limit, shards);
    assert EffectiveSubShards(share) == Parts(share) && SubMax(share) == share / Parts(share);
  }

  // ---- The policies ----

  lemma ReplaceObeys(t: Table, k: Key, s: Sub, p: Policy)
    requires TableOk(t) && Obeys(t, p) && SameKind(s.policy, SubOf(t, k).policy)
    ensures Obeys(Replace(t, k, s), p)
  {
    var i := Home(t, k);
    assert ShardOk(t[i], i, |t|);
    var t' := Replace(t, k, s);
    forall n, j | 0 <= n < |t'| && 0 <= j < |t'[n].subs| ensures SameKind(t'[n].subs[j].policy, p) {
      assert SameKind(t[n].subs[j].policy, p);
    }
  }

  lemma HomeIsOk(t: Table, k: Key)
    requires TableOk(t)
    ensures SubOk(SubOf(t, k))
  {
    assert ShardOk(t[Home(t, k)], Home(t, k), |t|);
  }

  lemma SetObeys(t: Table, k: Key, value: Bytes, ttl: nat, now: nat, p: Policy)
    requires TableOk(t) && Obeys(t, p)
    ensures Obeys(TableSet(t, k, value, ttl, now).0, p)
  {
    HomeIsOk(t, k);
    SubSetOk(SubOf(t, k), k, value, ttl, now, t[Home(t, k)].maxSub);
    ReplaceObeys(t, k, SubSet(SubOf(t, k), k, value, ttl, now, t[Home(t, k)].maxSub).0, p);
  }

  lemma DelObeys(t: Table, k: Key, p: Policy)
    requires TableOk(t) && Obeys(t, p)
    ensures Obeys(TableDel(t, k), p)
  {
    HomeIsOk(t, k);
    DelOk(SubOf(t, k), k);
    ReplaceObeys(t, k, SubDel(SubOf(t, k), k), p);
  }

  lemma GetObeys(t: Table, k: Key, now: nat, p: Policy)
    requires TableOk(t) && Obeys(t, p)
    ensures Obeys(TableGet(t, k, now).0, p)
  {
    HomeIsOk(t, k);
    DelOk(SubOf(t, k), k);
    ReplaceObeys(t, k, SubGet(SubOf(t, k), k, now).0, p);
  }

  lemma {:induction false} PutAllObeys(t: Table, items: seq<Item>, now: nat, p: Policy)
    requires TableOk(t) && Obeys(t, p)
    ensures Obeys(PutAll(t, items, now), p)
  {
    if items != [] {
      var most, it := items[..|items| - 1], items[|items| - 1];
      PutAllObeys(t, most, now, p);
      SetObeys(PutAll(t, most, now), it.key, it.value, it.ttl, now, p);
    }
  }

  lemma CleanedObeys(t: Table, now: nat, t': Table, p: Policy)
    requires TableOk(t) && Obeys(t, p) && Cleaned(t, now, t')
    ensures Obeys(t', p)
  {
    forall n, j | 0 <= n < |t'| && 0 <= j < |t'[n].subs| ensures SameKind(t'[n].subs[j].policy, p) {
      CleanedCell(t, now, t', n, j);
      assert SameKind(t[n].subs[j].policy, p);
    }
  }

  lemma SwappedObeys(t: Table, p: Policy, t': Table)
    requires TableOk(t) && Swapped(t, p, t') && EvictionRuns.Fresh(p)
    ensures Obeys(t', p)
  {
    forall n, j | 0 <= n < |t'| && 0 <= j < |t'[n].subs| ensures SameKind(t'[n].subs[j].policy, p) {
      SwappedCell(t, p, t', n, j);
    }
  }

  // ---- Steps ----

  ghost predicate Laid(s: State) {
    !s.closed ==> Sized(s.table, s.config.maxSize) && Obeys(s.table, s.policy)
  }

  lemma StepLaid(s: State, now: nat, s': State, completed: bool)
    requires OpenOk(s) && Laid(s) && Steps(s, now, s', completed) && !s.closed
    ensures Laid(s') && s'.config == s.config && s'.policy == s.policy && |s'.table| == |s.table|
  {
    StepSameShape(s, now, s', completed);
    if s.rehashing {
      match s.config.rehasher
      case Incremental =>
        var items, sh :| MovesBatch(s, now, items, sh, s', completed);
        PutAllObeys(s.table, items, now, s.policy);
      case Batch =>
        var items :| MovesAll(s, now, items, s', completed);
        PutAllObeys(s.table, items, now, s.policy);
    }
  }

  lemma PreparedLaid(s: State, op: Op, now: nat)
    requires OpenOk(s) && Laid(s) && !s.closed && Drives(s, op)
    ensures
      var s1 := Prepared(s, op, now);
      Laid(s1) && !s1.closed && s1.config == s.config && s1.policy == s.policy && |s1.table| == |s.table|
  {
    match op
    case Set(k, value, ttl) =>
      SetSameShape(s.table, k, value.value, Lifetime(s.config, ttl), now);
      SetObeys(s.table, k, value.value, Lifetime(s.config, ttl), now, s.policy);
    case Get(k) =>
      GetShrinks(s.table, k, now);
      GetObeys(s.table, k, now, s.policy);
    case Del(k) =>
      DelShrinks(s.table, k);
      DelObeys(s.table, k, s.policy);
  }

  /** The number of shards and the policy an operation leaves. */
  ghost predicate Follows(s: State, e: Event, s': State) {
    && |s'.table| == (if e.op.Resize? && e.out.reply == Done && e.op.count >= 0 then e.op.count else |s.table|)
    && s'.policy == (if e.op.SwapPolicy? && e.out.reply == Done then e.op.policy else s.policy)
  }

  lemma OtherLaid(s: State, e: Event, s': State)
    requires Takes(s, e, s') && Laid(s) && !Drives(s, e.op) && !s'.closed
    ensures Laid(s') && Follows(s, e, s')
  {
    if Refusal(s, e.op) == None {
      match e.op
      case Len =>
      case Cleanup => CleanedObeys(s.table, e.now, s'.table, s.policy);
      case Resize(count) => NewTableSized(s.policy, s.config.maxSize, count);
      case SwapPolicy(p) => SwappedObeys(s.table, p, s'.table);
    }
  }

  lemma NextLaid(s: State, e: Event, s': State)
    requires Takes(s, e, s') && Laid(s) && !s'.closed && !s.closed
    ensures Laid(s') && Follows(s, e, s')
  {
    if Drives(s, e.op) {
      PreparedLaid(s, e.op, e.now);
      PreparedOk(s, e.op, e.now);
      DrivenIsStep(s, e.op, e.now, e.out, s');
      StepLaid(Prepared(s, e.op, e.now), e.now, s', e.out.completed);
    } else {
      OtherLaid(s, e, s');
    }
  }

  // ---- Runs ----

  /** The shards asked for by the last Resize that was accepted, or at the start. */
  ghost function ShardsAfter(first: nat, events: seq<Event>): nat {
    if events == [] then first
    else
      var e := events[|events| - 1];
      if e.op.Resize? && e.out.reply == Done && e.op.count >= 0 then e.op.count
      else ShardsAfter(first, events[..|events| - 1])
  }

  /** The policy set by the last SwapPolicy that was accepted, or at the start. */
  ghost function PolicyAfter(first: Policy, events: seq<Event>): Policy {
    if events == [] then first
    else
      var e := events[|events| - 1];
      if e.op.SwapPolicy? && e.out.reply == Done then e.op.policy else PolicyAfter(first, events[..|events| - 1])
  }

  /** In every state of every run the table is laid out by the last accepted Resize and SwapPolicy alone. */
  lemma {:induction false} RunIsLaid(states: seq<State>, events: seq<Event>, i: nat)
    requires IsRun(states, events) && i <= |events| && !states[i].closed
    ensures Laid(states[i]) && states[i].config == states[0].config
    ensures |states[i].table| == ShardsAfter(|states[0].table|, events[..i])
    ensures states[i].policy == PolicyAfter(states[0].policy, events[..i])
  {
    RunOk(states, events, i);
    if i == 0 {
      NewTableSized(states[0].policy, states[0].config.maxSize, |states[0].table|);
    } else {
      var before := i - 1;
      RunOk(states, events, before);
      assert Takes(states[before], events[before], states[before + 1]);
      NextKeepsOk(states[before], events[before].op, events[before].now, events[before].out, states[i]);
      RunIsLaid(states, events, before);
      NextLaid(states[before], events[before], states[i]);
      assert events[..i][..before] == events[..before];
    }
  }

  lemma SubIs(t: Table, k: Key, limit: nat, p: Policy)
    requires TableOk(t) && Sized(t, limit) && Obeys(t, p)
    ensures
      var n, share := ShardIndex(k, |t| - 1), Share(limit, |t|);
      && n < |t| && |t[n].subs| == Parts(share) && t[n].maxSub == share / Parts(share)
      && SubOf(t, k) == t[n].subs[Fnv(k) % Parts(share)] && SameKind(SubOf(t, k).policy, p)
  {
    assert ShardOk(t[Home(t, k)], Home(t, k), |t|);
  }

  /**
   * A write evicts exactly if its key is new and its sub-shard has already as many entries as the
   * limit leaves it, under a policy that evicts; and then as many as are too many.
   */
  predicate EvictsIffFull(t: Table, k: Key, limit: nat, p: Policy, evicted: seq<Key>) {
    |t| > 0 &&
    var share := if 0 < limit < |t| then 1 else limit / |t|;
    var parts := if share == 0 || share >= 16 then 8 else if share < 4 then 1 else share / 2;
    var n := ShardIndex(k, |t| - 1);
    n < |t| && |t[n].subs| == parts &&
    var held := t[n].subs[Fnv(k) % parts].entries;
    && (evicted != [] <==> limit > 0 && !p.Noop? && k !in held && |held| >= share / parts)
    && (evicted != [] ==> |evicted| == |held| + 1 - share / parts)
  }

  lemma SubEvictsIff(s: Sub, k: Key, value: Bytes, ttl: nat, now: nat, max: nat)
    requires SubOk(s)
    ensures
      var evicted := SubSet(s, k, value, ttl, now, max).1;
      && (evicted != [] <==> max > 0 && !s.policy.Noop? && k !in s.entries && |s.entries| >= max)
      && (evicted != [] ==> |evicted| == |s.entries| + 1 - max)
  {
    SubSetOk(s, k, value, ttl, now, max);
  }

  lemma LimitIff(limit: nat, shards: nat)
    requires shards > 0
    ensures limit > 0 <==> Share(limit, shards) / Parts(Share(limit, shards)) > 0
  {
    if limit == 0 {
      assert 0 / shards == 0 && 0 / 8 == 0;
    }
  }

  lemma WriteEvictsIffFull(t: Table, k: Key, value: Bytes, ttl: nat, now: nat, limit: nat, p: Policy)
    requires TableOk(t) && Sized(t, limit) && Obeys(t, p)
    ensures EvictsIffFull(t, k, limit, p, TableSet(t, k, value, ttl, now).1)
  {
    SubIs(t, k, limit, p);
    HomeIsOk(t, k);
    SubEvictsIff(SubOf(t, k), k, value, ttl, now, t[Home(t, k)].maxSub);
    LimitIff(limit, |t|);
  }

  /** So it is with every Set of every run. */
  lemma SetEvictsIffFull(states: seq<State>, events: seq<Event>, i: nat)
    requires IsRun(states, events) && i < |events| && events[i].op.Set? && events[i].out.reply == Done
    ensures EvictsIffFull(states[i].table, events[i].op.key, states[0].config.maxSize,
                          PolicyAfter(states[0].policy, events[..i]), events[i].out.evicted)
    ensures |states[i].table| == ShardsAfter(|states[0].table|, events[..i])
  {
    var s, e := states[i], events[i];
    RunOk(states, events, i);
    assert Takes(states[i], events[i], states[i + 1]);
    RunIsLaid(states, events, i);
    WriteEvictsIffFull(s.table, e.op.key, e.op.value.value, Lifetime(s.config, e.op.ttl), e.now, s.config.maxSize, s.policy);
  }
}
