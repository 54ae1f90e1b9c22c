/**
 * Whole runs of the cache. Without a size limit it is an expiring map, in the middle of a rehash as
 * at any other time; with one it is a submap of it; and a rehash always comes to its end.
 */
module CacheRuns {
  import opened Bytes
  import opened Collections
  import opened Eviction
  import opened EvictionRuns
  import opened Hashing
  import opened SubShards
  import opened Tables
  import opened Migration
  import opened CacheModel
  import opened CacheInvariant
  import opened CacheCounting
  import opened CacheRefinement

  // ---- One operation against the map ----

  /** Without a size limit every shard has all its sub-shards. */
  lemma NextKeepsNoLimit(s: State, op: Op, now: nat, out: Output, s': State)
    requires StateOk(s) && Enabled(op) && Next(s, op, now, out, s')
    requires !s.closed && !op.Close? && s.config.maxSize == 0 && NoLimit(s.table) && Drainable(s.table)
    ensures NoLimit(s'.table) && Drainable(s'.table)
  {
    if Refusal(s, op) == None {
      match op
      case Set(k, value, ttl) => SetEffects(s, k, value.value, ttl, now, s', out.completed);
      case Get(k) => GetEffects(s, k, now, s', out.completed);
      case Del(k) => DelEffects(s, k, now, s', out.completed);
      case Len =>
      case Cleanup =>
      case Resize(count) =>
      case SwapPolicy(p) =>
    }
  }

  ghost predicate Unbounded(s: State) {
    s.config.maxSize == 0 && (!s.closed ==> NoLimit(s.table) && Drainable(s.table) && (s.rehashing ==> Drainable(s.former)))
  }

  lemma NextKeepsDrainable(s: State, op: Op, now: nat, out: Output, s': State)
    requires StateOk(s) && Enabled(op) && Next(s, op, now, out, s') && !s.closed && s'.rehashing
    requires Drainable(s.table) && (s.rehashing ==> Drainable(s.former))
    ensures Drainable(s'.former)
  {
    if s.rehashing {
      FormerKeepsShape(s, op, now, out, s');
    } else if Drives(s, op) {
      PreparedOk(s, op, now);
      DrivenIsStep(s, op, now, out, s');
    }
  }

  lemma EffectOnIdeal(s: State, m: Ideal, op: Op, now: nat, s': State, x: Key)
    requires TablesOk(s) && TablesOk(s') && !m.closed && Effect(s, op, now, s', x)
    ensures NoLimit(s.table) && Shown(s, x, now) == IdealGet(m, x, now) ==>
              Shown(s', x, now) == IdealGet(IdealNext(m, s.config, op, now), x, now)
    ensures HeldOrGone(Shown(s, x, now), IdealGet(m, x, now)) ==>
              HeldOrGone(Shown(s', x, now), IdealGet(IdealNext(m, s.config, op, now), x, now))
  {
    IdealKeyNext(m, s.config, op, now, x);
  }

  /** Without a size limit, an operation on the cache is the operation on the map. */
  lemma NextAgrees(s: State, m: Ideal, op: Op, now: nat, out: Output, s': State)
    requires StateOk(s) && Enabled(op) && Next(s, op, now, out, s') && Unbounded(s) && Agrees(s, m, now)
    ensures StateOk(s') && Unbounded(s') && Agrees(s', IdealNext(m, s.config, op, now), now)
  {
    NextKeepsOk(s, op, now, out, s');
    if !s'.closed {
      NextKeepsNoLimit(s, op, now, out, s');
      if s'.rehashing {
        NextKeepsDrainable(s, op, now, out, s');
      }
      NextEffects(s, op, now, out, s');
      var m' := IdealNext(m, s.config, op, now);
      forall x ensures Shown(s', x, now) == IdealGet(m', x, now) {
        EffectOnIdeal(s, m, op, now, s', x);
      }
    }
  }

  /** Whatever the size limit and the policy, nothing shows that the map does not have. */
  lemma NextStaysBelow(s: State, m: Ideal, op: Op, now: nat, out: Output, s': State)
    requires StateOk(s) && Enabled(op) && Next(s, op, now, out, s') && Below(s, m, now)
    ensures StateOk(s') && Below(s', IdealNext(m, s.config, op, now), now)
  {
    NextKeepsOk(s, op, now, out, s');
    if !s'.closed {
      NextEffects(s, op, now, out, s');
      var m' := IdealNext(m, s.config, op, now);
      forall x ensures HeldOrGone(Shown(s', x, now), IdealGet(m', x, now)) {
        EffectOnIdeal(s, m, op, now, s', x);
      }
    }
  }

  lemma IdealKeysAre(ks: set<Key>, m: Ideal, now: nat)
    ensures (forall k :: k in ks <==> IdealGet(m, k, now).Some?) ==> |ks| == |IdealKeys(m, now)|
    ensures (forall k | k in ks :: IdealGet(m, k, now).Some?) ==> |ks| <= |IdealKeys(m, now)|
  {
    if forall k | k in ks :: IdealGet(m, k, now).Some? {
      SubsetSize(ks, IdealKeys(m, now));
    }
    if forall k :: k in ks <==> IdealGet(m, k, now).Some? {
      assert ks == IdealKeys(m, now);
    }
  }

  lemma CountAgrees(s: State, m: Ideal, now: nat)
    requires OpenOk(s) && forall k :: Shown(s, k, now) == IdealGet(m, k, now)
    ensures Count(s, Live(now)) == |IdealKeys(m, now)|
  {
    CountIsVisible(s, now);
    IdealKeysAre(VisibleKeys(s, now), m, now);
  }

  lemma CountStaysBelow(s: State, m: Ideal, now: nat)
    requires OpenOk(s) && forall k :: HeldOrGone(Shown(s, k, now), IdealGet(m, k, now))
    ensures Count(s, Live(now)) <= |IdealKeys(m, now)|
  {
    CountIsVisible(s, now);
    IdealKeysAre(VisibleKeys(s, now), m, now);
  }

  predicate Predicted(op: Op) {
    op.Set? || op.Get? || op.Del? || op.Len?
  }

  lemma ReplyAgrees(s: State, m: Ideal, op: Op, now: nat, out: Output, s': State)
    requires StateOk(s) && Next(s, op, now, out, s') && Agrees(s, m, now) && Predicted(op)
    ensures out.reply == IdealReply(m, op, now)
  {
    if Refusal(s, op) == None && !s.closed {
      match op
      case Get(k) => LookStores(s, k, now, k);
      case Len => CountAgrees(s, m, now);
      case _ =>
    }
  }

  /** A value that is returned is the current one; a count is never too high. */
  lemma ReplyStaysBelow(s: State, m: Ideal, op: Op, now: nat, out: Output, s': State)
    requires StateOk(s) && Next(s, op, now, out, s') && Below(s, m, now) && Predicted(op)
    ensures
      match out.reply
      case Value(_) => out.reply == IdealReply(m, op, now)
      case Number(n) => IdealReply(m, op, now).Number? && n <= IdealReply(m, op, now).n
      case Failed(e) => out.reply == IdealReply(m, op, now) || (op.Get? && e == KeyNotFound)
      case Done => IdealReply(m, op, now) == Done
  {
    if Refusal(s, op) == None && !s.closed {
      match op
      case Get(k) => LookStores(s, k, now, k);
      case Len => CountStaysBelow(s, m, now);
      case _ =>
    }
  }

  // ---- Runs ----

  datatype Event = Event(op: Op, now: nat, out: Output)

  /** Any sequence of operations at times that do not go back. */
  ghost predicate IsRun(states: seq<State>, events: seq<Event>) {
    && |states| == |events| + 1
    && Starts(states[0])
    && (forall i | 0 <= i < |events| :: Takes(states[i], events[i], states[i + 1]))
    && (forall i, j | 0 <= i < j < |events| :: events[i].now <= events[j].now)
  }

  ghost predicate Starts(s: State) {
    Fresh(s.policy) && PowerOfTwo(|s.table|) && s == Init(s.config, s.policy, |s.table|)
  }

  /** The first condition excludes nothing: every state of a run meets it, see `RunOk`. */
  ghost predicate Takes(s: State, e: Event, s': State) {
    StateOk(s) && Enabled(e.op) && Next(s, e.op, e.now, e.out, s')
  }

  ghost function IdealAfter(config: Config, events: seq<Event>): Ideal {
    if events == [] then Ideal(map[], false)
    else
      var e := events[|events| - 1];
      IdealNext(IdealAfter(config, events[..|events| - 1]), config, e.op, e.now)
  }

  lemma StartOk(s: State, now: nat)
    requires Starts(s)
    ensures StateOk(s) && !s.closed && !s.rehashing && Agrees(s, Ideal(map[], false), now)
    ensures s.config.maxSize == 0 ==> Unbounded(s)
  {
    NewTableOk(s.policy, s.config.maxSize, |s.table|);
  }

  lemma {:induction false} RunOk(states: seq<State>, events: seq<Event>, i: nat)
    requires IsRun(states, events) && i <= |events|
    ensures StateOk(states[i]) && states[i].config == states[0].config
  {
    if i == 0 {
      StartOk(states[0], 0);
    } else {
      RunOk(states, events, i - 1);
      assert Takes(states[i - 1], events[i - 1], states[i]);
      NextKeepsOk(states[i - 1], events[i - 1].op, events[i - 1].now, events[i - 1].out, states[i]);
    }
  }

  /** The sub-shard with indices n and j holds the key only if it is the one its hash selects. */
  ghost predicate OnlyIn(t: Table, k: Key, n: nat, j: nat) {
    n < |t| && j < |t[n].subs| && k in t[n].subs[j].entries ==>
      n == ShardIndex(k, |t| - 1) && j == Fnv(k) % |t[n].subs|
  }

  /** In every state of every run a key is in one table only, and there where its hash says. */
  lemma KeysInPlace(states: seq<State>, events: seq<Event>, i: nat, n: nat, j: nat, k: Key)
    requires IsRun(states, events) && i <= |events| && !states[i].closed
    ensures OpenOk(states[i]) && OnlyIn(states[i].table, k, n, j)
    ensures states[i].rehashing ==>
              OnlyIn(states[i].former, k, n, j) && (Find(states[i].table, k) == None || Find(states[i].former, k) == None)
  {
    RunOk(states, events, i);
    OnlyInPlace(states[i].table, k, n, j);
    if states[i].rehashing {
      OnlyInPlace(states[i].former, k, n, j);
    }
  }

  lemma OnlyInPlace(t: Table, k: Key, n: nat, j: nat)
    requires TableOk(t)
    ensures OnlyIn(t, k, n, j)
  {
    if n < |t| && j < |t[n].subs| && k in t[n].subs[j].entries {
      OnlyAtHome(t, n, j, k);
    }
  }

  lemma {:induction false} RunAgrees(states: seq<State>, events: seq<Event>, i: nat, now: nat)
    requires IsRun(states, events) && i <= |events| && states[0].config.maxSize == 0
    requires i > 0 ==> events[i - 1].now <= now
    ensures StateOk(states[i]) && Unbounded(states[i]) && Agrees(states[i], IdealAfter(states[0].config, events[..i]), now)
  {
    if i == 0 {
      StartOk(states[0], now);
    } else {
      var e := events[i - 1];
      RunAgrees(states, events, i - 1, e.now);
      RunOk(states, events, i - 1);
      assert Takes(states[i - 1], e, states[i]);
      assert events[..i][..i - 1] == events[..i - 1];
      NextAgrees(states[i - 1], IdealAfter(states[0].config, events[..i - 1]), e.op, e.now, e.out, states[i]);
      AgreesLater(states[i], IdealAfter(states[0].config, events[..i]), e.now, now);
    }
  }

  lemma {:induction false} RunStaysBelow(states: seq<State>, events: seq<Event>, i: nat, now: nat)
    requires IsRun(states, events) && i <= |events|
    requires i > 0 ==> events[i - 1].now <= now
    ensures StateOk(states[i]) && Below(states[i], IdealAfter(states[0].config, events[..i]), now)
  {
    if i == 0 {
      StartOk(states[0], now);
    } else {
      var e := events[i - 1];
      RunStaysBelow(states, events, i - 1, e.now);
      RunOk(states, events, i - 1);
      assert Takes(states[i - 1], e, states[i]);
      assert events[..i][..i - 1] == events[..i - 1];
      NextStaysBelow(states[i - 1], IdealAfter(states[0].config, events[..i - 1]), e.op, e.now, e.out, states[i]);
      AgreesLater(states[i], IdealAfter(states[0].config, events[..i]), e.now, now);
    }
  }

  /**
   * Every Set, Get, Del and Len of every run on an unbounded cache answers as one expiring map
   * does that has seen the same operations, however many resizes there were and are under way.
   */
  lemma UnboundedRunIsAMap(states: seq<State>, events: seq<Event>, i: nat)
    requires IsRun(states, events) && i < |events| && states[0].config.maxSize == 0 && Predicted(events[i].op)
    ensures events[i].out.reply == IdealReply(IdealAfter(states[0].config, events[..i]), events[i].op, events[i].now)
  {
    var e := events[i];
    RunAgrees(states, events, i, e.now);
    assert Takes(states[i], e, states[i + 1]);
    ReplyAgrees(states[i], IdealAfter(states[0].config, events[..i]), e.op, e.now, e.out, states[i + 1]);
  }

  /** In these runs no operation, at any time, would panic. */
  lemma UnboundedNeverPanics(states: seq<State>, events: seq<Event>, i: nat, op: Op, now: nat)
    requires IsRun(states, events) && i <= |events| && states[0].config.maxSize == 0
    ensures StateOk(states[i]) && !Panics(states[i], op, now)
  {
    RunAgrees(states, events, i, if i == 0 then 0 else events[i - 1].now);
    if Drives(states[i], op) {
      PreparedOk(states[i], op, now);
    }
  }

  /**
   * With any size limit and any policy, in every run, Get never returns a value that is not the one
   * last written, or is deleted or expired; Len never counts more than the map holds.
   */
  lemma BoundedRunIsBelowAMap(states: seq<State>, events: seq<Event>, i: nat)
    requires IsRun(states, events) && i < |events| && Predicted(events[i].op)
    ensures
      var reply, ideal := events[i].out.reply, IdealReply(IdealAfter(states[0].config, events[..i]), events[i].op, events[i].now);
      match reply
      case Value(_) => reply == ideal
      case Number(n) => ideal.Number? && n <= ideal.n
      case Failed(e) => reply == ideal || (events[i].op.Get? && e == KeyNotFound)
      case Done => ideal == Done
  {
    var e := events[i];
    RunStaysBelow(states, events, i, e.now);
    assert Takes(states[i], e, states[i + 1]);
    ReplyStaysBelow(states[i], IdealAfter(states[0].config, events[..i]), e.op, e.now, e.out, states[i + 1]);
  }

  /** No run turns an entry that expires into one that does not, or gives it another time to expire. */
  lemma ExpiryIsKept(states: seq<State>, events: seq<Event>, i: nat, now: nat, k: Key)
    requires IsRun(states, events) && i <= |events| && !states[i].closed
    requires i > 0 ==> events[i - 1].now <= now
    ensures StateOk(states[i])
    ensures
      var e := Shown(states[i], k, now);
      e.Some? ==> k in IdealAfter(states[0].config, events[..i]).entries
                  && e.value == IdealAfter(states[0].config, events[..i]).entries[k]
  {
    RunStaysBelow(states, events, i, now);
    assert HeldOrGone(Shown(states[i], k, now), IdealGet(IdealAfter(states[0].config, events[..i]), k, now));
  }
}
