/** A rehash comes to its end: how many operations it takes at most, and that it is reported once. */
module CacheProgress {
  import opened Bytes
  import opened Collections
  import opened Eviction
  import EvictionRuns
  import opened Hashing
  import opened SubShards
  import opened Tables
  import opened Migration
  import opened CacheModel
  import opened CacheInvariant
  import opened CacheCounting
  import opened CacheRefinement
  import opened CacheRuns

  /** An upper bound on the operations it takes to finish the rehash under way; 0 if there is none. */
  function Work(s: State): nat {
    if s.closed || !s.rehashing then 0
    else if s.config.rehasher == Batch then 1
    else Remaining(s.former, s.idx)
  }

  predicate Restarts(s: State, op: Op) {
    (op.Resize? || op.Close?) && Refusal(s, op) == None
  }

  lemma StepProgress(s: State, now: nat, s': State, completed: bool)
    requires TablesOk(s) && !s.closed && Steps(s, now, s', completed)
    ensures s'.rehashing ==> s.rehashing && Work(s') < Work(s)
    ensures completed <==> s.rehashing && !s'.rehashing
  {
    if s.rehashing && s.config.rehasher == Incremental {
      var items, sh :| MovesBatch(s, now, items, sh, s', completed);
      BatchStepProgress(s, now, items, sh, s', completed);
    }
  }

  lemma ShrunkWork(s: State, s': State)
    requires s'.config == s.config && s'.closed == s.closed && s'.rehashing == s.rehashing && s'.idx == s.idx
    requires s.rehashing ==> Shrinks(s.former, s'.former)
    ensures Work(s') <= Work(s)
  {
    if s.rehashing {
      ShrunkNeedsNoMore(s.former, s'.former, s.idx);
    }
  }

  lemma CleanUpWork(s: State, now: nat, s': State)
    requires OpenOk(s) && CleansUp(s, now, s')
    ensures Work(s') <= Work(s)
  {
    if s.rehashing {
      CleanedOk(s.former, now, s'.former);
    }
    ShrunkWork(s, s');
  }

  lemma SwapWork(s: State, p: Policy, s': State)
    requires OpenOk(s) && Swaps(s, p, s') && EvictionRuns.Fresh(p)
    ensures Work(s') <= Work(s)
  {
    if s.rehashing {
      SwappedOk(s.former, p, s'.former);
    }
    ShrunkWork(s, s');
  }

  /** Whatever else happens, a Set, Get or Del leaves less work and no other operation adds any. */
  lemma NextProgress(s: State, op: Op, now: nat, out: Output, s': State)
    requires StateOk(s) && Enabled(op) && Next(s, op, now, out, s') && !Restarts(s, op)
    ensures s'.rehashing && Drives(s, op) ==> Work(s') < Work(s)
    ensures Work(s') <= Work(s) && s'.closed == s.closed && (s'.rehashing ==> s.rehashing)
    ensures !Drives(s, op) ==> s'.rehashing == s.rehashing
    ensures out.completed <==> s.rehashing && !s'.rehashing
  {
    if Drives(s, op) {
      PreparedOk(s, op, now);
      DrivenIsStep(s, op, now, out, s');
      ShrunkWork(s, Prepared(s, op, now));
      StepProgress(Prepared(s, op, now), now, s', out.completed);
    } else if Refusal(s, op) == None && !s.closed {
      match op
      case Len =>
      case Cleanup => CleanUpWork(s, now, s');
      case SwapPolicy(p) => SwapWork(s, p, s');
    }
  }

  // ---- Runs ----

  /** The number of steps the operations from i up to j give the rehash. */
  ghost function Driven(states: seq<State>, events: seq<Event>, i: nat, j: nat): nat
    requires i <= j <= |events| <= |states|
  {
    if i == j then 0 else Driven(states, events, i, j - 1) + if Drives(states[j - 1], events[j - 1].op) then 1 else 0
  }

  ghost function Completions(events: seq<Event>, i: nat, j: nat): nat
    requires i <= j <= |events|
  {
    if i == j then 0 else Completions(events, i, j - 1) + if events[j - 1].out.completed then 1 else 0
  }

  /** What an operation that starts no rehash does to the one under way. */
  ghost predicate Advances(s: State, e: Event, s': State) {
    && (s'.rehashing ==> s.rehashing && Work(s') + (if Drives(s, e.op) then 1 else 0) <= Work(s))
    && (e.out.completed <==> s.rehashing && !s'.rehashing)
  }

  lemma NextAdvances(s: State, e: Event, s': State)
    requires Takes(s, e, s') && !Restarts(s, e.op)
    ensures Advances(s, e, s')
  {
    NextProgress(s, e.op, e.now, e.out, s');
  }

  lemma {:induction false} WorkGoesDown(states: seq<State>, events: seq<Event>, i: nat, j: nat)
    requires |states| == |events| + 1 && i <= j <= |events|
    requires forall n | i <= n < j :: Advances(states[n], events[n], states[n + 1])
    ensures states[j].rehashing ==> states[i].rehashing && Work(states[j]) + Driven(states, events, i, j) <= Work(states[i])
    ensures Completions(events, i, j) == if states[i].rehashing && !states[j].rehashing then 1 else 0
    decreases j - i
  {
    if i < j {
      WorkGoesDown(states, events, i, j - 1);
      assert Advances(states[j - 1], events[j - 1], states[j - 1 + 1]);
    }
  }

  lemma WorkIsPositive(s: State)
    requires StateOk(s) && s.rehashing
    ensures Work(s) >= 1
  {
  }

  // ---- The end of a rehash ----

  /** However the last step goes about it, it leaves no entry in any old shard, or has moved every live one. */
  ghost predicate LeavesNothing(s: State, op: Op, now: nat, s': State)
    requires TablesOk(s) && Drives(s, op)
  {
    var s1 := Prepared(s, op, now);
    && s1.rehashing && Steps(s1, now, s', true)
    && match s1.config.rehasher
       case Incremental =>
         forall items, sh :: MovesBatch(s1, now, items, sh, s', true) ==> Drained(s1.former[s1.idx := sh], |s1.former|)
       case Batch =>
         forall items, k :: MovesAll(s1, now, items, s', true) && LiveAt(Find(s1.former, k), now).Some? ==> k in ItemKeys(items)
  }

  lemma LastBatchLeavesNothing(s: State, now: nat, items: seq<Item>, sh: Shard, s': State)
    requires OpenOk(s) && s.rehashing && MovesBatch(s, now, items, sh, s', true)
    ensures Drained(s.former[s.idx := sh], |s.former|)
  {
    BatchMoves(s.former, s.idx, BATCH_SIZE, now, items, sh);
    DrainedNext(s.former, s.idx, sh);
  }

  lemma CompletionLeavesNothing(s: State, op: Op, now: nat, out: Output, s': State)
    requires OpenOk(s) && StateOk(s) && Drives(s, op) && Next(s, op, now, out, s') && out.completed
    ensures LeavesNothing(s, op, now, s')
  {
    var s1 := Prepared(s, op, now);
    PreparedOk(s, op, now);
    DrivenIsStep(s, op, now, out, s');
    if s1.config.rehasher == Incremental {
      forall items, sh | MovesBatch(s1, now, items, sh, s', true) ensures Drained(s1.former[s1.idx := sh], |s1.former|) {
        LastBatchLeavesNothing(s1, now, items, sh, s');
      }
    }
  }

  /** A resize that is accepted. */
  predicate StartsRehash(s: State, op: Op) {
    op.Resize? && Refusal(s, op) == None
  }

  /** A rehash is under way in every state from `from` up to j. */
  predicate Lasts(states: seq<State>, from: nat, j: nat) {
    from <= j < |states| && forall n | from <= n <= j :: states[n].rehashing
  }

  lemma {:induction false} ClosedStays(states: seq<State>, events: seq<Event>, i: nat, j: nat)
    requires IsRun(states, events) && i <= j <= |events| && states[i].closed
    ensures states[j].closed
    decreases j - i
  {
    if i < j {
      ClosedStays(states, events, i, j - 1);
      assert Takes(states[j - 1], events[j - 1], states[j - 1 + 1]);
      NextKeepsOk(states[j - 1], events[j - 1].op, events[j - 1].now, events[j - 1].out, states[j]);
    }
  }

  /** Nothing restarts a rehash that is under way, unless the cache is closed. */
  lemma NoRestart(states: seq<State>, events: seq<Event>, n: nat, j: nat)
    requires IsRun(states, events) && n < j <= |events| && states[n].rehashing && !states[j].closed
    ensures !Restarts(states[n], events[n].op) && Advances(states[n], events[n], states[n + 1])
  {
    RunOk(states, events, n);
    assert Takes(states[n], events[n], states[n + 1]);
    if events[n].op.Close? {
      NextKeepsOk(states[n], events[n].op, events[n].now, events[n].out, states[n + 1]);
      ClosedStays(states, events, n + 1, j);
    }
    NextAdvances(states[n], events[n], states[n + 1]);
  }

  lemma AllAdvance(states: seq<State>, events: seq<Event>, from: nat, j: nat)
    requires IsRun(states, events) && Lasts(states, from, j) && !states[j].closed
    ensures forall n | from <= n < j :: Advances(states[n], events[n], states[n + 1])
  {
    forall n | from <= n < j ensures Advances(states[n], events[n], states[n + 1]) {
      NoRestart(states, events, n, j);
    }
  }

  lemma LastingWork(states: seq<State>, events: seq<Event>, from: nat, j: nat)
    requires IsRun(states, events) && Lasts(states, from, j) && !states[j].closed
    ensures Driven(states, events, from, j) < Work(states[from]) && Completions(events, from, j) == 0
  {
    AllAdvance(states, events, from, j);
    RunOk(states, events, j);
    WorkIsPositive(states[j]);
    WorkGoesDown(states, events, from, j);
  }

  lemma {:induction false} LastsOrEnds(states: seq<State>, from: nat, j: nat) returns (n: nat)
    requires from <= j < |states| && states[from].rehashing
    ensures from <= n <= j && Lasts(states, from, n) && (n < j ==> !states[n + 1].rehashing)
    decreases j
  {
    if j == from {
      n := j;
    } else {
      n := LastsOrEnds(states, from, j - 1);
      if n == j - 1 && states[j].rehashing {
        n := j;
      }
    }
  }

  lemma EndsAt(states: seq<State>, events: seq<Event>, n: nat, j: nat)
    requires IsRun(states, events) && n < j <= |events| && !states[j].closed && states[n].rehashing
    requires !states[n + 1].rehashing
    ensures StateOk(states[n]) && TablesOk(states[n]) && Drives(states[n], events[n].op) && events[n].out.completed
    ensures LeavesNothing(states[n], events[n].op, events[n].now, states[n + 1])
  {
    RunOk(states, events, n);
    NoRestart(states, events, n, j);
    var e := events[n];
    assert Takes(states[n], e, states[n + 1]);
    NextProgress(states[n], e.op, e.now, e.out, states[n + 1]);
    CompletionLeavesNothing(states[n], e.op, e.now, e.out, states[n + 1]);
  }

  /** How many steps drain a table: for every shard its entries in batches of 16, and one step more; or one in all. */
  function StepsNeeded(config: Config, t: Table): nat {
    if config.rehasher == Batch then 1 else Remaining(t, 0)
  }

  /** The rehash under way in state `from` ends with event n: it is reported then and not before, and nothing is left. */
  ghost predicate EndsWith(states: seq<State>, events: seq<Event>, from: nat, n: nat)
    requires from <= n < |events| && |states| == |events| + 1
  {
    && Lasts(states, from, n) && !states[n + 1].rehashing
    && Completions(events, from, n) == 0 && events[n].out.completed
    && TablesOk(states[n]) && Drives(states[n], events[n].op)
    && LeavesNothing(states[n], events[n].op, events[n].now, states[n + 1])
  }

  lemma EndsAfter(states: seq<State>, events: seq<Event>, from: nat, n: nat, j: nat)
    requires IsRun(states, events) && Lasts(states, from, n) && n < j <= |events| && !states[j].closed
    requires !states[n + 1].rehashing
    ensures EndsWith(states, events, from, n)
  {
    EndsAt(states, events, n, j);
    OpenBefore(states, events, n, j);
    LastingWork(states, events, from, n);
  }

  lemma EndsInTime(states: seq<State>, events: seq<Event>, from: nat, j: nat) returns (n: nat)
    requires IsRun(states, events) && from <= j <= |events| && !states[j].closed && states[from].rehashing
    requires Driven(states, events, from, j) >= Work(states[from])
    ensures from <= n < j && EndsWith(states, events, from, n)
  {
    n := LastsOrEnds(states, from, j);
    if n == j {
      LastingWork(states, events, from, j);
      assert false;
    }
    EndsAfter(states, events, from, n, j);
  }

  /**
   * From an accepted Resize on, in every run: by the time the Sets, Gets and Dels number the steps
   * needed, whatever else happens between them, the rehash has ended, has reported that exactly once,
   * and has left nothing behind. The Resize is the event before state `start`.
   */
  lemma RehashEnds(states: seq<State>, events: seq<Event>, start: nat, j: nat) returns (n: nat)
    requires IsRun(states, events) && 0 < start <= j <= |events| && !states[j].closed
    requires StartsRehash(states[start - 1], events[start - 1].op)
    requires Driven(states, events, start, j) >= StepsNeeded(states[0].config, states[start - 1].table)
    ensures start <= n < j && EndsWith(states, events, start, n)
  {
    WorkAtStart(states, events, start);
    n := EndsInTime(states, events, start, j);
  }

  lemma WorkAtStart(states: seq<State>, events: seq<Event>, start: nat)
    requires IsRun(states, events) && 0 < start <= |events| && StartsRehash(states[start - 1], events[start - 1].op)
    ensures states[start].rehashing && Work(states[start]) == StepsNeeded(states[0].config, states[start - 1].table)
  {
    ResizeStarts(states, events, start - 1);
  }

  lemma ResizeStarts(states: seq<State>, events: seq<Event>, i: nat)
    requires IsRun(states, events) && i < |events| && StartsRehash(states[i], events[i].op)
    ensures states[i + 1].rehashing && states[i + 1].former == states[i].table && states[i + 1].idx == 0
    ensures Work(states[i + 1]) == StepsNeeded(states[0].config, states[i].table)
  {
    assert Takes(states[i], events[i], states[i + 1]);
    RunOk(states, events, i);
  }

  lemma OpenBefore(states: seq<State>, events: seq<Event>, n: nat, j: nat)
    requires IsRun(states, events) && n <= j <= |events| && !states[j].closed
    ensures !states[n].closed
  {
    if states[n].closed {
      ClosedStays(states, events, n, j);
    }
  }

  // ---- Tables that cannot be drained ----

  /** The rehash of a table with the shape of `t` is under way and has not gone past shard m. */
  ghost predicate StuckAt(s: State, t: Table, m: nat) {
    s.rehashing && SameShape(t, s.former) && s.idx <= m
  }

  lemma BatchStaysStuck(s: State, now: nat, items: seq<Item>, sh: Shard, s': State, completed: bool, m: nat)
    requires OpenOk(s) && s.rehashing && MovesBatch(s, now, items, sh, s', completed)
    requires s.idx <= m < |s.former| && |s.former[m].subs| < SUB_SHARDS
    ensures s'.rehashing && s'.idx <= m && !completed
  {
    assert ShardOk(s.former[s.idx], s.idx, |s.former|);
    if s.idx == m {
      ExtractedIsFull(s.former[m], m, |s.former|, BATCH_SIZE, now, items, sh);
    }
  }

  lemma StepStaysStuck(s: State, now: nat, s': State, completed: bool, m: nat)
    requires OpenOk(s) && s.rehashing && Steps(s, now, s', completed)
    requires s.idx <= m < |s.former| && |s.former[m].subs| < SUB_SHARDS
    ensures s'.rehashing && s'.idx <= m && !completed
  {
    if s.config.rehasher == Incremental {
      var items, sh :| MovesBatch(s, now, items, sh, s', completed);
      BatchStaysStuck(s, now, items, sh, s', completed, m);
    }
  }

  lemma NextStaysStuck(s: State, e: Event, s': State, t: Table, m: nat)
    requires Takes(s, e, s') && !Restarts(s, e.op) && StuckAt(s, t, m) && m < |t| && |t[m].subs| < SUB_SHARDS
    ensures StuckAt(s', t, m) && !e.out.completed
  {
    if Drives(s, e.op) {
      PreparedOk(s, e.op, e.now);
      DrivenIsStep(s, e.op, e.now, e.out, s');
      StepStaysStuck(Prepared(s, e.op, e.now), e.now, s', e.out.completed, m);
    } else {
      NextProgress(s, e.op, e.now, e.out, s');
      IdleKeepsIdx(s, e, s');
    }
    FormerKeepsShape(s, e.op, e.now, e.out, s');
    SameShapeTrans(t, s.former, s'.former);
  }

  lemma IdleKeepsIdx(s: State, e: Event, s': State)
    requires Takes(s, e, s') && !Restarts(s, e.op) && !Drives(s, e.op)
    ensures s'.idx == s.idx
  {
  }

  lemma OneStuck(states: seq<State>, events: seq<Event>, n: nat, t: Table, m: nat)
    requires IsRun(states, events) && n < |events| && !states[n + 1].closed
    requires StuckAt(states[n], t, m) && m < |t| && |t[m].subs| < SUB_SHARDS
    ensures StuckAt(states[n + 1], t, m) && !events[n].out.completed
  {
    NoRestart(states, events, n, n + 1);
    assert Takes(states[n], events[n], states[n + 1]);
    NextStaysStuck(states[n], events[n], states[n + 1], t, m);
  }

  lemma StuckOnward(states: seq<State>, events: seq<Event>, n: nat, j: nat, t: Table, m: nat)
    requires IsRun(states, events) && n < j <= |events| && !states[j].closed && m < |t| && |t[m].subs| < SUB_SHARDS
    ensures StuckAt(states[n], t, m) ==> StuckAt(states[n + 1], t, m)
  {
    if StuckAt(states[n], t, m) {
      OpenBefore(states, events, n + 1, j);
      OneStuck(states, events, n, t, m);
    }
  }

  lemma {:induction false} StuckChain(states: seq<State>, from: nat, j: nat, t: Table, m: nat)
    requires from <= j < |states| && StuckAt(states[from], t, m)
    requires forall n | from <= n < j :: StuckAt(states[n], t, m) ==> StuckAt(states[n + 1], t, m)
    ensures StuckAt(states[j], t, m) && Lasts(states, from, j)
    decreases j
  {
    if from < j {
      StuckChain(states, from, j - 1, t, m);
      assert StuckAt(states[j - 1], t, m) ==> StuckAt(states[j - 1 + 1], t, m);
    }
  }

  lemma StaysStuck(states: seq<State>, events: seq<Event>, from: nat, j: nat, t: Table, m: nat)
    requires IsRun(states, events) && from <= j <= |events| && !states[j].closed
    requires StuckAt(states[from], t, m) && m < |t| && |t[m].subs| < SUB_SHARDS
    ensures Lasts(states, from, j)
  {
    forall n | from <= n < j ensures StuckAt(states[n], t, m) ==> StuckAt(states[n + 1], t, m) {
      StuckOnward(states, events, n, j, t, m);
    }
    StuckChain(states, from, j, t, m);
  }

  /**
   * The rehash of a table in which some shard lacks sub-shards never ends, in any run: before it has
   * made the steps it needs, a Set, Get or Del panics.
   */
  lemma UndrainableNeverEnds(states: seq<State>, events: seq<Event>, start: nat, j: nat)
    requires IsRun(states, events) && 0 < start <= j <= |events| && !states[j].closed
    requires StartsRehash(states[start - 1], events[start - 1].op) && !Drainable(states[start - 1].table)
    ensures Lasts(states, start, j) && Completions(events, start, j) == 0
    ensures Driven(states, events, start, j) < StepsNeeded(states[0].config, states[start - 1].table)
  {
    UndrainableLasts(states, events, start, j);
    LastingWork(states, events, start, j);
    WorkAtStart(states, events, start);
  }

  lemma UndrainableLasts(states: seq<State>, events: seq<Event>, start: nat, j: nat)
    requires IsRun(states, events) && 0 < start <= j <= |events| && !states[j].closed
    requires StartsRehash(states[start - 1], events[start - 1].op) && !Drainable(states[start - 1].table)
    ensures Lasts(states, start, j)
  {
    ResizeStarts(states, events, start - 1);
    RunOk(states, events, start - 1);
    var t := states[start - 1].table;
    var m :| 0 <= m < |t| && |t[m].subs| != SUB_SHARDS;
    FewerSubs(states[start - 1], m);
    StaysStuck(states, events, start, j, t, m);
  }

  lemma FewerSubs(s: State, m: nat)
    requires StateOk(s) && !s.closed && m < |s.table| && |s.table[m].subs| != SUB_SHARDS
    ensures |s.table[m].subs| < SUB_SHARDS
  {
    assert ShardOk(s.table[m], m, |s.table|);
  }

  /** A new cache that is resized at once panics on the next Set, Get or Del exactly if it allows 1 to 15 entries a shard. */
  lemma ResizedEmptyPanicsIff(config: Config, p: Policy, count: nat, count': nat, op: Op, now: nat)
    requires EvictionRuns.Fresh(p) && PowerOfTwo(count) && PowerOfTwo(count')
    ensures
      var s := StartRehash(Init(config, p, count), count');
      && OpenOk(s)
      && (Drives(s, op) ==> (Panics(s, op, now) <==> 0 < PerShardMax(config.maxSize, count) < 2 * SUB_SHARDS))
  {
    var s0 := Init(config, p, count);
    var s := StartRehash(s0, count');
    NewTableOk(p, config.maxSize, count);
    StartRehashKeeps(s0, count');
    if Drives(s, op) {
      PreparedOk(s, op, now);
      EmptyPanicsIff(s.former, Prepared(s, op, now), now, p, PerShardMax(config.maxSize, count));
    }
  }

  lemma EmptyPanicsIff(t: Table, s: State, now: nat, p: Policy, max: nat)
    requires TablesOk(s) && s.rehashing && s.idx == 0 && Shrinks(t, s.former) && forall i | 0 <= i < |t| :: t[i] == NewShard(p, max)
    ensures StepPanics(s, now) <==> 0 < max < 2 * SUB_SHARDS
  {
    assert t[0] == NewShard(p, max);
    FewerInSubs(t[0].subs, s.former[0].subs);
    EmptyCount(t[0].subs);
    LiveAreFew(s.former[0].subs, now);
    assert forall i | 0 <= i < |s.former| :: |s.former[i].subs| == |t[i].subs| == EffectiveSubShards(max);
  }

  lemma {:induction false} LiveAreFew(subs: seq<Sub>, now: nat)
    ensures CountSubs(subs, Live(now)) <= CountSubs(subs, All)
  {
    if subs != [] {
      LiveAreFew(subs[..|subs| - 1], now);
      SubsetSize(Pick(subs[|subs| - 1], Live(now)), subs[|subs| - 1].entries.Keys);
    }
  }
}
