/** Resizing and closing, told by the operations of a run and their replies alone. */
module CacheAdmin {
  import opened Bytes
  import opened Hashing
  import opened SubShards
  import opened Tables
  import opened Migration
  import opened CacheModel
  import opened CacheInvariant
  import opened CacheRefinement
  import opened CacheRuns

  /** A Resize has been accepted, and no completion reported and no Close since. */
  ghost function UnderWay(events: seq<Event>): bool {
    if events == [] then false
    else
      var e := events[|events| - 1];
      if e.op.Resize? && e.out.reply == Done then true
      else !e.out.completed && !e.op.Close? && UnderWay(events[..|events| - 1])
  }

  ghost function Closed(events: seq<Event>): bool {
    exists j | 0 <= j < |events| :: events[j].op.Close?
  }

  lemma StepReports(s: State, now: nat, s': State, completed: bool)
    requires TablesOk(s) && Steps(s, now, s', completed)
    ensures s'.rehashing == (s.rehashing && !completed) && s'.closed == s.closed && (completed ==> s.rehashing)
  {
    if s.rehashing {
      match s.config.rehasher
      case Incremental =>
        var items, sh :| MovesBatch(s, now, items, sh, s', completed);
      case Batch =>
        var items :| MovesAll(s, now, items, s', completed);
    }
  }

  lemma NextReports(s: State, e: Event, s': State)
    requires Takes(s, e, s')
    ensures s'.rehashing == ((e.op.Resize? && e.out.reply == Done) || (!e.out.completed && !e.op.Close? && s.rehashing))
    ensures s'.closed == (s.closed || e.op.Close?)
  {
    NextKeepsOk(s, e.op, e.now, e.out, s');
    if Drives(s, e.op) {
      PreparedOk(s, e.op, e.now);
      DrivenIsStep(s, e.op, e.now, e.out, s');
      StepReports(Prepared(s, e.op, e.now), e.now, s', e.out.completed);
    }
  }

  /** In every state of every run: whether a rehash is under way and whether the cache is closed. */
  lemma {:induction false} RunReports(states: seq<State>, events: seq<Event>, i: nat)
    requires IsRun(states, events) && i <= |events|
    ensures states[i].rehashing == UnderWay(events[..i]) && states[i].closed == Closed(events[..i])
  {
    if i > 0 {
      var before := i - 1;
      RunReports(states, events, before);
      assert Takes(states[before], events[before], states[before + 1]);
      NextReports(states[before], events[before], states[i]);
      assert events[..i][..before] == events[..before];
      ClosedOneMore(events, before);
    }
  }

  lemma ClosedOneMore(events: seq<Event>, n: nat)
    requires n < |events|
    ensures Closed(events[..n + 1]) == (Closed(events[..n]) || events[n].op.Close?)
  {
    var some, more := events[..n], events[..n + 1];
    assert forall j | 0 <= j < n :: more[j] == some[j];
    assert more[n] == events[n];
  }

  /** In every run, a Resize is accepted exactly if the cache is open, the count a power of two and no rehash under way. */
  lemma ResizeReplies(states: seq<State>, events: seq<Event>, i: nat)
    requires IsRun(states, events) && i < |events| && events[i].op.Resize?
    ensures
      events[i].out.reply ==
      if Closed(events[..i]) then Failed(CacheClosed)
      else if !(events[i].op.count > 0 && IsPow2(events[i].op.count)) then Failed(InvalidShards)
      else if UnderWay(events[..i]) then Failed(RehashInProgress)
      else Done
  {
    RunReports(states, events, i);
    assert Takes(states[i], events[i], states[i + 1]);
    if events[i].op.count > 0 {
      PowerOfTwoIff(events[i].op.count);
    }
  }

  lemma {:induction false} ClosedIsEmpty(states: seq<State>, events: seq<Event>, i: nat)
    requires IsRun(states, events) && i <= |events| && states[i].closed
    ensures states[i].table == [] && states[i].former == []
  {
    if i > 0 {
      var before := i - 1;
      assert Takes(states[before], events[before], states[before + 1]);
      if states[before].closed {
        ClosedIsEmpty(states, events, before);
      }
      ClosedByClose(states[before], events[before], states[i]);
    }
  }

  lemma ClosedByClose(s: State, e: Event, s': State)
    requires Takes(s, e, s') && s'.closed
    ensures s.closed ==> s' == s
    ensures !s.closed ==> s'.table == [] && s'.former == []
  {
    if !s.closed {
      NextKeepsOk(s, e.op, e.now, e.out, s');
    }
  }

  /** In every run, once the cache is closed it holds nothing, and no operation finds, stores, evicts or moves anything. */
  lemma ClosedForGood(states: seq<State>, events: seq<Event>, i: nat)
    requires IsRun(states, events) && i < |events| && Closed(events[..i])
    ensures events[i].out ==
            Output(if events[i].op.Len? || events[i].op.Cleanup? then Number(0) else Failed(CacheClosed), [], false)
    ensures states[i + 1] == states[i] && states[i].table == [] && states[i].former == []
  {
    RunReports(states, events, i);
    ClosedIsEmpty(states, events, i);
    assert Takes(states[i], events[i], states[i + 1]);
  }
}
