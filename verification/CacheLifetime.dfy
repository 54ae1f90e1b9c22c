/** What a caller who sets a value may count on, told by the operations of a run and their times alone. */
module CacheLifetime {
  import opened Bytes
  import opened Eviction
  import opened CacheModel
  import opened CacheRefinement
  import opened CacheRuns

  predicate Ends(op: Op, k: Key) {
    op.Close? || ((op.Set? || op.Del?) && op.key == k)
  }

  /** Event i sets the key, event j asks for it, and nothing in between writes or deletes it or closes the cache. */
  ghost predicate Asks(states: seq<State>, events: seq<Event>, i: nat, j: nat) {
    && IsRun(states, events) && i < j < |events|
    && events[i].op.Set? && events[i].out.reply == Done && events[j].op == Get(events[i].op.key)
    && forall n | i < n < j :: !Ends(events[n].op, events[i].op.key)
  }

  /** At time b, a value set at time a with this TTL, or with none and this default, is still there. */
  predicate Lasts(ttl: Option<int>, defaultTTL: nat, a: nat, b: nat) {
    match ttl
    case None => defaultTTL == 0 || b < a + defaultTTL
    case Some(d) => d <= 0 || b < a + d
  }

  lemma SetIsRecorded(states: seq<State>, events: seq<Event>, i: nat)
    requires IsRun(states, events) && i < |events| && events[i].op.Set? && events[i].out.reply == Done
    ensures
      var config, op := states[0].config, events[i].op;
      var m := IdealAfter(config, events[..i + 1]);
      && op.value.Some? && op.key != [] && !m.closed
      && op.key in m.entries && m.entries[op.key] == Held(op.value.value, Until(config, op.ttl, events[i].now))
  {
    BoundedRunIsBelowAMap(states, events, i);
    assert events[..i + 1][..i] == events[..i];
  }

  lemma {:induction false} SetIsRemembered(states: seq<State>, events: seq<Event>, i: nat, j: nat, k: Key)
    requires IsRun(states, events) && i < j <= |events| && forall n | i < n < j :: !Ends(events[n].op, k)
    ensures
      var m, m' := IdealAfter(states[0].config, events[..i + 1]), IdealAfter(states[0].config, events[..j]);
      !m.closed && k in m.entries ==> !m'.closed && k in m'.entries && m'.entries[k] == m.entries[k]
  {
    if i + 1 < j {
      var last := j - 1;
      SetIsRemembered(states, events, i, last, k);
      assert events[..j][..last] == events[..last];
      OthersLeave(IdealAfter(states[0].config, events[..last]), states[0].config, events[last].op, events[last].now, k);
    }
  }

  lemma OthersLeave(m: Ideal, config: Config, op: Op, now: nat, k: Key)
    requires !Ends(op, k)
    ensures
      var m' := IdealNext(m, config, op, now);
      !m.closed && k in m.entries ==> !m'.closed && k in m'.entries && m'.entries[k] == m.entries[k]
  {
  }

  /**
   * In every run without a size limit, resizes and all, the value is returned exactly as long as its
   * lifetime lasts; after that the key is not found.
   */
  lemma ValueLasts(states: seq<State>, events: seq<Event>, i: nat, j: nat)
    requires Asks(states, events, i, j) && states[0].config.maxSize == 0
    ensures events[i].op.value.Some?
    ensures events[j].out.reply ==
            if Lasts(events[i].op.ttl, states[0].config.defaultTTL, events[i].now, events[j].now)
            then Value(events[i].op.value.value) else Failed(KeyNotFound)
  {
    SetIsRecorded(states, events, i);
    SetIsRemembered(states, events, i, j, events[i].op.key);
    UnboundedRunIsAMap(states, events, j);
  }

  /** With any size limit and policy it may be gone earlier, but neither outlives its lifetime nor changes. */
  lemma ValueLastsNoLonger(states: seq<State>, events: seq<Event>, i: nat, j: nat)
    requires Asks(states, events, i, j)
    ensures events[i].op.value.Some?
    ensures
      || events[j].out.reply == Failed(KeyNotFound)
      || (&& Lasts(events[i].op.ttl, states[0].config.defaultTTL, events[i].now, events[j].now)
          && events[j].out.reply == Value(events[i].op.value.value))
  {
    SetIsRecorded(states, events, i);
    SetIsRemembered(states, events, i, j, events[i].op.key);
    BoundedRunIsBelowAMap(states, events, j);
  }
}
