/** Which key a policy evicts, measured against a plain record of writes. */
module EvictionOrder {
  import opened Bytes
  import opened Collections
  import opened Eviction

  /** How often a resident key has been written since it was added, and when last. */
  datatype Use = Use(count: nat, last: nat)

  type Uses = map<Key, Use>

  function Written(uses: Uses, k: Key, now: nat): Uses {
    uses[k := Use(if k in uses then uses[k].count + 1 else 1, now)]
  }

  predicate Before(uses: Uses, now: nat) {
    forall k | k in uses :: uses[k].last < now
  }

  /** The key a policy ought to evict. Reads do not count: only writes reach the policy. */
  ghost predicate IsVictim(p: Policy, uses: Uses, k: Key) {
    k in uses &&
    match p
    case Noop => false
    case Lru(_) => forall x | x in uses :: uses[k].last <= uses[x].last
    case Lfu(_) => forall x | x in uses ::
        uses[k].count < uses[x].count || (uses[k].count == uses[x].count && uses[k].last <= uses[x].last)
  }

  // ---- Lists in the order of the last write ----

  predicate Rising(s: seq<Key>, uses: Uses) {
    s == [] ||
    (s[0] in uses && (forall x | x in s[1..] :: x in uses && uses[s[0]].last < uses[x].last) && Rising(s[1..], uses))
  }

  predicate Falling(s: seq<Key>, uses: Uses) {
    s == [] ||
    (s[0] in uses && (forall x | x in s[1..] :: x in uses && uses[s[0]].last > uses[x].last) && Falling(s[1..], uses))
  }

  lemma {:induction false} RisingWithout(s: seq<Key>, uses: Uses, k: Key)
    requires Rising(s, uses)
    ensures Rising(Without(s, k), uses)
  {
    if s != [] {
      RisingWithout(s[1..], uses, k);
    }
  }

  lemma {:induction false} FallingWithout(s: seq<Key>, uses: Uses, k: Key)
    requires Falling(s, uses)
    ensures Falling(Without(s, k), uses)
  {
    if s != [] {
      FallingWithout(s[1..], uses, k);
    }
  }

  /** The order of a list depends only on the keys in it. */
  lemma {:induction false} RisingFrame(s: seq<Key>, uses: Uses, uses': Uses)
    requires Rising(s, uses) && forall x | x in s :: x in uses' && (x in uses ==> uses'[x] == uses[x])
    ensures Rising(s, uses')
  {
    if s != [] {
      RisingFrame(s[1..], uses, uses');
    }
  }

  lemma {:induction false} FallingFrame(s: seq<Key>, uses: Uses, uses': Uses)
    requires Falling(s, uses) && forall x | x in s :: x in uses' && (x in uses ==> uses'[x] == uses[x])
    ensures Falling(s, uses')
  {
    if s != [] {
      FallingFrame(s[1..], uses, uses');
    }
  }

  lemma {:induction false} RisingAppend(s: seq<Key>, uses: Uses, k: Key)
    requires Rising(s, uses) && k in uses && forall x | x in s :: x in uses && uses[x].last < uses[k].last
    ensures Rising(s + [k], uses)
  {
    if s == [] {
      assert [] + [k] == [k];
    } else {
      RisingAppend(s[1..], uses, k);
      assert (s + [k])[1..] == s[1..] + [k];
    }
  }

  lemma {:induction false} RisingFirst(s: seq<Key>, uses: Uses)
    requires Rising(s, uses) && s != []
    ensures forall x | x in s :: x in uses && uses[s[0]].last <= uses[x].last
  {
    assert forall x | x in s :: x == s[0] || x in s[1..];
  }

  lemma {:induction false} FallingLast(s: seq<Key>, uses: Uses)
    requires Falling(s, uses) && s != []
    ensures forall x | x in s :: x in uses && s[|s| - 1] in uses && uses[s[|s| - 1]].last <= uses[x].last
  {
    if |s| > 1 {
      FallingLast(s[1..], uses);
      assert s[1..][|s| - 2] == s[|s| - 1];
      assert s[|s| - 1] in s[1..];
    }
    assert forall x | x in s :: x == s[0] || x in s[1..];
  }

  lemma {:induction false} FallingButLast(s: seq<Key>, uses: Uses)
    requires Falling(s, uses) && s != []
    ensures Falling(s[..|s| - 1], uses)
  {
    if |s| > 1 {
      FallingButLast(s[1..], uses);
      assert s[..|s| - 1][1..] == s[1..][..|s| - 2];
      assert forall x | x in s[..|s| - 1][1..] :: x in s[1..];
    }
  }

  // ---- A policy agrees with the record ----

  predicate Counted(items: map<Key, nat>, uses: Uses) {
    items.Keys == uses.Keys && forall k | k in items :: items[k] == uses[k].count
  }

  predicate AllRising(lists: map<nat, seq<Key>>, uses: Uses) {
    forall f | f in lists :: Rising(lists[f], uses)
  }

  predicate LfuRanks(l: Frequencies, uses: Uses) {
    Counted(l.items, uses) && AllRising(l.freqLists, uses)
  }

  predicate LruRanks(order: seq<Key>, uses: Uses) {
    (set k | k in order) == uses.Keys && Falling(order, uses)
  }

  predicate Ranks(p: Policy, uses: Uses) {
    match p
    case Noop => true
    case Lru(order) => LruRanks(order, uses)
    case Lfu(l) => LfuRanks(l, uses)
  }

  lemma WithoutKeepsRising(s: seq<Key>, uses: Uses, k: Key)
    requires Rising(s, uses)
    ensures Rising(Without(s, k), uses - {k})
  {
    if s != [] {
      RisingFirst(s, uses);
    }
    RisingWithout(s, uses, k);
    RisingFrame(Without(s, k), uses, uses - {k});
  }

  lemma RemovedList(l: Frequencies, k: Key, f: nat)
    requires FrequenciesOk(l) && f in LfuRemove(l, k).freqLists
    ensures f in l.freqLists && LfuRemove(l, k).freqLists[f] == Without(l.freqLists[f], k)
  {
    assert ListOk(l, f, l.freqLists[f]);
  }

  lemma RemoveKeepsRising(l: Frequencies, uses: Uses, k: Key)
    requires FrequenciesOk(l) && AllRising(l.freqLists, uses)
    ensures AllRising(LfuRemove(l, k).freqLists, uses - {k})
  {
    var lists := LfuRemove(l, k).freqLists;
    forall f | f in lists ensures Rising(lists[f], uses - {k}) {
      RemovedList(l, k, f);
      WithoutKeepsRising(l.freqLists[f], uses, k);
    }
  }

  lemma RemoveKeepsCount(l: Frequencies, uses: Uses, k: Key)
    requires Counted(l.items, uses)
    ensures Counted(LfuRemove(l, k).items, uses - {k})
  {
    if k !in l.items {
      assert uses - {k} == uses;
    }
  }

  lemma LfuRemoveKeepsRanks(l: Frequencies, uses: Uses, k: Key)
    requires FrequenciesOk(l) && LfuRanks(l, uses)
    ensures LfuRanks(LfuRemove(l, k), uses - {k})
  {
    RemoveKeepsRising(l, uses, k);
    RemoveKeepsCount(l, uses, k);
  }

  lemma LruRemoveKeepsRanks(order: seq<Key>, uses: Uses, k: Key)
    requires LruRanks(order, uses)
    ensures LruRanks(Without(order, k), uses - {k})
  {
    FallingWithout(order, uses, k);
    forall x | x in Without(order, k) ensures x in uses - {k} {
      assert x in order;
    }
    FallingFrame(Without(order, k), uses, uses - {k});
    assert (set x | x in Without(order, k)) == (uses - {k}).Keys;
  }

  lemma RemoveKeepsRanks(p: Policy, uses: Uses, k: Key)
    requires PolicyOk(p) && Ranks(p, uses)
    ensures Ranks(OnRemove(p, k), uses - {k})
  {
    match p
    case Noop =>
    case Lru(order) => LruRemoveKeepsRanks(order, uses, k);
    case Lfu(l) => LfuRemoveKeepsRanks(l, uses, k);
  }

  lemma PutKeepsList(s: seq<Key>, uses: Uses, k: Key, use: Use)
    requires Rising(s, uses) && k !in s && Before(uses, use.last)
    ensures Rising(s, uses[k := use]) && Rising(s + [k], uses[k := use])
  {
    if s != [] {
      RisingFirst(s, uses);
    }
    RisingFrame(s, uses, uses[k := use]);
    RisingAppend(s, uses[k := use], k);
  }

  lemma PutKeepsRising(l: Frequencies, uses: Uses, k: Key, use: Use)
    requires FrequenciesOk(l) && AllRising(l.freqLists, uses) && k !in l.items && Before(uses, use.last)
    ensures AllRising(Put(l, k, use.count).freqLists, uses[k := use])
  {
    var lists := Put(l, k, use.count).freqLists;
    forall f | f in lists ensures Rising(lists[f], uses[k := use]) {
      assert f in l.freqLists ==> ListOk(l, f, l.freqLists[f]);
      PutKeepsList(Bucket(l, f), uses, k, use);
    }
  }

  lemma PutKeepsCount(l: Frequencies, uses: Uses, k: Key, use: Use)
    requires Counted(l.items, uses)
    ensures Counted(Put(l, k, use.count).items, uses[k := use])
  {
    assert forall x :: x in uses.Keys <==> x in l.items.Keys;
  }

  lemma PutKeepsRanks(l: Frequencies, uses: Uses, k: Key, use: Use)
    requires FrequenciesOk(l) && LfuRanks(l, uses) && k !in l.items && Before(uses, use.last)
    ensures LfuRanks(Put(l, k, use.count), uses[k := use])
  {
    PutKeepsRising(l, uses, k, use);
    PutKeepsCount(l, uses, k, use);
  }

  lemma WriteIsRemoveAndAdd(uses: Uses, k: Key, now: nat)
    requires k in uses && Before(uses, now)
    ensures Before(uses - {k}, now) && (uses - {k})[k := Use(uses[k].count + 1, now)] == Written(uses, k, now)
  {
    assert (uses - {k})[k := Use(uses[k].count + 1, now)] == Written(uses, k, now);
  }

  lemma PutBack(l: Frequencies, taken: Frequencies, rest: Uses, k: Key, use: Use)
    requires k in l.items && use.count == l.items[k] + 1 && LfuRemove(l, k) == taken && k !in taken.items
    requires FrequenciesOk(taken) && LfuRanks(taken, rest) && Before(rest, use.last)
    ensures LfuRanks(Bump(l, k), rest[k := use])
  {
    PutKeepsRanks(taken, rest, k, use);
  }

  lemma BumpKeepsRanks(l: Frequencies, uses: Uses, k: Key, now: nat)
    requires FrequenciesOk(l) && LfuRanks(l, uses) && k in l.items && Before(uses, now)
    ensures LfuRanks(Bump(l, k), Written(uses, k, now))
  {
    RemoveOk(l, k);
    LfuRemoveKeepsRanks(l, uses, k);
    assert k in uses.Keys && l.items[k] == uses[k].count;
    WriteIsRemoveAndAdd(uses, k, now);
    PutBack(l, LfuRemove(l, k), uses - {k}, k, Use(uses[k].count + 1, now));
  }

  lemma FrontKeepsRanks(order: seq<Key>, uses: Uses, k: Key, now: nat)
    requires LruRanks(order, uses) && Before(uses, now)
    ensures LruRanks([k] + Without(order, k), Written(uses, k, now))
  {
    var uses' := Written(uses, k, now);
    var rest := Without(order, k);
    FallingWithout(order, uses, k);
    forall x | x in rest ensures x in uses && x in uses' && uses'[x] == uses[x] {
      assert x in order;
    }
    FallingFrame(rest, uses, uses');
    assert ([k] + rest)[1..] == rest;
    assert (set x | x in [k] + rest) == uses'.Keys;
  }

  /** A write, of a resident key or a new one, keeps policy and record in step. */
  lemma WriteKeepsRanks(p: Policy, uses: Uses, k: Key, now: nat)
    requires PolicyOk(p) && Ranks(p, uses) && Before(uses, now)
    ensures k !in uses ==> Ranks(OnAdd(p, k), Written(uses, k, now))
    ensures k in uses ==> Ranks(OnAccess(p, k), Written(uses, k, now))
  {
    match p
    case Noop =>
    case Lru(order) =>
      assert k in uses.Keys <==> k in order;
      FrontKeepsRanks(order, uses, k, now);
    case Lfu(l) =>
      assert k in uses.Keys <==> k in l.items;
      if k in uses {
        BumpKeepsRanks(l, uses, k, now);
      } else {
        PutKeepsRanks(l, uses, k, Use(1, now));
      }
  }

  // ---- The victim ----

  /** `minFreq` names the smallest frequency in use. */
  ghost predicate MinExact(p: Policy) {
    p.Lfu? ==> p.lfu.minFreq == MinOf(p.lfu.freqLists.Keys)
  }

  lemma AddMakesMinExact(p: Policy, k: Key)
    requires PolicyOk(p) && k !in Tracked(p)
    ensures MinExact(OnAdd(p, k))
  {
    if p.Lfu? {
      var l' := LfuAdd(p.lfu, k);
      assert 1 in l'.freqLists.Keys;
      forall f | f in l'.freqLists ensures f >= 1 {
        assert f in p.lfu.freqLists ==> ListOk(p.lfu, f, p.lfu.freqLists[f]);
      }
    }
  }

  lemma EvictKeepsMinExact(p: Policy)
    requires PolicyOk(p) && MinExact(p)
    ensures MinExact(Evict(p).0)
  {
    if p.Lfu? && p.lfu.items != map[] {
      var l := p.lfu;
      EvictIsRemove(l);
      var l' := LfuEvict(l).0;
      var low := MinOf(l.freqLists.Keys);
      if low in l'.freqLists {
        assert l'.freqLists.Keys == l.freqLists.Keys;
      }
    }
  }

  /** What an LFU eviction takes: the oldest key of the frequency it looks at. */
  lemma LfuEvicted(l: Frequencies, uses: Uses)
    requires FrequenciesOk(l) && LfuRanks(l, uses) && l.items != map[]
    ensures
      LfuEvict(l).1.Some? && var k := LfuEvict(l).1.value;
      k in uses && uses[k].count == EvictFreq(l)
      && forall x | x in uses && uses[x].count == EvictFreq(l) :: uses[k].last <= uses[x].last
  {
    EvictIsRemove(l);
    var f := EvictFreq(l);
    RisingFirst(l.freqLists[f], uses);
    forall x | x in uses && uses[x].count == f ensures x in l.freqLists[f] {
      assert x in l.items;
    }
  }

  lemma LowestInUse(l: Frequencies, uses: Uses) returns (x: Key)
    requires FrequenciesOk(l) && LfuRanks(l, uses) && l.items != map[]
    ensures x in uses && uses[x].count == MinOf(l.freqLists.Keys)
    ensures forall y | y in uses :: MinOf(l.freqLists.Keys) <= uses[y].count
  {
    EvictFreqInUse(l);
    var low := MinOf(l.freqLists.Keys);
    assert low in l.freqLists && ListOk(l, low, l.freqLists[low]);
    x := l.freqLists[low][0];
    assert x in l.freqLists[low];
    forall y | y in uses ensures low <= uses[y].count {
      assert y in l.items && l.items[y] in l.freqLists.Keys;
    }
  }

  /** An LFU policy evicts the right key if and only if its `minFreq` names no list at all or the lowest one. */
  lemma LfuEvictsVictimIff(l: Frequencies, uses: Uses)
    requires FrequenciesOk(l) && LfuRanks(l, uses) && l.items != map[]
    ensures LfuEvict(l).1.Some?
    ensures IsVictim(Lfu(l), uses, LfuEvict(l).1.value) <==>
              l.minFreq !in l.freqLists || l.minFreq == MinOf(l.freqLists.Keys)
  {
    LfuEvicted(l, uses);
    var x := LowestInUse(l, uses);
    VictimIff(l, uses, LfuEvict(l).1.value, EvictFreq(l), MinOf(l.freqLists.Keys), x);
    EvictFreqIff(l);
  }

  lemma VictimIff(l: Frequencies, uses: Uses, k: Key, f: nat, low: nat, x: Key)
    requires k in uses && uses[k].count == f && forall y | y in uses && uses[y].count == f :: uses[k].last <= uses[y].last
    requires x in uses && uses[x].count == low && forall y | y in uses :: low <= uses[y].count
    ensures IsVictim(Lfu(l), uses, k) <==> f == low
  {
  }

  lemma EvictFreqIff(l: Frequencies)
    requires FrequenciesOk(l)
    ensures EvictFreq(l) == MinOf(l.freqLists.Keys) <==>
              l.minFreq !in l.freqLists || l.minFreq == MinOf(l.freqLists.Keys)
  {
    assert l.minFreq in l.freqLists ==> ListOk(l, l.minFreq, l.freqLists[l.minFreq]);
  }

  lemma LruEvictsVictim(order: seq<Key>, uses: Uses)
    requires NoDup(order) && LruRanks(order, uses) && uses != map[]
    ensures
      order != [] && var k := order[|order| - 1];
      IsVictim(Lru(order), uses, k) && LruRanks(order[..|order| - 1], uses - {k})
  {
    var u :| u in uses;
    assert u in order;
    FallingLast(order, uses);
    FallingButLast(order, uses);
    LruEvictOk(order);
    var rest, k := order[..|order| - 1], order[|order| - 1];
    forall x | x in rest ensures x in uses - {k} {
      assert x in (set y | y in rest);
    }
    FallingFrame(rest, uses, uses - {k});
    assert (set x | x in rest) == (uses - {k}).Keys;
  }

  lemma LfuEvictKeepsRanks(l: Frequencies, uses: Uses)
    requires FrequenciesOk(l) && LfuRanks(l, uses) && l.items != map[]
    ensures LfuEvict(l).1.Some? && LfuRanks(LfuEvict(l).0, uses - {LfuEvict(l).1.value})
  {
    EvictIsRemove(l);
    MinFreqIsFree(l, EvictFreq(l));
    LfuRemoveKeepsRanks(l.(minFreq := EvictFreq(l)), uses, LfuEvict(l).1.value);
  }

  /** Right after a new key has been added, and after evictions that follow it, the victim is the right one. */
  lemma EvictsVictim(p: Policy, uses: Uses)
    requires PolicyOk(p) && Ranks(p, uses) && MinExact(p) && !p.Noop? && uses != map[]
    ensures Evict(p).1.Some? && IsVictim(p, uses, Evict(p).1.value)
    ensures Ranks(Evict(p).0, uses - {Evict(p).1.value})
  {
    match p
    case Lru(order) =>
      LruEvictsVictim(order, uses);
    case Lfu(l) =>
      var u :| u in uses;
      assert u in l.items;
      LfuEvictsVictimIff(l, uses);
      LfuEvictKeepsRanks(l, uses);
  }

  // ---- minFreq on its own is not to be trusted ----

  lemma {:induction false} WithoutIsEmptyIff(s: seq<Key>, k: Key)
    requires NoDup(s) && k in s
    ensures Without(s, k) == [] <==> s == [k]
  {
    if |s| == 1 {
      assert s[1..] == [];
    } else {
      var other := if s[0] == k then s[1] else s[0];
      assert other in Without(s, k);
    }
  }

  /** `BumpKeepsMinExactIff` when the key leaves an empty list behind. */
  lemma EmptiedMin(keys: set<nat>, f: nat, low: nat)
    requires f in keys && low == MinOf(keys)
    ensures (if low == f then MinOf(keys - {f}) else low) == MinOf(keys - {f} + {f + 1}) <==> low != f || f + 1 in keys
  {
    var rest := keys - {f};
    if f + 1 in keys {
      assert rest + {f + 1} == rest;
    } else if low == f {
      assert f + 1 in rest + {f + 1} && f + 1 !in rest;
    }
    if low != f {
      assert low in rest + {f + 1};
    }
  }

  lemma KeptMin(keys: set<nat>, f: nat)
    requires f in keys
    ensures MinOf(keys + {f + 1}) == MinOf(keys)
  {
  }

  /** A bump keeps an exact `minFreq` exact unless its key was alone at the lowest frequency and is alone at the next. */
  lemma BumpKeepsMinExactIff(l: Frequencies, k: Key)
    requires FrequenciesOk(l) && MinExact(Lfu(l)) && k in l.items
    ensures MinExact(Lfu(Bump(l, k))) <==>
              l.freqLists[l.items[k]] != [k] || l.items[k] != l.minFreq || l.items[k] + 1 in l.freqLists
  {
    var f := l.items[k];
    assert ListOk(l, f, l.freqLists[f]);
    WithoutIsEmptyIff(l.freqLists[f], k);
    BumpedLists(l, k, f);
    if l.freqLists[f] == [k] {
      EmptiedMin(l.freqLists.Keys, f, l.minFreq);
    } else {
      KeptMin(l.freqLists.Keys, f);
    }
  }

  lemma BumpedLists(l: Frequencies, k: Key, f: nat)
    requires k in l.items && f == l.items[k] && f in l.freqLists
    ensures
      var l', keys := Bump(l, k), l.freqLists.Keys;
      if Without(l.freqLists[f], k) == []
      then l'.freqLists.Keys == keys - {f} + {f + 1} && l'.minFreq == if l.minFreq == f then MinOf(keys - {f}) else l.minFreq
      else l'.freqLists.Keys == keys + {f + 1} && l'.minFreq == l.minFreq
  {
    assert (l.freqLists - {f}).Keys == l.freqLists.Keys - {f};
  }

  const NO_KEYS := Frequencies(map[], map[], 0)

  /**
   * Two keys written three times and once; when the second is written again, `minFreq` skips its new
   * frequency and an eviction would take the key written more often.
   */
  lemma BumpCanLeaveMinFreqStale(a: Key, b: Key)
    requires a != b
    ensures
      var l := LfuAdd(Bump(Bump(LfuAdd(NO_KEYS, b), b), b), a);
      && FrequenciesOk(l) && MinExact(Lfu(l)) && a in l.items && !MinExact(Lfu(Bump(l, a)))
      && Bump(l, a).items == map[a := 2, b := 3] && LfuEvict(Bump(l, a)).1 == Some(b)
  {
    AloneBump(b, 1);
    AloneBump(b, 2);
    var l := Frequencies(map[a := 1, b := 3], map[1 := [a], 3 := [b]], 1);
    AddBesides(a, b);
    assert l.freqLists.Keys == {1, 3};
    assert ListOk(l, 1, [a]) && ListOk(l, 3, [b]);
    BumpKeepsMinExactIff(l, a);
    StaleBump(a, b);
  }

  lemma AddBesides(a: Key, b: Key)
    requires a != b
    ensures LfuAdd(Alone(b, 3, 0), a) == Frequencies(map[a := 1, b := 3], map[1 := [a], 3 := [b]], 1)
  {
    var added: seq<Key> := [] + [a];
    assert added == [a];
    assert map[3 := [b]][1 := added] == map[1 := [a], 3 := [b]];
    assert map[b := 3][a := 1] == map[a := 1, b := 3];
  }

  function Alone(k: Key, f: nat, low: nat): Frequencies {
    Frequencies(map[k := f], map[f := [k]], low)
  }

  lemma AloneBump(k: Key, f: nat)
    ensures LfuAdd(NO_KEYS, k) == Alone(k, 1, 1)
    ensures Bump(Alone(k, f, f), k) == Alone(k, f + 1, 0) && (f > 0 ==> Bump(Alone(k, f, 0), k) == Alone(k, f + 1, 0))
  {
    var added: seq<Key> := [] + [k];
    assert added == [k];
    var l := Alone(k, f, f);
    assert Without([k], k) == [];
    assert l.freqLists - {f} == map[] && l.items - {k} == map[];
    assert (l.freqLists - {f}).Keys == {};
  }

  lemma StaleBump(a: Key, b: Key)
    requires a != b
    ensures Bump(Frequencies(map[a := 1, b := 3], map[1 := [a], 3 := [b]], 1), a) ==
            Frequencies(map[a := 2, b := 3], map[2 := [a], 3 := [b]], 3)
  {
    var l := Frequencies(map[a := 1, b := 3], map[1 := [a], 3 := [b]], 1);
    assert Bucket(l, 1) == [a] && Without([a], a) == [];
    var lists := l.freqLists - {1};
    assert lists == map[3 := [b]];
    assert lists.Keys == {3};
    assert MinOf(lists.Keys) == 3;
    assert Take(l, a, 1) == Frequencies(l.items, lists, 3);
    assert l.items - {a} == map[b := 3];
    assert LfuRemove(l, a) == Frequencies(map[b := 3], map[3 := [b]], 3);
    var added: seq<Key> := [] + [a];
    assert added == [a];
    assert map[3 := [b]][2 := added] == map[2 := [a], 3 := [b]];
  }
}
