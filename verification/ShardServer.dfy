/**
 * The loops of shard.go, each proved against the value it should compute. A shard and its
 * sub-shards are values here; the cache object holds the current ones.
 */
module ShardServer {
  import opened Bytes
  import opened Collections
  import opened Eviction
  import opened EvictionRuns
  import opened Hashing
  import opened SubShards
  import opened Tables
  import opened Migration
  import opened CacheModel
  import opened CacheInvariant
  import opened CacheCounting

  ghost predicate SubsOk(sh: Shard) {
    |sh.subs| > 0 && forall j | 0 <= j < |sh.subs| :: SubOk(sh.subs[j])
  }

  method NewShardOf(p: Policy, maxSize: nat) returns (sh: Shard)
    ensures sh == NewShard(p, maxSize)
  {
    var nSub := EffectiveSubShards(maxSize);
    var subMax := maxSize / nSub;
    if subMax < 1 && maxSize > 0 {
      subMax := 1;
    }
    var subs: seq<Sub> := [];
    for i := 0 to nSub
      invariant |subs| == i && forall j | 0 <= j < i :: subs[j] == Sub(map[], p)
    {
      subs := subs + [Sub(map[], p)];
    }
    sh := Shard(subs, subMax);
  }

  method Set(sh: Shard, k: Key, value: Bytes, ttl: nat, now: nat) returns (sh': Shard, evicted: seq<Key>)
    requires SubsOk(sh)
    ensures
      var (s, ks) := SubSet(sh.subs[Room(sh, k)], k, value, ttl, now, sh.maxSub);
      sh' == WithSub(sh, Room(sh, k), s) && evicted == ks
  {
    var idx := SubIndex(k, |sh.subs|);
    var entries, policy := sh.subs[idx].entries, sh.subs[idx].policy;
    var existed := k in entries;
    entries := entries[k := NewEntry(value, ttl, now)];
    evicted := [];
    if existed {
      policy := OnAccess(policy, k);
    } else {
      AddOk(sh.subs[idx], k, NewEntry(value, ttl, now));
      policy := OnAdd(policy, k);
      ghost var added := Sub(entries, policy);
      while sh.maxSub > 0 && |entries| > sh.maxSub
        invariant SubOk(Sub(entries, policy))
        invariant Shrink(added, sh.maxSub).0 == Shrink(Sub(entries, policy), sh.maxSub).0
        invariant Shrink(added, sh.maxSub).1 == evicted + Shrink(Sub(entries, policy), sh.maxSub).1
        decreases |entries|
      {
        EvictOneOk(Sub(entries, policy));
        var (p, victim) := Evict(policy);
        if victim.None? {
          break;
        }
        ghost var before := Sub(entries, policy);
        policy := p;
        entries := entries - {victim.value};
        assert Shrink(before, sh.maxSub).1 == [victim.value] + Shrink(Sub(entries, policy), sh.maxSub).1;
        evicted := evicted + [victim.value];
      }
    }
    sh' := sh.(subs := sh.subs[idx := Sub(entries, policy)]);
  }

  method Get(sh: Shard, k: Key, now: nat) returns (sh': Shard, value: Option<Bytes>)
    requires |sh.subs| > 0
    ensures
      var (s, v) := SubGet(sh.subs[Room(sh, k)], k, now);
      sh' == WithSub(sh, Room(sh, k), s) && value == v
  {
    var idx := SubIndex(k, |sh.subs|);
    var sub := sh.subs[idx];
    if k !in sub.entries {
      assert sh.subs[idx := sub] == sh.subs;
      return sh, None;
    }
    if Expired(sub.entries[k], now) {
      return sh.(subs := sh.subs[idx := Sub(sub.entries - {k}, OnRemove(sub.policy, k))]), None;
    }
    assert sh.subs[idx := sub] == sh.subs;
    return sh, Some(sub.entries[k].value);
  }

  method Del(sh: Shard, k: Key) returns (sh': Shard)
    requires |sh.subs| > 0
    ensures sh' == WithSub(sh, Room(sh, k), SubDel(sh.subs[Room(sh, k)], k))
  {
    var idx := SubIndex(k, |sh.subs|);
    var sub := sh.subs[idx];
    if k in sub.entries {
      sub := Sub(sub.entries - {k}, OnRemove(sub.policy, k));
    }
    sh' := sh.(subs := sh.subs[idx := sub]);
  }

  // ---- Iterating over entries ----

  method CountLiveIn(s: Sub, now: nat) returns (n: nat)
    ensures n == |Pick(s, Live(now))|
  {
    n := 0;
    var rest := s.entries.Keys;
    ghost var seen := {};
    while rest != {}
      invariant rest <= s.entries.Keys
      invariant seen == (set k | k in s.entries && k !in rest && !Expired(s.entries[k], now)) && n == |seen|
      decreases |rest|
    {
      var k :| k in rest;
      if !Expired(s.entries[k], now) {
        n := n + 1;
        seen := seen + {k};
      }
      rest := rest - {k};
    }
    assert seen == Pick(s, Live(now));
  }

  method Len(sh: Shard, now: nat) returns (count: nat)
    ensures count == CountSubs(sh.subs, Live(now))
  {
    count := 0;
    for i := 0 to |sh.subs|
      invariant count == CountSubs(sh.subs[..i], Live(now))
    {
      var n := CountLiveIn(sh.subs[i], now);
      assert sh.subs[..i + 1][..i] == sh.subs[..i];
      count := count + n;
    }
    assert sh.subs[..|sh.subs|] == sh.subs;
  }

  lemma SnocNoDup(ks: seq<Key>, k: Key)
    requires NoDup(ks) && k !in ks
    ensures NoDup(ks + [k]) && KeySet(ks + [k]) == KeySet(ks) + {k}
  {
  }

  lemma SnocDelAll(s: Sub, ks: seq<Key>, k: Key)
    ensures DelAll(s, ks + [k]) == SubDel(DelAll(s, ks), k)
  {
    assert (ks + [k])[..|ks|] == ks;
  }

  /** The loop has removed the keys `ks`, in that order; `rest` is still to be looked at. */
  ghost predicate Cleaning(s: Sub, now: nat, ks: seq<Key>, rest: set<Key>, s': Sub) {
    rest <= s.entries.Keys && NoDup(ks) && KeySet(ks) == ExpiredKeys(s, now) - rest && s' == DelAll(s, ks)
  }

  lemma CleanOne(s: Sub, now: nat, ks: seq<Key>, rest: set<Key>, s': Sub, k: Key)
    requires SubOk(s) && Cleaning(s, now, ks, rest, s') && k in rest
    ensures Expired(s.entries[k], now) ==> Cleaning(s, now, ks + [k], rest - {k}, Sub(s'.entries - {k}, OnRemove(s'.policy, k)))
    ensures !Expired(s.entries[k], now) ==> Cleaning(s, now, ks, rest - {k}, s')
  {
    assert k !in KeySet(ks);
    DelAllOk(s, ks);
    SnocNoDup(ks, k);
    SnocDelAll(s, ks, k);
    if Expired(s.entries[k], now) {
      assert ExpiredKeys(s, now) - (rest - {k}) == ExpiredKeys(s, now) - rest + {k};
    } else {
      assert ExpiredKeys(s, now) - (rest - {k}) == ExpiredKeys(s, now) - rest;
    }
  }

  method CleanupSub(s: Sub, now: nat) returns (s': Sub, removed: nat, ghost ks: seq<Key>)
    requires SubOk(s)
    ensures NoDup(ks) && KeySet(ks) == ExpiredKeys(s, now) && s' == DelAll(s, ks)
    ensures removed == |ExpiredKeys(s, now)|
  {
    s', removed, ks := s, 0, [];
    var rest := s.entries.Keys;
    while rest != {}
      invariant Cleaning(s, now, ks, rest, s') && removed == |ks|
      decreases |rest|
    {
      var k :| k in rest;
      CleanOne(s, now, ks, rest, s', k);
      if Expired(s.entries[k], now) {
        s' := Sub(s'.entries - {k}, OnRemove(s'.policy, k));
        ks := ks + [k];
        removed := removed + 1;
      }
      rest := rest - {k};
    }
    KeySetSize(ks);
  }

  ghost predicate Adding(s: Sub, p: Policy, ks: seq<Key>, rest: set<Key>, policy: Policy) {
    rest <= s.entries.Keys && NoDup(ks) && KeySet(ks) == s.entries.Keys - rest && policy == AddAll(p, ks)
  }

  lemma AddOne(s: Sub, p: Policy, ks: seq<Key>, rest: set<Key>, policy: Policy, k: Key)
    requires Adding(s, p, ks, rest, policy) && k in rest
    ensures Adding(s, p, ks + [k], rest - {k}, OnAdd(policy, k))
  {
    assert k !in KeySet(ks);
    SnocNoDup(ks, k);
    assert (ks + [k])[..|ks|] == ks;
    assert s.entries.Keys - (rest - {k}) == s.entries.Keys - rest + {k};
  }

  method SwapSub(s: Sub, p: Policy) returns (s': Sub, ghost ks: seq<Key>)
    ensures NoDup(ks) && KeySet(ks) == s.entries.Keys && s' == Sub(s.entries, AddAll(p, ks))
  {
    var policy := p;
    ks := [];
    var rest := s.entries.Keys;
    while rest != {}
      invariant Adding(s, p, ks, rest, policy)
      decreases |rest|
    {
      var k :| k in rest;
      AddOne(s, p, ks, rest, policy, k);
      policy := OnAdd(policy, k);
      ks := ks + [k];
      rest := rest - {k};
    }
    s' := Sub(s.entries, policy);
  }

  ghost predicate ShardCleaned(sh: Shard, now: nat, sh': Shard) {
    |sh'.subs| == |sh.subs| && sh'.maxSub == sh.maxSub
    && forall j | 0 <= j < |sh.subs| :: SubCleaned(sh.subs[j], now, sh'.subs[j])
  }

  ghost predicate ShardSwapped(sh: Shard, p: Policy, sh': Shard) {
    |sh'.subs| == |sh.subs| && sh'.maxSub == sh.maxSub
    && forall j | 0 <= j < |sh.subs| :: SubSwapped(sh.subs[j], p, sh'.subs[j])
  }

  method Cleanup(sh: Shard, now: nat) returns (sh': Shard, removed: nat)
    requires SubsOk(sh)
    ensures ShardCleaned(sh, now, sh') && removed == CountSubs(sh.subs, Dead(now))
  {
    var subs: seq<Sub> := [];
    removed := 0;
    for i := 0 to |sh.subs|
      invariant |subs| == i && removed == CountSubs(sh.subs[..i], Dead(now))
      invariant forall j | 0 <= j < i :: SubCleaned(sh.subs[j], now, subs[j])
    {
      var sub, n, ks := CleanupSub(sh.subs[i], now);
      assert SubCleaned(sh.subs[i], now, sub);
      assert sh.subs[..i + 1][..i] == sh.subs[..i];
      subs := subs + [sub];
      removed := removed + n;
    }
    assert sh.subs[..|sh.subs|] == sh.subs;
    sh' := sh.(subs := subs);
  }

  method SwapPolicyIn(sh: Shard, p: Policy) returns (sh': Shard)
    ensures ShardSwapped(sh, p, sh')
  {
    var subs: seq<Sub> := [];
    for i := 0 to |sh.subs|
      invariant |subs| == i && forall j | 0 <= j < i :: SubSwapped(sh.subs[j], p, subs[j])
    {
      var sub, ks := SwapSub(sh.subs[i], p);
      assert SubSwapped(sh.subs[i], p, sub);
      subs := subs + [sub];
    }
    sh' := sh.(subs := subs);
  }

  // ---- Extraction ----

  lemma SnocItems(m: map<Key, Entry>, ks: seq<Key>, k: Key, now: nat)
    requires k in m && forall x | x in ks :: x in m
    ensures ItemsOf(m, ks + [k], now) == ItemsOf(m, ks, now) + if Expired(m[k], now) then [] else [ItemOf(k, m[k], now)]
  {
    assert (ks + [k])[..|ks|] == ks;
  }

  /** The inner loop has visited the keys `ks`, in that order, and `rest` is still to come. */
  ghost predicate Visited(s: Sub, ks: seq<Key>, rest: set<Key>, s': Sub, items: seq<Item>, now: nat) {
    Visits(s, ks) && rest <= s.entries.Keys && KeySet(ks) == s.entries.Keys - rest
    && s' == DelAll(s, ks) && items == ItemsOf(s.entries, ks, now)
  }

  lemma VisitOne(s: Sub, ks: seq<Key>, rest: set<Key>, s': Sub, items: seq<Item>, now: nat, k: Key)
    requires SubOk(s) && Visited(s, ks, rest, s', items, now) && k in rest
    ensures
      var items' := items + if Expired(s.entries[k], now) then [] else [ItemOf(k, s.entries[k], now)];
      Visited(s, ks + [k], rest - {k}, Sub(s'.entries - {k}, OnRemove(s'.policy, k)), items', now)
  {
    assert k !in KeySet(ks);
    SnocNoDup(ks, k);
    SnocDelAll(s, ks, k);
    SnocItems(s.entries, ks, k, now);
    DelAllOk(s, ks);
  }

  /** The inner loop: visit keys until there are enough items or no keys left. */
  method ExtractFrom(s: Sub, room: nat, now: nat) returns (s': Sub, items: seq<Item>, ghost ks: seq<Key>)
    requires SubOk(s) && room > 0
    ensures Visits(s, ks) && s' == DelAll(s, ks) && items == ItemsOf(s.entries, ks, now)
    ensures |items| <= room && (|items| == room || KeySet(ks) == s.entries.Keys)
  {
    s', items, ks := s, [], [];
    var rest := s.entries.Keys;
    while rest != {}
      invariant Visited(s, ks, rest, s', items, now) && |items| < room
      decreases |rest|
    {
      var k :| k in rest;
      VisitOne(s, ks, rest, s', items, now, k);
      var e := s.entries[k];
      s' := Sub(s'.entries - {k}, OnRemove(s'.policy, k));
      rest := rest - {k};
      ks := ks + [k];
      if e.expiresAt > 0 && now >= e.expiresAt {
        assert items + [] == items;
        continue;
      }
      var ttl := 0;
      if e.expiresAt > 0 {
        ttl := e.expiresAt - now;
      }
      items := items + [Item(k, e.value, ttl)];
      if |items| >= room {
        return;
      }
    }
  }

  lemma SnocAllItems(subs: seq<Sub>, visits: seq<seq<Key>>, s: Sub, ks: seq<Key>, now: nat)
    requires |subs| == |visits| && (forall j | 0 <= j < |subs| :: Visits(subs[j], visits[j])) && Visits(s, ks)
    ensures forall j | 0 <= j < |subs + [s]| :: Visits((subs + [s])[j], (visits + [ks])[j])
    ensures AllItems(subs + [s], visits + [ks], now) == AllItems(subs, visits, now) + ItemsOf(s.entries, ks, now)
  {
    assert (subs + [s])[..|subs|] == subs && (visits + [ks])[..|visits|] == visits;
  }

  /** The outer loop has been through the first i sub-shards. */
  ghost predicate WalkedSubs(sh: Shard, i: nat, visits: seq<seq<Key>>, sh': Shard) {
    && i == |visits| <= |sh.subs| == |sh'.subs| && sh'.maxSub == sh.maxSub
    && (forall j | 0 <= j < i :: Visits(sh.subs[j], visits[j]) && sh'.subs[j] == DelAll(sh.subs[j], visits[j]))
    && (forall j | i <= j < |sh.subs| :: sh'.subs[j] == sh.subs[j])
  }

  ghost predicate WalkedCount(subs: seq<Sub>, subs': seq<Sub>, items: seq<Item>, n: nat, now: nat) {
    && |items| <= n && |items| <= CountSubs(subs, Live(now))
    && (|items| < n ==> |items| == CountSubs(subs, Live(now)) && EmptySubs(subs'))
  }

  ghost predicate Walked(sh: Shard, i: nat, visits: seq<seq<Key>>, sh': Shard, items: seq<Item>, n: nat, now: nat) {
    && WalkedSubs(sh, i, visits, sh') && items == AllItems(sh.subs[..i], visits, now)
    && WalkedCount(sh.subs[..i], sh'.subs[..i], items, n, now)
  }

  lemma WalkStart(sh: Shard, n: nat, now: nat)
    ensures Walked(sh, 0, [], sh, [], n, now)
  {
  }

  lemma WalkOne(sh: Shard, i: nat, visits: seq<seq<Key>>, sh': Shard, items: seq<Item>, n: nat, now: nat,
                ks: seq<Key>, more: seq<Item>, sh1: Shard)
    requires SubsOk(sh) && Walked(sh, i, visits, sh', items, n, now) && i < |sh.subs| && |items| < n
    requires Visits(sh.subs[i], ks) && more == ItemsOf(sh.subs[i].entries, ks, now)
    requires |items| + |more| <= n && (|items| + |more| == n || KeySet(ks) == sh.subs[i].entries.Keys)
    requires sh1 == WithSub(sh', i, DelAll(sh.subs[i], ks))
    ensures Walked(sh, i + 1, visits + [ks], sh1, items + more, n, now)
  {
    WalkedItems(sh, i, visits, items, now, ks, more);
    WalkOneCount(sh, i, sh', items, n, now, ks, more, sh1);
    assert WalkedSubs(sh, i + 1, visits + [ks], sh1);
  }

  lemma WalkOneCount(sh: Shard, i: nat, sh': Shard, items: seq<Item>, n: nat, now: nat, ks: seq<Key>, more: seq<Item>, sh1: Shard)
    requires i < |sh.subs| == |sh'.subs| && SubOk(sh.subs[i]) && WalkedCount(sh.subs[..i], sh'.subs[..i], items, n, now) && |items| < n
    requires Visits(sh.subs[i], ks) && more == ItemsOf(sh.subs[i].entries, ks, now)
    requires |items| + |more| <= n && (|items| + |more| == n || KeySet(ks) == sh.subs[i].entries.Keys)
    requires sh1 == WithSub(sh', i, DelAll(sh.subs[i], ks))
    ensures WalkedCount(sh.subs[..i + 1], sh1.subs[..i + 1], items + more, n, now)
  {
    VisitedAll(sh.subs[i], ks, now);
    assert sh.subs[..i + 1][..i] == sh.subs[..i];
    assert forall j | 0 <= j < i :: sh1.subs[..i + 1][j] == sh'.subs[..i][j];
  }

  lemma WalkedItems(sh: Shard, i: nat, visits: seq<seq<Key>>, items: seq<Item>, now: nat, ks: seq<Key>, more: seq<Item>)
    requires i == |visits| < |sh.subs| && forall j | 0 <= j < i :: Visits(sh.subs[j], visits[j])
    requires items == AllItems(sh.subs[..i], visits, now)
    requires Visits(sh.subs[i], ks) && more == ItemsOf(sh.subs[i].entries, ks, now)
    ensures forall j | 0 <= j < i + 1 :: Visits(sh.subs[..i + 1][j], (visits + [ks])[j])
    ensures items + more == AllItems(sh.subs[..i + 1], visits + [ks], now)
    ensures CountSubs(sh.subs[..i + 1], Live(now)) == CountSubs(sh.subs[..i], Live(now)) + |Pick(sh.subs[i], Live(now))|
  {
    SnocAllItems(sh.subs[..i], visits, sh.subs[i], ks, now);
    assert sh.subs[..i + 1] == sh.subs[..i] + [sh.subs[i]];
    assert sh.subs[..i + 1][..i] == sh.subs[..i];
  }

  lemma WalkedAll(sh: Shard, visits: seq<seq<Key>>, sh': Shard, items: seq<Item>, n: nat, now: nat)
    requires Walked(sh, |sh.subs|, visits, sh', items, n, now) && |items| < n
    ensures CountSubs(sh.subs, Live(now)) < n
  {
    assert sh.subs[..|sh.subs|] == sh.subs;
  }

  method WalkSub(ghost sh: Shard, i: nat, ghost visits: seq<seq<Key>>, sh': Shard, items: seq<Item>, n: nat, now: nat)
    returns (sh1: Shard, items1: seq<Item>, ghost visits1: seq<seq<Key>>)
    requires SubsOk(sh) && Walked(sh, i, visits, sh', items, n, now) && i < |sh.subs| && |items| < n
    ensures Walked(sh, i + 1, visits1, sh1, items1, n, now)
  {
    assert sh'.subs[i] == sh.subs[i];
    var sub, more, ks := ExtractFrom(sh'.subs[i], n - |items|, now);
    sh1, items1, visits1 := WithSub(sh', i, sub), items + more, visits + [ks];
    WalkOne(sh, i, visits, sh', items, n, now, ks, more, sh1);
  }

  /**
   * Moves up to n entries out of a shard. The walk always goes over eight sub-shards: a shard with
   * fewer is a nil dereference exactly when its live entries do not fill the batch.
   */
  method ExtractN(sh: Shard, n: nat, now: nat) returns (panics: bool, sh': Shard, items: seq<Item>)
    requires SubsOk(sh) && |sh.subs| <= SUB_SHARDS && n > 0
    ensures panics <==> |sh.subs| < SUB_SHARDS && CountSubs(sh.subs, Live(now)) < n
    ensures !panics ==> Extracted(sh, n, now, items, sh')
  {
    panics, sh', items := false, sh, [];
    ghost var visits: seq<seq<Key>> := [];
    WalkStart(sh, n, now);
    var i := 0;
    while i < SUB_SHARDS && |items| < n
      invariant 0 <= i <= SUB_SHARDS && Walked(sh, i, visits, sh', items, n, now)
    {
      if i == |sh.subs| {
        WalkedAll(sh, visits, sh', items, n, now);
        return true, sh', items;
      }
      sh', items, visits := WalkSub(sh, i, visits, sh', items, n, now);
      i := i + 1;
    }
    Finish(sh, i, visits, n, now, items, sh');
  }

  /** The sub-shards the walk did not reach have not been visited at all. */
  lemma Finish(sh: Shard, i: nat, visits: seq<seq<Key>>, n: nat, now: nat, items: seq<Item>, sh': Shard)
    requires |sh.subs| <= SUB_SHARDS && Walked(sh, i, visits, sh', items, n, now) && (|items| < n ==> i == SUB_SHARDS)
    ensures Extracted(sh, n, now, items, sh')
    ensures |sh.subs| < SUB_SHARDS ==> CountSubs(sh.subs, Live(now)) >= n
  {
    var all := visits + seq(|sh.subs| - i, _ => []);
    UnvisitedItems(sh.subs, visits, all, now, |sh.subs|);
    assert sh.subs[..|sh.subs|] == sh.subs && all[..|sh.subs|] == all;
    assert |items| < n ==> sh'.subs[..i] == sh'.subs;
    assert ExtractedBy(sh, n, now, all, items, sh');
    MoreSubsCount(sh.subs, i, |sh.subs|, Live(now));
  }

  lemma {:induction false} UnvisitedItems(subs: seq<Sub>, visits: seq<seq<Key>>, all: seq<seq<Key>>, now: nat, n: nat)
    requires |visits| <= n <= |subs| == |all| && all[..|visits|] == visits
    requires forall j | 0 <= j < |visits| :: Visits(subs[j], visits[j])
    requires forall j | |visits| <= j < |all| :: all[j] == []
    ensures forall j | 0 <= j < |subs| :: Visits(subs[j], all[j])
    ensures AllItems(subs[..n], all[..n], now) == AllItems(subs[..|visits|], visits, now)
  {
    forall j | 0 <= j < |subs| ensures Visits(subs[j], all[j]) {
      assert j < |visits| ==> all[j] == visits[j];
    }
    if n > |visits| {
      UnvisitedItems(subs, visits, all, now, n - 1);
      NoMoreItems(subs, all, now, n);
    }
  }

  lemma NoMoreItems(subs: seq<Sub>, all: seq<seq<Key>>, now: nat, n: nat)
    requires 0 < n <= |subs| == |all| && all[n - 1] == [] && forall j | 0 <= j < |subs| :: Visits(subs[j], all[j])
    ensures AllItems(subs[..n], all[..n], now) == AllItems(subs[..n - 1], all[..n - 1], now)
  {
    assert subs[..n][..n - 1] == subs[..n - 1] && all[..n][..n - 1] == all[..n - 1];
    assert AllItems(subs[..n - 1], all[..n - 1], now) + [] == AllItems(subs[..n - 1], all[..n - 1], now);
  }

  lemma {:induction false} MoreSubsCount(subs: seq<Sub>, i: nat, n: nat, w: Which)
    requires i <= n <= |subs|
    ensures CountSubs(subs[..i], w) <= CountSubs(subs[..n], w)
  {
    if i < n {
      MoreSubsCount(subs, i, n - 1, w);
      assert subs[..n][..n - 1] == subs[..n - 1];
    }
  }
}
