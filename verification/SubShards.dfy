/**
 * One sub-shard (shard.go): a map of entries and the eviction policy that watches its keys. Every
 * operation takes the clock value it reads.
 */
module SubShards {
  import opened Bytes
  import opened Eviction

  /** `expiresAt` is a time in nanoseconds; 0 stands for no expiry. */
  datatype Entry = Entry(value: Bytes, expiresAt: nat)

  predicate Expired(e: Entry, now: nat) {
    e.expiresAt != 0 && now >= e.expiresAt
  }

  function NewEntry(value: Bytes, ttl: nat, now: nat): Entry {
    Entry(value, if ttl > 0 then now + ttl else 0)
  }

  datatype Sub = Sub(entries: map<Key, Entry>, policy: Policy)

  /** Every policy but the no-op one tracks exactly the keys that have an entry. */
  predicate SubOk(s: Sub) {
    PolicyOk(s.policy) && (s.policy.Noop? || Tracked(s.policy) == s.entries.Keys)
  }

  predicate SameKind(p: Policy, q: Policy) {
    p.Noop? == q.Noop? && p.Lru? == q.Lru?
  }

  function KeySet(ks: seq<Key>): set<Key> {
    set k | k in ks
  }

  // ---- The operations ----

  /** Evict until the size limit holds or the policy has nothing to offer; 0 is no limit. */
  function Shrink(s: Sub, max: nat): (Sub, seq<Key>)
    requires SubOk(s)
    decreases |s.entries|
  {
    if max == 0 || |s.entries| <= max then (s, [])
    else
      EvictOneOk(s);
      match Evict(s.policy).1
      case None => (s, [])
      case Some(k) =>
        var (s', ks) := Shrink(Sub(s.entries - {k}, Evict(s.policy).0), max);
        (s', [k] + ks)
  }

  function SubSet(s: Sub, k: Key, value: Bytes, ttl: nat, now: nat, max: nat): (Sub, seq<Key>)
    requires SubOk(s)
  {
    var entries := s.entries[k := NewEntry(value, ttl, now)];
    if k in s.entries then
      (Sub(entries, OnAccess(s.policy, k)), [])
    else
      AddOk(s, k, NewEntry(value, ttl, now));
      Shrink(Sub(entries, OnAdd(s.policy, k)), max)
  }

  function SubDel(s: Sub, k: Key): Sub {
    if k in s.entries then Sub(s.entries - {k}, OnRemove(s.policy, k)) else s
  }

  /** A read drops the entry it finds expired. */
  function SubGet(s: Sub, k: Key, now: nat): (Sub, Option<Bytes>) {
    if k !in s.entries then (s, None)
    else if Expired(s.entries[k], now) then (SubDel(s, k), None)
    else (s, Some(s.entries[k].value))
  }

  /** Removing keys one by one, in the order a map iteration happens to yield them. */
  function DelAll(s: Sub, ks: seq<Key>): Sub {
    if ks == [] then s else SubDel(DelAll(s, ks[..|ks| - 1]), ks[|ks| - 1])
  }

  /** Telling a fresh policy about every key, in the order a map iteration happens to yield them. */
  function AddAll(p: Policy, ks: seq<Key>): Policy {
    if ks == [] then p else OnAdd(AddAll(p, ks[..|ks| - 1]), ks[|ks| - 1])
  }

  // ---- What they keep ----

  lemma EvictOneOk(s: Sub)
    requires SubOk(s)
    ensures
      var (p, victim) := Evict(s.policy);
      victim.Some? ==> victim.value in s.entries && SubOk(Sub(s.entries - {victim.value}, p))
                       && |s.entries - {victim.value}| == |s.entries| - 1
  {
    EvictOk(s.policy);
    var victim := Evict(s.policy).1;
    if victim.Some? {
      assert (s.entries - {victim.value}).Keys == s.entries.Keys - {victim.value};
      SizeWithout(s.entries, victim.value);
    }
  }

  lemma SizeWithout(m: map<Key, Entry>, k: Key)
    requires k in m
    ensures |m - {k}| == |m| - 1
  {
    assert m.Keys == (m - {k}).Keys + {k};
    assert |(m - {k}).Keys| == |m - {k}| && |m.Keys| == |m|;
  }

  lemma SizeWith(m: map<Key, Entry>, k: Key, e: Entry)
    ensures |m[k := e]| == if k in m then |m| else |m| + 1
  {
    assert m[k := e].Keys == m.Keys + {k};
    assert |m[k := e].Keys| == |m[k := e]| && |m.Keys| == |m|;
  }

  lemma AddOk(s: Sub, k: Key, e: Entry)
    requires SubOk(s)
    ensures SubOk(Sub(s.entries[k := e], OnAdd(s.policy, k)))
  {
    OnAddOk(s.policy, k);
    assert s.entries[k := e].Keys == s.entries.Keys + {k};
  }

  lemma AccessOk(s: Sub, k: Key, e: Entry)
    requires SubOk(s) && k in s.entries
    ensures SubOk(Sub(s.entries[k := e], OnAccess(s.policy, k)))
  {
    OnAccessOk(s.policy, k);
    assert s.entries[k := e].Keys == s.entries.Keys;
  }

  lemma DelOk(s: Sub, k: Key)
    requires SubOk(s)
    ensures SubOk(SubDel(s, k)) && SubDel(s, k).entries == s.entries - {k}
    ensures SameKind(SubDel(s, k).policy, s.policy)
  {
    OnRemoveOk(s.policy, k);
    assert (s.entries - {k}).Keys == s.entries.Keys - {k};
    if k !in s.entries {
      assert s.entries - {k} == s.entries;
    }
  }

  /** Shrinking takes out exactly the evicted keys, each once, and stops at the limit. */
  lemma {:induction false} ShrinkOk(s: Sub, max: nat)
    requires SubOk(s)
    ensures
      var (s', ks) := Shrink(s, max);
      && SubOk(s') && SameKind(s'.policy, s.policy)
      && s'.entries == s.entries - KeySet(ks) && KeySet(ks) <= s.entries.Keys
      && |s'.entries| == |s.entries| - |ks|
      && (max == 0 || s.policy.Noop? ==> ks == [])
      && (max > 0 && !s.policy.Noop? && |s.entries| > max ==> |s'.entries| == max)
      && (|s.entries| <= max ==> ks == [])
    decreases |s.entries|
  {
    if max > 0 && |s.entries| > max {
      EvictOneOk(s);
      EvictOk(s.policy);
      match Evict(s.policy).1
      case None =>
        assert s.policy.Noop? || s.entries.Keys == {};
        assert |s.entries.Keys| == |s.entries|;
      case Some(k) =>
        var s1 := Sub(s.entries - {k}, Evict(s.policy).0);
        ShrinkOk(s1, max);
        ShrinkStep(s.entries, s1.entries, k, Shrink(s1, max).1);
    } else {
      assert s.entries - KeySet([]) == s.entries;
    }
  }

  lemma ShrinkStep(m: map<Key, Entry>, m1: map<Key, Entry>, k: Key, ks: seq<Key>)
    requires k in m && m1 == m - {k} && KeySet(ks) <= m1.Keys
    ensures m1 - KeySet(ks) == m - KeySet([k] + ks) && KeySet([k] + ks) <= m.Keys
  {
    assert KeySet([k] + ks) == {k} + KeySet(ks);
  }

  /**
   * A write leaves the old entries and the new one, less the evicted keys; it evicts only to make
   * room for a new key, and then as many keys as are too many: one if the sub-shard was within its
   * limit, more if it grew while its policy could not evict.
   */
  lemma SubSetOk(s: Sub, k: Key, value: Bytes, ttl: nat, now: nat, max: nat)
    requires SubOk(s)
    ensures
      var (s', evicted) := SubSet(s, k, value, ttl, now, max);
      var full := s.entries[k := NewEntry(value, ttl, now)];
      && SubOk(s') && SameKind(s'.policy, s.policy)
      && s'.entries == full - KeySet(evicted) && KeySet(evicted) <= full.Keys
      && (k in s.entries || max == 0 || s.policy.Noop? || |s.entries| < max ==> evicted == [])
      && (max > 0 && !s.policy.Noop? && |s.entries| <= max ==> |s'.entries| <= max && |evicted| <= 1)
      && (k !in s.entries && max > 0 && !s.policy.Noop? && |s.entries| >= max ==> |evicted| == |s.entries| + 1 - max)
  {
    var e := NewEntry(value, ttl, now);
    SizeWith(s.entries, k, e);
    if k in s.entries {
      AccessOk(s, k, e);
      assert s.entries[k := e] - KeySet([]) == s.entries[k := e];
    } else {
      AddOk(s, k, e);
      ShrinkOk(Sub(s.entries[k := e], OnAdd(s.policy, k)), max);
    }
  }

  lemma {:induction false} DelAllOk(s: Sub, ks: seq<Key>)
    requires SubOk(s)
    ensures SubOk(DelAll(s, ks)) && DelAll(s, ks).entries == s.entries - KeySet(ks)
    ensures SameKind(DelAll(s, ks).policy, s.policy)
  {
    if ks == [] {
      assert s.entries - KeySet([]) == s.entries;
    } else {
      var most, k := ks[..|ks| - 1], ks[|ks| - 1];
      DelAllOk(s, most);
      DelOk(DelAll(s, most), k);
      assert ks == most + [k];
      assert s.entries - KeySet(most) - {k} == s.entries - KeySet(ks);
    }
  }

  /** A fresh policy told about every key tracks them all: what a policy swap relies on. */
  lemma {:induction false} AddAllOk(p: Policy, ks: seq<Key>)
    requires PolicyOk(p) && Tracked(p) == {}
    ensures PolicyOk(AddAll(p, ks)) && SameKind(AddAll(p, ks), p)
    ensures !p.Noop? ==> Tracked(AddAll(p, ks)) == KeySet(ks)
  {
    if ks != [] {
      var most, k := ks[..|ks| - 1], ks[|ks| - 1];
      AddAllOk(p, most);
      OnAddOk(AddAll(p, most), k);
      assert ks == most + [k];
    }
  }
}
