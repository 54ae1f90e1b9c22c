/**
 * The eviction policies of lru.go, lfu.go and policy.go as values: what they track and what they
 * give up. A linked list is the sequence of its keys, front first.
 */
module Eviction {
  import opened Bytes
  import opened Collections

  type Key = Bytes

  /** `items` gives each key's frequency, `freqLists` the keys of each frequency, oldest first. */
  datatype Frequencies = Frequencies(items: map<Key, nat>, freqLists: map<nat, seq<Key>>, minFreq: nat)

  datatype Policy =
    | Noop
    | Lru(order: seq<Key>)
    | Lfu(lfu: Frequencies)

  // ---- Lists without repetition ----

  function Without(s: seq<Key>, k: Key): (r: seq<Key>)
    ensures forall x :: x in r <==> x in s && x != k
    ensures k !in s ==> r == s
    ensures |r| <= |s|
  {
    if s == [] then []
    else if s[0] == k then Without(s[1..], k)
    else
      var r := [s[0]] + Without(s[1..], k);
      assert forall x :: x in s <==> x == s[0] || x in s[1..];
      r
  }

  lemma {:induction false} WithoutNoDup(s: seq<Key>, k: Key)
    requires NoDup(s)
    ensures NoDup(Without(s, k))
  {
    if s != [] {
      WithoutNoDup(s[1..], k);
      assert s[0] !in s[1..];
      assert s[0] !in Without(s[1..], k);
    }
  }

  // ---- scanMinFreq ----

  lemma {:induction false} HasMin(s: set<nat>, x: nat)
    requires x in s
    ensures exists m :: m in s && forall y | y in s :: m <= y
    decreases x
  {
    if y :| y in s && y < x {
      HasMin(s, y);
    }
  }

  function MinOf(s: set<nat>): (r: nat)
    ensures s != {} ==> r in s && forall x | x in s :: r <= x
    ensures s == {} ==> r == 0
  {
    if s == {} then 0
    else
      assert exists m :: m in s && forall y | y in s :: m <= y by {
        var x :| x in s;
        HasMin(s, x);
      }
      var x :| x in s && forall y | y in s :: x <= y;
      x
  }

  // ---- LFU ----

  /** Every key is in the list of its frequency and in no other; no list is empty. */
  predicate FrequenciesOk(l: Frequencies) {
    (forall k | k in l.items :: l.items[k] in l.freqLists && k in l.freqLists[l.items[k]])
    && (forall f | f in l.freqLists :: ListOk(l, f, l.freqLists[f]))
  }

  predicate ListOk(l: Frequencies, f: nat, s: seq<Key>) {
    f >= 1 && s != [] && NoDup(s) && forall k | k in s :: k in l.items && l.items[k] == f
  }

  function Bucket(l: Frequencies, freq: nat): seq<Key> {
    if freq in l.freqLists then l.freqLists[freq] else []
  }

  /** removeFromBucket: a list that runs empty goes, and takes `minFreq` with it. */
  function Take(l: Frequencies, k: Key, freq: nat): Frequencies {
    var rest := Without(Bucket(l, freq), k);
    if rest == [] then
      var lists := l.freqLists - {freq};
      Frequencies(l.items, lists, if l.minFreq == freq then MinOf(lists.Keys) else l.minFreq)
    else l.(freqLists := l.freqLists[freq := rest])
  }

  function Put(l: Frequencies, k: Key, freq: nat): Frequencies {
    Frequencies(l.items[k := freq], l.freqLists[freq := Bucket(l, freq) + [k]], l.minFreq)
  }

  function LfuRemove(l: Frequencies, k: Key): Frequencies {
    if k in l.items then Take(l, k, l.items[k]).(items := l.items - {k}) else l
  }

  /** A bump removes the key and puts it back one frequency up. */
  function Bump(l: Frequencies, k: Key): Frequencies {
    if k in l.items then Put(LfuRemove(l, k), k, l.items[k] + 1) else l
  }

  function LfuAdd(l: Frequencies, k: Key): Frequencies {
    if k in l.items then Bump(l, k) else Put(l, k, 1).(minFreq := 1)
  }

  /** The frequency an eviction takes its victim from; 0 if there is none. */
  function EvictFreq(l: Frequencies): nat {
    if Bucket(l, l.minFreq) != [] then l.minFreq else MinOf(l.freqLists.Keys)
  }

  function LfuEvict(l: Frequencies): (Frequencies, Option<Key>) {
    if l.items == map[] then (l, None)
    else
      var freq := EvictFreq(l);
      var l1 := l.(minFreq := freq);
      if Bucket(l, freq) == [] then (l1, None)
      else
        var k := Bucket(l, freq)[0];
        (Take(l1, k, freq).(items := l.items - {k}), Some(k))
  }

  // ---- All policies ----

  function OnAdd(p: Policy, k: Key): Policy {
    match p
    case Noop => p
    case Lru(order) => Lru([k] + Without(order, k))
    case Lfu(l) => Lfu(LfuAdd(l, k))
  }

  function OnAccess(p: Policy, k: Key): Policy {
    match p
    case Noop => p
    case Lru(order) => if k in order then Lru([k] + Without(order, k)) else p
    case Lfu(l) => Lfu(Bump(l, k))
  }

  function OnRemove(p: Policy, k: Key): Policy {
    match p
    case Noop => p
    case Lru(order) => Lru(Without(order, k))
    case Lfu(l) => Lfu(LfuRemove(l, k))
  }

  function Evict(p: Policy): (Policy, Option<Key>) {
    match p
    case Noop => (p, None)
    case Lru(order) =>
      if order == [] then (p, None) else (Lru(order[..|order| - 1]), Some(order[|order| - 1]))
    case Lfu(l) => (Lfu(LfuEvict(l).0), LfuEvict(l).1)
  }

  predicate PolicyOk(p: Policy) {
    match p
    case Noop => true
    case Lru(order) => NoDup(order)
    case Lfu(l) => FrequenciesOk(l)
  }

  function Tracked(p: Policy): set<Key> {
    match p
    case Noop => {}
    case Lru(order) => set k | k in order
    case Lfu(l) => l.items.Keys
  }

  // ---- LFU stays well formed ----

  lemma RemoveOk(l: Frequencies, k: Key)
    requires FrequenciesOk(l)
    ensures FrequenciesOk(LfuRemove(l, k)) && LfuRemove(l, k).items == l.items - {k}
  {
    var l' := LfuRemove(l, k);
    if k in l.items {
      WithoutNoDup(l.freqLists[l.items[k]], k);
      forall f | f in l'.freqLists ensures ListOk(l', f, l'.freqLists[f]) {
        assert ListOk(l, f, l.freqLists[f]);
      }
    } else {
      assert l.items - {k} == l.items;
    }
  }

  lemma PutOk(l: Frequencies, k: Key, freq: nat)
    requires FrequenciesOk(l) && k !in l.items && freq >= 1
    ensures FrequenciesOk(Put(l, k, freq))
  {
    var l' := Put(l, k, freq);
    assert freq in l.freqLists ==> ListOk(l, freq, l.freqLists[freq]);
    assert k !in Bucket(l, freq);
    forall f | f in l'.freqLists ensures ListOk(l', f, l'.freqLists[f]) {
      assert f in l.freqLists ==> ListOk(l, f, l.freqLists[f]);
    }
  }

  lemma BumpIsTakeAndPut(l: Frequencies, k: Key)
    requires k in l.items
    ensures Bump(l, k) == Put(Take(l, k, l.items[k]), k, l.items[k] + 1)
  {
    assert (l.items - {k})[k := l.items[k] + 1] == l.items[k := l.items[k] + 1];
  }

  lemma BumpKeepsKeys(l: Frequencies, k: Key)
    ensures Bump(l, k).items.Keys == l.items.Keys
  {
  }

  lemma PutBackOk(bumped: Frequencies, taken: Frequencies, k: Key, freq: nat)
    requires bumped == Put(taken, k, freq) && FrequenciesOk(taken) && k !in taken.items && freq >= 1
    ensures FrequenciesOk(bumped)
  {
    PutOk(taken, k, freq);
  }

  lemma BumpOk(l: Frequencies, k: Key)
    requires FrequenciesOk(l)
    ensures FrequenciesOk(Bump(l, k))
  {
    if k in l.items {
      RemoveOk(l, k);
      PutBackOk(Bump(l, k), LfuRemove(l, k), k, l.items[k] + 1);
    }
  }

  lemma EvictFreqInUse(l: Frequencies)
    requires FrequenciesOk(l) && l.items != map[]
    ensures EvictFreq(l) in l.freqLists && ListOk(l, EvictFreq(l), l.freqLists[EvictFreq(l)])
  {
    var x :| x in l.items;
    assert l.items[x] in l.freqLists.Keys;
  }

  /** An eviction removes the oldest key of the frequency it looks at. */
  lemma EvictIsRemove(l: Frequencies)
    requires FrequenciesOk(l) && l.items != map[]
    ensures EvictFreq(l) in l.freqLists && l.freqLists[EvictFreq(l)] != []
    ensures
      var k := l.freqLists[EvictFreq(l)][0];
      k in l.items && l.items[k] == EvictFreq(l) && LfuEvict(l) == (LfuRemove(l.(minFreq := EvictFreq(l)), k), Some(k))
  {
    EvictFreqInUse(l);
    var k := l.freqLists[EvictFreq(l)][0];
    assert k in l.freqLists[EvictFreq(l)];
  }

  lemma MinFreqIsFree(l: Frequencies, m: nat)
    requires FrequenciesOk(l)
    ensures FrequenciesOk(l.(minFreq := m))
  {
    var l' := l.(minFreq := m);
    forall f | f in l'.freqLists ensures ListOk(l', f, l'.freqLists[f]) {
      assert ListOk(l, f, l.freqLists[f]);
    }
  }

  // ---- The policies stay well formed and track what they are told ----

  lemma OnRemoveOk(p: Policy, k: Key)
    requires PolicyOk(p)
    ensures PolicyOk(OnRemove(p, k)) && Tracked(OnRemove(p, k)) == Tracked(p) - {k}
  {
    match p
    case Noop =>
    case Lru(order) => WithoutNoDup(order, k);
    case Lfu(l) => RemoveOk(l, k);
  }

  lemma OnAddOk(p: Policy, k: Key)
    requires PolicyOk(p)
    ensures PolicyOk(OnAdd(p, k)) && (!p.Noop? ==> Tracked(OnAdd(p, k)) == Tracked(p) + {k})
  {
    match p
    case Noop =>
    case Lru(order) => WithoutNoDup(order, k);
    case Lfu(l) =>
      if k in l.items {
        BumpOk(l, k);
        BumpKeepsKeys(l, k);
      } else {
        PutOk(l, k, 1);
        MinFreqIsFree(Put(l, k, 1), 1);
      }
  }

  lemma OnAccessOk(p: Policy, k: Key)
    requires PolicyOk(p)
    ensures PolicyOk(OnAccess(p, k)) && Tracked(OnAccess(p, k)) == Tracked(p)
  {
    match p
    case Noop =>
    case Lru(order) => WithoutNoDup(order, k);
    case Lfu(l) =>
      BumpOk(l, k);
      BumpKeepsKeys(l, k);
  }

  lemma LruEvictOk(order: seq<Key>)
    requires NoDup(order) && order != []
    ensures
      var rest, k := order[..|order| - 1], order[|order| - 1];
      NoDup(rest) && k in order && (set x | x in rest) == (set x | x in order) - {k}
  {
    var rest, k := order[..|order| - 1], order[|order| - 1];
    assert order == rest + [k];
    assert k !in rest;
  }

  /** A policy that tracks anything evicts one of its keys, and then tracks the others. */
  lemma EvictOk(p: Policy)
    requires PolicyOk(p)
    ensures
      var (p', victim) := Evict(p);
      && PolicyOk(p')
      && (victim.None? <==> Tracked(p) == {})
      && (victim.Some? ==> victim.value in Tracked(p) && Tracked(p') == Tracked(p) - {victim.value})
  {
    match p
    case Noop =>
    case Lru(order) =>
      if order != [] {
        LruEvictOk(order);
        assert order[0] in Tracked(p);
      }
    case Lfu(l) =>
      if l.items != map[] {
        EvictIsRemove(l);
        MinFreqIsFree(l, EvictFreq(l));
        RemoveOk(l.(minFreq := EvictFreq(l)), l.freqLists[EvictFreq(l)][0]);
      }
  }
}
