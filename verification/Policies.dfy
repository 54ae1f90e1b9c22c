/**
 * The policy objects of lru.go and lfu.go. A doubly linked list is the sequence of its keys; the
 * element a map points to is found by its key, since no list holds a key twice.
 */
module Policies {
  import opened Bytes
  import opened Collections
  import opened Eviction

  class LRUPolicy {
    var order: seq<Key>
    var nodes: set<Key>

    ghost predicate Valid()
      reads this
    {
      NoDup(order) && nodes == set k | k in order
    }

    function State(): Policy
      reads this
    {
      Lru(order)
    }

    constructor ()
      ensures Valid() && State() == Lru([])
    {
      order, nodes := [], {};
    }

    method MoveToFront(key: Key)
      requires Valid() && key in nodes
      modifies this
      ensures Valid() && order == [key] + Without(old(order), key)
    {
      WithoutNoDup(order, key);
      order := [key] + Without(order, key);
    }

    method OnAccess(key: Key)
      requires Valid()
      modifies this
      ensures Valid() && State() == Eviction.OnAccess(old(State()), key)
    {
      if key in nodes {
        MoveToFront(key);
      }
    }

    method OnAdd(key: Key)
      requires Valid()
      modifies this
      ensures Valid() && State() == Eviction.OnAdd(old(State()), key)
    {
      if key in nodes {
        MoveToFront(key);
        return;
      }
      order := [key] + order;
      nodes := nodes + {key};
    }

    method OnRemove(key: Key)
      requires Valid()
      modifies this
      ensures Valid() && State() == Eviction.OnRemove(old(State()), key)
    {
      if key in nodes {
        WithoutNoDup(order, key);
        order := Without(order, key);
        nodes := nodes - {key};
      }
    }

    method Evict() returns (victim: Option<Key>)
      requires Valid()
      modifies this
      ensures Valid() && (State(), victim) == Eviction.Evict(old(State()))
    {
      if order == [] {
        return None;
      }
      LruEvictOk(order);
      var key := order[|order| - 1];
      order := order[..|order| - 1];
      nodes := nodes - {key};
      return Some(key);
    }
  }

  class LFUPolicy {
    var items: map<Key, nat>
    var freqLists: map<nat, seq<Key>>
    var minFreq: nat

    ghost predicate Valid()
      reads this
    {
      FrequenciesOk(Counts())
    }

    function Counts(): Frequencies
      reads this
    {
      Frequencies(items, freqLists, minFreq)
    }

    constructor ()
      ensures Valid() && Counts() == Frequencies(map[], map[], 0)
    {
      items, freqLists, minFreq := map[], map[], 0;
    }

    method ScanMinFreq() returns (r: nat)
      ensures r == MinOf(freqLists.Keys)
    {
      var min: int := -1;
      var rest := freqLists.Keys;
      while rest != {}
        invariant rest <= freqLists.Keys
        invariant min < 0 ==> rest == freqLists.Keys
        invariant min >= 0 ==> min in freqLists && forall f | f in freqLists :: f in rest || min <= f
        decreases |rest|
      {
        var f :| f in rest;
        if min < 0 || f < min {
          min := f;
        }
        rest := rest - {f};
      }
      r := if min < 0 then 0 else min;
    }

    method RemoveFromBucket(key: Key, freq: nat)
      requires freq in freqLists
      modifies this
      ensures Counts() == Take(old(Counts()), key, freq)
    {
      var bucket := Without(freqLists[freq], key);
      if bucket == [] {
        freqLists := freqLists - {freq};
        if minFreq == freq {
          minFreq := ScanMinFreq();
        }
      } else {
        freqLists := freqLists[freq := bucket];
      }
    }

    method PushBack(key: Key, freq: nat)
      modifies this
      ensures Counts() == Put(old(Counts()), key, freq)
    {
      var bucket := if freq in freqLists then freqLists[freq] else [];
      freqLists := freqLists[freq := bucket + [key]];
      items := items[key := freq];
    }

    method Bump(key: Key)
      requires key in items ==> items[key] in freqLists
      modifies this
      ensures Counts() == Eviction.Bump(old(Counts()), key)
    {
      if key !in items {
        return;
      }
      BumpIsTakeAndPut(Counts(), key);
      var oldFreq := items[key];
      RemoveFromBucket(key, oldFreq);
      PushBack(key, oldFreq + 1);
    }

    method OnAccess(key: Key)
      requires Valid()
      modifies this
      ensures Valid() && Lfu(Counts()) == Eviction.OnAccess(Lfu(old(Counts())), key)
    {
      OnAccessOk(Lfu(Counts()), key);
      Bump(key);
    }

    method OnAdd(key: Key)
      requires Valid()
      modifies this
      ensures Valid() && Lfu(Counts()) == Eviction.OnAdd(Lfu(old(Counts())), key)
    {
      OnAddOk(Lfu(Counts()), key);
      if key in items {
        Bump(key);
        return;
      }
      PushBack(key, 1);
      minFreq := 1;
    }

    method OnRemove(key: Key)
      requires Valid()
      modifies this
      ensures Valid() && Lfu(Counts()) == Eviction.OnRemove(Lfu(old(Counts())), key)
    {
      RemoveOk(Counts(), key);
      if key !in items {
        return;
      }
      RemoveFromBucket(key, items[key]);
      items := items - {key};
    }

    method Evict() returns (victim: Option<Key>)
      requires Valid()
      modifies this
      ensures Valid() && (Lfu(Counts()), victim) == Eviction.Evict(Lfu(old(Counts())))
    {
      EvictOk(Lfu(Counts()));
      if items == map[] {
        return None;
      }
      EvictIsRemove(Counts());
      if minFreq !in freqLists || freqLists[minFreq] == [] {
        minFreq := ScanMinFreq();
        if minFreq == 0 {
          return None;
        }
      }
      var key := freqLists[minFreq][0];
      RemoveFromBucket(key, minFreq);
      items := items - {key};
      return Some(key);
    }
  }
}
