/** The loops that write and read the results of responses, at a moving offset. */
module WireLoops {
  import opened Bytes
  import opened Collections
  import opened Wire
  import opened WireStrings
  import opened WireRequests
  import opened WireReplies

  // ---- Maps: two iterations, each in its own order ----

  function EntrySize(m: map<Bytes, Bytes>, k: Bytes): nat
    requires k in m
  {
    2 + |k| + 4 + |m[k]|
  }

  lemma {:induction false} MapBytesSplit(m: map<Bytes, Bytes>, a: seq<Bytes>, k: Bytes, b: seq<Bytes>)
    requires k in m && (forall x | x in a :: x in m) && (forall x | x in b :: x in m) && forall x | x in a + [k] + b :: x in m
    ensures forall x | x in a + b :: x in m
    ensures |MapBytes(m, a + [k] + b)| == EntrySize(m, k) + |MapBytes(m, a + b)|
  {
    if a == [] {
      assert a + [k] + b == [k] + b && a + b == b && ([k] + b)[1..] == b;
    } else {
      var x, rest := a[0], a[1..];
      assert x in a && forall y | y in rest :: y in a;
      assert forall y | y in rest + [k] + b :: y in a + [k] + b;
      MapBytesSplit(m, rest, k, b);
      assert (a + [k] + b)[1..] == rest + [k] + b && (a + b)[1..] == rest + b;
      assert (a + [k] + b)[0] == x && (a + b)[0] == x;
    }
  }

  lemma FirstIsIn(b: seq<Bytes>)
    ensures b != [] ==> b[0] in b
  {
  }

  /** The size of a map's bytes does not depend on the order. */
  lemma {:induction false} SameSize(m: map<Bytes, Bytes>, a: seq<Bytes>, b: seq<Bytes>)
    requires NoDup(a) && NoDup(b) && (forall k :: k in a <==> k in b) && forall k | k in a :: k in m
    ensures |MapBytes(m, a)| == |MapBytes(m, b)|
  {
    FirstIsIn(b);
    if a != [] {
      var k := a[0];
      assert k in a && k in b;
      var i :| 0 <= i < |b| && b[i] == k;
      var l, r := b[..i], b[i + 1..];
      assert b == l + [k] + r;
      WithoutOne(a, b, k, l, r);
      SplitBoth(m, a, b, k, l, r);
      SameSize(m, a[1..], l + r);
    }
  }

  lemma SplitBoth(m: map<Bytes, Bytes>, a: seq<Bytes>, b: seq<Bytes>, k: Bytes, l: seq<Bytes>, r: seq<Bytes>)
    requires a != [] && a[0] == k && b == l + [k] + r && (forall x | x in a :: x in m) && forall x | x in b :: x in m
    ensures (forall x | x in a[1..] :: x in m) && forall x | x in l + r :: x in m
    ensures |MapBytes(m, a)| == EntrySize(m, k) + |MapBytes(m, a[1..])|
    ensures |MapBytes(m, b)| == EntrySize(m, k) + |MapBytes(m, l + r)|
  {
    assert k in a && (forall x | x in l :: x in b) && forall x | x in r :: x in b;
    MapBytesSplit(m, l, k, r);
  }

  lemma WithoutOne(a: seq<Bytes>, b: seq<Bytes>, k: Bytes, l: seq<Bytes>, r: seq<Bytes>)
    requires NoDup(a) && NoDup(b) && (forall x :: x in a <==> x in b) && a != [] && a[0] == k && b == l + [k] + r
    ensures NoDup(a[1..]) && NoDup(l + r) && forall x :: x in a[1..] <==> x in l + r
  {
    assert k !in a[1..];
    assert b[|l|] == k;
    forall i | 0 <= i < |l| ensures l[i] != k {
      assert b[i] == l[i];
    }
    forall i | 0 <= i < |r| ensures r[i] != k {
      assert b[|l| + 1 + i] == r[i];
    }
    forall x ensures x in a[1..] <==> x in l + r {
      assert x in a <==> x == k || x in a[1..];
      assert x in b <==> x in l || x == k || x in r;
    }
    forall i, j | 0 <= i < j < |l + r| ensures (l + r)[i] != (l + r)[j] {
      var i', j' := if i < |l| then i else i + 1, if j < |l| then j else j + 1;
      assert (l + r)[i] == b[i'] && (l + r)[j] == b[j'];
    }
  }

  /** The keys seen so far in some iteration over the map, and those still to come. */
  ghost predicate Iterating(m: map<Bytes, Bytes>, order: seq<Bytes>, rest: set<Bytes>) {
    NoDup(order) && rest <= m.Keys && (forall k :: k in order <==> k in m && k !in rest) && |order| + |rest| == |m|
  }

  lemma Iterate(m: map<Bytes, Bytes>, order: seq<Bytes>, rest: set<Bytes>, k: Bytes)
    requires Iterating(m, order, rest) && k in rest
    ensures Iterating(m, order + [k], rest - {k})
    ensures |MapBytes(m, order + [k])| == |MapBytes(m, order)| + EntrySize(m, k)
    ensures MapBytes(m, order + [k]) == MapBytes(m, order) + Uint(2, |k|) + k + Uint(4, |m[k]|) + m[k]
  {
    assert k !in order;
    MapBytesSnoc(m, order, k);
  }

  lemma {:induction false} MapBytesSnoc(m: map<Bytes, Bytes>, order: seq<Bytes>, k: Bytes)
    requires k in m && forall x | x in order :: x in m
    ensures forall x | x in order + [k] :: x in m
    ensures MapBytes(m, order + [k]) == MapBytes(m, order) + Uint(2, |k|) + k + Uint(4, |m[k]|) + m[k]
  {
    var tail := Uint(2, |k|) + k + (Uint(4, |m[k]|) + m[k] + []);
    if order == [] {
      assert [] + [k] == [k] && [k][1..] == [];
      assert [] + Uint(2, |k|) + k + Uint(4, |m[k]|) + m[k] == tail;
    } else {
      var x, rest := order[0], order[1..];
      assert x in order && forall y | y in rest :: y in order;
      MapBytesSnoc(m, rest, k);
      assert (order + [k])[0] == x && (order + [k])[1..] == rest + [k];
      EntryAssoc(Uint(2, |x|) + x, Uint(4, |m[x]|) + m[x], MapBytes(m, rest), Uint(2, |k|), k, Uint(4, |m[k]|), m[k]);
    }
  }

  lemma EntryAssoc(a: Bytes, b: Bytes, c: Bytes, d: Bytes, e: Bytes, f: Bytes, g: Bytes)
    ensures a + (b + (c + d + e + f + g)) == a + (b + c) + d + e + f + g
  {
  }

  method MapSize(m: map<Bytes, Bytes>) returns (n: nat, ghost order: seq<Bytes>)
    ensures Orders(m, order) && n == |MapBytes(m, order)|
  {
    n, order := 0, [];
    var rest := m.Keys;
    assert |m.Keys| == |m|;
    while rest != {}
      invariant Iterating(m, order, rest) && n == |MapBytes(m, order)|
      decreases |rest|
    {
      var k :| k in rest;
      Iterate(m, order, rest, k);
      n := n + 2 + |k| + 4 + |m[k]|;
      order := order + [k];
      rest := rest - {k};
    }
  }

  method PutEntry(buf: array<Byte>, at: nat, k: Bytes, v: Bytes)
    requires at + 6 + |k| + |v| <= buf.Length
    modifies buf
    ensures buf[..at + 6 + |k| + |v|] == old(buf[..at]) + Uint(2, |k|) + k + Uint(4, |v|) + v
  {
    PutNumber(buf, at, 2, |k|);
    PutBytes(buf, at + 2, k);
    PutNumber(buf, at + 2 + |k|, 4, |v|);
    PutBytes(buf, at + 6 + |k|, v);
  }

  /** There is room for what the iteration has still to write. */
  lemma RoomFor(m: map<Bytes, Bytes>, order: seq<Bytes>, rest: set<Bytes>, k: Bytes, first: seq<Bytes>)
    requires Iterating(m, order, rest) && k in rest && Orders(m, first)
    ensures |MapBytes(m, order)| + EntrySize(m, k) <= |MapBytes(m, first)|
  {
    Iterate(m, order, rest, k);
    var all := Finish(m, order + [k], rest - {k});
    SameSize(m, all, first);
  }

  lemma {:induction false} Finish(m: map<Bytes, Bytes>, order: seq<Bytes>, rest: set<Bytes>) returns (all: seq<Bytes>)
    requires Iterating(m, order, rest)
    ensures Iterating(m, all, {}) && |MapBytes(m, order)| <= |MapBytes(m, all)|
    decreases |rest|
  {
    if rest == {} {
      all := order;
    } else {
      var k :| k in rest;
      Iterate(m, order, rest, k);
      all := Finish(m, order + [k], rest - {k});
    }
  }

  lemma AnyOrder(m: map<Bytes, Bytes>) returns (order: seq<Bytes>)
    ensures Orders(m, order)
  {
    assert |m.Keys| == |m|;
    order := Finish(m, [], m.Keys);
  }

  lemma EntryAssoc2(a: Bytes, b: Bytes, c: Bytes, d: Bytes, e: Bytes, f: Bytes)
    ensures a + b + c + d + e + f == a + (b + c + d + e + f)
  {
  }

  method PutMap(buf: array<Byte>, off: nat, m: map<Bytes, Bytes>, ghost first: seq<Bytes>) returns (ghost order: seq<Bytes>)
    requires Orders(m, first) && off + |MapBytes(m, first)| == buf.Length
    modifies buf
    ensures Orders(m, order) && buf[..] == old(buf[..off]) + MapBytes(m, order)
  {
    ghost var head := buf[..off];
    order := [];
    var rest := m.Keys;
    var at: nat := off;
    assert |m.Keys| == |m|;
    assert head + [] == head;
    while rest != {}
      invariant Iterating(m, order, rest) && at == off + |MapBytes(m, order)| <= buf.Length && buf[..at] == head + MapBytes(m, order)
      decreases |rest|
    {
      var k :| k in rest;
      RoomFor(m, order, rest, k, first);
      Iterate(m, order, rest, k);
      EntryAssoc2(head, MapBytes(m, order), Uint(2, |k|), k, Uint(4, |m[k]|), m[k]);
      PutEntry(buf, at, k, m[k]);
      at := at + 6 + |k| + |m[k]|;
      order := order + [k];
      rest := rest - {k};
    }
    SameSize(m, order, first);
    assert buf[..at] == buf[..];
  }

  // ---- Optional strings and positions ----

  function MaybesSize(os: seq<Option<Bytes>>): (n: nat)
    ensures n == |MaybeBytes(os)|
  {
    if os == [] then 0 else (if os[0].Some? then 5 + |os[0].value| else 1) + MaybesSize(os[1..])
  }

  ghost predicate WritingMaybes(a: Bytes, os: seq<Option<Bytes>>, i: nat, all: Bytes) {
    i <= |os| && a + MaybeBytes(os[i..]) == all
  }

  lemma WriteMaybe(a: Bytes, os: seq<Option<Bytes>>, i: nat, all: Bytes)
    requires WritingMaybes(a, os, i, all) && i < |os|
    ensures os[i] == None ==> |a| + 1 <= |all| && WritingMaybes(a + [0], os, i + 1, all)
    ensures os[i].Some? ==>
              var s := os[i].value;
              |a| + 5 + |s| <= |all| && WritingMaybes(a + [1] + Uint(4, |s|) + s, os, i + 1, all)
  {
    assert os[i..][1..] == os[i + 1..] && os[i..][0] == os[i];
    var rest := MaybeBytes(os[i + 1..]);
    if os[i].Some? {
      var s := os[i].value;
      assert a + ([1] + (Uint(4, |s|) + s + rest)) == a + [1] + Uint(4, |s|) + s + rest;
    } else {
      assert a + ([0] + rest) == a + [0] + rest;
    }
  }

  method PutByte(buf: array<Byte>, off: nat, b: Byte)
    requires off < buf.Length
    modifies buf
    ensures buf[..off + 1] == old(buf[..off]) + [b]
  {
    buf[off] := b;
    assert buf[..off + 1] == buf[..off] + [b];
  }

  method PutMaybes(buf: array<Byte>, off: nat, os: seq<Option<Bytes>>)
    requires off + |MaybeBytes(os)| <= buf.Length
    modifies buf
    ensures buf[..off + |MaybeBytes(os)|] == old(buf[..off]) + MaybeBytes(os)
  {
    ghost var all := buf[..off] + MaybeBytes(os);
    assert os[0..] == os;
    var at: nat := off;
    for i := 0 to |os|
      invariant at <= buf.Length && WritingMaybes(buf[..at], os, i, all)
    {
      WriteMaybe(buf[..at], os, i, all);
      if os[i].Some? {
        PutByte(buf, at, 1);
        PutNumber(buf, at + 1, 4, |os[i].value|);
        PutBytes(buf, at + 5, os[i].value);
        at := at + 5 + |os[i].value|;
      } else {
        PutByte(buf, at, 0);
        at := at + 1;
      }
    }
    assert os[|os|..] == [] && buf[..at] + [] == buf[..at];
  }

  lemma {:induction false} PositionsSize(ns: seq<Bits64>)
    ensures |PositionBytes(ns)| == 8 * |ns|
  {
    if ns != [] {
      PositionsSize(ns[1..]);
    }
  }

  lemma WritePosition(a: Bytes, ns: seq<Bits64>, i: nat)
    requires i < |ns|
    ensures a + PositionBytes(ns[i..]) == a + Uint(8, ns[i]) + PositionBytes(ns[i + 1..])
  {
    assert ns[i..][1..] == ns[i + 1..] && ns[i..][0] == ns[i];
    Assoc(a, Uint(8, ns[i]), PositionBytes(ns[i + 1..]));
  }

  method PutPositions(buf: array<Byte>, off: nat, ns: seq<Bits64>)
    requires off + 8 * |ns| == buf.Length
    modifies buf
    ensures buf[..] == old(buf[..off]) + PositionBytes(ns)
  {
    ghost var all := buf[..off] + PositionBytes(ns);
    assert ns[0..] == ns;
    var at: nat := off;
    for i := 0 to |ns|
      invariant at == off + 8 * i && buf[..at] + PositionBytes(ns[i..]) == all
    {
      WritePosition(buf[..at], ns, i);
      PutNumber(buf, at, 8, ns[i]);
      at := at + 8;
    }
    assert ns[|ns|..] == [] && buf[..at] + [] == buf[..at] && buf[..at] == buf[..];
  }

  // ---- Reading: every loop stops at the first thing that is cut off ----

  method TakeAt(w: nat, p: Bytes, at: nat) returns (r: Option<Bytes>)
    requires at <= |p|
    ensures r == None <==> TakeText(w, p[at..]) == None
    ensures r.Some? ==> at + w + |r.value| <= |p| && TakeText(w, p[at..]) == Some((r.value, p[at + w + |r.value|..]))
  {
    if at + w > |p| {
      return None;
    }
    var n := GetUint(p, at, w);
    assert p[at..][..w] == p[at..at + w];
    if at + w + n > |p| {
      return None;
    }
    assert p[at..][w..w + n] == p[at + w..at + w + n] && p[at..][w + n..] == p[at + w + n..];
    return Some(p[at + w..at + w + n]);
  }

  ghost predicate ReadingTexts(p: Bytes, at: nat, left: nat, ss: seq<Bytes>, want: seq<Bytes>) {
    at <= |p| && ss + SomeTexts(2, p[at..], left) == want
  }

  lemma NextText(p: Bytes, at: nat, left: nat, ss: seq<Bytes>, want: seq<Bytes>, s: Bytes, end: nat)
    requires ReadingTexts(p, at, left, ss, want) && left > 0 && end <= |p| && TakeText(2, p[at..]) == Some((s, p[end..]))
    ensures ReadingTexts(p, end, left - 1, ss + [s], want)
  {
    var rest := SomeTexts(2, p[end..], left - 1);
    assert ss + ([s] + rest) == ss + [s] + rest;
  }

  /** The next string; the strings read so far are all there is if it is cut off. */
  method GetText(p: Bytes, at: nat, ghost left: nat, ghost ss: seq<Bytes>, ghost want: seq<Bytes>) returns (r: Option<Bytes>)
    requires ReadingTexts(p, at, left, ss, want) && left > 0
    ensures r == None ==> ss == want
    ensures r.Some? ==> ReadingTexts(p, at + 2 + |r.value|, left - 1, ss + [r.value], want)
  {
    r := TakeAt(2, p, at);
    if r.Some? {
      NextText(p, at, left, ss, want, r.value, at + 2 + |r.value|);
    } else {
      assert ss + [] == ss;
    }
  }

  lemma AllTexts(p: Bytes, at: nat, ss: seq<Bytes>, want: seq<Bytes>)
    requires ReadingTexts(p, at, 0, ss, want)
    ensures ss == want
  {
    assert ss + [] == ss;
  }

  lemma NoTexts(p: Bytes, off: nat, n: nat)
    requires off <= |p|
    ensures ReadingTexts(p, off, n, [], SomeTexts(2, p[off..], n))
  {
    assert [] + SomeTexts(2, p[off..], n) == SomeTexts(2, p[off..], n);
  }

  method GetTexts(p: Bytes, off: nat, n: nat) returns (ss: seq<Bytes>)
    requires off <= |p|
    ensures ss == SomeTexts(2, p[off..], n)
  {
    ghost var want := SomeTexts(2, p[off..], n);
    NoTexts(p, off, n);
    ss := [];
    var at: nat, left: nat := off, n;
    while left > 0
      invariant ReadingTexts(p, at, left, ss, want)
    {
      var s := GetText(p, at, left, ss, want);
      if s == None {
        return;
      }
      ss := ss + [s.value];
      at := at + 2 + |s.value|;
      left := left - 1;
    }
    AllTexts(p, at, ss, want);
  }

  ghost predicate ReadingEntries(p: Bytes, at: nat, left: nat, m: map<Bytes, Bytes>, want: map<Bytes, Bytes>) {
    at <= |p| && SomeEntries(p[at..], left, m) == want
  }

  lemma NextEntry(p: Bytes, at: nat, left: nat, m: map<Bytes, Bytes>, want: map<Bytes, Bytes>, k: Bytes, mid: nat, v: Bytes, end: nat)
    requires ReadingEntries(p, at, left, m, want) && left > 0 && mid <= |p| && end <= |p|
    requires TakeText(2, p[at..]) == Some((k, p[mid..])) && TakeText(4, p[mid..]) == Some((v, p[end..]))
    ensures ReadingEntries(p, end, left - 1, m[k := v], want)
  {
  }

  lemma NoEntry(p: Bytes, at: nat, left: nat, m: map<Bytes, Bytes>, want: map<Bytes, Bytes>)
    requires ReadingEntries(p, at, left, m, want) && TakeText(2, p[at..]) == None
    ensures m == want
  {
  }

  lemma NoEntryValue(p: Bytes, at: nat, left: nat, m: map<Bytes, Bytes>, want: map<Bytes, Bytes>, k: Bytes, mid: nat)
    requires ReadingEntries(p, at, left, m, want) && mid <= |p| && TakeText(2, p[at..]) == Some((k, p[mid..]))
    requires TakeText(4, p[mid..]) == None
    ensures m == want
  {
  }

  lemma AllEntries(p: Bytes, at: nat, m: map<Bytes, Bytes>, want: map<Bytes, Bytes>)
    requires ReadingEntries(p, at, 0, m, want)
    ensures m == want
  {
  }

  method GetEntry(p: Bytes, at: nat, ghost left: nat, ghost m: map<Bytes, Bytes>, ghost want: map<Bytes, Bytes>)
    returns (found: bool, k: Bytes, v: Bytes, end: nat)
    requires ReadingEntries(p, at, left, m, want) && left > 0
    ensures if found then ReadingEntries(p, end, left - 1, m[k := v], want) else m == want
  {
    found, k, v, end := false, [], [], at;
    var key := TakeAt(2, p, at);
    if key == None {
      NoEntry(p, at, left, m, want);
      return;
    }
    k := key.value;
    found, v, end := GetValue(p, at, left, m, want, k, at + 2 + |k|);
  }

  method GetValue(p: Bytes, ghost at: nat, ghost left: nat, ghost m: map<Bytes, Bytes>, ghost want: map<Bytes, Bytes>, k: Bytes, mid: nat)
    returns (found: bool, v: Bytes, end: nat)
    requires ReadingEntries(p, at, left, m, want) && left > 0 && mid <= |p| && TakeText(2, p[at..]) == Some((k, p[mid..]))
    ensures if found then ReadingEntries(p, end, left - 1, m[k := v], want) else m == want
  {
    var value := TakeAt(4, p, mid);
    if value == None {
      NoEntryValue(p, at, left, m, want, k, mid);
      return false, [], mid;
    }
    v, end := value.value, mid + 4 + |value.value|;
    NextEntry(p, at, left, m, want, k, mid, v, end);
    found := true;
  }

  method GetEntries(p: Bytes, off: nat, n: nat) returns (m: map<Bytes, Bytes>)
    requires off <= |p|
    ensures m == SomeEntries(p[off..], n, map[])
  {
    ghost var want := SomeEntries(p[off..], n, map[]);
    m := map[];
    var at: nat, left: nat := off, n;
    while left > 0
      invariant ReadingEntries(p, at, left, m, want)
    {
      var found, k, v, end := GetEntry(p, at, left, m, want);
      if !found {
        return;
      }
      at, m, left := end, m[k := v], left - 1;
    }
    AllEntries(p, at, m, want);
  }

  ghost predicate ReadingMaybes(p: Bytes, at: nat, n: nat, i: nat, os: seq<Option<Bytes>>, want: seq<Option<Bytes>>) {
    at <= |p| && i <= n == |os| && os[..i] + SomeMaybes(p[at..], n - i) == want && os[i..] == Absent(n - i)
  }

  lemma NextMaybe(p: Bytes, at: nat, n: nat, i: nat, os: seq<Option<Bytes>>, want: seq<Option<Bytes>>, o: Option<Bytes>, at': nat)
    requires ReadingMaybes(p, at, n, i, os, want) && i < n && at' <= |p|
    requires SomeMaybes(p[at..], n - i) == [o] + SomeMaybes(p[at'..], n - i - 1)
    ensures ReadingMaybes(p, at', n, i + 1, os[i := o], want)
  {
    var os' := os[i := o];
    assert os'[..i + 1] == os[..i] + [o];
    assert os[..i] + ([o] + SomeMaybes(p[at'..], n - i - 1)) == os[..i] + [o] + SomeMaybes(p[at'..], n - i - 1);
    assert os'[i + 1..] == os[i..][1..] == Absent(n - i)[1..];
  }

  lemma NoMoreMaybes(p: Bytes, at: nat, n: nat, i: nat, os: seq<Option<Bytes>>, want: seq<Option<Bytes>>)
    requires ReadingMaybes(p, at, n, i, os, want) && SomeMaybes(p[at..], n - i) == Absent(n - i)
    ensures os == want
  {
    assert os == os[..i] + os[i..];
  }

  lemma NoValueNext(q: Bytes, n: nat)
    requires q != [] && q[0] == 0 && n > 0
    ensures SomeMaybes(q, n) == [None] + SomeMaybes(q[1..], n - 1)
  {
  }

  lemma ValueNext(q: Bytes, n: nat, s: Bytes, rest: Bytes)
    requires q != [] && q[0] != 0 && n > 0 && TakeText(4, q[1..]) == Some((s, rest))
    ensures SomeMaybes(q, n) == [Some(s)] + SomeMaybes(rest, n - 1)
  {
  }

  /** One optional string and where it ends; None if there is no more. */
  method GetMaybe(p: Bytes, at: nat, ghost n: nat, ghost i: nat, ghost os: seq<Option<Bytes>>, ghost want: seq<Option<Bytes>>)
    returns (r: Option<(Option<Bytes>, nat)>)
    requires ReadingMaybes(p, at, n, i, os, want) && i < n
    ensures r == None ==> os == want
    ensures r.Some? ==> ReadingMaybes(p, r.value.1, n, i + 1, os[i := r.value.0], want)
  {
    if at >= |p| {
      NoMoreMaybes(p, at, n, i, os, want);
      return None;
    }
    FirstByteAt(p, at);
    if p[at] == 0 {
      NoValueNext(p[at..], n - i);
      NextMaybe(p, at, n, i, os, want, None, at + 1);
      return Some((None, at + 1));
    }
    var s := TakeAt(4, p, at + 1);
    if s == None {
      NoMoreMaybes(p, at, n, i, os, want);
      return None;
    }
    TakenMaybe(p, at, n, i, os, want, s.value);
    return Some((s, at + 5 + |s.value|));
  }

  lemma FirstByteAt(p: Bytes, at: nat)
    requires at < |p|
    ensures p[at..] != [] && p[at..][0] == p[at] && p[at..][1..] == p[at + 1..]
  {
  }

  lemma TakenMaybe(p: Bytes, at: nat, n: nat, i: nat, os: seq<Option<Bytes>>, want: seq<Option<Bytes>>, s: Bytes)
    requires ReadingMaybes(p, at, n, i, os, want) && i < n && at + 5 + |s| <= |p| && p[at] != 0
    requires TakeText(4, p[at + 1..]) == Some((s, p[at + 5 + |s|..]))
    ensures ReadingMaybes(p, at + 5 + |s|, n, i + 1, os[i := Some(s)], want)
  {
    FirstByteAt(p, at);
    ValueNext(p[at..], n - i, s, p[at + 5 + |s|..]);
    NextMaybe(p, at, n, i, os, want, Some(s), at + 5 + |s|);
  }

  /** The result starts out with every value absent. */
  method GetMaybes(p: Bytes, off: nat, n: nat) returns (os: seq<Option<Bytes>>)
    requires off <= |p|
    ensures os == SomeMaybes(p[off..], n)
  {
    ghost var want := SomeMaybes(p[off..], n);
    AbsentFit(n);
    os := Absent(n);
    assert [] + want == want;
    var at: nat := off;
    for i := 0 to n
      invariant ReadingMaybes(p, at, n, i, os, want)
    {
      var o := GetMaybe(p, at, n, i, os, want);
      if o == None {
        return;
      }
      os := os[i := o.value.0];
      at := o.value.1;
    }
    NoMoreMaybes(p, at, n, n, os, want);
  }

  method GetPositions(p: Bytes, off: nat, n: nat) returns (ns: seq<Bits64>)
    requires off <= |p|
    ensures ns == SomePositions(p[off..], n)
  {
    ghost var want := SomePositions(p[off..], n);
    ns := [];
    var at: nat, left: nat := off, n;
    assert [] + want == want;
    while left > 0
      invariant at <= |p| && ns + SomePositions(p[at..], left) == want
    {
      if at + 8 > |p| {
        assert ns + [] == ns;
        return;
      }
      var v := GetUint(p, at, 8);
      Read64(p, at);
      assert p[at..][..8] == p[at..at + 8] && p[at..][8..] == p[at + 8..];
      assert ns + ([v] + SomePositions(p[at + 8..], left - 1)) == ns + [v] + SomePositions(p[at + 8..], left - 1);
      ns := ns + [v];
      at := at + 8;
      left := left - 1;
    }
    assert ns + [] == ns;
  }

  // ---- Results that take no loop, and lists of strings ----

  method EncodeError(msg: Bytes) returns (p: array<Byte>)
    ensures fresh(p) && p[..] == [ERR] + Uint(2, |msg|) + msg
  {
    p := new Byte[3 + |msg|];
    p[0] := ERR;
    assert p[..1] == [ERR];
    PutNumber(p, 1, 2, |msg|);
    PutBytes(p, 3, msg);
    assert p[..p.Length] == p[..];
  }

  method EncodeInt(status: Byte, n: Bits64) returns (p: array<Byte>)
    ensures fresh(p) && p[..] == [status] + Uint(8, n)
  {
    p := new Byte[9];
    p[0] := status;
    assert p[..1] == [status];
    PutNumber(p, 1, 8, n);
    assert p[..p.Length] == p[..];
  }

  method EncodeBool(status: Byte, b: bool) returns (p: array<Byte>)
    ensures fresh(p) && p[..] == [status] + [if b then 1 else 0]
  {
    p := new Byte[2](_ => 0);
    p[0] := status;
    if b {
      p[1] := 1;
    }
    assert p[..] == [p[0], p[1]];
  }

  method EncodeText(status: Byte, s: Bytes) returns (p: array<Byte>)
    ensures fresh(p) && p[..] == [status] + Uint(4, |s|) + s
  {
    p := new Byte[5 + |s|];
    p[0] := status;
    assert p[..1] == [status];
    PutNumber(p, 1, 4, |s|);
    PutBytes(p, 5, s);
    assert p[..p.Length] == p[..];
  }

  method EncodeTexts(status: Byte, ss: seq<Bytes>) returns (p: array<Byte>)
    ensures fresh(p) && p[..] == [status] + Uint(4, |ss|) + Strings(2, ss)
  {
    p := new Byte[5 + StringsSize(2, ss)];
    p[0] := status;
    assert p[..1] == [status];
    PutNumber(p, 1, 4, |ss|);
    PutElems(p, 5, 2, ss);
    assert p[..p.Length] == p[..];
  }

  method EncodePositions(status: Byte, ns: seq<Bits64>) returns (p: array<Byte>)
    ensures fresh(p) && p[..] == [status] + Uint(4, |ns|) + PositionBytes(ns)
  {
    p := new Byte[5 + |ns| * 8];
    p[0] := status;
    assert p[..1] == [status];
    PutNumber(p, 1, 4, |ns|);
    PutPositions(p, 5, ns);
  }
}
