/**
 * What the responses of the set, hash and list commands are made of (net/protocol.go and
 * net/protocol_ext.go): how each kind of result is written behind the status byte, and how it is read
 * back. A response that is cut off yields what has been read so far.
 */
module WireReplies {
  import opened Bytes
  import opened Collections
  import opened Wire
  import opened WireStrings
  import opened WireRequests

  const OK: Byte := 0
  const ERR: Byte := 1
  const NOT_FOUND: Byte := 2

  const WORD32 := 0x1_0000_0000

  // ---- Writing ----

  /** The entries of a map in the order an iteration happens to yield its keys. */
  function MapBytes(m: map<Bytes, Bytes>, order: seq<Bytes>): Bytes
    requires forall k | k in order :: k in m
  {
    if order == [] then []
    else
      var k := order[0];
      assert k in order;
      Uint(2, |k|) + k + (Uint(4, |m[k]|) + m[k] + MapBytes(m, order[1..]))
  }

  function MaybeBytes(os: seq<Option<Bytes>>): Bytes {
    if os == [] then []
    else match os[0]
      case None => [0] + MaybeBytes(os[1..])
      case Some(s) => [1] + (Uint(4, |s|) + s + MaybeBytes(os[1..]))
  }

  function PositionBytes(ns: seq<Bits64>): Bytes {
    if ns == [] then [] else Uint(8, ns[0]) + PositionBytes(ns[1..])
  }

  /** The iteration order yields every key once. */
  ghost predicate Orders(m: map<Bytes, Bytes>, order: seq<Bytes>) {
    |order| == |m| && (forall k :: k in order <==> k in m) && NoDup(order)
  }

  // ---- Reading ----

  /** A length and as many bytes; None if they are not all there. */
  function TakeText(w: nat, p: Bytes): Option<(Bytes, Bytes)> {
    if |p| < w then None
    else
      var n := ToNat(p[..w]);
      if |p| < w + n then None else Some((p[w..w + n], p[w + n..]))
  }

  function SomeTexts(w: nat, p: Bytes, n: nat): seq<Bytes> {
    if n == 0 then []
    else match TakeText(w, p)
      case None => []
      case Some((s, rest)) => [s] + SomeTexts(w, rest, n - 1)
  }

  function SomeEntries(p: Bytes, n: nat, m: map<Bytes, Bytes>): map<Bytes, Bytes>
    decreases n
  {
    if n == 0 then m
    else match TakeText(2, p)
      case None => m
      case Some((k, rest)) =>
        match TakeText(4, rest)
        case None => m
        case Some((v, rest')) => SomeEntries(rest', n - 1, m[k := v])
  }

  function Absent(n: nat): seq<Option<Bytes>> {
    if n == 0 then [] else [None] + Absent(n - 1)
  }

  function SomeMaybes(p: Bytes, n: nat): seq<Option<Bytes>>
    decreases n
  {
    if n == 0 then []
    else if p == [] then Absent(n)
    else if p[0] == 0 then [None] + SomeMaybes(p[1..], n - 1)
    else match TakeText(4, p[1..])
      case None => Absent(n)
      case Some((s, rest)) => [Some(s)] + SomeMaybes(rest, n - 1)
  }

  function SomePositions(p: Bytes, n: nat): seq<Bits64>
    decreases n
  {
    if n == 0 || |p| < 8 then []
    else
      ToNatFits(p[..8]);
      assert Pow256(8) == 0x1_0000_0000_0000_0000;
      [ToNat(p[..8])] + SomePositions(p[8..], n - 1)
  }

  function IntOf(p: Bytes): Option<nat> {
    if |p| < 9 then None else Some(ToNat(p[1..9]))
  }

  function BoolOf(p: Bytes): Option<bool> {
    if |p| < 2 then None else Some(p[1] != 0)
  }

  function TextOf(p: Bytes): Option<Bytes> {
    if |p| < 5 then None
    else
      var n := ToNat(p[1..5]);
      Some(if n > 0 && |p| >= 5 + n then p[5..5 + n] else [])
  }

  function TextsOf(p: Bytes): Option<seq<Bytes>> {
    if |p| < 5 then None else Some(SomeTexts(2, p[5..], ToNat(p[1..5])))
  }

  function MapOf(p: Bytes): Option<map<Bytes, Bytes>> {
    if |p| < 5 then None else Some(SomeEntries(p[5..], ToNat(p[1..5]), map[]))
  }

  function MaybesOf(p: Bytes): Option<seq<Option<Bytes>>> {
    if |p| < 5 then None else Some(SomeMaybes(p[5..], ToNat(p[1..5])))
  }

  function PositionsOf(p: Bytes): Option<seq<Bits64>> {
    if |p| < 5 then None else Some(SomePositions(p[5..], ToNat(p[1..5])))
  }

  /** The message of a hash or list error, or an empty one if it is cut off. */
  function ErrorOf(p: Bytes): Bytes {
    if |p| < 3 then []
    else
      var n := ToNat(p[1..3]);
      if |p| >= 3 + n then p[3..3 + n] else []
  }

  // ---- What fits comes back ----

  lemma TakeOne(w: nat, s: Bytes, rest: Bytes)
    requires |s| < Pow256(w)
    ensures TakeText(w, Uint(w, |s|) + s + rest) == Some((s, rest))
  {
    var u := Uint(w, |s|);
    var p := u + s + rest;
    UintToNat(w, |s|);
    Assoc(u, s, rest);
    SplitAt(u, s + rest);
    SplitAt(s, rest);
    assert p[w..w + |s|] == p[w..][..|s|] && p[w + |s|..] == p[w..][|s|..];
  }

  lemma {:induction false} TextsComeBack(w: nat, ss: seq<Bytes>)
    requires LengthsFit(w, ss)
    ensures SomeTexts(w, Strings(w, ss), |ss|) == ss
  {
    if ss != [] {
      FitsTail(w, ss);
      TextsComeBack(w, ss[1..]);
      TakeOne(w, ss[0], Strings(w, ss[1..]));
      assert |ss[1..]| == |ss| - 1 && ss == [ss[0]] + ss[1..];
    }
  }

  lemma {:induction false} MaybesComeBack(os: seq<Option<Bytes>>)
    requires MaybesFit(os)
    ensures SomeMaybes(MaybeBytes(os), |os|) == os
  {
    if os != [] {
      var o, rest := os[0], MaybeBytes(os[1..]);
      assert o in os && Pow256(4) == WORD32;
      MaybesComeBack(os[1..]);
      assert |os[1..]| == |os| - 1 && os == [o] + os[1..];
      match o
      case None => SplitAt([0], rest);
      case Some(s) =>
        SplitAt([1], Uint(4, |s|) + s + rest);
        TakeOne(4, s, rest);
    }
  }

  lemma {:induction false} PositionsComeBack(ns: seq<Bits64>)
    ensures SomePositions(PositionBytes(ns), |ns|) == ns
  {
    if ns != [] {
      assert Pow256(8) == 0x1_0000_0000_0000_0000;
      PositionsComeBack(ns[1..]);
      UintToNat(8, ns[0]);
      SplitAt(Uint(8, ns[0]), PositionBytes(ns[1..]));
      assert |ns[1..]| == |ns| - 1 && ns == [ns[0]] + ns[1..];
    }
  }

  function Restrict(m: map<Bytes, Bytes>, ks: seq<Bytes>): map<Bytes, Bytes>
    requires forall k | k in ks :: k in m
  {
    map k | k in ks :: m[k]
  }

  lemma EntryComesBack(k: Bytes, v: Bytes, rest: Bytes, n: nat, acc: map<Bytes, Bytes>)
    requires |k| < 65536 && |v| < WORD32 && n > 0
    ensures SomeEntries(Uint(2, |k|) + k + (Uint(4, |v|) + v + rest), n, acc) == SomeEntries(rest, n - 1, acc[k := v])
  {
    assert Pow256(2) == 65536 && Pow256(4) == WORD32;
    TakeOne(2, k, Uint(4, |v|) + v + rest);
    TakeOne(4, v, rest);
  }

  predicate EntriesFit(m: map<Bytes, Bytes>, ks: seq<Bytes>) {
    forall k | k in ks :: k in m && |k| < 65536 && |m[k]| < WORD32
  }

  lemma {:induction false} EntriesComeBack(m: map<Bytes, Bytes>, order: seq<Bytes>, acc: map<Bytes, Bytes>)
    requires EntriesFit(m, order)
    ensures SomeEntries(MapBytes(m, order), |order|, acc) == acc + Restrict(m, order)
  {
    if order == [] {
      assert acc + Restrict(m, order) == acc;
    } else {
      var k, rest, n := order[0], order[1..], |order| - 1;
      assert k in order && |rest| == n && EntriesFit(m, rest);
      EntriesComeBack(m, rest, acc[k := m[k]]);
      RestrictStep(m, order, acc);
      EntryComesBack(k, m[k], MapBytes(m, rest), n + 1, acc);
      assert n + 1 == |order| && n + 1 - 1 == n;
    }
  }

  lemma RestrictStep(m: map<Bytes, Bytes>, order: seq<Bytes>, acc: map<Bytes, Bytes>)
    requires order != [] && forall k | k in order :: k in m
    ensures order[0] in m && acc[order[0] := m[order[0]]] + Restrict(m, order[1..]) == acc + Restrict(m, order)
  {
    assert order[0] in order;
    assert forall k :: k in order <==> k == order[0] || k in order[1..];
  }

  lemma StatusFirst(p: Bytes, status: Byte, a: Bytes)
    requires p == [status] + a
    ensures |p| == 1 + |a| && p[0] == status && p[1..] == a && p[1..1 + |a|] == a
  {
  }

  lemma IntBack(p: Bytes, status: Byte, n: nat)
    requires p == [status] + Uint(8, n) && n < 0x1_0000_0000_0000_0000
    ensures p != [] && p[0] == status && IntOf(p) == Some(n)
  {
    StatusFirst(p, status, Uint(8, n));
    Back64(n);
  }

  lemma BoolBack(p: Bytes, status: Byte, b: bool)
    requires p == [status] + [if b then 1 else 0]
    ensures p != [] && p[0] == status && BoolOf(p) == Some(b)
  {
  }

  lemma TextBack(p: Bytes, status: Byte, s: Bytes)
    requires p == [status] + Uint(4, |s|) + s && |s| < WORD32
    ensures p != [] && p[0] == status && TextOf(p) == Some(s)
  {
    var n := |s|;
    Pieces3(p, [status], Uint(4, n), s, 1, 5, 5 + n);
    assert p[0] == p[..1][0];
    Back32(n);
  }

  lemma CountBack(p: Bytes, status: Byte, n: nat, a: Bytes)
    requires p == [status] + Uint(4, n) + a && n < WORD32
    ensures |p| >= 5 && p[0] == status && ToNat(p[1..5]) == n && p[5..] == a
  {
    Pieces3(p, [status], Uint(4, n), a, 1, 5, 5 + |a|);
    assert p[0] == p[..1][0];
    Back32(n);
  }

  lemma TextsBack(p: Bytes, status: Byte, ss: seq<Bytes>)
    requires p == [status] + Uint(4, |ss|) + Strings(2, ss) && |ss| < WORD32 && forall s | s in ss :: |s| < 65536
    ensures p != [] && p[0] == status && TextsOf(p) == Some(ss)
  {
    CountBack(p, status, |ss|, Strings(2, ss));
    assert Pow256(2) == 65536;
    TextsComeBack(2, ss);
  }

  lemma MapBack(p: Bytes, status: Byte, m: map<Bytes, Bytes>, order: seq<Bytes>)
    requires Orders(m, order) && p == [status] + Uint(4, |m|) + MapBytes(m, order) && |m| < WORD32 && AllFit(m)
    ensures p != [] && p[0] == status && MapOf(p) == Some(m)
  {
    CountBack(p, status, |m|, MapBytes(m, order));
    assert EntriesFit(m, order);
    EntriesComeBack(m, order, map[]);
    assert map[] + Restrict(m, order) == m;
  }

  lemma MaybesBack(p: Bytes, status: Byte, os: seq<Option<Bytes>>)
    requires p == [status] + Uint(4, |os|) + MaybeBytes(os) && |os| < WORD32 && MaybesFit(os)
    ensures p != [] && p[0] == status && MaybesOf(p) == Some(os)
  {
    CountBack(p, status, |os|, MaybeBytes(os));
    MaybesComeBack(os);
  }

  lemma PositionsBack(p: Bytes, status: Byte, ns: seq<Bits64>)
    requires p == [status] + Uint(4, |ns|) + PositionBytes(ns) && |ns| < WORD32
    ensures p != [] && p[0] == status && PositionsOf(p) == Some(ns)
  {
    CountBack(p, status, |ns|, PositionBytes(ns));
    PositionsComeBack(ns);
  }

  lemma ErrorBack(p: Bytes, msg: Bytes)
    requires p == [ERR] + Uint(2, |msg|) + msg && |msg| < 65536
    ensures p != [] && p[0] == ERR && ErrorOf(p) == msg
  {
    var n := |msg|;
    Pieces3(p, [ERR], Uint(2, n), msg, 1, 3, 3 + n);
    assert p[0] == p[..1][0];
    Back16(n);
  }

  // ---- Whatever is read fits ----

  lemma TakenFits(w: nat, p: Bytes)
    ensures TakeText(w, p).Some? ==> |TakeText(w, p).value.0| < Pow256(w)
  {
    if |p| >= w {
      ToNatFits(p[..w]);
    }
  }

  lemma {:induction false} TextsFit(w: nat, p: Bytes, n: nat)
    ensures |SomeTexts(w, p, n)| <= n && LengthsFit(w, SomeTexts(w, p, n))
    decreases n
  {
    TakenFits(w, p);
    if n > 0 && TakeText(w, p).Some? {
      TextsFit(w, TakeText(w, p).value.1, n - 1);
    }
  }

  lemma OneMore(m: map<Bytes, Bytes>, k: Bytes, v: Bytes)
    ensures |m[k := v]| <= |m| + 1
  {
    assert m[k := v].Keys == m.Keys + {k};
    assert |m[k := v].Keys| == |m[k := v]| && |m.Keys| == |m|;
  }

  predicate AllFit(m: map<Bytes, Bytes>) {
    forall k | k in m :: |k| < 65536 && |m[k]| < WORD32
  }

  lemma {:induction false} EntriesFitToo(p: Bytes, n: nat, m: map<Bytes, Bytes>)
    requires AllFit(m)
    ensures |SomeEntries(p, n, m)| <= |m| + n && AllFit(SomeEntries(p, n, m))
    decreases n
  {
    assert Pow256(2) == 65536 && Pow256(4) == WORD32;
    TakenFits(2, p);
    if n > 0 && TakeText(2, p).Some? {
      var (k, rest) := TakeText(2, p).value;
      TakenFits(4, rest);
      if TakeText(4, rest).Some? {
        var (v, rest') := TakeText(4, rest).value;
        OneMore(m, k, v);
        EntriesFitToo(rest', n - 1, m[k := v]);
      }
    }
  }

  predicate MaybesFit(os: seq<Option<Bytes>>) {
    forall i | 0 <= i < |os| && os[i].Some? :: |os[i].value| < WORD32
  }

  lemma {:induction false} AbsentFit(n: nat)
    ensures |Absent(n)| == n && MaybesFit(Absent(n))
  {
    if n > 0 {
      AbsentFit(n - 1);
    }
  }

  lemma {:induction false} MaybesFitToo(p: Bytes, n: nat)
    ensures |SomeMaybes(p, n)| == n && MaybesFit(SomeMaybes(p, n))
    decreases n
  {
    AbsentFit(n);
    if n > 0 && p != [] {
      if p[0] == 0 {
        MaybesFitToo(p[1..], n - 1);
      } else {
        assert Pow256(4) == WORD32;
        TakenFits(4, p[1..]);
        if TakeText(4, p[1..]).Some? {
          MaybesFitToo(TakeText(4, p[1..]).value.1, n - 1);
        }
      }
    }
  }

  lemma {:induction false} PositionsFit(p: Bytes, n: nat)
    ensures |SomePositions(p, n)| <= n
    decreases n
  {
    if n > 0 && |p| >= 8 {
      PositionsFit(p[8..], n - 1);
    }
  }

  lemma TextFits(p: Bytes)
    ensures TextOf(p).Some? ==> |TextOf(p).value| < WORD32
  {
    if |p| >= 5 {
      Read32(p, 1);
    }
  }

  lemma ReadTextsFit(p: Bytes)
    ensures TextsOf(p).Some? ==> |TextsOf(p).value| < WORD32 && forall s | s in TextsOf(p).value :: |s| < 65536
  {
    if |p| >= 5 {
      Read32(p, 1);
      TextsFit(2, p[5..], ToNat(p[1..5]));
      assert Pow256(2) == 65536;
    }
  }

  lemma ReadMapFits(p: Bytes)
    ensures MapOf(p).Some? ==> |MapOf(p).value| < WORD32 && AllFit(MapOf(p).value)
  {
    if |p| >= 5 {
      Read32(p, 1);
      EntriesFitToo(p[5..], ToNat(p[1..5]), map[]);
    }
  }

  lemma ReadMaybesFit(p: Bytes)
    ensures MaybesOf(p).Some? ==> |MaybesOf(p).value| < WORD32 && MaybesFit(MaybesOf(p).value)
  {
    if |p| >= 5 {
      Read32(p, 1);
      MaybesFitToo(p[5..], ToNat(p[1..5]));
    }
  }

  lemma ReadPositionsFit(p: Bytes)
    ensures PositionsOf(p).Some? ==> |PositionsOf(p).value| < WORD32
  {
    if |p| >= 5 {
      Read32(p, 1);
      PositionsFit(p[5..], ToNat(p[1..5]));
    }
  }

  lemma ErrorFits(p: Bytes)
    ensures |ErrorOf(p)| < 65536
  {
    if |p| >= 3 {
      Read16(p, 1);
    }
  }
}
