/**
 * What all payloads are made of: pieces one after another, and counted lists of length-prefixed
 * strings, written into a buffer and read back at a moving offset.
 */
module WireStrings {
  import opened Bytes
  import opened Wire

  // ---- Pieces ----

  lemma SplitAt(a: Bytes, b: Bytes)
    ensures (a + b)[..|a|] == a && (a + b)[|a|..] == b
  {
  }

  lemma Assoc(a: Bytes, b: Bytes, c: Bytes)
    ensures a + b + c == a + (b + c)
  {
  }

  lemma Split3(p: Bytes, i: nat, j: nat)
    requires i <= j <= |p|
    ensures p == p[..i] + p[i..j] + p[j..]
  {
  }

  /** Earlier pieces stay where they are when another one is added. */
  lemma Earlier(p: Bytes, q: Bytes, a: Bytes, i: nat, j: nat)
    requires p == q + a && i <= j <= |q|
    ensures |p| == |q| + |a| && p[i..j] == q[i..j] && (i == 0 ==> p[..j] == q[..j])
  {
  }

  lemma Last(p: Bytes, q: Bytes, a: Bytes, i: nat, j: nat)
    requires p == q + a && i == |q| && j == i + |a|
    ensures |p| == j && p[i..j] == a && p[i..] == a && p[..i] == q
  {
  }

  // A payload falls apart into the pieces it was put together from.

  lemma Pieces2(p: Bytes, a: Bytes, b: Bytes, i1: nat, i2: nat)
    requires p == a + b && i1 == |a| && i2 == i1 + |b|
    ensures |p| == i2 && p[..i1] == a && p[i1..i2] == b
  {
  }

  lemma Pieces3(p: Bytes, a: Bytes, b: Bytes, c: Bytes, i1: nat, i2: nat, i3: nat)
    requires p == a + b + c && i1 == |a| && i2 == i1 + |b| && i3 == i2 + |c|
    ensures |p| == i3 && p[..i1] == a && p[i1..i2] == b && p[i2..i3] == c
  {
    var q := a + b;
    Pieces2(q, a, b, i1, i2);
    Earlier(p, q, c, 0, i1);
    Earlier(p, q, c, i1, i2);
    Last(p, q, c, i2, i3);
  }

  lemma Pieces4(p: Bytes, a: Bytes, b: Bytes, c: Bytes, d: Bytes, i1: nat, i2: nat, i3: nat, i4: nat)
    requires p == a + b + c + d && i1 == |a| && i2 == i1 + |b| && i3 == i2 + |c| && i4 == i3 + |d|
    ensures |p| == i4 && p[..i1] == a && p[i1..i2] == b && p[i2..i3] == c && p[i3..i4] == d
  {
    var q := a + b + c;
    Pieces3(q, a, b, c, i1, i2, i3);
    Earlier(p, q, d, 0, i1);
    Earlier(p, q, d, i1, i2);
    Earlier(p, q, d, i2, i3);
    Last(p, q, d, i3, i4);
  }

  lemma Pieces5(p: Bytes, a: Bytes, b: Bytes, c: Bytes, d: Bytes, e: Bytes,
                i1: nat, i2: nat, i3: nat, i4: nat, i5: nat)
    requires p == a + b + c + d + e && i1 == |a| && i2 == i1 + |b| && i3 == i2 + |c| && i4 == i3 + |d| && i5 == i4 + |e|
    ensures |p| == i5 && p[..i1] == a && p[i1..i2] == b && p[i2..i3] == c && p[i3..i4] == d && p[i4..i5] == e
  {
    var q := a + b + c + d;
    Pieces4(q, a, b, c, d, i1, i2, i3, i4);
    Earlier(p, q, e, 0, i1);
    Earlier(p, q, e, i1, i2);
    Earlier(p, q, e, i2, i3);
    Earlier(p, q, e, i3, i4);
    Last(p, q, e, i4, i5);
  }

  lemma Pieces6(p: Bytes, a: Bytes, b: Bytes, c: Bytes, d: Bytes, e: Bytes, f: Bytes,
                i1: nat, i2: nat, i3: nat, i4: nat, i5: nat, i6: nat)
    requires p == a + b + c + d + e + f && i1 == |a| && i2 == i1 + |b| && i3 == i2 + |c| && i4 == i3 + |d|
    requires i5 == i4 + |e| && i6 == i5 + |f|
    ensures |p| == i6 && p[..i1] == a && p[i1..i2] == b && p[i2..i3] == c && p[i3..i4] == d && p[i4..i5] == e
    ensures p[i5..i6] == f
  {
    var q := a + b + c + d + e;
    Pieces5(q, a, b, c, d, e, i1, i2, i3, i4, i5);
    Earlier(p, q, f, 0, i1);
    Earlier(p, q, f, i1, i2);
    Earlier(p, q, f, i2, i3);
    Earlier(p, q, f, i3, i4);
    Earlier(p, q, f, i4, i5);
    Last(p, q, f, i5, i6);
  }

  lemma Pieces7(p: Bytes, a: Bytes, b: Bytes, c: Bytes, d: Bytes, e: Bytes, f: Bytes, g: Bytes,
                i1: nat, i2: nat, i3: nat, i4: nat, i5: nat, i6: nat, i7: nat)
    requires p == a + b + c + d + e + f + g && i1 == |a| && i2 == i1 + |b| && i3 == i2 + |c| && i4 == i3 + |d|
    requires i5 == i4 + |e| && i6 == i5 + |f| && i7 == i6 + |g|
    ensures |p| == i7 && p[..i1] == a && p[i1..i2] == b && p[i2..i3] == c && p[i3..i4] == d && p[i4..i5] == e
    ensures p[i5..i6] == f && p[i6..i7] == g
  {
    var q := a + b + c + d + e + f;
    Pieces6(q, a, b, c, d, e, f, i1, i2, i3, i4, i5, i6);
    Earlier(p, q, g, 0, i1);
    Earlier(p, q, g, i1, i2);
    Earlier(p, q, g, i2, i3);
    Earlier(p, q, g, i3, i4);
    Earlier(p, q, g, i4, i5);
    Earlier(p, q, g, i5, i6);
    Last(p, q, g, i6, i7);
  }

  lemma Pieces8(p: Bytes, a: Bytes, b: Bytes, c: Bytes, d: Bytes, e: Bytes, f: Bytes, g: Bytes, h: Bytes,
                i1: nat, i2: nat, i3: nat, i4: nat, i5: nat, i6: nat, i7: nat, i8: nat)
    requires p == a + b + c + d + e + f + g + h && i1 == |a| && i2 == i1 + |b| && i3 == i2 + |c| && i4 == i3 + |d|
    requires i5 == i4 + |e| && i6 == i5 + |f| && i7 == i6 + |g| && i8 == i7 + |h|
    ensures |p| == i8 && p[..i1] == a && p[i1..i2] == b && p[i2..i3] == c && p[i3..i4] == d && p[i4..i5] == e
    ensures p[i5..i6] == f && p[i6..i7] == g && p[i7..i8] == h
  {
    var q := a + b + c + d + e + f + g;
    Pieces7(q, a, b, c, d, e, f, g, i1, i2, i3, i4, i5, i6, i7);
    Earlier(p, q, h, 0, i1);
    Earlier(p, q, h, i1, i2);
    Earlier(p, q, h, i2, i3);
    Earlier(p, q, h, i3, i4);
    Earlier(p, q, h, i4, i5);
    Earlier(p, q, h, i5, i6);
    Earlier(p, q, h, i6, i7);
    Last(p, q, h, i7, i8);
  }

  // A payload begins with the pieces it is read in.

  lemma Begins2(p: Bytes, a: Bytes, b: Bytes, i1: nat, i2: nat)
    requires i1 <= i2 <= |p| && p[..i1] == a && p[i1..i2] == b
    ensures a + b == p[..i2] && a + b <= p
  {
    assert p[..i2] == p[..i1] + p[i1..i2];
  }

  lemma Begins3(p: Bytes, a: Bytes, b: Bytes, c: Bytes, i1: nat, i2: nat, i3: nat)
    requires i1 <= i2 <= i3 <= |p| && p[..i1] == a && p[i1..i2] == b && p[i2..i3] == c
    ensures a + b + c == p[..i3] && a + b + c <= p
  {
    Begins2(p, a, b, i1, i2);
    assert p[..i3] == p[..i2] + p[i2..i3];
  }

  lemma Begins4(p: Bytes, a: Bytes, b: Bytes, c: Bytes, d: Bytes, i1: nat, i2: nat, i3: nat, i4: nat)
    requires i1 <= i2 <= i3 <= i4 <= |p| && p[..i1] == a && p[i1..i2] == b && p[i2..i3] == c && p[i3..i4] == d
    ensures a + b + c + d == p[..i4] && a + b + c + d <= p
  {
    Begins3(p, a, b, c, i1, i2, i3);
    assert p[..i4] == p[..i3] + p[i3..i4];
  }

  lemma Begins5(p: Bytes, a: Bytes, b: Bytes, c: Bytes, d: Bytes, e: Bytes,
                i1: nat, i2: nat, i3: nat, i4: nat, i5: nat)
    requires i1 <= i2 <= i3 <= i4 <= i5 <= |p| && p[..i1] == a && p[i1..i2] == b && p[i2..i3] == c
    requires p[i3..i4] == d && p[i4..i5] == e
    ensures a + b + c + d + e == p[..i5] && a + b + c + d + e <= p
  {
    Begins4(p, a, b, c, d, i1, i2, i3, i4);
    assert p[..i5] == p[..i4] + p[i4..i5];
  }

  lemma Begins6(p: Bytes, a: Bytes, b: Bytes, c: Bytes, d: Bytes, e: Bytes, f: Bytes,
                i1: nat, i2: nat, i3: nat, i4: nat, i5: nat, i6: nat)
    requires i1 <= i2 <= i3 <= i4 <= i5 <= i6 <= |p| && p[..i1] == a && p[i1..i2] == b && p[i2..i3] == c
    requires p[i3..i4] == d && p[i4..i5] == e && p[i5..i6] == f
    ensures a + b + c + d + e + f == p[..i6] && a + b + c + d + e + f <= p
  {
    Begins5(p, a, b, c, d, e, i1, i2, i3, i4, i5);
    assert p[..i6] == p[..i5] + p[i5..i6];
  }

  lemma Begins7(p: Bytes, a: Bytes, b: Bytes, c: Bytes, d: Bytes, e: Bytes, f: Bytes, g: Bytes,
                i1: nat, i2: nat, i3: nat, i4: nat, i5: nat, i6: nat, i7: nat)
    requires i1 <= i2 <= i3 <= i4 <= i5 <= i6 <= i7 <= |p| && p[..i1] == a && p[i1..i2] == b && p[i2..i3] == c
    requires p[i3..i4] == d && p[i4..i5] == e && p[i5..i6] == f && p[i6..i7] == g
    ensures a + b + c + d + e + f + g == p[..i7] && a + b + c + d + e + f + g <= p
  {
    Begins6(p, a, b, c, d, e, f, i1, i2, i3, i4, i5, i6);
    assert p[..i7] == p[..i6] + p[i6..i7];
  }

  lemma Begins8(p: Bytes, a: Bytes, b: Bytes, c: Bytes, d: Bytes, e: Bytes, f: Bytes, g: Bytes, h: Bytes,
                i1: nat, i2: nat, i3: nat, i4: nat, i5: nat, i6: nat, i7: nat, i8: nat)
    requires i1 <= i2 <= i3 <= i4 <= i5 <= i6 <= i7 <= i8 <= |p| && p[..i1] == a && p[i1..i2] == b
    requires p[i2..i3] == c && p[i3..i4] == d && p[i4..i5] == e && p[i5..i6] == f && p[i6..i7] == g
    requires p[i7..i8] == h
    ensures a + b + c + d + e + f + g + h == p[..i8] && a + b + c + d + e + f + g + h <= p
  {
    Begins7(p, a, b, c, d, e, f, g, i1, i2, i3, i4, i5, i6, i7);
    assert p[..i8] == p[..i7] + p[i7..i8];
  }

  /** A number that was read is the number that is there. */
  lemma Reread(p: Bytes, i: nat, w: nat)
    requires i + w <= |p|
    ensures Uint(w, ToNat(p[i..i + w])) == p[i..i + w]
  {
    ToNatUint(p[i..i + w]);
  }

  lemma Read16(p: Bytes, i: nat)
    requires i + 2 <= |p|
    ensures ToNat(p[i..i + 2]) < 65536
  {
    ToNatFits(p[i..i + 2]);
    assert Pow256(2) == 65536;
  }

  lemma Read32(p: Bytes, i: nat)
    requires i + 4 <= |p|
    ensures ToNat(p[i..i + 4]) < 0x1_0000_0000
  {
    ToNatFits(p[i..i + 4]);
    assert Pow256(4) == 0x1_0000_0000;
  }

  lemma Read64(p: Bytes, i: nat)
    requires i + 8 <= |p|
    ensures ToNat(p[i..i + 8]) < 0x1_0000_0000_0000_0000
  {
    ToNatFits(p[i..i + 8]);
    assert Pow256(8) == 0x1_0000_0000_0000_0000;
  }

  lemma Back16(n: nat)
    requires n < 65536
    ensures ToNat(Uint(2, n)) == n
  {
    assert Pow256(2) == 65536;
    UintToNat(2, n);
  }

  lemma Back32(n: nat)
    requires n < 0x1_0000_0000
    ensures ToNat(Uint(4, n)) == n
  {
    assert Pow256(4) == 0x1_0000_0000;
    UintToNat(4, n);
  }

  lemma Back64(n: nat)
    requires n < 0x1_0000_0000_0000_0000
    ensures ToNat(Uint(8, n)) == n
  {
    assert Pow256(8) == 0x1_0000_0000_0000_0000;
    UintToNat(8, n);
  }

  // ---- Lists of strings ----

  function Strings(w: nat, ss: seq<Bytes>): Bytes {
    if ss == [] then [] else Uint(w, |ss[0]|) + ss[0] + Strings(w, ss[1..])
  }

  function ParseStrings(w: nat, p: Bytes, n: nat): Option<seq<Bytes>> {
    if n == 0 then Some([])
    else if |p| < w then None
    else
      var len := ToNat(p[..w]);
      if |p| < w + len then None
      else match ParseStrings(w, p[w + len..], n - 1)
        case None => None
        case Some(ss) => Some([p[w..w + len]] + ss)
  }

  predicate LengthsFit(w: nat, ss: seq<Bytes>) {
    forall s | s in ss :: |s| < Pow256(w)
  }

  lemma StringsStep(w: nat, u: Bytes, t: Bytes, b: Bytes, n: nat)
    requires |u| == w && ToNat(u) == |t|
    ensures ParseStrings(w, u + (t + b), n + 1) ==
            match ParseStrings(w, b, n) case None => None case Some(ss) => Some([t] + ss)
  {
    var p := u + (t + b);
    SplitAt(u, t + b);
    SplitAt(t, b);
    assert p[w..w + |t|] == p[w..][..|t|] && p[w + |t|..] == p[w..][|t|..];
  }

  lemma Assoc4(u: Bytes, t: Bytes, b: Bytes, c: Bytes)
    ensures u + t + b + c == u + (t + (b + c))
  {
  }

  lemma FitsTail(w: nat, ss: seq<Bytes>)
    requires ss != [] && LengthsFit(w, ss)
    ensures LengthsFit(w, ss[1..]) && |ss[0]| < Pow256(w)
  {
    assert ss[0] in ss;
  }

  lemma {:induction false} StringsRoundTrip(w: nat, ss: seq<Bytes>, rest: Bytes)
    requires LengthsFit(w, ss)
    ensures ParseStrings(w, Strings(w, ss) + rest, |ss|) == Some(ss)
  {
    if ss != [] {
      var u, t, b := Uint(w, |ss[0]|), ss[0], Strings(w, ss[1..]);
      var n := |ss| - 1;
      assert |ss[1..]| == n && n + 1 == |ss|;
      FitsTail(w, ss);
      StringsRoundTrip(w, ss[1..], rest);
      UintToNat(w, |ss[0]|);
      StringsStep(w, u, t, b + rest, n);
      Assoc4(u, t, b, rest);
      assert ss == [ss[0]] + ss[1..];
    }
  }

  /** A list at the end of a payload. */
  lemma ListComesBack(w: nat, ss: seq<Bytes>, q: Bytes)
    requires LengthsFit(w, ss) && q == Strings(w, ss)
    ensures ParseStrings(w, q, |ss|) == Some(ss)
  {
    StringsRoundTrip(w, ss, []);
    assert q + [] == q;
  }

  lemma ParsedStrings16(p: Bytes, n: nat, ss: seq<Bytes>)
    requires ParseStrings(2, p, n) == Some(ss)
    ensures |ss| == n && (forall s | s in ss :: |s| < 65536) && Strings(2, ss) <= p
  {
    ParsedStrings(2, p, n, ss);
    assert Pow256(2) == 65536;
  }

  lemma ParsedStrings32(p: Bytes, n: nat, ss: seq<Bytes>)
    requires ParseStrings(4, p, n) == Some(ss)
    ensures |ss| == n && (forall s | s in ss :: |s| < 0x1_0000_0000) && Strings(4, ss) <= p
  {
    ParsedStrings(4, p, n, ss);
    assert Pow256(4) == 0x1_0000_0000;
  }

  lemma ListComesBack16(ss: seq<Bytes>, q: Bytes)
    requires (forall s | s in ss :: |s| < 65536) && q == Strings(2, ss)
    ensures ParseStrings(2, q, |ss|) == Some(ss)
  {
    assert Pow256(2) == 65536;
    ListComesBack(2, ss, q);
  }

  lemma ListComesBack32(ss: seq<Bytes>, q: Bytes)
    requires (forall s | s in ss :: |s| < 0x1_0000_0000) && q == Strings(4, ss)
    ensures ParseStrings(4, q, |ss|) == Some(ss)
  {
    assert Pow256(4) == 0x1_0000_0000;
    ListComesBack(4, ss, q);
  }

  lemma StringsCons(w: nat, t: Bytes, ss: seq<Bytes>)
    ensures Strings(w, [t] + ss) == Uint(w, |t|) + t + Strings(w, ss)
  {
    assert ([t] + ss)[1..] == ss;
  }

  lemma FitsCons(w: nat, t: Bytes, ss: seq<Bytes>)
    requires |t| < Pow256(w) && LengthsFit(w, ss)
    ensures LengthsFit(w, [t] + ss)
  {
  }

  lemma PrefixStep(u: Bytes, t: Bytes, b: Bytes, c: Bytes)
    requires c <= b
    ensures u + t + c <= u + t + b
  {
  }

  lemma {:induction false} ParsedStrings(w: nat, p: Bytes, n: nat, ss: seq<Bytes>)
    requires ParseStrings(w, p, n) == Some(ss)
    ensures |ss| == n && LengthsFit(w, ss) && Strings(w, ss) <= p
  {
    if n > 0 {
      var u, len := p[..w], ToNat(p[..w]);
      var t, b := p[w..w + len], p[w + len..];
      var rest := ParseStrings(w, b, n - 1).value;
      assert ss == [t] + rest;
      assert |u| == w && |t| == len;
      ParsedStrings(w, b, n - 1, rest);
      ToNatFits(u);
      ToNatUint(u);
      assert Uint(w, |t|) == u;
      FitsCons(w, t, rest);
      StringsCons(w, t, rest);
      PrefixStep(u, t, b, Strings(w, rest));
      Split3(p, w, w + len);
    }
  }

  lemma PrefixTail(p: Bytes, n: nat, c: Bytes)
    requires n <= |p| && c <= p[n..]
    ensures p[..n] + c <= p
  {
  }

  // ---- Writing ----

  function StringsSize(w: nat, ss: seq<Bytes>): (n: nat)
    ensures n == |Strings(w, ss)|
  {
    if ss == [] then 0 else w + |ss[0]| + StringsSize(w, ss[1..])
  }

  /** What has been written, and the strings from the i-th on, make up the whole. */
  ghost predicate Writing(w: nat, a: Bytes, ss: seq<Bytes>, i: nat, all: Bytes) {
    i <= |ss| && a + Strings(w, ss[i..]) == all
  }

  lemma WriteOne(w: nat, a: Bytes, ss: seq<Bytes>, i: nat, all: Bytes)
    requires Writing(w, a, ss, i, all) && i < |ss|
    ensures |a| + w + |ss[i]| <= |all| && Writing(w, a + Uint(w, |ss[i]|) + ss[i], ss, i + 1, all)
  {
    assert ss[i..][1..] == ss[i + 1..];
    ElemAssoc(a, Uint(w, |ss[i]|), ss[i], Strings(w, ss[i + 1..]));
  }

  lemma WriteDone(w: nat, a: Bytes, ss: seq<Bytes>, all: Bytes)
    requires Writing(w, a, ss, |ss|, all)
    ensures a == all
  {
    assert ss[|ss|..] == [] && a + [] == a;
  }

  lemma WriteStart(w: nat, a: Bytes, ss: seq<Bytes>)
    ensures Writing(w, a, ss, 0, a + Strings(w, ss))
  {
    assert ss[0..] == ss;
  }

  method PutElems(buf: array<Byte>, off: nat, w: nat, ss: seq<Bytes>)
    requires off + |Strings(w, ss)| <= buf.Length
    modifies buf
    ensures buf[..off + |Strings(w, ss)|] == old(buf[..off]) + Strings(w, ss)
  {
    ghost var all := buf[..off] + Strings(w, ss);
    WriteStart(w, buf[..off], ss);
    var at: nat := off;
    for i := 0 to |ss|
      invariant at <= buf.Length && Writing(w, buf[..at], ss, i, all)
    {
      WriteOne(w, buf[..at], ss, i, all);
      PutNumber(buf, at, w, |ss[i]|);
      PutBytes(buf, at + w, ss[i]);
      at := at + w + |ss[i]|;
    }
    WriteDone(w, buf[..at], ss, all);
  }

  lemma ElemAssoc(a: Bytes, u: Bytes, t: Bytes, b: Bytes)
    ensures a + (u + t + b) == a + u + t + b
  {
  }

  // ---- Reading ----

  function Prepend(ss: seq<Bytes>, r: Option<seq<Bytes>>): Option<seq<Bytes>> {
    if r.Some? then Some(ss + r.value) else None
  }

  lemma PrependNone(r: Option<seq<Bytes>>)
    ensures Prepend([], r) == r
  {
    if r.Some? {
      assert [] + r.value == r.value;
    }
  }

  /** The strings read so far and those still to come make up the whole list. */
  ghost predicate Reading(w: nat, p: Bytes, at: nat, left: nat, ss: seq<Bytes>, want: Option<seq<Bytes>>) {
    at <= |p| && Prepend(ss, ParseStrings(w, p[at..], left)) == want
  }

  lemma NextString(w: nat, p: Bytes, at: nat, left: nat, ss: seq<Bytes>, want: Option<seq<Bytes>>, len: nat)
    requires Reading(w, p, at, left, ss, want) && at + w + len <= |p| && len == ToNat(p[at..at + w]) && left > 0
    ensures Reading(w, p, at + w + len, left - 1, ss + [p[at + w..at + w + len]], want)
  {
    var t, r := p[at + w..at + w + len], ParseStrings(w, p[at + w + len..], left - 1);
    assert p[at..][..w] == p[at..at + w] && p[at..][w..w + len] == t && p[at..][w + len..] == p[at + w + len..];
    if r.Some? {
      assert ss + [t] + r.value == ss + ([t] + r.value);
    }
  }

  lemma NoString(w: nat, p: Bytes, at: nat, left: nat, ss: seq<Bytes>, want: Option<seq<Bytes>>)
    requires Reading(w, p, at, left, ss, want) && left > 0
    requires at + w > |p| || at + w + ToNat(p[at..at + w]) > |p|
    ensures want == None
  {
    if at + w <= |p| {
      assert p[at..][..w] == p[at..at + w];
    }
  }

  lemma AllRead(w: nat, p: Bytes, at: nat, ss: seq<Bytes>, want: Option<seq<Bytes>>)
    requires Reading(w, p, at, 0, ss, want)
    ensures want == Some(ss)
  {
    assert ss + [] == ss;
  }

  /** The length and the bytes of one string, if they are all there. */
  method GetString(p: Bytes, at: nat, w: nat, ghost left: nat, ghost ss: seq<Bytes>, ghost want: Option<seq<Bytes>>)
    returns (r: Option<Bytes>)
    requires Reading(w, p, at, left, ss, want) && left > 0
    ensures r == None ==> want == None
    ensures r.Some? ==> Reading(w, p, at + w + |r.value|, left - 1, ss + [r.value], want)
  {
    if at + w > |p| {
      NoString(w, p, at, left, ss, want);
      return None;
    }
    var len := GetUint(p, at, w);
    if at + w + len > |p| {
      NoString(w, p, at, left, ss, want);
      return None;
    }
    NextString(w, p, at, left, ss, want, len);
    return Some(p[at + w..at + w + len]);
  }

  /** Stops at the first element that is cut off. */
  method GetElems(p: Bytes, off: nat, w: nat, n: nat) returns (r: Option<seq<Bytes>>)
    requires off <= |p|
    ensures r == ParseStrings(w, p[off..], n)
  {
    ghost var want := ParseStrings(w, p[off..], n);
    PrependNone(want);
    var ss: seq<Bytes> := [];
    var at: nat, left: nat := off, n;
    while left > 0
      invariant Reading(w, p, at, left, ss, want)
    {
      var s := GetString(p, at, w, left, ss, want);
      if s == None {
        return None;
      }
      ss := ss + [s.value];
      at := at + w + |s.value|;
      left := left - 1;
    }
    AllRead(w, p, at, ss, want);
    r := Some(ss);
  }
}
