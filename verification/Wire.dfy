/**
 * Big-endian integers, buffers written in place, and the frames of net/protocol.go that a
 * connection carries one after another.
 */
module Wire {
  import opened Bytes

  // ---- Integers ----

  function Pow256(w: nat): (r: nat)
    ensures r >= 1
  {
    if w == 0 then 1 else 256 * Pow256(w - 1)
  }

  /** The low w bytes of v, most significant first. */
  function Uint(w: nat, v: nat): (b: Bytes)
    ensures |b| == w
  {
    if w == 0 then [] else Uint(w - 1, v / 256) + [(v % 256) as Byte]
  }

  function ToNat(b: Bytes): nat {
    if b == [] then 0 else ToNat(b[..|b| - 1]) * 256 + b[|b| - 1] as nat
  }

  lemma {:induction false} ToNatFits(b: Bytes)
    ensures ToNat(b) < Pow256(|b|)
  {
    if b != [] {
      ToNatFits(b[..|b| - 1]);
    }
  }

  lemma {:induction false} UintToNat(w: nat, v: nat)
    requires v < Pow256(w)
    ensures ToNat(Uint(w, v)) == v
  {
    if w > 0 {
      UintToNat(w - 1, v / 256);
      var b := Uint(w, v);
      assert b[..w - 1] == Uint(w - 1, v / 256);
    }
  }

  lemma {:induction false} ToNatUint(b: Bytes)
    ensures Uint(|b|, ToNat(b)) == b
  {
    if b != [] {
      var n := |b| - 1;
      ToNatUint(b[..n]);
      assert ToNat(b) / 256 == ToNat(b[..n]) && ToNat(b) % 256 == b[n] as nat;
      assert b == b[..n] + [b[n]];
    }
  }

  /** A field that is too narrow changes the value it carries. */
  lemma UintFitsIff(w: nat, v: nat)
    ensures ToNat(Uint(w, v)) == v <==> v < Pow256(w)
  {
    ToNatFits(Uint(w, v));
    if v < Pow256(w) {
      UintToNat(w, v);
    }
  }

  // ---- Buffers ----

  method PutUint(buf: array<Byte>, off: nat, w: nat, v: nat)
    requires off + w <= buf.Length
    modifies buf
    ensures buf[..] == old(buf[..off]) + Uint(w, v) + old(buf[off + w..])
  {
    var i, rest := w, v;
    while i > 0
      invariant 0 <= i <= w
      invariant Uint(i, rest) + buf[off + i..off + w] == Uint(w, v)
      invariant buf[..off] == old(buf[..off]) && buf[off + w..] == old(buf[off + w..])
    {
      ghost var tail := buf[off + i..off + w];
      i := i - 1;
      buf[off + i] := (rest % 256) as Byte;
      assert buf[off + i..off + w] == [(rest % 256) as Byte] + tail;
      rest := rest / 256;
    }
    assert buf[..] == buf[..off] + buf[off..off + w] + buf[off + w..];
  }

  method CopyTo(buf: array<Byte>, off: nat, s: Bytes)
    requires off + |s| <= buf.Length
    modifies buf
    ensures buf[..] == old(buf[..off]) + s + old(buf[off + |s|..])
  {
    for i := 0 to |s|
      invariant buf[..off] == old(buf[..off]) && buf[off..off + i] == s[..i]
      invariant buf[off + i..] == old(buf[off + i..])
    {
      buf[off + i] := s[i];
      assert buf[off..off + i + 1] == buf[off..off + i] + [s[i]];
    }
    assert buf[..] == buf[..off] + buf[off..off + |s|] + buf[off + |s|..];
  }

  method PutNumber(buf: array<Byte>, off: nat, w: nat, v: nat)
    requires off + w <= buf.Length
    modifies buf
    ensures buf[..off + w] == old(buf[..off]) + Uint(w, v)
  {
    PutUint(buf, off, w, v);
    assert buf[..off + w] == buf[..][..off + w];
  }

  method PutBytes(buf: array<Byte>, off: nat, s: Bytes)
    requires off + |s| <= buf.Length
    modifies buf
    ensures buf[..off + |s|] == old(buf[..off]) + s
  {
    CopyTo(buf, off, s);
    assert buf[..off + |s|] == buf[..][..off + |s|];
  }

  method GetUint(p: Bytes, off: nat, w: nat) returns (v: nat)
    requires off + w <= |p|
    ensures v == ToNat(p[off..off + w])
  {
    v := 0;
    for i := 0 to w
      invariant v == ToNat(p[off..off + i])
    {
      assert p[off..off + i + 1][..i] == p[off..off + i];
      v := v * 256 + p[off + i] as nat;
    }
  }

  // ---- Frames ----

  const MAX_PAYLOAD := 16 * 1024 * 1024

  datatype Frame = Frame(streamID: nat, kind: Byte, flags: Byte, payload: Bytes)

  function FrameBytes(f: Frame): Bytes {
    Uint(4, |f.payload|) + Uint(4, f.streamID) + [f.kind, f.flags] + f.payload
  }

  datatype ReadFrame = Got(frame: Frame, rest: Bytes) | AtEnd | CutOff | TooLarge

  /** Reading one frame off the bytes that are still to come. No bytes where the payload should be look like a clean end. */
  function ParseFrame(p: Bytes): ReadFrame {
    if p == [] then AtEnd
    else if |p| < 10 then CutOff
    else
      var n := ToNat(p[0..4]);
      if n > MAX_PAYLOAD then TooLarge
      else if n > 0 && |p| == 10 then AtEnd
      else if |p| < 10 + n then CutOff
      else Got(Frame(ToNat(p[4..8]), p[8], p[9], p[10..10 + n]), p[10 + n..])
  }

  method EncodeFrame(f: Frame) returns (buf: array<Byte>)
    ensures fresh(buf) && buf[..] == FrameBytes(f)
  {
    buf := new Byte[10 + |f.payload|];
    PutUint(buf, 0, 4, |f.payload|);
    PutUint(buf, 4, 4, f.streamID);
    buf[8] := f.kind;
    buf[9] := f.flags;
    assert buf[..10] == Uint(4, |f.payload|) + Uint(4, f.streamID) + [f.kind, f.flags];
    CopyTo(buf, 10, f.payload);
  }

  method DecodeFrame(p: Bytes) returns (r: ReadFrame)
    ensures r == ParseFrame(p)
  {
    if |p| == 0 {
      return AtEnd;
    }
    if |p| < 10 {
      return CutOff;
    }
    var n := GetUint(p, 0, 4);
    if n > MAX_PAYLOAD {
      return TooLarge;
    }
    var id := GetUint(p, 4, 4);
    if n > 0 && |p| == 10 {
      return AtEnd;
    }
    if |p| < 10 + n {
      return CutOff;
    }
    return Got(Frame(id, p[8], p[9], p[10..10 + n]), p[10 + n..]);
  }

  lemma FrameParts(f: Frame, rest: Bytes)
    ensures
      var p := FrameBytes(f) + rest;
      && |p| >= 10 && p[0..4] == Uint(4, |f.payload|) && p[4..8] == Uint(4, f.streamID)
      && p[8] == f.kind && p[9] == f.flags && p[10..] == f.payload + rest
  {
  }

  /** A frame comes back, and nothing of what follows it is used, exactly if its payload is within the limit. */
  lemma FrameRoundTrip(f: Frame, rest: Bytes)
    requires f.streamID < Pow256(4)
    ensures ParseFrame(FrameBytes(f) + rest) == Got(f, rest) <==> |f.payload| <= MAX_PAYLOAD
  {
    var p := FrameBytes(f) + rest;
    FrameParts(f, rest);
    UintToNat(4, f.streamID);
    UintFitsIff(4, |f.payload|);
    if |f.payload| <= MAX_PAYLOAD {
      var n := |f.payload|;
      assert p[10..][..n] == f.payload && p[10..][n..] == rest;
      assert p[10..10 + n] == p[10..][..n] && p[10 + n..] == p[10..][n..];
    }
  }

  // ---- A connection ----

  function Stream(fs: seq<Frame>): Bytes {
    if fs == [] then [] else FrameBytes(fs[0]) + Stream(fs[1..])
  }

  /** All the frames up to the first that cannot be read, and why reading stopped. */
  function ParseStream(p: Bytes): (seq<Frame>, ReadFrame)
    decreases |p|
  {
    match ParseFrame(p)
    case Got(f, rest) =>
      var (fs, end) := ParseStream(rest);
      ([f] + fs, end)
    case end => ([], end)
  }

  /** Frames sent one after another arrive as the same frames, whatever their payloads look like. */
  lemma {:induction false} StreamRoundTrip(fs: seq<Frame>)
    requires forall f | f in fs :: f.streamID < Pow256(4) && |f.payload| <= MAX_PAYLOAD
    ensures ParseStream(Stream(fs)) == (fs, AtEnd)
  {
    if fs != [] {
      StreamRoundTrip(fs[1..]);
      FrameRoundTrip(fs[0], Stream(fs[1..]));
      assert fs == [fs[0]] + fs[1..];
    }
  }
}
