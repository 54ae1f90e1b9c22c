/** Where every byte of a frame, a plain request and a plain response stands: numbers most significant byte first. */
module WireLayout {
  import opened Bytes
  import Hashing
  import opened Wire
  import opened WireStrings
  import opened WireRequests

  /** Byte i of w is the digit of weight 256 to the power of w - 1 - i. */
  lemma {:induction false} UintDigits(w: nat, v: nat, i: nat)
    requires i < w
    ensures Uint(w, v)[i] as nat == v / Pow256(w - 1 - i) % 256
  {
    if i < w - 1 {
      UintDigits(w - 1, v / 256, i);
      Hashing.DividedTwice(v, 256, Pow256(w - 2 - i));
    }
  }

  /** The bytes spell v, most significant first. */
  predicate Spells(b: Bytes, v: nat) {
    forall i | 0 <= i < |b| :: b[i] as nat == v / Pow256(|b| - 1 - i) % 256
  }

  lemma UintSpells(w: nat, v: nat)
    ensures Spells(Uint(w, v), v)
  {
    forall i | 0 <= i < w ensures Uint(w, v)[i] as nat == v / Pow256(w - 1 - i) % 256 {
      UintDigits(w, v, i);
    }
  }

  /** Length, stream, kind, flags, payload. */
  lemma FrameLayout(f: Frame)
    ensures
      var p := FrameBytes(f);
      && |p| == 10 + |f.payload| && Spells(p[0..4], |f.payload|) && Spells(p[4..8], f.streamID)
      && p[8] == f.kind && p[9] == f.flags && p[10..] == f.payload
  {
    FrameParts(f, []);
    assert FrameBytes(f) + [] == FrameBytes(f);
    UintSpells(4, |f.payload|);
    UintSpells(4, f.streamID);
  }

  /** Command, length of the key, length of the value, time to live, key, value. */
  lemma RequestLayout(r: Request)
    ensures
      var p, k, v := KVBytes(r), |r.key|, |r.value|;
      && |p| == 15 + k + v && p[0] == r.cmd && Spells(p[1..3], k) && Spells(p[3..7], v) && Spells(p[7..15], FromInt64(r.ttl))
      && p[15..15 + k] == r.key && p[15 + k..15 + k + v] == r.value
  {
    var k, v := |r.key|, |r.value|;
    Pieces6(KVBytes(r), [r.cmd], Uint(2, k), Uint(4, v), Uint(8, FromInt64(r.ttl)), r.key, r.value,
            1, 3, 7, 15, 15 + k, 15 + k + v);
    assert KVBytes(r)[0] == KVBytes(r)[..1][0];
    UintSpells(2, k);
    UintSpells(4, v);
    UintSpells(8, FromInt64(r.ttl));
  }

  /** Status, length of the value, length of the message, value, message. */
  lemma ResponseLayout(r: Response)
    ensures
      var p, v, e := ResponseBytes(r), |r.value|, |r.errMsg|;
      && |p| == 7 + v + e && p[0] == r.status && Spells(p[1..5], v) && Spells(p[5..7], e)
      && p[7..7 + v] == r.value && p[7 + v..7 + v + e] == r.errMsg
  {
    var v, e := |r.value|, |r.errMsg|;
    Pieces5(ResponseBytes(r), [r.status], Uint(4, v), Uint(2, e), r.value, r.errMsg, 1, 5, 7, 7 + v, 7 + v + e);
    assert ResponseBytes(r)[0] == ResponseBytes(r)[..1][0];
    UintSpells(4, v);
    UintSpells(2, e);
  }
}
