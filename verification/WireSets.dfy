/** Requests of the set commands (net/protocol.go). */
module WireSets {
  import opened Bytes
  import opened Wire
  import opened WireStrings
  import opened WireRequests

  datatype SetRequest = SetRequest(cmd: Byte, key: Bytes, elems: seq<Bytes>, count: Int32, keys: seq<Bytes>)

  predicate KeyOnly(cmd: Byte) {
    cmd == SMEMBERS || cmd == SCARD || cmd == SPOP
  }

  predicate WithElems(cmd: Byte) {
    cmd == SADD || cmd == SREM
  }

  predicate WithKeys(cmd: Byte) {
    cmd == SUNION || cmd == SINTER || cmd == SDIFF
  }

  predicate SetCommand(cmd: Byte) {
    SADD <= cmd <= SDIFF
  }

  function Blank(cmd: Byte): SetRequest {
    SetRequest(cmd, [], [], 0, [])
  }

  function FirstElem(r: SetRequest): Bytes {
    if r.elems == [] then [] else r.elems[0]
  }

  /** What is left of a request when the fields its command does not use are cleared. */
  function SetUsed(r: SetRequest): SetRequest {
    if KeyOnly(r.cmd) then r.(elems := [], count := 0, keys := [])
    else if WithElems(r.cmd) then r.(count := 0, keys := [])
    else if r.cmd == SISMEMBER then r.(elems := [FirstElem(r)], count := 0, keys := [])
    else if r.cmd == SRANDMEMBER then r.(elems := [], keys := [])
    else r.(key := [], elems := [], count := 0)
  }

  /** The limits: offsets in 16 bits cost three or seven bytes of key. */
  predicate SetFits(r: SetRequest) {
    if KeyOnly(r.cmd) then |r.key| <= 65532
    else if WithElems(r.cmd) then
      |r.key| <= 65528 && |r.elems| < 0x1_0000_0000 && forall e | e in r.elems :: |e| < 0x1_0000_0000
    else if r.cmd == SISMEMBER then |r.key| <= 65528 && |FirstElem(r)| < 0x1_0000_0000
    else if r.cmd == SRANDMEMBER then |r.key| <= 65528
    else |r.keys| < 65536 && forall k | k in r.keys :: |k| < 65536
  }

  // ---- Encoding ----

  function KeyOnlyBytes(r: SetRequest): Bytes {
    [r.cmd] + Uint(2, |r.key|) + r.key
  }

  function ElemsBytes(r: SetRequest): Bytes {
    [r.cmd] + Uint(2, |r.key|) + Uint(4, |r.elems|) + r.key + Strings(4, r.elems)
  }

  function RandomBytes(r: SetRequest): Bytes {
    [r.cmd] + Uint(2, |r.key|) + Uint(4, FromInt32(r.count)) + r.key
  }

  function MemberBytes(r: SetRequest): Bytes {
    [r.cmd] + Uint(2, |r.key|) + Uint(4, |FirstElem(r)|) + r.key + FirstElem(r)
  }

  function KeysBytes(r: SetRequest): Bytes {
    [r.cmd] + Uint(2, |r.keys|) + Strings(2, r.keys)
  }

  /** The bytes of a request; none for a command that is not a set command. */
  function SetBytes(r: SetRequest): Bytes {
    if KeyOnly(r.cmd) then KeyOnlyBytes(r)
    else if WithElems(r.cmd) then ElemsBytes(r)
    else if r.cmd == SISMEMBER then MemberBytes(r)
    else if r.cmd == SRANDMEMBER then RandomBytes(r)
    else if WithKeys(r.cmd) then KeysBytes(r)
    else []
  }

  method EncodeKeyOnly(r: SetRequest) returns (p: array<Byte>)
    ensures fresh(p) && p[..] == KeyOnlyBytes(r)
  {
    var kl := |r.key|;
    p := new Byte[3 + kl];
    p[0] := r.cmd;
    assert p[..1] == [r.cmd];
    PutNumber(p, 1, 2, kl);
    PutBytes(p, 3, r.key);
    assert p[..p.Length] == p[..];
  }

  method EncodeElems(r: SetRequest) returns (p: array<Byte>)
    ensures fresh(p) && p[..] == ElemsBytes(r)
  {
    var kl := |r.key|;
    p := new Byte[7 + kl + StringsSize(4, r.elems)];
    p[0] := r.cmd;
    assert p[..1] == [r.cmd];
    PutNumber(p, 1, 2, kl);
    PutNumber(p, 3, 4, |r.elems|);
    PutBytes(p, 7, r.key);
    PutElems(p, 7 + kl, 4, r.elems);
    assert p[..p.Length] == p[..];
  }

  method EncodeRandom(r: SetRequest) returns (p: array<Byte>)
    ensures fresh(p) && p[..] == RandomBytes(r)
  {
    var kl := |r.key|;
    p := new Byte[7 + kl];
    p[0] := r.cmd;
    assert p[..1] == [r.cmd];
    PutNumber(p, 1, 2, kl);
    PutNumber(p, 3, 4, FromInt32(r.count));
    PutBytes(p, 7, r.key);
    assert p[..p.Length] == p[..];
  }

  method EncodeMember(r: SetRequest) returns (p: array<Byte>)
    ensures fresh(p) && p[..] == MemberBytes(r)
  {
    var kl := |r.key|;
    var elem: Bytes := [];
    if |r.elems| > 0 {
      elem := r.elems[0];
    }
    p := new Byte[7 + kl + |elem|];
    p[0] := r.cmd;
    assert p[..1] == [r.cmd];
    PutNumber(p, 1, 2, kl);
    PutNumber(p, 3, 4, |elem|);
    PutBytes(p, 7, r.key);
    PutBytes(p, 7 + kl, elem);
    assert p[..p.Length] == p[..];
  }

  method EncodeKeys(r: SetRequest) returns (p: array<Byte>)
    ensures fresh(p) && p[..] == KeysBytes(r)
  {
    p := new Byte[3 + StringsSize(2, r.keys)];
    p[0] := r.cmd;
    assert p[..1] == [r.cmd];
    PutNumber(p, 1, 2, |r.keys|);
    PutElems(p, 3, 2, r.keys);
    assert p[..p.Length] == p[..];
  }

  method EncodeSetRequest(r: SetRequest) returns (p: array<Byte>)
    ensures fresh(p) && p[..] == SetBytes(r)
  {
    if r.cmd == SMEMBERS || r.cmd == SCARD || r.cmd == SPOP {
      p := EncodeKeyOnly(r);
    } else if r.cmd == SADD || r.cmd == SREM {
      p := EncodeElems(r);
    } else if r.cmd == SISMEMBER {
      p := EncodeMember(r);
    } else if r.cmd == SRANDMEMBER {
      p := EncodeRandom(r);
    } else if r.cmd == SUNION || r.cmd == SINTER || r.cmd == SDIFF {
      p := EncodeKeys(r);
    } else {
      p := new Byte[0];
    }
  }

  // ---- Decoding ----

  /** The end of the key is computed in 16 bits. */
  function DecodeKeyOnly(p: Bytes): Outcome<SetRequest>
    requires |p| >= 3
  {
    var kl := ToNat(p[1..3]);
    if |p| < 3 + kl then Malformed
    else if (3 + kl) % 0x1_0000 < 3 then Panics
    else Ok(Blank(p[0]).(key := p[3..(3 + kl) % 0x1_0000]))
  }

  /** Nothing is checked before the key is cut out. */
  function DecodeElems(p: Bytes): Outcome<SetRequest>
    requires |p| >= 3
  {
    if |p| < 7 then Malformed
    else
      var kl, n := ToNat(p[1..3]), ToNat(p[3..7]);
      var end := (7 + kl) % 0x1_0000;
      if end < 7 then Panics
      else if end > |p| then Overruns
      else match ParseStrings(4, p[end..], n)
        case None => Malformed
        case Some(ss) => Ok(Blank(p[0]).(key := p[7..end], elems := ss))
  }

  function DecodeRandom(p: Bytes): Outcome<SetRequest>
    requires |p| >= 3
  {
    if |p| < 7 then Malformed
    else
      var kl, n := ToNat(p[1..3]), ToNat(p[3..7]);
      if |p| < 7 + kl then Malformed
      else if (7 + kl) % 0x1_0000 < 7 then Panics
      else Ok(Blank(p[0]).(count := ToInt32(n), key := p[7..(7 + kl) % 0x1_0000]))
  }

  function DecodeMember(p: Bytes): Outcome<SetRequest>
    requires |p| >= 3
  {
    if |p| < 7 then Malformed
    else
      var kl, el := ToNat(p[1..3]), ToNat(p[3..7]);
      if |p| < 7 + kl + el then Malformed
      else if (7 + kl) % 0x1_0000 < 7 then Panics
      else Ok(Blank(p[0]).(key := p[7..(7 + kl) % 0x1_0000], elems := [p[7 + kl..7 + kl + el]]))
  }

  function DecodeKeys(p: Bytes): Outcome<SetRequest>
    requires |p| >= 3
  {
    match ParseStrings(2, p[3..], ToNat(p[1..3]))
    case None => Malformed
    case Some(ss) => Ok(Blank(p[0]).(keys := ss))
  }

  function DecodeSet(p: Bytes): Outcome<SetRequest> {
    if |p| < 3 then Malformed
    else if KeyOnly(p[0]) then DecodeKeyOnly(p)
    else if WithElems(p[0]) then DecodeElems(p)
    else if p[0] == SISMEMBER then DecodeMember(p)
    else if p[0] == SRANDMEMBER then DecodeRandom(p)
    else if WithKeys(p[0]) then DecodeKeys(p)
    else InvalidCommand
  }

  /** The end of a slice that begins at `lo`, in 16 bits; the slice panics if that is before its begin. */
  function End16(lo: nat, len: nat): nat {
    (lo + len) % 0x1_0000
  }

  method ReadKeyOnly(p: Bytes, kl: nat) returns (r: Outcome<SetRequest>)
    requires |p| >= 3 && kl == ToNat(p[1..3])
    ensures r == DecodeKeyOnly(p)
  {
    if |p| < 3 + kl {
      return Malformed;
    }
    var end := End16(3, kl);
    if end < 3 {
      return Panics;
    }
    return Ok(Blank(p[0]).(key := p[3..end]));
  }

  method ReadElems(p: Bytes, kl: nat) returns (r: Outcome<SetRequest>)
    requires |p| >= 3 && kl == ToNat(p[1..3])
    ensures r == DecodeElems(p)
  {
    if |p| < 7 {
      return Malformed;
    }
    var n := GetUint(p, 3, 4);
    var end := End16(7, kl);
    if end < 7 {
      return Panics;
    }
    if end > |p| {
      return Overruns;
    }
    Read16(p, 1);
    var off := 7 + kl;
    assert off == end;
    var elems := GetElems(p, off, 4, n);
    if elems == None {
      return Malformed;
    }
    return Ok(Blank(p[0]).(key := p[7..end], elems := elems.value));
  }

  method ReadMember(p: Bytes, kl: nat) returns (r: Outcome<SetRequest>)
    requires |p| >= 3 && kl == ToNat(p[1..3])
    ensures r == DecodeMember(p)
  {
    if |p| < 7 {
      return Malformed;
    }
    var el := GetUint(p, 3, 4);
    if |p| < 7 + kl + el {
      return Malformed;
    }
    var end := End16(7, kl);
    if end < 7 {
      return Panics;
    }
    return Ok(Blank(p[0]).(key := p[7..end], elems := [p[7 + kl..7 + kl + el]]));
  }

  method ReadRandom(p: Bytes, kl: nat) returns (r: Outcome<SetRequest>)
    requires |p| >= 3 && kl == ToNat(p[1..3])
    ensures r == DecodeRandom(p)
  {
    if |p| < 7 {
      return Malformed;
    }
    var n := GetUint(p, 3, 4);
    if |p| < 7 + kl {
      return Malformed;
    }
    var end := End16(7, kl);
    if end < 7 {
      return Panics;
    }
    return Ok(Blank(p[0]).(count := ToInt32(n), key := p[7..end]));
  }

  method ReadKeys(p: Bytes, n: nat) returns (r: Outcome<SetRequest>)
    requires |p| >= 3 && n == ToNat(p[1..3])
    ensures r == DecodeKeys(p)
  {
    var keys := GetElems(p, 3, 2, n);
    if keys == None {
      return Malformed;
    }
    return Ok(Blank(p[0]).(keys := keys.value));
  }

  method DecodeSetRequest(p: Bytes) returns (r: Outcome<SetRequest>)
    ensures r == DecodeSet(p)
  {
    if |p| < 3 {
      return Malformed;
    }
    var kl := GetUint(p, 1, 2);
    if p[0] == SMEMBERS || p[0] == SCARD || p[0] == SPOP {
      r := ReadKeyOnly(p, kl);
    } else if p[0] == SADD || p[0] == SREM {
      r := ReadElems(p, kl);
    } else if p[0] == SISMEMBER {
      r := ReadMember(p, kl);
    } else if p[0] == SRANDMEMBER {
      r := ReadRandom(p, kl);
    } else if p[0] == SUNION || p[0] == SINTER || p[0] == SDIFF {
      r := ReadKeys(p, kl);
    } else {
      r := InvalidCommand;
    }
  }

  /** The set decoder slices backwards exactly if the key is all there, or not checked, and too long for 16-bit offsets. */
  lemma SetPanicsIff(p: Bytes)
    ensures DecodeSet(p) == Panics <==>
              |p| >= 3 && var kl := ToNat(p[1..3]);
              if KeyOnly(p[0]) then kl >= 65533 && |p| >= 3 + kl
              else if WithElems(p[0]) then kl >= 65529 && |p| >= 7
              else if p[0] == SISMEMBER then kl >= 65529 && |p| >= 7 && |p| >= 7 + kl + ToNat(p[3..7])
              else p[0] == SRANDMEMBER && kl >= 65529 && |p| >= 7 + kl
  {
    if |p| >= 3 {
      Read16(p, 1);
    }
  }

  /** It slices past its payload exactly if the key of an SADD or SREM is cut off. */
  lemma SetOverrunsIff(p: Bytes)
    ensures DecodeSet(p) == Overruns <==>
              |p| >= 7 && WithElems(p[0]) && ToNat(p[1..3]) <= 65528 && |p| < 7 + ToNat(p[1..3])
  {
    if |p| >= 3 {
      Read16(p, 1);
    }
  }

  // ---- What fits comes back ----

  lemma KeyOnlyDecodes(p: Bytes, r: SetRequest, kl: nat)
    requires KeyOnly(r.cmd) && |p| >= 3 + kl && p[0] == r.cmd && ToNat(p[1..3]) == kl
    requires p[3..3 + kl] == r.key
    requires kl == |r.key|
    requires kl <= 65532
    ensures DecodeKeyOnly(p) == Ok(SetUsed(r))
  {
  }

  lemma KeyOnlyComesBack(r: SetRequest)
    requires KeyOnly(r.cmd) && SetFits(r)
    ensures |KeyOnlyBytes(r)| >= 3 && KeyOnlyBytes(r)[0] == r.cmd && DecodeKeyOnly(KeyOnlyBytes(r)) == Ok(SetUsed(r))
  {
    var p := KeyOnlyBytes(r);
    var kl := |r.key|;
    Pieces3(p, [r.cmd], Uint(2, kl), r.key, 1, 3, 3 + kl);
    assert p[0] == p[..1][0];
    Back16(kl);
    KeyOnlyDecodes(p, r, kl);
  }

  lemma ElemsDecodes(p: Bytes, r: SetRequest, kl: nat, n: nat)
    requires WithElems(r.cmd) && |p| >= 7 + kl && p[0] == r.cmd && ToNat(p[1..3]) == kl && ToNat(p[3..7]) == n
    requires p[7..7 + kl] == r.key
    requires kl == |r.key| && n == |r.elems|
    requires ParseStrings(4, p[7 + kl..], n) == Some(r.elems)
    requires kl <= 65528
    ensures DecodeElems(p) == Ok(SetUsed(r))
  {
  }

  lemma ElemsParts(r: SetRequest, p: Bytes, tail: Bytes, kl: nat, n: nat)
    requires p == ElemsBytes(r) && tail == Strings(4, r.elems) && kl == |r.key| && n == |r.elems|
    ensures |p| >= 7 + kl && p[0] == r.cmd && p[1..3] == Uint(2, kl) && p[3..7] == Uint(4, n)
    ensures p[7..7 + kl] == r.key && p[7 + kl..] == tail
  {
    Pieces5(p, [r.cmd], Uint(2, kl), Uint(4, n), r.key, tail, 1, 3, 7, 7 + kl, 7 + kl + |tail|);
    assert p[0] == p[..1][0];
  }

  lemma ElemsComeBack(r: SetRequest)
    requires WithElems(r.cmd) && SetFits(r)
    ensures |ElemsBytes(r)| >= 3 && ElemsBytes(r)[0] == r.cmd && DecodeElems(ElemsBytes(r)) == Ok(SetUsed(r))
  {
    var p := ElemsBytes(r);
    var kl, n := |r.key|, |r.elems|;
    ElemsParts(r, p, Strings(4, r.elems), kl, n);
    Back16(kl);
    Back32(n);
    ListComesBack32(r.elems, p[7 + kl..]);
    ElemsDecodes(p, r, kl, n);
  }

  lemma RandomDecodes(p: Bytes, r: SetRequest, kl: nat, n: nat)
    requires r.cmd == SRANDMEMBER && |p| >= 7 + kl && p[0] == r.cmd && ToNat(p[1..3]) == kl && ToNat(p[3..7]) == n
    requires p[7..7 + kl] == r.key
    requires kl == |r.key| && n == FromInt32(r.count)
    requires kl <= 65528
    ensures DecodeRandom(p) == Ok(SetUsed(r))
  {
  }

  lemma RandomComesBack(r: SetRequest)
    requires r.cmd == SRANDMEMBER && SetFits(r)
    ensures |RandomBytes(r)| >= 3 && RandomBytes(r)[0] == r.cmd && DecodeRandom(RandomBytes(r)) == Ok(SetUsed(r))
  {
    var p := RandomBytes(r);
    var kl, n := |r.key|, FromInt32(r.count);
    Pieces4(p, [r.cmd], Uint(2, kl), Uint(4, n), r.key, 1, 3, 7, 7 + kl);
    assert p[0] == p[..1][0];
    Back16(kl);
    Back32(n);
    RandomDecodes(p, r, kl, n);
  }

  lemma MemberDecodes(p: Bytes, r: SetRequest, kl: nat, el: nat)
    requires r.cmd == SISMEMBER && |p| >= 7 + kl + el && p[0] == r.cmd && ToNat(p[1..3]) == kl && ToNat(p[3..7]) == el
    requires p[7..7 + kl] == r.key && p[7 + kl..7 + kl + el] == FirstElem(r) && kl <= 65528
    ensures DecodeMember(p) == Ok(SetUsed(r))
  {
  }

  lemma MemberComesBack(r: SetRequest)
    requires r.cmd == SISMEMBER && SetFits(r)
    ensures |MemberBytes(r)| >= 3 && MemberBytes(r)[0] == r.cmd && DecodeMember(MemberBytes(r)) == Ok(SetUsed(r))
  {
    var p := MemberBytes(r);
    var kl, el := |r.key|, |FirstElem(r)|;
    Pieces5(p, [r.cmd], Uint(2, kl), Uint(4, el), r.key, FirstElem(r), 1, 3, 7, 7 + kl, 7 + kl + el);
    assert p[0] == p[..1][0];
    Back16(kl);
    Back32(el);
    MemberDecodes(p, r, kl, el);
  }

  lemma KeysComeBack(r: SetRequest)
    requires WithKeys(r.cmd) && SetFits(r)
    ensures |KeysBytes(r)| >= 3 && KeysBytes(r)[0] == r.cmd && DecodeKeys(KeysBytes(r)) == Ok(SetUsed(r))
  {
    var p, n, tail := KeysBytes(r), |r.keys|, Strings(2, r.keys);
    Pieces3(p, [r.cmd], Uint(2, n), tail, 1, 3, 3 + |tail|);
    assert p[0] == p[..1][0] && p[3..] == tail;
    Back16(n);
    ListComesBack16(r.keys, p[3..]);
  }

  lemma SetComesBack(r: SetRequest)
    requires SetCommand(r.cmd) && SetFits(r)
    ensures DecodeSet(SetBytes(r)) == Ok(SetUsed(r))
  {
    if KeyOnly(r.cmd) {
      KeyOnlyComesBack(r);
    } else if WithElems(r.cmd) {
      ElemsComeBack(r);
    } else if r.cmd == SISMEMBER {
      MemberComesBack(r);
    } else if r.cmd == SRANDMEMBER {
      RandomComesBack(r);
    } else {
      KeysComeBack(r);
    }
  }

  // ---- What is decoded is what the bytes say ----

  /** A decoded request fits, has no stray fields, and its encoding is what the payload begins with. */
  predicate SetCanonical(p: Bytes, r: SetRequest) {
    SetFits(r) && SetUsed(r) == r && SetBytes(r) <= p
  }

  lemma KeyOnlyIsFitting(p: Bytes, r: SetRequest)
    requires |p| >= 3 && KeyOnly(p[0]) && DecodeKeyOnly(p) == Ok(r)
    ensures r.cmd == p[0] && SetFits(r) && SetUsed(r) == r
  {
    Read16(p, 1);
  }

  lemma KeyOnlyRebuilt(p: Bytes, r: SetRequest, kl: nat)
    requires |p| >= 3 + kl && r.cmd == p[0] && r.key == p[3..3 + kl]
    requires kl == |r.key|
    requires Uint(2, kl) == p[1..3]
    ensures KeyOnlyBytes(r) <= p
  {
    assert p[..1] == [r.cmd];
    Begins3(p, [r.cmd], Uint(2, kl), r.key, 1, 3, 3 + kl);
  }

  lemma KeyOnlyIsCanonical(p: Bytes, r: SetRequest)
    requires |p| >= 3 && KeyOnly(p[0]) && DecodeKeyOnly(p) == Ok(r)
    ensures KeyOnlyBytes(r) <= p
  {
    var kl := ToNat(p[1..3]);
    Read16(p, 1);
    Reread(p, 1, 2);
    KeyOnlyRebuilt(p, r, kl);
  }

  lemma ElemsFacts(p: Bytes, r: SetRequest, kl: nat, n: nat)
    requires |p| >= 7 && DecodeElems(p) == Ok(r) && kl == ToNat(p[1..3]) && n == ToNat(p[3..7])
    ensures |p| >= 7 + kl && r == Blank(p[0]).(key := p[7..7 + kl], elems := r.elems)
    ensures ParseStrings(4, p[7 + kl..], n) == Some(r.elems)
    ensures |r.elems| == n && (forall s | s in r.elems :: |s| < 0x1_0000_0000) && Strings(4, r.elems) <= p[7 + kl..]
  {
    Read16(p, 1);
    ParsedStrings32(p[7 + kl..], n, r.elems);
  }

  lemma ElemsFit(r: SetRequest)
    requires WithElems(r.cmd) && r == Blank(r.cmd).(key := r.key, elems := r.elems) && |r.key| <= 65528
    requires |r.elems| < 0x1_0000_0000
    requires forall s | s in r.elems :: |s| < 0x1_0000_0000
    ensures SetFits(r) && SetUsed(r) == r
  {
  }

  lemma ElemsAreFitting(p: Bytes, r: SetRequest)
    requires |p| >= 3 && WithElems(p[0]) && DecodeElems(p) == Ok(r)
    ensures r.cmd == p[0] && SetFits(r) && SetUsed(r) == r
  {
    Read16(p, 1);
    Read32(p, 3);
    ElemsFacts(p, r, ToNat(p[1..3]), ToNat(p[3..7]));
    ElemsFit(r);
  }

  lemma ElemsRebuilt(p: Bytes, r: SetRequest, kl: nat, n: nat)
    requires |p| >= 7 + kl && r.cmd == p[0] && r.key == p[7..7 + kl]
    requires kl == |r.key| && n == |r.elems|
    requires Uint(2, kl) == p[1..3] && Uint(4, n) == p[3..7]
    requires Strings(4, r.elems) <= p[7 + kl..]
    ensures ElemsBytes(r) <= p
  {
    assert p[..1] == [r.cmd];
    Begins4(p, [r.cmd], Uint(2, kl), Uint(4, n), r.key, 1, 3, 7, 7 + kl);
    PrefixTail(p, 7 + kl, Strings(4, r.elems));
  }

  lemma ElemsAreCanonical(p: Bytes, r: SetRequest)
    requires |p| >= 3 && WithElems(p[0]) && DecodeElems(p) == Ok(r)
    ensures ElemsBytes(r) <= p
  {
    var kl, n := ElemsNumbers(p, r);
    ElemsRebuilt(p, r, kl, n);
  }

  lemma ElemsNumbers(p: Bytes, r: SetRequest) returns (kl: nat, n: nat)
    requires |p| >= 3 && DecodeElems(p) == Ok(r)
    ensures |p| >= 7 + kl && r.cmd == p[0] && r.key == p[7..7 + kl] && kl == |r.key| && n == |r.elems|
    ensures Uint(2, kl) == p[1..3] && Uint(4, n) == p[3..7] && Strings(4, r.elems) <= p[7 + kl..]
  {
    kl, n := ToNat(p[1..3]), ToNat(p[3..7]);
    Reread(p, 1, 2);
    Reread(p, 3, 4);
    ElemsFacts(p, r, kl, n);
  }

  lemma RandomIsFitting(p: Bytes, r: SetRequest)
    requires |p| >= 3 && p[0] == SRANDMEMBER && DecodeRandom(p) == Ok(r)
    ensures r.cmd == p[0] && SetFits(r) && SetUsed(r) == r
  {
    Read16(p, 1);
    Read32(p, 3);
  }

  lemma RandomRebuilt(p: Bytes, r: SetRequest, kl: nat, n: nat)
    requires |p| >= 7 + kl && r.cmd == p[0] && r.key == p[7..7 + kl]
    requires kl == |r.key| && n == FromInt32(r.count)
    requires Uint(2, kl) == p[1..3] && Uint(4, n) == p[3..7]
    ensures RandomBytes(r) <= p
  {
    assert p[..1] == [r.cmd];
    Begins4(p, [r.cmd], Uint(2, kl), Uint(4, n), r.key, 1, 3, 7, 7 + kl);
  }

  lemma RandomIsCanonical(p: Bytes, r: SetRequest)
    requires |p| >= 3 && p[0] == SRANDMEMBER && DecodeRandom(p) == Ok(r)
    ensures RandomBytes(r) <= p
  {
    var kl, n := ToNat(p[1..3]), ToNat(p[3..7]);
    Read16(p, 1);
    Reread(p, 1, 2);
    Read32(p, 3);
    Reread(p, 3, 4);
    RandomRebuilt(p, r, kl, n);
  }

  lemma MemberIsFitting(p: Bytes, r: SetRequest)
    requires |p| >= 3 && p[0] == SISMEMBER && DecodeMember(p) == Ok(r)
    ensures r.cmd == p[0] && SetFits(r) && SetUsed(r) == r
  {
    Read16(p, 1);
    Read32(p, 3);
  }

  lemma MemberRebuilt(p: Bytes, r: SetRequest, kl: nat, el: nat)
    requires |p| >= 7 + kl + el && r.cmd == p[0] && r.key == p[7..7 + kl] && FirstElem(r) == p[7 + kl..7 + kl + el]
    requires kl == |r.key| && el == |FirstElem(r)| && Uint(2, kl) == p[1..3] && Uint(4, el) == p[3..7]
    ensures MemberBytes(r) <= p
  {
    assert p[..1] == [r.cmd];
    Begins5(p, [r.cmd], Uint(2, kl), Uint(4, el), r.key, FirstElem(r), 1, 3, 7, 7 + kl, 7 + kl + el);
  }

  lemma MemberIsCanonical(p: Bytes, r: SetRequest)
    requires |p| >= 3 && p[0] == SISMEMBER && DecodeMember(p) == Ok(r)
    ensures MemberBytes(r) <= p
  {
    var kl, el := ToNat(p[1..3]), ToNat(p[3..7]);
    Read16(p, 1);
    Reread(p, 1, 2);
    Reread(p, 3, 4);
    MemberRebuilt(p, r, kl, el);
  }

  lemma KeysAreFitting(p: Bytes, r: SetRequest)
    requires |p| >= 3 && WithKeys(p[0]) && DecodeKeys(p) == Ok(r)
    ensures r.cmd == p[0] && SetFits(r) && SetUsed(r) == r
  {
    Read16(p, 1);
    ParsedStrings16(p[3..], ToNat(p[1..3]), r.keys);
  }

  lemma KeysRebuilt(p: Bytes, r: SetRequest, n: nat)
    requires |p| >= 3 && r.cmd == p[0] && n == |r.keys| && Uint(2, n) == p[1..3] && Strings(2, r.keys) <= p[3..]
    ensures KeysBytes(r) <= p
  {
    assert p[..1] == [r.cmd];
    Begins2(p, [r.cmd], Uint(2, n), 1, 3);
    PrefixTail(p, 3, Strings(2, r.keys));
  }

  lemma KeysAreCanonical(p: Bytes, r: SetRequest)
    requires |p| >= 3 && WithKeys(p[0]) && DecodeKeys(p) == Ok(r)
    ensures KeysBytes(r) <= p
  {
    var n := KeysNumber(p, r);
    KeysRebuilt(p, r, n);
  }

  lemma KeysNumber(p: Bytes, r: SetRequest) returns (n: nat)
    requires |p| >= 3 && DecodeKeys(p) == Ok(r)
    ensures r.cmd == p[0] && n == |r.keys| && Uint(2, n) == p[1..3] && Strings(2, r.keys) <= p[3..]
  {
    n := ToNat(p[1..3]);
    KeysFacts(p, r, n);
    Reread(p, 1, 2);
  }

  lemma KeysFacts(p: Bytes, r: SetRequest, n: nat)
    requires |p| >= 3 && DecodeKeys(p) == Ok(r) && n == ToNat(p[1..3])
    ensures r.cmd == p[0] && n == |r.keys| && Strings(2, r.keys) <= p[3..]
  {
    ParsedStrings16(p[3..], n, r.keys);
  }

  lemma SetDecodedIsCanonical(p: Bytes, r: SetRequest)
    requires DecodeSet(p) == Ok(r)
    ensures SetCanonical(p, r)
  {
    if KeyOnly(p[0]) {
      KeyOnlyIsFitting(p, r);
      KeyOnlyIsCanonical(p, r);
    } else if WithElems(p[0]) {
      ElemsAreFitting(p, r);
      ElemsAreCanonical(p, r);
    } else if p[0] == SISMEMBER {
      MemberIsFitting(p, r);
      MemberIsCanonical(p, r);
    } else if p[0] == SRANDMEMBER {
      RandomIsFitting(p, r);
      RandomIsCanonical(p, r);
    } else {
      KeysAreFitting(p, r);
      KeysAreCanonical(p, r);
    }
  }

  /** A set request comes back, less what its command does not use, exactly within these limits. */
  lemma SetRoundTrip(r: SetRequest)
    requires SetCommand(r.cmd)
    ensures DecodeSet(SetBytes(r)) == Ok(SetUsed(r)) <==> SetFits(r)
  {
    if SetFits(r) {
      SetComesBack(r);
    }
    if DecodeSet(SetBytes(r)) == Ok(SetUsed(r)) {
      SetDecodedIsCanonical(SetBytes(r), SetUsed(r));
    }
  }
}
