/** Requests of the hash commands (net/protocol_ext.go). */
module WireHashes {
  import opened Bytes
  import opened Wire
  import opened WireStrings
  import opened WireRequests

  datatype HashRequest = HashRequest(cmd: Byte, key: Bytes, field: Bytes, value: Bytes, fields: seq<Bytes>,
                                     fvPairs: seq<Bytes>, deltaI64: Int64, deltaF64: Bits64)

  predicate IsHashCmd(cmd: Byte) {
    HSET <= cmd <= HSETNX
  }

  predicate HKeyOnly(cmd: Byte) {
    cmd == HGETALL || cmd == HKEYS || cmd == HVALS || cmd == HLEN
  }

  predicate HWithField(cmd: Byte) {
    cmd == HGET || cmd == HEXISTS || cmd == HSTRLEN
  }

  predicate HWithValue(cmd: Byte) {
    cmd == HSET || cmd == HSETNX
  }

  predicate HWithFields(cmd: Byte) {
    cmd == HDEL || cmd == HMGET
  }

  predicate HWithDelta(cmd: Byte) {
    cmd == HINCRBY || cmd == HINCRBYFLOAT
  }

  function Blank(cmd: Byte): HashRequest {
    HashRequest(cmd, [], [], [], [], [], 0, 0)
  }

  /** A field without a value at the end of the list is not sent. */
  function Pairs(ss: seq<Bytes>): (r: seq<Bytes>)
    ensures |r| % 2 == 0
  {
    ss[..|ss| - |ss| % 2]
  }

  lemma EvenPairs(ss: seq<Bytes>, n: nat)
    requires |ss| == 2 * n
    ensures Pairs(ss) == ss && |ss| / 2 == n
  {
    assert |ss| % 2 == 0;
  }

  function Delta(r: HashRequest): Bits64 {
    if r.cmd == HINCRBY then FromInt64(r.deltaI64) else r.deltaF64
  }

  /** What is left of a request when the fields its command does not use are cleared. */
  function HashUsed(r: HashRequest): HashRequest {
    var only := Blank(r.cmd).(key := r.key);
    if HKeyOnly(r.cmd) then only
    else if HWithField(r.cmd) then only.(field := r.field)
    else if HWithValue(r.cmd) then only.(field := r.field, value := r.value)
    else if HWithFields(r.cmd) then only.(fields := r.fields)
    else if r.cmd == HINCRBY then only.(field := r.field, deltaI64 := r.deltaI64)
    else if r.cmd == HINCRBYFLOAT then only.(field := r.field, deltaF64 := r.deltaF64)
    else only.(fvPairs := Pairs(r.fvPairs))
  }

  /** The limits: 16 bits for every length and count, but 32 for the value of HSET and HSETNX. */
  predicate HashFits(r: HashRequest) {
    |r.key| < 65536 &&
    if HKeyOnly(r.cmd) then true
    else if HWithField(r.cmd) || HWithDelta(r.cmd) then |r.field| < 65536
    else if HWithValue(r.cmd) then |r.field| < 65536 && |r.value| < 0x1_0000_0000
    else if HWithFields(r.cmd) then |r.fields| < 65536 && forall s | s in r.fields :: |s| < 65536
    else |r.fvPairs| / 2 < 65536 && forall s | s in Pairs(r.fvPairs) :: |s| < 65536
  }

  // ---- Encoding ----

  function KeyOnlyBytes(r: HashRequest): Bytes {
    [r.cmd] + Uint(2, |r.key|) + r.key
  }

  function FieldBytes(r: HashRequest): Bytes {
    [r.cmd] + Uint(2, |r.key|) + Uint(2, |r.field|) + r.key + r.field
  }

  function ValueBytes(r: HashRequest): Bytes {
    [r.cmd] + Uint(2, |r.key|) + Uint(2, |r.field|) + Uint(4, |r.value|) + r.key + r.field + r.value
  }

  function FieldsBytes(r: HashRequest): Bytes {
    [r.cmd] + Uint(2, |r.key|) + Uint(2, |r.fields|) + r.key + Strings(2, r.fields)
  }

  function DeltaBytes(r: HashRequest): Bytes {
    [r.cmd] + Uint(2, |r.key|) + Uint(2, |r.field|) + Uint(8, Delta(r)) + r.key + r.field
  }

  function PairsBytes(r: HashRequest): Bytes {
    [r.cmd] + Uint(2, |r.key|) + Uint(2, |r.fvPairs| / 2) + r.key + Strings(2, Pairs(r.fvPairs))
  }

  /** The bytes of a request; none for a command that is not a hash command. */
  function HashBytes(r: HashRequest): Bytes {
    if HKeyOnly(r.cmd) then KeyOnlyBytes(r)
    else if HWithField(r.cmd) then FieldBytes(r)
    else if HWithValue(r.cmd) then ValueBytes(r)
    else if HWithFields(r.cmd) then FieldsBytes(r)
    else if HWithDelta(r.cmd) then DeltaBytes(r)
    else if r.cmd == HMSET then PairsBytes(r)
    else []
  }

  method EncodeKeyOnly(r: HashRequest) returns (p: array<Byte>)
    ensures fresh(p) && p[..] == KeyOnlyBytes(r)
  {
    var kl := |r.key|;
    p := new Byte[3 + kl];
    p[0] := r.cmd;
    assert p[..1] == [r.cmd];
    PutNumber(p, 1, 2, kl);
    PutBytes(p, 3, r.key);
    assert p[..p.Length] == p[..];
  }

  method EncodeField(r: HashRequest) returns (p: array<Byte>)
    ensures fresh(p) && p[..] == FieldBytes(r)
  {
    var kl, fl := |r.key|, |r.field|;
    p := new Byte[5 + kl + fl];
    p[0] := r.cmd;
    assert p[..1] == [r.cmd];
    PutNumber(p, 1, 2, kl);
    PutNumber(p, 3, 2, fl);
    PutBytes(p, 5, r.key);
    PutBytes(p, 5 + kl, r.field);
    assert p[..p.Length] == p[..];
  }

  method EncodeValue(r: HashRequest) returns (p: array<Byte>)
    ensures fresh(p) && p[..] == ValueBytes(r)
  {
    var kl, fl, vl := |r.key|, |r.field|, |r.value|;
    p := new Byte[9 + kl + fl + vl];
    p[0] := r.cmd;
    assert p[..1] == [r.cmd];
    PutNumber(p, 1, 2, kl);
    PutNumber(p, 3, 2, fl);
    PutNumber(p, 5, 4, vl);
    PutBytes(p, 9, r.key);
    PutBytes(p, 9 + kl, r.field);
    PutBytes(p, 9 + kl + fl, r.value);
    assert p[..p.Length] == p[..];
  }

  method EncodeFields(r: HashRequest) returns (p: array<Byte>)
    ensures fresh(p) && p[..] == FieldsBytes(r)
  {
    var kl := |r.key|;
    p := new Byte[5 + kl + StringsSize(2, r.fields)];
    p[0] := r.cmd;
    assert p[..1] == [r.cmd];
    PutNumber(p, 1, 2, kl);
    PutNumber(p, 3, 2, |r.fields|);
    PutBytes(p, 5, r.key);
    PutElems(p, 5 + kl, 2, r.fields);
    assert p[..p.Length] == p[..];
  }

  method EncodeDelta(r: HashRequest) returns (p: array<Byte>)
    ensures fresh(p) && p[..] == DeltaBytes(r)
  {
    var kl, fl := |r.key|, |r.field|;
    p := new Byte[13 + kl + fl];
    p[0] := r.cmd;
    assert p[..1] == [r.cmd];
    PutNumber(p, 1, 2, kl);
    PutNumber(p, 3, 2, fl);
    PutNumber(p, 5, 8, if r.cmd == HINCRBY then FromInt64(r.deltaI64) else r.deltaF64);
    PutBytes(p, 13, r.key);
    PutBytes(p, 13 + kl, r.field);
    assert p[..p.Length] == p[..];
  }

  method EncodePairs(r: HashRequest) returns (p: array<Byte>)
    ensures fresh(p) && p[..] == PairsBytes(r)
  {
    var kl := |r.key|;
    p := new Byte[5 + kl + StringsSize(2, Pairs(r.fvPairs))];
    p[0] := r.cmd;
    assert p[..1] == [r.cmd];
    PutNumber(p, 1, 2, kl);
    PutNumber(p, 3, 2, |r.fvPairs| / 2);
    PutBytes(p, 5, r.key);
    PutPairs(p, 5 + kl, r.fvPairs);
    assert p[..p.Length] == p[..];
  }

  method EncodeHashRequest(r: HashRequest) returns (p: array<Byte>)
    ensures fresh(p) && p[..] == HashBytes(r)
  {
    if r.cmd == HGETALL || r.cmd == HKEYS || r.cmd == HVALS || r.cmd == HLEN {
      p := EncodeKeyOnly(r);
    } else if r.cmd == HGET || r.cmd == HEXISTS || r.cmd == HSTRLEN {
      p := EncodeField(r);
    } else if r.cmd == HSET || r.cmd == HSETNX {
      p := EncodeValue(r);
    } else if r.cmd == HDEL || r.cmd == HMGET {
      p := EncodeFields(r);
    } else if r.cmd == HINCRBY || r.cmd == HINCRBYFLOAT {
      p := EncodeDelta(r);
    } else if r.cmd == HMSET {
      p := EncodePairs(r);
    } else {
      p := new Byte[0];
    }
  }

  method PutPair(buf: array<Byte>, at: nat, f: Bytes, v: Bytes)
    requires at + 4 + |f| + |v| <= buf.Length
    modifies buf
    ensures buf[..at + 4 + |f| + |v|] == old(buf[..at]) + Uint(2, |f|) + f + Uint(2, |v|) + v
  {
    PutNumber(buf, at, 2, |f|);
    PutBytes(buf, at + 2, f);
    PutNumber(buf, at + 2 + |f|, 2, |v|);
    PutBytes(buf, at + 4 + |f|, v);
  }

  lemma WriteTwo(a: Bytes, ss: seq<Bytes>, i: nat, all: Bytes)
    requires Writing(2, a, ss, i, all) && i + 1 < |ss|
    ensures |a| + 4 + |ss[i]| + |ss[i + 1]| <= |all|
    ensures Writing(2, a + Uint(2, |ss[i]|) + ss[i] + Uint(2, |ss[i + 1]|) + ss[i + 1], ss, i + 2, all)
  {
    WriteOne(2, a, ss, i, all);
    WriteOne(2, a + Uint(2, |ss[i]|) + ss[i], ss, i + 1, all);
  }

  lemma PairAt(fv: seq<Bytes>, ss: seq<Bytes>, i: nat)
    requires ss == Pairs(fv) && i % 2 == 0 && i <= |ss|
    ensures i + 1 < |fv| ==> i + 2 <= |ss| && ss[i] == fv[i] && ss[i + 1] == fv[i + 1]
    ensures i + 1 >= |fv| ==> i == |ss|
  {
  }

  /** Fields and values in turn, for as long as there are two left. */
  method PutPairs(buf: array<Byte>, off: nat, fv: seq<Bytes>)
    requires off + |Strings(2, Pairs(fv))| <= buf.Length
    modifies buf
    ensures buf[..off + |Strings(2, Pairs(fv))|] == old(buf[..off]) + Strings(2, Pairs(fv))
  {
    ghost var ss := Pairs(fv);
    ghost var all := buf[..off] + Strings(2, ss);
    WriteStart(2, buf[..off], ss);
    var at: nat, i: nat := off, 0;
    while i + 1 < |fv|
      invariant i % 2 == 0 && i <= |ss| && at <= buf.Length && Writing(2, buf[..at], ss, i, all)
    {
      PairAt(fv, ss, i);
      WriteTwo(buf[..at], ss, i, all);
      PutPair(buf, at, fv[i], fv[i + 1]);
      at := at + 4 + |fv[i]| + |fv[i + 1]|;
      i := i + 2;
    }
    PairAt(fv, ss, i);
    WriteDone(2, buf[..at], ss, all);
  }

  // ---- Decoding ----

  function DecodeKeyOnly(p: Bytes): Outcome<HashRequest>
    requires |p| >= 3
  {
    var kl := ToNat(p[1..3]);
    if |p| < 3 + kl then Malformed
    else Ok(Blank(p[0]).(key := p[3..3 + kl]))
  }

  function DecodeField(p: Bytes): Outcome<HashRequest>
    requires |p| >= 3
  {
    if |p| < 5 then Malformed
    else
      var kl, fl := ToNat(p[1..3]), ToNat(p[3..5]);
      if |p| < 5 + kl + fl then Malformed
      else Ok(Blank(p[0]).(key := p[5..5 + kl], field := p[5 + kl..5 + kl + fl]))
  }

  function DecodeValue(p: Bytes): Outcome<HashRequest>
    requires |p| >= 3
  {
    if |p| < 9 then Malformed
    else
      var kl, fl, vl := ToNat(p[1..3]), ToNat(p[3..5]), ToNat(p[5..9]);
      if |p| < 9 + kl + fl + vl then Malformed
      else
        Ok(Blank(p[0]).(key := p[9..9 + kl], field := p[9 + kl..9 + kl + fl], value := p[9 + kl + fl..9 + kl + fl + vl]))
  }

  function DecodeFields(p: Bytes): Outcome<HashRequest>
    requires |p| >= 3
  {
    if |p| < 5 then Malformed
    else
      var kl, n := ToNat(p[1..3]), ToNat(p[3..5]);
      if |p| < 5 + kl then Malformed
      else match ParseStrings(2, p[5 + kl..], n)
        case None => Malformed
        case Some(ss) => Ok(Blank(p[0]).(key := p[5..5 + kl], fields := ss))
  }

  function DecodeDelta(p: Bytes): Outcome<HashRequest>
    requires |p| >= 3
  {
    if |p| < 13 then Malformed
    else
      var kl, fl, n := ToNat(p[1..3]), ToNat(p[3..5]), ToInt64(ToNat(p[5..13]));
      if |p| < 13 + kl + fl then Malformed
      else
        var r := Blank(p[0]).(key := p[13..13 + kl], field := p[13 + kl..13 + kl + fl]);
        if p[0] == HINCRBY then Ok(r.(deltaI64 := n)) else Ok(r.(deltaF64 := FromInt64(n)))
  }

  function DecodePairs(p: Bytes): Outcome<HashRequest>
    requires |p| >= 3
  {
    if |p| < 5 then Malformed
    else
      var kl, n := ToNat(p[1..3]), ToNat(p[3..5]);
      if |p| < 5 + kl then Malformed
      else match ParseStrings(2, p[5 + kl..], 2 * n)
        case None => Malformed
        case Some(ss) => Ok(Blank(p[0]).(key := p[5..5 + kl], fvPairs := ss))
  }

  function DecodeHash(p: Bytes): Outcome<HashRequest> {
    if |p| < 3 then Malformed
    else if HKeyOnly(p[0]) then DecodeKeyOnly(p)
    else if HWithField(p[0]) then DecodeField(p)
    else if HWithValue(p[0]) then DecodeValue(p)
    else if HWithFields(p[0]) then DecodeFields(p)
    else if HWithDelta(p[0]) then DecodeDelta(p)
    else if p[0] == HMSET then DecodePairs(p)
    else InvalidCommand
  }

  // Every slice below is within the payload, whatever its bytes are.

  method ReadKeyOnly(p: Bytes, kl: nat) returns (r: Outcome<HashRequest>)
    requires |p| >= 3 && kl == ToNat(p[1..3])
    ensures r == DecodeKeyOnly(p)
  {
    if |p| < 3 + kl {
      return Malformed;
    }
    return Ok(Blank(p[0]).(key := p[3..3 + kl]));
  }

  method ReadField(p: Bytes, kl: nat) returns (r: Outcome<HashRequest>)
    requires |p| >= 3 && kl == ToNat(p[1..3])
    ensures r == DecodeField(p)
  {
    if |p| < 5 {
      return Malformed;
    }
    var fl := GetUint(p, 3, 2);
    if |p| < 5 + kl + fl {
      return Malformed;
    }
    return Ok(Blank(p[0]).(key := p[5..5 + kl], field := p[5 + kl..5 + kl + fl]));
  }

  method ReadValue(p: Bytes, kl: nat) returns (r: Outcome<HashRequest>)
    requires |p| >= 3 && kl == ToNat(p[1..3])
    ensures r == DecodeValue(p)
  {
    if |p| < 9 {
      return Malformed;
    }
    var fl := GetUint(p, 3, 2);
    var vl := GetUint(p, 5, 4);
    if |p| < 9 + kl + fl + vl {
      return Malformed;
    }
    var req := Blank(p[0]).(key := p[9..9 + kl], field := p[9 + kl..9 + kl + fl]);
    return Ok(req.(value := p[9 + kl + fl..9 + kl + fl + vl]));
  }

  method ReadFields(p: Bytes, kl: nat) returns (r: Outcome<HashRequest>)
    requires |p| >= 3 && kl == ToNat(p[1..3])
    ensures r == DecodeFields(p)
  {
    if |p| < 5 {
      return Malformed;
    }
    var n := GetUint(p, 3, 2);
    var off := 5;
    if off + kl > |p| {
      return Malformed;
    }
    var key := p[off..off + kl];
    off := off + kl;
    var fields := GetElems(p, off, 2, n);
    if fields == None {
      return Malformed;
    }
    return Ok(Blank(p[0]).(key := key, fields := fields.value));
  }

  method ReadDelta(p: Bytes, kl: nat) returns (r: Outcome<HashRequest>)
    requires |p| >= 3 && kl == ToNat(p[1..3])
    ensures r == DecodeDelta(p)
  {
    if |p| < 13 {
      return Malformed;
    }
    var fl := GetUint(p, 3, 2);
    var n := GetUint(p, 5, 8);
    if |p| < 13 + kl + fl {
      return Malformed;
    }
    var req := Blank(p[0]).(key := p[13..13 + kl], field := p[13 + kl..13 + kl + fl]);
    if p[0] == HINCRBY {
      return Ok(req.(deltaI64 := ToInt64(n)));
    }
    return Ok(req.(deltaF64 := FromInt64(ToInt64(n))));
  }

  method ReadPairs(p: Bytes, kl: nat) returns (r: Outcome<HashRequest>)
    requires |p| >= 3 && kl == ToNat(p[1..3])
    ensures r == DecodePairs(p)
  {
    if |p| < 5 {
      return Malformed;
    }
    var n := GetUint(p, 3, 2);
    var off := 5;
    if off + kl > |p| {
      return Malformed;
    }
    var key := p[off..off + kl];
    off := off + kl;
    var pairs := GetPairs(p, off, n);
    if pairs == None {
      return Malformed;
    }
    return Ok(Blank(p[0]).(key := key, fvPairs := pairs.value));
  }

  method DecodeHashRequest(p: Bytes) returns (r: Outcome<HashRequest>)
    ensures r == DecodeHash(p) && r != Panics && r != Overruns
  {
    if |p| < 3 {
      return Malformed;
    }
    var kl := GetUint(p, 1, 2);
    if p[0] == HGETALL || p[0] == HKEYS || p[0] == HVALS || p[0] == HLEN {
      r := ReadKeyOnly(p, kl);
    } else if p[0] == HGET || p[0] == HEXISTS || p[0] == HSTRLEN {
      r := ReadField(p, kl);
    } else if p[0] == HSET || p[0] == HSETNX {
      r := ReadValue(p, kl);
    } else if p[0] == HDEL || p[0] == HMGET {
      r := ReadFields(p, kl);
    } else if p[0] == HINCRBY || p[0] == HINCRBYFLOAT {
      r := ReadDelta(p, kl);
    } else if p[0] == HMSET {
      r := ReadPairs(p, kl);
    } else {
      r := InvalidCommand;
    }
  }

  /** Fields and values in turn. */
  method GetPairs(p: Bytes, off: nat, n: nat) returns (r: Option<seq<Bytes>>)
    requires off <= |p|
    ensures r == ParseStrings(2, p[off..], 2 * n)
  {
    ghost var want := ParseStrings(2, p[off..], 2 * n);
    PrependNone(want);
    var ss: seq<Bytes> := [];
    var at: nat, left: nat := off, n;
    while left > 0
      invariant Reading(2, p, at, 2 * left, ss, want)
    {
      var f := GetString(p, at, 2, 2 * left, ss, want);
      if f == None {
        return None;
      }
      at := at + 2 + |f.value|;
      ss := ss + [f.value];
      var v := GetString(p, at, 2, 2 * left - 1, ss, want);
      if v == None {
        return None;
      }
      at := at + 2 + |v.value|;
      ss := ss + [v.value];
      left := left - 1;
    }
    AllRead(2, p, at, ss, want);
    r := Some(ss);
  }

  // ---- What fits comes back ----

  lemma KeyOnlyDecodes(p: Bytes, r: HashRequest, kl: nat)
    requires HKeyOnly(r.cmd) && |p| >= 3 + kl && p[0] == r.cmd && ToNat(p[1..3]) == kl
    requires p[3..3 + kl] == r.key
    requires kl == |r.key|
    ensures DecodeKeyOnly(p) == Ok(HashUsed(r))
  {
  }

  lemma KeyOnlyComesBack(r: HashRequest)
    requires HKeyOnly(r.cmd) && HashFits(r)
    ensures |KeyOnlyBytes(r)| >= 3 && KeyOnlyBytes(r)[0] == r.cmd && DecodeKeyOnly(KeyOnlyBytes(r)) == Ok(HashUsed(r))
  {
    var p := KeyOnlyBytes(r);
    var kl := |r.key|;
    Pieces3(p, [r.cmd], Uint(2, kl), r.key, 1, 3, 3 + kl);
    assert p[0] == p[..1][0];
    Back16(kl);
    KeyOnlyDecodes(p, r, kl);
  }

  lemma FieldDecodes(p: Bytes, r: HashRequest, kl: nat, fl: nat)
    requires HWithField(r.cmd) && |p| >= 5 + kl + fl && p[0] == r.cmd && ToNat(p[1..3]) == kl && ToNat(p[3..5]) == fl
    requires p[5..5 + kl] == r.key && p[5 + kl..5 + kl + fl] == r.field
    requires kl == |r.key| && fl == |r.field|
    ensures DecodeField(p) == Ok(HashUsed(r))
  {
  }

  lemma FieldComesBack(r: HashRequest)
    requires HWithField(r.cmd) && HashFits(r)
    ensures |FieldBytes(r)| >= 3 && FieldBytes(r)[0] == r.cmd && DecodeField(FieldBytes(r)) == Ok(HashUsed(r))
  {
    var p := FieldBytes(r);
    var kl, fl := |r.key|, |r.field|;
    Pieces5(p, [r.cmd], Uint(2, kl), Uint(2, fl), r.key, r.field, 1, 3, 5, 5 + kl, 5 + kl + fl);
    assert p[0] == p[..1][0];
    Back16(kl);
    Back16(fl);
    FieldDecodes(p, r, kl, fl);
  }

  lemma ValueDecodes(p: Bytes, r: HashRequest, kl: nat, fl: nat, vl: nat)
    requires HWithValue(r.cmd) && |p| >= 9 + kl + fl + vl && p[0] == r.cmd && ToNat(p[1..3]) == kl
    requires ToNat(p[3..5]) == fl && ToNat(p[5..9]) == vl
    requires p[9..9 + kl] == r.key && p[9 + kl..9 + kl + fl] == r.field && p[9 + kl + fl..9 + kl + fl + vl] == r.value
    requires kl == |r.key| && fl == |r.field| && vl == |r.value|
    ensures DecodeValue(p) == Ok(HashUsed(r))
  {
  }

  lemma ValueComesBack(r: HashRequest)
    requires HWithValue(r.cmd) && HashFits(r)
    ensures |ValueBytes(r)| >= 3 && ValueBytes(r)[0] == r.cmd && DecodeValue(ValueBytes(r)) == Ok(HashUsed(r))
  {
    var p := ValueBytes(r);
    var kl, fl, vl := |r.key|, |r.field|, |r.value|;
    Pieces7(p, [r.cmd], Uint(2, kl), Uint(2, fl), Uint(4, vl), r.key, r.field, r.value,
            1, 3, 5, 9, 9 + kl, 9 + kl + fl, 9 + kl + fl + vl);
    assert p[0] == p[..1][0];
    Back16(kl);
    Back16(fl);
    Back32(vl);
    ValueDecodes(p, r, kl, fl, vl);
  }

  lemma FieldsDecodes(p: Bytes, r: HashRequest, kl: nat, n: nat)
    requires HWithFields(r.cmd) && |p| >= 5 + kl && p[0] == r.cmd && ToNat(p[1..3]) == kl && ToNat(p[3..5]) == n
    requires p[5..5 + kl] == r.key
    requires kl == |r.key| && n == |r.fields|
    requires ParseStrings(2, p[5 + kl..], n) == Some(r.fields)
    ensures DecodeFields(p) == Ok(HashUsed(r))
  {
  }

  lemma FieldsParts(r: HashRequest, p: Bytes, tail: Bytes, kl: nat, n: nat)
    requires p == FieldsBytes(r) && tail == Strings(2, r.fields) && kl == |r.key| && n == |r.fields|
    ensures |p| >= 5 + kl && p[0] == r.cmd && p[1..3] == Uint(2, kl) && p[3..5] == Uint(2, n)
    ensures p[5..5 + kl] == r.key && p[5 + kl..] == tail
  {
    Pieces5(p, [r.cmd], Uint(2, kl), Uint(2, n), r.key, tail, 1, 3, 5, 5 + kl, 5 + kl + |tail|);
    assert p[0] == p[..1][0];
  }

  lemma FieldsComeBack(r: HashRequest)
    requires HWithFields(r.cmd) && HashFits(r)
    ensures |FieldsBytes(r)| >= 3 && FieldsBytes(r)[0] == r.cmd && DecodeFields(FieldsBytes(r)) == Ok(HashUsed(r))
  {
    var p := FieldsBytes(r);
    var kl, n := |r.key|, |r.fields|;
    FieldsParts(r, p, Strings(2, r.fields), kl, n);
    Back16(kl);
    Back16(n);
    ListComesBack16(r.fields, p[5 + kl..]);
    FieldsDecodes(p, r, kl, n);
  }

  lemma DeltaDecodes(p: Bytes, r: HashRequest, kl: nat, fl: nat, n: nat)
    requires HWithDelta(r.cmd) && |p| >= 13 + kl + fl && p[0] == r.cmd && ToNat(p[1..3]) == kl
    requires ToNat(p[3..5]) == fl && ToNat(p[5..13]) == n
    requires p[13..13 + kl] == r.key && p[13 + kl..13 + kl + fl] == r.field
    requires kl == |r.key| && fl == |r.field| && n == Delta(r)
    ensures DecodeDelta(p) == Ok(HashUsed(r))
  {
  }

  lemma DeltaComesBack(r: HashRequest)
    requires HWithDelta(r.cmd) && HashFits(r)
    ensures |DeltaBytes(r)| >= 3 && DeltaBytes(r)[0] == r.cmd && DecodeDelta(DeltaBytes(r)) == Ok(HashUsed(r))
  {
    var p := DeltaBytes(r);
    var kl, fl, n := |r.key|, |r.field|, Delta(r);
    Pieces6(p, [r.cmd], Uint(2, kl), Uint(2, fl), Uint(8, n), r.key, r.field, 1, 3, 5, 13, 13 + kl, 13 + kl + fl);
    assert p[0] == p[..1][0];
    Back16(kl);
    Back16(fl);
    Back64(n);
    DeltaDecodes(p, r, kl, fl, n);
  }

  lemma PairsDecodes(p: Bytes, r: HashRequest, kl: nat, n: nat)
    requires r.cmd == HMSET && |p| >= 5 + kl && p[0] == r.cmd && ToNat(p[1..3]) == kl && ToNat(p[3..5]) == n
    requires p[5..5 + kl] == r.key
    requires kl == |r.key| && n == |r.fvPairs| / 2
    requires ParseStrings(2, p[5 + kl..], 2 * n) == Some(Pairs(r.fvPairs))
    ensures DecodePairs(p) == Ok(HashUsed(r))
  {
  }

  lemma PairsParts(r: HashRequest, p: Bytes, tail: Bytes, kl: nat, n: nat)
    requires p == PairsBytes(r) && tail == Strings(2, Pairs(r.fvPairs)) && kl == |r.key| && n == |r.fvPairs| / 2
    ensures |p| >= 5 + kl && p[0] == r.cmd && p[1..3] == Uint(2, kl) && p[3..5] == Uint(2, n)
    ensures p[5..5 + kl] == r.key && p[5 + kl..] == tail
  {
    Pieces5(p, [r.cmd], Uint(2, kl), Uint(2, n), r.key, tail, 1, 3, 5, 5 + kl, 5 + kl + |tail|);
    assert p[0] == p[..1][0];
  }

  lemma PairsComeBack(r: HashRequest)
    requires r.cmd == HMSET && HashFits(r)
    ensures |PairsBytes(r)| >= 3 && PairsBytes(r)[0] == r.cmd && DecodePairs(PairsBytes(r)) == Ok(HashUsed(r))
  {
    var p := PairsBytes(r);
    var kl, n := |r.key|, |r.fvPairs| / 2;
    PairsParts(r, p, Strings(2, Pairs(r.fvPairs)), kl, n);
    Back16(kl);
    Back16(n);
    ListComesBack16(Pairs(r.fvPairs), p[5 + kl..]);
    PairsDecodes(p, r, kl, n);
  }

  // ---- What is decoded is what the bytes say ----

  /** A decoded request fits, has no stray fields, and its encoding is what the payload begins with. */
  predicate HashCanonical(p: Bytes, r: HashRequest) {
    HashFits(r) && HashUsed(r) == r && HashBytes(r) <= p
  }

  lemma KeyOnlyIsFitting(p: Bytes, r: HashRequest)
    requires |p| >= 3 && HKeyOnly(p[0]) && DecodeKeyOnly(p) == Ok(r)
    ensures r.cmd == p[0] && HashFits(r) && HashUsed(r) == r
  {
    Read16(p, 1);
  }

  lemma KeyOnlyRebuilt(p: Bytes, r: HashRequest, kl: nat)
    requires |p| >= 3 + kl && r.cmd == p[0] && r.key == p[3..3 + kl]
    requires kl == |r.key|
    requires Uint(2, kl) == p[1..3]
    ensures KeyOnlyBytes(r) <= p
  {
    assert p[..1] == [r.cmd];
    Begins3(p, [r.cmd], Uint(2, kl), r.key, 1, 3, 3 + kl);
  }

  lemma KeyOnlyIsCanonical(p: Bytes, r: HashRequest)
    requires |p| >= 3 && HKeyOnly(p[0]) && DecodeKeyOnly(p) == Ok(r)
    ensures KeyOnlyBytes(r) <= p
  {
    var kl := ToNat(p[1..3]);
    Reread(p, 1, 2);
    KeyOnlyRebuilt(p, r, kl);
  }

  lemma FieldIsFitting(p: Bytes, r: HashRequest)
    requires |p| >= 3 && HWithField(p[0]) && DecodeField(p) == Ok(r)
    ensures r.cmd == p[0] && HashFits(r) && HashUsed(r) == r
  {
    Read16(p, 1);
    Read16(p, 3);
  }

  lemma FieldRebuilt(p: Bytes, r: HashRequest, kl: nat, fl: nat)
    requires |p| >= 5 + kl + fl && r.cmd == p[0] && r.key == p[5..5 + kl] && r.field == p[5 + kl..5 + kl + fl]
    requires kl == |r.key| && fl == |r.field|
    requires Uint(2, kl) == p[1..3] && Uint(2, fl) == p[3..5]
    ensures FieldBytes(r) <= p
  {
    assert p[..1] == [r.cmd];
    Begins5(p, [r.cmd], Uint(2, kl), Uint(2, fl), r.key, r.field, 1, 3, 5, 5 + kl, 5 + kl + fl);
  }

  lemma FieldIsCanonical(p: Bytes, r: HashRequest)
    requires |p| >= 3 && HWithField(p[0]) && DecodeField(p) == Ok(r)
    ensures FieldBytes(r) <= p
  {
    var kl, fl := ToNat(p[1..3]), ToNat(p[3..5]);
    Reread(p, 1, 2);
    Reread(p, 3, 2);
    FieldRebuilt(p, r, kl, fl);
  }

  lemma ValueIsFitting(p: Bytes, r: HashRequest)
    requires |p| >= 3 && HWithValue(p[0]) && DecodeValue(p) == Ok(r)
    ensures r.cmd == p[0] && HashFits(r) && HashUsed(r) == r
  {
    Read16(p, 1);
    Read16(p, 3);
    Read32(p, 5);
  }

  lemma ValueRebuilt(p: Bytes, r: HashRequest, kl: nat, fl: nat, vl: nat)
    requires |p| >= 9 + kl + fl + vl && r.cmd == p[0] && r.key == p[9..9 + kl] && r.field == p[9 + kl..9 + kl + fl]
    requires r.value == p[9 + kl + fl..9 + kl + fl + vl]
    requires kl == |r.key| && fl == |r.field| && vl == |r.value|
    requires Uint(2, kl) == p[1..3] && Uint(2, fl) == p[3..5] && Uint(4, vl) == p[5..9]
    ensures ValueBytes(r) <= p
  {
    assert p[..1] == [r.cmd];
    Begins7(p, [r.cmd], Uint(2, kl), Uint(2, fl), Uint(4, vl), r.key, r.field, r.value,
            1, 3, 5, 9, 9 + kl, 9 + kl + fl, 9 + kl + fl + vl);
  }

  lemma ValueIsCanonical(p: Bytes, r: HashRequest)
    requires |p| >= 3 && HWithValue(p[0]) && DecodeValue(p) == Ok(r)
    ensures ValueBytes(r) <= p
  {
    var kl, fl, vl := ToNat(p[1..3]), ToNat(p[3..5]), ToNat(p[5..9]);
    Reread(p, 1, 2);
    Reread(p, 3, 2);
    Reread(p, 5, 4);
    ValueRebuilt(p, r, kl, fl, vl);
  }

  lemma FieldsFacts(p: Bytes, r: HashRequest, kl: nat, n: nat)
    requires |p| >= 5 && DecodeFields(p) == Ok(r) && kl == ToNat(p[1..3]) && n == ToNat(p[3..5])
    ensures |p| >= 5 + kl && r == Blank(p[0]).(key := p[5..5 + kl], fields := r.fields)
    ensures ParseStrings(2, p[5 + kl..], n) == Some(r.fields)
    ensures |r.fields| == n && (forall s | s in r.fields :: |s| < 65536) && Strings(2, r.fields) <= p[5 + kl..]
  {
    ParsedStrings16(p[5 + kl..], n, r.fields);
  }

  lemma FieldsFit(r: HashRequest)
    requires HWithFields(r.cmd) && r == Blank(r.cmd).(key := r.key, fields := r.fields) && |r.key| < 65536
    requires |r.fields| < 65536
    requires forall s | s in r.fields :: |s| < 65536
    ensures HashFits(r) && HashUsed(r) == r
  {
  }

  lemma FieldsAreFitting(p: Bytes, r: HashRequest)
    requires |p| >= 3 && HWithFields(p[0]) && DecodeFields(p) == Ok(r)
    ensures r.cmd == p[0] && HashFits(r) && HashUsed(r) == r
  {
    Read16(p, 1);
    Read16(p, 3);
    FieldsFacts(p, r, ToNat(p[1..3]), ToNat(p[3..5]));
    FieldsFit(r);
  }

  lemma FieldsRebuilt(p: Bytes, r: HashRequest, kl: nat, n: nat)
    requires |p| >= 5 + kl && r.cmd == p[0] && r.key == p[5..5 + kl]
    requires kl == |r.key| && n == |r.fields|
    requires Uint(2, kl) == p[1..3] && Uint(2, n) == p[3..5]
    requires Strings(2, r.fields) <= p[5 + kl..]
    ensures FieldsBytes(r) <= p
  {
    assert p[..1] == [r.cmd];
    Begins4(p, [r.cmd], Uint(2, kl), Uint(2, n), r.key, 1, 3, 5, 5 + kl);
    PrefixTail(p, 5 + kl, Strings(2, r.fields));
  }

  lemma FieldsAreCanonical(p: Bytes, r: HashRequest)
    requires |p| >= 3 && HWithFields(p[0]) && DecodeFields(p) == Ok(r)
    ensures FieldsBytes(r) <= p
  {
    var kl, n := ToNat(p[1..3]), ToNat(p[3..5]);
    Reread(p, 1, 2);
    Reread(p, 3, 2);
    FieldsFacts(p, r, kl, n);
    FieldsRebuilt(p, r, kl, n);
  }

  lemma DeltaIsFitting(p: Bytes, r: HashRequest)
    requires |p| >= 3 && HWithDelta(p[0]) && DecodeDelta(p) == Ok(r)
    ensures r.cmd == p[0] && HashFits(r) && HashUsed(r) == r
  {
    Read16(p, 1);
    Read16(p, 3);
    Read64(p, 5);
  }

  lemma DeltaRebuilt(p: Bytes, r: HashRequest, kl: nat, fl: nat, n: nat)
    requires |p| >= 13 + kl + fl && r.cmd == p[0] && r.key == p[13..13 + kl] && r.field == p[13 + kl..13 + kl + fl]
    requires kl == |r.key| && fl == |r.field| && n == Delta(r)
    requires Uint(2, kl) == p[1..3] && Uint(2, fl) == p[3..5] && Uint(8, n) == p[5..13]
    ensures DeltaBytes(r) <= p
  {
    assert p[..1] == [r.cmd];
    Begins6(p, [r.cmd], Uint(2, kl), Uint(2, fl), Uint(8, n), r.key, r.field, 1, 3, 5, 13, 13 + kl, 13 + kl + fl);
  }

  lemma DeltaIsCanonical(p: Bytes, r: HashRequest)
    requires |p| >= 3 && HWithDelta(p[0]) && DecodeDelta(p) == Ok(r)
    ensures DeltaBytes(r) <= p
  {
    var kl, fl, n := ToNat(p[1..3]), ToNat(p[3..5]), ToNat(p[5..13]);
    Reread(p, 1, 2);
    Reread(p, 3, 2);
    Reread(p, 5, 8);
    Read64(p, 5);
    DeltaRebuilt(p, r, kl, fl, n);
  }

  lemma PairsFacts(p: Bytes, r: HashRequest, kl: nat, n: nat)
    requires |p| >= 5 && DecodePairs(p) == Ok(r) && kl == ToNat(p[1..3]) && n == ToNat(p[3..5])
    ensures |p| >= 5 + kl && r == Blank(p[0]).(key := p[5..5 + kl], fvPairs := r.fvPairs)
    ensures ParseStrings(2, p[5 + kl..], 2 * n) == Some(r.fvPairs)
    ensures |r.fvPairs| == 2 * n && (forall s | s in r.fvPairs :: |s| < 65536) && Strings(2, r.fvPairs) <= p[5 + kl..]
  {
    ParsedStrings16(p[5 + kl..], 2 * n, r.fvPairs);
  }

  lemma PairsFit(r: HashRequest)
    requires r.cmd == HMSET && r == Blank(r.cmd).(key := r.key, fvPairs := r.fvPairs) && |r.key| < 65536
    requires |r.fvPairs| / 2 < 65536
    requires Pairs(r.fvPairs) == r.fvPairs && forall s | s in r.fvPairs :: |s| < 65536
    ensures HashFits(r) && HashUsed(r) == r
  {
  }

  lemma PairsAreFitting(p: Bytes, r: HashRequest)
    requires |p| >= 3 && p[0] == HMSET && DecodePairs(p) == Ok(r)
    ensures r.cmd == p[0] && HashFits(r) && HashUsed(r) == r
  {
    Read16(p, 1);
    Read16(p, 3);
    PairsFacts(p, r, ToNat(p[1..3]), ToNat(p[3..5]));
    EvenPairs(r.fvPairs, ToNat(p[3..5]));
    PairsFit(r);
  }

  lemma PairsRebuilt(p: Bytes, r: HashRequest, kl: nat, n: nat)
    requires |p| >= 5 + kl && r.cmd == p[0] && r.key == p[5..5 + kl]
    requires kl == |r.key| && n == |r.fvPairs| / 2
    requires Uint(2, kl) == p[1..3] && Uint(2, n) == p[3..5]
    requires Strings(2, Pairs(r.fvPairs)) <= p[5 + kl..]
    ensures PairsBytes(r) <= p
  {
    assert p[..1] == [r.cmd];
    Begins4(p, [r.cmd], Uint(2, kl), Uint(2, n), r.key, 1, 3, 5, 5 + kl);
    PrefixTail(p, 5 + kl, Strings(2, Pairs(r.fvPairs)));
  }

  lemma PairsAreCanonical(p: Bytes, r: HashRequest)
    requires |p| >= 3 && p[0] == HMSET && DecodePairs(p) == Ok(r)
    ensures PairsBytes(r) <= p
  {
    var kl, n := ToNat(p[1..3]), ToNat(p[3..5]);
    Reread(p, 1, 2);
    Reread(p, 3, 2);
    PairsFacts(p, r, kl, n);
    EvenPairs(r.fvPairs, n);
    PairsRebuilt(p, r, kl, n);
  }

  lemma HashDecodedIsCanonical(p: Bytes, r: HashRequest)
    requires DecodeHash(p) == Ok(r)
    ensures HashCanonical(p, r)
  {
    if HKeyOnly(p[0]) {
      KeyOnlyIsFitting(p, r);
      KeyOnlyIsCanonical(p, r);
    } else if HWithField(p[0]) {
      FieldIsFitting(p, r);
      FieldIsCanonical(p, r);
    } else if HWithValue(p[0]) {
      ValueIsFitting(p, r);
      ValueIsCanonical(p, r);
    } else if HWithFields(p[0]) {
      FieldsAreFitting(p, r);
      FieldsAreCanonical(p, r);
    } else if HWithDelta(p[0]) {
      DeltaIsFitting(p, r);
      DeltaIsCanonical(p, r);
    } else {
      PairsAreFitting(p, r);
      PairsAreCanonical(p, r);
    }
  }

  lemma HashComesBack(r: HashRequest)
    requires IsHashCmd(r.cmd) && HashFits(r)
    ensures DecodeHash(HashBytes(r)) == Ok(HashUsed(r))
  {
    if HKeyOnly(r.cmd) {
      KeyOnlyComesBack(r);
    } else if HWithField(r.cmd) {
      FieldComesBack(r);
    } else if HWithValue(r.cmd) {
      ValueComesBack(r);
    } else if HWithFields(r.cmd) {
      FieldsComeBack(r);
    } else if HWithDelta(r.cmd) {
      DeltaComesBack(r);
    } else {
      PairsComeBack(r);
    }
  }

  lemma UsedFits(r: HashRequest)
    requires HashFits(HashUsed(r))
    ensures HashFits(r)
  {
    assert Pairs(Pairs(r.fvPairs)) == Pairs(r.fvPairs);
  }

  /** A request of any hash command comes back, less what its command does not use, if and only if it is within the limits. */
  lemma HashRoundTrip(r: HashRequest)
    requires IsHashCmd(r.cmd)
    ensures DecodeHash(HashBytes(r)) == Ok(HashUsed(r)) <==> HashFits(r)
  {
    if HashFits(r) {
      HashComesBack(r);
    }
    if DecodeHash(HashBytes(r)) == Ok(HashUsed(r)) {
      HashDecodedIsCanonical(HashBytes(r), HashUsed(r));
      UsedFits(r);
    }
  }
}
