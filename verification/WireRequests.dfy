/** Command codes, and the plain requests and responses of net/protocol.go. */
module WireRequests {
  import opened Bytes
  import opened Wire
  import opened WireStrings

  /** `Overruns` is a slice that ends after the payload: a panic, or stale bytes of a reused buffer. */
  datatype Outcome<+T> = Ok(value: T) | Malformed | InvalidCommand | Panics | Overruns

  type Int32 = i: int | -0x8000_0000 <= i < 0x8000_0000

  type Int64 = i: int | -0x8000_0000_0000_0000 <= i < 0x8000_0000_0000_0000

  /** The bit pattern of a float64. */
  type Bits64 = n: nat | n < 0x1_0000_0000_0000_0000

  function FromInt64(i: Int64): (n: nat)
    ensures n < 0x1_0000_0000_0000_0000
  {
    if i >= 0 then i else i + 0x1_0000_0000_0000_0000
  }

  function ToInt64(n: nat): (i: Int64)
    ensures n < 0x1_0000_0000_0000_0000 ==> FromInt64(i) == n
  {
    if n < 0x8000_0000_0000_0000 then n
    else if n < 0x1_0000_0000_0000_0000 then n - 0x1_0000_0000_0000_0000
    else 0
  }

  function FromInt32(i: Int32): (n: nat)
    ensures n < 0x1_0000_0000
  {
    if i >= 0 then i else i + 0x1_0000_0000
  }

  function ToInt32(n: nat): (i: Int32)
    ensures n < 0x1_0000_0000 ==> FromInt32(i) == n
  {
    if n < 0x8000_0000 then n else if n < 0x1_0000_0000 then n - 0x1_0000_0000 else 0
  }

  // ---- Commands ----

  const SADD: Byte := 10
  const SREM: Byte := 11
  const SISMEMBER: Byte := 12
  const SMEMBERS: Byte := 13
  const SCARD: Byte := 14
  const SPOP: Byte := 15
  const SRANDMEMBER: Byte := 16
  const SUNION: Byte := 17
  const SINTER: Byte := 18
  const SDIFF: Byte := 19

  const HSET: Byte := 32
  const HGET: Byte := 33
  const HDEL: Byte := 34
  const HEXISTS: Byte := 35
  const HGETALL: Byte := 36
  const HKEYS: Byte := 37
  const HVALS: Byte := 38
  const HLEN: Byte := 39
  const HSTRLEN: Byte := 40
  const HINCRBY: Byte := 41
  const HINCRBYFLOAT: Byte := 42
  const HMGET: Byte := 43
  const HMSET: Byte := 44
  const HSETNX: Byte := 45

  const LPUSH: Byte := 48
  const RPUSH: Byte := 49
  const LPOP: Byte := 50
  const RPOP: Byte := 51
  const LLEN: Byte := 52
  const LRANGE: Byte := 53
  const LINDEX: Byte := 54
  const LSET: Byte := 55
  const LREM: Byte := 56
  const LTRIM: Byte := 57
  const LINSERT: Byte := 58
  const BLPOP: Byte := 59
  const BRPOP: Byte := 60
  const LPOS: Byte := 61

  // ---- Plain requests ----

  datatype Request = Request(cmd: Byte, key: Bytes, value: Bytes, ttl: Int64)

  function KVBytes(r: Request): Bytes {
    [r.cmd] + Uint(2, |r.key|) + Uint(4, |r.value|) + Uint(8, FromInt64(r.ttl)) + r.key + r.value
  }

  method EncodeRequest(r: Request) returns (p: array<Byte>)
    ensures fresh(p) && p[..] == KVBytes(r)
  {
    var kl, vl := |r.key|, |r.value|;
    p := new Byte[1 + 2 + 4 + 8 + kl + vl];
    p[0] := r.cmd;
    assert p[..1] == [r.cmd];
    PutNumber(p, 1, 2, kl);
    PutNumber(p, 3, 4, vl);
    PutNumber(p, 7, 8, FromInt64(r.ttl));
    PutBytes(p, 15, r.key);
    PutBytes(p, 15 + kl, r.value);
    assert p[..p.Length] == p[..];
  }

  /** The value is cut out without a check if there is no key. */
  function DecodeKV(p: Bytes): Outcome<Request> {
    if |p| < 15 then Malformed
    else
      var kl, vl, ttl := ToNat(p[1..3]), ToNat(p[3..7]), ToInt64(ToNat(p[7..15]));
      if kl > 0 then
        if |p| < 15 + kl + vl then Malformed
        else Ok(Request(p[0], p[15..15 + kl], p[15 + kl..15 + kl + vl], ttl))
      else if vl > 0 then
        if |p| < 15 + vl then Overruns else Ok(Request(p[0], [], p[15..15 + vl], ttl))
      else Ok(Request(p[0], [], [], ttl))
  }

  method DecodeRequest(p: Bytes) returns (r: Outcome<Request>)
    ensures r == DecodeKV(p)
  {
    if |p| < 15 {
      return Malformed;
    }
    var kl := GetUint(p, 1, 2);
    var vl := GetUint(p, 3, 4);
    var n := GetUint(p, 7, 8);
    var req := Request(p[0], [], [], ToInt64(n));
    var offset := 15;
    if kl > 0 {
      if |p| < offset + kl + vl {
        return Malformed;
      }
      req := req.(key := p[offset..offset + kl]);
      offset := offset + kl;
    }
    if vl > 0 {
      if offset + vl > |p| {
        return Overruns;
      }
      req := req.(value := p[offset..offset + vl]);
    }
    assert vl == 0 ==> p[15 + kl..15 + kl + vl] == [] || kl == 0;
    return Ok(req);
  }

  predicate KVFits(r: Request) {
    |r.key| < 65536 && |r.value| < 0x1_0000_0000
  }

  lemma KVComesBack(r: Request)
    requires KVFits(r)
    ensures DecodeKV(KVBytes(r)) == Ok(r)
  {
    var p, kl, vl, n := KVBytes(r), |r.key|, |r.value|, FromInt64(r.ttl);
    Pieces6(p, [r.cmd], Uint(2, kl), Uint(4, vl), Uint(8, n), r.key, r.value, 1, 3, 7, 15, 15 + kl, 15 + kl + vl);
    assert p[0] == p[..1][0];
    Back16(kl);
    Back32(vl);
    Back64(n);
  }

  lemma KVRebuilt(p: Bytes, r: Request, kl: nat, vl: nat, n: nat)
    requires |p| >= 15 + kl + vl && r.cmd == p[0] && r.key == p[15..15 + kl] && r.value == p[15 + kl..15 + kl + vl]
    requires kl == |r.key| && vl == |r.value| && n == FromInt64(r.ttl)
    requires Uint(2, kl) == p[1..3] && Uint(4, vl) == p[3..7] && Uint(8, n) == p[7..15]
    ensures KVBytes(r) <= p
  {
    assert p[..1] == [r.cmd];
    Begins6(p, [r.cmd], Uint(2, kl), Uint(4, vl), Uint(8, n), r.key, r.value, 1, 3, 7, 15, 15 + kl, 15 + kl + vl);
  }

  lemma KVFacts(p: Bytes, r: Request)
    requires DecodeKV(p) == Ok(r)
    ensures |p| >= 15 && r.cmd == p[0] && |r.key| == ToNat(p[1..3]) && |r.value| == ToNat(p[3..7])
    ensures r.ttl == ToInt64(ToNat(p[7..15]))
    ensures |p| >= 15 + |r.key| + |r.value| && r.key == p[15..15 + |r.key|]
    ensures r.value == p[15 + |r.key|..15 + |r.key| + |r.value|]
  {
  }

  /** Whatever bytes are decoded, what comes out fits, and encoding it gives back the bytes it was read from. */
  lemma KVDecodedIsCanonical(p: Bytes, r: Request)
    requires DecodeKV(p) == Ok(r)
    ensures KVFits(r) && KVBytes(r) <= p
  {
    KVFacts(p, r);
    Read16(p, 1);
    Read32(p, 3);
    Read64(p, 7);
    Reread(p, 1, 2);
    Reread(p, 3, 4);
    Reread(p, 7, 8);
    KVRebuilt(p, r, |r.key|, |r.value|, ToNat(p[7..15]));
  }

  /** A plain request comes back if and only if its key is shorter than 2^16 and its value than 2^32 bytes. */
  lemma KVRoundTrip(r: Request)
    ensures DecodeKV(KVBytes(r)) == Ok(r) <==> KVFits(r)
  {
    if KVFits(r) {
      KVComesBack(r);
    }
    if DecodeKV(KVBytes(r)) == Ok(r) {
      KVDecodedIsCanonical(KVBytes(r), r);
    }
  }

  /** The plain decoder leaves its payload exactly when there is no key and the value is cut off. */
  lemma KVOverrunsIff(p: Bytes)
    ensures DecodeKV(p) == Overruns <==> |p| >= 15 && ToNat(p[1..3]) == 0 && |p| < 15 + ToNat(p[3..7])
    ensures DecodeKV(p) != Panics
  {
  }

  // ---- Plain responses ----

  datatype Response = Response(status: Byte, value: Bytes, errMsg: Bytes)

  function ResponseBytes(r: Response): Bytes {
    [r.status] + Uint(4, |r.value|) + Uint(2, |r.errMsg|) + r.value + r.errMsg
  }

  method EncodeResponse(r: Response) returns (p: array<Byte>)
    ensures fresh(p) && p[..] == ResponseBytes(r)
  {
    var vl, el := |r.value|, |r.errMsg|;
    p := new Byte[1 + 4 + 2 + vl + el];
    p[0] := r.status;
    assert p[..1] == [r.status];
    PutNumber(p, 1, 4, vl);
    PutNumber(p, 5, 2, el);
    PutBytes(p, 7, r.value);
    PutBytes(p, 7 + vl, r.errMsg);
    assert p[..p.Length] == p[..];
  }

  /** The message is cut out without a check if there is no value. */
  function DecodePlain(p: Bytes): Outcome<Response> {
    if |p| < 7 then Malformed
    else
      var vl, el := ToNat(p[1..5]), ToNat(p[5..7]);
      if vl > 0 then
        if |p| < 7 + vl + el then Malformed else Ok(Response(p[0], p[7..7 + vl], p[7 + vl..7 + vl + el]))
      else if el > 0 then
        if |p| < 7 + el then Overruns else Ok(Response(p[0], [], p[7..7 + el]))
      else Ok(Response(p[0], [], []))
  }

  method DecodeResponse(p: Bytes) returns (r: Outcome<Response>)
    ensures r == DecodePlain(p)
  {
    if |p| < 7 {
      return Malformed;
    }
    var resp := Response(p[0], [], []);
    var vl := GetUint(p, 1, 4);
    var el := GetUint(p, 5, 2);
    var offset := 7;
    if vl > 0 {
      if |p| < offset + vl + el {
        return Malformed;
      }
      resp := resp.(value := p[offset..offset + vl]);
      offset := offset + vl;
    }
    if el > 0 {
      if offset + el > |p| {
        return Overruns;
      }
      resp := resp.(errMsg := p[offset..offset + el]);
    }
    assert el == 0 ==> p[7 + vl..7 + vl + el] == [] || vl == 0;
    return Ok(resp);
  }

  predicate ResponseFits(r: Response) {
    |r.value| < 0x1_0000_0000 && |r.errMsg| < 65536
  }

  lemma ResponseComesBack(r: Response)
    requires ResponseFits(r)
    ensures DecodePlain(ResponseBytes(r)) == Ok(r)
  {
    var p, vl, el := ResponseBytes(r), |r.value|, |r.errMsg|;
    Pieces5(p, [r.status], Uint(4, vl), Uint(2, el), r.value, r.errMsg, 1, 5, 7, 7 + vl, 7 + vl + el);
    assert p[0] == p[..1][0];
    Back32(vl);
    Back16(el);
  }

  lemma ResponseRebuilt(p: Bytes, r: Response, vl: nat, el: nat)
    requires |p| >= 7 + vl + el && r.status == p[0] && r.value == p[7..7 + vl] && r.errMsg == p[7 + vl..7 + vl + el]
    requires vl == |r.value| && el == |r.errMsg| && Uint(4, vl) == p[1..5] && Uint(2, el) == p[5..7]
    ensures ResponseBytes(r) <= p
  {
    assert p[..1] == [r.status];
    Begins5(p, [r.status], Uint(4, vl), Uint(2, el), r.value, r.errMsg, 1, 5, 7, 7 + vl, 7 + vl + el);
  }

  lemma ResponseFacts(p: Bytes, r: Response)
    requires DecodePlain(p) == Ok(r)
    ensures |p| >= 7 && r.status == p[0] && |r.value| == ToNat(p[1..5]) && |r.errMsg| == ToNat(p[5..7])
    ensures |p| >= 7 + |r.value| + |r.errMsg| && r.value == p[7..7 + |r.value|]
    ensures r.errMsg == p[7 + |r.value|..7 + |r.value| + |r.errMsg|]
  {
  }

  lemma ResponseDecodedIsCanonical(p: Bytes, r: Response)
    requires DecodePlain(p) == Ok(r)
    ensures ResponseFits(r) && ResponseBytes(r) <= p
  {
    ResponseFacts(p, r);
    Read32(p, 1);
    Read16(p, 5);
    Reread(p, 1, 4);
    Reread(p, 5, 2);
    ResponseRebuilt(p, r, |r.value|, |r.errMsg|);
  }

  /** A plain response comes back if and only if value and message fit their length fields. */
  lemma ResponseRoundTrip(r: Response)
    ensures DecodePlain(ResponseBytes(r)) == Ok(r) <==> ResponseFits(r)
  {
    if ResponseFits(r) {
      ResponseComesBack(r);
    }
    if DecodePlain(ResponseBytes(r)) == Ok(r) {
      ResponseDecodedIsCanonical(ResponseBytes(r), r);
    }
  }

  /** The plain response decoder leaves its payload exactly when there is no value and the message is cut off. */
  lemma ResponseOverrunsIff(p: Bytes)
    ensures DecodePlain(p) == Overruns <==> |p| >= 7 && ToNat(p[1..5]) == 0 && |p| < 7 + ToNat(p[5..7])
    ensures DecodePlain(p) != Panics
  {
  }
}
