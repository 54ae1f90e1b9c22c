/** Responses of the hash commands (net/protocol_ext.go): what they carry depends on the command. */
module WireHashReplies {
  import opened Bytes
  import opened Collections
  import opened Wire
  import opened WireStrings
  import opened WireRequests
  import opened WireHashes
  import opened WireReplies
  import opened WireLoops

  datatype HashResponse = HashResponse(cmd: Byte, status: Byte, intResult: Int64, boolResult: bool, strResult: Bytes,
                                       mapResult: map<Bytes, Bytes>, sliceResult: seq<Bytes>, anySlice: seq<Option<Bytes>>,
                                       floatResult: Bits64, errMsg: Bytes)

  predicate HCounts(cmd: Byte) {
    cmd == HSET || cmd == HDEL || cmd == HLEN || cmd == HSTRLEN || cmd == HINCRBY
  }

  predicate HTells(cmd: Byte) {
    cmd == HEXISTS || cmd == HSETNX
  }

  predicate HLists(cmd: Byte) {
    cmd == HKEYS || cmd == HVALS
  }

  function BlankReply(cmd: Byte, status: Byte): HashResponse {
    HashResponse(cmd, status, 0, false, [], map[], [], [], 0, [])
  }

  /** What is left of a response when the fields its command does not use are cleared. */
  function HashReplyUsed(r: HashResponse): HashResponse {
    var only := BlankReply(r.cmd, r.status);
    if r.status == ERR then only.(errMsg := r.errMsg)
    else if HCounts(r.cmd) then only.(intResult := r.intResult)
    else if HTells(r.cmd) then only.(boolResult := r.boolResult)
    else if r.cmd == HGET then only.(strResult := r.strResult)
    else if r.cmd == HGETALL then only.(mapResult := r.mapResult)
    else if HLists(r.cmd) then only.(sliceResult := r.sliceResult)
    else if r.cmd == HINCRBYFLOAT then only.(floatResult := r.floatResult)
    else if r.cmd == HMGET then only.(anySlice := r.anySlice)
    else only
  }

  /** The limits: counts and values in 32 bits; messages, keys and the elements of plain lists in 16. */
  predicate HashReplyFits(r: HashResponse) {
    if r.status == ERR then |r.errMsg| < 65536
    else if r.cmd == HGET then |r.strResult| < WORD32
    else if r.cmd == HGETALL then |r.mapResult| < WORD32 && AllFit(r.mapResult)
    else if HLists(r.cmd) then |r.sliceResult| < WORD32 && forall s | s in r.sliceResult :: |s| < 65536
    else if r.cmd == HMGET then |r.anySlice| < WORD32 && MaybesFit(r.anySlice)
    else true
  }

  // ---- Encoding ----

  /** `order` is the order in which the map happens to be written. */
  function HashReplyBytes(r: HashResponse, order: seq<Bytes>): Bytes
    requires Orders(r.mapResult, order)
  {
    if r.status == ERR then [ERR] + Uint(2, |r.errMsg|) + r.errMsg
    else if HCounts(r.cmd) then [r.status] + Uint(8, FromInt64(r.intResult))
    else if HTells(r.cmd) then [r.status] + [if r.boolResult then 1 else 0]
    else if r.cmd == HGET then [r.status] + Uint(4, |r.strResult|) + r.strResult
    else if r.cmd == HGETALL then [r.status] + Uint(4, |r.mapResult|) + MapBytes(r.mapResult, order)
    else if HLists(r.cmd) then [r.status] + Uint(4, |r.sliceResult|) + Strings(2, r.sliceResult)
    else if r.cmd == HINCRBYFLOAT then [r.status] + Uint(8, r.floatResult)
    else if r.cmd == HMGET then [r.status] + Uint(4, |r.anySlice|) + MaybeBytes(r.anySlice)
    else if r.cmd == HMSET then [r.status]
    else []
  }

  method EncodeMap(r: HashResponse) returns (p: array<Byte>, ghost order: seq<Bytes>)
    ensures fresh(p) && Orders(r.mapResult, order)
    ensures p[..] == [r.status] + Uint(4, |r.mapResult|) + MapBytes(r.mapResult, order)
  {
    var n, first := MapSize(r.mapResult);
    p := new Byte[5 + n];
    p[0] := r.status;
    assert p[..1] == [r.status];
    PutNumber(p, 1, 4, |r.mapResult|);
    order := PutMap(p, 5, r.mapResult, first);
  }

  method EncodeMaybes(r: HashResponse) returns (p: array<Byte>)
    ensures fresh(p) && p[..] == [r.status] + Uint(4, |r.anySlice|) + MaybeBytes(r.anySlice)
  {
    p := new Byte[5 + MaybesSize(r.anySlice)];
    p[0] := r.status;
    assert p[..1] == [r.status];
    PutNumber(p, 1, 4, |r.anySlice|);
    PutMaybes(p, 5, r.anySlice);
    assert p[..p.Length] == p[..];
  }

  method EncodeHashResponse(r: HashResponse) returns (p: array<Byte>, ghost order: seq<Bytes>)
    ensures fresh(p) && Orders(r.mapResult, order) && p[..] == HashReplyBytes(r, order)
  {
    order := AnyOrder(r.mapResult);
    if r.status == ERR {
      p := EncodeError(r.errMsg);
    } else if r.cmd == HSET || r.cmd == HDEL || r.cmd == HLEN || r.cmd == HSTRLEN || r.cmd == HINCRBY {
      p := EncodeInt(r.status, FromInt64(r.intResult));
    } else if r.cmd == HEXISTS || r.cmd == HSETNX {
      p := EncodeBool(r.status, r.boolResult);
    } else if r.cmd == HGET {
      p := EncodeText(r.status, r.strResult);
    } else if r.cmd == HGETALL {
      p, order := EncodeMap(r);
    } else if r.cmd == HKEYS || r.cmd == HVALS {
      p := EncodeTexts(r.status, r.sliceResult);
    } else if r.cmd == HINCRBYFLOAT {
      p := EncodeInt(r.status, r.floatResult);
    } else if r.cmd == HMGET {
      p := EncodeMaybes(r);
    } else if r.cmd == HMSET {
      p := new Byte[1](_ => r.status);
      assert p[..] == [r.status];
    } else {
      p := new Byte[0];
    }
  }

  // ---- Decoding ----

  function DecodeHashReply(p: Bytes, cmd: Byte): Outcome<HashResponse> {
    if |p| < 1 then Malformed
    else
      var r := BlankReply(cmd, p[0]);
      if r.status == ERR then Ok(r.(errMsg := ErrorOf(p)))
      else if HCounts(cmd) then
        match IntOf(p) case None => Malformed case Some(n) => Ok(r.(intResult := ToInt64(n)))
      else if HTells(cmd) then
        match BoolOf(p) case None => Malformed case Some(b) => Ok(r.(boolResult := b))
      else if cmd == HGET then
        match TextOf(p) case None => Malformed case Some(s) => Ok(r.(strResult := s))
      else if cmd == HGETALL then
        match MapOf(p) case None => Malformed case Some(m) => Ok(r.(mapResult := m))
      else if HLists(cmd) then
        match TextsOf(p) case None => Malformed case Some(ss) => Ok(r.(sliceResult := ss))
      else if cmd == HINCRBYFLOAT then
        match IntOf(p) case None => Malformed case Some(n) => Ok(r.(floatResult := FromInt64(ToInt64(n))))
      else if cmd == HMGET then
        match MaybesOf(p) case None => Malformed case Some(os) => Ok(r.(anySlice := os))
      else Ok(r)
  }

  method DecodeHashResponse(p: Bytes, cmd: Byte) returns (r: Outcome<HashResponse>)
    ensures r == DecodeHashReply(p, cmd)
  {
    if |p| < 1 {
      return Malformed;
    }
    var resp := BlankReply(cmd, p[0]);
    if resp.status == ERR {
      if |p| >= 3 {
        var n := GetUint(p, 1, 2);
        if |p| >= 3 + n {
          resp := resp.(errMsg := p[3..3 + n]);
        }
      }
      return Ok(resp);
    }
    if cmd == HSET || cmd == HDEL || cmd == HLEN || cmd == HSTRLEN || cmd == HINCRBY {
      if |p| < 9 {
        return Malformed;
      }
      var n := GetUint(p, 1, 8);
      resp := resp.(intResult := ToInt64(n));
    } else if cmd == HEXISTS || cmd == HSETNX {
      if |p| < 2 {
        return Malformed;
      }
      resp := resp.(boolResult := p[1] != 0);
    } else if cmd == HGET {
      if |p| < 5 {
        return Malformed;
      }
      var n := GetUint(p, 1, 4);
      if n > 0 && |p| >= 5 + n {
        resp := resp.(strResult := p[5..5 + n]);
      }
    } else if cmd == HGETALL {
      if |p| < 5 {
        return Malformed;
      }
      var n := GetUint(p, 1, 4);
      var m := GetEntries(p, 5, n);
      resp := resp.(mapResult := m);
    } else if cmd == HKEYS || cmd == HVALS {
      if |p| < 5 {
        return Malformed;
      }
      var n := GetUint(p, 1, 4);
      var ss := GetTexts(p, 5, n);
      resp := resp.(sliceResult := ss);
    } else if cmd == HINCRBYFLOAT {
      if |p| < 9 {
        return Malformed;
      }
      var n := GetUint(p, 1, 8);
      resp := resp.(floatResult := FromInt64(ToInt64(n)));
    } else if cmd == HMGET {
      if |p| < 5 {
        return Malformed;
      }
      var n := GetUint(p, 1, 4);
      var os := GetMaybes(p, 5, n);
      resp := resp.(anySlice := os);
    }
    return Ok(resp);
  }

  // ---- Round trip ----

  lemma HashReplyComesBack(r: HashResponse, order: seq<Bytes>)
    requires IsHashCmd(r.cmd) && Orders(r.mapResult, order) && HashReplyFits(r)
    ensures DecodeHashReply(HashReplyBytes(r, order), r.cmd) == Ok(HashReplyUsed(r))
  {
    var p := HashReplyBytes(r, order);
    if r.status == ERR {
      ErrorBack(p, r.errMsg);
    } else if HCounts(r.cmd) {
      IntBack(p, r.status, FromInt64(r.intResult));
    } else if HTells(r.cmd) {
      BoolBack(p, r.status, r.boolResult);
    } else if r.cmd == HGET {
      TextBack(p, r.status, r.strResult);
    } else if r.cmd == HGETALL {
      MapBack(p, r.status, r.mapResult, order);
    } else if HLists(r.cmd) {
      TextsBack(p, r.status, r.sliceResult);
    } else if r.cmd == HINCRBYFLOAT {
      IntBack(p, r.status, r.floatResult);
    } else if r.cmd == HMGET {
      MaybesBack(p, r.status, r.anySlice);
    }
  }

  /** Whatever bytes a response is decoded from, its lengths and counts are within the limits. */
  lemma HashReplyDecodedFits(p: Bytes, cmd: Byte)
    ensures DecodeHashReply(p, cmd).Ok? ==> HashReplyFits(DecodeHashReply(p, cmd).value)
  {
    ErrorFits(p);
    TextFits(p);
    ReadMapFits(p);
    ReadTextsFit(p);
    ReadMaybesFit(p);
  }

  /**
   * A response to any hash command, error or not, comes back, less what its command does not use, in
   * whatever order its map was written, if and only if it is within the limits.
   */
  lemma HashReplyRoundTrip(r: HashResponse, order: seq<Bytes>)
    requires IsHashCmd(r.cmd) && Orders(r.mapResult, order)
    ensures DecodeHashReply(HashReplyBytes(r, order), r.cmd) == Ok(HashReplyUsed(r)) <==> HashReplyFits(r)
  {
    if HashReplyFits(r) {
      HashReplyComesBack(r, order);
    }
    HashReplyDecodedFits(HashReplyBytes(r, order), r.cmd);
  }
}
