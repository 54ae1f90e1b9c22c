/** Responses of the list commands (net/protocol_ext.go): what they carry depends on the command. */
module WireListReplies {
  import opened Bytes
  import opened Wire
  import opened WireStrings
  import opened WireRequests
  import opened WireLists
  import opened WireReplies
  import opened WireLoops

  /** Positions are the bit patterns of 64-bit integers. */
  datatype ListResponse = ListResponse(cmd: Byte, status: Byte, intResult: Int64, boolResult: bool, strResult: Bytes,
                                       sliceResult: seq<Bytes>, posResult: seq<Bits64>, errMsg: Bytes)

  predicate LCounts(cmd: Byte) {
    cmd == LPUSH || cmd == RPUSH || cmd == LLEN || cmd == LREM || cmd == LINSERT
  }

  predicate LPicks(cmd: Byte) {
    cmd == LPOP || cmd == RPOP || cmd == BLPOP || cmd == BRPOP || cmd == LINDEX
  }

  function BlankReply(cmd: Byte, status: Byte): ListResponse {
    ListResponse(cmd, status, 0, false, [], [], [], [])
  }

  /** What is left of a response when the fields its command does not use are cleared. */
  function ListReplyUsed(r: ListResponse): ListResponse {
    var only := BlankReply(r.cmd, r.status);
    if r.status == ERR then only.(errMsg := r.errMsg)
    else if LCounts(r.cmd) then only.(intResult := r.intResult)
    else if LPicks(r.cmd) then only.(strResult := r.strResult)
    else if r.cmd == LRANGE then only.(sliceResult := r.sliceResult)
    else if r.cmd == LSET then only.(boolResult := r.boolResult)
    else if r.cmd == LPOS then only.(posResult := r.posResult)
    else only
  }

  /** The limits: counts and single values in 32 bits, messages and the elements of a range in 16. */
  predicate ListReplyFits(r: ListResponse) {
    if r.status == ERR then |r.errMsg| < 65536
    else if LPicks(r.cmd) then |r.strResult| < WORD32
    else if r.cmd == LRANGE then |r.sliceResult| < WORD32 && forall s | s in r.sliceResult :: |s| < 65536
    else if r.cmd == LPOS then |r.posResult| < WORD32
    else true
  }

  // ---- Encoding ----

  function ListReplyBytes(r: ListResponse): Bytes {
    if r.status == ERR then [ERR] + Uint(2, |r.errMsg|) + r.errMsg
    else if LCounts(r.cmd) then [r.status] + Uint(8, FromInt64(r.intResult))
    else if LPicks(r.cmd) then [r.status] + Uint(4, |r.strResult|) + r.strResult
    else if r.cmd == LRANGE then [r.status] + Uint(4, |r.sliceResult|) + Strings(2, r.sliceResult)
    else if r.cmd == LSET then [r.status] + [if r.boolResult then 1 else 0]
    else if r.cmd == LTRIM then [r.status]
    else if r.cmd == LPOS then [r.status] + Uint(4, |r.posResult|) + PositionBytes(r.posResult)
    else []
  }

  method EncodeListResponse(r: ListResponse) returns (p: array<Byte>)
    ensures fresh(p) && p[..] == ListReplyBytes(r)
  {
    if r.status == ERR {
      p := EncodeError(r.errMsg);
    } else if r.cmd == LPUSH || r.cmd == RPUSH || r.cmd == LLEN || r.cmd == LREM || r.cmd == LINSERT {
      p := EncodeInt(r.status, FromInt64(r.intResult));
    } else if r.cmd == LPOP || r.cmd == RPOP || r.cmd == BLPOP || r.cmd == BRPOP || r.cmd == LINDEX {
      p := EncodeText(r.status, r.strResult);
    } else if r.cmd == LRANGE {
      p := EncodeTexts(r.status, r.sliceResult);
    } else if r.cmd == LSET {
      p := EncodeBool(r.status, r.boolResult);
    } else if r.cmd == LTRIM {
      p := new Byte[1](_ => r.status);
      assert p[..] == [r.status];
    } else if r.cmd == LPOS {
      p := EncodePositions(r.status, r.posResult);
    } else {
      p := new Byte[0];
    }
  }

  // ---- Decoding ----

  function DecodeListReply(p: Bytes, cmd: Byte): Outcome<ListResponse> {
    if |p| < 1 then Malformed
    else
      var r := BlankReply(cmd, p[0]);
      if r.status == ERR then Ok(r.(errMsg := ErrorOf(p)))
      else if LCounts(cmd) then
        match IntOf(p) case None => Malformed case Some(n) => Ok(r.(intResult := ToInt64(n)))
      else if LPicks(cmd) then
        match TextOf(p) case None => Malformed case Some(s) => Ok(r.(strResult := s))
      else if cmd == LRANGE then
        match TextsOf(p) case None => Malformed case Some(ss) => Ok(r.(sliceResult := ss))
      else if cmd == LSET then
        match BoolOf(p) case None => Malformed case Some(b) => Ok(r.(boolResult := b))
      else if cmd == LPOS then
        match PositionsOf(p) case None => Malformed case Some(ns) => Ok(r.(posResult := ns))
      else Ok(r)
  }

  method DecodeListResponse(p: Bytes, cmd: Byte) returns (r: Outcome<ListResponse>)
    ensures r == DecodeListReply(p, cmd)
  {
    if |p| < 1 {
      return Malformed;
    }
    var resp := BlankReply(cmd, p[0]);
    if resp.status == ERR {
      if |p| >= 3 {
        var n := GetUint(p, 1, 2);
        if |p| >= 3 + n {
          resp := resp.(errMsg := p[3..3 + n]);
        }
      }
      return Ok(resp);
    }
    if cmd == LPUSH || cmd == RPUSH || cmd == LLEN || cmd == LREM || cmd == LINSERT {
      if |p| < 9 {
        return Malformed;
      }
      var n := GetUint(p, 1, 8);
      resp := resp.(intResult := ToInt64(n));
    } else if cmd == LPOP || cmd == RPOP || cmd == BLPOP || cmd == BRPOP || cmd == LINDEX {
      if |p| < 5 {
        return Malformed;
      }
      var n := GetUint(p, 1, 4);
      if n > 0 && |p| >= 5 + n {
        resp := resp.(strResult := p[5..5 + n]);
      }
    } else if cmd == LRANGE {
      if |p| < 5 {
        return Malformed;
      }
      var n := GetUint(p, 1, 4);
      var ss := GetTexts(p, 5, n);
      resp := resp.(sliceResult := ss);
    } else if cmd == LSET {
      if |p| < 2 {
        return Malformed;
      }
      resp := resp.(boolResult := p[1] != 0);
    } else if cmd == LPOS {
      if |p| < 5 {
        return Malformed;
      }
      var n := GetUint(p, 1, 4);
      var ns := GetPositions(p, 5, n);
      resp := resp.(posResult := ns);
    }
    return Ok(resp);
  }

  // ---- Round trip ----

  lemma ListReplyComesBack(r: ListResponse)
    requires IsListCmd(r.cmd) && ListReplyFits(r)
    ensures DecodeListReply(ListReplyBytes(r), r.cmd) == Ok(ListReplyUsed(r))
  {
    var p := ListReplyBytes(r);
    if r.status == ERR {
      ErrorBack(p, r.errMsg);
    } else if LCounts(r.cmd) {
      IntBack(p, r.status, FromInt64(r.intResult));
    } else if LPicks(r.cmd) {
      TextBack(p, r.status, r.strResult);
    } else if r.cmd == LRANGE {
      TextsBack(p, r.status, r.sliceResult);
    } else if r.cmd == LSET {
      BoolBack(p, r.status, r.boolResult);
    } else if r.cmd == LPOS {
      PositionsBack(p, r.status, r.posResult);
    }
  }

  /** Whatever bytes a response is decoded from, its lengths and counts are within the limits. */
  lemma ListReplyDecodedFits(p: Bytes, cmd: Byte)
    ensures DecodeListReply(p, cmd).Ok? ==> ListReplyFits(DecodeListReply(p, cmd).value)
  {
    ErrorFits(p);
    TextFits(p);
    ReadTextsFit(p);
    ReadPositionsFit(p);
  }

  /**
   * A response to any list command, error or not, comes back, less what its command does not use, if
   * and only if it is within the limits.
   */
  lemma ListReplyRoundTrip(r: ListResponse)
    requires IsListCmd(r.cmd)
    ensures DecodeListReply(ListReplyBytes(r), r.cmd) == Ok(ListReplyUsed(r)) <==> ListReplyFits(r)
  {
    if ListReplyFits(r) {
      ListReplyComesBack(r);
    }
    ListReplyDecodedFits(ListReplyBytes(r), r.cmd);
  }
}
