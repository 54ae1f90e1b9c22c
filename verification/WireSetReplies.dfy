/**
 * Responses of the set commands (net/protocol.go). The encoder does not write error messages, but the
 * decoder takes everything behind an error status for one.
 */
module WireSetReplies {
  import opened Bytes
  import opened Wire
  import opened WireStrings
  import opened WireRequests
  import opened WireSets
  import opened WireReplies
  import opened WireLoops

  datatype SetResponse = SetResponse(cmd: Byte, status: Byte, changed: Bits64, isMember: bool, card: Bits64,
                                     elems: seq<Bytes>, errMsg: Bytes)

  predicate SLists(cmd: Byte) {
    cmd == SMEMBERS || cmd == SRANDMEMBER || cmd == SUNION || cmd == SINTER || cmd == SDIFF
  }

  function BlankReply(cmd: Byte, status: Byte): SetResponse {
    SetResponse(cmd, status, 0, false, 0, [], [])
  }

  /** What is left of a response when the fields its command does not use are cleared; SPOP sends one element at most. */
  function SetReplyUsed(r: SetResponse): SetResponse {
    var only := BlankReply(r.cmd, r.status);
    if WithElems(r.cmd) then only.(changed := r.changed)
    else if r.cmd == SISMEMBER then only.(isMember := r.isMember)
    else if r.cmd == SCARD then only.(card := r.card)
    else if r.cmd == SPOP then only.(elems := if r.elems == [] then [] else [r.elems[0]])
    else only.(elems := r.elems)
  }

  /** The limits: a popped element is not empty and ends within 16-bit offsets; no response reports an error. */
  predicate SetReplyFits(r: SetResponse) {
    r.status != ERR &&
    if r.cmd == SPOP then r.elems != [] ==> 1 <= |r.elems[0]| <= 65532
    else if SLists(r.cmd) then |r.elems| < WORD32 && forall s | s in r.elems :: |s| < 65536
    else true
  }

  // ---- Encoding ----

  function PopBytes(r: SetResponse): Bytes {
    var s := if r.elems == [] then [] else r.elems[0];
    [r.status] + Uint(2, |s|) + s
  }

  function SetReplyBytes(r: SetResponse): Bytes {
    if WithElems(r.cmd) then [r.status] + Uint(8, r.changed)
    else if r.cmd == SISMEMBER then [r.status] + [if r.isMember then 1 else 0]
    else if r.cmd == SCARD then [r.status] + Uint(8, r.card)
    else if r.cmd == SPOP then PopBytes(r)
    else if SLists(r.cmd) then [r.status] + Uint(4, |r.elems|) + Strings(2, r.elems)
    else []
  }

  method EncodePop(r: SetResponse) returns (p: array<Byte>)
    ensures fresh(p) && p[..] == PopBytes(r)
  {
    var n := 0;
    if |r.elems| > 0 {
      n := |r.elems[0]|;
    }
    p := new Byte[3 + n];
    p[0] := r.status;
    assert p[..1] == [r.status];
    PutNumber(p, 1, 2, n);
    if n > 0 {
      PutBytes(p, 3, r.elems[0]);
    }
    assert p[..p.Length] == p[..];
  }

  method EncodeSetResponse(r: SetResponse) returns (p: array<Byte>)
    ensures fresh(p) && p[..] == SetReplyBytes(r)
  {
    if r.cmd == SADD || r.cmd == SREM {
      p := EncodeInt(r.status, r.changed);
    } else if r.cmd == SISMEMBER {
      p := EncodeBool(r.status, r.isMember);
    } else if r.cmd == SCARD {
      p := EncodeInt(r.status, r.card);
    } else if r.cmd == SPOP {
      p := EncodePop(r);
    } else if r.cmd == SMEMBERS || r.cmd == SRANDMEMBER || r.cmd == SUNION || r.cmd == SINTER || r.cmd == SDIFF {
      p := EncodeTexts(r.status, r.elems);
    } else {
      p := new Byte[0];
    }
  }

  // ---- Decoding ----

  /** The element's end is computed in 16 bits; an empty element is no element. */
  function PopOf(p: Bytes): Outcome<seq<Bytes>> {
    if |p| < 3 then Malformed
    else
      var n := ToNat(p[1..3]);
      if n == 0 || |p| < 3 + n then Ok([])
      else if End16(3, n) < 3 then Panics
      else Ok([p[3..End16(3, n)]])
  }

  function DecodeSetReply(p: Bytes, cmd: Byte): Outcome<SetResponse> {
    if |p| < 1 then Malformed
    else
      var r := BlankReply(cmd, p[0]);
      if r.status == ERR && |p| > 1 then Ok(r.(errMsg := p[1..]))
      else if WithElems(cmd) then
        match IntOf(p) case None => Malformed case Some(n) => Ok(r.(changed := FromInt64(ToInt64(n))))
      else if cmd == SISMEMBER then
        match BoolOf(p) case None => Malformed case Some(b) => Ok(r.(isMember := b))
      else if cmd == SCARD then
        match IntOf(p) case None => Malformed case Some(n) => Ok(r.(card := FromInt64(ToInt64(n))))
      else if cmd == SPOP then
        var o := PopOf(p);
        if o.Ok? then Ok(r.(elems := o.value)) else if o == Panics then Panics else Malformed
      else if SLists(cmd) then
        match TextsOf(p) case None => Malformed case Some(ss) => Ok(r.(elems := ss))
      else Ok(r)
  }

  method DecodeSetResponse(p: Bytes, cmd: Byte) returns (r: Outcome<SetResponse>)
    ensures r == DecodeSetReply(p, cmd)
  {
    if |p| < 1 {
      return Malformed;
    }
    var resp := BlankReply(cmd, p[0]);
    if resp.status == ERR && |p| > 1 {
      return Ok(resp.(errMsg := p[1..]));
    }
    if cmd == SADD || cmd == SREM {
      if |p| < 9 {
        return Malformed;
      }
      var n := GetUint(p, 1, 8);
      resp := resp.(changed := FromInt64(ToInt64(n)));
    } else if cmd == SISMEMBER {
      if |p| < 2 {
        return Malformed;
      }
      resp := resp.(isMember := p[1] != 0);
    } else if cmd == SCARD {
      if |p| < 9 {
        return Malformed;
      }
      var n := GetUint(p, 1, 8);
      resp := resp.(card := FromInt64(ToInt64(n)));
    } else if cmd == SPOP {
      if |p| < 3 {
        return Malformed;
      }
      var n := GetUint(p, 1, 2);
      if n > 0 && |p| >= 3 + n {
        var end := End16(3, n);
        if end < 3 {
          return Panics;
        }
        resp := resp.(elems := [p[3..end]]);
      }
    } else if cmd == SRANDMEMBER || cmd == SMEMBERS || cmd == SUNION || cmd == SINTER || cmd == SDIFF {
      if |p| < 5 {
        return Malformed;
      }
      var n := GetUint(p, 1, 4);
      var ss := GetTexts(p, 5, n);
      resp := resp.(elems := ss);
    }
    return Ok(resp);
  }

  /** The decoder panics exactly on a popped element that is all there and too long for 16-bit offsets. */
  lemma SetReplyPanicsIff(p: Bytes, cmd: Byte)
    ensures DecodeSetReply(p, cmd) == Panics <==>
              cmd == SPOP && |p| >= 3 && p[0] != ERR && ToNat(p[1..3]) >= 65533 && |p| >= 3 + ToNat(p[1..3])
    ensures DecodeSetReply(p, cmd) != Overruns
  {
    if |p| >= 3 {
      Read16(p, 1);
    }
  }

  // ---- Round trip ----

  lemma PopBack(r: SetResponse)
    requires r.cmd == SPOP && SetReplyFits(r)
    ensures DecodeSetReply(PopBytes(r), SPOP) == Ok(SetReplyUsed(r))
  {
    var s := if r.elems == [] then [] else r.elems[0];
    var p, n := PopBytes(r), |s|;
    Pieces3(p, [r.status], Uint(2, n), s, 1, 3, 3 + n);
    assert p[0] == p[..1][0];
    Back16(n);
    PopRead(p, s);
  }

  lemma PopRead(p: Bytes, s: Bytes)
    requires |p| == 3 + |s| && |s| <= 65532 && ToNat(p[1..3]) == |s| && p[3..3 + |s|] == s
    ensures PopOf(p) == Ok(if s == [] then [] else [s])
  {
  }

  lemma SetReplyComesBack(r: SetResponse)
    requires SetCommand(r.cmd) && SetReplyFits(r)
    ensures DecodeSetReply(SetReplyBytes(r), r.cmd) == Ok(SetReplyUsed(r))
  {
    var p := SetReplyBytes(r);
    if WithElems(r.cmd) {
      IntBack(p, r.status, r.changed);
    } else if r.cmd == SISMEMBER {
      BoolBack(p, r.status, r.isMember);
    } else if r.cmd == SCARD {
      IntBack(p, r.status, r.card);
    } else if r.cmd == SPOP {
      PopBack(r);
    } else {
      TextsBack(p, r.status, r.elems);
    }
  }

  /** Whatever bytes a response is decoded from, its lengths and counts are within the limits. */
  lemma SetReplyDecodedFits(p: Bytes, cmd: Byte)
    requires DecodeSetReply(p, cmd).Ok? && p[0] != ERR
    ensures SetReplyFits(DecodeSetReply(p, cmd).value)
  {
    ReadTextsFit(p);
    if |p| >= 3 {
      Read16(p, 1);
    }
  }

  lemma ErrorIsMessage(r: SetResponse)
    requires SetCommand(r.cmd) && r.status == ERR
    ensures
      var p := SetReplyBytes(r);
      |p| > 1 && p[0] == ERR && DecodeSetReply(p, r.cmd) == Ok(BlankReply(r.cmd, ERR).(errMsg := p[1..]))
  {
    var p := SetReplyBytes(r);
    assert |p| > 1 && p[0] == ERR;
  }

  lemma FirstIsStatus(r: SetResponse)
    requires SetCommand(r.cmd)
    ensures |SetReplyBytes(r)| > 1 && SetReplyBytes(r)[0] == r.status
  {
  }

  /**
   * A response to any set command comes back, less what its command does not use, if and only if it is
   * within the limits and its status is not an error.
   */
  lemma SetReplyRoundTrip(r: SetResponse)
    requires SetCommand(r.cmd)
    ensures DecodeSetReply(SetReplyBytes(r), r.cmd) == Ok(SetReplyUsed(r)) <==> SetReplyFits(r)
  {
    FirstIsStatus(r);
    if SetReplyFits(r) {
      SetReplyComesBack(r);
    } else if r.status == ERR {
      ErrorIsMessage(r);
    } else if DecodeSetReply(SetReplyBytes(r), r.cmd) == Ok(SetReplyUsed(r)) {
      SetReplyDecodedFits(SetReplyBytes(r), r.cmd);
    }
  }
}
