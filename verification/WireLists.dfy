/** Requests of the list commands (net/protocol_ext.go). */
module WireLists {
  import opened Bytes
  import opened Wire
  import opened WireStrings
  import opened WireRequests

  datatype ListRequest = ListRequest(cmd: Byte, key: Bytes, elements: seq<Bytes>, value: Bytes, index: Int64, start: Int64,
                                     stop: Int64, count: Int64, pivot: Bytes, before: bool,
                                     timeout: Int64, rank: Int64, maxLen: Int64)

  predicate IsListCmd(cmd: Byte) {
    LPUSH <= cmd <= LPOS
  }

  predicate LKeyOnly(cmd: Byte) {
    cmd == LPOP || cmd == RPOP || cmd == LLEN
  }

  predicate LWithElements(cmd: Byte) {
    cmd == LPUSH || cmd == RPUSH
  }

  predicate LWithRange(cmd: Byte) {
    cmd == LRANGE || cmd == LTRIM
  }

  predicate LBlocking(cmd: Byte) {
    cmd == BLPOP || cmd == BRPOP
  }

  function Blank(cmd: Byte): ListRequest {
    ListRequest(cmd, [], [], [], 0, 0, 0, 0, [], false, 0, 0, 0)
  }

  /** What is left of a request when the fields its command does not use are cleared. */
  function ListUsed(r: ListRequest): ListRequest {
    var only := Blank(r.cmd).(key := r.key);
    if LKeyOnly(r.cmd) then only
    else if LWithElements(r.cmd) then only.(elements := r.elements)
    else if LWithRange(r.cmd) then only.(start := r.start, stop := r.stop)
    else if r.cmd == LINDEX then only.(index := r.index)
    else if r.cmd == LSET then only.(index := r.index, value := r.value)
    else if r.cmd == LREM then only.(count := r.count, value := r.value)
    else if r.cmd == LINSERT then only.(before := r.before, pivot := r.pivot, value := r.value)
    else if LBlocking(r.cmd) then only.(timeout := r.timeout)
    else only.(rank := r.rank, count := r.count, maxLen := r.maxLen, value := r.value)
  }

  /** The limits: 16 bits for the length of a key, a pivot or an element, 32 for that of a value and for a count. */
  predicate ListFits(r: ListRequest) {
    |r.key| < 65536 &&
    if LKeyOnly(r.cmd) || LWithRange(r.cmd) || r.cmd == LINDEX || LBlocking(r.cmd) then true
    else if LWithElements(r.cmd) then |r.elements| < 0x1_0000_0000 && forall s | s in r.elements :: |s| < 65536
    else |r.value| < 0x1_0000_0000 && (r.cmd == LINSERT ==> |r.pivot| < 65536)
  }

  // ---- Encoding ----

  function KeyOnlyBytes(r: ListRequest): Bytes {
    [r.cmd] + Uint(2, |r.key|) + r.key
  }

  function PushBytes(r: ListRequest): Bytes {
    [r.cmd] + Uint(2, |r.key|) + Uint(4, |r.elements|) + r.key + Strings(2, r.elements)
  }

  function RangeBytes(r: ListRequest): Bytes {
    [r.cmd] + Uint(2, |r.key|) + Uint(8, FromInt64(r.start)) + Uint(8, FromInt64(r.stop)) + r.key
  }

  function IndexBytes(r: ListRequest): Bytes {
    [r.cmd] + Uint(2, |r.key|) + Uint(8, FromInt64(r.index)) + r.key
  }

  function StoreBytes(r: ListRequest): Bytes {
    [r.cmd] + Uint(2, |r.key|) + Uint(8, FromInt64(r.index)) + Uint(4, |r.value|) + r.key + r.value
  }

  function RemBytes(r: ListRequest): Bytes {
    [r.cmd] + Uint(2, |r.key|) + Uint(8, FromInt64(r.count)) + Uint(4, |r.value|) + r.key + r.value
  }

  function Flag(b: bool): Bytes {
    [if b then 1 else 0]
  }

  function InsertBytes(r: ListRequest): Bytes {
    [r.cmd] + Uint(2, |r.key|) + Flag(r.before) + Uint(2, |r.pivot|) + Uint(4, |r.value|) + r.key + r.pivot + r.value
  }

  function BlockingBytes(r: ListRequest): Bytes {
    [r.cmd] + Uint(2, |r.key|) + Uint(8, FromInt64(r.timeout)) + r.key
  }

  function PosBytes(r: ListRequest): Bytes {
    [r.cmd] + Uint(2, |r.key|) + Uint(8, FromInt64(r.rank)) + Uint(8, FromInt64(r.count)) + Uint(8, FromInt64(r.maxLen))
    + Uint(4, |r.value|) + r.key + r.value
  }

  /** The bytes of a request; none for a command that is not a list command. */
  function ListBytes(r: ListRequest): Bytes {
    if LKeyOnly(r.cmd) then KeyOnlyBytes(r)
    else if LWithElements(r.cmd) then PushBytes(r)
    else if LWithRange(r.cmd) then RangeBytes(r)
    else if r.cmd == LINDEX then IndexBytes(r)
    else if r.cmd == LSET then StoreBytes(r)
    else if r.cmd == LREM then RemBytes(r)
    else if r.cmd == LINSERT then InsertBytes(r)
    else if LBlocking(r.cmd) then BlockingBytes(r)
    else if r.cmd == LPOS then PosBytes(r)
    else []
  }

  method EncodeKeyOnly(r: ListRequest) returns (p: array<Byte>)
    ensures fresh(p) && p[..] == KeyOnlyBytes(r)
  {
    var kl := |r.key|;
    p := new Byte[3 + kl];
    p[0] := r.cmd;
    assert p[..1] == [r.cmd];
    PutNumber(p, 1, 2, kl);
    PutBytes(p, 3, r.key);
    assert p[..p.Length] == p[..];
  }

  method EncodePush(r: ListRequest) returns (p: array<Byte>)
    ensures fresh(p) && p[..] == PushBytes(r)
  {
    var kl := |r.key|;
    p := new Byte[7 + kl + StringsSize(2, r.elements)];
    p[0] := r.cmd;
    assert p[..1] == [r.cmd];
    PutNumber(p, 1, 2, kl);
    PutNumber(p, 3, 4, |r.elements|);
    PutBytes(p, 7, r.key);
    PutElems(p, 7 + kl, 2, r.elements);
    assert p[..p.Length] == p[..];
  }

  method EncodeRange(r: ListRequest) returns (p: array<Byte>)
    ensures fresh(p) && p[..] == RangeBytes(r)
  {
    var kl := |r.key|;
    p := new Byte[19 + kl];
    p[0] := r.cmd;
    assert p[..1] == [r.cmd];
    PutNumber(p, 1, 2, kl);
    PutNumber(p, 3, 8, FromInt64(r.start));
    PutNumber(p, 11, 8, FromInt64(r.stop));
    PutBytes(p, 19, r.key);
    assert p[..p.Length] == p[..];
  }

  method EncodeIndex(r: ListRequest) returns (p: array<Byte>)
    ensures fresh(p) && p[..] == IndexBytes(r)
  {
    var kl := |r.key|;
    p := new Byte[11 + kl];
    p[0] := r.cmd;
    assert p[..1] == [r.cmd];
    PutNumber(p, 1, 2, kl);
    PutNumber(p, 3, 8, FromInt64(r.index));
    PutBytes(p, 11, r.key);
    assert p[..p.Length] == p[..];
  }

  method EncodeStore(r: ListRequest) returns (p: array<Byte>)
    ensures fresh(p) && p[..] == StoreBytes(r)
  {
    var kl, vl := |r.key|, |r.value|;
    p := new Byte[15 + kl + vl];
    p[0] := r.cmd;
    assert p[..1] == [r.cmd];
    PutNumber(p, 1, 2, kl);
    PutNumber(p, 3, 8, FromInt64(r.index));
    PutNumber(p, 11, 4, vl);
    PutBytes(p, 15, r.key);
    PutBytes(p, 15 + kl, r.value);
    assert p[..p.Length] == p[..];
  }

  method EncodeRem(r: ListRequest) returns (p: array<Byte>)
    ensures fresh(p) && p[..] == RemBytes(r)
  {
    var kl, vl := |r.key|, |r.value|;
    p := new Byte[15 + kl + vl];
    p[0] := r.cmd;
    assert p[..1] == [r.cmd];
    PutNumber(p, 1, 2, kl);
    PutNumber(p, 3, 8, FromInt64(r.count));
    PutNumber(p, 11, 4, vl);
    PutBytes(p, 15, r.key);
    PutBytes(p, 15 + kl, r.value);
    assert p[..p.Length] == p[..];
  }

  method PutFlag(buf: array<Byte>, off: nat, b: bool)
    requires off < buf.Length && buf[off..][0] == 0
    modifies buf
    ensures buf[..off + 1] == old(buf[..off]) + Flag(b)
  {
    if b {
      buf[off] := 1;
    }
    assert buf[..off + 1] == buf[..off] + [buf[off]];
  }

  method PutThree(buf: array<Byte>, off: nat, a: Bytes, b: Bytes, c: Bytes)
    requires off + |a| + |b| + |c| <= buf.Length
    modifies buf
    ensures buf[..off + |a| + |b| + |c|] == old(buf[..off]) + a + b + c
  {
    var at := off;
    PutBytes(buf, at, a);
    at := at + |a|;
    PutBytes(buf, at, b);
    at := at + |b|;
    PutBytes(buf, at, c);
  }

  /** The buffer is all zeros so far. */
  method PutKeyLength(buf: array<Byte>, cmd: Byte, kl: nat)
    requires buf.Length >= 10 && forall i | 0 <= i < buf.Length :: buf[i] == 0
    modifies buf
    ensures buf[..3] == [cmd] + Uint(2, kl) && buf[3..][0] == 0
  {
    assert buf[3..][0] == 0;
    buf[0] := cmd;
    assert buf[..1] == [cmd];
    PutUint(buf, 1, 2, kl);
    assert buf[..3] == buf[..][..3] && buf[3..] == buf[..][3..];
  }

  /** The buffer starts out as zeros, so only a set flag is written. */
  method EncodeInsert(r: ListRequest) returns (p: array<Byte>)
    ensures fresh(p) && p[..] == InsertBytes(r)
  {
    var kl, pl, vl := |r.key|, |r.pivot|, |r.value|;
    p := new Byte[10 + kl + pl + vl](_ => 0);
    PutKeyLength(p, r.cmd, kl);
    PutFlag(p, 3, r.before);
    PutNumber(p, 4, 2, pl);
    PutNumber(p, 6, 4, vl);
    PutThree(p, 10, r.key, r.pivot, r.value);
    assert p[..p.Length] == p[..];
  }

  method EncodeBlocking(r: ListRequest) returns (p: array<Byte>)
    ensures fresh(p) && p[..] == BlockingBytes(r)
  {
    var kl := |r.key|;
    p := new Byte[11 + kl];
    p[0] := r.cmd;
    assert p[..1] == [r.cmd];
    PutNumber(p, 1, 2, kl);
    PutNumber(p, 3, 8, FromInt64(r.timeout));
    PutBytes(p, 11, r.key);
    assert p[..p.Length] == p[..];
  }

  method EncodePos(r: ListRequest) returns (p: array<Byte>)
    ensures fresh(p) && p[..] == PosBytes(r)
  {
    var kl, vl := |r.key|, |r.value|;
    p := new Byte[31 + kl + vl];
    p[0] := r.cmd;
    assert p[..1] == [r.cmd];
    PutNumber(p, 1, 2, kl);
    PutNumber(p, 3, 8, FromInt64(r.rank));
    PutNumber(p, 11, 8, FromInt64(r.count));
    PutNumber(p, 19, 8, FromInt64(r.maxLen));
    PutNumber(p, 27, 4, vl);
    PutBytes(p, 31, r.key);
    PutBytes(p, 31 + kl, r.value);
    assert p[..p.Length] == p[..];
  }

  method EncodeListRequest(r: ListRequest) returns (p: array<Byte>)
    ensures fresh(p) && p[..] == ListBytes(r)
  {
    if r.cmd == LPOP || r.cmd == RPOP || r.cmd == LLEN {
      p := EncodeKeyOnly(r);
    } else if r.cmd == LPUSH || r.cmd == RPUSH {
      p := EncodePush(r);
    } else if r.cmd == LRANGE || r.cmd == LTRIM {
      p := EncodeRange(r);
    } else if r.cmd == LINDEX {
      p := EncodeIndex(r);
    } else if r.cmd == LSET {
      p := EncodeStore(r);
    } else if r.cmd == LREM {
      p := EncodeRem(r);
    } else if r.cmd == LINSERT {
      p := EncodeInsert(r);
    } else if r.cmd == BLPOP || r.cmd == BRPOP {
      p := EncodeBlocking(r);
    } else if r.cmd == LPOS {
      p := EncodePos(r);
    } else {
      p := new Byte[0];
    }
  }

  // ---- Decoding ----

  function DecodeKeyOnly(p: Bytes): Outcome<ListRequest>
    requires |p| >= 3
  {
    var kl := ToNat(p[1..3]);
    if |p| < 3 + kl then Malformed
    else Ok(Blank(p[0]).(key := p[3..3 + kl]))
  }

  function DecodePush(p: Bytes): Outcome<ListRequest>
    requires |p| >= 3
  {
    if |p| < 7 then Malformed
    else
      var kl, n := ToNat(p[1..3]), ToNat(p[3..7]);
      if |p| < 7 + kl then Malformed
      else match ParseStrings(2, p[7 + kl..], n)
        case None => Malformed
        case Some(ss) => Ok(Blank(p[0]).(key := p[7..7 + kl], elements := ss))
  }

  function DecodeRange(p: Bytes): Outcome<ListRequest>
    requires |p| >= 3
  {
    if |p| < 19 then Malformed
    else
      var kl, a, b := ToNat(p[1..3]), ToNat(p[3..11]), ToNat(p[11..19]);
      if |p| < 19 + kl then Malformed
      else Ok(Blank(p[0]).(key := p[19..19 + kl], start := ToInt64(a), stop := ToInt64(b)))
  }

  function DecodeIndex(p: Bytes): Outcome<ListRequest>
    requires |p| >= 3
  {
    if |p| < 11 then Malformed
    else
      var kl, i := ToNat(p[1..3]), ToNat(p[3..11]);
      if |p| < 11 + kl then Malformed
      else Ok(Blank(p[0]).(key := p[11..11 + kl], index := ToInt64(i)))
  }

  function DecodeStore(p: Bytes): Outcome<ListRequest>
    requires |p| >= 3
  {
    if |p| < 15 then Malformed
    else
      var kl, i, vl := ToNat(p[1..3]), ToNat(p[3..11]), ToNat(p[11..15]);
      if |p| < 15 + kl + vl then Malformed
      else Ok(Blank(p[0]).(key := p[15..15 + kl], value := p[15 + kl..15 + kl + vl], index := ToInt64(i)))
  }

  function DecodeRem(p: Bytes): Outcome<ListRequest>
    requires |p| >= 3
  {
    if |p| < 15 then Malformed
    else
      var kl, n, vl := ToNat(p[1..3]), ToNat(p[3..11]), ToNat(p[11..15]);
      if |p| < 15 + kl + vl then Malformed
      else Ok(Blank(p[0]).(key := p[15..15 + kl], value := p[15 + kl..15 + kl + vl], count := ToInt64(n)))
  }

  function DecodeInsert(p: Bytes): Outcome<ListRequest>
    requires |p| >= 3
  {
    if |p| < 10 then Malformed
    else
      var kl, pl, vl := ToNat(p[1..3]), ToNat(p[4..6]), ToNat(p[6..10]);
      if |p| < 10 + kl + pl + vl then Malformed
      else
        Ok(Blank(p[0]).(before := p[3] != 0, key := p[10..10 + kl], pivot := p[10 + kl..10 + kl + pl],
                        value := p[10 + kl + pl..10 + kl + pl + vl]))
  }

  function DecodeBlocking(p: Bytes): Outcome<ListRequest>
    requires |p| >= 3
  {
    if |p| < 11 then Malformed
    else
      var kl, t := ToNat(p[1..3]), ToNat(p[3..11]);
      if |p| < 11 + kl then Malformed
      else Ok(Blank(p[0]).(key := p[11..11 + kl], timeout := ToInt64(t)))
  }

  function DecodePos(p: Bytes): Outcome<ListRequest>
    requires |p| >= 3
  {
    if |p| < 31 then Malformed
    else
      var kl, a, n, m, vl := ToNat(p[1..3]), ToNat(p[3..11]), ToNat(p[11..19]), ToNat(p[19..27]), ToNat(p[27..31]);
      if |p| < 31 + kl + vl then Malformed
      else
        Ok(Blank(p[0]).(key := p[31..31 + kl], value := p[31 + kl..31 + kl + vl],
                        rank := ToInt64(a), count := ToInt64(n), maxLen := ToInt64(m)))
  }

  function DecodeList(p: Bytes): Outcome<ListRequest> {
    if |p| < 3 then Malformed
    else if LKeyOnly(p[0]) then DecodeKeyOnly(p)
    else if LWithElements(p[0]) then DecodePush(p)
    else if LWithRange(p[0]) then DecodeRange(p)
    else if p[0] == LINDEX then DecodeIndex(p)
    else if p[0] == LSET then DecodeStore(p)
    else if p[0] == LREM then DecodeRem(p)
    else if p[0] == LINSERT then DecodeInsert(p)
    else if LBlocking(p[0]) then DecodeBlocking(p)
    else if p[0] == LPOS then DecodePos(p)
    else InvalidCommand
  }

  // Every slice below is within the payload, whatever its bytes are.

  method ReadKeyOnly(p: Bytes, kl: nat) returns (r: Outcome<ListRequest>)
    requires |p| >= 3 && kl == ToNat(p[1..3])
    ensures r == DecodeKeyOnly(p)
  {
    if |p| < 3 + kl {
      return Malformed;
    }
    return Ok(Blank(p[0]).(key := p[3..3 + kl]));
  }

  method ReadPush(p: Bytes, kl: nat) returns (r: Outcome<ListRequest>)
    requires |p| >= 3 && kl == ToNat(p[1..3])
    ensures r == DecodePush(p)
  {
    if |p| < 7 {
      return Malformed;
    }
    var n := GetUint(p, 3, 4);
    var off := 7;
    if off + kl > |p| {
      return Malformed;
    }
    var key := p[off..off + kl];
    off := off + kl;
    var elements := GetElems(p, off, 2, n);
    if elements == None {
      return Malformed;
    }
    return Ok(Blank(p[0]).(key := key, elements := elements.value));
  }

  method ReadRange(p: Bytes, kl: nat) returns (r: Outcome<ListRequest>)
    requires |p| >= 3 && kl == ToNat(p[1..3])
    ensures r == DecodeRange(p)
  {
    if |p| < 19 {
      return Malformed;
    }
    var a := GetUint(p, 3, 8);
    var b := GetUint(p, 11, 8);
    if |p| < 19 + kl {
      return Malformed;
    }
    return Ok(Blank(p[0]).(start := ToInt64(a), stop := ToInt64(b), key := p[19..19 + kl]));
  }

  method ReadIndex(p: Bytes, kl: nat) returns (r: Outcome<ListRequest>)
    requires |p| >= 3 && kl == ToNat(p[1..3])
    ensures r == DecodeIndex(p)
  {
    if |p| < 11 {
      return Malformed;
    }
    var i := GetUint(p, 3, 8);
    if |p| < 11 + kl {
      return Malformed;
    }
    return Ok(Blank(p[0]).(index := ToInt64(i), key := p[11..11 + kl]));
  }

  method ReadStore(p: Bytes, kl: nat) returns (r: Outcome<ListRequest>)
    requires |p| >= 3 && kl == ToNat(p[1..3])
    ensures r == DecodeStore(p)
  {
    if |p| < 15 {
      return Malformed;
    }
    var i := GetUint(p, 3, 8);
    var vl := GetUint(p, 11, 4);
    if |p| < 15 + kl + vl {
      return Malformed;
    }
    return Ok(Blank(p[0]).(index := ToInt64(i), key := p[15..15 + kl], value := p[15 + kl..15 + kl + vl]));
  }

  method ReadRem(p: Bytes, kl: nat) returns (r: Outcome<ListRequest>)
    requires |p| >= 3 && kl == ToNat(p[1..3])
    ensures r == DecodeRem(p)
  {
    if |p| < 15 {
      return Malformed;
    }
    var i := GetUint(p, 3, 8);
    var vl := GetUint(p, 11, 4);
    if |p| < 15 + kl + vl {
      return Malformed;
    }
    return Ok(Blank(p[0]).(count := ToInt64(i), key := p[15..15 + kl], value := p[15 + kl..15 + kl + vl]));
  }

  method ReadInsert(p: Bytes, kl: nat) returns (r: Outcome<ListRequest>)
    requires |p| >= 3 && kl == ToNat(p[1..3])
    ensures r == DecodeInsert(p)
  {
    if |p| < 10 {
      return Malformed;
    }
    var req := Blank(p[0]).(before := p[3] != 0);
    var pl := GetUint(p, 4, 2);
    var vl := GetUint(p, 6, 4);
    var off := 10;
    if off + kl + pl + vl > |p| {
      return Malformed;
    }
    req := req.(key := p[off..off + kl]);
    off := off + kl;
    req := req.(pivot := p[off..off + pl]);
    off := off + pl;
    return Ok(req.(value := p[off..off + vl]));
  }

  method ReadBlocking(p: Bytes, kl: nat) returns (r: Outcome<ListRequest>)
    requires |p| >= 3 && kl == ToNat(p[1..3])
    ensures r == DecodeBlocking(p)
  {
    if |p| < 11 {
      return Malformed;
    }
    var t := GetUint(p, 3, 8);
    if |p| < 11 + kl {
      return Malformed;
    }
    return Ok(Blank(p[0]).(timeout := ToInt64(t), key := p[11..11 + kl]));
  }

  method ReadPos(p: Bytes, kl: nat) returns (r: Outcome<ListRequest>)
    requires |p| >= 3 && kl == ToNat(p[1..3])
    ensures r == DecodePos(p)
  {
    if |p| < 31 {
      return Malformed;
    }
    var a := GetUint(p, 3, 8);
    var n := GetUint(p, 11, 8);
    var m := GetUint(p, 19, 8);
    var vl := GetUint(p, 27, 4);
    if |p| < 31 + kl + vl {
      return Malformed;
    }
    var req := Blank(p[0]).(rank := ToInt64(a), count := ToInt64(n), maxLen := ToInt64(m));
    return Ok(req.(key := p[31..31 + kl], value := p[31 + kl..31 + kl + vl]));
  }

  method DecodeListRequest(p: Bytes) returns (r: Outcome<ListRequest>)
    ensures r == DecodeList(p) && r != Panics && r != Overruns
  {
    if |p| < 3 {
      return Malformed;
    }
    var kl := GetUint(p, 1, 2);
    if p[0] == LPOP || p[0] == RPOP || p[0] == LLEN {
      r := ReadKeyOnly(p, kl);
    } else if p[0] == LPUSH || p[0] == RPUSH {
      r := ReadPush(p, kl);
    } else if p[0] == LRANGE || p[0] == LTRIM {
      r := ReadRange(p, kl);
    } else if p[0] == LINDEX {
      r := ReadIndex(p, kl);
    } else if p[0] == LSET {
      r := ReadStore(p, kl);
    } else if p[0] == LREM {
      r := ReadRem(p, kl);
    } else if p[0] == LINSERT {
      r := ReadInsert(p, kl);
    } else if p[0] == BLPOP || p[0] == BRPOP {
      r := ReadBlocking(p, kl);
    } else if p[0] == LPOS {
      r := ReadPos(p, kl);
    } else {
      r := InvalidCommand;
    }
  }

  // ---- What fits comes back ----

  lemma KeyOnlyDecodes(p: Bytes, r: ListRequest, kl: nat)
    requires LKeyOnly(r.cmd) && |p| >= 3 + kl && p[0] == r.cmd && ToNat(p[1..3]) == kl
    requires p[3..3 + kl] == r.key
    requires kl == |r.key|
    ensures DecodeKeyOnly(p) == Ok(ListUsed(r))
  {
  }

  lemma KeyOnlyComesBack(r: ListRequest)
    requires LKeyOnly(r.cmd) && ListFits(r)
    ensures |KeyOnlyBytes(r)| >= 3 && KeyOnlyBytes(r)[0] == r.cmd && DecodeKeyOnly(KeyOnlyBytes(r)) == Ok(ListUsed(r))
  {
    var p := KeyOnlyBytes(r);
    var kl := |r.key|;
    Pieces3(p, [r.cmd], Uint(2, kl), r.key, 1, 3, 3 + kl);
    assert p[0] == p[..1][0];
    Back16(kl);
    KeyOnlyDecodes(p, r, kl);
  }

  lemma PushDecodes(p: Bytes, r: ListRequest, kl: nat, n: nat)
    requires LWithElements(r.cmd) && |p| >= 7 + kl && p[0] == r.cmd && ToNat(p[1..3]) == kl && ToNat(p[3..7]) == n
    requires p[7..7 + kl] == r.key
    requires kl == |r.key| && n == |r.elements|
    requires ParseStrings(2, p[7 + kl..], n) == Some(r.elements)
    ensures DecodePush(p) == Ok(ListUsed(r))
  {
  }

  lemma PushParts(r: ListRequest, p: Bytes, tail: Bytes, kl: nat, n: nat)
    requires p == PushBytes(r) && tail == Strings(2, r.elements) && kl == |r.key| && n == |r.elements|
    ensures |p| >= 7 + kl && p[0] == r.cmd && p[1..3] == Uint(2, kl) && p[3..7] == Uint(4, n)
    ensures p[7..7 + kl] == r.key && p[7 + kl..] == tail
  {
    Pieces5(p, [r.cmd], Uint(2, kl), Uint(4, n), r.key, tail, 1, 3, 7, 7 + kl, 7 + kl + |tail|);
    assert p[0] == p[..1][0];
  }

  lemma PushComesBack(r: ListRequest)
    requires LWithElements(r.cmd) && ListFits(r)
    ensures |PushBytes(r)| >= 3 && PushBytes(r)[0] == r.cmd && DecodePush(PushBytes(r)) == Ok(ListUsed(r))
  {
    var p := PushBytes(r);
    var kl, n := |r.key|, |r.elements|;
    PushParts(r, p, Strings(2, r.elements), kl, n);
    Back16(kl);
    Back32(n);
    ListComesBack16(r.elements, p[7 + kl..]);
    PushDecodes(p, r, kl, n);
  }

  lemma RangeDecodes(p: Bytes, r: ListRequest, kl: nat, a: nat, b: nat)
    requires LWithRange(r.cmd) && |p| >= 19 + kl && p[0] == r.cmd && ToNat(p[1..3]) == kl && ToNat(p[3..11]) == a
    requires ToNat(p[11..19]) == b
    requires p[19..19 + kl] == r.key
    requires kl == |r.key| && a == FromInt64(r.start) && b == FromInt64(r.stop)
    ensures DecodeRange(p) == Ok(ListUsed(r))
  {
  }

  lemma RangeComesBack(r: ListRequest)
    requires LWithRange(r.cmd) && ListFits(r)
    ensures |RangeBytes(r)| >= 3 && RangeBytes(r)[0] == r.cmd && DecodeRange(RangeBytes(r)) == Ok(ListUsed(r))
  {
    var p := RangeBytes(r);
    var kl, a, b := |r.key|, FromInt64(r.start), FromInt64(r.stop);
    Pieces5(p, [r.cmd], Uint(2, kl), Uint(8, a), Uint(8, b), r.key, 1, 3, 11, 19, 19 + kl);
    assert p[0] == p[..1][0];
    Back16(kl);
    Back64(a);
    Back64(b);
    RangeDecodes(p, r, kl, a, b);
  }

  lemma IndexDecodes(p: Bytes, r: ListRequest, kl: nat, i: nat)
    requires r.cmd == LINDEX && |p| >= 11 + kl && p[0] == r.cmd && ToNat(p[1..3]) == kl && ToNat(p[3..11]) == i
    requires p[11..11 + kl] == r.key
    requires kl == |r.key| && i == FromInt64(r.index)
    ensures DecodeIndex(p) == Ok(ListUsed(r))
  {
  }

  lemma IndexComesBack(r: ListRequest)
    requires r.cmd == LINDEX && ListFits(r)
    ensures |IndexBytes(r)| >= 3 && IndexBytes(r)[0] == r.cmd && DecodeIndex(IndexBytes(r)) == Ok(ListUsed(r))
  {
    var p := IndexBytes(r);
    var kl, i := |r.key|, FromInt64(r.index);
    Pieces4(p, [r.cmd], Uint(2, kl), Uint(8, i), r.key, 1, 3, 11, 11 + kl);
    assert p[0] == p[..1][0];
    Back16(kl);
    Back64(i);
    IndexDecodes(p, r, kl, i);
  }

  lemma StoreDecodes(p: Bytes, r: ListRequest, kl: nat, i: nat, vl: nat)
    requires r.cmd == LSET && |p| >= 15 + kl + vl && p[0] == r.cmd && ToNat(p[1..3]) == kl && ToNat(p[3..11]) == i
    requires ToNat(p[11..15]) == vl
    requires p[15..15 + kl] == r.key && p[15 + kl..15 + kl + vl] == r.value
    requires kl == |r.key| && i == FromInt64(r.index) && vl == |r.value|
    ensures DecodeStore(p) == Ok(ListUsed(r))
  {
  }

  lemma StoreComesBack(r: ListRequest)
    requires r.cmd == LSET && ListFits(r)
    ensures |StoreBytes(r)| >= 3 && StoreBytes(r)[0] == r.cmd && DecodeStore(StoreBytes(r)) == Ok(ListUsed(r))
  {
    var p := StoreBytes(r);
    var kl, i, vl := |r.key|, FromInt64(r.index), |r.value|;
    Pieces6(p, [r.cmd], Uint(2, kl), Uint(8, i), Uint(4, vl), r.key, r.value, 1, 3, 11, 15, 15 + kl, 15 + kl + vl);
    assert p[0] == p[..1][0];
    Back16(kl);
    Back64(i);
    Back32(vl);
    StoreDecodes(p, r, kl, i, vl);
  }

  lemma RemDecodes(p: Bytes, r: ListRequest, kl: nat, n: nat, vl: nat)
    requires r.cmd == LREM && |p| >= 15 + kl + vl && p[0] == r.cmd && ToNat(p[1..3]) == kl && ToNat(p[3..11]) == n
    requires ToNat(p[11..15]) == vl
    requires p[15..15 + kl] == r.key && p[15 + kl..15 + kl + vl] == r.value
    requires kl == |r.key| && n == FromInt64(r.count) && vl == |r.value|
    ensures DecodeRem(p) == Ok(ListUsed(r))
  {
  }

  lemma RemComesBack(r: ListRequest)
    requires r.cmd == LREM && ListFits(r)
    ensures |RemBytes(r)| >= 3 && RemBytes(r)[0] == r.cmd && DecodeRem(RemBytes(r)) == Ok(ListUsed(r))
  {
    var p := RemBytes(r);
    var kl, n, vl := |r.key|, FromInt64(r.count), |r.value|;
    Pieces6(p, [r.cmd], Uint(2, kl), Uint(8, n), Uint(4, vl), r.key, r.value, 1, 3, 11, 15, 15 + kl, 15 + kl + vl);
    assert p[0] == p[..1][0];
    Back16(kl);
    Back64(n);
    Back32(vl);
    RemDecodes(p, r, kl, n, vl);
  }

  lemma InsertDecodes(p: Bytes, r: ListRequest, kl: nat, pl: nat, vl: nat)
    requires r.cmd == LINSERT && |p| >= 10 + kl + pl + vl && p[0] == r.cmd && p[3..4] == Flag(r.before)
    requires ToNat(p[1..3]) == kl == |r.key| && ToNat(p[4..6]) == pl == |r.pivot| && ToNat(p[6..10]) == vl == |r.value|
    requires p[10..10 + kl] == r.key && p[10 + kl..10 + kl + pl] == r.pivot
    requires p[10 + kl + pl..10 + kl + pl + vl] == r.value
    ensures DecodeInsert(p) == Ok(ListUsed(r))
  {
    assert p[3] == p[3..4][0];
  }

  lemma InsertComesBack(r: ListRequest)
    requires r.cmd == LINSERT && ListFits(r)
    ensures |InsertBytes(r)| >= 3 && InsertBytes(r)[0] == r.cmd && DecodeInsert(InsertBytes(r)) == Ok(ListUsed(r))
  {
    var p := InsertBytes(r);
    var kl, pl, vl := |r.key|, |r.pivot|, |r.value|;
    Pieces8(p, [r.cmd], Uint(2, kl), Flag(r.before), Uint(2, pl), Uint(4, vl), r.key, r.pivot, r.value,
            1, 3, 4, 6, 10, 10 + kl, 10 + kl + pl, 10 + kl + pl + vl);
    assert p[0] == p[..1][0];
    Back16(kl);
    Back16(pl);
    Back32(vl);
    InsertDecodes(p, r, kl, pl, vl);
  }

  lemma BlockingDecodes(p: Bytes, r: ListRequest, kl: nat, t: nat)
    requires LBlocking(r.cmd) && |p| >= 11 + kl && p[0] == r.cmd && ToNat(p[1..3]) == kl && ToNat(p[3..11]) == t
    requires p[11..11 + kl] == r.key
    requires kl == |r.key| && t == FromInt64(r.timeout)
    ensures DecodeBlocking(p) == Ok(ListUsed(r))
  {
  }

  lemma BlockingComesBack(r: ListRequest)
    requires LBlocking(r.cmd) && ListFits(r)
    ensures |BlockingBytes(r)| >= 3 && BlockingBytes(r)[0] == r.cmd && DecodeBlocking(BlockingBytes(r)) == Ok(ListUsed(r))
  {
    var p := BlockingBytes(r);
    var kl, t := |r.key|, FromInt64(r.timeout);
    Pieces4(p, [r.cmd], Uint(2, kl), Uint(8, t), r.key, 1, 3, 11, 11 + kl);
    assert p[0] == p[..1][0];
    Back16(kl);
    Back64(t);
    BlockingDecodes(p, r, kl, t);
  }

  lemma PosDecodes(p: Bytes, r: ListRequest, kl: nat, a: nat, n: nat, m: nat, vl: nat)
    requires r.cmd == LPOS && |p| >= 31 + kl + vl && p[0] == r.cmd && ToNat(p[1..3]) == kl && ToNat(p[3..11]) == a
    requires ToNat(p[11..19]) == n && ToNat(p[19..27]) == m && ToNat(p[27..31]) == vl
    requires p[31..31 + kl] == r.key && p[31 + kl..31 + kl + vl] == r.value
    requires kl == |r.key| && a == FromInt64(r.rank) && n == FromInt64(r.count) && m == FromInt64(r.maxLen)
    requires vl == |r.value|
    ensures DecodePos(p) == Ok(ListUsed(r))
  {
  }

  lemma PosComesBack(r: ListRequest)
    requires r.cmd == LPOS && ListFits(r)
    ensures |PosBytes(r)| >= 3 && PosBytes(r)[0] == r.cmd && DecodePos(PosBytes(r)) == Ok(ListUsed(r))
  {
    var p := PosBytes(r);
    var kl, a, n, m, vl := |r.key|, FromInt64(r.rank), FromInt64(r.count), FromInt64(r.maxLen), |r.value|;
    Pieces8(p, [r.cmd], Uint(2, kl), Uint(8, a), Uint(8, n), Uint(8, m), Uint(4, vl), r.key, r.value,
            1, 3, 11, 19, 27, 31, 31 + kl, 31 + kl + vl);
    assert p[0] == p[..1][0];
    Back16(kl);
    Back64(a);
    Back64(n);
    Back64(m);
    Back32(vl);
    PosDecodes(p, r, kl, a, n, m, vl);
  }

  lemma ListRequestComesBack(r: ListRequest)
    requires IsListCmd(r.cmd) && ListFits(r)
    ensures DecodeList(ListBytes(r)) == Ok(ListUsed(r))
  {
    if LKeyOnly(r.cmd) {
      KeyOnlyComesBack(r);
    } else if LWithElements(r.cmd) {
      PushComesBack(r);
    } else if LWithRange(r.cmd) {
      RangeComesBack(r);
    } else if r.cmd == LINDEX {
      IndexComesBack(r);
    } else if r.cmd == LSET {
      StoreComesBack(r);
    } else if r.cmd == LREM {
      RemComesBack(r);
    } else if r.cmd == LINSERT {
      InsertComesBack(r);
    } else if LBlocking(r.cmd) {
      BlockingComesBack(r);
    } else {
      PosComesBack(r);
    }
  }

  // ---- What is decoded is what the bytes say ----

  /**
   * A decoded request fits, has no stray fields, and its encoding is what the payload begins with,
   * unless the flag is neither 0 nor 1.
   */
  predicate ListCanonical(p: Bytes, r: ListRequest) {
    ListFits(r) && ListUsed(r) == r && (ListBytes(r) <= p <==> (r.cmd == LINSERT && |p| > 3 ==> p[3] <= 1))
  }

  lemma KeyOnlyIsFitting(p: Bytes, r: ListRequest)
    requires |p| >= 3 && LKeyOnly(p[0]) && DecodeKeyOnly(p) == Ok(r)
    ensures r.cmd == p[0] && ListFits(r) && ListUsed(r) == r
  {
    Read16(p, 1);
  }

  lemma KeyOnlyRebuilt(p: Bytes, r: ListRequest, kl: nat)
    requires |p| >= 3 + kl && r.cmd == p[0] && r.key == p[3..3 + kl]
    requires kl == |r.key|
    requires Uint(2, kl) == p[1..3]
    ensures KeyOnlyBytes(r) <= p
  {
    assert p[..1] == [r.cmd];
    Begins3(p, [r.cmd], Uint(2, kl), r.key, 1, 3, 3 + kl);
  }

  lemma KeyOnlyIsCanonical(p: Bytes, r: ListRequest)
    requires |p| >= 3 && LKeyOnly(p[0]) && DecodeKeyOnly(p) == Ok(r)
    ensures KeyOnlyBytes(r) <= p
  {
    var kl := ToNat(p[1..3]);
    Reread(p, 1, 2);
    KeyOnlyRebuilt(p, r, kl);
  }

  lemma PushFacts(p: Bytes, r: ListRequest, kl: nat, n: nat)
    requires |p| >= 7 && DecodePush(p) == Ok(r) && kl == ToNat(p[1..3]) && n == ToNat(p[3..7])
    ensures |p| >= 7 + kl && r == Blank(p[0]).(key := p[7..7 + kl], elements := r.elements)
    ensures ParseStrings(2, p[7 + kl..], n) == Some(r.elements)
    ensures |r.elements| == n && (forall s | s in r.elements :: |s| < 65536) && Strings(2, r.elements) <= p[7 + kl..]
  {
    ParsedStrings16(p[7 + kl..], n, r.elements);
  }

  lemma PushFit(r: ListRequest)
    requires LWithElements(r.cmd) && r == Blank(r.cmd).(key := r.key, elements := r.elements) && |r.key| < 65536
    requires |r.elements| < 0x1_0000_0000
    requires forall s | s in r.elements :: |s| < 65536
    ensures ListFits(r) && ListUsed(r) == r
  {
  }

  lemma PushIsFitting(p: Bytes, r: ListRequest)
    requires |p| >= 3 && LWithElements(p[0]) && DecodePush(p) == Ok(r)
    ensures r.cmd == p[0] && ListFits(r) && ListUsed(r) == r
  {
    Read16(p, 1);
    Read32(p, 3);
    PushFacts(p, r, ToNat(p[1..3]), ToNat(p[3..7]));
    PushFit(r);
  }

  lemma PushRebuilt(p: Bytes, r: ListRequest, kl: nat, n: nat)
    requires |p| >= 7 + kl && r.cmd == p[0] && r.key == p[7..7 + kl]
    requires kl == |r.key| && n == |r.elements|
    requires Uint(2, kl) == p[1..3] && Uint(4, n) == p[3..7]
    requires Strings(2, r.elements) <= p[7 + kl..]
    ensures PushBytes(r) <= p
  {
    assert p[..1] == [r.cmd];
    Begins4(p, [r.cmd], Uint(2, kl), Uint(4, n), r.key, 1, 3, 7, 7 + kl);
    PrefixTail(p, 7 + kl, Strings(2, r.elements));
  }

  lemma PushIsCanonical(p: Bytes, r: ListRequest)
    requires |p| >= 3 && LWithElements(p[0]) && DecodePush(p) == Ok(r)
    ensures PushBytes(r) <= p
  {
    var kl, n := ToNat(p[1..3]), ToNat(p[3..7]);
    Reread(p, 1, 2);
    Reread(p, 3, 4);
    PushFacts(p, r, kl, n);
    PushRebuilt(p, r, kl, n);
  }

  lemma RangeIsFitting(p: Bytes, r: ListRequest)
    requires |p| >= 3 && LWithRange(p[0]) && DecodeRange(p) == Ok(r)
    ensures r.cmd == p[0] && ListFits(r) && ListUsed(r) == r
  {
    Read16(p, 1);
    Read64(p, 3);
    Read64(p, 11);
  }

  lemma RangeRebuilt(p: Bytes, r: ListRequest, kl: nat, a: nat, b: nat)
    requires |p| >= 19 + kl && r.cmd == p[0] && r.key == p[19..19 + kl]
    requires kl == |r.key| && a == FromInt64(r.start) && b == FromInt64(r.stop)
    requires Uint(2, kl) == p[1..3] && Uint(8, a) == p[3..11] && Uint(8, b) == p[11..19]
    ensures RangeBytes(r) <= p
  {
    assert p[..1] == [r.cmd];
    Begins5(p, [r.cmd], Uint(2, kl), Uint(8, a), Uint(8, b), r.key, 1, 3, 11, 19, 19 + kl);
  }

  lemma RangeIsCanonical(p: Bytes, r: ListRequest)
    requires |p| >= 3 && LWithRange(p[0]) && DecodeRange(p) == Ok(r)
    ensures RangeBytes(r) <= p
  {
    var kl, a, b := ToNat(p[1..3]), ToNat(p[3..11]), ToNat(p[11..19]);
    Reread(p, 1, 2);
    Reread(p, 3, 8);
    Read64(p, 3);
    Reread(p, 11, 8);
    Read64(p, 11);
    RangeRebuilt(p, r, kl, a, b);
  }

  lemma IndexIsFitting(p: Bytes, r: ListRequest)
    requires |p| >= 3 && p[0] == LINDEX && DecodeIndex(p) == Ok(r)
    ensures r.cmd == p[0] && ListFits(r) && ListUsed(r) == r
  {
    Read16(p, 1);
    Read64(p, 3);
  }

  lemma IndexRebuilt(p: Bytes, r: ListRequest, kl: nat, i: nat)
    requires |p| >= 11 + kl && r.cmd == p[0] && r.key == p[11..11 + kl]
    requires kl == |r.key| && i == FromInt64(r.index)
    requires Uint(2, kl) == p[1..3] && Uint(8, i) == p[3..11]
    ensures IndexBytes(r) <= p
  {
    assert p[..1] == [r.cmd];
    Begins4(p, [r.cmd], Uint(2, kl), Uint(8, i), r.key, 1, 3, 11, 11 + kl);
  }

  lemma IndexIsCanonical(p: Bytes, r: ListRequest)
    requires |p| >= 3 && p[0] == LINDEX && DecodeIndex(p) == Ok(r)
    ensures IndexBytes(r) <= p
  {
    var kl, i := ToNat(p[1..3]), ToNat(p[3..11]);
    Reread(p, 1, 2);
    Reread(p, 3, 8);
    Read64(p, 3);
    IndexRebuilt(p, r, kl, i);
  }

  lemma StoreIsFitting(p: Bytes, r: ListRequest)
    requires |p| >= 3 && p[0] == LSET && DecodeStore(p) == Ok(r)
    ensures r.cmd == p[0] && ListFits(r) && ListUsed(r) == r
  {
    Read16(p, 1);
    Read64(p, 3);
    Read32(p, 11);
  }

  lemma StoreRebuilt(p: Bytes, r: ListRequest, kl: nat, i: nat, vl: nat)
    requires |p| >= 15 + kl + vl && r.cmd == p[0] && r.key == p[15..15 + kl] && r.value == p[15 + kl..15 + kl + vl]
    requires kl == |r.key| && i == FromInt64(r.index) && vl == |r.value|
    requires Uint(2, kl) == p[1..3] && Uint(8, i) == p[3..11] && Uint(4, vl) == p[11..15]
    ensures StoreBytes(r) <= p
  {
    assert p[..1] == [r.cmd];
    Begins6(p, [r.cmd], Uint(2, kl), Uint(8, i), Uint(4, vl), r.key, r.value, 1, 3, 11, 15, 15 + kl, 15 + kl + vl);
  }

  lemma StoreIsCanonical(p: Bytes, r: ListRequest)
    requires |p| >= 3 && p[0] == LSET && DecodeStore(p) == Ok(r)
    ensures StoreBytes(r) <= p
  {
    var kl, i, vl := ToNat(p[1..3]), ToNat(p[3..11]), ToNat(p[11..15]);
    Reread(p, 1, 2);
    Reread(p, 3, 8);
    Read64(p, 3);
    Reread(p, 11, 4);
    StoreRebuilt(p, r, kl, i, vl);
  }

  lemma RemIsFitting(p: Bytes, r: ListRequest)
    requires |p| >= 3 && p[0] == LREM && DecodeRem(p) == Ok(r)
    ensures r.cmd == p[0] && ListFits(r) && ListUsed(r) == r
  {
    Read16(p, 1);
    Read64(p, 3);
    Read32(p, 11);
  }

  lemma RemRebuilt(p: Bytes, r: ListRequest, kl: nat, n: nat, vl: nat)
    requires |p| >= 15 + kl + vl && r.cmd == p[0] && r.key == p[15..15 + kl] && r.value == p[15 + kl..15 + kl + vl]
    requires kl == |r.key| && n == FromInt64(r.count) && vl == |r.value|
    requires Uint(2, kl) == p[1..3] && Uint(8, n) == p[3..11] && Uint(4, vl) == p[11..15]
    ensures RemBytes(r) <= p
  {
    assert p[..1] == [r.cmd];
    Begins6(p, [r.cmd], Uint(2, kl), Uint(8, n), Uint(4, vl), r.key, r.value, 1, 3, 11, 15, 15 + kl, 15 + kl + vl);
  }

  lemma RemIsCanonical(p: Bytes, r: ListRequest)
    requires |p| >= 3 && p[0] == LREM && DecodeRem(p) == Ok(r)
    ensures RemBytes(r) <= p
  {
    var kl, n, vl := ToNat(p[1..3]), ToNat(p[3..11]), ToNat(p[11..15]);
    Reread(p, 1, 2);
    Reread(p, 3, 8);
    Read64(p, 3);
    Reread(p, 11, 4);
    RemRebuilt(p, r, kl, n, vl);
  }

  lemma InsertIsFitting(p: Bytes, r: ListRequest)
    requires |p| >= 3 && p[0] == LINSERT && DecodeInsert(p) == Ok(r)
    ensures r.cmd == p[0] && ListFits(r) && ListUsed(r) == r
  {
    Read16(p, 1);
    Read16(p, 4);
    Read32(p, 6);
  }

  lemma InsertRebuilt(p: Bytes, r: ListRequest, kl: nat, pl: nat, vl: nat)
    requires |p| >= 10 + kl + pl + vl && r.cmd == p[0] && r.key == p[10..10 + kl] && r.pivot == p[10 + kl..10 + kl + pl]
    requires r.value == p[10 + kl + pl..10 + kl + pl + vl] && kl == |r.key| && pl == |r.pivot| && vl == |r.value|
    requires Uint(2, kl) == p[1..3] && Uint(2, pl) == p[4..6] && Uint(4, vl) == p[6..10] && (r.before <==> p[3] != 0)
    ensures InsertBytes(r) <= p <==> p[3] <= 1
  {
    assert p[..1] == [r.cmd];
    if p[3] <= 1 {
      assert p[3..4] == Flag(r.before);
      Begins8(p, [r.cmd], Uint(2, kl), Flag(r.before), Uint(2, pl), Uint(4, vl), r.key, r.pivot, r.value,
              1, 3, 4, 6, 10, 10 + kl, 10 + kl + pl, 10 + kl + pl + vl);
    } else {
      FlagAt(r);
      assert InsertBytes(r)[3] != p[3];
    }
  }

  lemma FlagAt(r: ListRequest)
    ensures |InsertBytes(r)| > 3 && InsertBytes(r)[3] <= 1
  {
    var head := [r.cmd] + Uint(2, |r.key|) + Flag(r.before);
    assert InsertBytes(r)[..4] == head;
    assert InsertBytes(r)[3] == head[3];
  }

  lemma InsertIsCanonical(p: Bytes, r: ListRequest)
    requires |p| >= 3 && p[0] == LINSERT && DecodeInsert(p) == Ok(r)
    ensures |p| >= 10 && (InsertBytes(r) <= p <==> p[3] <= 1)
  {
    var kl, pl, vl := ToNat(p[1..3]), ToNat(p[4..6]), ToNat(p[6..10]);
    Reread(p, 1, 2);
    Reread(p, 4, 2);
    Reread(p, 6, 4);
    InsertRebuilt(p, r, kl, pl, vl);
  }

  lemma BlockingIsFitting(p: Bytes, r: ListRequest)
    requires |p| >= 3 && LBlocking(p[0]) && DecodeBlocking(p) == Ok(r)
    ensures r.cmd == p[0] && ListFits(r) && ListUsed(r) == r
  {
    Read16(p, 1);
    Read64(p, 3);
  }

  lemma BlockingRebuilt(p: Bytes, r: ListRequest, kl: nat, t: nat)
    requires |p| >= 11 + kl && r.cmd == p[0] && r.key == p[11..11 + kl]
    requires kl == |r.key| && t == FromInt64(r.timeout)
    requires Uint(2, kl) == p[1..3] && Uint(8, t) == p[3..11]
    ensures BlockingBytes(r) <= p
  {
    assert p[..1] == [r.cmd];
    Begins4(p, [r.cmd], Uint(2, kl), Uint(8, t), r.key, 1, 3, 11, 11 + kl);
  }

  lemma BlockingIsCanonical(p: Bytes, r: ListRequest)
    requires |p| >= 3 && LBlocking(p[0]) && DecodeBlocking(p) == Ok(r)
    ensures BlockingBytes(r) <= p
  {
    var kl, t := ToNat(p[1..3]), ToNat(p[3..11]);
    Reread(p, 1, 2);
    Reread(p, 3, 8);
    Read64(p, 3);
    BlockingRebuilt(p, r, kl, t);
  }

  lemma PosIsFitting(p: Bytes, r: ListRequest)
    requires |p| >= 3 && p[0] == LPOS && DecodePos(p) == Ok(r)
    ensures r.cmd == p[0] && ListFits(r) && ListUsed(r) == r
  {
    Read16(p, 1);
    Read64(p, 3);
    Read64(p, 11);
    Read64(p, 19);
    Read32(p, 27);
  }

  lemma PosRebuilt(p: Bytes, r: ListRequest, kl: nat, a: nat, n: nat, m: nat, vl: nat)
    requires |p| >= 31 + kl + vl && r.cmd == p[0] && r.key == p[31..31 + kl] && r.value == p[31 + kl..31 + kl + vl]
    requires kl == |r.key| && a == FromInt64(r.rank) && n == FromInt64(r.count) && m == FromInt64(r.maxLen)
    requires vl == |r.value|
    requires Uint(2, kl) == p[1..3] && Uint(8, a) == p[3..11] && Uint(8, n) == p[11..19] && Uint(8, m) == p[19..27]
    requires Uint(4, vl) == p[27..31]
    ensures PosBytes(r) <= p
  {
    assert p[..1] == [r.cmd];
    Begins8(p, [r.cmd], Uint(2, kl), Uint(8, a), Uint(8, n), Uint(8, m), Uint(4, vl), r.key, r.value,
            1, 3, 11, 19, 27, 31, 31 + kl, 31 + kl + vl);
  }

  lemma PosIsCanonical(p: Bytes, r: ListRequest)
    requires |p| >= 3 && p[0] == LPOS && DecodePos(p) == Ok(r)
    ensures PosBytes(r) <= p
  {
    var kl, a, n, m, vl := ToNat(p[1..3]), ToNat(p[3..11]), ToNat(p[11..19]), ToNat(p[19..27]), ToNat(p[27..31]);
    Reread(p, 1, 2);
    Reread(p, 3, 8);
    Read64(p, 3);
    Reread(p, 11, 8);
    Read64(p, 11);
    Reread(p, 19, 8);
    Read64(p, 19);
    Reread(p, 27, 4);
    PosRebuilt(p, r, kl, a, n, m, vl);
  }

  lemma ListDecodedIsCanonical(p: Bytes, r: ListRequest)
    requires DecodeList(p) == Ok(r)
    ensures ListCanonical(p, r)
  {
    if LKeyOnly(p[0]) {
      KeyOnlyIsFitting(p, r);
      KeyOnlyIsCanonical(p, r);
    } else if LWithElements(p[0]) {
      PushIsFitting(p, r);
      PushIsCanonical(p, r);
    } else if LWithRange(p[0]) {
      RangeIsFitting(p, r);
      RangeIsCanonical(p, r);
    } else if p[0] == LINDEX {
      IndexIsFitting(p, r);
      IndexIsCanonical(p, r);
    } else if p[0] == LSET {
      StoreIsFitting(p, r);
      StoreIsCanonical(p, r);
    } else if p[0] == LREM {
      RemIsFitting(p, r);
      RemIsCanonical(p, r);
    } else if p[0] == LINSERT {
      InsertIsFitting(p, r);
      InsertIsCanonical(p, r);
    } else if LBlocking(p[0]) {
      BlockingIsFitting(p, r);
      BlockingIsCanonical(p, r);
    } else {
      PosIsFitting(p, r);
      PosIsCanonical(p, r);
    }
  }

  /** A request of any list command comes back, less what its command does not use, if and only if it is within the limits. */
  lemma ListRoundTrip(r: ListRequest)
    requires IsListCmd(r.cmd)
    ensures DecodeList(ListBytes(r)) == Ok(ListUsed(r)) <==> ListFits(r)
  {
    if ListFits(r) {
      ListRequestComesBack(r);
    }
    if DecodeList(ListBytes(r)) == Ok(ListUsed(r)) {
      ListDecodedIsCanonical(ListBytes(r), ListUsed(r));
    }
  }
}
