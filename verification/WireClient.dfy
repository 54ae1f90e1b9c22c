/**
 * From the server's response to the client's: net/server.go puts the command in front of the response
 * to a set, hash or list command, and net/client.go picks the decoder by that byte.
 */
module WireClient {
  import opened Bytes
  import opened Collections
  import opened Wire
  import opened WireStrings
  import opened WireRequests
  import opened WireSets
  import opened WireHashes
  import opened WireLists
  import opened WireReplies
  import Hashes = WireHashReplies
  import Lists = WireListReplies
  import Sets = WireSetReplies

  const RESPONSE: Byte := 1

  datatype Answer =
    | OfHash(hash: Hashes.HashResponse)
    | OfList(list: Lists.ListResponse)
    | OfSet(sets: Sets.SetResponse)
    | OfPlain(plain: Response)

  /** Commands and statuses are told apart by their numbers. */
  predicate Addressed(a: Answer) {
    match a
    case OfHash(r) => IsHashCmd(r.cmd)
    case OfList(r) => IsListCmd(r.cmd)
    case OfSet(r) => SetCommand(r.cmd)
    case OfPlain(r) => !IsHashCmd(r.status) && !IsListCmd(r.status) && !SetCommand(r.status)
  }

  predicate AnswerFits(a: Answer) {
    match a
    case OfHash(r) => Hashes.HashReplyFits(r)
    case OfList(r) => Lists.ListReplyFits(r)
    case OfSet(r) => Sets.SetReplyFits(r)
    case OfPlain(r) => ResponseFits(r)
  }

  function AnswerUsed(a: Answer): Answer {
    match a
    case OfHash(r) => OfHash(Hashes.HashReplyUsed(r))
    case OfList(r) => OfList(Lists.ListReplyUsed(r))
    case OfSet(r) => OfSet(Sets.SetReplyUsed(r))
    case OfPlain(r) => a
  }

  // ---- The server ----

  ghost predicate Ordered(a: Answer, order: seq<Bytes>) {
    a.OfHash? ==> Orders(a.hash.mapResult, order)
  }

  function ServerPayload(a: Answer, order: seq<Bytes>): Bytes
    requires Ordered(a, order)
  {
    match a
    case OfHash(r) => [r.cmd] + Hashes.HashReplyBytes(r, order)
    case OfList(r) => [r.cmd] + Lists.ListReplyBytes(r)
    case OfSet(r) => [r.cmd] + Sets.SetReplyBytes(r)
    case OfPlain(r) => ResponseBytes(r)
  }

  method Prefixed(cmd: Byte, raw: array<Byte>) returns (p: array<Byte>)
    ensures fresh(p) && p[..] == [cmd] + raw[..]
  {
    p := new Byte[1 + raw.Length];
    p[0] := cmd;
    assert p[..1] == [cmd];
    PutBytes(p, 1, raw[..]);
    assert p[..p.Length] == p[..];
  }

  method Respond(a: Answer) returns (p: array<Byte>, ghost order: seq<Bytes>)
    ensures fresh(p) && Ordered(a, order) && p[..] == ServerPayload(a, order)
  {
    order := [];
    match a
    case OfHash(r) =>
      var raw;
      raw, order := Hashes.EncodeHashResponse(r);
      p := Prefixed(r.cmd, raw);
    case OfList(r) =>
      var raw := Lists.EncodeListResponse(r);
      p := Prefixed(r.cmd, raw);
    case OfSet(r) =>
      var raw := Sets.EncodeSetResponse(r);
      p := Prefixed(r.cmd, raw);
    case OfPlain(r) =>
      p := EncodeResponse(r);
  }

  // ---- The client ----

  function Text(s: string): Bytes {
    seq(|s|, i requires 0 <= i < |s| => (s[i] as int % 256) as Byte)
  }

  /** `Broken` is a panic, which ends the reading of the connection. */
  datatype Received = Delivers(answer: Answer) | Nothing | Broken

  function HashAnswer(o: Outcome<Hashes.HashResponse>): Received {
    match o
    case Ok(r) => Delivers(OfHash(r))
    case Malformed => Delivers(OfHash(Hashes.BlankReply(0, ERR).(errMsg := Text("malformed hash response"))))
    case _ => Broken
  }

  function ListAnswer(o: Outcome<Lists.ListResponse>): Received {
    match o
    case Ok(r) => Delivers(OfList(r))
    case Malformed => Delivers(OfList(Lists.BlankReply(0, ERR).(errMsg := Text("malformed list response"))))
    case _ => Broken
  }

  function SetAnswer(o: Outcome<Sets.SetResponse>): Received {
    match o
    case Ok(r) => Delivers(OfSet(r))
    case Malformed => Delivers(OfSet(Sets.BlankReply(0, ERR).(errMsg := Text("malformed set response"))))
    case _ => Broken
  }

  function PlainAnswer(o: Outcome<Response>): Received {
    match o
    case Ok(r) => Delivers(OfPlain(r))
    case Malformed => Delivers(OfPlain(Response(ERR, [], Text("malformed response"))))
    case _ => Broken
  }

  /** What the client makes of the payload of a response frame. */
  function Receive(p: Bytes): Received {
    if p == [] then Nothing
    else if IsHashCmd(p[0]) then HashAnswer(Hashes.DecodeHashReply(p[1..], p[0]))
    else if IsListCmd(p[0]) then ListAnswer(Lists.DecodeListReply(p[1..], p[0]))
    else if SetCommand(p[0]) then SetAnswer(Sets.DecodeSetReply(p[1..], p[0]))
    else PlainAnswer(DecodePlain(p))
  }

  method ReceivePayload(p: Bytes) returns (r: Received)
    ensures r == Receive(p)
  {
    if |p| == 0 {
      return Nothing;
    }
    if IsHashCmd(p[0]) {
      var o := Hashes.DecodeHashResponse(p[1..], p[0]);
      r := HashAnswer(o);
    } else if IsListCmd(p[0]) {
      var o := Lists.DecodeListResponse(p[1..], p[0]);
      r := ListAnswer(o);
    } else if p[0] >= SADD && p[0] <= SDIFF {
      var o := Sets.DecodeSetResponse(p[1..], p[0]);
      r := SetAnswer(o);
    } else {
      var o := DecodeResponse(p);
      r := PlainAnswer(o);
    }
  }

  /** The answers in the response frames, by stream, up to a panic. */
  function Answers(fs: seq<Frame>): seq<(nat, Answer)> {
    if fs == [] then []
    else if fs[0].kind != RESPONSE then Answers(fs[1..])
    else match Receive(fs[0].payload)
      case Delivers(a) => [(fs[0].streamID, a)] + Answers(fs[1..])
      case Nothing => Answers(fs[1..])
      case Broken => []
  }

  ghost predicate Reading(p: Bytes, got: seq<(nat, Answer)>, want: seq<(nat, Answer)>) {
    got + Answers(ParseStream(p).0) == want
  }

  lemma NextFrame(p: Bytes, got: seq<(nat, Answer)>, want: seq<(nat, Answer)>, f: Frame, rest: Bytes)
    requires Reading(p, got, want) && ParseFrame(p) == Got(f, rest)
    ensures f.kind != RESPONSE ==> Reading(rest, got, want)
    ensures f.kind == RESPONSE ==>
              match Receive(f.payload)
              case Delivers(a) => Reading(rest, got + [(f.streamID, a)], want)
              case Nothing => Reading(rest, got, want)
              case Broken => got == want
  {
    var fs := ParseStream(rest).0;
    assert ([f] + fs)[1..] == fs;
    if f.kind == RESPONSE && Receive(f.payload).Delivers? {
      var one := [(f.streamID, Receive(f.payload).answer)];
      assert got + (one + Answers(fs)) == got + one + Answers(fs);
    }
    assert got + [] == got;
  }

  lemma NoFrame(p: Bytes, got: seq<(nat, Answer)>, want: seq<(nat, Answer)>)
    requires Reading(p, got, want) && !ParseFrame(p).Got?
    ensures got == want
  {
    assert got + [] == got;
  }

  /** The read loop of a connection: frame after frame until the stream ends or cannot be read. */
  method ReadLoop(stream: Bytes) returns (got: seq<(nat, Answer)>)
    ensures got == Answers(ParseStream(stream).0)
  {
    ghost var want := Answers(ParseStream(stream).0);
    got := [];
    assert [] + want == want;
    var p := stream;
    while true
      invariant Reading(p, got, want)
      decreases |p|
    {
      var r := DecodeFrame(p);
      if !r.Got? {
        NoFrame(p, got, want);
        return;
      }
      NextFrame(p, got, want, r.frame, r.rest);
      if r.frame.kind == RESPONSE {
        var a := ReceivePayload(r.frame.payload);
        if a == Broken {
          return;
        }
        if a.Delivers? {
          got := got + [(r.frame.streamID, a.answer)];
        }
      }
      p := r.rest;
    }
  }

  // ---- End to end ----

  lemma Unprefixed(cmd: Byte, raw: Bytes)
    ensures ([cmd] + raw)[0] == cmd && ([cmd] + raw)[1..] == raw
  {
  }

  /** The client gets the answer to the command it was for, if that fits. */
  lemma PayloadArrives(a: Answer, order: seq<Bytes>)
    requires Ordered(a, order) && Addressed(a) && AnswerFits(a)
    ensures Receive(ServerPayload(a, order)) == Delivers(AnswerUsed(a))
  {
    match a
    case OfHash(r) =>
      Unprefixed(r.cmd, Hashes.HashReplyBytes(r, order));
      Hashes.HashReplyComesBack(r, order);
    case OfList(r) =>
      Unprefixed(r.cmd, Lists.ListReplyBytes(r));
      Lists.ListReplyComesBack(r);
    case OfSet(r) =>
      Unprefixed(r.cmd, Sets.SetReplyBytes(r));
      Sets.SetReplyComesBack(r);
    case OfPlain(r) =>
      ResponseComesBack(r);
      assert ResponseBytes(r)[0] == r.status;
  }

  /** What goes over a connection: answers, and frames that are not responses. */
  datatype Traffic = Reply(streamID: nat, flags: Byte, answer: Answer, order: seq<Bytes>) | Other(frame: Frame)

  ghost predicate Sendable(t: Traffic) {
    match t
    case Reply(id, _, a, order) =>
      id < 0x1_0000_0000 && Ordered(a, order) && Addressed(a) && AnswerFits(a) && |ServerPayload(a, order)| <= MAX_PAYLOAD
    case Other(f) => f.kind != RESPONSE && f.streamID < 0x1_0000_0000 && |f.payload| <= MAX_PAYLOAD
  }

  ghost function FrameOf(t: Traffic): Frame
    requires Sendable(t)
  {
    match t
    case Reply(id, flags, a, order) => Frame(id, RESPONSE, flags, ServerPayload(a, order))
    case Other(f) => f
  }

  ghost function FramesOf(ts: seq<Traffic>): (fs: seq<Frame>)
    requires forall t | t in ts :: Sendable(t)
    ensures |fs| == |ts| && forall i | 0 <= i < |fs| :: fs[i] == FrameOf(ts[i])
  {
    if ts == [] then [] else [FrameOf(ts[0])] + FramesOf(ts[1..])
  }

  /** Every answer, in order, on the stream it was sent on. */
  function Sent(ts: seq<Traffic>): seq<(nat, Answer)> {
    if ts == [] then []
    else (if ts[0].Reply? then [(ts[0].streamID, AnswerUsed(ts[0].answer))] else []) + Sent(ts[1..])
  }

  lemma {:induction false} AnswersArrive(ts: seq<Traffic>)
    requires forall t | t in ts :: Sendable(t)
    ensures Answers(FramesOf(ts)) == Sent(ts)
  {
    if ts != [] {
      var fs := FramesOf(ts);
      assert ts[0] in ts && fs[0] == FrameOf(ts[0]) && fs[1..] == FramesOf(ts[1..]);
      AnswersArrive(ts[1..]);
      if ts[0].Reply? {
        PayloadArrives(ts[0].answer, ts[0].order);
      }
    }
  }

  /**
   * Whatever responses and other frames go over a connection, the client's read loop hands out exactly
   * the answers that were sent, each with its command and all its command uses, on its stream, in order.
   */
  lemma ResponsesArrive(ts: seq<Traffic>)
    requires forall t | t in ts :: Sendable(t)
    ensures Answers(ParseStream(Stream(FramesOf(ts))).0) == Sent(ts)
  {
    var fs := FramesOf(ts);
    assert Pow256(4) == 0x1_0000_0000;
    forall f | f in fs ensures f.streamID < Pow256(4) && |f.payload| <= MAX_PAYLOAD {
      var i :| 0 <= i < |fs| && fs[i] == f;
      assert ts[i] in ts && f == FrameOf(ts[i]);
    }
    StreamRoundTrip(fs);
    AnswersArrive(ts);
  }
}
