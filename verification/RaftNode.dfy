/**
 * One Raft node of raft/raft.go as a value: what each event of the event loop does to the
 * node's fields and which messages it hands to the transport.
 *
 * Timers are not part of the value: an election or heartbeat timeout is an event that may
 * happen at any time. `delivered` is everything the node has pushed into its apply channel.
 */
module RaftNode {
  import opened Bytes
  import opened RaftLog

  datatype Role = Follower | Candidate | Leader

  datatype ApplyMsg = ApplyMsg(index: nat, command: Command)

  datatype Message =
    | AppendEntries(src: nat, dst: nat, term: nat, leaderId: nat, prevIndex: nat, prevTerm: nat,
                    entries: seq<Entry>, leaderCommit: nat)
    | AppendReply(src: nat, dst: nat, term: nat, success: bool, lastIndex: nat)
    | RequestVote(src: nat, dst: nat, term: nat, candidate: nat, lastLogIndex: nat, lastLogTerm: nat)
    | VoteReply(src: nat, dst: nat, term: nat, granted: bool)

  datatype Node = Node(
    id: nat, peers: nat,
    term: nat, votedFor: nat, log: seq<Entry>,
    commit: nat, applied: nat, role: Role, leader: nat,
    nextIndex: map<nat, nat>, matchIndex: map<nat, nat>,
    votes: nat, votesNeeded: nat,
    delivered: seq<ApplyMsg>)

  const BATCH := 100
  const MAX_UINT64: nat := 0xFFFF_FFFF_FFFF_FFFF

  function Init(id: nat, peers: nat): Node {
    Node(id, peers, 0, 0, [DUMMY], 0, 0, Follower, 0, map[], map[], 0, 0, [])
  }

  function Min(a: nat, b: nat): nat {
    if a < b then a else b
  }

  /** A Go map read: a missing key reads as zero. */
  function At(m: map<nat, nat>, key: nat): nat {
    if key in m then m[key] else 0
  }

  // ---- State transitions ----

  function BecomeFollower(s: Node, term: nat): Node {
    var s1 := if term > s.term then s.(term := term, votedFor := 0) else s;
    s1.(role := Follower, leader := 0)
  }

  function BecomeCandidate(s: Node): Node {
    s.(role := Candidate, term := s.term + 1, votedFor := s.id, votes := 1,
       votesNeeded := s.peers / 2 + 1)
  }

  /** Node ids are 1 to n. */
  function Ids(n: nat): (ids: set<nat>)
    ensures forall i :: i in ids <==> 1 <= i <= n
    ensures |ids| == n
  {
    if n == 0 then {} else Ids(n - 1) + {n}
  }

  function Others(s: Node): set<nat> {
    Ids(s.peers) - {s.id}
  }

  function BecomeLeader(s: Node): Node {
    s.(role := Leader, leader := s.id,
       nextIndex := map p | p in Others(s) :: LastIndex(s.log) + 1,
       matchIndex := map p | p in Others(s) :: 0)
  }

  // ---- Commit and apply ----

  function Delivery(log: seq<Entry>, applied: nat, commit: nat): seq<ApplyMsg>
    decreases commit - applied
  {
    if applied >= commit then []
    else
      (match Lookup(log, applied + 1)
       case Some(e) => [ApplyMsg(e.index, e.command)]
       case None => [])
      + Delivery(log, applied + 1, commit)
  }

  function ApplyCommitted(s: Node): Node {
    s.(applied := if s.applied < s.commit then s.commit else s.applied,
       delivered := s.delivered + Delivery(s.log, s.applied, s.commit))
  }

  /** The peers known to hold the log up to `n`; the leader itself is counted separately. */
  function Holders(matchIndex: map<nat, nat>, n: nat): set<nat> {
    set p | p in matchIndex && matchIndex[p] >= n
  }

  function CommitScan(s: Node, commit: nat, n: nat): nat
    decreases |s.log| - n
  {
    if Lookup(s.log, n).None? then commit
    else if s.log[n].term != s.term then CommitScan(s, commit, n + 1)
    else if 1 + |Holders(s.matchIndex, n)| > s.peers / 2 then CommitScan(s, n, n + 1)
    else commit
  }

  function AdvanceCommit(s: Node): Node {
    if s.role != Leader then s
    else ApplyCommitted(s.(commit := CommitScan(s, s.commit, s.commit + 1)))
  }

  // ---- Messages a node sends ----

  function AppendEntriesFor(s: Node, peer: nat): Message
    requires peer in s.nextIndex
  {
    var next := s.nextIndex[peer];
    var prev := if next == 0 then MAX_UINT64 else next - 1;
    var prevTerm := match Lookup(s.log, prev) case Some(e) => e.term case None => 0;
    AppendEntries(s.id, peer, s.term, s.id, prev, prevTerm, Sliced(s.log, next, next + BATCH), s.commit)
  }

  function SendTo(s: Node, peer: nat): seq<Message> {
    if peer in s.nextIndex then [AppendEntriesFor(s, peer)] else []
  }

  function BroadcastAppend(s: Node, upto: nat): seq<Message> {
    if upto == 0 then []
    else BroadcastAppend(s, upto - 1) + (if upto == s.id then [] else SendTo(s, upto))
  }

  function VoteRequestFor(s: Node, peer: nat): Message {
    RequestVote(s.id, peer, s.term, s.id, LastIndex(s.log), LastTerm(s.log))
  }

  function BroadcastVote(s: Node, upto: nat): seq<Message> {
    if upto == 0 then []
    else BroadcastVote(s, upto - 1) + (if upto == s.id then [] else [VoteRequestFor(s, upto)])
  }

  // ---- Handlers ----

  /** The log after an accepted AppendEntries: cut behind `prev`, then append, if there is anything to append. */
  function Overwritten(log: seq<Entry>, prev: nat, entries: seq<Entry>): seq<Entry> {
    if |entries| > 0 then Truncated(log, prev + 1) + entries else log
  }

  predicate Consistent(log: seq<Entry>, prev: nat, prevTerm: nat) {
    prev > 0 ==> Lookup(log, prev).Some? && Lookup(log, prev).value.term == prevTerm
  }

  function CommitTo(s: Node, leaderCommit: nat): Node {
    if leaderCommit > s.commit
    then ApplyCommitted(s.(commit := Min(leaderCommit, LastIndex(s.log))))
    else s
  }

  /** The receiver's node after the term checks of an AppendEntries that is not from an older term. */
  function HeardLeader(s: Node, m: Message): Node
    requires m.AppendEntries?
  {
    (if m.term > s.term then BecomeFollower(s, m.term) else s).(leader := m.leaderId, role := Follower)
  }

  function HandleAppendEntries(s: Node, m: Message): (Node, Message)
    requires m.AppendEntries?
  {
    if m.term < s.term then (s, AppendReply(s.id, m.src, s.term, false, 0))
    else
      var s1 := HeardLeader(s, m);
      if !Consistent(s1.log, m.prevIndex, m.prevTerm) then (s1, AppendReply(s.id, m.src, s1.term, false, 0))
      else
        var s2 := CommitTo(s1.(log := Overwritten(s1.log, m.prevIndex, m.entries)), m.leaderCommit);
        (s2, AppendReply(s.id, m.src, s1.term, true, m.prevIndex + |m.entries|))
  }

  function Matched(s: Node, src: nat, last: nat): Node {
    if last > At(s.matchIndex, src)
    then s.(matchIndex := s.matchIndex[src := last], nextIndex := s.nextIndex[src := last + 1])
    else s
  }

  /** After a refused AppendEntries the leader steps one entry back for that peer. */
  function BackedOff(s: Node, src: nat): Node {
    if At(s.nextIndex, src) > 1 then s.(nextIndex := s.nextIndex[src := s.nextIndex[src] - 1]) else s
  }

  function HandleAppendReply(s: Node, m: Message): (Node, seq<Message>)
    requires m.AppendReply?
  {
    if m.term > s.term then (BecomeFollower(s, m.term), [])
    else if m.term < s.term || s.role != Leader then (s, [])
    else if m.success then (AdvanceCommit(Matched(s, m.src, m.lastIndex)), [])
    else
      var s1 := BackedOff(s, m.src);
      (s1, SendTo(s1, m.src))
  }

  predicate UpToDate(lastIndex: nat, lastTerm: nat, log: seq<Entry>) {
    lastTerm > LastTerm(log) || (lastTerm == LastTerm(log) && lastIndex >= LastIndex(log))
  }

  function HandleRequestVote(s: Node, m: Message): (Node, Message)
    requires m.RequestVote?
  {
    if m.term < s.term then (s, VoteReply(s.id, m.src, s.term, false))
    else
      var s1 := if m.term > s.term then BecomeFollower(s, m.term) else s;
      if (s1.votedFor == 0 || s1.votedFor == m.candidate) && UpToDate(m.lastLogIndex, m.lastLogTerm, s1.log)
      then (s1.(votedFor := m.candidate), VoteReply(s.id, m.src, s1.term, true))
      else (s1, VoteReply(s.id, m.src, s1.term, false))
  }

  function HandleVoteReply(s: Node, m: Message): Node
    requires m.VoteReply?
  {
    if m.term > s.term then BecomeFollower(s, m.term)
    else if m.term < s.term || s.role != Candidate then s
    else if !m.granted then s
    else
      var s1 := s.(votes := s.votes + 1);
      if s1.votes >= s1.votesNeeded then BecomeLeader(s1) else s1
  }

  function HandleElectionTimeout(s: Node): (Node, seq<Message>) {
    if s.role == Leader then (s, [])
    else
      var s1 := BecomeCandidate(s);
      (s1, BroadcastVote(s1, s1.peers))
  }

  function HandleHeartbeatTimeout(s: Node): seq<Message> {
    if s.role != Leader then [] else BroadcastAppend(s, s.peers)
  }

  function Proposed(s: Node, command: Command): Node {
    s.(log := s.log + [Entry(LastIndex(s.log) + 1, s.term, command)])
  }

  function HandlePropose(s: Node, command: Command): (Node, seq<Message>) {
    if s.role != Leader then (s, [])
    else
      var s1 := Proposed(s, command);
      (AdvanceCommit(s1), BroadcastAppend(s1, s1.peers))
  }

  function HandleMessage(s: Node, m: Message): (Node, seq<Message>) {
    match m
    case AppendEntries(_, _, _, _, _, _, _, _) =>
      var (s1, reply) := HandleAppendEntries(s, m); (s1, [reply])
    case AppendReply(_, _, _, _, _) => HandleAppendReply(s, m)
    case RequestVote(_, _, _, _, _, _) =>
      var (s1, reply) := HandleRequestVote(s, m); (s1, [reply])
    case VoteReply(_, _, _, _) => (HandleVoteReply(s, m), [])
  }
}
