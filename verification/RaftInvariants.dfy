/** What every event keeps, however messages are delayed, lost or reordered. */
module RaftInvariants {
  import opened RaftLog
  import opened RaftNode
  import opened RaftProtocol
  import opened RaftCompleteness
  import opened RaftCluster

  // ---- The invariant ----

  predicate CoresOk(c: Cluster) {
    c.proto.nodes.Keys == c.nodes.Keys && forall i | i in c.nodes :: c.proto.nodes[i] == CoreOf(c.nodes[i])
  }

  /** Commands come out of the apply channel with indices 1, 2, 3 and so on. */
  predicate DeliversInOrder(s: Node) {
    |s.delivered| == s.applied && s.commit <= s.applied
    && forall j | 0 <= j < |s.delivered| :: s.delivered[j].index == j + 1
  }

  predicate LeaderOk(p: Proto, s: Node) {
    s.role == Leader ==>
      s.nextIndex.Keys == Others(s) && s.matchIndex.Keys == Others(s)
      && forall q | q in Others(s) :: PeerOk(p, s.term, |s.log|, q, s.nextIndex[q], s.matchIndex[q])
  }

  /** What a leader believes of a peer: where to go on sending, and what the peer has acknowledged. */
  predicate PeerOk(p: Proto, term: nat, length: nat, q: nat, next: nat, matched: nat) {
    1 <= next <= length && AcksUpTo(q, term, matched) <= p.acks
  }

  /** The vote counter counts distinct nodes, each of which has voted for this candidate in this term. */
  predicate CandidateOk(p: Proto, s: Node, tally: set<nat>) {
    s.role == Candidate ==>
      s.votes == |tally| && s.votesNeeded == p.n / 2 + 1 && tally <= Ids(p.n)
      && forall v | v in tally :: Vote(v, s.term, s.id) in p.votes
  }

  predicate NodeOk(p: Proto, i: nat, s: Node, tally: set<nat>) {
    s.id == i && s.peers == p.n && DeliversInOrder(s) && LeaderOk(p, s) && CandidateOk(p, s, tally)
  }

  predicate MsgOk(p: Proto, m: Message) {
    match m
    case AppendEntries(src, dst, term, leaderId, prev, prevTerm, entries, commit) =>
      src != dst && term in p.reigns && p.reigns[term].leader == src
      && IsStretch(p.reigns[term].log, prev, entries) && p.reigns[term].log[prev].term == prevTerm
    case AppendReply(src, dst, term, success, last) =>
      src != dst && src in p.nodes && (success ==> term in p.reigns && AcksUpTo(src, term, last) <= p.acks)
    case RequestVote(src, dst, term, candidate, lastIndex, lastTerm) =>
      src != dst && src in p.nodes && candidate == src && p.nodes[src].term >= term
      && (p.nodes[src].term == term && p.nodes[src].role == Candidate ==>
            lastIndex == LastIndex(p.nodes[src].log) && lastTerm == LastTerm(p.nodes[src].log))
    case VoteReply(src, dst, term, granted) =>
      src != dst && (granted ==> Vote(src, term, dst) in p.votes)
  }

  predicate SentOk(c: Cluster) {
    forall k | 0 <= k < |c.sent| :: MsgOk(c.proto, c.sent[k])
  }

  /** The one vote a message may still bring about or carry. */
  function Token(m: Message): set<Vote> {
    match m
    case RequestVote(src, dst, term, _, _, _) => {Vote(dst, term, src)}
    case VoteReply(src, dst, term, granted) => if granted then {Vote(src, term, dst)} else {}
    case _ => {}
  }

  predicate Pending(c: Cluster, k: nat, x: Vote) {
    k < |c.sent| && k !in c.taken && x in Token(c.sent[k])
  }

  /** No vote is on its way twice, and none that is on its way has been counted. */
  ghost predicate TokensOk(c: Cluster) {
    (forall k: nat, l: nat, x | Pending(c, k, x) && Pending(c, l, x) :: k == l)
    && (forall k: nat, x | Pending(c, k, x) && x.candidate in c.nodes ::
          c.nodes[x.candidate].term == x.term && c.nodes[x.candidate].role == Candidate ==>
            x.voter !in Tally(c, x.candidate))
  }

  predicate AllNodesOk(c: Cluster) {
    forall i | i in c.nodes :: NodeOk(c.proto, i, c.nodes[i], Tally(c, i))
  }

  predicate TakenOk(c: Cluster) {
    forall a | a in c.taken :: a < |c.sent|
  }

  ghost predicate ClusterOk(c: Cluster) {
    CoresOk(c) && Basic(c.proto) && AllNodesOk(c) && SentOk(c) && TokensOk(c) && TakenOk(c)
  }

  // ---- Time only goes forward ----

  predicate Forward(p: Proto, p': Proto) {
    Later(p, p') && p.votes <= p'.votes
    && (forall t | t in p.reigns :: t in p'.reigns && p'.reigns[t].leader == p.reigns[t].leader && p.reigns[t].log <= p'.reigns[t].log)
    && (forall v | v in p.nodes ::
          p'.nodes[v].term == p.nodes[v].term && p'.nodes[v].role == Candidate ==>
            p.nodes[v].role == Candidate && p'.nodes[v].log == p.nodes[v].log)
  }

  lemma MsgStays(p: Proto, p': Proto, m: Message)
    requires MsgOk(p, m) && Forward(p, p')
    ensures MsgOk(p', m)
  {
  }

  lemma NodeStays(p: Proto, p': Proto, i: nat, s: Node, tally: set<nat>)
    requires NodeOk(p, i, s, tally) && Forward(p, p')
    ensures NodeOk(p', i, s, tally)
  {
  }

  /** Hearing of a leader's term: adopt it if it is newer, otherwise stop being a candidate. */
  function Heard(p: Proto, v: nat, term: nat): Proto
    requires v in p.nodes
  {
    if term > p.nodes[v].term then Observe(p, v, term)
    else if p.nodes[v].role != Follower then StepDown(p, v)
    else p
  }

  lemma ObserveIsForward(p: Proto, v: nat, term: nat)
    requires v in p.nodes && term > p.nodes[v].term
    ensures Forward(p, Observe(p, v, term))
  {
  }

  lemma HeardKeepsBasic(p: Proto, v: nat, term: nat)
    requires Basic(p) && v in p.nodes && (term <= p.nodes[v].term ==> p.nodes[v].role != Leader)
    ensures Basic(Heard(p, v, term))
  {
    if term > p.nodes[v].term {
      ObserveKeepsBasic(p, v, term);
    } else if p.nodes[v].role != Follower {
      StepDownKeepsBasic(p, v);
    }
  }

  lemma HeardIsForward(p: Proto, v: nat, term: nat)
    requires v in p.nodes
    ensures Forward(p, Heard(p, v, term))
  {
  }

  lemma HeardKeepsComplete(p: Proto, v: nat, term: nat)
    requires VotesOk(p) && AcksOk(p) && Complete(p) && v in p.nodes
    ensures Complete(Heard(p, v, term))
  {
    if term > p.nodes[v].term {
      ObserveKeepsComplete(p, v, term);
    } else if p.nodes[v].role != Follower {
      StepDownKeepsComplete(p, v);
    }
  }

  lemma ForwardTrans(p: Proto, q: Proto, r: Proto)
    requires Forward(p, q) && Forward(q, r)
    ensures Forward(p, r)
  {
  }

  lemma StandIsForward(p: Proto, c: nat)
    requires c in p.nodes
    ensures Forward(p, Stand(p, c))
  {
  }

  lemma GrantIsForward(p: Proto, v: nat, c: nat)
    requires v in p.nodes
    ensures Forward(p, Grant(p, v, c))
  {
  }

  lemma ElectIsForward(p: Proto, c: nat, voters: set<nat>)
    requires c in p.nodes && |p.nodes[c].log| > 0 && p.nodes[c].term !in p.reigns
    ensures Forward(p, Elect(p, c, voters))
  {
  }

  lemma ExtendIsForward(p: Proto, c: nat, command: Command)
    requires ReignsOk(p) && CanExtend(p, c)
    ensures p.nodes[c].term in p.reigns && Forward(p, Extend(p, c, command))
  {
    assert ReignOk(p, p.nodes[c].term);
  }

  lemma AcceptIsForward(p: Proto, v: nat, prev: nat, entries: seq<Entry>)
    requires v in p.nodes && p.nodes[v].role == Follower
    ensures Forward(p, Accept(p, v, prev, entries))
  {
    AcceptIsLater(p, Accept(p, v, prev, entries), v, prev, entries);
  }

  // ---- Each handler is a few of the protocol's steps ----

  lemma AdvanceKeepsCore(s: Node)
    ensures CoreOf(AdvanceCommit(s)) == CoreOf(s)
  {
  }

  lemma TimeoutIsStand(p: Proto, i: nat, s: Node, tally: set<nat>)
    requires i in p.nodes && p.nodes[i] == CoreOf(s) && s.id == i && i > 0 && s.role != Leader
    ensures var (s', out) := HandleElectionTimeout(s); Record(p, i, s, s', out, tally) == Stand(p, i)
  {
    var (s', out) := HandleElectionTimeout(s);
    NoReplyAmongRequests(s', s'.peers);
    assert |out| == 1 ==> out[0] in out;
  }

  lemma NoReplyAmongRequests(s: Node, upto: nat)
    ensures forall m | m in BroadcastVote(s, upto) :: m.RequestVote?
  {
  }

  lemma NoReplyAmongAppends(s: Node, upto: nat)
    ensures forall m | m in BroadcastAppend(s, upto) :: m.AppendEntries?
  {
  }

  lemma HeartbeatIsNothing(p: Proto, i: nat, s: Node, tally: set<nat>)
    requires i in p.nodes && p.nodes[i] == CoreOf(s)
    ensures Record(p, i, s, s, HandleHeartbeatTimeout(s), tally) == p
  {
    NoReplyAmongAppends(s, s.peers);
    var out := HandleHeartbeatTimeout(s);
    assert |out| == 1 ==> out[0] in out;
    assert p.nodes[i := CoreOf(s)] == p.nodes;
  }

  lemma ProposeIsExtend(p: Proto, i: nat, s: Node, command: Command, tally: set<nat>)
    requires ReignsOk(p) && NodesOk(p) && i in p.nodes && p.nodes[i] == CoreOf(s) && s.role == Leader
    ensures s.term in p.reigns
    ensures var (s', out) := HandlePropose(s, command); Record(p, i, s, s', out, tally) == Extend(p, i, command)
  {
    var (s', out) := HandlePropose(s, command);
    var s1 := Proposed(s, command);
    AdvanceKeepsCore(s1);
    NoReplyAmongAppends(s1, s1.peers);
    assert ReignOk(p, s.term);
    assert LogOk(s.log, s.term);
  }

  lemma AppendReplyIsHearing(p: Proto, i: nat, s: Node, m: Message, tally: set<nat>)
    requires i in p.nodes && p.nodes[i] == CoreOf(s) && m.AppendReply?
    ensures var (s', out) := HandleAppendReply(s, m);
            Record(p, i, s, s', out, tally) == if m.term > s.term then Observe(p, i, m.term) else p
  {
    var (s', out) := HandleAppendReply(s, m);
    if m.term == s.term && s.role == Leader && m.success {
      AdvanceKeepsCore(Matched(s, m.src, m.lastIndex));
    }
  }

  lemma VoteReplyIsElect(p: Proto, i: nat, s: Node, m: Message, tally: set<nat>)
    requires i in p.nodes && p.nodes[i] == CoreOf(s) && m.VoteReply? && |s.log| > 0
    ensures var s' := HandleVoteReply(s, m);
            Record(p, i, s, s', [], tally) ==
              if m.term > s.term then Observe(p, i, m.term)
              else if s.role == Candidate && s'.role == Leader then Elect(p, i, tally)
              else p
  {
  }

  lemma RequestVoteIsGrant(p: Proto, i: nat, s: Node, m: Message, tally: set<nat>)
    requires i in p.nodes && p.nodes[i] == CoreOf(s) && m.RequestVote? && m.candidate > 0
    ensures var (s', reply) := HandleRequestVote(s, m);
            var p1 := if m.term > s.term then Observe(p, i, m.term) else p;
            Record(p, i, s, s', [reply], tally) ==
              if Voted(s, s') then Grant(p1, i, m.candidate) else p1
  {
  }

  lemma AppendEntriesIsHeard(p: Proto, i: nat, s: Node, m: Message, tally: set<nat>)
    requires i in p.nodes && p.nodes[i] == CoreOf(s) && m.AppendEntries?
    requires m.term < s.term || !Consistent(s.log, m.prevIndex, m.prevTerm)
    ensures var (s', reply) := HandleAppendEntries(s, m);
            Record(p, i, s, s', [reply], tally) == if m.term < s.term then p else Heard(p, i, m.term)
  {
    assert p.nodes[i := CoreOf(s)] == p.nodes;
  }

  lemma CommitToKeepsCore(s: Node, commit: nat)
    ensures CoreOf(CommitTo(s, commit)) == CoreOf(s)
  {
  }

  lemma AcceptedCore(s: Node, m: Message)
    requires m.AppendEntries? && m.term >= s.term && Consistent(s.log, m.prevIndex, m.prevTerm)
    ensures var (s', reply) := HandleAppendEntries(s, m);
            && CoreOf(s') == Core(m.term, if m.term > s.term then 0 else s.votedFor, Follower,
                                  Overwritten(s.log, m.prevIndex, m.entries))
            && reply == AppendReply(s.id, m.src, m.term, true, m.prevIndex + |m.entries|)
  {
    var s1 := HeardLeader(s, m);
    CommitToKeepsCore(s1.(log := Overwritten(s1.log, m.prevIndex, m.entries)), m.leaderCommit);
  }

  lemma AppendEntriesIsAccept(p: Proto, i: nat, s: Node, m: Message, tally: set<nat>)
    requires i in p.nodes && p.nodes[i] == CoreOf(s) && m.AppendEntries?
    requires m.term >= s.term && Consistent(s.log, m.prevIndex, m.prevTerm)
    ensures var (s', reply) := HandleAppendEntries(s, m);
            Record(p, i, s, s', [reply], tally) == Accept(Heard(p, i, m.term), i, m.prevIndex, m.entries)
  {
    AcceptedCore(s, m);
    var p1 := Heard(p, i, m.term);
    assert p1.nodes[i] == Core(m.term, if m.term > s.term then 0 else s.votedFor, Follower, s.log);
    var (s', reply) := HandleAppendEntries(s, m);
    assert p1.nodes[i := CoreOf(s')] == p.nodes[i := CoreOf(s')];
  }
}
