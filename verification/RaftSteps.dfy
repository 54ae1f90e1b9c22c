/** Every event keeps ClusterOk: one lemma a handler, then one for every event and every run. */
module RaftSteps {
  import opened Bytes
  import opened RaftLog
  import opened RaftNode
  import opened RaftProtocol
  import opened RaftCompleteness
  import opened RaftCluster
  import opened RaftInvariants

  // ---- Commit and apply ----

  /** Delivery of committed entries continues the count where it stood. */
  lemma {:induction false} DeliveryInOrder(log: seq<Entry>, applied: nat, commit: nat)
    requires Shape(log) && (commit < |log| || commit <= applied)
    ensures var d := Delivery(log, applied, commit);
            && |d| == (if applied < commit then commit - applied else 0)
            && forall j | 0 <= j < |d| :: d[j].index == applied + 1 + j
    decreases commit - applied
  {
    if applied < commit {
      DeliveryInOrder(log, applied + 1, commit);
    }
  }

  lemma ApplyKeepsOrder(s: Node, commit: nat)
    requires Shape(s.log) && DeliversInOrder(s) && (commit < |s.log| || commit <= s.applied)
    ensures DeliversInOrder(ApplyCommitted(s.(commit := commit)))
  {
    DeliveryInOrder(s.log, s.applied, commit);
  }

  lemma {:induction false} ScanStaysInLog(s: Node, commit: nat, n: nat)
    requires n > 0
    ensures var r := CommitScan(s, commit, n); r == commit || n <= r < |s.log|
    decreases |s.log| - n
  {
    if Lookup(s.log, n).Some? {
      if s.log[n].term != s.term {
        ScanStaysInLog(s, commit, n + 1);
      } else if 1 + |Holders(s.matchIndex, n)| > s.peers / 2 {
        ScanStaysInLog(s, n, n + 1);
      }
    }
  }

  lemma AdvanceKeepsOrder(s: Node)
    requires Shape(s.log) && DeliversInOrder(s)
    ensures DeliversInOrder(AdvanceCommit(s))
  {
    ScanStaysInLog(s, s.commit, s.commit + 1);
    ApplyKeepsOrder(s, CommitScan(s, s.commit, s.commit + 1));
  }

  lemma CommitToKeepsOrder(s: Node, leaderCommit: nat)
    requires Shape(s.log) && DeliversInOrder(s)
    ensures DeliversInOrder(CommitTo(s, leaderCommit))
  {
    if leaderCommit > s.commit {
      ApplyKeepsOrder(s, Min(leaderCommit, LastIndex(s.log)));
    }
  }

  lemma IdPositive(p: Proto, i: nat)
    requires IdsOk(p) && i in p.nodes
    ensures 1 <= i <= p.n
  {
  }

  predicate Mirrors(p: Proto, i: nat, s: Node) {
    i in p.nodes && p.nodes[i] == CoreOf(s) && s.id == i
  }

  // ---- Sending ----

  lemma SendingIsOk(p: Proto, i: nat, s: Node, q: nat)
    requires ReignsOk(p) && Mirrors(p, i, s) && s.role == Leader
    requires Shape(s.log) && q in s.nextIndex && q != i && 1 <= s.nextIndex[q] <= |s.log|
    ensures MsgOk(p, AppendEntriesFor(s, q))
  {
    assert ReignOk(p, s.term);
    var next := s.nextIndex[q];
    var entries := Sliced(s.log, next, next + BATCH);
    assert IsStretch(s.log, next - 1, entries);
  }

  lemma {:induction false} BroadcastIsOk(p: Proto, i: nat, s: Node, upto: nat)
    requires ReignsOk(p) && Mirrors(p, i, s) && s.role == Leader
    requires Shape(s.log) && forall q | q in s.nextIndex :: 1 <= s.nextIndex[q] <= |s.log|
    ensures forall m | m in BroadcastAppend(s, upto) :: MsgOk(p, m)
  {
    if upto > 0 {
      BroadcastIsOk(p, i, s, upto - 1);
      if upto != s.id && upto in s.nextIndex {
        SendingIsOk(p, i, s, upto);
      }
    }
  }

  lemma {:induction false} RequestsAreOk(p: Proto, i: nat, s: Node, upto: nat)
    requires Mirrors(p, i, s)
    ensures forall m | m in BroadcastVote(s, upto) :: MsgOk(p, m)
  {
    if upto > 0 {
      RequestsAreOk(p, i, s, upto - 1);
    }
  }

  predicate AllOk(p: Proto, out: seq<Message>) {
    forall m | m in out :: MsgOk(p, m)
  }

  // ---- Election timeout ----

  lemma TimeoutProto(p: Proto, i: nat, s: Node)
    requires Basic(p) && Mirrors(p, i, s) && s.role != Leader
    ensures var (s', out) := HandleElectionTimeout(s);
            var p' := Record(p, i, s, s', out, {i});
            Basic(p') && Forward(p, p')
  {
    IdPositive(p, i);
    TimeoutIsStand(p, i, s, {i});
    StandKeepsBasic(p, i);
    StandIsForward(p, i);
  }

  lemma TimeoutNode(p: Proto, i: nat, s: Node, tally: set<nat>)
    requires IdsOk(p) && Mirrors(p, i, s) && NodeOk(p, i, s, tally) && s.role != Leader
    ensures var (s', out) := HandleElectionTimeout(s);
            var p' := Record(p, i, s, s', out, {i});
            NodeOk(p', i, s', {i}) && AllOk(p', out)
  {
    IdPositive(p, i);
    TimeoutIsStand(p, i, s, {i});
    var (s', out) := HandleElectionTimeout(s);
    RequestsAreOk(Stand(p, i), i, s', s'.peers);
  }

  // ---- Heartbeat timeout ----

  lemma HeartbeatMsgs(p: Proto, i: nat, s: Node)
    requires NodesOk(p) && ReignsOk(p) && Mirrors(p, i, s) && LeaderOk(p, s)
    ensures AllOk(p, HandleHeartbeatTimeout(s))
  {
    if s.role == Leader {
      assert LogOk(s.log, s.term);
      BroadcastIsOk(p, i, s, s.peers);
    }
  }

  // ---- Propose ----

  lemma ProposeProto(p: Proto, i: nat, s: Node, command: Command, tally: set<nat>)
    requires Basic(p) && Mirrors(p, i, s) && s.role == Leader
    ensures var (s', out) := HandlePropose(s, command);
            var p' := Record(p, i, s, s', out, tally);
            Basic(p') && Forward(p, p')
  {
    ProposeIsExtend(p, i, s, command, tally);
    ExtendKeepsBasic(p, i, command);
    ExtendIsForward(p, i, command);
  }

  lemma ProposeNode(p: Proto, p': Proto, i: nat, s: Node, command: Command, tally: set<nat>)
    requires LogOk(s.log, s.term) && NodeOk(p, i, s, tally) && s.role == Leader && Forward(p, p')
    ensures NodeOk(p', i, HandlePropose(s, command).0, tally)
  {
    ExtendedOk(s.log, s.term, command);
    var s1 := Proposed(s, command);
    AdvanceKeepsOrder(s1);
  }

  lemma ProposeMsgs(p': Proto, i: nat, s: Node, command: Command)
    requires NodesOk(p') && ReignsOk(p') && s.role == Leader && Mirrors(p', i, HandlePropose(s, command).0)
    requires forall q | q in s.nextIndex :: 1 <= s.nextIndex[q] <= |s.log|
    ensures AllOk(p', HandlePropose(s, command).1)
  {
    var s1 := Proposed(s, command);
    AdvanceKeepsCore(s1);
    assert LogOk(s1.log, s1.term);
    BroadcastIsOk(p', i, s1, s1.peers);
  }

  // ---- AppendEntries reply ----

  lemma AppendReplyProto(p: Proto, i: nat, s: Node, m: Message, tally: set<nat>)
    requires Basic(p) && Mirrors(p, i, s) && m.AppendReply?
    ensures var (s', out) := HandleAppendReply(s, m);
            var p' := Record(p, i, s, s', out, tally);
            Basic(p') && Forward(p, p')
  {
    AppendReplyIsHearing(p, i, s, m, tally);
    if m.term > s.term {
      ObserveKeepsBasic(p, i, m.term);
      ObserveIsForward(p, i, m.term);
    }
  }

  lemma MatchedIsInLog(p: Proto, i: nat, s: Node, src: nat, last: nat)
    requires ReignsOk(p) && AcksOk(p) && Mirrors(p, i, s) && s.role == Leader
    requires AcksUpTo(src, s.term, last) <= p.acks && last > 0
    ensures last < |s.log|
  {
    assert Ack(src, s.term, last) in p.acks;
    assert AckOk(p, Ack(src, s.term, last));
    assert ReignOk(p, s.term);
  }

  lemma MatchedKeepsLeader(p: Proto, i: nat, s: Node, src: nat, last: nat)
    requires ReignsOk(p) && AcksOk(p) && Mirrors(p, i, s) && LeaderOk(p, s) && s.role == Leader
    requires src in Others(s) && AcksUpTo(src, s.term, last) <= p.acks
    ensures LeaderOk(p, Matched(s, src, last))
  {
    if last > 0 {
      MatchedIsInLog(p, i, s, src, last);
    }
    MatchedLeader(p, s, src, last);
  }

  lemma MatchedMaps(s: Node, src: nat, last: nat)
    requires s.nextIndex.Keys == Others(s) && s.matchIndex.Keys == Others(s) && src in Others(s)
    requires Matched(s, src, last) != s
    ensures
      var s' := Matched(s, src, last);
      && Others(s') == Others(s) == s'.nextIndex.Keys == s'.matchIndex.Keys && s'.role == s.role && s'.term == s.term && s'.log == s.log
      && s'.matchIndex == s.matchIndex[src := last] && s'.nextIndex == s.nextIndex[src := last + 1]
  {
    assert s.nextIndex[src := last + 1].Keys == s.nextIndex.Keys + {src};
    assert s.matchIndex[src := last].Keys == s.matchIndex.Keys + {src};
  }

  lemma MatchedLeader(p: Proto, s: Node, src: nat, last: nat)
    requires LeaderOk(p, s) && s.role == Leader && src in Others(s) && AcksUpTo(src, s.term, last) <= p.acks
    requires last == 0 || last < |s.log|
    ensures LeaderOk(p, Matched(s, src, last))
  {
    var s' := Matched(s, src, last);
    if s' != s {
      MatchedMaps(s, src, last);
      forall q | q in Others(s) ensures PeerOk(p, s.term, |s.log|, q, s'.nextIndex[q], s'.matchIndex[q]) {
        assert PeerOk(p, s.term, |s.log|, q, s.nextIndex[q], s.matchIndex[q]);
      }
    }
  }

  lemma AdvanceKeepsNode(p: Proto, i: nat, s: Node, tally: set<nat>)
    requires Shape(s.log) && NodeOk(p, i, s, tally)
    ensures NodeOk(p, i, AdvanceCommit(s), tally)
  {
    AdvanceKeepsOrder(s);
  }

  lemma BackedOffKeepsLeader(p: Proto, s: Node, src: nat)
    requires LeaderOk(p, s) && s.role == Leader && src in Others(s)
    ensures LeaderOk(p, BackedOff(s, src))
  {
  }

  lemma AppendReplyNode(p: Proto, i: nat, s: Node, m: Message, tally: set<nat>)
    requires Shape(s.log) && NodeOk(p, i, s, tally) && m.AppendReply?
    requires s.role == Leader && m.term == s.term ==>
               LeaderOk(p, if m.success then Matched(s, m.src, m.lastIndex) else BackedOff(s, m.src))
    ensures NodeOk(p, i, HandleAppendReply(s, m).0, tally)
  {
    if m.term == s.term && s.role == Leader {
      if m.success {
        AdvanceKeepsNode(p, i, Matched(s, m.src, m.lastIndex), tally);
      } else {
        assert HandleAppendReply(s, m).0 == BackedOff(s, m.src);
      }
    } else if m.term > s.term {
      assert HandleAppendReply(s, m).0 == BecomeFollower(s, m.term);
    }
  }

  lemma ReplierIsPeer(p: Proto, i: nat, s: Node, m: Message)
    requires IdsOk(p) && Mirrors(p, i, s) && s.peers == p.n && m.AppendReply? && MsgOk(p, m) && m.dst == i
    ensures m.src in Others(s)
  {
  }

  lemma AppendReplyMsgs(p: Proto, i: nat, s: Node, m: Message)
    requires ReignsOk(p) && Mirrors(p, i, s) && Shape(s.log) && LeaderOk(p, s)
    requires m.AppendReply? && m.src != i
    ensures AllOk(p, HandleAppendReply(s, m).1)
  {
    if m.term == s.term && s.role == Leader && !m.success {
      var s1 := HandleAppendReply(s, m).0;
      if m.src in s1.nextIndex {
        SendingIsOk(p, i, s1, m.src);
      }
    }
  }

  // ---- Vote reply ----

  predicate Counts(s: Node, m: Message) {
    m.VoteReply? && m.granted && m.term == s.term && s.role == Candidate
  }

  lemma VoterIsId(p: Proto, x: Vote)
    requires VotesOk(p) && IdsOk(p) && x in p.votes
    ensures x.voter in Ids(p.n)
  {
    assert VoteOk(p, x);
  }

  lemma CountedIsQuorum(p: Proto, i: nat, s: Node, m: Message, tally: set<nat>)
    requires Mirrors(p, i, s) && CandidateOk(p, s, tally)
    requires Counts(s, m) && MsgOk(p, m) && m.dst == i && m.src !in tally && m.src in Ids(p.n)
    ensures tally + {m.src} <= Ids(p.n) && |tally + {m.src}| == s.votes + 1
    ensures forall v | v in tally + {m.src} :: Vote(v, s.term, i) in p.votes
    ensures HandleVoteReply(s, m).role == Leader ==> CanElect(p, i, tally + {m.src})
  {
  }

  lemma VoteReplyProto(p: Proto, i: nat, s: Node, m: Message, tally: set<nat>)
    requires Basic(p) && Mirrors(p, i, s) && CandidateOk(p, s, tally) && m.VoteReply? && MsgOk(p, m) && m.dst == i
    requires Counts(s, m) ==> m.src !in tally
    ensures var tally' := if Counts(s, m) then tally + {m.src} else tally;
            var p' := Record(p, i, s, HandleVoteReply(s, m), [], tally');
            Basic(p') && Forward(p, p')
  {
    var tally' := if Counts(s, m) then tally + {m.src} else tally;
    VoteReplyIsElect(p, i, s, m, tally');
    if m.term > s.term {
      ObserveKeepsBasic(p, i, m.term);
      ObserveIsForward(p, i, m.term);
    } else if Counts(s, m) && HandleVoteReply(s, m).role == Leader {
      VoterIsId(p, Vote(m.src, m.term, i));
      CountedIsQuorum(p, i, s, m, tally);
      ElectedTermIsNew(p, i, tally');
      ElectKeepsBasic(p, i, tally');
      ElectIsForward(p, i, tally');
    }
  }

  lemma VoteReplyNode(p: Proto, i: nat, s: Node, m: Message, tally: set<nat>)
    requires Mirrors(p, i, s) && Shape(s.log) && NodeOk(p, i, s, tally)
    requires m.VoteReply? && MsgOk(p, m) && m.dst == i && (Counts(s, m) ==> m.src !in tally && m.src in Ids(p.n))
    ensures NodeOk(p, i, HandleVoteReply(s, m), if Counts(s, m) then tally + {m.src} else tally)
  {
    if Counts(s, m) {
      CountedIsQuorum(p, i, s, m, tally);
    }
  }

  // ---- RequestVote ----

  lemma RequestVoteProto(p: Proto, i: nat, s: Node, m: Message, tally: set<nat>)
    requires Basic(p) && Mirrors(p, i, s) && m.RequestVote? && MsgOk(p, m) && m.dst == i
    ensures var (s', reply) := HandleRequestVote(s, m);
            var p' := Record(p, i, s, s', [reply], tally);
            Basic(p') && Forward(p, p')
  {
    IdPositive(p, m.src);
    RequestVoteIsGrant(p, i, s, m, tally);
    ObservedForVote(p, i, s, m);
    if Voted(s, HandleRequestVote(s, m).0) {
      GrantedForVote(p, i, s, m);
    }
  }

  lemma ObservedForVote(p: Proto, i: nat, s: Node, m: Message)
    requires Basic(p) && Mirrors(p, i, s) && m.RequestVote?
    ensures
      var p1 := if m.term > s.term then Observe(p, i, m.term) else p;
      Basic(p1) && Forward(p, p1)
  {
    if m.term > s.term {
      ObserveKeepsBasic(p, i, m.term);
      ObserveIsForward(p, i, m.term);
    }
  }

  lemma CanGrantForVote(p: Proto, i: nat, s: Node, m: Message)
    requires Mirrors(p, i, s) && m.RequestVote? && MsgOk(p, m) && m.dst == i && m.src > 0
    requires Voted(s, HandleRequestVote(s, m).0)
    ensures CanGrant(if m.term > s.term then Observe(p, i, m.term) else p, i, m.src)
  {
  }

  lemma GrantedForVote(p: Proto, i: nat, s: Node, m: Message)
    requires Basic(p) && Mirrors(p, i, s) && m.RequestVote? && MsgOk(p, m) && m.dst == i && m.src > 0
    requires Voted(s, HandleRequestVote(s, m).0)
    ensures
      var p1 := if m.term > s.term then Observe(p, i, m.term) else p;
      Basic(Grant(p1, i, m.src)) && Forward(p, Grant(p1, i, m.src))
  {
    var p1 := if m.term > s.term then Observe(p, i, m.term) else p;
    ObservedForVote(p, i, s, m);
    CanGrantForVote(p, i, s, m);
    GrantKeepsBasic(p1, i, m.src);
    GrantIsForward(p1, i, m.src);
    ForwardTrans(p, p1, Grant(p1, i, m.src));
  }

  lemma RequestVoteNode(p: Proto, i: nat, s: Node, m: Message, tally: set<nat>)
    requires VotesOk(p) && Mirrors(p, i, s) && NodeOk(p, i, s, tally)
    requires m.RequestVote? && MsgOk(p, m) && m.dst == i && m.src > 0
    ensures var (s', reply) := HandleRequestVote(s, m);
            var p' := Record(p, i, s, s', [reply], tally);
            NodeOk(p, i, s', tally) && MsgOk(p', reply)
  {
    VoterStaysOk(p, i, s, m, tally);
    VoteIsRecorded(p, i, s, m, tally);
  }

  lemma VoterStaysOk(p: Proto, i: nat, s: Node, m: Message, tally: set<nat>)
    requires NodeOk(p, i, s, tally) && m.RequestVote?
    ensures NodeOk(p, i, HandleRequestVote(s, m).0, tally)
  {
  }

  lemma VoteIsRecorded(p: Proto, i: nat, s: Node, m: Message, tally: set<nat>)
    requires VotesOk(p) && Mirrors(p, i, s) && m.RequestVote? && MsgOk(p, m) && m.dst == i && m.src > 0
    ensures
      var (s', reply) := HandleRequestVote(s, m);
      MsgOk(Record(p, i, s, s', [reply], tally), reply)
  {
  }

  // ---- AppendEntries ----

  lemma LeaderHearsNoOther(p: Proto, i: nat, s: Node, m: Message)
    requires ReignsOk(p) && Mirrors(p, i, s) && m.AppendEntries? && MsgOk(p, m) && m.dst == i
    requires m.term == s.term
    ensures s.role != Leader
  {
  }

  lemma HeardProto(p: Proto, i: nat, s: Node, m: Message)
    requires Basic(p) && Mirrors(p, i, s) && m.AppendEntries? && MsgOk(p, m) && m.dst == i && m.term >= s.term
    ensures Basic(Heard(p, i, m.term)) && Forward(p, Heard(p, i, m.term))
  {
    if m.term == s.term {
      LeaderHearsNoOther(p, i, s, m);
    }
    HeardKeepsBasic(p, i, m.term);
    HeardIsForward(p, i, m.term);
  }

  lemma AppendEntriesProto(p: Proto, i: nat, s: Node, m: Message, tally: set<nat>)
    requires Basic(p) && Mirrors(p, i, s) && m.AppendEntries? && MsgOk(p, m) && m.dst == i
    ensures var (s', reply) := HandleAppendEntries(s, m);
            var p' := Record(p, i, s, s', [reply], tally);
            Basic(p') && Forward(p, p')
  {
    if m.term >= s.term {
      HeardProto(p, i, s, m);
    }
    if m.term < s.term || !Consistent(s.log, m.prevIndex, m.prevTerm) {
      AppendEntriesIsHeard(p, i, s, m, tally);
    } else {
      AppendEntriesIsAccept(p, i, s, m, tally);
      HeardCanAccept(p, i, s, m);
      AcceptedProto(p, Heard(p, i, m.term), i, m);
    }
  }

  lemma HeardCanAccept(p: Proto, i: nat, s: Node, m: Message)
    requires Mirrors(p, i, s) && m.AppendEntries? && MsgOk(p, m)
    requires m.term >= s.term && Consistent(s.log, m.prevIndex, m.prevTerm)
    ensures CanAccept(Heard(p, i, m.term), i, m.prevIndex, m.entries)
  {
  }

  lemma AcceptedProto(p: Proto, p1: Proto, i: nat, m: Message)
    requires Basic(p1) && Forward(p, p1) && m.AppendEntries? && CanAccept(p1, i, m.prevIndex, m.entries)
    ensures Basic(Accept(p1, i, m.prevIndex, m.entries)) && Forward(p, Accept(p1, i, m.prevIndex, m.entries))
  {
    AcceptKeepsBasic(p1, i, m.prevIndex, m.entries);
    AcceptIsForward(p1, i, m.prevIndex, m.entries);
    ForwardTrans(p, p1, Accept(p1, i, m.prevIndex, m.entries));
  }

  lemma AppendEntriesNode(p: Proto, i: nat, s: Node, m: Message, tally: set<nat>)
    requires Mirrors(p, i, s) && NodeOk(p, i, s, tally)
    requires m.AppendEntries? && MsgOk(p, m) && m.dst == i
    requires m.term >= s.term && Consistent(s.log, m.prevIndex, m.prevTerm) ==> Shape(Overwritten(s.log, m.prevIndex, m.entries))
    ensures var (s', reply) := HandleAppendEntries(s, m);
            var p' := Record(p, i, s, s', [reply], tally);
            NodeOk(p, i, s', tally) && MsgOk(p', reply)
  {
    if m.term >= s.term && Consistent(s.log, m.prevIndex, m.prevTerm) {
      AcceptedCore(s, m);
      var s1 := HeardLeader(s, m);
      CommitToKeepsOrder(s1.(log := Overwritten(s1.log, m.prevIndex, m.entries)), m.leaderCommit);
    }
  }
}
