/**
 * The Raft node as raft/raft.go has it: an object whose handlers update its fields in place.
 * Each method is proved to do to the fields what the function of the same name in RaftNode does to
 * the value `State()`; the safety theorems are about those functions.
 *
 * `applyCh` holds everything pushed into the apply channel, `outbox` everything handed to the
 * transport.
 */
module RaftServer {
  import opened Bytes
  import opened RaftLog
  import opened RaftNode

  class Raft {
    const id: nat
    const peers: nat
    const log: Log

    var currentTerm: nat
    var votedFor: nat
    var commitIndex: nat
    var lastApplied: nat
    var state: Role
    var leaderID: nat
    var nextIndex: map<nat, nat>
    var matchIndex: map<nat, nat>
    var votesReceived: nat
    var votesNeeded: nat
    var applyCh: seq<ApplyMsg>
    var outbox: seq<Message>

    constructor (id: nat, peers: nat)
      ensures State() == Init(id, peers) && outbox == [] && fresh(log)
    {
      this.id, this.peers := id, peers;
      log := new Log();
      currentTerm, votedFor, commitIndex, lastApplied := 0, 0, 0, 0;
      state, leaderID := Follower, 0;
      nextIndex, matchIndex := map[], map[];
      votesReceived, votesNeeded := 0, 0;
      applyCh, outbox := [], [];
    }

    ghost function State(): (s: Node)
      reads this, log
    {
      Node(id, peers, currentTerm, votedFor, log.entries, commitIndex, lastApplied, state, leaderID,
           nextIndex, matchIndex, votesReceived, votesNeeded, applyCh)
    }

    // ---- State transitions ----

    method BecomeFollower(term: nat)
      modifies this
      ensures State() == RaftNode.BecomeFollower(old(State()), term) && outbox == old(outbox)
    {
      if term > currentTerm {
        currentTerm := term;
        votedFor := 0;
      }
      state := Follower;
      leaderID := 0;
    }

    method BecomeCandidate()
      modifies this
      ensures State() == RaftNode.BecomeCandidate(old(State())) && outbox == old(outbox)
    {
      state := Candidate;
      currentTerm := currentTerm + 1;
      votedFor := id;
      votesReceived := 1;
      votesNeeded := peers / 2 + 1;
    }

    method BecomeLeader()
      modifies this
      ensures State() == RaftNode.BecomeLeader(old(State())) && outbox == old(outbox)
    {
      state := Leader;
      leaderID := id;
      var lastIdx, _ := log.Last();
      ResetPeers(lastIdx);
      ghost var s := RaftNode.BecomeLeader(old(State()));
      assert nextIndex == s.nextIndex;
      assert matchIndex == s.matchIndex;
    }

    method ResetPeers(lastIdx: nat)
      modifies this`nextIndex, this`matchIndex
      ensures forall p :: p in nextIndex <==> 1 <= p <= peers && p != id
      ensures matchIndex.Keys == nextIndex.Keys
      ensures forall p | p in nextIndex :: nextIndex[p] == lastIdx + 1
      ensures forall p | p in matchIndex :: matchIndex[p] == 0
    {
      nextIndex, matchIndex := map[], map[];
      var pid := 1;
      while pid <= peers
        invariant 1 <= pid <= peers + 1
        invariant forall p :: p in nextIndex <==> 1 <= p < pid && p != id
        invariant matchIndex.Keys == nextIndex.Keys
        invariant forall p | p in nextIndex :: nextIndex[p] == lastIdx + 1
        invariant forall p | p in matchIndex :: matchIndex[p] == 0
      {
        if pid != id {
          nextIndex := nextIndex[pid := lastIdx + 1];
          matchIndex := matchIndex[pid := 0];
        }
        pid := pid + 1;
      }
    }

    // ---- Commit and apply ----

    method ApplyCommitted()
      modifies this
      ensures State() == RaftNode.ApplyCommitted(old(State())) && outbox == old(outbox)
    {
      while lastApplied < commitIndex
        invariant State() == old(State()).(applied := lastApplied, delivered := applyCh) && outbox == old(outbox)
        invariant old(lastApplied) <= lastApplied
        invariant lastApplied <= commitIndex || lastApplied == old(lastApplied)
        invariant applyCh + Delivery(log.entries, lastApplied, commitIndex)
               == old(applyCh) + Delivery(log.entries, old(lastApplied), commitIndex)
      {
        lastApplied := lastApplied + 1;
        var ent, ok := log.Get(lastApplied);
        if ok {
          applyCh := applyCh + [ApplyMsg(ent.index, ent.command)];
        }
      }
    }

    /** How many nodes, this one included, hold the log up to `n`. */
    method CountMatched(n: nat) returns (count: nat)
      ensures count == 1 + |Holders(matchIndex, n)|
    {
      count := 1;
      var rest := matchIndex.Keys;
      while rest != {}
        invariant rest <= matchIndex.Keys
        invariant count == 1 + |Holders(matchIndex, n) - rest|
        decreases |rest|
      {
        var p :| p in rest;
        var rest' := rest - {p};
        if matchIndex[p] >= n {
          assert Holders(matchIndex, n) - rest' == (Holders(matchIndex, n) - rest) + {p};
          count := count + 1;
        } else {
          assert Holders(matchIndex, n) - rest' == Holders(matchIndex, n) - rest;
        }
        rest := rest';
      }
      assert Holders(matchIndex, n) - {} == Holders(matchIndex, n);
    }

    method AdvanceCommitIndex()
      modifies this
      ensures State() == AdvanceCommit(old(State())) && outbox == old(outbox)
    {
      if state != Leader {
        return;
      }
      ghost var s := State();
      var n := commitIndex + 1;
      while true
        invariant State() == s.(commit := commitIndex) && outbox == old(outbox)
        invariant CommitScan(s, s.commit, s.commit + 1) == CommitScan(s, commitIndex, n)
        invariant n > 0
        decreases |log.entries| - n
      {
        var ent, ok := log.Get(n);
        if !ok {
          break;
        }
        if ent.term != currentTerm {
          n := n + 1;
          continue;
        }
        var count := CountMatched(n);
        if count > peers / 2 {
          commitIndex := n;
        } else {
          break;
        }
        n := n + 1;
      }
      ApplyCommitted();
    }

    // ---- Sending ----

    method SendAppendEntriesTo(peer: nat)
      modifies this`outbox
      ensures outbox == old(outbox) + SendTo(State(), peer)
    {
      if peer !in nextIndex {
        return;
      }
      var next := nextIndex[peer];
      var prevIdx := if next == 0 then MAX_UINT64 else next - 1;
      var prevTerm := 0;
      if prevIdx > 0 {
        var ent, ok := log.Get(prevIdx);
        if ok {
          prevTerm := ent.term;
        }
      }
      var entries := log.Slice(next, next + BATCH);
      outbox := outbox + [AppendEntries(id, peer, currentTerm, id, prevIdx, prevTerm, entries, commitIndex)];
    }

    method BroadcastAppendEntries()
      modifies this`outbox
      ensures outbox == old(outbox) + BroadcastAppend(State(), peers)
    {
      var pid := 1;
      while pid <= peers
        invariant 1 <= pid <= peers + 1
        invariant outbox == old(outbox) + BroadcastAppend(State(), pid - 1)
      {
        if pid != id {
          SendAppendEntriesTo(pid);
        }
        pid := pid + 1;
      }
    }

    method BroadcastRequestVote()
      modifies this`outbox
      ensures outbox == old(outbox) + BroadcastVote(State(), peers)
    {
      var lastIdx, lastTerm := log.Last();
      var pid := 1;
      while pid <= peers
        invariant 1 <= pid <= peers + 1
        invariant outbox == old(outbox) + BroadcastVote(State(), pid - 1)
      {
        if pid != id {
          outbox := outbox + [RequestVote(id, pid, currentTerm, id, lastIdx, lastTerm)];
        }
        pid := pid + 1;
      }
    }

    // ---- Handlers ----

    method HandleAppendEntries(m: Message) returns (reply: Message)
      requires m.AppendEntries?
      modifies this, log
      ensures (State(), reply) == RaftNode.HandleAppendEntries(old(State()), m) && outbox == old(outbox)
    {
      if m.term < currentTerm {
        return AppendReply(id, m.src, currentTerm, false, 0);
      }
      if m.term > currentTerm {
        BecomeFollower(m.term);
      }
      leaderID := m.leaderId;
      state := Follower;
      if m.prevIndex > 0 {
        var entry, ok := log.Get(m.prevIndex);
        if !ok || entry.term != m.prevTerm {
          return AppendReply(id, m.src, currentTerm, false, 0);
        }
      }
      if |m.entries| > 0 {
        log.Truncate(m.prevIndex + 1);
        log.Append(m.entries);
      }
      if m.leaderCommit > commitIndex {
        var lastIdx, _ := log.Last();
        commitIndex := Min(m.leaderCommit, lastIdx);
        ApplyCommitted();
      }
      return AppendReply(id, m.src, currentTerm, true, m.prevIndex + |m.entries|);
    }

    method HandleAppendEntriesResponse(m: Message)
      requires m.AppendReply?
      modifies this
      ensures State() == HandleAppendReply(old(State()), m).0
      ensures outbox == old(outbox) + HandleAppendReply(old(State()), m).1
    {
      if m.term > currentTerm {
        BecomeFollower(m.term);
        return;
      }
      if m.term < currentTerm || state != Leader {
        return;
      }
      if m.success {
        if m.lastIndex > At(matchIndex, m.src) {
          matchIndex := matchIndex[m.src := m.lastIndex];
          nextIndex := nextIndex[m.src := matchIndex[m.src] + 1];
        }
        AdvanceCommitIndex();
      } else {
        if At(nextIndex, m.src) > 1 {
          nextIndex := nextIndex[m.src := nextIndex[m.src] - 1];
        }
        SendAppendEntriesTo(m.src);
      }
    }

    method HandleRequestVote(m: Message) returns (reply: Message)
      requires m.RequestVote?
      modifies this
      ensures (State(), reply) == RaftNode.HandleRequestVote(old(State()), m) && outbox == old(outbox)
    {
      if m.term < currentTerm {
        return VoteReply(id, m.src, currentTerm, false);
      }
      if m.term > currentTerm {
        BecomeFollower(m.term);
      }
      var lastIdx, lastTerm := log.Last();
      var logOK := m.lastLogTerm > lastTerm || (m.lastLogTerm == lastTerm && m.lastLogIndex >= lastIdx);
      var granted := false;
      if (votedFor == 0 || votedFor == m.candidate) && logOK {
        votedFor := m.candidate;
        granted := true;
      }
      return VoteReply(id, m.src, currentTerm, granted);
    }

    method HandleRequestVoteResponse(m: Message)
      requires m.VoteReply?
      modifies this
      ensures State() == HandleVoteReply(old(State()), m) && outbox == old(outbox)
    {
      if m.term > currentTerm {
        BecomeFollower(m.term);
        return;
      }
      if m.term < currentTerm || state != Candidate {
        return;
      }
      if m.granted {
        votesReceived := votesReceived + 1;
        if votesReceived >= votesNeeded {
          BecomeLeader();
        }
      }
    }

    method HandleElectionTimeout()
      modifies this
      ensures State() == RaftNode.HandleElectionTimeout(old(State())).0
      ensures outbox == old(outbox) + RaftNode.HandleElectionTimeout(old(State())).1
    {
      if state == Leader {
        return;
      }
      BecomeCandidate();
      BroadcastRequestVote();
    }

    method HandleHeartbeatTimeout()
      modifies this`outbox
      ensures outbox == old(outbox) + RaftNode.HandleHeartbeatTimeout(State())
    {
      if state != Leader {
        return;
      }
      BroadcastAppendEntries();
    }

    method HandlePropose(command: Command)
      modifies this, log
      ensures State() == RaftNode.HandlePropose(old(State()), command).0
      ensures outbox == old(outbox) + RaftNode.HandlePropose(old(State()), command).1
    {
      if state != Leader {
        return;
      }
      var lastIdx, _ := log.Last();
      log.Append([Entry(lastIdx + 1, currentTerm, command)]);
      assert State() == Proposed(old(State()), command);
      BroadcastAppendEntries();
      AdvanceCommitIndex();
    }
  }
}
