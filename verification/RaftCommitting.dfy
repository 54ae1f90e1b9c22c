/**
 * What a leader has committed, in every state of every run: everything of its term that it knows a
 * majority to hold, and nothing new that it does not.
 */
module RaftCommitting {
  import opened RaftLog
  import opened RaftNode
  import opened RaftProtocol
  import opened RaftCluster
  import opened RaftInvariants
  import opened RaftSteps
  import opened RaftRuns
  import opened RaftSafety
  import opened RaftRules
  import opened RaftSending
  import opened RaftDelivering

  /** An entry of the leader's own term, held by the leader and so many peers that together they are a majority. */
  predicate HeldByMajority(s: Node, x: nat) {
    1 <= x < |s.log| && s.log[x].term == s.term && 2 * (1 + |set q | q in s.matchIndex && s.matchIndex[q] >= x|) > s.peers
  }

  /** All of that is committed. */
  ghost predicate CommitsAll(s: Node) {
    s.role == Leader ==> forall x: nat | HeldByMajority(s, x) :: x <= s.commit
  }

  /** The commit index moves only to such an entry. */
  predicate CommitsOnly(s: Node, s': Node) {
    s'.role == Leader && s'.commit != s.commit ==> s'.commit > s.commit && HeldByMajority(s', s'.commit)
  }

  lemma HeldIsCommittable(s: Node, x: nat)
    requires s.commit < x
    ensures HeldByMajority(s, x) <==> Committable(s, x)
  {
    assert Holders(s.matchIndex, x) == set q | q in s.matchIndex && s.matchIndex[q] >= x;
  }

  lemma HeldTheSame(s: Node, s': Node, x: nat)
    requires s'.log == s.log && s'.term == s.term && s'.matchIndex == s.matchIndex && s'.peers == s.peers
    ensures HeldByMajority(s, x) <==> HeldByMajority(s', x)
  {
  }

  lemma AdvanceCommitsAll(s: Node)
    requires s.role == Leader
    ensures CommitsAll(AdvanceCommit(s)) && CommitsOnly(s, AdvanceCommit(s))
  {
    var s' := AdvanceCommit(s);
    AdvanceKeepsSending(s);
    AdvanceIsGreatest(s);
    forall x: nat | HeldByMajority(s', x) ensures x <= s'.commit {
      HeldTheSame(s, s', x);
      if s.commit < x {
        HeldIsCommittable(s, x);
        assert Committable(s, x);
      } else {
        AdvanceIsUp(s);
      }
    }
    if s'.commit != s.commit {
      AdvanceIsUp(s);
      HeldIsCommittable(s, s'.commit);
      HeldTheSame(s, s', s'.commit);
    }
  }

  lemma AdvanceIsUp(s: Node)
    requires s.role == Leader
    ensures s.commit <= AdvanceCommit(s).commit
    ensures AdvanceCommit(s).commit != s.commit ==> Committable(s, AdvanceCommit(s).commit)
  {
    AdvanceIsGreatest(s);
  }

  // ---- One event ----

  /** A new leader has no entry of its own term yet. */
  lemma NewLeaderHasNone(p: Proto, i: nat, voters: set<nat>)
    requires OneVote(p) && ReignsOk(p) && LogsMatch(p) && CanElect(p, i, voters)
    ensures forall x | 1 <= x < |p.nodes[i].log| :: p.nodes[i].log[x].term != p.nodes[i].term
  {
    ElectedTermIsNew(p, i, voters);
    assert Matches(p.reigns, p.nodes[i].log);
  }

  lemma VoteCommits(p: Proto, i: nat, s: Node, m: Message, tally: set<nat>)
    requires Basic(p) && Mirrors(p, i, s) && CandidateOk(p, s, tally) && m.VoteReply? && MsgOk(p, m) && m.dst == i
    requires (Counts(s, m) ==> m.src !in tally) && CommitsAll(s)
    ensures CommitsAll(HandleVoteReply(s, m)) && CommitsOnly(s, HandleVoteReply(s, m))
  {
    if s.role == Candidate && HandleVoteReply(s, m).role == Leader {
      VoterIsId(p, Vote(m.src, m.term, i));
      CountedIsQuorum(p, i, s, m, tally);
      NewLeaderHasNone(p, i, tally + {m.src});
    }
  }

  lemma ReplyCommits(s: Node, m: Message)
    requires m.AppendReply? && CommitsAll(s)
    ensures CommitsAll(HandleAppendReply(s, m).0) && CommitsOnly(s, HandleAppendReply(s, m).0)
  {
    if s.role == Leader && m.term == s.term {
      if m.success {
        AdvanceCommitsAll(Matched(s, m.src, m.lastIndex));
      } else {
        var s' := HandleAppendReply(s, m).0;
        forall x: nat | HeldByMajority(s', x) ensures x <= s'.commit {
          HeldTheSame(s, s', x);
        }
      }
    }
  }

  lemma OtherCommits(s: Node, m: Message)
    requires (m.AppendEntries? || m.RequestVote?) && CommitsAll(s)
    ensures CommitsAll(HandleMessage(s, m).0) && CommitsOnly(s, HandleMessage(s, m).0)
  {
    var s' := HandleMessage(s, m).0;
    if s'.role == Leader {
      forall x: nat | HeldByMajority(s', x) ensures x <= s'.commit {
        HeldTheSame(s, s', x);
      }
    }
  }

  lemma MessageCommits(s: Node, m: Message)
    requires !m.VoteReply? && CommitsAll(s)
    ensures CommitsAll(HandleMessage(s, m).0) && CommitsOnly(s, HandleMessage(s, m).0)
  {
    if m.AppendReply? {
      ReplyCommits(s, m);
    } else {
      OtherCommits(s, m);
    }
  }

  lemma LocalCommits(c: Cluster, e: Event)
    requires Enabled(c, e) && !e.Deliver? && CommitsAll(c.nodes[Target(c, e)])
    ensures CommitsAll(Outcome(c, e).0) && CommitsOnly(c.nodes[Target(c, e)], Outcome(c, e).0)
  {
    var s := c.nodes[Target(c, e)];
    if e.Propose? && s.role == Leader {
      AdvanceCommitsAll(Proposed(s, e.command));
    }
  }

  lemma VoteReplyCommits(c: Cluster, a: nat)
    requires ClusterOk(c) && Enabled(c, Deliver(a)) && c.sent[a].VoteReply? && CommitsAll(c.nodes[c.sent[a].dst])
    ensures
      var s := c.nodes[c.sent[a].dst];
      CommitsAll(HandleVoteReply(s, c.sent[a])) && CommitsOnly(s, HandleVoteReply(s, c.sent[a]))
  {
    var i := c.sent[a].dst;
    TargetMirrors(c, Deliver(a));
    if Counts(c.nodes[i], c.sent[a]) {
      PendingIsNotCounted(c, a);
    }
    VoteCommits(c.proto, i, c.nodes[i], c.sent[a], Tally(c, i));
  }

  lemma TargetCommits(c: Cluster, e: Event)
    requires ClusterOk(c) && Enabled(c, e) && CommitsAll(c.nodes[Target(c, e)])
    ensures CommitsAll(Outcome(c, e).0) && CommitsOnly(c.nodes[Target(c, e)], Outcome(c, e).0)
  {
    if !e.Deliver? {
      LocalCommits(c, e);
    } else if c.sent[e.k].VoteReply? {
      VoteReplyCommits(c, e.k);
    } else {
      MessageCommits(c.nodes[Target(c, e)], c.sent[e.k]);
    }
  }

  lemma EventCommits(c: Cluster, e: Event, i: nat)
    requires ClusterOk(c) && Enabled(c, e) && i in c.nodes && CommitsAll(c.nodes[i])
    ensures i in After(c, e).nodes && CommitsAll(After(c, e).nodes[i]) && CommitsOnly(c.nodes[i], After(c, e).nodes[i])
  {
    if i == Target(c, e) {
      TargetCommits(c, e);
      OutcomeIsNext(c, e);
    } else {
      OthersRest(c, e, i);
    }
  }

  // ---- Every run ----

  /** In every state of every run, a leader has committed all of its term that it knows a majority to hold. */
  lemma {:induction false} LeadersCommitAll(n: nat, events: seq<Event>, states: seq<Cluster>, k: nat, i: nat)
    requires IsRun(n, events, states) && k < |states| && i in states[0].nodes
    ensures i in states[k].nodes && CommitsAll(states[k].nodes[i])
  {
    if k > 0 {
      var before := k - 1;
      LeadersCommitAll(n, events, states, before, i);
      Stepped(n, events, states, before);
      EventCommits(states[before], events[before], i);
    }
  }

  /** In every run, every event that moves a leader's commit index moves it up to an entry of its term held by a majority. */
  lemma LeadersCommitOnly(n: nat, events: seq<Event>, states: seq<Cluster>, k: nat, i: nat)
    requires IsRun(n, events, states) && k < |events| && i in states[0].nodes
    ensures i in states[k].nodes && i in states[k + 1].nodes && CommitsOnly(states[k].nodes[i], states[k + 1].nodes[i])
  {
    LeadersCommitAll(n, events, states, k, i);
    Stepped(n, events, states, k);
    EventCommits(states[k], events[k], i);
  }

  // ---- What a proposal does ----

  predicate ProposesByRule(s: Node, command: Command, s': Node) {
    if s.role != Leader then s' == s
    else
      && s'.log == s.log + [Entry(|s.log|, s.term, command)]
      && s'.term == s.term && s'.role == Leader && s'.votedFor == s.votedFor
  }

  lemma ProposalIs(s: Node, command: Command)
    requires Shape(s.log)
    ensures ProposesByRule(s, command, HandlePropose(s, command).0)
  {
    AdvanceKeepsSending(Proposed(s, command));
  }

  /** In every run, a leader appends what is proposed to it, in its term, at the end of its log; other nodes ignore it. */
  lemma ProposeRule(n: nat, events: seq<Event>, states: seq<Cluster>, k: nat)
    requires IsRun(n, events, states) && k < |events| && events[k].Propose? && events[k].id in states[k].nodes
    ensures events[k].id in states[k + 1].nodes
    ensures ProposesByRule(states[k].nodes[events[k].id], events[k].command, states[k + 1].nodes[events[k].id])
  {
    Stepped(n, events, states, k);
    NodeReady(states[k], events[k].id);
    OutcomeIsNext(states[k], events[k]);
    ProposalIs(states[k].nodes[events[k].id], events[k].command);
  }
}
