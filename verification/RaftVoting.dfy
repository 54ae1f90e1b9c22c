/**
 * Elections in every run, event by event: when a vote is given, when a candidate wins, what standing,
 * winning and hearing of a later term make of a node.
 */
module RaftVoting {
  import opened RaftLog
  import opened RaftNode
  import opened RaftProtocol
  import opened RaftCluster
  import opened RaftInvariants
  import opened RaftSteps
  import opened RaftRuns
  import opened RaftSending
  import opened RaftDelivering
  import opened RaftRepair

  // ---- Giving a vote ----

  /** The vote is asked for in no earlier term, it is not given to another, and the candidate's log is not behind. */
  predicate Deserves(s: Node, m: Message)
    requires m.RequestVote? && |s.log| > 0
  {
    && m.term >= s.term && (m.term > s.term || s.votedFor == 0 || s.votedFor == m.src)
    && var last := |s.log| - 1;
       m.lastLogTerm > s.log[last].term || (m.lastLogTerm == s.log[last].term && m.lastLogIndex >= last)
  }

  /** The node answers, remembers a vote it gives, and follows a later term; nothing else changes. */
  predicate VotesByRule(s: Node, m: Message, s': Node, out: seq<Message>)
    requires m.RequestVote? && |s.log| > 0
  {
    var later, granted := m.term > s.term, Deserves(s, m);
    && out == [VoteReply(s.id, m.src, Max(s.term, m.term), granted)]
    && s' == s.(term := Max(s.term, m.term), votedFor := if granted then m.src else if later then 0 else s.votedFor,
                role := if later then Follower else s.role, leader := if later then 0 else s.leader)
  }

  lemma VoteIs(s: Node, m: Message)
    requires m.RequestVote? && m.candidate == m.src && Shape(s.log)
    ensures VotesByRule(s, m, HandleRequestVote(s, m).0, [HandleRequestVote(s, m).1])
  {
  }

  lemma VoteDelivered(c: Cluster, a: nat)
    requires ClusterOk(c) && Enabled(c, Deliver(a)) && c.sent[a].RequestVote?
    ensures
      var i, c' := c.sent[a].dst, After(c, Deliver(a));
      && |c.nodes[i].log| > 0 && i in c'.nodes && c.sent <= c'.sent
      && VotesByRule(c.nodes[i], c.sent[a], c'.nodes[i], c'.sent[|c.sent|..])
  {
    var i := c.sent[a].dst;
    NodeReady(c, i);
    Delivered(c, a);
    assert MsgOk(c.proto, c.sent[a]);
    VoteIs(c.nodes[i], c.sent[a]);
  }

  /** In every run, every request for a vote is answered by this rule. */
  lemma VoteRule(n: nat, events: seq<Event>, states: seq<Cluster>, k: nat)
    requires IsRun(n, events, states) && k < |events| && events[k].Deliver? && Enabled(states[k], events[k])
    requires states[k].sent[events[k].k].RequestVote?
    ensures
      var m := states[k].sent[events[k].k];
      && |states[k].nodes[m.dst].log| > 0 && m.dst in states[k + 1].nodes && states[k].sent <= states[k + 1].sent
      && VotesByRule(states[k].nodes[m.dst], m, states[k + 1].nodes[m.dst], states[k + 1].sent[|states[k].sent|..])
  {
    Stepped(n, events, states, k);
    VoteDelivered(states[k], events[k].k);
  }

  // ---- Winning ----

  /** The event brings candidate i a vote of its term with which a majority of the n nodes has voted for it. */
  predicate Wins(c: Cluster, e: Event, i: nat, n: nat) {
    && e.Deliver? && e.k < |c.sent| && i in c.nodes && c.nodes[i].role == Candidate
    && var m := c.sent[e.k];
       && m.VoteReply? && m.dst == i && m.granted && m.term == c.nodes[i].term
       && 2 * |Tally(c, i) + {m.src}| > n
  }

  /** It leads, and will send every other node what comes after its log, which it does not yet know any of them to hold. */
  predicate Leads(s: Node, s': Node, n: nat) {
    && s'.leader == s.id && s'.term == s.term && s'.log == s.log && s'.votedFor == s.votedFor
    && s'.nextIndex == (map q | q in Ids(n) - {s.id} :: |s.log|)
    && s'.matchIndex == (map q | q in Ids(n) - {s.id} :: 0)
  }

  lemma CountIs(s: Node, m: Message, n: nat, tally: set<nat>)
    requires m.VoteReply? && Ready(s, n) && s.role != Leader
    requires s.role == Candidate ==> s.votes == |tally| && s.votesNeeded == n / 2 + 1
    requires Counts(s, m) ==> m.src !in tally
    ensures HandleVoteReply(s, m).role == Leader <==> Counts(s, m) && 2 * |tally + {m.src}| > n
    ensures HandleVoteReply(s, m).role == Leader ==> Leads(s, HandleVoteReply(s, m), n)
  {
    if Counts(s, m) {
      OneMore(tally, m.src, n);
    }
  }

  lemma OneMore(tally: set<nat>, v: nat, n: nat)
    requires v !in tally
    ensures |tally| + 1 >= n / 2 + 1 <==> 2 * |tally + {v}| > n
  {
    assert |tally + {v}| == |tally| + 1;
  }

  lemma OnlyVotesMakeLeaders(c: Cluster, e: Event)
    requires Enabled(c, e) && c.nodes[Target(c, e)].role != Leader && Outcome(c, e).0.role == Leader
    ensures e.Deliver? && c.sent[e.k].VoteReply?
  {
  }

  lemma EventWins(c: Cluster, e: Event)
    requires ClusterOk(c) && Enabled(c, e) && c.nodes[Target(c, e)].role != Leader
    requires e.Deliver? && c.sent[e.k].VoteReply?
    ensures
      var i := Target(c, e);
      && (Outcome(c, e).0.role == Leader <==> Wins(c, e, i, c.proto.n))
      && (Outcome(c, e).0.role == Leader ==> Leads(c.nodes[i], Outcome(c, e).0, c.proto.n))
  {
    var i := Target(c, e);
    NodeReady(c, i);
    TargetMirrors(c, e);
    if Counts(c.nodes[i], c.sent[e.k]) {
      PendingIsNotCounted(c, e.k);
    }
    CountIs(c.nodes[i], c.sent[e.k], c.proto.n, Tally(c, i));
  }

  lemma TargetWins(c: Cluster, e: Event)
    requires ClusterOk(c) && Enabled(c, e) && c.nodes[Target(c, e)].role != Leader
    ensures
      var i := Target(c, e);
      && (Outcome(c, e).0.role == Leader <==> Wins(c, e, i, c.proto.n))
      && (Outcome(c, e).0.role == Leader ==> Leads(c.nodes[i], Outcome(c, e).0, c.proto.n))
  {
    if Outcome(c, e).0.role == Leader {
      OnlyVotesMakeLeaders(c, e);
    }
    if e.Deliver? && c.sent[e.k].VoteReply? {
      EventWins(c, e);
    }
  }

  lemma WinnerIs(c: Cluster, e: Event, i: nat)
    requires ClusterOk(c) && Enabled(c, e) && i in c.nodes && c.nodes[i].role != Leader
    ensures
      var c' := After(c, e);
      && i in c'.nodes && (c'.nodes[i].role == Leader <==> Wins(c, e, i, c.proto.n))
      && (c'.nodes[i].role == Leader ==> Leads(c.nodes[i], c'.nodes[i], c.proto.n))
  {
    if i == Target(c, e) {
      TargetWins(c, e);
      OutcomeIsNext(c, e);
    } else {
      OthersRest(c, e, i);
    }
  }

  /** In every run, a node becomes leader exactly when a majority of distinct nodes has voted for it, and starts out so. */
  lemma BecomesLeaderIff(n: nat, events: seq<Event>, states: seq<Cluster>, k: nat, i: nat)
    requires IsRun(n, events, states) && k < |events| && i in states[k].nodes && states[k].nodes[i].role != Leader
    ensures i in states[k + 1].nodes && (states[k + 1].nodes[i].role == Leader <==> Wins(states[k], events[k], i, n))
    ensures states[k + 1].nodes[i].role == Leader ==> Leads(states[k].nodes[i], states[k + 1].nodes[i], n)
  {
    Stepped(n, events, states, k);
    ClusterSize(n, events, states, k);
    WinnerIs(states[k], events[k], i);
  }

  // ---- Standing and following ----

  /** In every run, a node that is not leader and times out stands in the next term with its own vote. */
  lemma TimeoutRule(n: nat, events: seq<Event>, states: seq<Cluster>, k: nat)
    requires IsRun(n, events, states) && k < |events| && events[k].ElectionTimeout? && Enabled(states[k], events[k])
    ensures StandsByRule(states[k], events[k].id, states[k + 1])
  {
    Stepped(n, events, states, k);
    NodeReady(states[k], events[k].id);
    TimeoutIs(states[k], events[k].id);
  }

  predicate StandsByRule(c: Cluster, i: nat, c': Cluster) {
    && i in c.nodes && i in c'.nodes
    && var s, s' := c.nodes[i], c'.nodes[i];
       if s.role == Leader then s' == s && c'.sent == c.sent
       else s'.role == Candidate && s'.term == s.term + 1 && s'.votedFor == i && s'.log == s.log && Tally(c', i) == {i}
  }

  lemma TimeoutIs(c: Cluster, i: nat)
    requires i in c.nodes && c.nodes[i].id == i
    ensures StandsByRule(c, i, After(c, ElectionTimeout(i)))
  {
  }

  lemma LaterTermIs(s: Node, m: Message)
    requires m.term > s.term
    ensures
      var s' := HandleMessage(s, m).0;
      && s'.term == m.term && s'.role == Follower && (s'.votedFor == 0 || (m.RequestVote? && s'.votedFor == m.candidate))
      && (s'.leader == if m.AppendEntries? then m.leaderId else 0) && (!m.AppendEntries? ==> s'.log == s.log)
  {
  }

  lemma EarlierTermIs(s: Node, m: Message)
    requires m.term < s.term
    ensures HandleMessage(s, m).0 == s
    ensures forall r | r in HandleMessage(s, m).1 ::
              r.dst == m.src && r.term == s.term && ((r.VoteReply? && !r.granted) || (r.AppendReply? && !r.success))
  {
  }

  /**
   * In every run, whatever a message of a later term says, its receiver follows in that term, without a
   * vote unless it gives one now; and a message of an earlier term changes nothing and is refused.
   */
  lemma TermRule(n: nat, events: seq<Event>, states: seq<Cluster>, k: nat)
    requires IsRun(n, events, states) && k < |events| && events[k].Deliver? && Enabled(states[k], events[k])
    ensures
      var m := states[k].sent[events[k].k];
      var s, c' := states[k].nodes[m.dst], states[k + 1];
      && m.dst in c'.nodes && states[k].sent <= c'.sent
      && (m.term > s.term ==> c'.nodes[m.dst].term == m.term && c'.nodes[m.dst].role == Follower)
      && (m.term < s.term ==>
            && c'.nodes == states[k].nodes
            && forall r | r in c'.sent[|states[k].sent|..] ::
                 r.dst == m.src && r.term == s.term && ((r.VoteReply? && !r.granted) || (r.AppendReply? && !r.success)))
  {
    Stepped(n, events, states, k);
    TermDelivered(states[k], events[k].k);
  }

  lemma TermDelivered(c: Cluster, a: nat)
    requires Enabled(c, Deliver(a))
    ensures
      var m, c' := c.sent[a], After(c, Deliver(a));
      var s := c.nodes[m.dst];
      && m.dst in c'.nodes && c.sent <= c'.sent
      && (m.term > s.term ==> c'.nodes[m.dst].term == m.term && c'.nodes[m.dst].role == Follower)
      && (m.term < s.term ==>
            && c'.nodes == c.nodes
            && forall r | r in c'.sent[|c.sent|..] ::
                 r.dst == m.src && r.term == s.term && ((r.VoteReply? && !r.granted) || (r.AppendReply? && !r.success)))
  {
    var m := c.sent[a];
    Delivered(c, a);
    assert After(c, Deliver(a)).sent[|c.sent|..] == HandleMessage(c.nodes[m.dst], m).1;
    if m.term > c.nodes[m.dst].term {
      LaterTermIs(c.nodes[m.dst], m);
    } else if m.term < c.nodes[m.dst].term {
      EarlierTermIs(c.nodes[m.dst], m);
      assert c.nodes[m.dst := c.nodes[m.dst]] == c.nodes;
    }
  }
}
