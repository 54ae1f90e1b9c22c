/** What comes out of the apply channels: the commands of the log, each at its index, up to the commit index. */
module RaftDelivering {
  import opened RaftLog
  import opened RaftNode
  import opened RaftProtocol
  import opened RaftCluster
  import opened RaftInvariants
  import opened RaftSteps
  import opened RaftRuns
  import opened RaftSafety
  import opened RaftTheorems
  import opened RaftSending

  function Max(a: nat, b: nat): nat {
    if a < b then b else a
  }

  /** The messages from position `from` on are the commands of the log at those positions. */
  predicate Reads(out: seq<ApplyMsg>, log: seq<Entry>, from: nat) {
    |out| > from ==> |out| < |log| && forall j | from <= j < |out| :: out[j] == ApplyMsg(j + 1, log[j + 1].command)
  }

  lemma {:induction false} DeliveryReads(out: seq<ApplyMsg>, log: seq<Entry>, commit: nat)
    requires Shape(log) && |out| <= commit < |log|
    ensures |out + Delivery(log, |out|, commit)| == commit && Reads(out + Delivery(log, |out|, commit), log, |out|)
    decreases commit - |out|
  {
    var all := out + Delivery(log, |out|, commit);
    if |out| < commit {
      var next := out + [ApplyMsg(|out| + 1, log[|out| + 1].command)];
      DeliveryReads(next, log, commit);
      assert all == next + Delivery(log, |next|, commit);
    } else {
      assert all == out;
    }
  }

  /** What was delivered stays, and what is new is read off the log, up to the commit index. */
  predicate DeliversOn(s: Node, s': Node) {
    s.delivered <= s'.delivered && |s'.delivered| == Max(|s.delivered|, s'.commit) && Reads(s'.delivered, s'.log, |s.delivered|)
  }

  lemma ApplyDelivers(s: Node, commit: nat)
    requires Shape(s.log) && DeliversInOrder(s) && commit < |s.log|
    ensures DeliversOn(s, ApplyCommitted(s.(commit := commit)))
  {
    if s.applied < commit {
      DeliveryReads(s.delivered, s.log, commit);
    }
  }

  lemma AdvanceDelivers(s: Node)
    requires Shape(s.log) && DeliversInOrder(s)
    ensures DeliversOn(s, AdvanceCommit(s))
  {
    if s.role == Leader {
      var r := CommitScan(s, s.commit, s.commit + 1);
      ScanStaysInLog(s, s.commit, s.commit + 1);
      if r == s.commit {
        assert s.delivered + Delivery(s.log, s.applied, r) == s.delivered;
      } else {
        ApplyDelivers(s, r);
      }
    }
  }

  lemma CommitToDelivers(s: Node, leaderCommit: nat)
    requires Shape(s.log) && DeliversInOrder(s)
    ensures DeliversOn(s, CommitTo(s, leaderCommit))
  {
    if leaderCommit > s.commit {
      ApplyDelivers(s, Min(leaderCommit, LastIndex(s.log)));
    }
  }

  // ---- One event ----

  lemma RestDelivers(s: Node, s': Node)
    requires DeliversInOrder(s) && s'.delivered == s.delivered && s'.commit == s.commit
    ensures DeliversOn(s, s')
  {
  }

  lemma AppendDelivers(s: Node, m: Message)
    requires DeliversInOrder(s) && m.AppendEntries? && Shape(HandleAppendEntries(s, m).0.log)
    ensures DeliversOn(s, HandleAppendEntries(s, m).0)
  {
    if m.term >= s.term && Consistent(s.log, m.prevIndex, m.prevTerm) {
      CommitToDelivers(HeardLeader(s, m).(log := Overwritten(s.log, m.prevIndex, m.entries)), m.leaderCommit);
    }
  }

  lemma ReplyDelivers(s: Node, m: Message)
    requires Shape(s.log) && DeliversInOrder(s) && m.AppendReply?
    ensures DeliversOn(s, HandleAppendReply(s, m).0)
  {
    AdvanceDelivers(Matched(s, m.src, m.lastIndex));
  }

  lemma MessageDelivers(s: Node, m: Message)
    requires Shape(s.log) && DeliversInOrder(s) && Shape(HandleMessage(s, m).0.log)
    ensures DeliversOn(s, HandleMessage(s, m).0)
  {
    match m
    case AppendEntries(_, _, _, _, _, _, _, _) => AppendDelivers(s, m);
    case AppendReply(_, _, _, _, _) => ReplyDelivers(s, m);
    case RequestVote(_, _, _, _, _, _) => RestDelivers(s, HandleRequestVote(s, m).0);
    case VoteReply(_, _, _, _) => RestDelivers(s, HandleVoteReply(s, m));
  }

  lemma OutcomeDelivers(c: Cluster, e: Event)
    requires Enabled(c, e)
    requires var s := c.nodes[Target(c, e)]; LogOk(s.log, s.term) && DeliversInOrder(s) && Shape(Outcome(c, e).0.log)
    ensures DeliversOn(c.nodes[Target(c, e)], Outcome(c, e).0)
  {
    var s := c.nodes[Target(c, e)];
    match e
    case ElectionTimeout(_) => RestDelivers(s, HandleElectionTimeout(s).0);
    case HeartbeatTimeout(_) =>
    case Propose(_, command) =>
      if s.role == Leader {
        ExtendedOk(s.log, s.term, command);
        AdvanceDelivers(Proposed(s, command));
      }
    case Deliver(k) => MessageDelivers(s, c.sent[k]);
  }

  lemma NodeInOrder(c: Cluster, i: nat)
    requires AllNodesOk(c) && i in c.nodes
    ensures DeliversInOrder(c.nodes[i])
  {
    assert NodeOk(c.proto, i, c.nodes[i], Tally(c, i));
  }

  lemma OutcomeIsNext(c: Cluster, e: Event)
    requires Enabled(c, e)
    ensures After(c, e).nodes == c.nodes[Target(c, e) := Outcome(c, e).0]
  {
  }

  lemma OthersRest(c: Cluster, e: Event, i: nat)
    requires Enabled(c, e) && i in c.nodes && i != Target(c, e)
    ensures i in After(c, e).nodes && After(c, e).nodes[i] == c.nodes[i]
  {
  }

  lemma OutcomeShape(c: Cluster, e: Event)
    requires ClusterOk(c) && Enabled(c, e)
    ensures Shape(Outcome(c, e).0.log)
  {
    OutcomeIsNext(c, e);
    EventKeeps(c, e);
    NodeReady(After(c, e), Target(c, e));
  }

  lemma TargetDelivers(c: Cluster, e: Event)
    requires ClusterOk(c) && Enabled(c, e)
    ensures DeliversOn(c.nodes[Target(c, e)], Outcome(c, e).0)
  {
    NodeReady(c, Target(c, e));
    NodeInOrder(c, Target(c, e));
    OutcomeShape(c, e);
    OutcomeDelivers(c, e);
  }

  lemma OtherDelivers(c: Cluster, e: Event, i: nat)
    requires AllNodesOk(c) && Enabled(c, e) && i in c.nodes && i != Target(c, e)
    ensures i in After(c, e).nodes && DeliversOn(c.nodes[i], After(c, e).nodes[i])
  {
    OthersRest(c, e, i);
    NodeInOrder(c, i);
    RestDelivers(c.nodes[i], After(c, e).nodes[i]);
  }

  lemma EventDelivers(c: Cluster, e: Event, i: nat)
    requires ClusterOk(c) && Enabled(c, e) && i in c.nodes
    ensures i in After(c, e).nodes && DeliversOn(c.nodes[i], After(c, e).nodes[i])
  {
    if i == Target(c, e) {
      TargetDelivers(c, e);
      OutcomeIsNext(c, e);
    } else {
      OtherDelivers(c, e, i);
    }
  }

  // ---- Every run ----

  /** In every run, every event delivers at every node what its log then holds, from where it stood to its commit index. */
  lemma DeliversFromLog(n: nat, events: seq<Event>, states: seq<Cluster>, k: nat, i: nat)
    requires IsRun(n, events, states) && k < |events| && i in states[k].nodes
    ensures i in states[k + 1].nodes && DeliversOn(states[k].nodes[i], states[k + 1].nodes[i])
  {
    Stepped(n, events, states, k);
    EventDelivers(states[k], events[k], i);
  }

  lemma SafeNodeReads(p: Proto, s: Node)
    requires NodeSafe(p, s) && Shape(s.log)
    ensures |s.delivered| == s.commit && Reads(s.delivered, s.log, 0)
  {
    DeliveryReads([], s.log, s.commit);
    assert [] + Delivery(s.log, 0, s.commit) == s.delivered;
  }

  lemma SafeNode(c: Cluster, i: nat)
    requires Safe(c) && i in c.nodes
    ensures NodeSafe(c.proto, c.nodes[i])
  {
  }

  /** Without stale deliveries, what a node has delivered is its log up to its commit index, command by command. */
  lemma DeliveredIsTheLog(n: nat, events: seq<Event>, states: seq<Cluster>, k: nat, i: nat)
    requires FreshRun(n, events, states) && k < |states| && i in states[k].nodes
    ensures
      var s := states[k].nodes[i];
      && |s.delivered| == s.commit < |s.log|
      && forall j | 0 <= j < s.commit :: s.delivered[j] == ApplyMsg(j + 1, s.log[j + 1].command)
  {
    RunSafe(n, events, states, k);
    SafeNode(states[k], i);
    NodeReady(states[k], i);
    SafeNodeReads(states[k].proto, states[k].nodes[i]);
  }
}
