/**
 * What the nodes of a cluster send, in every run: the contents of every request, read off the sender's
 * state, and to whom it goes.
 */
module RaftSending {
  import opened RaftLog
  import opened RaftNode
  import opened RaftProtocol
  import opened RaftCluster
  import opened RaftInvariants
  import opened RaftSteps
  import opened RaftRuns

  // ---- What a request says ----

  /** The entry before `next`, and at most a hundred from there on. */
  predicate FromLog(m: Message, log: seq<Entry>, next: nat)
    requires m.AppendEntries?
  {
    && 1 <= next <= |log| && m.prevIndex == next - 1 && m.prevTerm == log[next - 1].term
    && m.entries == log[next..if |log| < next + 100 then |log| else next + 100]
  }

  /** The leader's current request to a peer. */
  predicate ReadOff(m: Message, s: Node, commit: nat) {
    && m.AppendEntries? && s.role == Leader && m.src == m.leaderId == s.id && m.term == s.term
    && m.leaderCommit == commit && m.dst in s.nextIndex && FromLog(m, s.log, s.nextIndex[m.dst])
  }

  /** A candidate's request for a vote: its term and the end of its log. */
  predicate AsksFor(m: Message, s: Node) {
    && m.RequestVote? && s.role == Candidate && m.src == m.candidate == s.id && m.term == s.term && |s.log| > 0
    && m.lastLogIndex == |s.log| - 1 && m.lastLogTerm == s.log[|s.log| - 1].term
  }

  /** One message to every node but the sender, in the order of their ids. */
  predicate ToOthers(out: seq<Message>, n: nat, id: nat) {
    && |out| == (if 1 <= id <= n then n - 1 else n)
    && forall j | 0 <= j < |out| :: out[j].dst == if j + 1 < id || id == 0 then j + 1 else j + 2
  }

  // ---- One node ----

  predicate Ready(s: Node, n: nat) {
    && s.peers == n && 1 <= s.id <= n && LogOk(s.log, s.term)
    && (s.role == Leader ==> s.nextIndex.Keys == Others(s) && forall q | q in s.nextIndex :: 1 <= s.nextIndex[q] <= |s.log|)
  }

  lemma SendIsReadOff(s: Node, q: nat)
    requires Shape(s.log) && s.role == Leader && q in s.nextIndex && 1 <= s.nextIndex[q] <= |s.log|
    ensures ReadOff(AppendEntriesFor(s, q), s, s.commit)
  {
  }

  lemma {:induction false} BroadcastIsReadOff(s: Node, upto: nat)
    requires Shape(s.log) && s.role == Leader && forall q | q in s.nextIndex :: 1 <= s.nextIndex[q] <= |s.log|
    ensures forall m | m in BroadcastAppend(s, upto) :: ReadOff(m, s, s.commit)
  {
    if upto > 0 {
      BroadcastIsReadOff(s, upto - 1);
      if upto in s.nextIndex {
        SendIsReadOff(s, upto);
      }
    }
  }

  lemma {:induction false} AppendsGoOut(s: Node, upto: nat)
    requires s.nextIndex.Keys == Others(s) && upto <= s.peers
    ensures ToOthers(BroadcastAppend(s, upto), upto, s.id)
  {
    if upto > 0 {
      AppendsGoOut(s, upto - 1);
    }
  }

  lemma {:induction false} RequestsGoOut(s: Node, upto: nat)
    ensures ToOthers(BroadcastVote(s, upto), upto, s.id)
  {
    if upto > 0 {
      RequestsGoOut(s, upto - 1);
    }
  }

  lemma {:induction false} RequestsAsk(s: Node, upto: nat)
    requires Shape(s.log) && s.role == Candidate
    ensures forall m | m in BroadcastVote(s, upto) :: AsksFor(m, s)
  {
    if upto > 0 {
      RequestsAsk(s, upto - 1);
    }
  }

  lemma AdvanceKeepsSending(s: Node)
    ensures
      var s' := AdvanceCommit(s);
      && s'.id == s.id && s'.term == s.term && s'.role == s.role && s'.log == s.log
      && s'.nextIndex == s.nextIndex && s'.matchIndex == s.matchIndex && s'.peers == s.peers && s'.votedFor == s.votedFor
  {
  }

  lemma ProposeSends(s: Node, command: Command, n: nat)
    requires Ready(s, n) && s.role == Leader
    ensures
      var (s', out) := HandlePropose(s, command);
      ToOthers(out, n, s.id) && forall m | m in out :: ReadOff(m, s', s.commit)
  {
    var s1 := Proposed(s, command);
    AdvanceKeepsSending(s1);
    ExtendedOk(s.log, s.term, command);
    assert s1.log == s.log + [Entry(|s.log|, s.term, command)];
    BroadcastIsReadOff(s1, s1.peers);
    AppendsGoOut(s1, s1.peers);
  }

  lemma HeartbeatSends(s: Node, n: nat)
    requires Ready(s, n) && s.role == Leader
    ensures ToOthers(HandleHeartbeatTimeout(s), n, s.id) && forall m | m in HandleHeartbeatTimeout(s) :: ReadOff(m, s, s.commit)
  {
    BroadcastIsReadOff(s, s.peers);
    AppendsGoOut(s, s.peers);
  }

  lemma RefusalSends(s: Node, m: Message, n: nat)
    requires Ready(s, n) && s.role == Leader && m.AppendReply? && !m.success && m.term == s.term && m.src in s.nextIndex
    ensures
      var (s', out) := HandleAppendReply(s, m);
      |out| == 1 && ReadOff(out[0], s', s.commit) && out[0].dst == m.src
  {
    SendIsReadOff(BackedOff(s, m.src), m.src);
  }

  lemma TimeoutSends(s: Node, n: nat)
    requires Ready(s, n) && s.role != Leader
    ensures
      var (s', out) := HandleElectionTimeout(s);
      ToOthers(out, n, s.id) && forall m | m in out :: AsksFor(m, s')
  {
    var s1 := BecomeCandidate(s);
    RequestsAsk(s1, s1.peers);
    RequestsGoOut(s1, s1.peers);
  }

  // ---- One event ----

  lemma NodeReady(c: Cluster, i: nat)
    requires CoresOk(c) && IdsOk(c.proto) && NodesOk(c.proto) && AllNodesOk(c) && i in c.nodes
    ensures c.nodes[i].id == i && Ready(c.nodes[i], c.proto.n)
  {
    assert NodeOk(c.proto, i, c.nodes[i], Tally(c, i));
    assert LogOk(c.proto.nodes[i].log, c.proto.nodes[i].term);
  }

  lemma PeerReplies(c: Cluster, k: nat)
    requires CoresOk(c) && IdsOk(c.proto) && AllNodesOk(c) && SentOk(c) && Enabled(c, Deliver(k)) && c.sent[k].AppendReply?
    ensures c.sent[k].src in Others(c.nodes[c.sent[k].dst])
  {
    var i := c.sent[k].dst;
    assert NodeOk(c.proto, i, c.nodes[i], Tally(c, i));
    ReplierIsPeer(c.proto, i, c.nodes[i], c.sent[k]);
  }

  predicate Sends(s: Node, s': Node, out: seq<Message>) {
    forall m | m in out ::
      (m.AppendEntries? ==> ReadOff(m, s', s.commit)) && (m.RequestVote? ==> AsksFor(m, s') && s'.term == s.term + 1)
  }

  lemma ReplySends(s: Node, m: Message, n: nat)
    requires Ready(s, n) && m.AppendReply? && (s.role == Leader ==> m.src in s.nextIndex)
    ensures Sends(s, HandleAppendReply(s, m).0, HandleAppendReply(s, m).1)
  {
    if s.role == Leader && m.term == s.term && !m.success {
      RefusalSends(s, m, n);
    }
  }

  lemma MessageSends(s: Node, m: Message, n: nat)
    requires Ready(s, n) && (m.AppendReply? && s.role == Leader ==> m.src in s.nextIndex)
    ensures Sends(s, HandleMessage(s, m).0, HandleMessage(s, m).1)
  {
    if m.AppendReply? {
      ReplySends(s, m, n);
    }
  }

  lemma LocalSends(c: Cluster, e: Event)
    requires Enabled(c, e) && !e.Deliver? && Ready(c.nodes[Target(c, e)], c.proto.n)
    ensures Sends(c.nodes[Target(c, e)], Outcome(c, e).0, Outcome(c, e).1)
  {
    var s := c.nodes[Target(c, e)];
    match e
    case ElectionTimeout(_) => if s.role != Leader { TimeoutSends(s, c.proto.n); }
    case HeartbeatTimeout(_) => if s.role == Leader { HeartbeatSends(s, c.proto.n); }
    case Propose(_, command) => if s.role == Leader { ProposeSends(s, command, c.proto.n); }
  }

  lemma EventSends(c: Cluster, e: Event)
    requires ClusterOk(c) && Enabled(c, e)
    ensures Sends(c.nodes[Target(c, e)], Outcome(c, e).0, Outcome(c, e).1)
  {
    NodeReady(c, Target(c, e));
    if e.Deliver? {
      if c.sent[e.k].AppendReply? {
        PeerReplies(c, e.k);
      }
      MessageSends(c.nodes[Target(c, e)], c.sent[e.k], c.proto.n);
    } else {
      LocalSends(c, e);
    }
  }

  lemma NewlySent(c: Cluster, e: Event, a: nat)
    requires Enabled(c, e) && |c.sent| <= a < |After(c, e).sent|
    ensures After(c, e).sent[a] in Outcome(c, e).1
  {
    assert After(c, e).sent[a] == Outcome(c, e).1[a - |c.sent|];
  }

  predicate Sent(c: Cluster, c': Cluster, m: Message) {
    && m.src in c.nodes && m.src in c'.nodes
    && (m.AppendEntries? ==> ReadOff(m, c'.nodes[m.src], c.nodes[m.src].commit))
    && (m.RequestVote? ==> AsksFor(m, c'.nodes[m.src]) && m.term == c.nodes[m.src].term + 1)
  }

  lemma IdIsKept(c: Cluster, e: Event)
    requires ClusterOk(c) && Enabled(c, e)
    ensures After(c, e).nodes[Target(c, e)].id == Target(c, e)
  {
    EventKeeps(c, e);
    NodeReady(After(c, e), Target(c, e));
  }

  lemma SentBy(c: Cluster, c': Cluster, i: nat, out: seq<Message>, m: Message)
    requires i in c.nodes && i in c'.nodes && Sends(c.nodes[i], c'.nodes[i], out) && c'.nodes[i].id == i
    requires m in out && (m.AppendEntries? || m.RequestVote?)
    ensures Sent(c, c', m)
  {
  }

  lemma SentIs(c: Cluster, e: Event, a: nat)
    requires ClusterOk(c) && Enabled(c, e) && |c.sent| <= a < |After(c, e).sent|
    requires After(c, e).sent[a].AppendEntries? || After(c, e).sent[a].RequestVote?
    ensures Sent(c, After(c, e), After(c, e).sent[a])
  {
    EventSends(c, e);
    NewlySent(c, e, a);
    IdIsKept(c, e);
    SentBy(c, After(c, e), Target(c, e), Outcome(c, e).1, After(c, e).sent[a]);
  }

  // ---- Every run ----

  lemma Stepped(n: nat, events: seq<Event>, states: seq<Cluster>, k: nat)
    requires IsRun(n, events, states) && k < |events|
    ensures ClusterOk(states[k]) && Enabled(states[k], events[k]) && states[k + 1] == After(states[k], events[k])
  {
    RunOk(n, events, states, k);
  }

  /**
   * In every run, every AppendEntries that an event sends carries the commit index its sender had before
   * the event, and the sender's log from `nextIndex` on as it is after the event.
   */
  lemma AppendsInRuns(n: nat, events: seq<Event>, states: seq<Cluster>, k: nat, a: nat)
    requires IsRun(n, events, states) && k < |events| && |states[k].sent| <= a < |states[k + 1].sent|
    requires states[k + 1].sent[a].AppendEntries?
    ensures
      var m := states[k + 1].sent[a];
      && m.src in states[k].nodes && m.src in states[k + 1].nodes
      && ReadOff(m, states[k + 1].nodes[m.src], states[k].nodes[m.src].commit)
  {
    Stepped(n, events, states, k);
    SentIs(states[k], events[k], a);
  }

  /** In every run, every RequestVote asks for a term new to its sender, with the end of the sender's log. */
  lemma RequestsInRuns(n: nat, events: seq<Event>, states: seq<Cluster>, k: nat, a: nat)
    requires IsRun(n, events, states) && k < |events| && |states[k].sent| <= a < |states[k + 1].sent|
    requires states[k + 1].sent[a].RequestVote?
    ensures
      var m := states[k + 1].sent[a];
      && m.src in states[k].nodes && m.src in states[k + 1].nodes && AsksFor(m, states[k + 1].nodes[m.src])
      && m.term == states[k].nodes[m.src].term + 1
  {
    Stepped(n, events, states, k);
    SentIs(states[k], events[k], a);
  }

  predicate Spreads(c: Cluster, e: Event)
    requires Enabled(c, e)
  {
    var leads := c.nodes[Target(c, e)].role == Leader;
    (e.ElectionTimeout? && !leads) || ((e.HeartbeatTimeout? || e.Propose?) && leads)
  }

  lemma EventReaches(c: Cluster, e: Event)
    requires ClusterOk(c) && Enabled(c, e) && !e.Deliver?
    ensures Spreads(c, e) ==> ToOthers(Outcome(c, e).1, c.proto.n, Target(c, e))
    ensures !Spreads(c, e) ==> Outcome(c, e).1 == []
  {
    NodeReady(c, Target(c, e));
    LocalReaches(c, e);
  }

  lemma LocalReaches(c: Cluster, e: Event)
    requires Enabled(c, e) && !e.Deliver?
    requires c.nodes[Target(c, e)].id == Target(c, e) && Ready(c.nodes[Target(c, e)], c.proto.n)
    ensures Spreads(c, e) ==> ToOthers(Outcome(c, e).1, c.proto.n, Target(c, e))
    ensures !Spreads(c, e) ==> Outcome(c, e).1 == []
  {
    var s := c.nodes[Target(c, e)];
    match e
    case ElectionTimeout(_) => if s.role != Leader { TimeoutSends(s, c.proto.n); }
    case HeartbeatTimeout(_) => if s.role == Leader { HeartbeatSends(s, c.proto.n); }
    case Propose(_, command) => if s.role == Leader { ProposeSends(s, command, c.proto.n); }
  }

  lemma {:induction false} ClusterSize(n: nat, events: seq<Event>, states: seq<Cluster>, k: nat)
    requires IsRun(n, events, states) && k < |states|
    ensures states[k].proto.n == n
  {
    if k > 0 {
      var before := k - 1;
      ClusterSize(n, events, states, before);
      assert states[before + 1] == After(states[before], events[before]);
    }
  }

  /** In every run, a timeout or proposal that leads to requests sends one to every other node. */
  lemma RequestsReachAll(n: nat, events: seq<Event>, states: seq<Cluster>, k: nat)
    requires IsRun(n, events, states) && k < |events| && !events[k].Deliver? && Enabled(states[k], events[k])
    ensures states[k].sent <= states[k + 1].sent
    ensures
      var out := states[k + 1].sent[|states[k].sent|..];
      if Spreads(states[k], events[k]) then ToOthers(out, n, Target(states[k], events[k])) else out == []
  {
    Stepped(n, events, states, k);
    ClusterSize(n, events, states, k);
    EventReaches(states[k], events[k]);
    assert states[k + 1].sent[|states[k].sent|..] == Outcome(states[k], events[k]).1;
  }
}
