/**
 * The Raft safety theorems, stated over every run of the cluster and in terms of what the nodes
 * hold: terms, roles, logs, commit indices and delivered commands.
 */
module RaftTheorems {
  import opened Bytes
  import opened Collections
  import opened RaftLog
  import opened RaftNode
  import opened RaftProtocol
  import opened RaftCompleteness
  import opened RaftCluster
  import opened RaftInvariants
  import opened RaftSteps
  import opened RaftRuns
  import opened RaftSafety

  // ---- Safe is kept by every fresh delivery ----

  lemma RetryIsSafe(p: Proto, p': Proto, i: nat, s: Node, m: Message)
    requires ReignsOk(p) && Forward(p, p') && Mirrors(p, i, s) && NodeSafe(p, s) && s.role == Leader && Shape(s.log)
    requires m.AppendReply? && m.src != i && m.src in Others(s) && LeaderOk(p, BackedOff(s, m.src))
    ensures MsgSafe(p', AppendEntriesFor(BackedOff(s, m.src), m.src))
  {
    var s1 := BackedOff(s, m.src);
    SendingIsSafe(p, i, s1, m.src);
    SendingIsOk(p, i, s1, m.src);
    MsgSafeStays(p, p', AppendEntriesFor(s1, m.src));
  }

  lemma AppendReplyReady(p: Proto, i: nat, s: Node, m: Message, tally: set<nat>)
    requires IdsOk(p) && ReignsOk(p) && AcksOk(p) && Mirrors(p, i, s) && NodeOk(p, i, s, tally)
    requires m.AppendReply? && MsgOk(p, m) && m.dst == i && m.term == s.term && s.role == Leader
    ensures m.src in Others(s)
    ensures LeaderOk(p, if m.success then Matched(s, m.src, m.lastIndex) else BackedOff(s, m.src))
  {
    ReplierIsPeer(p, i, s, m);
    if m.success {
      MatchedKeepsLeader(p, i, s, m.src, m.lastIndex);
    } else {
      BackedOffKeepsLeader(p, s, m.src);
    }
  }

  lemma AppendReplyMsgsSafe(p: Proto, p': Proto, i: nat, s: Node, m: Message)
    requires ReignsOk(p) && Forward(p, p') && Mirrors(p, i, s) && Shape(s.log) && NodeSafe(p, s)
    requires m.AppendReply? && m.src != i
    requires m.term == s.term && s.role == Leader && !m.success ==> m.src in Others(s) && LeaderOk(p, BackedOff(s, m.src))
    ensures forall x | x in HandleAppendReply(s, m).1 :: MsgSafe(p', x)
  {
    if m.term == s.term && s.role == Leader && !m.success {
      RetryIsSafe(p, p', i, s, m);
    }
  }

  lemma AppendReplyDeliveredSafe(c: Cluster, k: nat)
    requires Enabled(c, Deliver(k)) && c.sent[k].AppendReply? && MsgOk(c.proto, c.sent[k])
    requires IdsOk(c.proto) && NodesOk(c.proto) && ReignsOk(c.proto) && AcksOk(c.proto)
    requires Forward(c.proto, After(c, Deliver(k)).proto)
    requires
      var i := c.sent[k].dst;
      && Mirrors(c.proto, i, c.nodes[i]) && NodeOk(c.proto, i, c.nodes[i], Tally(c, i)) && NodeSafe(c.proto, c.nodes[i])
    ensures HandledSafe(c, Deliver(k))
  {
    var m := c.sent[k];
    var i := m.dst;
    var s := c.nodes[i];
    assert LogOk(s.log, s.term);
    if m.term == s.term && s.role == Leader {
      AppendReplyReady(c.proto, i, s, m, Tally(c, i));
    }
    AppendReplyMsgsSafe(c.proto, After(c, Deliver(k)).proto, i, s, m);
    AppendReplyIsSafe(c.proto, After(c, Deliver(k)).proto, i, s, m);
  }

  lemma VoteKeepsState(s: Node, m: Message)
    requires m.RequestVote?
    ensures SameState(s, HandleMessage(s, m).0) && forall x | x in HandleMessage(s, m).1 :: x.VoteReply?
  {
  }

  lemma VoteReplyKeepsState(s: Node, m: Message)
    requires m.VoteReply?
    ensures SameState(s, HandleMessage(s, m).0) && HandleMessage(s, m).1 == []
  {
  }

  lemma VoteDeliveredSafe(c: Cluster, k: nat)
    requires Enabled(c, Deliver(k)) && (c.sent[k].VoteReply? || c.sent[k].RequestVote?)
    requires Forward(c.proto, After(c, Deliver(k)).proto) && NodeSafe(c.proto, c.nodes[c.sent[k].dst])
    ensures HandledSafe(c, Deliver(k))
  {
    var m := c.sent[k];
    var c' := After(c, Deliver(k));
    if m.RequestVote? {
      VoteKeepsState(c.nodes[m.dst], m);
    } else {
      VoteReplyKeepsState(c.nodes[m.dst], m);
    }
    SameStateIsSafe(c.proto, c'.proto, c.nodes[m.dst], c'.nodes[m.dst]);
  }

  lemma RefusedIsSafe(c: Cluster, k: nat)
    requires Enabled(c, Deliver(k)) && c.sent[k].AppendEntries?
    requires Forward(c.proto, After(c, Deliver(k)).proto) && NodeSafe(c.proto, c.nodes[c.sent[k].dst])
    requires
      var m := c.sent[k];
      m.term < c.nodes[m.dst].term || !Consistent(c.nodes[m.dst].log, m.prevIndex, m.prevTerm)
    ensures HandledSafe(c, Deliver(k))
  {
    var i := c.sent[k].dst;
    var c' := After(c, Deliver(k));
    SameStateIsSafe(c.proto, c'.proto, c.nodes[i], c'.nodes[i]);
  }

  lemma HeardShares(p: Proto, p1: Proto, i: nat, s: Node, m: Message)
    requires Basic(p1) && LeadersHold(p1) && Forward(p, p1) && NodeSafe(p, s) && m.AppendEntries?
    requires i in p1.nodes && p1.nodes[i].log == s.log && m.term >= s.term && m.term in p1.reigns
    ensures Agree(p1.reigns[m.term].log, s.log, s.commit)
  {
    assert LogOk(p1.nodes[i].log, p1.nodes[i].term);
    ForwardGrows(p, p1);
    KnownStays(p, p1, s.log, s.commit, s.term);
    LeaderKnows(p1, s.log, s.commit, s.term, m.term);
  }

  lemma AcceptedIsSafe(p: Proto, p1: Proto, i: nat, s: Node, m: Message)
    requires Basic(p1) && LeadersHold(p1) && Forward(p, p1) && NodeSafe(p, s) && m.AppendEntries? && MsgSafe(p1, m)
    requires CanAccept(p1, i, m.prevIndex, m.entries) && p1.nodes[i].log == s.log && p1.nodes[i].term == m.term
    requires m.term >= s.term && Consistent(s.log, m.prevIndex, m.prevTerm) && NonStale(s.log, m.prevIndex, m.entries)
    ensures NodeSafe(p1, HandleAppendEntries(s, m).0)
  {
    HeardShares(p, p1, i, s, m);
    ForwardGrows(p, p1);
    OvertakenIsSafe(p, p1, i, s, m);
    OvertakenFacts(p1, i, s, m);
    AcceptedCommits(p1, s, m);
  }

  lemma OvertakenFacts(p1: Proto, i: nat, s: Node, m: Message)
    requires NodesOk(p1) && ReignsOk(p1) && LogsMatch(p1) && m.AppendEntries?
    requires (m.entries == [] ==> m.leaderCommit <= m.prevIndex)
    requires CanAccept(p1, i, m.prevIndex, m.entries) && p1.nodes[i].log == s.log && p1.nodes[i].term == m.term
    ensures
      var log := Overtaken(s, m).log;
      Shape(log) && Agree(log, p1.reigns[m.term].log, Min(m.leaderCommit, |log| - 1))
  {
    AcceptedFacts(p1, i, m);
    assert Overtaken(s, m).log == Overwritten(p1.nodes[i].log, m.prevIndex, m.entries);
  }

  lemma AcceptedCommits(p1: Proto, s: Node, m: Message)
    requires m.AppendEntries? && m.term in p1.reigns && MsgSafe(p1, m) && NodeSafe(p1, Overtaken(s, m))
    requires m.term >= s.term && Consistent(s.log, m.prevIndex, m.prevTerm)
    requires
      var log := Overtaken(s, m).log;
      Shape(log) && Agree(log, p1.reigns[m.term].log, Min(m.leaderCommit, |log| - 1))
    ensures NodeSafe(p1, HandleAppendEntries(s, m).0)
  {
    OvertakenCommits(p1, s, m, p1.reigns[m.term].log);
  }

  lemma HeardFacts(p: Proto, i: nat, s: Node, m: Message)
    requires Mirrors(p, i, s) && m.AppendEntries? && MsgOk(p, m) && MsgSafe(p, m)
    requires m.term >= s.term && Consistent(s.log, m.prevIndex, m.prevTerm)
    ensures
      var p1 := Heard(p, i, m.term);
      && Forward(p, p1) && MsgSafe(p1, m) && CanAccept(p1, i, m.prevIndex, m.entries)
      && p1.nodes[i].log == s.log && p1.nodes[i].term == m.term
  {
    HeardIsForward(p, i, m.term);
    HeardCanAccept(p, i, s, m);
    MsgSafeStays(p, Heard(p, i, m.term), m);
  }

  lemma AppendEntriesDeliveredSafe(c: Cluster, k: nat)
    requires Basic(c.proto) && Complete(c.proto) && Enabled(c, Deliver(k)) && FreshEvent(c, Deliver(k))
    requires c.sent[k].AppendEntries? && MsgOk(c.proto, c.sent[k]) && MsgSafe(c.proto, c.sent[k])
    requires Mirrors(c.proto, c.sent[k].dst, c.nodes[c.sent[k].dst]) && NodeSafe(c.proto, c.nodes[c.sent[k].dst])
    requires Forward(c.proto, After(c, Deliver(k)).proto)
    ensures HandledSafe(c, Deliver(k))
  {
    var m := c.sent[k];
    var i := m.dst;
    var s := c.nodes[i];
    if m.term < s.term || !Consistent(s.log, m.prevIndex, m.prevTerm) {
      RefusedIsSafe(c, k);
    } else {
      HeardReady(c.proto, i, s, m);
      HeardFacts(c.proto, i, s, m);
      AcceptedIsSafe(c.proto, Heard(c.proto, i, m.term), i, s, m);
      AcceptedStaysSafe(c, k);
    }
  }

  lemma AcceptedStaysSafe(c: Cluster, k: nat)
    requires Enabled(c, Deliver(k)) && c.sent[k].AppendEntries? && Mirrors(c.proto, c.sent[k].dst, c.nodes[c.sent[k].dst])
    requires
      var m := c.sent[k];
      var s := c.nodes[m.dst];
      && m.term >= s.term && Consistent(s.log, m.prevIndex, m.prevTerm)
      && NodeSafe(Heard(c.proto, m.dst, m.term), HandleAppendEntries(s, m).0)
    ensures HandledSafe(c, Deliver(k))
  {
    var m := c.sent[k];
    var i := m.dst;
    var s := c.nodes[i];
    var p1 := Heard(c.proto, i, m.term);
    AppendEntriesRecorded(c, k);
    AppendEntriesIsAccept(c.proto, i, s, m, Tally(c, i));
    AcceptIsForward(p1, i, m.prevIndex, m.entries);
    var s' := HandleAppendEntries(s, m).0;
    SameStateIsSafe(p1, After(c, Deliver(k)).proto, s', s');
  }

  lemma EventHandledSafe(c: Cluster, e: Event)
    requires ClusterOk(c) && Safe(c) && Enabled(c, e) && FreshEvent(c, e)
    requires ClusterOk(After(c, e)) && Forward(c.proto, After(c, e).proto) && HandledOk(c, e)
    ensures HandledSafe(c, e)
  {
    TargetMirrors(c, e);
    if e.Deliver? {
      DeliveredSafe(c, e.k);
    } else {
      LocalEventSafe(c, e);
    }
  }

  lemma DeliveredSafe(c: Cluster, k: nat)
    requires Enabled(c, Deliver(k)) && FreshEvent(c, Deliver(k)) && Basic(c.proto) && Complete(c.proto)
    requires MsgOk(c.proto, c.sent[k]) && MsgSafe(c.proto, c.sent[k]) && Forward(c.proto, After(c, Deliver(k)).proto)
    requires
      var i := c.sent[k].dst;
      && Mirrors(c.proto, i, c.nodes[i]) && NodeOk(c.proto, i, c.nodes[i], Tally(c, i)) && NodeSafe(c.proto, c.nodes[i])
    ensures HandledSafe(c, Deliver(k))
  {
    match c.sent[k]
    case AppendEntries(_, _, _, _, _, _, _, _) => AppendEntriesDeliveredSafe(c, k);
    case AppendReply(_, _, _, _, _) => AppendReplyDeliveredSafe(c, k);
    case RequestVote(_, _, _, _, _, _) => VoteDeliveredSafe(c, k);
    case VoteReply(_, _, _, _) => VoteDeliveredSafe(c, k);
  }

  lemma EventOthersSafe(c: Cluster, e: Event)
    requires Safe(c) && SentOk(c) && Enabled(c, e) && Forward(c.proto, After(c, e).proto) && HandledSafe(c, e)
    requires Complete(After(c, e).proto)
    ensures Safe(After(c, e))
  {
    var c' := After(c, e);
    forall i | i in c'.nodes ensures NodeSafe(c'.proto, c'.nodes[i]) {
      if i != Target(c, e) {
        SameStateIsSafe(c.proto, c'.proto, c.nodes[i], c'.nodes[i]);
      }
    }
    forall k | 0 <= k < |c'.sent| ensures MsgSafe(c'.proto, c'.sent[k]) {
      if k < |c.sent| {
        MsgSafeStays(c.proto, c'.proto, c.sent[k]);
      } else {
        assert c'.sent[k] in Outcome(c, e).1;
      }
    }
  }

  lemma EventKeepsSafe(c: Cluster, e: Event)
    requires ClusterOk(c) && Safe(c) && Enabled(c, e) && FreshEvent(c, e)
    ensures ClusterOk(After(c, e)) && Safe(After(c, e)) && Forward(c.proto, After(c, e).proto)
  {
    EventKeeps(c, e);
    EventProto(c, e);
    EventHandled(c, e);
    EventComplete(c, e);
    EventHandledSafe(c, e);
    EventOthersSafe(c, e);
  }

  lemma StartSafe(n: nat)
    ensures Safe(Start(n))
  {
  }

  lemma {:induction false} RunSafe(n: nat, events: seq<Event>, states: seq<Cluster>, k: nat)
    requires FreshRun(n, events, states) && k < |states|
    ensures ClusterOk(states[k]) && Safe(states[k])
  {
    if k == 0 {
      StartOk(n);
      StartSafe(n);
    } else {
      RunSafe(n, events, states, k - 1);
      EventKeepsSafe(states[k - 1], events[k - 1]);
    }
  }

  lemma StepForward(n: nat, events: seq<Event>, states: seq<Cluster>, k: nat)
    requires IsRun(n, events, states) && k < |events|
    ensures Forward(states[k].proto, states[k + 1].proto)
  {
    RunOk(n, events, states, k);
    EventKeeps(states[k], events[k]);
  }

  lemma {:induction false} ForwardChain(states: seq<Cluster>, a: nat, b: nat)
    requires a <= b < |states| && forall k | a <= k < b :: Forward(states[k].proto, states[k + 1].proto)
    ensures Forward(states[a].proto, states[b].proto)
    decreases b
  {
    if a == b {
      ForwardRefl(states[a].proto);
    } else {
      ForwardChain(states, a, b - 1);
      assert Forward(states[b - 1].proto, states[b - 1 + 1].proto);
      ForwardTrans(states[a].proto, states[b - 1].proto, states[b].proto);
    }
  }

  lemma RunForward(n: nat, events: seq<Event>, states: seq<Cluster>, a: nat, b: nat)
    requires IsRun(n, events, states) && a <= b < |states|
    ensures Forward(states[a].proto, states[b].proto)
  {
    forall k | a <= k < b ensures Forward(states[k].proto, states[k + 1].proto) {
      StepForward(n, events, states, k);
    }
    ForwardChain(states, a, b);
  }

  // ---- Election Safety ----

  /** No run ever has two leaders of one term, at the same time or at different times. */
  lemma ElectionSafety(n: nat, events: seq<Event>, states: seq<Cluster>, a: nat, b: nat, i: nat, j: nat)
    requires IsRun(n, events, states) && a < |states| && b < |states|
    requires i in states[a].nodes && j in states[b].nodes
    requires states[a].nodes[i].role == Leader && states[b].nodes[j].role == Leader
    requires states[a].nodes[i].term == states[b].nodes[j].term
    ensures i == j
  {
    RunOk(n, events, states, a);
    RunOk(n, events, states, b);
    if a <= b {
      RunForward(n, events, states, a, b);
    } else {
      RunForward(n, events, states, b, a);
    }
  }

  /** The vote counter never exceeds the number of nodes whose one vote in that term went to the candidate. */
  lemma VotesAreDistinct(n: nat, events: seq<Event>, states: seq<Cluster>, k: nat, i: nat)
    requires IsRun(n, events, states) && k < |states| && i in states[k].nodes && states[k].nodes[i].role == Candidate
    ensures
      var voters := set x | x in states[k].proto.votes && x.candidate == i && x.term == states[k].nodes[i].term :: x.voter;
      states[k].nodes[i].votes <= |voters|
    ensures OneVote(states[k].proto)
  {
    RunOk(n, events, states, k);
    var c := states[k];
    assert NodeOk(c.proto, i, c.nodes[i], Tally(c, i));
    var voters := set x | x in c.proto.votes && x.candidate == i && x.term == c.nodes[i].term :: x.voter;
    forall v | v in Tally(c, i) ensures v in voters {
      assert Vote(v, c.nodes[i].term, i) in c.proto.votes;
    }
    SubsetSize(Tally(c, i), voters);
  }

  // ---- Log Matching ----

  /** Two logs with the same term at the same index, ever, anywhere, are the same up to that index. */
  lemma LogMatching(n: nat, events: seq<Event>, states: seq<Cluster>, a: nat, b: nat, i: nat, j: nat, x: nat)
    requires IsRun(n, events, states) && a <= b < |states|
    requires i in states[a].nodes && j in states[b].nodes
    requires 1 <= x < |states[a].nodes[i].log| && x < |states[b].nodes[j].log|
    requires states[a].nodes[i].log[x].term == states[b].nodes[j].log[x].term
    ensures states[a].nodes[i].log[..x + 1] == states[b].nodes[j].log[..x + 1]
  {
    RunOk(n, events, states, a);
    RunOk(n, events, states, b);
    RunForward(n, events, states, a, b);
    LogsOfTwoTimes(states[a], states[b], i, j, x);
  }

  lemma LogsOfTwoTimes(c: Cluster, c': Cluster, i: nat, j: nat, x: nat)
    requires CoresOk(c) && CoresOk(c') && LogsMatch(c.proto) && LogsMatch(c'.proto) && Forward(c.proto, c'.proto)
    requires i in c.nodes && j in c'.nodes && 1 <= x < |c.nodes[i].log| && x < |c'.nodes[j].log|
    requires c.nodes[i].log[x].term == c'.nodes[j].log[x].term
    ensures c.nodes[i].log[..x + 1] == c'.nodes[j].log[..x + 1]
  {
    var t := c.nodes[i].log[x].term;
    assert Agree(c.proto.nodes[i].log, c.proto.reigns[t].log, x);
    assert Agree(c'.proto.nodes[j].log, c'.proto.reigns[t].log, x);
    assert c.proto.reigns[t].log[..x + 1] == c'.proto.reigns[t].log[..x + 1];
  }

  /** Every entry's index is its position, and terms never fall along a log. */
  lemma LogShape(n: nat, events: seq<Event>, states: seq<Cluster>, k: nat, i: nat)
    requires IsRun(n, events, states) && k < |states| && i in states[k].nodes
    ensures Shape(states[k].nodes[i].log)
  {
    RunOk(n, events, states, k);
    assert LogOk(states[k].proto.nodes[i].log, states[k].proto.nodes[i].term);
  }

  /** Every node delivers indices 1, 2, 3 and so on, whatever is reordered or cut off. */
  lemma DeliveryInSequence(n: nat, events: seq<Event>, states: seq<Cluster>, k: nat, i: nat, x: nat)
    requires IsRun(n, events, states) && k < |states| && i in states[k].nodes && x < |states[k].nodes[i].delivered|
    ensures states[k].nodes[i].delivered[x].index == x + 1
    ensures |states[k].nodes[i].delivered| == states[k].nodes[i].applied
  {
    RunOk(n, events, states, k);
    assert NodeOk(states[k].proto, i, states[k].nodes[i], Tally(states[k], i));
  }

  // ---- What a leader adds to its log is of its own term ----

  /** Whatever a reign's log has gained is of the term of that reign. */
  predicate OwnTail(p: Proto, p': Proto) {
    forall t | t in p.reigns && t in p'.reigns ::
      forall i | |p.reigns[t].log| <= i < |p'.reigns[t].log| :: p'.reigns[t].log[i].term == t
  }

  /** A node leads in the term it was in, and a leader's log gains at most one entry of that term. */
  predicate LeadsOn(s: Node, s': Node) {
    s'.role == Leader ==>
      s'.term == s.term
      && (s.role == Leader && s'.log != s.log ==>
            |s'.log| == |s.log| + 1 && s'.log[|s.log|].term == s.term)
  }

  lemma MessageLeadsOn(s: Node, m: Message)
    ensures LeadsOn(s, HandleMessage(s, m).0)
  {
    match m
    case AppendEntries(_, _, _, _, _, _, _, _) => FollowsAfterAppend(s, m);
    case AppendReply(_, _, _, _, _) =>
      if m.term == s.term && s.role == Leader && m.success {
        AdvanceKeepsCore(Matched(s, m.src, m.lastIndex));
      }
    case _ =>
  }

  lemma FollowsAfterAppend(s: Node, m: Message)
    requires m.AppendEntries?
    ensures HandleAppendEntries(s, m).0 == s || HandleAppendEntries(s, m).0.role == Follower
  {
  }

  lemma EventLeadsOn(c: Cluster, e: Event)
    requires Enabled(c, e)
    ensures LeadsOn(c.nodes[Target(c, e)], Outcome(c, e).0)
  {
    var s := c.nodes[Target(c, e)];
    match e
    case Deliver(k) => MessageLeadsOn(s, c.sent[k]);
    case Propose(_, command) =>
      if s.role == Leader {
        AdvanceKeepsCore(Proposed(s, command));
      }
    case _ =>
  }

  lemma RecordHasOwnTail(p: Proto, i: nat, s: Node, s': Node, out: seq<Message>, tally: set<nat>)
    requires ReignsOk(p) && Mirrors(p, i, s) && LeadsOn(s, s')
    requires Led(s, s') && s.term in p.reigns ==> p.reigns[s.term].leader == i
    ensures OwnTail(p, Record(p, i, s, s', out, tally))
  {
    if Led(s, s') {
      if s.term in p.reigns {
        assert ReignOk(p, s.term);
      }
      OneMoreOfItsOwn(p, Record(p, i, s, s', out, tally), s.term, s'.log);
    }
  }

  lemma OneMoreOfItsOwn(p: Proto, p': Proto, t: nat, log: seq<Entry>)
    requires p'.reigns.Keys == p.reigns.Keys + {t} && p'.reigns[t].log == log
    requires forall u | u in p.reigns && u != t :: p'.reigns[u] == p.reigns[u]
    requires t in p.reigns && |log| > |p.reigns[t].log| ==> |log| == |p.reigns[t].log| + 1 && log[|log| - 1].term == t
    ensures OwnTail(p, p')
  {
  }

  lemma RuledBefore(p: Proto, i: nat, s: Node, s': Node, out: seq<Message>, tally: set<nat>)
    requires LeadsOn(s, s') && Forward(p, Record(p, i, s, s', out, tally)) && Led(s, s') && s.term in p.reigns
    ensures p.reigns[s.term].leader == i
  {
  }

  lemma EventHasOwnTail(c: Cluster, e: Event)
    requires ClusterOk(c) && Enabled(c, e)
    ensures OwnTail(c.proto, After(c, e).proto)
  {
    var i := Target(c, e);
    var (s', out) := Outcome(c, e);
    TargetMirrors(c, e);
    EventProto(c, e);
    EventLeadsOn(c, e);
    var tally := TallyAfter(c.nodes[i], Tally(c, i), e, c.sent);
    if Led(c.nodes[i], s') && c.nodes[i].term in c.proto.reigns {
      RuledBefore(c.proto, i, c.nodes[i], s', out, tally);
    }
    RecordHasOwnTail(c.proto, i, c.nodes[i], s', out, tally);
  }

  lemma OwnTailTrans(p: Proto, p1: Proto, p2: Proto)
    requires OwnTail(p, p1) && OwnTail(p1, p2) && Grows(p.reigns, p1.reigns) && Grows(p1.reigns, p2.reigns)
    ensures OwnTail(p, p2) && Grows(p.reigns, p2.reigns)
  {
    forall t, i | t in p.reigns && t in p2.reigns && |p.reigns[t].log| <= i < |p2.reigns[t].log|
      ensures p2.reigns[t].log[i].term == t
    {
      if i < |p1.reigns[t].log| {
        assert p1.reigns[t].log[i] == p2.reigns[t].log[i];
      }
    }
  }

  lemma StepHasOwnTail(n: nat, events: seq<Event>, states: seq<Cluster>, k: nat)
    requires IsRun(n, events, states) && k < |events|
    ensures OwnTail(states[k].proto, states[k + 1].proto) && Grows(states[k].proto.reigns, states[k + 1].proto.reigns)
  {
    RunOk(n, events, states, k);
    EventHasOwnTail(states[k], events[k]);
    StepForward(n, events, states, k);
    ForwardGrows(states[k].proto, states[k + 1].proto);
  }

  lemma {:induction false} OwnTailChain(states: seq<Cluster>, a: nat, b: nat)
    requires a <= b < |states|
    requires forall k | a <= k < b ::
               OwnTail(states[k].proto, states[k + 1].proto) && Grows(states[k].proto.reigns, states[k + 1].proto.reigns)
    ensures OwnTail(states[a].proto, states[b].proto) && Grows(states[a].proto.reigns, states[b].proto.reigns)
    decreases b
  {
    if a < b {
      OwnTailChain(states, a, b - 1);
      var k := b - 1;
      assert OwnTail(states[k].proto, states[k + 1].proto) && Grows(states[k].proto.reigns, states[k + 1].proto.reigns);
      OwnTailTrans(states[a].proto, states[k].proto, states[b].proto);
    }
  }

  lemma RunHasOwnTail(n: nat, events: seq<Event>, states: seq<Cluster>, a: nat, b: nat)
    requires IsRun(n, events, states) && a <= b < |states|
    ensures OwnTail(states[a].proto, states[b].proto)
  {
    forall k | a <= k < b
      ensures OwnTail(states[k].proto, states[k + 1].proto) && Grows(states[k].proto.reigns, states[k + 1].proto.reigns)
    {
      StepHasOwnTail(n, events, states, k);
    }
    OwnTailChain(states, a, b);
  }

  // ---- Leader Completeness ----

  /**
   * What any node ever commits in some term is in the log of every leader of every later term, even
   * one that ruled before the entry was committed, and of every leader of that term from then on.
   */
  lemma LeaderCompleteness(n: nat, events: seq<Event>, states: seq<Cluster>, a: nat, b: nat, i: nat, j: nat)
    requires FreshRun(n, events, states) && a < |states| && b < |states| && i in states[a].nodes && j in states[b].nodes
    requires states[b].nodes[j].role == Leader
    requires states[b].nodes[j].term > states[a].nodes[i].term || (states[b].nodes[j].term == states[a].nodes[i].term && a <= b)
    ensures Agree(states[b].nodes[j].log, states[a].nodes[i].log, states[a].nodes[i].commit)
  {
    if a <= b {
      LaterLeaderComplete(n, events, states, a, b, i, j);
    } else {
      EarlierLeaderComplete(n, events, states, a, b, i, j);
    }
  }

  lemma LaterLeaderComplete(n: nat, events: seq<Event>, states: seq<Cluster>, a: nat, b: nat, i: nat, j: nat)
    requires FreshRun(n, events, states) && a <= b < |states| && i in states[a].nodes && j in states[b].nodes
    requires states[b].nodes[j].role == Leader && states[b].nodes[j].term >= states[a].nodes[i].term
    ensures Agree(states[b].nodes[j].log, states[a].nodes[i].log, states[a].nodes[i].commit)
  {
    RunSafe(n, events, states, a);
    RunSafe(n, events, states, b);
    RunForward(n, events, states, a, b);
    LeaderHasKnown(states[a], states[b], i, j);
  }

  lemma EarlierLeaderComplete(n: nat, events: seq<Event>, states: seq<Cluster>, a: nat, b: nat, i: nat, j: nat)
    requires FreshRun(n, events, states) && b <= a < |states| && i in states[a].nodes && j in states[b].nodes
    requires states[b].nodes[j].role == Leader && states[b].nodes[j].term > states[a].nodes[i].term
    ensures Agree(states[b].nodes[j].log, states[a].nodes[i].log, states[a].nodes[i].commit)
  {
    RunSafe(n, events, states, a);
    RunSafe(n, events, states, b);
    RunForward(n, events, states, b, a);
    RunHasOwnTail(n, events, states, b, a);
    LeaderMirrors(states[b], j);
    EarlierLeaderHasKnown(states[a], states[b], i, j);
  }

  lemma LeaderMirrors(c: Cluster, j: nat)
    requires CoresOk(c) && AllNodesOk(c) && j in c.nodes
    ensures Mirrors(c.proto, j, c.nodes[j])
  {
    assert NodeOk(c.proto, j, c.nodes[j], Tally(c, j));
  }

  /** A leader of a later term that lacked the entry would have put one of its own in that place. */
  lemma EarlierLeaderHasKnown(c: Cluster, c': Cluster, i: nat, j: nat)
    requires CoresOk(c) && Basic(c.proto) && LeadersHold(c.proto) && i in c.nodes && NodeSafe(c.proto, c.nodes[i])
    requires ReignsOk(c'.proto) && j in c'.nodes && Mirrors(c'.proto, j, c'.nodes[j])
    requires Forward(c'.proto, c.proto) && OwnTail(c'.proto, c.proto)
    requires c'.nodes[j].role == Leader && c'.nodes[j].term > c.nodes[i].term
    ensures Agree(c'.nodes[j].log, c.nodes[i].log, c.nodes[i].commit)
  {
    var s, l := c.nodes[i], c'.nodes[j];
    assert LogOk(c.proto.nodes[i].log, c.proto.nodes[i].term);
    LeaderLogIsReign(c'.proto, j, l);
    LeaderKnows(c.proto, s.log, s.commit, s.term, l.term);
    ShortLogAgrees(l.log, c.proto.reigns[l.term].log, s.log, s.commit, l.term);
  }

  lemma ShortLogAgrees(short: seq<Entry>, long: seq<Entry>, log: seq<Entry>, m: nat, t: nat)
    requires short <= long && Agree(long, log, m) && log[m].term < t
    requires forall i | |short| <= i < |long| :: long[i].term == t
    ensures Agree(short, log, m)
  {
    assert long[m] == long[..m + 1][m] == log[..m + 1][m];
    assert short[..m + 1] == long[..m + 1];
  }

  lemma LeaderHasKnown(c: Cluster, c': Cluster, i: nat, j: nat)
    requires CoresOk(c) && NodesOk(c.proto) && i in c.nodes && NodeSafe(c.proto, c.nodes[i])
    requires CoresOk(c') && AllNodesOk(c') && Basic(c'.proto) && LeadersHold(c'.proto) && j in c'.nodes
    requires Forward(c.proto, c'.proto)
    requires c'.nodes[j].role == Leader && c'.nodes[j].term >= c.nodes[i].term
    ensures Agree(c'.nodes[j].log, c.nodes[i].log, c.nodes[i].commit)
  {
    var s, l := c.nodes[i], c'.nodes[j];
    assert LogOk(c.proto.nodes[i].log, c.proto.nodes[i].term);
    ForwardGrows(c.proto, c'.proto);
    KnownStays(c.proto, c'.proto, s.log, s.commit, s.term);
    assert NodeOk(c'.proto, j, l, Tally(c', j));
    LeaderLogIsReign(c'.proto, j, l);
    LeaderKnows(c'.proto, s.log, s.commit, s.term, l.term);
  }

  // ---- State Machine Safety ----

  /** Two logs that are each known up to some index agree up to the smaller one. */
  lemma KnownLogsAgree(p: Proto, a: seq<Entry>, b: seq<Entry>, m: nat, n: nat, t: nat, u: nat)
    requires Basic(p) && LeadersHold(p) && Known(p, a, m, t) && Known(p, b, n, u) && 0 < m <= n
    ensures Agree(a, b, m)
  {
    var w: nat, i: nat :| w <= t && Committed(p, w, i) && m <= i && Agree(a, p.reigns[w].log, m);
    var x: nat, j: nat :| x <= u && Committed(p, x, j) && n <= j && Agree(b, p.reigns[x].log, n);
    AgreeShorter(b, p.reigns[x].log, m, n);
    if w <= x {
      CommittedInLaterLeaders(p, w, i, x);
      AgreeShorter(p.reigns[x].log, p.reigns[w].log, m, i);
    } else {
      CommittedInLaterLeaders(p, x, j, w);
      AgreeShorter(p.reigns[w].log, p.reigns[x].log, m, j);
    }
    AgreeTrans(a, p.reigns[w].log, p.reigns[x].log, m, m);
    AgreeTrans(a, p.reigns[x].log, b, m, m);
  }

  lemma DeliveredAgree(p: Proto, r: Node, s: Node)
    requires Basic(p) && LeadersHold(p) && NodeSafe(p, r) && NodeSafe(p, s) && r.commit <= s.commit
    ensures r.delivered <= s.delivered
  {
    if r.commit > 0 {
      KnownLogsAgree(p, r.log, s.log, r.commit, s.commit, r.term, s.term);
      DeliveryAgrees(r.log, s.log, 0, r.commit);
      DeliverySplits(s.log, 0, r.commit, s.commit);
    }
  }

  /** What one node delivers is always the beginning of what any other delivers, or the other way round. */
  lemma StateMachineSafety(n: nat, events: seq<Event>, states: seq<Cluster>, a: nat, b: nat, i: nat, j: nat)
    requires FreshRun(n, events, states) && a <= b < |states| && i in states[a].nodes && j in states[b].nodes
    ensures
      var d, d' := states[a].nodes[i].delivered, states[b].nodes[j].delivered;
      d <= d' || d' <= d
  {
    SafeInOneRecord(n, events, states, a, b, i, j);
    var p, r, s := states[b].proto, states[a].nodes[i], states[b].nodes[j];
    if r.commit <= s.commit {
      DeliveredAgree(p, r, s);
    } else {
      DeliveredAgree(p, s, r);
    }
  }

  lemma SafeInOneRecord(n: nat, events: seq<Event>, states: seq<Cluster>, a: nat, b: nat, i: nat, j: nat)
    requires FreshRun(n, events, states) && a <= b < |states| && i in states[a].nodes && j in states[b].nodes
    ensures
      var p := states[b].proto;
      Basic(p) && LeadersHold(p) && NodeSafe(p, states[a].nodes[i]) && NodeSafe(p, states[b].nodes[j])
  {
    RunSafe(n, events, states, a);
    RunSafe(n, events, states, b);
    RunForward(n, events, states, a, b);
    SameStateIsSafe(states[a].proto, states[b].proto, states[a].nodes[i], states[a].nodes[i]);
  }
}
