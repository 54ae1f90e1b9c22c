/**
 * Leader Completeness and State Machine Safety (sections 5.4 and 5.4.3 of the Raft paper), for
 * every run in which no stale AppendEntries cuts a follower's log short.
 */
module RaftSafety {
  import opened Bytes
  import opened Collections
  import opened RaftLog
  import opened RaftNode
  import opened RaftProtocol
  import opened RaftCompleteness
  import opened RaftCluster
  import opened RaftInvariants
  import opened RaftSteps
  import opened RaftRuns

  /** `log` up to `m` is the log of a leader of a term up to `t`, up to an entry it has committed. */
  ghost predicate Known(p: Proto, log: seq<Entry>, m: nat, t: nat) {
    m == 0 || exists u: nat, i: nat :: u <= t && Committed(p, u, i) && m <= i && Agree(log, p.reigns[u].log, m)
  }

  ghost predicate NodeSafe(p: Proto, s: Node) {
    s.applied == s.commit && s.commit < |s.log| && s.delivered == Delivery(s.log, 0, s.commit)
    && Known(p, s.log, s.commit, s.term)
  }

  ghost predicate MsgSafe(p: Proto, m: Message) {
    m.AppendEntries? && m.term in p.reigns ==>
      Known(p, p.reigns[m.term].log, m.leaderCommit, m.term) && (m.entries == [] ==> m.leaderCommit <= m.prevIndex)
  }

  ghost predicate Safe(c: Cluster) {
    Complete(c.proto)
    && (forall i | i in c.nodes :: NodeSafe(c.proto, c.nodes[i]))
    && (forall k | 0 <= k < |c.sent| :: MsgSafe(c.proto, c.sent[k]))
  }

  // ---- What is known stays known ----

  lemma AgreeTrans(a: seq<Entry>, b: seq<Entry>, c: seq<Entry>, m: nat, n: nat)
    requires Agree(a, b, m) && Agree(b, c, n) && m <= n
    ensures Agree(a, c, m)
  {
    assert b[..n + 1][..m + 1] == b[..m + 1];
    assert c[..n + 1][..m + 1] == c[..m + 1];
  }

  lemma AgreeShorter(a: seq<Entry>, b: seq<Entry>, m: nat, n: nat)
    requires Agree(a, b, n) && m <= n
    ensures Agree(a, b, m) && Agree(b, a, m)
  {
    assert a[..m + 1] == a[..n + 1][..m + 1];
    assert b[..m + 1] == b[..n + 1][..m + 1];
  }

  lemma PrefixAgrees(a: seq<Entry>, b: seq<Entry>, m: nat)
    requires a <= b && m < |a|
    ensures Agree(a, b, m)
  {
    assert a[..m + 1] == b[..m + 1];
  }

  lemma KnownStays(p: Proto, p': Proto, log: seq<Entry>, m: nat, t: nat)
    requires Known(p, log, m, t) && Later(p, p') && Grows(p.reigns, p'.reigns)
    ensures Known(p', log, m, t)
  {
    if m > 0 {
      var u: nat, i: nat :| u <= t && Committed(p, u, i) && m <= i && Agree(log, p.reigns[u].log, m);
      CommittedStays(p, p', u, i);
      PrefixAgrees(p.reigns[u].log, p'.reigns[u].log, m);
      AgreeTrans(log, p.reigns[u].log, p'.reigns[u].log, m, m);
    }
  }

  /** Another log that agrees with a known one knows as much, and less of it, and later. */
  lemma KnownTransfers(p: Proto, a: seq<Entry>, b: seq<Entry>, m: nat, n: nat, t: nat, t': nat)
    requires Known(p, a, n, t) && Agree(b, a, m) && m <= n && t <= t'
    ensures Known(p, b, m, t')
  {
    if m > 0 {
      var u: nat, i: nat :| u <= t && Committed(p, u, i) && n <= i && Agree(a, p.reigns[u].log, n);
      AgreeTrans(b, a, p.reigns[u].log, m, n);
    }
  }

  /** What is known in some term is in the log of every leader of that or a later term. */
  lemma LeaderKnows(p: Proto, log: seq<Entry>, m: nat, t: nat, u: nat)
    requires Basic(p) && LeadersHold(p) && Known(p, log, m, t) && t <= u && u in p.reigns && Shape(log)
    ensures Agree(p.reigns[u].log, log, m)
  {
    if m == 0 {
      LeaderHasDummy(p, log, u);
    } else {
      var w: nat, i: nat :| w <= t && Committed(p, w, i) && m <= i && Agree(log, p.reigns[w].log, m);
      LeaderHasCommitted(p, log, m, w, i, u);
    }
  }

  lemma LeaderHasDummy(p: Proto, log: seq<Entry>, u: nat)
    requires ReignsOk(p) && u in p.reigns && Shape(log)
    ensures Agree(p.reigns[u].log, log, 0)
  {
    assert ReignOk(p, u);
    assert p.reigns[u].log[..1] == [DUMMY] == log[..1];
  }

  lemma LeaderHasCommitted(p: Proto, log: seq<Entry>, m: nat, w: nat, i: nat, u: nat)
    requires Basic(p) && LeadersHold(p) && Committed(p, w, i) && w <= u && u in p.reigns
    requires m <= i && Agree(log, p.reigns[w].log, m)
    ensures Agree(p.reigns[u].log, log, m)
  {
    CommittedInLaterLeaders(p, w, i, u);
    AgreeThrough(p.reigns[u].log, p.reigns[w].log, log, m, i);
  }

  lemma AgreeThrough(a: seq<Entry>, b: seq<Entry>, c: seq<Entry>, m: nat, n: nat)
    requires Agree(a, b, n) && Agree(c, b, m) && m <= n
    ensures Agree(a, c, m)
  {
    AgreeShorter(c, b, m, m);
    AgreeShorter(a, b, m, n);
    AgreeTrans(a, b, c, m, m);
  }

  // ---- Delivery depends on the committed part of the log only ----

  lemma {:induction false} DeliveryAgrees(a: seq<Entry>, b: seq<Entry>, from: nat, m: nat)
    requires Agree(a, b, m)
    ensures Delivery(a, from, m) == Delivery(b, from, m)
    decreases m - from
  {
    if from < m {
      DeliveryAgrees(a, b, from + 1, m);
      assert a[from + 1] == a[..m + 1][from + 1];
      assert b[from + 1] == b[..m + 1][from + 1];
    }
  }

  lemma {:induction false} DeliverySplits(log: seq<Entry>, from: nat, mid: nat, to: nat)
    requires from <= mid <= to
    ensures Delivery(log, from, to) == Delivery(log, from, mid) + Delivery(log, mid, to)
    decreases mid - from
  {
    if from < mid {
      DeliverySplits(log, from + 1, mid, to);
    }
  }

  /** Committing further within the log delivers exactly what was missing. */
  lemma CommittingIsSafe(p: Proto, s: Node, commit: nat)
    requires NodeSafe(p, s) && s.commit <= commit < |s.log| && Known(p, s.log, commit, s.term)
    ensures NodeSafe(p, ApplyCommitted(s.(commit := commit)))
  {
    DeliverySplits(s.log, 0, s.commit, commit);
  }

  lemma RestedIsSafe(p: Proto, p': Proto, s: Node, s': Node)
    requires NodeSafe(p, s) && Later(p, p') && Grows(p.reigns, p'.reigns)
    requires s'.commit == s.commit && s'.applied == s.applied && s'.delivered == s.delivered && s'.term >= s.term
    requires Agree(s'.log, s.log, s.commit)
    ensures NodeSafe(p', s')
  {
    KnownStays(p, p', s.log, s.commit, s.term);
    KnownTransfers(p', s.log, s'.log, s.commit, s.commit, s.term, s'.term);
    DeliveryAgrees(s'.log, s.log, 0, s.commit);
  }

  // ---- The leader's commit rule ----

  /** The rule of section 5.4.2: the entry is of the leader's own term and a majority holds it. */
  predicate Committable(s: Node, n: nat) {
    s.commit < n < |s.log| && s.log[n].term == s.term && 1 + |Holders(s.matchIndex, n)| > s.peers / 2
  }

  lemma {:induction false} ScanCommits(s: Node, commit: nat, n: nat)
    requires s.commit < n
    ensures var r := CommitScan(s, commit, n); r == commit || (n <= r && Committable(s, r))
    decreases |s.log| - n
  {
    if Lookup(s.log, n).Some? {
      if s.log[n].term != s.term {
        ScanCommits(s, commit, n + 1);
      } else if 1 + |Holders(s.matchIndex, n)| > s.peers / 2 {
        ScanCommits(s, n, n + 1);
      }
    }
  }

  lemma HoldersAcked(p: Proto, i: nat, s: Node, n: nat)
    requires IdsOk(p) && ReignsOk(p) && Mirrors(p, i, s) && s.role == Leader && LeaderOk(p, s) && s.peers == p.n
    requires 1 <= n < |s.log|
    ensures Holders(s.matchIndex, n) + {i} <= Ackers(p, s.term, n) && i !in Holders(s.matchIndex, n)
  {
    assert ReignOk(p, s.term);
    forall q | q in Holders(s.matchIndex, n) ensures q in Ackers(p, s.term, n) {
      HolderAcked(p, s, n, q);
    }
    assert Ack(i, s.term, n) in AcksUpTo(i, s.term, |s.log| - 1);
  }

  lemma HolderAcked(p: Proto, s: Node, n: nat, q: nat)
    requires IdsOk(p) && s.role == Leader && LeaderOk(p, s) && s.peers == p.n && 1 <= n && q in Holders(s.matchIndex, n)
    ensures q in Ackers(p, s.term, n)
  {
    assert PeerOk(p, s.term, |s.log|, q, s.nextIndex[q], s.matchIndex[q]);
    assert Ack(q, s.term, n) in AcksUpTo(q, s.term, s.matchIndex[q]);
  }

  lemma LeaderLogIsReign(p: Proto, i: nat, s: Node)
    requires ReignsOk(p) && Mirrors(p, i, s) && s.role == Leader
    ensures s.term in p.reigns && p.reigns[s.term].log == s.log
  {
    assert ReignOk(p, s.term);
  }

  lemma CommittableIsCommitted(p: Proto, i: nat, s: Node, n: nat)
    requires s.term in p.reigns && p.reigns[s.term].log == s.log && s.peers == p.n && Committable(s, n)
    requires Holders(s.matchIndex, n) + {i} <= Ackers(p, s.term, n) && i !in Holders(s.matchIndex, n)
    ensures Committed(p, s.term, n) && Known(p, s.log, n, s.term)
  {
    SubsetSize(Holders(s.matchIndex, n) + {i}, Ackers(p, s.term, n));
    assert Committed(p, s.term, n);
    assert Agree(s.log, p.reigns[s.term].log, n);
  }

  /** Where the scan stops is where the leader was, or an index a majority has made safe. */
  lemma ScanIsKnown(p: Proto, i: nat, s: Node, r: nat)
    requires IdsOk(p) && ReignsOk(p) && Mirrors(p, i, s) && s.role == Leader && LeaderOk(p, s) && s.peers == p.n
    requires r == CommitScan(s, s.commit, s.commit + 1)
    ensures r == s.commit || (s.commit < r < |s.log| && Known(p, s.log, r, s.term))
  {
    ScanCommits(s, s.commit, s.commit + 1);
    if r != s.commit {
      LeaderLogIsReign(p, i, s);
      HoldersAcked(p, i, s, r);
      CommittableIsCommitted(p, i, s, r);
    }
  }

  lemma AdvancedIsSafe(p: Proto, s: Node, r: nat)
    requires NodeSafe(p, s) && s.role == Leader && r == CommitScan(s, s.commit, s.commit + 1)
    requires r == s.commit || (s.commit < r < |s.log| && Known(p, s.log, r, s.term))
    ensures NodeSafe(p, AdvanceCommit(s))
  {
    CommittingIsSafe(p, s, r);
  }

  lemma AdvanceIsSafe(p: Proto, i: nat, s: Node)
    requires IdsOk(p) && ReignsOk(p) && Mirrors(p, i, s) && LeaderOk(p, s) && s.peers == p.n && NodeSafe(p, s)
    ensures NodeSafe(p, AdvanceCommit(s))
  {
    if s.role == Leader {
      var r := CommitScan(s, s.commit, s.commit + 1);
      ScanIsKnown(p, i, s, r);
      AdvancedIsSafe(p, s, r);
    }
  }

  // ---- A follower's commit rule ----

  lemma SharedPrefixKept(log: seq<Entry>, lead: seq<Entry>, prev: nat, entries: seq<Entry>, n: nat)
    requires IsStretch(lead, prev, entries) && NonStale(log, prev, entries) && Agree(lead, log, n)
    requires |entries| > 0 ==> Overwritten(log, prev, entries) == lead[..prev + 1 + |entries|]
    ensures Agree(Overwritten(log, prev, entries), log, n)
  {
    if |entries| > 0 {
      AgreeShorter(lead, log, n, n);
      SharedPrefixIsShort(log, lead, prev, entries, n);
      assert lead[..prev + 1 + |entries|][..n + 1] == lead[..n + 1];
    }
  }

  /** A fresh AppendEntries keeps everything the follower has committed. */
  lemma CommittedSurvives(p1: Proto, i: nat, s: Node, m: Message)
    requires NodesOk(p1) && ReignsOk(p1) && LogsMatch(p1) && m.AppendEntries? && CanAccept(p1, i, m.prevIndex, m.entries)
    requires p1.nodes[i].log == s.log && p1.nodes[i].term == m.term
    requires Agree(p1.reigns[m.term].log, s.log, s.commit) && NonStale(s.log, m.prevIndex, m.entries)
    ensures Agree(Overwritten(s.log, m.prevIndex, m.entries), s.log, s.commit)
  {
    OverwrittenIsPrefix(p1, i, m.prevIndex, m.entries);
    SharedPrefixKept(s.log, p1.reigns[m.term].log, m.prevIndex, m.entries, s.commit);
  }

  /** Up to the commit index it takes over, the follower's log is the leader's. */
  lemma TakenOverIsLeaders(p1: Proto, i: nat, m: Message)
    requires NodesOk(p1) && ReignsOk(p1) && LogsMatch(p1) && m.AppendEntries? && CanAccept(p1, i, m.prevIndex, m.entries)
    requires m.entries == [] ==> m.leaderCommit <= m.prevIndex
    ensures var log := Overwritten(p1.nodes[i].log, m.prevIndex, m.entries);
            |log| > 0 && Agree(log, p1.reigns[p1.nodes[i].term].log, Min(m.leaderCommit, |log| - 1))
  {
    OverwrittenIsPrefix(p1, i, m.prevIndex, m.entries);
    TakenOver(p1.nodes[i].log, p1.reigns[p1.nodes[i].term].log, m.prevIndex, m.entries, m.leaderCommit);
  }

  lemma TakenOver(log: seq<Entry>, lead: seq<Entry>, prev: nat, entries: seq<Entry>, commit: nat)
    requires prev + |entries| < |lead| && Agree(log, lead, prev) && (entries == [] ==> commit <= prev)
    requires |entries| > 0 ==> Overwritten(log, prev, entries) == lead[..prev + 1 + |entries|]
    ensures
      var log' := Overwritten(log, prev, entries);
      |log'| > 0 && Agree(log', lead, Min(commit, |log'| - 1))
  {
    var log' := Overwritten(log, prev, entries);
    var k := Min(commit, |log'| - 1);
    if |entries| > 0 {
      assert log'[..k + 1] == lead[..k + 1];
    } else {
      AgreeShorter(log, lead, k, prev);
    }
  }

  lemma CommitToIsSafe(p: Proto, s: Node, lead: seq<Entry>, leaderCommit: nat)
    requires NodeSafe(p, s) && LastIndex(s.log) == |s.log| - 1
    requires Known(p, lead, leaderCommit, s.term) && Agree(s.log, lead, Min(leaderCommit, |s.log| - 1))
    ensures NodeSafe(p, CommitTo(s, leaderCommit))
  {
    if leaderCommit > s.commit {
      var k := Min(leaderCommit, |s.log| - 1);
      KnownTransfers(p, lead, s.log, k, leaderCommit, s.term, s.term);
      CommittingIsSafe(p, s, k);
    }
  }

  /** The node as it is when its log has been overwritten and its commit index not yet moved. */
  function Overtaken(s: Node, m: Message): Node
    requires m.AppendEntries?
  {
    HeardLeader(s, m).(log := Overwritten(s.log, m.prevIndex, m.entries))
  }

  lemma OvertakenIsSafe(p: Proto, p1: Proto, i: nat, s: Node, m: Message)
    requires NodesOk(p1) && ReignsOk(p1) && LogsMatch(p1) && m.AppendEntries? && CanAccept(p1, i, m.prevIndex, m.entries)
    requires Later(p, p1) && Grows(p.reigns, p1.reigns) && NodeSafe(p, s)
    requires p1.nodes[i].log == s.log && p1.nodes[i].term == m.term && m.term >= s.term
    requires Agree(p1.reigns[m.term].log, s.log, s.commit) && NonStale(s.log, m.prevIndex, m.entries)
    ensures NodeSafe(p1, Overtaken(s, m))
  {
    CommittedSurvives(p1, i, s, m);
    RestedIsSafe(p, p1, s, Overtaken(s, m));
  }

  /** The log the follower ends up with is well formed, and the leader's up to the commit index it takes over. */
  lemma AcceptedFacts(p1: Proto, i: nat, m: Message)
    requires NodesOk(p1) && ReignsOk(p1) && LogsMatch(p1) && m.AppendEntries? && CanAccept(p1, i, m.prevIndex, m.entries)
    requires m.entries == [] ==> m.leaderCommit <= m.prevIndex
    ensures
      var log := Overwritten(p1.nodes[i].log, m.prevIndex, m.entries);
      Shape(log) && Agree(log, p1.reigns[p1.nodes[i].term].log, Min(m.leaderCommit, |log| - 1))
  {
    AcceptedLogOk(p1, i, m.prevIndex, m.entries);
    TakenOverIsLeaders(p1, i, m);
  }

  lemma OvertakenCommits(p1: Proto, s: Node, m: Message, lead: seq<Entry>)
    requires m.AppendEntries? && m.term >= s.term && Consistent(s.log, m.prevIndex, m.prevTerm)
    requires NodeSafe(p1, Overtaken(s, m)) && Shape(Overtaken(s, m).log) && Known(p1, lead, m.leaderCommit, m.term)
    requires Agree(Overtaken(s, m).log, lead, Min(m.leaderCommit, |Overtaken(s, m).log| - 1))
    ensures NodeSafe(p1, HandleAppendEntries(s, m).0)
  {
    CommitToIsSafe(p1, Overtaken(s, m), lead, m.leaderCommit);
  }

  // ---- Complete is kept by every fresh event ----

  lemma LocalEventComplete(c: Cluster, e: Event)
    requires Basic(c.proto) && Complete(c.proto) && Enabled(c, e) && !e.Deliver?
    requires Mirrors(c.proto, Target(c, e), c.nodes[Target(c, e)])
    ensures Complete(After(c, e).proto)
  {
    var i := Target(c, e);
    var s := c.nodes[i];
    IdleIsNothing(c.proto, i, s, Tally(c, i));
    IdPositive(c.proto, i);
    match e
    case ElectionTimeout(_) =>
      if s.role != Leader {
        TimeoutIsStand(c.proto, i, s, {i});
        StandKeepsComplete(c.proto, i);
      }
    case HeartbeatTimeout(_) => HeartbeatIsNothing(c.proto, i, s, Tally(c, i));
    case Propose(_, command) =>
      if s.role == Leader {
        ProposeIsExtend(c.proto, i, s, command, Tally(c, i));
        ExtendKeepsComplete(c.proto, i, command);
      }
  }

  lemma HeardReady(p: Proto, i: nat, s: Node, m: Message)
    requires Basic(p) && Complete(p) && Mirrors(p, i, s) && m.AppendEntries? && MsgOk(p, m) && m.dst == i && m.term >= s.term
    ensures Basic(Heard(p, i, m.term)) && Complete(Heard(p, i, m.term))
  {
    HeardKeepsComplete(p, i, m.term);
    HeardProto(p, i, s, m);
  }

  lemma AcceptedComplete(p: Proto, p1: Proto, i: nat, s: Node, m: Message)
    requires Basic(p1) && Complete(p1) && Mirrors(p, i, s) && m.AppendEntries? && MsgOk(p, m)
    requires m.term >= s.term && Consistent(s.log, m.prevIndex, m.prevTerm) && NonStale(s.log, m.prevIndex, m.entries)
    requires p1 == Heard(p, i, m.term)
    ensures Complete(Accept(p1, i, m.prevIndex, m.entries))
  {
    HeardCanAccept(p, i, s, m);
    AcceptKeepsComplete(p1, i, m.prevIndex, m.entries);
  }

  lemma AppendEntriesComplete(c: Cluster, k: nat)
    requires Basic(c.proto) && Complete(c.proto) && Enabled(c, Deliver(k)) && c.sent[k].AppendEntries? && MsgOk(c.proto, c.sent[k])
    requires Mirrors(c.proto, c.sent[k].dst, c.nodes[c.sent[k].dst]) && FreshEvent(c, Deliver(k))
    ensures Complete(After(c, Deliver(k)).proto)
  {
    var m := c.sent[k];
    var i := m.dst;
    var s := c.nodes[i];
    AppendEntriesRecorded(c, k);
    if m.term < s.term || !Consistent(s.log, m.prevIndex, m.prevTerm) {
      AppendEntriesIsHeard(c.proto, i, s, m, Tally(c, i));
      HeardKeepsComplete(c.proto, i, m.term);
    } else {
      AppendEntriesIsAccept(c.proto, i, s, m, Tally(c, i));
      HeardReady(c.proto, i, s, m);
      AcceptedComplete(c.proto, Heard(c.proto, i, m.term), i, s, m);
    }
  }

  lemma RequestVoteComplete(c: Cluster, k: nat)
    requires Basic(c.proto) && Complete(c.proto) && Enabled(c, Deliver(k)) && c.sent[k].RequestVote? && MsgOk(c.proto, c.sent[k])
    requires Mirrors(c.proto, c.sent[k].dst, c.nodes[c.sent[k].dst])
    ensures Complete(After(c, Deliver(k)).proto)
  {
    var m := c.sent[k];
    var i := m.dst;
    var s := c.nodes[i];
    RequestVoteRecorded(c, k);
    IdPositive(c.proto, m.src);
    RequestVoteIsGrant(c.proto, i, s, m, Tally(c, i));
    VoteComplete(c.proto, i, s, m);
  }

  lemma VoteComplete(p: Proto, i: nat, s: Node, m: Message)
    requires Basic(p) && Complete(p) && Mirrors(p, i, s) && m.RequestVote? && MsgOk(p, m) && m.dst == i && m.src > 0
    ensures
      var p1 := if m.term > s.term then Observe(p, i, m.term) else p;
      Complete(p1) && (Voted(s, HandleRequestVote(s, m).0) ==> Complete(Grant(p1, i, m.src)))
  {
    ObservedForVote(p, i, s, m);
    if m.term > s.term {
      ObserveKeepsComplete(p, i, m.term);
    }
    if Voted(s, HandleRequestVote(s, m).0) {
      CanGrantForVote(p, i, s, m);
      GrantKeepsComplete(if m.term > s.term then Observe(p, i, m.term) else p, i, m.src);
    }
  }

  lemma VoteReplyComplete(c: Cluster, k: nat)
    requires Basic(c.proto) && Complete(c.proto) && Enabled(c, Deliver(k)) && c.sent[k].VoteReply? && MsgOk(c.proto, c.sent[k])
    requires
      var i := c.sent[k].dst;
      && Mirrors(c.proto, i, c.nodes[i]) && CandidateOk(c.proto, c.nodes[i], Tally(c, i))
      && (Counts(c.nodes[i], c.sent[k]) ==> c.sent[k].src !in Tally(c, i))
    ensures Complete(After(c, Deliver(k)).proto)
  {
    var m := c.sent[k];
    var i := m.dst;
    var s := c.nodes[i];
    var tally' := if Counts(s, m) then Tally(c, i) + {m.src} else Tally(c, i);
    VoteReplyIsElect(c.proto, i, s, m, tally');
    if m.term > s.term {
      ObserveKeepsComplete(c.proto, i, m.term);
    } else if Counts(s, m) && HandleVoteReply(s, m).role == Leader {
      VoterIsId(c.proto, Vote(m.src, m.term, i));
      CountedIsQuorum(c.proto, i, s, m, Tally(c, i));
      ElectKeepsComplete(c.proto, i, tally');
    }
  }

  lemma AppendReplyComplete(c: Cluster, k: nat)
    requires VotesOk(c.proto) && AcksOk(c.proto) && Complete(c.proto) && Enabled(c, Deliver(k)) && c.sent[k].AppendReply?
    requires Mirrors(c.proto, c.sent[k].dst, c.nodes[c.sent[k].dst])
    ensures Complete(After(c, Deliver(k)).proto)
  {
    var m := c.sent[k];
    AppendReplyIsHearing(c.proto, m.dst, c.nodes[m.dst], m, Tally(c, m.dst));
    if m.term > c.nodes[m.dst].term {
      ObserveKeepsComplete(c.proto, m.dst, m.term);
    }
  }

  lemma EventComplete(c: Cluster, e: Event)
    requires ClusterOk(c) && Complete(c.proto) && Enabled(c, e) && FreshEvent(c, e)
    ensures Complete(After(c, e).proto)
  {
    TargetMirrors(c, e);
    if e.Deliver? {
      var m := c.sent[e.k];
      if Counts(c.nodes[m.dst], m) {
        PendingIsNotCounted(c, e.k);
      }
      match m
      case AppendEntries(_, _, _, _, _, _, _, _) => AppendEntriesComplete(c, e.k);
      case AppendReply(_, _, _, _, _) => AppendReplyComplete(c, e.k);
      case RequestVote(_, _, _, _, _, _) => RequestVoteComplete(c, e.k);
      case VoteReply(_, _, _, _) => VoteReplyComplete(c, e.k);
    } else {
      LocalEventComplete(c, e);
    }
  }

  // ---- Nodes and messages stay safe ----

  lemma ForwardGrows(p: Proto, p': Proto)
    requires Forward(p, p')
    ensures Later(p, p') && Grows(p.reigns, p'.reigns)
  {
  }

  /** Nothing the node has committed or logged has changed. */
  predicate SameState(s: Node, s': Node) {
    s'.log == s.log && s'.commit == s.commit && s'.applied == s.applied && s'.delivered == s.delivered && s'.term >= s.term
  }

  lemma SameStateIsSafe(p: Proto, p': Proto, s: Node, s': Node)
    requires NodeSafe(p, s) && Forward(p, p') && SameState(s, s')
    ensures NodeSafe(p', s')
  {
    ForwardGrows(p, p');
    RestedIsSafe(p, p', s, s');
  }

  lemma ProposedIsSafe(p: Proto, p': Proto, s: Node, command: Command)
    requires NodeSafe(p, s) && Forward(p, p')
    ensures NodeSafe(p', Proposed(s, command))
  {
    var s1 := Proposed(s, command);
    ForwardGrows(p, p');
    PrefixAgrees(s.log, s1.log, s.commit);
    AgreeShorter(s.log, s1.log, s.commit, s.commit);
    RestedIsSafe(p, p', s, s1);
  }

  lemma LeaderOkBefore(p: Proto, i: nat, s: Node)
    requires LeaderOk(p, AdvanceCommit(s)) && Mirrors(p, i, AdvanceCommit(s))
    ensures LeaderOk(p, s) && Mirrors(p, i, s)
  {
    AdvanceKeepsCore(s);
  }

  lemma AppendReplyIsSafe(p: Proto, p': Proto, i: nat, s: Node, m: Message)
    requires IdsOk(p) && ReignsOk(p) && Forward(p, p') && NodeSafe(p, s) && Mirrors(p, i, s) && s.peers == p.n
    requires m.AppendReply?
    requires m.term == s.term && s.role == Leader && m.success ==> LeaderOk(p, Matched(s, m.src, m.lastIndex))
    ensures NodeSafe(p', HandleAppendReply(s, m).0)
  {
    var s' := HandleAppendReply(s, m).0;
    if m.term == s.term && s.role == Leader && m.success {
      var s1 := Matched(s, m.src, m.lastIndex);
      AdvanceIsSafe(p, i, s1);
      SameStateIsSafe(p, p', s', s');
    } else {
      SameStateIsSafe(p, p', s, s');
    }
  }

  lemma MsgSafeStays(p: Proto, p': Proto, m: Message)
    requires MsgSafe(p, m) && MsgOk(p, m) && Forward(p, p')
    ensures MsgSafe(p', m)
  {
    if m.AppendEntries? {
      ForwardGrows(p, p');
      var a, b := p.reigns[m.term].log, p'.reigns[m.term].log;
      KnownStays(p, p', a, m.leaderCommit, m.term);
      KnownInLonger(p', a, b, m.leaderCommit, m.term);
    }
  }

  lemma KnownInLonger(p: Proto, a: seq<Entry>, b: seq<Entry>, n: nat, t: nat)
    requires Known(p, a, n, t) && a <= b
    ensures Known(p, b, n, t)
  {
    if n > 0 {
      var u: nat, i: nat :| u <= t && Committed(p, u, i) && n <= i && Agree(a, p.reigns[u].log, n);
      PrefixAgrees(a, b, n);
      AgreeShorter(a, b, n, n);
      AgreeTrans(b, a, p.reigns[u].log, n, n);
    }
  }

  // ---- What leaders send is safe ----

  lemma SendingIsSafe(p: Proto, i: nat, s: Node, q: nat)
    requires ReignsOk(p) && Mirrors(p, i, s) && s.role == Leader
    requires q in s.nextIndex && 1 <= s.nextIndex[q] <= |s.log|
    requires s.commit < |s.log| && Known(p, s.log, s.commit, s.term)
    ensures MsgSafe(p, AppendEntriesFor(s, q))
  {
    LeaderLogIsReign(p, i, s);
  }

  lemma {:induction false} BroadcastIsSafe(p: Proto, i: nat, s: Node, upto: nat)
    requires ReignsOk(p) && Mirrors(p, i, s) && s.role == Leader
    requires forall q | q in s.nextIndex :: 1 <= s.nextIndex[q] <= |s.log|
    requires s.commit < |s.log| && Known(p, s.log, s.commit, s.term)
    ensures forall m | m in BroadcastAppend(s, upto) :: MsgSafe(p, m)
  {
    if upto > 0 {
      BroadcastIsSafe(p, i, s, upto - 1);
      if upto != s.id && upto in s.nextIndex {
        SendingIsSafe(p, i, s, upto);
      }
    }
  }

  // ---- Safe is kept by every fresh event ----

  ghost predicate HandledSafe(c: Cluster, e: Event)
    requires Enabled(c, e)
  {
    var c' := After(c, e);
    NodeSafe(c'.proto, c'.nodes[Target(c, e)]) && forall m | m in Outcome(c, e).1 :: MsgSafe(c'.proto, m)
  }

  lemma LocalEventSafe(c: Cluster, e: Event)
    requires Enabled(c, e) && !e.Deliver?
    requires
      var i := Target(c, e);
      && Mirrors(c.proto, i, c.nodes[i]) && NodeOk(c.proto, i, c.nodes[i], Tally(c, i)) && NodeSafe(c.proto, c.nodes[i])
    requires
      var p' := After(c, e).proto;
      && IdsOk(p') && ReignsOk(p') && Forward(c.proto, p') && CoresOk(After(c, e)) && HandledOk(c, e)
    ensures HandledSafe(c, e)
  {
    var i := Target(c, e);
    var s := c.nodes[i];
    var c' := After(c, e);
    match e
    case ElectionTimeout(_) =>
      SameStateIsSafe(c.proto, c'.proto, s, c'.nodes[i]);
      var s' := HandleElectionTimeout(s).0;
      NoReplyAmongRequests(s', s'.peers);
    case HeartbeatTimeout(_) =>
      SameStateIsSafe(c.proto, c'.proto, s, s);
      if s.role == Leader { BroadcastIsSafe(c'.proto, i, s, s.peers); }
    case Propose(_, command) =>
      if s.role == Leader {
        LeaderOkBefore(c'.proto, i, Proposed(s, command));
        ProposeEventSafe(c.proto, c'.proto, i, s, command);
      } else {
        SameStateIsSafe(c.proto, c'.proto, s, s);
      }
  }

  lemma ProposeEventSafe(p: Proto, p': Proto, i: nat, s: Node, command: Command)
    requires IdsOk(p') && ReignsOk(p') && Forward(p, p') && NodeSafe(p, s) && s.role == Leader && s.peers == p'.n
    requires Mirrors(p', i, Proposed(s, command)) && LeaderOk(p', Proposed(s, command))
    ensures NodeSafe(p', HandlePropose(s, command).0)
    ensures forall m | m in HandlePropose(s, command).1 :: MsgSafe(p', m)
  {
    var s1 := Proposed(s, command);
    ProposedIsSafe(p, p', s, command);
    AdvanceIsSafe(p', i, s1);
    BroadcastIsSafe(p', i, s1, s1.peers);
  }
}
