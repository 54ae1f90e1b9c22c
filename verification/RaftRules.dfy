/**
 * The two rules of raft.go that differ in form from Figure 2 of the Raft paper, and what they come to.
 *
 * The receiver cuts its log behind the previous index whatever it holds there, where Figure 2 deletes
 * only from the first conflict on. The two give the same log exactly when the request is not stale.
 */
module RaftRules {
  import opened Bytes
  import opened Collections
  import opened RaftLog
  import opened RaftNode
  import opened RaftProtocol
  import opened RaftCompleteness
  import opened RaftCluster
  import opened RaftInvariants
  import opened RaftSteps
  import opened RaftRuns
  import opened RaftSafety
  import opened RaftTheorems

  // ---- The leader's commit rule ----

  lemma HoldersShrink(matchIndex: map<nat, nat>, m: nat, n: nat)
    requires m <= n
    ensures |Holders(matchIndex, n)| <= |Holders(matchIndex, m)|
  {
    SubsetSize(Holders(matchIndex, n), Holders(matchIndex, m));
  }

  lemma {:induction false} ScanIsGreatest(s: Node, commit: nat, n: nat, k: nat)
    requires s.commit < n && n <= k && Committable(s, k)
    ensures k <= CommitScan(s, commit, n)
    decreases |s.log| - n
  {
    if s.log[n].term != s.term {
      ScanIsGreatest(s, commit, n + 1, k);
    } else {
      HoldersShrink(s.matchIndex, n, k);
      if n < k {
        ScanIsGreatest(s, n, n + 1, k);
      } else {
        ScanNeverFalls(s, n, n + 1);
      }
    }
  }

  lemma {:induction false} ScanNeverFalls(s: Node, commit: nat, n: nat)
    requires commit < n
    ensures commit <= CommitScan(s, commit, n)
    decreases |s.log| - n
  {
    if Lookup(s.log, n).Some? {
      if s.log[n].term != s.term {
        ScanNeverFalls(s, commit, n + 1);
      } else if 1 + |Holders(s.matchIndex, n)| > s.peers / 2 {
        ScanNeverFalls(s, n, n + 1);
      }
    }
  }

  /** A leader commits up to the greatest committable index, and stays put if there is none. */
  lemma AdvanceIsGreatest(s: Node)
    requires s.role == Leader
    ensures
      var r := AdvanceCommit(s).commit;
      if exists n: nat :: Committable(s, n)
      then Committable(s, r) && forall n: nat | Committable(s, n) :: n <= r
      else r == s.commit
  {
    ScanCommits(s, s.commit, s.commit + 1);
    forall n: nat | Committable(s, n) ensures n <= AdvanceCommit(s).commit {
      ScanIsGreatest(s, s.commit, s.commit + 1, n);
    }
  }

  // ---- The receiver's rule, as Figure 2 has it ----

  /** Skip entries that are there already; from the first conflict, or the end of the log, on take the new ones. */
  function Figure2Log(log: seq<Entry>, prev: nat, entries: seq<Entry>): seq<Entry>
    requires prev < |log|
    decreases |entries|
  {
    if entries == [] then log
    else if prev + 1 < |log| && log[prev + 1].term == entries[0].term then Figure2Log(log, prev + 1, entries[1..])
    else log[..prev + 1] + entries
  }

  /** Where the log and the entries have the same term they have the same entry: what Log Matching gives. */
  predicate TermDecides(log: seq<Entry>, prev: nat, entries: seq<Entry>) {
    forall j | prev < j <= prev + |entries| && j < |log| ::
      log[j].term == entries[j - prev - 1].term ==> log[j] == entries[j - prev - 1]
  }

  lemma {:induction false} Figure2WithoutConflict(log: seq<Entry>, prev: nat, entries: seq<Entry>)
    requires prev < |log| && TermDecides(log, prev, entries) && !Conflicts(log, prev, entries)
    ensures prev + |entries| < |log| ==> Figure2Log(log, prev, entries) == log && log[..prev + 1] + entries == log[..prev + 1 + |entries|]
    ensures prev + |entries| >= |log| ==> Figure2Log(log, prev, entries) == log[..prev + 1] + entries
    decreases |entries|
  {
    if entries != [] && prev + 1 < |log| {
      assert log[prev + 1].term == entries[0].term;
      assert !Conflicts(log, prev + 1, entries[1..]) by {
        forall j | prev + 1 < j <= prev + |entries| && j < |log| ensures log[j].term == entries[1..][j - prev - 2].term {
          assert entries[1..][j - prev - 2] == entries[j - prev - 1];
        }
      }
      assert TermDecides(log, prev + 1, entries[1..]) by {
        forall j | prev + 1 < j <= prev + |entries| && j < |log| ensures log[j] == entries[1..][j - prev - 2] {
          assert entries[1..][j - prev - 2] == entries[j - prev - 1];
        }
      }
      Figure2WithoutConflict(log, prev + 1, entries[1..]);
      assert log[..prev + 2] + entries[1..] == log[..prev + 1] + entries;
    }
  }

  lemma {:induction false} Figure2WithConflict(log: seq<Entry>, prev: nat, entries: seq<Entry>)
    requires prev < |log| && TermDecides(log, prev, entries) && Conflicts(log, prev, entries)
    ensures Figure2Log(log, prev, entries) == log[..prev + 1] + entries
    decreases |entries|
  {
    if log[prev + 1].term == entries[0].term {
      var j :| prev < j <= prev + |entries| && j < |log| && log[j].term != entries[j - prev - 1].term;
      assert log[j].term != entries[1..][j - prev - 2].term;
      assert TermDecides(log, prev + 1, entries[1..]) by {
        forall j | prev + 1 < j <= prev + |entries| && j < |log| && log[j].term == entries[1..][j - prev - 2].term
          ensures log[j] == entries[1..][j - prev - 2]
        {
          assert entries[1..][j - prev - 2] == entries[j - prev - 1];
        }
      }
      Figure2WithConflict(log, prev + 1, entries[1..]);
      assert log[..prev + 2] + entries[1..] == log[..prev + 1] + entries;
    }
  }

  /** raft.go and Figure 2 give the same log exactly when the request is fresh; otherwise raft.go's is cut short. */
  lemma ReceiverRule(log: seq<Entry>, prev: nat, entries: seq<Entry>)
    requires prev < |log| && TermDecides(log, prev, entries)
    ensures Overwritten(log, prev, entries) == Figure2Log(log, prev, entries) <==> NonStale(log, prev, entries)
    ensures !NonStale(log, prev, entries) ==> Overwritten(log, prev, entries) < Figure2Log(log, prev, entries) == log
  {
    if |entries| > 0 {
      assert Truncated(log, prev + 1) == log[..prev + 1];
      if Conflicts(log, prev, entries) {
        Figure2WithConflict(log, prev, entries);
      } else {
        Figure2WithoutConflict(log, prev, entries);
      }
    }
  }

  // ---- The receiver's rule in every run ----

  lemma AcceptableDecides(p: Proto, v: nat, prev: nat, entries: seq<Entry>)
    requires NodesOk(p) && ReignsOk(p) && LogsMatch(p) && CanAccept(p, v, prev, entries)
    ensures prev < |p.nodes[v].log| && TermDecides(p.nodes[v].log, prev, entries)
  {
    OverwrittenIsPrefix(p, v, prev, entries);
    var log, lead := p.nodes[v].log, p.reigns[p.nodes[v].term].log;
    forall j | prev < j <= prev + |entries| && j < |log| && log[j].term == entries[j - prev - 1].term
      ensures log[j] == entries[j - prev - 1]
    {
      assert entries[j - prev - 1] == lead[j];
      SameTermSameLog(p, log, lead, j);
      assert log[j] == log[..j + 1][j] == lead[..j + 1][j];
    }
  }

  predicate Accepts(s: Node, m: Message) {
    m.AppendEntries? && m.term >= s.term && Consistent(s.log, m.prevIndex, m.prevTerm)
  }

  lemma HeardReadyToAccept(p: Proto, i: nat, s: Node, m: Message)
    requires Basic(p) && Mirrors(p, i, s) && Accepts(s, m) && MsgOk(p, m) && m.dst == i
    ensures ReceiverReady(s.log, m.prevIndex, m.entries)
  {
    HeardProto(p, i, s, m);
    AcceptedReady(p, Heard(p, i, m.term), i, s, m);
  }

  lemma AcceptedReady(p: Proto, p1: Proto, i: nat, s: Node, m: Message)
    requires i in p.nodes && p1 == Heard(p, i, m.term) && NodesOk(p1) && ReignsOk(p1) && LogsMatch(p1)
    requires Mirrors(p, i, s) && Accepts(s, m) && MsgOk(p, m) && m.dst == i
    ensures ReceiverReady(s.log, m.prevIndex, m.entries)
  {
    HeardCanAccept(p, i, s, m);
    AcceptableIsReady(p1, i, m.prevIndex, m.entries);
  }

  predicate ReceiverReady(log: seq<Entry>, prev: nat, entries: seq<Entry>) {
    && prev < |log| && TermDecides(log, prev, entries)
    && LastIndex(Overwritten(log, prev, entries)) == |Overwritten(log, prev, entries)| - 1
  }

  lemma AcceptableIsReady(p: Proto, v: nat, prev: nat, entries: seq<Entry>)
    requires NodesOk(p) && ReignsOk(p) && LogsMatch(p) && CanAccept(p, v, prev, entries)
    ensures ReceiverReady(p.nodes[v].log, prev, entries)
  {
    AcceptableDecides(p, v, prev, entries);
    AcceptedLogOk(p, v, prev, entries);
  }

  /** What every run gives a receiver that accepts a request. */
  lemma AcceptedFacts(c: Cluster, k: nat)
    requires ClusterOk(c) && Enabled(c, Deliver(k)) && Accepts(c.nodes[c.sent[k].dst], c.sent[k])
    ensures ReceiverReady(c.nodes[c.sent[k].dst].log, c.sent[k].prevIndex, c.sent[k].entries)
  {
    TargetMirrors(c, Deliver(k));
    HeardReadyToAccept(c.proto, c.sent[k].dst, c.nodes[c.sent[k].dst], c.sent[k]);
  }

  lemma DeliveredNode(c: Cluster, k: nat)
    requires Enabled(c, Deliver(k)) && c.sent[k].AppendEntries?
    ensures After(c, Deliver(k)).nodes[c.sent[k].dst] == HandleAppendEntries(c.nodes[c.sent[k].dst], c.sent[k]).0
  {
  }

  /** In every run, every accepted AppendEntries leaves the log of Figure 2 if and only if it is not stale. */
  lemma ReceiverRuleInRuns(n: nat, events: seq<Event>, states: seq<Cluster>, k: nat)
    requires IsRun(n, events, states) && k < |events| && events[k].Deliver?
    requires Enabled(states[k], events[k])
    requires Accepts(states[k].nodes[Target(states[k], events[k])], states[k].sent[events[k].k])
    ensures
      var i := Target(states[k], events[k]);
      var log := states[k].nodes[i].log;
      var m := states[k].sent[events[k].k];
      && m.prevIndex < |log|
      && (states[k + 1].nodes[i].log == Figure2Log(log, m.prevIndex, m.entries) <==> NonStale(log, m.prevIndex, m.entries))
      && (!NonStale(log, m.prevIndex, m.entries) ==> states[k + 1].nodes[i].log < Figure2Log(log, m.prevIndex, m.entries))
  {
    RunOk(n, events, states, k);
    var m := states[k].sent[events[k].k];
    var s := states[k].nodes[m.dst];
    AcceptedFacts(states[k], events[k].k);
    DeliveredNode(states[k], events[k].k);
    ReceiverRule(s.log, m.prevIndex, m.entries);
    AcceptedCore(s, m);
  }

  /** Figure 2: the leader's commit index, or the index of the last new entry if that is smaller. */
  function Figure2Commit(s: Node, m: Message): nat
    requires m.AppendEntries?
  {
    if m.leaderCommit > s.commit then Min(m.leaderCommit, m.prevIndex + |m.entries|) else s.commit
  }

  /** The request is not empty, or commits nothing new, or nothing beyond where the two logs were compared. */
  predicate CommitsChecked(s: Node, m: Message)
    requires m.AppendEntries?
  {
    m.entries != [] || m.leaderCommit <= s.commit || m.leaderCommit <= m.prevIndex || |s.log| == m.prevIndex + 1
  }

  lemma AcceptedCommit(s: Node, m: Message)
    requires Accepts(s, m) && ReceiverReady(s.log, m.prevIndex, m.entries)
    ensures HandleAppendEntries(s, m).0.commit == Figure2Commit(s, m) <==> CommitsChecked(s, m)
  {
  }

  /** In every run, the commit index an accepted AppendEntries leaves is Figure 2's under exactly this condition. */
  lemma ReceiverCommitIff(n: nat, events: seq<Event>, states: seq<Cluster>, k: nat)
    requires IsRun(n, events, states) && k < |events| && events[k].Deliver? && Enabled(states[k], events[k])
    requires Accepts(states[k].nodes[Target(states[k], events[k])], states[k].sent[events[k].k])
    ensures
      var i := Target(states[k], events[k]);
      var s, m := states[k].nodes[i], states[k].sent[events[k].k];
      states[k + 1].nodes[i].commit == Figure2Commit(s, m) <==> CommitsChecked(s, m)
  {
    RunOk(n, events, states, k);
    var m := states[k].sent[events[k].k];
    AcceptedFacts(states[k], events[k].k);
    DeliveredNode(states[k], events[k].k);
    AcceptedCommit(states[k].nodes[m.dst], m);
  }

  lemma SafeMessage(c: Cluster, k: nat)
    requires SentOk(c) && Safe(c) && k < |c.sent| && c.sent[k].AppendEntries?
    ensures c.sent[k].entries == [] ==> c.sent[k].leaderCommit <= c.sent[k].prevIndex
  {
    assert MsgSafe(c.proto, c.sent[k]) && MsgOk(c.proto, c.sent[k]);
  }

  /** Without stale deliveries the condition always holds: a leader commits nothing beyond what it has compared. */
  lemma ReceiverCommitInRuns(n: nat, events: seq<Event>, states: seq<Cluster>, k: nat)
    requires FreshRun(n, events, states) && k < |events| && events[k].Deliver? && Enabled(states[k], events[k])
    requires Accepts(states[k].nodes[Target(states[k], events[k])], states[k].sent[events[k].k])
    ensures
      var i := Target(states[k], events[k]);
      states[k + 1].nodes[i].commit == Figure2Commit(states[k].nodes[i], states[k].sent[events[k].k])
  {
    ReceiverCommitIff(n, events, states, k);
    RunSafe(n, events, states, k);
    SafeMessage(states[k], events[k].k);
  }
}
