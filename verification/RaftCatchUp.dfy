/** A follower that has the leader's log learns from a heartbeat what is committed, and delivers it. */
module RaftCatchUp {
  import opened RaftLog
  import opened RaftNode
  import opened RaftProtocol
  import opened RaftCluster
  import opened RaftInvariants
  import opened RaftRuns
  import opened RaftSending
  import opened RaftDelivering
  import opened RaftRepair

  lemma {:induction false} SentStays(n: nat, events: seq<Event>, states: seq<Cluster>, k: nat, j: nat)
    requires IsRun(n, events, states) && k <= j <= |events|
    ensures states[k].sent <= states[j].sent
  {
    if k < j {
      var before := j - 1;
      SentStays(n, events, states, k, before);
      assert states[before + 1] == After(states[before], events[before]);
    }
  }

  /**
   * The follower ends with the leader's commit index, as far as the entries of the request reach, and has
   * delivered the commands of the leader's log up to there.
   */
  predicate CatchesUp(s: Node, lead: Node, f: nat, s': Node) {
    f in lead.nextIndex && 1 <= lead.nextIndex[f] <= |lead.log| &&
    var reach := if lead.nextIndex[f] + 100 < |lead.log| then lead.nextIndex[f] + 99 else |lead.log| - 1;
    && s'.commit == (if lead.commit <= s.commit then s.commit else if lead.commit <= reach then lead.commit else reach)
    && s.delivered <= s'.delivered && |s'.delivered| == Max(|s.delivered|, s'.commit)
    && forall j | |s.delivered| <= j < |s'.delivered| ::
         j + 1 < |lead.log| && s'.delivered[j] == ApplyMsg(j + 1, lead.log[j + 1].command)
  }

  lemma SameLogAgain(log: seq<Entry>, next: nat, end: nat)
    requires 1 <= next <= end <= |log| && (next == end ==> end == |log|)
    ensures Overwritten(log, next - 1, log[next..end]) == log[..end]
  {
    assert log[..next] + log[next..end] == log[..end];
  }

  lemma AcceptedIs(s: Node, m: Message)
    requires m.AppendEntries? && m.term >= s.term && Consistent(s.log, m.prevIndex, m.prevTerm)
    ensures
      var s', log := HandleAppendEntries(s, m).0, Overwritten(s.log, m.prevIndex, m.entries);
      s'.log == log && s'.commit == if m.leaderCommit > s.commit then Min(m.leaderCommit, LastIndex(log)) else s.commit
  {
  }

  lemma EqualLogTaken(log: seq<Entry>, m: Message, next: nat)
    requires m.AppendEntries? && FromLog(m, log, next) && Shape(log)
    ensures
      var last := if next + 100 < |log| then next + 99 else |log| - 1;
      && Consistent(log, m.prevIndex, m.prevTerm)
      && Overwritten(log, m.prevIndex, m.entries) == log[..last + 1] && LastIndex(log[..last + 1]) == last
  {
    SameLogAgain(log, next, if |log| < next + 100 then |log| else next + 100);
  }

  lemma EqualLogAccepts(s: Node, m: Message, lead: Node)
    requires ReadOff(m, lead, lead.commit) && m.term >= s.term && s.log == lead.log && Shape(s.log)
    ensures
      var s', next := HandleAppendEntries(s, m).0, lead.nextIndex[m.dst];
      var last := if next + 100 < |s.log| then next + 99 else |s.log| - 1;
      s'.log == s.log[..last + 1] && s'.commit == if lead.commit > s.commit then Min(lead.commit, last) else s.commit
  {
    EqualLogTaken(s.log, m, lead.nextIndex[m.dst]);
    AcceptedIs(s, m);
  }

  lemma HeardCatchesUp(s: Node, m: Message, lead: Node)
    requires ReadOff(m, lead, lead.commit) && m.term >= s.term && s.log == lead.log && Shape(s.log)
    requires DeliversOn(s, HandleAppendEntries(s, m).0)
    ensures CatchesUp(s, lead, m.dst, HandleAppendEntries(s, m).0)
  {
    EqualLogAccepts(s, m, lead);
  }

  lemma RequestCatchesUp(c: Cluster, a: nat, lead: Node)
    requires ClusterOk(c) && Enabled(c, Deliver(a)) && ReadOff(c.sent[a], lead, lead.commit)
    requires c.nodes[c.sent[a].dst].log == lead.log && c.nodes[c.sent[a].dst].term <= lead.term
    ensures CatchesUp(c.nodes[c.sent[a].dst], lead, c.sent[a].dst, After(c, Deliver(a)).nodes[c.sent[a].dst])
  {
    var f := c.sent[a].dst;
    NodeReady(c, f);
    EventDelivers(c, Deliver(a), f);
    Delivered(c, a);
    HeardCatchesUp(c.nodes[f], c.sent[a], lead);
  }

  lemma HeartbeatIsReadOff(n: nat, events: seq<Event>, states: seq<Cluster>, k: nat, a: nat)
    requires IsRun(n, events, states) && k < |events| && events[k].HeartbeatTimeout?
    requires |states[k].sent| <= a < |states[k + 1].sent|
    ensures events[k].id in states[k].nodes
    ensures var lead := states[k].nodes[events[k].id]; ReadOff(states[k + 1].sent[a], lead, lead.commit)
  {
    Stepped(n, events, states, k);
    HeartbeatSaid(states[k], events[k], a);
  }

  lemma HeartbeatSaid(c: Cluster, e: Event, a: nat)
    requires ClusterOk(c) && Enabled(c, e) && e.HeartbeatTimeout? && |c.sent| <= a < |After(c, e).sent|
    ensures ReadOff(After(c, e).sent[a], c.nodes[e.id], c.nodes[e.id].commit)
  {
    NodeReady(c, e.id);
    NewlySent(c, e, a);
    HeartbeatSends(c.nodes[e.id], c.proto.n);
  }

  /** In every run, whenever a heartbeat, however late, arrives at a node whose log equals what the leader's was. */
  lemma HeartbeatCatchesUp(n: nat, events: seq<Event>, states: seq<Cluster>, k: nat, a: nat, j: nat)
    requires IsRun(n, events, states) && k < j < |events| && events[k].HeartbeatTimeout? && events[k].id in states[k].nodes
    requires |states[k].sent| <= a < |states[k + 1].sent| && events[j] == Deliver(a)
    requires
      var lead, f := states[k].nodes[events[k].id], states[k + 1].sent[a].dst;
      f in states[j].nodes && states[j].nodes[f].log == lead.log && states[j].nodes[f].term <= lead.term
    ensures
      var lead, f := states[k].nodes[events[k].id], states[k + 1].sent[a].dst;
      f in states[j + 1].nodes && CatchesUp(states[j].nodes[f], lead, f, states[j + 1].nodes[f])
  {
    HeartbeatIsReadOff(n, events, states, k, a);
    SentStays(n, events, states, k + 1, j);
    Stepped(n, events, states, j);
    RequestCatchesUp(states[j], a, states[k].nodes[events[k].id]);
  }
}
