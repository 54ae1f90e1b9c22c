/**
 * A cluster of n Raft nodes and everything they have ever sent. An event is a timeout, a proposal,
 * or the delivery of one message that has not been delivered yet: messages are delivered at most
 * once, in any order, or never. Node ids are 1 to n, as raft.go takes them from the peer list.
 *
 * `proto` and `tally` record what happened; no handler reads them.
 */
module RaftCluster {
  import opened RaftLog
  import opened RaftNode
  import opened RaftProtocol
  import opened RaftCompleteness

  datatype Event =
    | ElectionTimeout(id: nat)
    | HeartbeatTimeout(id: nat)
    | Propose(id: nat, command: Command)
    | Deliver(k: nat)

  datatype Cluster = Cluster(
    nodes: map<nat, Node>, sent: seq<Message>, taken: set<nat>,
    tally: map<nat, set<nat>>, proto: Proto)

  function CoreOf(s: Node): Core {
    Core(s.term, s.votedFor, s.role, s.log)
  }

  function Start(n: nat): Cluster {
    Cluster(map i | i in Ids(n) :: Init(i, n), [], {}, map[],
            Proto(n, map i | i in Ids(n) :: CoreOf(Init(i, n)), {}, map[], {}))
  }

  predicate Enabled(c: Cluster, e: Event) {
    match e
    case ElectionTimeout(i) => i in c.nodes
    case HeartbeatTimeout(i) => i in c.nodes
    case Propose(i, _) => i in c.nodes
    case Deliver(k) => k < |c.sent| && k !in c.taken && c.sent[k].dst in c.nodes
  }

  /** The node that handles the event. */
  function Target(c: Cluster, e: Event): nat
    requires Enabled(c, e)
  {
    match e
    case ElectionTimeout(i) => i
    case HeartbeatTimeout(i) => i
    case Propose(i, _) => i
    case Deliver(k) => c.sent[k].dst
  }

  function Outcome(c: Cluster, e: Event): (Node, seq<Message>)
    requires Enabled(c, e)
  {
    var s := c.nodes[Target(c, e)];
    match e
    case ElectionTimeout(i) => HandleElectionTimeout(s)
    case HeartbeatTimeout(i) => (s, HandleHeartbeatTimeout(s))
    case Propose(i, command) => HandlePropose(s, command)
    case Deliver(k) => HandleMessage(s, c.sent[k])
  }

  // ---- Recording what happened ----

  function Tally(c: Cluster, i: nat): set<nat> {
    if i in c.tally then c.tally[i] else {}
  }

  /** Whose votes the node has counted in its current candidacy. */
  function TallyAfter(s: Node, tally: set<nat>, e: Event, sent: seq<Message>): set<nat>
    requires e.Deliver? ==> e.k < |sent|
  {
    match e
    case ElectionTimeout(i) => if s.role == Leader then tally else {i}
    case Deliver(k) =>
      var m := sent[k];
      if m.VoteReply? && m.granted && m.term == s.term && s.role == Candidate then tally + {m.src} else tally
    case _ => tally
  }

  /** The node has just become leader, or has just appended to its log as leader. */
  predicate Led(s: Node, s': Node) {
    s'.role == Leader && |s'.log| > 0 && (s.role != Leader || s'.log != s.log)
  }

  predicate Voted(s: Node, s': Node) {
    s'.votedFor != 0 && (s'.votedFor != s.votedFor || s'.term != s.term)
  }

  predicate Acknowledged(out: seq<Message>) {
    |out| == 1 && out[0].AppendReply? && out[0].success
  }

  function Record(p: Proto, i: nat, s: Node, s': Node, out: seq<Message>, tally: set<nat>): Proto {
    var voters := if s.role == Leader && s'.term in p.reigns then p.reigns[s'.term].voters else tally;
    Proto(p.n, p.nodes[i := CoreOf(s')],
          if Voted(s, s') then p.votes + {Vote(i, s'.term, s'.votedFor)} else p.votes,
          if Led(s, s') then p.reigns[s'.term := Reign(i, voters, s'.log)] else p.reigns,
          if Led(s, s') then p.acks + AcksUpTo(i, s'.term, |s'.log| - 1)
          else if Acknowledged(out) then p.acks + AcksUpTo(i, out[0].term, out[0].lastIndex)
          else p.acks)
  }

  function After(c: Cluster, e: Event): Cluster
    requires Enabled(c, e)
  {
    var i := Target(c, e);
    var s := c.nodes[i];
    var (s', out) := Outcome(c, e);
    var tally := TallyAfter(s, Tally(c, i), e, c.sent);
    Cluster(c.nodes[i := s'], c.sent + out, if e.Deliver? then c.taken + {e.k} else c.taken,
            c.tally[i := tally], Record(c.proto, i, s, s', out, tally))
  }

  // ---- Runs ----

  predicate IsRun(n: nat, events: seq<Event>, states: seq<Cluster>) {
    |states| == |events| + 1 && states[0] == Start(n)
    && forall k | 0 <= k < |events| :: Enabled(states[k], events[k]) && states[k + 1] == After(states[k], events[k])
  }

  /** Events that follow one another, from any state. */
  predicate IsPath(events: seq<Event>, states: seq<Cluster>) {
    && |states| == |events| + 1
    && forall k | 0 <= k < |events| :: Enabled(states[k], events[k]) && states[k + 1] == After(states[k], events[k])
  }

  lemma StepOfRun(n: nat, events: seq<Event>, states: seq<Cluster>, k: nat)
    requires IsRun(n, events, states) && k < |events|
    ensures Enabled(states[k], events[k]) && states[k + 1] == After(states[k], events[k])
  {
  }

  lemma StepOfPath(events: seq<Event>, states: seq<Cluster>, k: nat)
    requires IsPath(events, states) && k < |events|
    ensures Enabled(states[k], events[k]) && states[k + 1] == After(states[k], events[k])
  {
  }

  lemma Early<T>(a: seq<T>, b: seq<T>, k: nat)
    requires k < |a|
    ensures (a + b)[k] == a[k]
  {
  }

  lemma Late<T>(a: seq<T>, b: seq<T>, j: nat)
    requires |a| > 0 && j <= |b|
    ensures (a + b)[|a| - 1 + j] == ([a[|a| - 1]] + b)[j]
  {
  }

  lemma EarlyStep(events: seq<Event>, states: seq<Cluster>, more: seq<Event>, rest: seq<Cluster>, k: nat)
    requires k < |events| && k + 1 < |states| && Enabled(states[k], events[k]) && states[k + 1] == After(states[k], events[k])
    ensures Enabled((states + rest)[k], (events + more)[k])
    ensures (states + rest)[k + 1] == After((states + rest)[k], (events + more)[k])
  {
    Early(events, more, k);
    Early(states, rest, k);
    Early(states, rest, k + 1);
  }

  lemma LateStep(events: seq<Event>, states: seq<Cluster>, more: seq<Event>, rest: seq<Cluster>, j: nat, c: Cluster, c': Cluster)
    requires |states| == |events| + 1 && j < |more| == |rest| && Enabled(c, more[j]) && c' == After(c, more[j])
    requires c == ([states[|events|]] + rest)[j] && c' == ([states[|events|]] + rest)[j + 1]
    ensures Enabled((states + rest)[|events| + j], (events + more)[|events| + j])
    ensures (states + rest)[|events| + j + 1] == After((states + rest)[|events| + j], (events + more)[|events| + j])
  {
    Late(states, rest, j);
    Late(states, rest, j + 1);
    assert (states + rest)[|events| + j] == c && (events + more)[|events| + j] == more[j];
  }

  lemma GoesOnAt(n: nat, events: seq<Event>, states: seq<Cluster>, more: seq<Event>, rest: seq<Cluster>, k: nat)
    requires IsRun(n, events, states) && IsPath(more, [states[|events|]] + rest) && k < |events + more|
    ensures Enabled((states + rest)[k], (events + more)[k])
    ensures (states + rest)[k + 1] == After((states + rest)[k], (events + more)[k])
  {
    if k < |events| {
      StepOfRun(n, events, states, k);
      EarlyStep(events, states, more, rest, k);
    } else {
      var path, j := [states[|events|]] + rest, k - |events|;
      StepOfPath(more, path, j);
      LateStep(events, states, more, rest, j, path[j], path[j + 1]);
    }
  }

  lemma RunGoesOn(n: nat, events: seq<Event>, states: seq<Cluster>, more: seq<Event>, rest: seq<Cluster>)
    requires IsRun(n, events, states) && IsPath(more, [states[|events|]] + rest)
    ensures IsRun(n, events + more, states + rest)
  {
    forall k: nat | k < |events + more|
      ensures Enabled((states + rest)[k], (events + more)[k])
      ensures (states + rest)[k + 1] == After((states + rest)[k], (events + more)[k])
    {
      GoesOnAt(n, events, states, more, rest, k);
    }
  }

  /** The message, if it is an AppendEntries its receiver would accept, is not stale there. */
  predicate FreshDelivery(s: Node, m: Message) {
    m.AppendEntries? && m.term >= s.term && Consistent(s.log, m.prevIndex, m.prevTerm) ==>
      NonStale(s.log, m.prevIndex, m.entries)
  }

  predicate FreshEvent(c: Cluster, e: Event)
    requires Enabled(c, e)
  {
    e.Deliver? ==> FreshDelivery(c.nodes[Target(c, e)], c.sent[e.k])
  }

  predicate FreshRun(n: nat, events: seq<Event>, states: seq<Cluster>) {
    IsRun(n, events, states) && forall k | 0 <= k < |events| :: FreshEvent(states[k], events[k])
  }
}
