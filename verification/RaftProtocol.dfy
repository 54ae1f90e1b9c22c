/**
 * The part of a Raft cluster that safety is about: each node's term, vote, role and log, together
 * with what has happened so far (who voted for whom, who has led each term with which log, who has
 * acknowledged which index to the leader of which term). Each handler of RaftNode is one to three
 * of the small steps below.
 *
 * `Basic` is kept by every step, however messages are delayed, lost or reordered. Election Safety
 * and Log Matching (sections 5.2 and 5.3 of the Raft paper) follow from it.
 */
module RaftProtocol {
  import opened Collections
  import opened RaftLog
  import opened RaftNode

  datatype Core = Core(term: nat, votedFor: nat, role: Role, log: seq<Entry>)

  datatype Vote = Vote(voter: nat, term: nat, candidate: nat)

  /** The node acknowledged, to the leader of `term`, that it holds that leader's log up to `index`. */
  datatype Ack = Ack(node: nat, term: nat, index: nat)

  /** Who has led a term, elected by whom, and the longest log it has had in that term. */
  datatype Reign = Reign(leader: nat, voters: set<nat>, log: seq<Entry>)

  datatype Proto = Proto(n: nat, nodes: map<nat, Core>, votes: set<Vote>, reigns: map<nat, Reign>, acks: set<Ack>)

  function AcksUpTo(node: nat, term: nat, upto: nat): (r: set<Ack>)
    ensures forall a :: a in r <==> a.node == node && a.term == term && 1 <= a.index <= upto
  {
    if upto == 0 then {} else AcksUpTo(node, term, upto - 1) + {Ack(node, term, upto)}
  }

  // ---- Quorums ----

  predicate Quorum(n: nat, q: set<nat>) {
    q <= Ids(n) && 2 * |q| > n
  }

  lemma QuorumsMeet(n: nat, a: set<nat>, b: set<nat>) returns (v: nat)
    requires Quorum(n, a) && Quorum(n, b)
    ensures v in a && v in b
  {
    if a * b == {} {
      assert |a + b| == |a| + |b|;
      SubsetSize(a + b, Ids(n));
      assert false;
    }
    v :| v in a * b;
  }

  // ---- The small steps ----

  function Observe(p: Proto, v: nat, term: nat): Proto
    requires v in p.nodes
  {
    p.(nodes := p.nodes[v := Core(term, 0, Follower, p.nodes[v].log)])
  }

  function StepDown(p: Proto, v: nat): Proto
    requires v in p.nodes
  {
    p.(nodes := p.nodes[v := p.nodes[v].(role := Follower)])
  }

  function Stand(p: Proto, c: nat): Proto
    requires c in p.nodes
  {
    var t := p.nodes[c].term + 1;
    p.(nodes := p.nodes[c := Core(t, c, Candidate, p.nodes[c].log)], votes := p.votes + {Vote(c, t, c)})
  }

  function Grant(p: Proto, v: nat, c: nat): Proto
    requires v in p.nodes
  {
    p.(nodes := p.nodes[v := p.nodes[v].(votedFor := c)], votes := p.votes + {Vote(v, p.nodes[v].term, c)})
  }

  function Elect(p: Proto, c: nat, voters: set<nat>): Proto
    requires c in p.nodes && |p.nodes[c].log| > 0
  {
    var k := p.nodes[c];
    p.(nodes := p.nodes[c := k.(role := Leader)],
       reigns := p.reigns[k.term := Reign(c, voters, k.log)],
       acks := p.acks + AcksUpTo(c, k.term, |k.log| - 1))
  }

  function Extend(p: Proto, c: nat, command: Command): Proto
    requires c in p.nodes && p.nodes[c].term in p.reigns
  {
    var k := p.nodes[c];
    var log := k.log + [Entry(|k.log|, k.term, command)];
    p.(nodes := p.nodes[c := k.(log := log)],
       reigns := p.reigns[k.term := p.reigns[k.term].(log := log)],
       acks := p.acks + AcksUpTo(c, k.term, |k.log|))
  }

  function Accept(p: Proto, v: nat, prev: nat, entries: seq<Entry>): Proto
    requires v in p.nodes
  {
    var k := p.nodes[v];
    p.(nodes := p.nodes[v := k.(log := Overwritten(k.log, prev, entries))],
       acks := p.acks + AcksUpTo(v, k.term, prev + |entries|))
  }

  // ---- When a step may be taken ----

  predicate CanGrant(p: Proto, v: nat, c: nat) {
    v in p.nodes && c in p.nodes && v != c && c > 0
    && (p.nodes[v].votedFor == 0 || p.nodes[v].votedFor == c)
    && p.nodes[c].term >= p.nodes[v].term
    && (p.nodes[c].term == p.nodes[v].term && p.nodes[c].role == Candidate ==>
          UpToDate(LastIndex(p.nodes[c].log), LastTerm(p.nodes[c].log), p.nodes[v].log))
  }

  predicate CanElect(p: Proto, c: nat, voters: set<nat>) {
    c in p.nodes && p.nodes[c].role == Candidate && Quorum(p.n, voters)
    && forall v | v in voters :: Vote(v, p.nodes[c].term, c) in p.votes
  }

  predicate CanExtend(p: Proto, c: nat) {
    c in p.nodes && p.nodes[c].role == Leader
  }

  /** `entries` is the stretch of `log` behind `prev`. */
  predicate IsStretch(log: seq<Entry>, prev: nat, entries: seq<Entry>) {
    prev + |entries| < |log| && entries == log[prev + 1..prev + 1 + |entries|]
  }

  predicate CanAccept(p: Proto, v: nat, prev: nat, entries: seq<Entry>) {
    v in p.nodes && p.nodes[v].role == Follower && p.nodes[v].term in p.reigns
    && var log := p.reigns[p.nodes[v].term].log;
    IsStretch(log, prev, entries) && Consistent(p.nodes[v].log, prev, log[prev].term)
  }

  // ---- What every step keeps ----

  /** The dummy entry, then every entry's index is its position and terms never fall. */
  predicate Shape(log: seq<Entry>) {
    |log| > 0 && log[0] == DUMMY
    && (forall i | 0 <= i < |log| :: log[i].index == i)
    && (forall i, j | 0 <= i <= j < |log| :: log[i].term <= log[j].term)
  }

  predicate LogOk(log: seq<Entry>, term: nat) {
    Shape(log) && forall i | 0 <= i < |log| :: log[i].term <= term
  }

  predicate Agree(a: seq<Entry>, b: seq<Entry>, i: nat) {
    i < |a| && i < |b| && a[..i + 1] == b[..i + 1]
  }

  /** Every entry sits in `log` exactly where, and behind exactly what, the leader of its term had it. */
  predicate Matches(reigns: map<nat, Reign>, log: seq<Entry>) {
    forall i | 1 <= i < |log| :: log[i].term in reigns && Agree(log, reigns[log[i].term].log, i)
  }

  predicate IdsOk(p: Proto) {
    p.nodes.Keys == Ids(p.n)
  }

  predicate NodesOk(p: Proto) {
    forall v | v in p.nodes :: LogOk(p.nodes[v].log, p.nodes[v].term)
  }

  predicate VoteOk(p: Proto, x: Vote) {
    x.voter in p.nodes && x.candidate in p.nodes
    && x.term <= p.nodes[x.voter].term && x.term <= p.nodes[x.candidate].term
    && (x.term == p.nodes[x.voter].term ==> p.nodes[x.voter].votedFor == x.candidate)
  }

  predicate VotesOk(p: Proto) {
    (forall x | x in p.votes :: VoteOk(p, x))
    && (forall v | v in p.nodes :: p.nodes[v].votedFor != 0 ==> Vote(v, p.nodes[v].term, p.nodes[v].votedFor) in p.votes)
  }

  predicate OneVote(p: Proto) {
    forall x, y | x in p.votes && y in p.votes ::
      x.voter == y.voter && x.term == y.term ==> x.candidate == y.candidate
  }

  predicate ReignOk(p: Proto, t: nat)
    requires t in p.reigns
  {
    var r := p.reigns[t];
    r.leader in p.nodes && Quorum(p.n, r.voters)
    && (forall v | v in r.voters :: Vote(v, t, r.leader) in p.votes)
    && LogOk(r.log, t) && AcksUpTo(r.leader, t, |r.log| - 1) <= p.acks
    && p.nodes[r.leader].term >= t
    && (p.nodes[r.leader].term == t ==> p.nodes[r.leader].role == Leader && p.nodes[r.leader].log == r.log)
  }

  predicate ReignsOk(p: Proto) {
    (forall t | t in p.reigns :: ReignOk(p, t))
    && (forall c | c in p.nodes :: p.nodes[c].role == Leader ==>
          p.nodes[c].term in p.reigns && p.reigns[p.nodes[c].term].leader == c)
  }

  predicate LogsMatch(p: Proto) {
    (forall v | v in p.nodes :: Matches(p.reigns, p.nodes[v].log))
    && (forall t | t in p.reigns :: Matches(p.reigns, p.reigns[t].log))
  }

  predicate AckOk(p: Proto, a: Ack) {
    a.node in p.nodes && a.term in p.reigns && 1 <= a.index < |p.reigns[a.term].log| && p.nodes[a.node].term >= a.term
  }

  predicate AcksOk(p: Proto) {
    forall a | a in p.acks :: AckOk(p, a)
  }

  predicate Basic(p: Proto) {
    IdsOk(p) && NodesOk(p) && VotesOk(p) && OneVote(p) && ReignsOk(p) && LogsMatch(p) && AcksOk(p)
  }

  // ---- Consequences of Basic ----

  /** Log Matching: the same term at the same index means the same log up to that index. */
  lemma SameTermSameLog(p: Proto, a: seq<Entry>, b: seq<Entry>, i: nat)
    requires Matches(p.reigns, a) && Matches(p.reigns, b)
    requires 1 <= i < |a| && i < |b| && a[i].term == b[i].term
    ensures a[..i + 1] == b[..i + 1]
  {
  }

  /** What an AppendEntries check accepts is the leader's own log up to the last new entry. */
  lemma OverwrittenIsPrefix(p: Proto, v: nat, prev: nat, entries: seq<Entry>)
    requires NodesOk(p) && ReignsOk(p) && LogsMatch(p) && CanAccept(p, v, prev, entries)
    ensures var lead := p.reigns[p.nodes[v].term].log;
            var log := p.nodes[v].log;
            && prev < |log| && log[..prev + 1] == lead[..prev + 1]
            && (|entries| > 0 ==> Overwritten(log, prev, entries) == lead[..prev + 1 + |entries|])
  {
    var t := p.nodes[v].term;
    var lead := p.reigns[t].log;
    var log := p.nodes[v].log;
    assert ReignOk(p, t);
    if prev > 0 {
      SameTermSameLog(p, log, lead, prev);
    } else {
      assert log[..1] == [DUMMY] == lead[..1];
    }
    if |entries| > 0 {
      OverwrittenIs(log, lead, prev, entries);
    }
  }

  lemma OverwrittenIs(log: seq<Entry>, lead: seq<Entry>, prev: nat, entries: seq<Entry>)
    requires prev < |log| && IsStretch(lead, prev, entries) && |entries| > 0 && log[..prev + 1] == lead[..prev + 1]
    ensures Overwritten(log, prev, entries) == lead[..prev + 1 + |entries|]
  {
    assert Truncated(log, prev + 1) == log[..prev + 1];
    assert lead[..prev + 1] + lead[prev + 1..prev + 1 + |entries|] == lead[..prev + 1 + |entries|];
  }

  lemma PrefixMatches(reigns: map<nat, Reign>, log: seq<Entry>, k: nat)
    requires Matches(reigns, log) && k <= |log|
    ensures Matches(reigns, log[..k])
  {
    forall i | 1 <= i < k
      ensures log[..k][i].term in reigns && Agree(log[..k], reigns[log[..k][i].term].log, i)
    {
      assert log[..k][..i + 1] == log[..i + 1];
    }
  }

  predicate Grows(r: map<nat, Reign>, r': map<nat, Reign>) {
    forall t | t in r :: t in r' && r[t].log <= r'[t].log
  }

  lemma MatchesGrows(r: map<nat, Reign>, r': map<nat, Reign>, log: seq<Entry>)
    requires Matches(r, log) && Grows(r, r')
    ensures Matches(r', log)
  {
    forall i | 1 <= i < |log|
      ensures log[i].term in r' && Agree(log, r'[log[i].term].log, i)
    {
      var a, b := r[log[i].term].log, r'[log[i].term].log;
      assert a[..i + 1] == b[..i + 1];
    }
  }

  // ---- Basic is kept: one lemma a part, for any step that changes one node ----

  predicate Changes(p: Proto, p': Proto, v: nat) {
    p'.n == p.n && v in p.nodes && p'.nodes.Keys == p.nodes.Keys
    && (forall u | u in p.nodes && u != v :: p'.nodes[u] == p.nodes[u])
    && p'.nodes[v].term >= p.nodes[v].term
    && p.votes <= p'.votes && p.acks <= p'.acks
  }

  /** A leader that stays in its term keeps its log and role; nobody becomes leader. */
  predicate SameReign(k: Core, k': Core) {
    (k.role == Leader && k'.term == k.term ==> k'.role == Leader && k'.log == k.log)
    && (k'.role == Leader ==> k.role == Leader && k'.term == k.term)
  }

  lemma ReignsKept(p: Proto, p': Proto, v: nat)
    requires ReignsOk(p) && Changes(p, p', v) && p'.reigns == p.reigns && SameReign(p.nodes[v], p'.nodes[v])
    ensures ReignsOk(p')
  {
    forall t | t in p'.reigns ensures ReignOk(p', t) {
      assert ReignOk(p, t);
    }
  }

  lemma VotesKept(p: Proto, p': Proto, v: nat)
    requires VotesOk(p) && OneVote(p) && Changes(p, p', v) && p'.votes == p.votes
    requires
      if p'.nodes[v].term == p.nodes[v].term
      then p'.nodes[v].votedFor == p.nodes[v].votedFor
      else p'.nodes[v].votedFor == 0
    ensures VotesOk(p') && OneVote(p')
  {
  }

  lemma VoteAdded(p: Proto, p': Proto, v: nat)
    requires VotesOk(p) && OneVote(p) && Changes(p, p', v)
    requires var k := p'.nodes[v];
             && p'.votes == p.votes + {Vote(v, k.term, k.votedFor)}
             && k.votedFor in p.nodes && p'.nodes[k.votedFor].term >= k.term
             && (k.term == p.nodes[v].term ==> p.nodes[v].votedFor == 0 || p.nodes[v].votedFor == k.votedFor)
    requires 0 !in p.nodes
    ensures VotesOk(p') && OneVote(p')
  {
    forall x | x in p.votes ensures VoteOk(p', x) && (x.voter == v && x.term == p'.nodes[v].term ==> x.candidate == p'.nodes[v].votedFor) {
      assert VoteOk(p, x);
    }
  }

  lemma AcksKept(p: Proto, p': Proto, v: nat)
    requires AcksOk(p) && Changes(p, p', v) && Grows(p.reigns, p'.reigns)
    requires forall a | a in p'.acks && a !in p.acks :: AckOk(p', a)
    ensures AcksOk(p')
  {
    forall a | a in p'.acks ensures AckOk(p', a) {
      assert a in p.acks ==> AckOk(p, a);
    }
  }

  lemma LogsKept(p: Proto, p': Proto, v: nat)
    requires LogsMatch(p) && Changes(p, p', v) && p'.reigns == p.reigns && Matches(p.reigns, p'.nodes[v].log)
    ensures LogsMatch(p')
  {
  }

  lemma NodesKept(p: Proto, p': Proto, v: nat)
    requires NodesOk(p) && Changes(p, p', v) && p'.nodes[v].log == p.nodes[v].log
    ensures NodesOk(p')
  {
  }

  // ---- Basic is kept: one lemma a step ----

  lemma ObserveKeepsBasic(p: Proto, v: nat, term: nat)
    requires Basic(p) && v in p.nodes && term > p.nodes[v].term
    ensures Basic(Observe(p, v, term))
  {
    var p' := Observe(p, v, term);
    assert Changes(p, p', v);
    NodesKept(p, p', v);
    VotesKept(p, p', v);
    ReignsKept(p, p', v);
    LogsKept(p, p', v);
    AcksKept(p, p', v);
  }

  lemma StepDownKeepsBasic(p: Proto, v: nat)
    requires Basic(p) && v in p.nodes && p.nodes[v].role != Leader
    ensures Basic(StepDown(p, v))
  {
    var p' := StepDown(p, v);
    assert Changes(p, p', v);
    NodesKept(p, p', v);
    VotesKept(p, p', v);
    ReignsKept(p, p', v);
    LogsKept(p, p', v);
    AcksKept(p, p', v);
  }

  lemma StandKeepsBasic(p: Proto, c: nat)
    requires Basic(p) && c in p.nodes
    ensures Basic(Stand(p, c))
  {
    var p' := Stand(p, c);
    assert Changes(p, p', c);
    NodesKept(p, p', c);
    VoteAdded(p, p', c);
    ReignsKept(p, p', c);
    LogsKept(p, p', c);
    AcksKept(p, p', c);
  }

  lemma GrantKeepsBasic(p: Proto, v: nat, c: nat)
    requires Basic(p) && CanGrant(p, v, c)
    ensures Basic(Grant(p, v, c))
  {
    var p' := Grant(p, v, c);
    assert Changes(p, p', v);
    NodesKept(p, p', v);
    VoteAdded(p, p', v);
    ReignsKept(p, p', v);
    LogsKept(p, p', v);
    AcksKept(p, p', v);
  }

  /** Election Safety at its root: a term that already has a leader cannot elect a candidate. */
  lemma ElectedTermIsNew(p: Proto, c: nat, voters: set<nat>)
    requires OneVote(p) && ReignsOk(p) && CanElect(p, c, voters)
    ensures p.nodes[c].term !in p.reigns
  {
    var t := p.nodes[c].term;
    if t in p.reigns {
      assert ReignOk(p, t);
      var v := QuorumsMeet(p.n, voters, p.reigns[t].voters);
      assert false;
    }
  }

  lemma ElectKeepsReigns(p: Proto, p': Proto, c: nat, voters: set<nat>)
    requires NodesOk(p) && OneVote(p) && ReignsOk(p) && CanElect(p, c, voters) && p' == Elect(p, c, voters)
    ensures ReignsOk(p') && Grows(p.reigns, p'.reigns)
  {
    ElectedTermIsNew(p, c, voters);
    forall u | u in p'.reigns ensures ReignOk(p', u) {
      if u in p.reigns {
        OldReignKept(p, p', c, voters, u);
      } else {
        NewReignOk(p, p', c, voters);
      }
    }
  }

  lemma OldReignKept(p: Proto, p': Proto, c: nat, voters: set<nat>, u: nat)
    requires u in p.reigns && ReignOk(p, u) && CanElect(p, c, voters) && |p.nodes[c].log| > 0
    requires p' == Elect(p, c, voters) && p.nodes[c].term !in p.reigns
    ensures u in p'.reigns && ReignOk(p', u)
  {
  }

  lemma NewReignOk(p: Proto, p': Proto, c: nat, voters: set<nat>)
    requires NodesOk(p) && CanElect(p, c, voters) && |p.nodes[c].log| > 0 && p' == Elect(p, c, voters)
    ensures p.nodes[c].term in p'.reigns && ReignOk(p', p.nodes[c].term)
  {
  }

  /** The logs of all nodes and reigns but one, when that one is extended or new. */
  lemma GrowingLogsMatch(p: Proto, p': Proto, c: nat, t: nat)
    requires LogsMatch(p) && Changes(p, p', c) && Grows(p.reigns, p'.reigns)
    requires p'.reigns.Keys == p.reigns.Keys + {t}
    requires forall u | u in p.reigns && u != t :: p'.reigns[u] == p.reigns[u]
    requires p'.nodes[c].log == p'.reigns[t].log && Matches(p'.reigns, p'.nodes[c].log)
    ensures LogsMatch(p')
  {
    forall v | v in p'.nodes ensures Matches(p'.reigns, p'.nodes[v].log) {
      if v != c {
        MatchesGrows(p.reigns, p'.reigns, p.nodes[v].log);
      }
    }
    forall u | u in p'.reigns ensures Matches(p'.reigns, p'.reigns[u].log) {
      if u != t {
        MatchesGrows(p.reigns, p'.reigns, p.reigns[u].log);
      }
    }
  }

  lemma ElectKeepsLogs(p: Proto, p': Proto, c: nat, voters: set<nat>)
    requires LogsMatch(p) && c in p.nodes && |p.nodes[c].log| > 0 && p' == Elect(p, c, voters)
    requires p.nodes[c].term !in p.reigns
    ensures LogsMatch(p')
  {
    MatchesGrows(p.reigns, p'.reigns, p.nodes[c].log);
    GrowingLogsMatch(p, p', c, p.nodes[c].term);
  }

  lemma ElectKeepsAcks(p: Proto, p': Proto, c: nat, voters: set<nat>)
    requires AcksOk(p) && c in p.nodes && |p.nodes[c].log| > 0 && p' == Elect(p, c, voters)
    requires p.nodes[c].term !in p.reigns
    ensures AcksOk(p')
  {
    AcksKept(p, p', c);
  }

  lemma ElectKeepsBasic(p: Proto, c: nat, voters: set<nat>)
    requires Basic(p) && CanElect(p, c, voters)
    ensures |p.nodes[c].log| > 0 && Basic(Elect(p, c, voters))
  {
    var p' := Elect(p, c, voters);
    assert Changes(p, p', c);
    ElectedTermIsNew(p, c, voters);
    NodesKept(p, p', c);
    VotesKept(p, p', c);
    ElectKeepsReigns(p, p', c, voters);
    ElectKeepsLogs(p, p', c, voters);
    ElectKeepsAcks(p, p', c, voters);
  }

  lemma ExtendedOk(log: seq<Entry>, term: nat, command: Command)
    requires LogOk(log, term)
    ensures LogOk(log + [Entry(|log|, term, command)], term)
  {
  }

  lemma ExtendKeepsReigns(p: Proto, p': Proto, c: nat, command: Command)
    requires NodesOk(p) && ReignsOk(p) && CanExtend(p, c) && p' == Extend(p, c, command)
    ensures ReignsOk(p') && Grows(p.reigns, p'.reigns) && NodesOk(p')
  {
    ExtendedOk(p.nodes[c].log, p.nodes[c].term, command);
    assert ReignOk(p, p.nodes[c].term);
    forall u | u in p'.reigns ensures ReignOk(p', u) {
      assert ReignOk(p, u);
    }
  }

  lemma ExtendedMatches(p: Proto, p': Proto, c: nat, command: Command)
    requires ReignsOk(p) && LogsMatch(p) && CanExtend(p, c) && p' == Extend(p, c, command)
    requires Grows(p.reigns, p'.reigns)
    ensures Matches(p'.reigns, p'.nodes[c].log)
  {
    var k := p.nodes[c];
    var log := p'.nodes[c].log;
    MatchesGrows(p.reigns, p'.reigns, k.log);
    forall i | 1 <= i < |log|
      ensures log[i].term in p'.reigns && Agree(log, p'.reigns[log[i].term].log, i)
    {
      if i < |k.log| {
        assert Agree(k.log, p'.reigns[k.log[i].term].log, i);
        assert log[..i + 1] == k.log[..i + 1];
      }
    }
  }

  lemma ExtendKeepsLogs(p: Proto, p': Proto, c: nat, command: Command)
    requires ReignsOk(p) && LogsMatch(p) && CanExtend(p, c) && p' == Extend(p, c, command)
    requires Grows(p.reigns, p'.reigns)
    ensures LogsMatch(p')
  {
    ExtendedMatches(p, p', c, command);
    GrowingLogsMatch(p, p', c, p.nodes[c].term);
  }

  lemma ExtendKeepsAcks(p: Proto, p': Proto, c: nat, command: Command)
    requires AcksOk(p) && ReignsOk(p) && CanExtend(p, c) && p' == Extend(p, c, command)
    requires Grows(p.reigns, p'.reigns)
    ensures AcksOk(p')
  {
    AcksKept(p, p', c);
  }

  lemma ExtendKeepsBasic(p: Proto, c: nat, command: Command)
    requires Basic(p) && CanExtend(p, c)
    ensures p.nodes[c].term in p.reigns && Basic(Extend(p, c, command))
  {
    var p' := Extend(p, c, command);
    assert Changes(p, p', c);
    VotesKept(p, p', c);
    ExtendKeepsReigns(p, p', c, command);
    ExtendKeepsLogs(p, p', c, command);
    ExtendKeepsAcks(p, p', c, command);
  }

  lemma AcceptedLogOk(p: Proto, v: nat, prev: nat, entries: seq<Entry>)
    requires NodesOk(p) && ReignsOk(p) && LogsMatch(p) && CanAccept(p, v, prev, entries)
    ensures LogOk(Overwritten(p.nodes[v].log, prev, entries), p.nodes[v].term)
    ensures Matches(p.reigns, Overwritten(p.nodes[v].log, prev, entries))
  {
    var t := p.nodes[v].term;
    OverwrittenIsPrefix(p, v, prev, entries);
    assert ReignOk(p, t);
    OverwrittenLogOk(p.nodes[v].log, p.reigns[t].log, t, prev, entries);
    OverwrittenMatches(p.reigns, p.nodes[v].log, p.reigns[t].log, prev, entries);
  }

  lemma OverwrittenLogOk(log: seq<Entry>, lead: seq<Entry>, term: nat, prev: nat, entries: seq<Entry>)
    requires LogOk(log, term) && LogOk(lead, term) && IsStretch(lead, prev, entries)
    requires |entries| > 0 ==> Overwritten(log, prev, entries) == lead[..prev + 1 + |entries|]
    ensures LogOk(Overwritten(log, prev, entries), term)
  {
    if |entries| > 0 {
      PrefixLogOk(lead, term, prev + 1 + |entries|);
    }
  }

  lemma OverwrittenMatches(reigns: map<nat, Reign>, log: seq<Entry>, lead: seq<Entry>, prev: nat, entries: seq<Entry>)
    requires Matches(reigns, log) && Matches(reigns, lead) && IsStretch(lead, prev, entries)
    requires |entries| > 0 ==> Overwritten(log, prev, entries) == lead[..prev + 1 + |entries|]
    ensures Matches(reigns, Overwritten(log, prev, entries))
  {
    if |entries| > 0 {
      PrefixMatches(reigns, lead, prev + 1 + |entries|);
    }
  }

  lemma PrefixLogOk(log: seq<Entry>, term: nat, k: nat)
    requires LogOk(log, term) && 0 < k <= |log|
    ensures LogOk(log[..k], term)
  {
  }

  lemma AcceptChanges(p: Proto, v: nat, prev: nat, entries: seq<Entry>)
    requires v in p.nodes
    ensures Changes(p, Accept(p, v, prev, entries), v)
  {
  }

  lemma NodesKeptWith(p: Proto, p': Proto, v: nat)
    requires NodesOk(p) && Changes(p, p', v) && LogOk(p'.nodes[v].log, p'.nodes[v].term)
    ensures NodesOk(p')
  {
  }

  lemma AcceptKeepsBasic(p: Proto, v: nat, prev: nat, entries: seq<Entry>)
    requires Basic(p) && CanAccept(p, v, prev, entries)
    ensures Basic(Accept(p, v, prev, entries))
  {
    var p' := Accept(p, v, prev, entries);
    AcceptChanges(p, v, prev, entries);
    AcceptedLogOk(p, v, prev, entries);
    NodesKeptWith(p, p', v);
    VotesKept(p, p', v);
    ReignsKept(p, p', v);
    LogsKept(p, p', v);
    AcksKept(p, p', v);
  }
}
