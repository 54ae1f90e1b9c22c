/**
 * A run of three nodes in which a stale AppendEntries cuts an acknowledged entry off: Leader
 * Completeness and State Machine Safety then both fail. Every message is delivered at most once;
 * only two AppendEntries to node 2 arrive out of order.
 */
module RaftStaleRun {
  import opened Bytes
  import opened RaftLog
  import opened RaftNode
  import opened RaftProtocol
  import opened RaftCompleteness
  import opened RaftCluster

  const A := Entry(1, 1, [1])
  const B := Entry(2, 1, [2])
  const C := Entry(2, 2, [3])

  // ---- Runs, event by event ----

  datatype Trace = Begin | Then(before: Trace, event: Event)

  function StateOf(t: Trace): Option<Cluster> {
    match t
    case Begin => Some(Start(3))
    case Then(before, e) =>
      match StateOf(before)
      case None => None
      case Some(c) => if Enabled(c, e) then Some(After(c, e)) else None
  }

  function Last(states: seq<Cluster>): Cluster
    requires |states| > 0
  {
    states[|states| - 1]
  }

  lemma ExtendRun(n: nat, events: seq<Event>, states: seq<Cluster>, e: Event)
    requires IsRun(n, events, states) && Enabled(Last(states), e)
    ensures IsRun(n, events + [e], states + [After(Last(states), e)])
  {
    assert [states[|events|]] + [After(Last(states), e)] == [Last(states), After(Last(states), e)];
    RunGoesOn(n, events, states, [e], [After(Last(states), e)]);
  }

  /** Every trace that gets anywhere is a run. */
  lemma {:induction false} TraceIsRun(t: Trace) returns (events: seq<Event>, states: seq<Cluster>)
    requires StateOf(t).Some?
    ensures IsRun(3, events, states) && Last(states) == StateOf(t).value
  {
    match t
    case Begin =>
      events, states := [], [Start(3)];
    case Then(before, e) =>
      events, states := TraceIsRun(before);
      ExtendRun(3, events, states, e);
      events, states := events + [e], states + [After(Last(states), e)];
  }

  // ---- Everything that is sent, in order ----

  function Ask(src: nat, dst: nat, term: nat, last: nat, lastTerm: nat): Message {
    RequestVote(src, dst, term, src, last, lastTerm)
  }

  function Send(src: nat, dst: nat, term: nat, prev: nat, prevTerm: nat, entries: seq<Entry>): Message {
    AppendEntries(src, dst, term, src, prev, prevTerm, entries, 0)
  }

  /** The three nodes, what has been sent and what delivered; the record of what happened is left open. */
  predicate Looks(c: Cluster, n1: Node, n2: Node, n3: Node, sent: seq<Message>, taken: set<nat>) {
    c.nodes == map[1 := n1, 2 := n2, 3 := n3] && c.sent == sent && c.taken == taken
  }

  predicate Shows(t: Trace, n1: Node, n2: Node, n3: Node, sent: seq<Message>, taken: set<nat>) {
    StateOf(t).Some? && Looks(StateOf(t).value, n1, n2, n3, sent, taken)
  }

  function At3(n1: Node, n2: Node, n3: Node, i: nat): Node {
    if i == 1 then n1 else if i == 2 then n2 else n3
  }

  lemma LooksAt(c: Cluster, n1: Node, n2: Node, n3: Node, sent: seq<Message>, taken: set<nat>)
    requires Looks(c, n1, n2, n3, sent, taken)
    ensures c.nodes.Keys == {1, 2, 3} && forall i | i in c.nodes :: c.nodes[i] == At3(n1, n2, n3, i)
  {
  }

  lemma AfterFields(c: Cluster, e: Event, s: Node, out: seq<Message>)
    requires Enabled(c, e) && Outcome(c, e) == (s, out)
    ensures
      var c' := After(c, e);
      && c'.nodes == c.nodes[Target(c, e) := s] && c'.sent == c.sent + out
      && c'.taken == if e.Deliver? then c.taken + {e.k} else c.taken
  {
  }

  lemma NextLooks(c: Cluster, c': Cluster, n1: Node, n2: Node, n3: Node, sent: seq<Message>, taken: set<nat>, i: nat, s: Node)
    requires Looks(c, n1, n2, n3, sent, taken) && 1 <= i <= 3 && c'.nodes == c.nodes[i := s]
    ensures Looks(c', if i == 1 then s else n1, if i == 2 then s else n2, if i == 3 then s else n3, c'.sent, c'.taken)
  {
  }

  lemma ThenState(t: Trace, e: Event)
    requires StateOf(t).Some? && Enabled(StateOf(t).value, e)
    ensures StateOf(Then(t, e)) == Some(After(StateOf(t).value, e))
  {
  }

  lemma DeliverTo(t: Trace, n1: Node, n2: Node, n3: Node, sent: seq<Message>, taken: set<nat>, k: nat, s: Node, out: seq<Message>)
    returns (t': Trace)
    requires Shows(t, n1, n2, n3, sent, taken) && k < |sent| && k !in taken && 1 <= sent[k].dst <= 3
    requires HandleMessage(At3(n1, n2, n3, sent[k].dst), sent[k]) == (s, out)
    ensures
      var i := sent[k].dst;
      Shows(t', if i == 1 then s else n1, if i == 2 then s else n2, if i == 3 then s else n3, sent + out, taken + {k})
  {
    var c := StateOf(t).value;
    LooksAt(c, n1, n2, n3, sent, taken);
    t' := Then(t, Deliver(k));
    AfterFields(c, Deliver(k), s, out);
    NextLooks(c, After(c, Deliver(k)), n1, n2, n3, sent, taken, sent[k].dst, s);
  }

  lemma TimeoutAt(t: Trace, n1: Node, n2: Node, n3: Node, sent: seq<Message>, taken: set<nat>, i: nat, s: Node, out: seq<Message>)
    returns (t': Trace)
    requires Shows(t, n1, n2, n3, sent, taken) && 1 <= i <= 3
    requires HandleElectionTimeout(At3(n1, n2, n3, i)) == (s, out)
    ensures Shows(t', if i == 1 then s else n1, if i == 2 then s else n2, if i == 3 then s else n3, sent + out, taken)
  {
    var c, e := StateOf(t).value, ElectionTimeout(i);
    LooksAt(c, n1, n2, n3, sent, taken);
    t' := Then(t, e);
    ThenState(t, e);
    AfterFields(c, e, s, out);
    NextLooks(c, After(c, e), n1, n2, n3, sent, taken, i, s);
  }

  lemma ProposeAt(t: Trace, n1: Node, n2: Node, n3: Node, sent: seq<Message>, taken: set<nat>, i: nat, command: Command, s: Node, out: seq<Message>)
    returns (t': Trace)
    requires Shows(t, n1, n2, n3, sent, taken) && 1 <= i <= 3
    requires HandlePropose(At3(n1, n2, n3, i), command) == (s, out)
    ensures Shows(t', if i == 1 then s else n1, if i == 2 then s else n2, if i == 3 then s else n3, sent + out, taken)
  {
    var c, e := StateOf(t).value, Propose(i, command);
    LooksAt(c, n1, n2, n3, sent, taken);
    t' := Then(t, e);
    ThenState(t, e);
    AfterFields(c, e, s, out);
    NextLooks(c, After(c, e), n1, n2, n3, sent, taken, i, s);
  }

  // ---- The nodes as they go ----

  function Standing(id: nat, term: nat, log: seq<Entry>, leader: nat): Node {
    Node(id, 3, term, id, log, 0, 0, Candidate, leader, map[], map[], 1, 2, [])
  }

  function Leading(id: nat, term: nat, log: seq<Entry>, next: map<nat, nat>, matched: map<nat, nat>): Node {
    Node(id, 3, term, id, log, 0, 0, Leader, id, next, matched, 2, 2, [])
  }

  function Following(id: nat, term: nat, votedFor: nat, log: seq<Entry>, leader: nat): Node {
    Node(id, 3, term, votedFor, log, 0, 0, Follower, leader, map[], map[], 0, 0, [])
  }

  lemma Broadcasts(s: Node)
    requires s.peers == 3
    ensures s.id == 1 ==> BroadcastVote(s, 3) == [VoteRequestFor(s, 2), VoteRequestFor(s, 3)]
    ensures s.id == 2 ==> BroadcastVote(s, 3) == [VoteRequestFor(s, 1), VoteRequestFor(s, 3)]
    ensures s.id == 1 && s.nextIndex.Keys == {2, 3} ==>
              BroadcastAppend(s, 3) == [AppendEntriesFor(s, 2), AppendEntriesFor(s, 3)]
    ensures s.id == 2 && s.nextIndex.Keys == {1, 3} ==>
              BroadcastAppend(s, 3) == [AppendEntriesFor(s, 1), AppendEntriesFor(s, 3)]
  {
    assert BroadcastVote(s, 0) == [] && BroadcastAppend(s, 0) == [];
    assert BroadcastVote(s, 1) == if s.id == 1 then [] else [VoteRequestFor(s, 1)];
    assert BroadcastVote(s, 2) == BroadcastVote(s, 1) + if s.id == 2 then [] else [VoteRequestFor(s, 2)];
    assert BroadcastAppend(s, 1) == if s.id == 1 then [] else SendTo(s, 1);
    assert BroadcastAppend(s, 2) == BroadcastAppend(s, 1) + if s.id == 2 then [] else SendTo(s, 2);
  }

  /** A candidate of three nodes wins with its second vote. */
  lemma Wins(s: Node, voter: nat, p: nat, q: nat, n: nat)
    requires s.role == Candidate && s.peers == 3 && s.votes == 1 && s.votesNeeded == 2 && |s.log| > 0
    requires (s.id == 1 && p == 2 && q == 3) || (s.id == 2 && p == 1 && q == 3)
    requires n == LastIndex(s.log) + 1
    ensures HandleMessage(s, VoteReply(voter, s.id, s.term, true)) ==
              (s.(votes := 2, role := Leader, leader := s.id, nextIndex := map[p := n, q := n], matchIndex := map[p := 0, q := 0]), [])
  {
    LeaderMaps(s.(votes := 2), p, q, n);
  }

  lemma LeaderMaps(s: Node, p: nat, q: nat, n: nat)
    requires s.peers == 3 && |s.log| > 0 && n == LastIndex(s.log) + 1
    requires (s.id == 1 && p == 2 && q == 3) || (s.id == 2 && p == 1 && q == 3)
    ensures BecomeLeader(s).nextIndex == map[p := n, q := n] && BecomeLeader(s).matchIndex == map[p := 0, q := 0]
  {
    assert Others(s) == {p, q};
  }

  lemma Appends(s: Node, command: Command, e: Entry, log': seq<Entry>, p: nat, q: nat)
    requires s.role == Leader && s.peers == 3 && Shape(s.log) && s.log == [DUMMY] + s.log[1..] && log' == s.log + [e]
    requires e == Entry(|s.log|, s.term, command) && s.commit == 0 && s.applied == 0
    requires (s.id == 1 && p == 2 && q == 3) || (s.id == 2 && p == 1 && q == 3)
    requires s.nextIndex.Keys == {p, q} && s.matchIndex == map[p := 0, q := 0]
    ensures HandlePropose(s, command) ==
              (s.(log := log'), [AppendEntriesFor(s.(log := log'), p), AppendEntriesFor(s.(log := log'), q)])
  {
    var s1 := Proposed(s, command);
    Broadcasts(s1);
    forall n | 1 <= n ensures |Holders(s1.matchIndex, n)| == 0 {
      assert Holders(s1.matchIndex, n) == {};
    }
    NothingToCommit(s1, 1);
    assert s1 == s.(log := log');
    assert AdvanceCommit(s1) == s1;
  }

  lemma {:induction false} NothingToCommit(s: Node, n: nat)
    requires s.peers == 3 && forall k | 1 <= k :: |Holders(s.matchIndex, k)| == 0
    requires n >= 1
    ensures CommitScan(s, 0, n) == 0
    decreases |s.log| - n
  {
    if n < |s.log| && s.log[n].term != s.term {
      NothingToCommit(s, n + 1);
    }
  }

  /** A node that is told of no new commit takes the entries and acknowledges them. */
  lemma Receives(s: Node, m: Message, log': seq<Entry>)
    requires m.AppendEntries? && m.term == s.term && s.role == Follower && m.leaderCommit == 0 == s.commit
    requires Consistent(s.log, m.prevIndex, m.prevTerm) && Overwritten(s.log, m.prevIndex, m.entries) == log'
    ensures HandleMessage(s, m) ==
              (s.(log := log', leader := m.leaderId), [AppendReply(s.id, m.src, s.term, true, m.prevIndex + |m.entries|)])
  {
  }

  lemma Grants(s: Node, m: Message)
    requires m.RequestVote? && m.term > s.term && UpToDate(m.lastLogIndex, m.lastLogTerm, s.log)
    ensures HandleMessage(s, m) ==
              (s.(term := m.term, votedFor := m.candidate, role := Follower, leader := 0), [VoteReply(s.id, m.src, m.term, true)])
  {
  }

  /** One more acknowledgement makes a majority for both entries of the leader's log. */
  lemma Commits(s: Node, m: Message, x: Entry, y: Entry, other: nat)
    requires m.AppendReply? && m.term == s.term && m.success && m.lastIndex == 2 && s.role == Leader && s.peers == 3
    requires s.log == [DUMMY, x, y] && x.index == 1 && y.index == 2 && y.term == s.term
    requires s.commit == 0 && s.applied == 0 && s.delivered == [] && s.matchIndex == map[m.src := 0, other := 0] && m.src != other
    ensures
      var (s', out) := HandleMessage(s, m);
      && out == [] && s'.delivered == [ApplyMsg(1, x.command), ApplyMsg(2, y.command)]
      && s'.commit == 2 && s'.log == s.log && s'.role == Leader && s'.term == s.term
  {
    var s1 := Matched(s, m.src, 2);
    assert s1.matchIndex == map[m.src := 2, other := 0];
    assert Holders(s1.matchIndex, 1) == {m.src} && Holders(s1.matchIndex, 2) == {m.src};
    assert CommitScan(s1, 2, 3) == 2;
    assert CommitScan(s1, 1, 2) == 2 && CommitScan(s1, 0, 2) == 2;
    assert CommitScan(s1, 0, 1) == 2;
    assert Delivery(s1.log, 2, 2) == [];
    assert Delivery(s1.log, 1, 2) == [ApplyMsg(2, y.command)];
    assert Delivery(s1.log, 0, 2) == [ApplyMsg(1, x.command), ApplyMsg(2, y.command)];
  }

  // ---- What each node does in the run ----

  const NEXT1 := map[2 := 1, 3 := 1]
  const NONE1 := map[2 := 0, 3 := 0]
  const NEXT2 := map[1 := 2, 3 := 2]
  const NONE2 := map[1 := 0, 3 := 0]

  lemma OneStands()
    ensures HandleElectionTimeout(Init(1, 3)) == (Standing(1, 1, [DUMMY], 0), [Ask(1, 2, 1, 0, 0), Ask(1, 3, 1, 0, 0)])
  {
    Broadcasts(Standing(1, 1, [DUMMY], 0));
  }

  lemma OneWins()
    ensures HandleMessage(Standing(1, 1, [DUMMY], 0), VoteReply(2, 1, 1, true)) == (Leading(1, 1, [DUMMY], NEXT1, NONE1), [])
  {
    Wins(Standing(1, 1, [DUMMY], 0), 2, 2, 3, 1);
  }

  lemma OneProposes()
    ensures HandlePropose(Leading(1, 1, [DUMMY], NEXT1, NONE1), [1]) ==
              (Leading(1, 1, [DUMMY, A], NEXT1, NONE1), [Send(1, 2, 1, 0, 0, [A]), Send(1, 3, 1, 0, 0, [A])])
  {
    Appends(Leading(1, 1, [DUMMY], NEXT1, NONE1), [1], A, [DUMMY, A], 2, 3);
    assert [DUMMY, A][1..2] == [A];
  }

  lemma OneProposesAgain()
    ensures HandlePropose(Leading(1, 1, [DUMMY, A], NEXT1, NONE1), [2]) ==
              (Leading(1, 1, [DUMMY, A, B], NEXT1, NONE1), [Send(1, 2, 1, 0, 0, [A, B]), Send(1, 3, 1, 0, 0, [A, B])])
  {
    Appends(Leading(1, 1, [DUMMY, A], NEXT1, NONE1), [2], B, [DUMMY, A, B], 2, 3);
    assert [DUMMY, A, B][1..3] == [A, B];
  }

  lemma TwoStands()
    ensures HandleElectionTimeout(Following(2, 1, 1, [DUMMY, A], 1)) ==
              (Standing(2, 2, [DUMMY, A], 1), [Ask(2, 1, 2, 1, 1), Ask(2, 3, 2, 1, 1)])
  {
    Broadcasts(Standing(2, 2, [DUMMY, A], 1));
  }

  lemma TwoWins()
    ensures HandleMessage(Standing(2, 2, [DUMMY, A], 1), VoteReply(3, 2, 2, true)) == (Leading(2, 2, [DUMMY, A], NEXT2, NONE2), [])
  {
    Wins(Standing(2, 2, [DUMMY, A], 1), 3, 1, 3, 2);
  }

  lemma TwoProposes()
    ensures HandlePropose(Leading(2, 2, [DUMMY, A], NEXT2, NONE2), [3]) ==
              (Leading(2, 2, [DUMMY, A, C], NEXT2, NONE2), [Send(2, 1, 2, 1, 1, [C]), Send(2, 3, 2, 1, 1, [C])])
  {
    Appends(Leading(2, 2, [DUMMY, A], NEXT2, NONE2), [3], C, [DUMMY, A, C], 1, 3);
    assert [DUMMY, A, C][2..3] == [C];
  }

  // ---- The run ----

  lemma NodeOneStands() returns (t: Trace)
    ensures Shows(t, Standing(1, 1, [DUMMY], 0), Init(2, 3), Init(3, 3), [Ask(1, 2, 1, 0, 0), Ask(1, 3, 1, 0, 0)], {})
  {
    assert Shows(Begin, Init(1, 3), Init(2, 3), Init(3, 3), [], {});
    OneStands();
    var asked := [Ask(1, 2, 1, 0, 0), Ask(1, 3, 1, 0, 0)];
    t := TimeoutAt(Begin, Init(1, 3), Init(2, 3), Init(3, 3), [], {}, 1, Standing(1, 1, [DUMMY], 0), asked);
    assert [] + asked == asked;
  }

  lemma NodeTwoVotes(t: Trace, sent: seq<Message>) returns (t': Trace)
    requires |sent| == 2 && sent[0] == Ask(1, 2, 1, 0, 0)
    requires Shows(t, Standing(1, 1, [DUMMY], 0), Init(2, 3), Init(3, 3), sent, {})
    ensures Shows(t', Standing(1, 1, [DUMMY], 0), Following(2, 1, 1, [DUMMY], 0), Init(3, 3), sent + [VoteReply(2, 1, 1, true)], {0})
  {
    Grants(Init(2, 3), Ask(1, 2, 1, 0, 0));
    t' := DeliverTo(t, Standing(1, 1, [DUMMY], 0), Init(2, 3), Init(3, 3), sent, {}, 0, Following(2, 1, 1, [DUMMY], 0), [VoteReply(2, 1, 1, true)]);
  }

  lemma NodeOneWins(t: Trace, sent: seq<Message>) returns (t': Trace)
    requires |sent| == 3 && sent[2] == VoteReply(2, 1, 1, true)
    requires Shows(t, Standing(1, 1, [DUMMY], 0), Following(2, 1, 1, [DUMMY], 0), Init(3, 3), sent, {0})
    ensures Shows(t', Leading(1, 1, [DUMMY], NEXT1, NONE1), Following(2, 1, 1, [DUMMY], 0), Init(3, 3), sent, {0, 2})
  {
    OneWins();
    t' := DeliverTo(t, Standing(1, 1, [DUMMY], 0), Following(2, 1, 1, [DUMMY], 0), Init(3, 3), sent, {0}, 2, Leading(1, 1, [DUMMY], NEXT1, NONE1), []);
    assert sent + [] == sent;
  }

  lemma NodeOneProposes(t: Trace, sent: seq<Message>) returns (t': Trace)
    requires Shows(t, Leading(1, 1, [DUMMY], NEXT1, NONE1), Following(2, 1, 1, [DUMMY], 0), Init(3, 3), sent, {0, 2})
    ensures Shows(t', Leading(1, 1, [DUMMY, A], NEXT1, NONE1), Following(2, 1, 1, [DUMMY], 0), Init(3, 3),
                  sent + [Send(1, 2, 1, 0, 0, [A]), Send(1, 3, 1, 0, 0, [A])], {0, 2})
  {
    OneProposes();
    t' := ProposeAt(t, Leading(1, 1, [DUMMY], NEXT1, NONE1), Following(2, 1, 1, [DUMMY], 0), Init(3, 3), sent, {0, 2}, 1, [1],
                    Leading(1, 1, [DUMMY, A], NEXT1, NONE1), [Send(1, 2, 1, 0, 0, [A]), Send(1, 3, 1, 0, 0, [A])]);
  }

  lemma NodeOneProposesAgain(t: Trace, sent: seq<Message>) returns (t': Trace)
    requires Shows(t, Leading(1, 1, [DUMMY, A], NEXT1, NONE1), Following(2, 1, 1, [DUMMY], 0), Init(3, 3), sent, {0, 2})
    ensures Shows(t', Leading(1, 1, [DUMMY, A, B], NEXT1, NONE1), Following(2, 1, 1, [DUMMY], 0), Init(3, 3),
                  sent + [Send(1, 2, 1, 0, 0, [A, B]), Send(1, 3, 1, 0, 0, [A, B])], {0, 2})
  {
    OneProposesAgain();
    t' := ProposeAt(t, Leading(1, 1, [DUMMY, A], NEXT1, NONE1), Following(2, 1, 1, [DUMMY], 0), Init(3, 3), sent, {0, 2}, 1, [2],
                    Leading(1, 1, [DUMMY, A, B], NEXT1, NONE1), [Send(1, 2, 1, 0, 0, [A, B]), Send(1, 3, 1, 0, 0, [A, B])]);
  }

  lemma ThreeReceives()
    ensures HandleMessage(Init(3, 3), Send(1, 3, 1, 0, 0, [A])) == (Following(3, 1, 0, [DUMMY, A], 1), [AppendReply(3, 1, 1, true, 1)])
  {
    assert Overwritten([DUMMY], 0, [A]) == [DUMMY, A];
  }

  lemma BothReceive(t: Trace, sent: seq<Message>) returns (t': Trace, sent': seq<Message>)
    requires |sent| == 7 && sent[4] == Send(1, 3, 1, 0, 0, [A]) && sent[5] == Send(1, 2, 1, 0, 0, [A, B])
    requires Shows(t, Leading(1, 1, [DUMMY, A, B], NEXT1, NONE1), Following(2, 1, 1, [DUMMY], 0), Init(3, 3), sent, {0, 2})
    ensures |sent'| == 9 && sent'[..7] == sent && sent'[8] == AppendReply(2, 1, 1, true, 2)
    ensures Shows(t', Leading(1, 1, [DUMMY, A, B], NEXT1, NONE1), Following(2, 1, 1, [DUMMY, A, B], 1),
                  Following(3, 1, 0, [DUMMY, A], 1), sent', {0, 2, 4, 5})
  {
    var n1, n2 := Leading(1, 1, [DUMMY, A, B], NEXT1, NONE1), Following(2, 1, 1, [DUMMY], 0);
    ThreeReceives();
    t' := DeliverTo(t, n1, n2, Init(3, 3), sent, {0, 2}, 4, Following(3, 1, 0, [DUMMY, A], 1), [AppendReply(3, 1, 1, true, 1)]);
    sent' := sent + [AppendReply(3, 1, 1, true, 1)];
    Receives(n2, sent'[5], [DUMMY, A, B]);
    t' := DeliverTo(t', n1, n2, Following(3, 1, 0, [DUMMY, A], 1), sent', {0, 2, 4}, 5, Following(2, 1, 1, [DUMMY, A, B], 1),
                    [AppendReply(2, 1, 1, true, 2)]);
    sent' := sent' + [AppendReply(2, 1, 1, true, 2)];
  }

  /** Node 1 has committed and delivered both entries. */
  predicate CommittedBoth(n1: Node) {
    n1.delivered == [ApplyMsg(1, [1]), ApplyMsg(2, [2])] && n1.commit == 2 && n1.log == [DUMMY, A, B] && n1.term == 1
  }

  lemma NodeOneCommits(t: Trace, sent: seq<Message>) returns (t': Trace, n1: Node)
    requires |sent| == 9 && sent[8] == AppendReply(2, 1, 1, true, 2)
    requires Shows(t, Leading(1, 1, [DUMMY, A, B], NEXT1, NONE1), Following(2, 1, 1, [DUMMY, A, B], 1),
                   Following(3, 1, 0, [DUMMY, A], 1), sent, {0, 2, 4, 5})
    ensures CommittedBoth(n1)
    ensures Shows(t', n1, Following(2, 1, 1, [DUMMY, A, B], 1), Following(3, 1, 0, [DUMMY, A], 1), sent, {0, 2, 4, 5, 8})
  {
    var s := Leading(1, 1, [DUMMY, A, B], NEXT1, NONE1);
    Commits(s, sent[8], A, B, 3);
    n1 := HandleMessage(s, sent[8]).0;
    t' := DeliverTo(t, s, Following(2, 1, 1, [DUMMY, A, B], 1), Following(3, 1, 0, [DUMMY, A], 1), sent, {0, 2, 4, 5}, 8, n1, []);
    assert sent + [] == sent;
  }

  /** The older AppendEntries arrives at last: the entry node 2 has acknowledged is gone. */
  lemma NodeTwoIsCut(t: Trace, sent: seq<Message>, taken: set<nat>, n1: Node) returns (t': Trace)
    requires |sent| == 9 && sent[3] == Send(1, 2, 1, 0, 0, [A]) && 3 !in taken
    requires Shows(t, n1, Following(2, 1, 1, [DUMMY, A, B], 1), Following(3, 1, 0, [DUMMY, A], 1), sent, taken)
    ensures Shows(t', n1, Following(2, 1, 1, [DUMMY, A], 1), Following(3, 1, 0, [DUMMY, A], 1),
                  sent + [AppendReply(2, 1, 1, true, 1)], taken + {3})
  {
    assert Overwritten([DUMMY, A, B], 0, [A]) == [DUMMY, A];
    Receives(Following(2, 1, 1, [DUMMY, A, B], 1), sent[3], [DUMMY, A]);
    t' := DeliverTo(t, n1, Following(2, 1, 1, [DUMMY, A, B], 1), Following(3, 1, 0, [DUMMY, A], 1), sent, taken, 3,
                    Following(2, 1, 1, [DUMMY, A], 1), [AppendReply(2, 1, 1, true, 1)]);
  }

  lemma NodeTwoStands(t: Trace, sent: seq<Message>, taken: set<nat>, n1: Node) returns (t': Trace)
    requires Shows(t, n1, Following(2, 1, 1, [DUMMY, A], 1), Following(3, 1, 0, [DUMMY, A], 1), sent, taken)
    ensures Shows(t', n1, Standing(2, 2, [DUMMY, A], 1), Following(3, 1, 0, [DUMMY, A], 1),
                  sent + [Ask(2, 1, 2, 1, 1), Ask(2, 3, 2, 1, 1)], taken)
  {
    TwoStands();
    t' := TimeoutAt(t, n1, Following(2, 1, 1, [DUMMY, A], 1), Following(3, 1, 0, [DUMMY, A], 1), sent, taken, 2,
                    Standing(2, 2, [DUMMY, A], 1), [Ask(2, 1, 2, 1, 1), Ask(2, 3, 2, 1, 1)]);
  }

  lemma NodeThreeVotes(t: Trace, sent: seq<Message>, taken: set<nat>, n1: Node) returns (t': Trace)
    requires |sent| == 12 && sent[11] == Ask(2, 3, 2, 1, 1) && 11 !in taken
    requires Shows(t, n1, Standing(2, 2, [DUMMY, A], 1), Following(3, 1, 0, [DUMMY, A], 1), sent, taken)
    ensures Shows(t', n1, Standing(2, 2, [DUMMY, A], 1), Following(3, 2, 2, [DUMMY, A], 0),
                  sent + [VoteReply(3, 2, 2, true)], taken + {11})
  {
    Grants(Following(3, 1, 0, [DUMMY, A], 1), sent[11]);
    t' := DeliverTo(t, n1, Standing(2, 2, [DUMMY, A], 1), Following(3, 1, 0, [DUMMY, A], 1), sent, taken, 11,
                    Following(3, 2, 2, [DUMMY, A], 0), [VoteReply(3, 2, 2, true)]);
  }

  lemma NodeTwoWins(t: Trace, sent: seq<Message>, taken: set<nat>, n1: Node) returns (t': Trace)
    requires |sent| == 13 && sent[12] == VoteReply(3, 2, 2, true) && 12 !in taken
    requires Shows(t, n1, Standing(2, 2, [DUMMY, A], 1), Following(3, 2, 2, [DUMMY, A], 0), sent, taken)
    ensures Shows(t', n1, Leading(2, 2, [DUMMY, A], NEXT2, NONE2), Following(3, 2, 2, [DUMMY, A], 0), sent, taken + {12})
  {
    TwoWins();
    t' := DeliverTo(t, n1, Standing(2, 2, [DUMMY, A], 1), Following(3, 2, 2, [DUMMY, A], 0), sent, taken, 12,
                    Leading(2, 2, [DUMMY, A], NEXT2, NONE2), []);
    assert sent + [] == sent;
  }

  lemma NodeTwoProposes(t: Trace, sent: seq<Message>, taken: set<nat>, n1: Node) returns (t': Trace)
    requires Shows(t, n1, Leading(2, 2, [DUMMY, A], NEXT2, NONE2), Following(3, 2, 2, [DUMMY, A], 0), sent, taken)
    ensures Shows(t', n1, Leading(2, 2, [DUMMY, A, C], NEXT2, NONE2), Following(3, 2, 2, [DUMMY, A], 0),
                  sent + [Send(2, 1, 2, 1, 1, [C]), Send(2, 3, 2, 1, 1, [C])], taken)
  {
    TwoProposes();
    t' := ProposeAt(t, n1, Leading(2, 2, [DUMMY, A], NEXT2, NONE2), Following(3, 2, 2, [DUMMY, A], 0), sent, taken, 2, [3],
                    Leading(2, 2, [DUMMY, A, C], NEXT2, NONE2), [Send(2, 1, 2, 1, 1, [C]), Send(2, 3, 2, 1, 1, [C])]);
  }

  lemma NodeThreeReceives(t: Trace, sent: seq<Message>, taken: set<nat>, n1: Node) returns (t': Trace)
    requires |sent| == 15 && sent[14] == Send(2, 3, 2, 1, 1, [C]) && 14 !in taken
    requires Shows(t, n1, Leading(2, 2, [DUMMY, A, C], NEXT2, NONE2), Following(3, 2, 2, [DUMMY, A], 0), sent, taken)
    ensures Shows(t', n1, Leading(2, 2, [DUMMY, A, C], NEXT2, NONE2), Following(3, 2, 2, [DUMMY, A, C], 2),
                  sent + [AppendReply(3, 2, 2, true, 2)], taken + {14})
  {
    assert Overwritten([DUMMY, A], 1, [C]) == [DUMMY, A, C];
    Receives(Following(3, 2, 2, [DUMMY, A], 0), sent[14], [DUMMY, A, C]);
    t' := DeliverTo(t, n1, Leading(2, 2, [DUMMY, A, C], NEXT2, NONE2), Following(3, 2, 2, [DUMMY, A], 0), sent, taken, 14,
                    Following(3, 2, 2, [DUMMY, A, C], 2), [AppendReply(3, 2, 2, true, 2)]);
  }

  lemma NodeTwoCommits(t: Trace, sent: seq<Message>, taken: set<nat>, n1: Node) returns (t': Trace, n2: Node)
    requires |sent| == 16 && sent[15] == AppendReply(3, 2, 2, true, 2) && 15 !in taken
    requires Shows(t, n1, Leading(2, 2, [DUMMY, A, C], NEXT2, NONE2), Following(3, 2, 2, [DUMMY, A, C], 2), sent, taken)
    ensures n2.delivered == [ApplyMsg(1, [1]), ApplyMsg(2, [3])]
    ensures Shows(t', n1, n2, Following(3, 2, 2, [DUMMY, A, C], 2), sent, taken + {15})
  {
    var s := Leading(2, 2, [DUMMY, A, C], NEXT2, NONE2);
    Commits(s, sent[15], A, C, 1);
    n2 := HandleMessage(s, sent[15]).0;
    t' := DeliverTo(t, n1, s, Following(3, 2, 2, [DUMMY, A, C], 2), sent, taken, 15, n2, []);
    assert sent + [] == sent;
  }

  lemma FirstReign() returns (t: Trace, sent: seq<Message>, n1: Node)
    ensures |sent| == 9 && sent[3] == Send(1, 2, 1, 0, 0, [A]) && CommittedBoth(n1)
    ensures Shows(t, n1, Following(2, 1, 1, [DUMMY, A, B], 1), Following(3, 1, 0, [DUMMY, A], 1), sent, {0, 2, 4, 5, 8})
  {
    t := NodeOneStands();
    sent := [Ask(1, 2, 1, 0, 0), Ask(1, 3, 1, 0, 0)];
    t := NodeTwoVotes(t, sent);
    sent := sent + [VoteReply(2, 1, 1, true)];
    t := NodeOneWins(t, sent);
    t := NodeOneProposes(t, sent);
    sent := sent + [Send(1, 2, 1, 0, 0, [A]), Send(1, 3, 1, 0, 0, [A])];
    t := NodeOneProposesAgain(t, sent);
    sent := sent + [Send(1, 2, 1, 0, 0, [A, B]), Send(1, 3, 1, 0, 0, [A, B])];
    t, sent := BothReceive(t, sent);
    assert sent[3] == sent[..7][3];
    t, n1 := NodeOneCommits(t, sent);
  }

  lemma FirstReignOver() returns (t: Trace, sent: seq<Message>, taken: set<nat>, n1: Node)
    ensures |sent| == 9 && sent[3] == Send(1, 2, 1, 0, 0, [A]) && CommittedBoth(n1)
    ensures 3 !in taken && forall k | k in taken :: k < 9
    ensures Shows(t, n1, Following(2, 1, 1, [DUMMY, A, B], 1), Following(3, 1, 0, [DUMMY, A], 1), sent, taken)
  {
    t, sent, n1 := FirstReign();
    taken := {0, 2, 4, 5, 8};
  }

  lemma Cut() returns (t: Trace, sent: seq<Message>, taken: set<nat>, n1: Node)
    ensures |sent| == 10 && (forall k | k in taken :: k < 9) && CommittedBoth(n1)
    ensures Shows(t, n1, Following(2, 1, 1, [DUMMY, A], 1), Following(3, 1, 0, [DUMMY, A], 1), sent, taken)
  {
    t, sent, taken, n1 := FirstReignOver();
    t := NodeTwoIsCut(t, sent, taken, n1);
    sent := sent + [AppendReply(2, 1, 1, true, 1)];
    taken := taken + {3};
  }

  lemma CutAndStand() returns (t: Trace, sent: seq<Message>, taken: set<nat>, n1: Node)
    ensures |sent| == 12 && sent[11] == Ask(2, 3, 2, 1, 1) && (forall k | k in taken :: k < 9) && CommittedBoth(n1)
    ensures Shows(t, n1, Standing(2, 2, [DUMMY, A], 1), Following(3, 1, 0, [DUMMY, A], 1), sent, taken)
  {
    t, sent, taken, n1 := Cut();
    t := NodeTwoStands(t, sent, taken, n1);
    sent := sent + [Ask(2, 1, 2, 1, 1), Ask(2, 3, 2, 1, 1)];
  }

  lemma SecondElection() returns (t: Trace, sent: seq<Message>, taken: set<nat>, n1: Node)
    ensures |sent| == 13 && 14 !in taken && 15 !in taken && CommittedBoth(n1)
    ensures Shows(t, n1, Leading(2, 2, [DUMMY, A], NEXT2, NONE2), Following(3, 2, 2, [DUMMY, A], 0), sent, taken)
  {
    t, sent, taken, n1 := CutAndStand();
    t := NodeThreeVotes(t, sent, taken, n1);
    sent := sent + [VoteReply(3, 2, 2, true)];
    taken := taken + {11};
    t := NodeTwoWins(t, sent, taken, n1);
    taken := taken + {12};
  }

  /** Leader Completeness fails: node 2 leads term 2 without the entry node 1 has committed in term 1. */
  lemma LeaderCompletenessFails() returns (events: seq<Event>, states: seq<Cluster>)
    ensures IsRun(3, events, states)
    ensures
      var c := Last(states);
      && 1 in c.nodes && 2 in c.nodes && c.nodes[2].role == Leader && c.nodes[2].term > c.nodes[1].term
      && !Agree(c.nodes[2].log, c.nodes[1].log, c.nodes[1].commit)
  {
    var t, sent, taken, n1 := SecondElection();
    events, states := TraceIsRun(t);
  }

  lemma SecondReign() returns (t: Trace, n1: Node, n2: Node, n3: Node, sent: seq<Message>, taken: set<nat>)
    ensures Shows(t, n1, n2, n3, sent, taken) && CommittedBoth(n1)
    ensures n2.delivered == [ApplyMsg(1, [1]), ApplyMsg(2, [3])]
  {
    t, sent, taken, n1 := SecondElection();
    t := NodeTwoProposes(t, sent, taken, n1);
    sent := sent + [Send(2, 1, 2, 1, 1, [C]), Send(2, 3, 2, 1, 1, [C])];
    t := NodeThreeReceives(t, sent, taken, n1);
    sent := sent + [AppendReply(3, 2, 2, true, 2)];
    taken := taken + {14};
    t, n2 := NodeTwoCommits(t, sent, taken, n1);
    n3 := Following(3, 2, 2, [DUMMY, A, C], 2);
    taken := taken + {15};
  }

  /** State Machine Safety fails: nodes 1 and 2 deliver different commands at index 2. */
  lemma StateMachineSafetyFails() returns (events: seq<Event>, states: seq<Cluster>)
    ensures IsRun(3, events, states)
    ensures
      var c := Last(states);
      && 1 in c.nodes && 2 in c.nodes && |c.nodes[1].delivered| == 2 == |c.nodes[2].delivered|
      && c.nodes[1].delivered[1].index == 2 == c.nodes[2].delivered[1].index
      && c.nodes[1].delivered[1].command != c.nodes[2].delivered[1].command
  {
    var t, n1, n2, n3, sent, taken := SecondReign();
    events, states := TraceIsRun(t);
  }
}
