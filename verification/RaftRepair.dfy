/**
 * How a leader brings the log of a follower in line with its own: each refusal moves it one entry back,
 * until the two logs meet, and what it sends from there on replaces what the follower had.
 */
module RaftRepair {
  import opened RaftLog
  import opened RaftNode
  import opened RaftProtocol
  import opened RaftCluster
  import opened RaftInvariants
  import opened RaftSteps
  import opened RaftRuns
  import opened RaftSafety
  import opened RaftSending
  import opened RaftDelivering

  // ---- What a leader makes of an answer ----

  lemma Delivered(c: Cluster, a: nat)
    requires Enabled(c, Deliver(a))
    ensures
      var m, c' := c.sent[a], After(c, Deliver(a));
      var (s', out) := HandleMessage(c.nodes[m.dst], m);
      c'.nodes == c.nodes[m.dst := s'] && c'.sent == c.sent + out && c'.taken == c.taken + {a}
  {
  }

  /** A reply of the leader's own term has arrived. */
  predicate Answered(c: Cluster, e: Event) {
    && e.Deliver? && Enabled(c, e) && c.sent[e.k].AppendReply?
    && c.nodes[c.sent[e.k].dst].role == Leader && c.nodes[c.sent[e.k].dst].term == c.sent[e.k].term
  }

  lemma PeerIsKnown(c: Cluster, a: nat)
    requires ClusterOk(c) && Answered(c, Deliver(a))
    ensures
      var s, q := c.nodes[c.sent[a].dst], c.sent[a].src;
      q in s.nextIndex && q in s.matchIndex && 1 <= s.nextIndex[q] <= |s.log|
  {
    var i := c.sent[a].dst;
    PeerReplies(c, a);
    NodeReady(c, i);
    assert NodeOk(c.proto, i, c.nodes[i], Tally(c, i));
  }

  lemma RefusalIs(s: Node, m: Message)
    requires m.AppendReply? && !m.success && s.role == Leader && m.term == s.term
    requires m.src in s.nextIndex && 1 <= s.nextIndex[m.src]
    ensures
      var (s', out) := HandleAppendReply(s, m);
      var next := s.nextIndex[m.src];
      && s' == s.(nextIndex := s.nextIndex[m.src := if next > 1 then next - 1 else 1])
      && |out| == 1 && out[0].AppendEntries? && out[0].dst == m.src
  {
    assert s.nextIndex[m.src := s.nextIndex[m.src]] == s.nextIndex;
  }

  /**
   * In every run, a refusal of the leader's term takes `nextIndex` for that peer one back, but never below
   * 1, changes nothing else, and is followed by one new request to that peer.
   */
  lemma RefusalStepsBack(n: nat, events: seq<Event>, states: seq<Cluster>, k: nat)
    requires IsRun(n, events, states) && k < |events| && Answered(states[k], events[k])
    requires !states[k].sent[events[k].k].success
    ensures
      var m := states[k].sent[events[k].k];
      var s, q := states[k].nodes[m.dst], m.src;
      && q in s.nextIndex && 1 <= s.nextIndex[q]
      && var next := if s.nextIndex[q] > 1 then s.nextIndex[q] - 1 else 1;
         && states[k + 1].nodes == states[k].nodes[m.dst := s.(nextIndex := s.nextIndex[q := next])]
         && |states[k + 1].sent| == |states[k].sent| + 1
         && var retry := states[k + 1].sent[|states[k].sent|];
            retry.AppendEntries? && retry.src == m.dst && retry.dst == q && retry.prevIndex == next - 1
  {
    Stepped(n, events, states, k);
    RefusalDelivered(states[k], events[k].k);
    assert StepsBack(states[k], events[k].k, states[k + 1]);
  }

  /** One entry back, and a new request. */
  predicate StepsBack(c: Cluster, a: nat, c': Cluster)
    requires a < |c.sent|
  {
    var m := c.sent[a];
    m.dst in c.nodes &&
    var s, q := c.nodes[m.dst], m.src;
    && q in s.nextIndex && 1 <= s.nextIndex[q]
    && var next := if s.nextIndex[q] > 1 then s.nextIndex[q] - 1 else 1;
       var s' := s.(nextIndex := s.nextIndex[q := next]);
       && c'.nodes == c.nodes[m.dst := s']
       && |c'.sent| == |c.sent| + 1 && c'.taken == c.taken + {a}
       && var retry := c'.sent[|c.sent|];
          ReadOff(retry, s', s.commit) && retry.src == m.dst && retry.dst == q
  }

  lemma RefusalDelivered(c: Cluster, a: nat)
    requires ClusterOk(c) && Answered(c, Deliver(a)) && !c.sent[a].success
    ensures StepsBack(c, a, After(c, Deliver(a)))
  {
    PeerIsKnown(c, a);
    Delivered(c, a);
    var m := c.sent[a];
    NodeReady(c, m.dst);
    RefusalIs(c.nodes[m.dst], m);
    RefusalSends(c.nodes[m.dst], m, c.proto.n);
  }

  lemma AckIs(s: Node, m: Message)
    requires m.AppendReply? && m.success && s.role == Leader && m.term == s.term && m.src in s.matchIndex
    ensures
      var (s', out) := HandleAppendReply(s, m);
      out == [] && MovesOn(s, m, s')
  {
    AdvanceKeepsSending(Matched(s, m.src, m.lastIndex));
    assert s.matchIndex[m.src := s.matchIndex[m.src]] == s.matchIndex;
  }

  lemma AckDelivered(c: Cluster, a: nat)
    requires ClusterOk(c) && Answered(c, Deliver(a)) && c.sent[a].success
    ensures
      var m, c' := c.sent[a], After(c, Deliver(a));
      m.dst in c'.nodes && m.src in c.nodes[m.dst].matchIndex && c'.sent == c.sent && MovesOn(c.nodes[m.dst], m, c'.nodes[m.dst])
  {
    PeerIsKnown(c, a);
    Delivered(c, a);
    AckIs(c.nodes[c.sent[a].dst], c.sent[a]);
  }

  predicate MovesOn(s: Node, m: Message, s': Node)
    requires m.AppendReply? && m.src in s.matchIndex
  {
    var had := s.matchIndex[m.src];
    && s'.log == s.log && s'.role == Leader && s'.term == s.term
    && s'.matchIndex == s.matchIndex[m.src := Max(had, m.lastIndex)]
    && s'.nextIndex == if m.lastIndex > had then s.nextIndex[m.src := m.lastIndex + 1] else s.nextIndex
  }

  /** In every run, an acceptance raises what the leader knows of that peer to the last entry sent, and never lowers it. */
  lemma AckMovesOn(n: nat, events: seq<Event>, states: seq<Cluster>, k: nat)
    requires IsRun(n, events, states) && k < |events| && Answered(states[k], events[k])
    requires states[k].sent[events[k].k].success
    ensures
      var m := states[k].sent[events[k].k];
      && m.dst in states[k + 1].nodes && m.src in states[k].nodes[m.dst].matchIndex
      && MovesOn(states[k].nodes[m.dst], m, states[k + 1].nodes[m.dst]) && states[k + 1].sent == states[k].sent
  {
    Stepped(n, events, states, k);
    AckDelivered(states[k], events[k].k);
  }

  // ---- What a follower makes of a request ----

  lemma AnswerIs(s: Node, m: Message)
    requires m.AppendEntries? && m.term >= s.term
    ensures
      var (s', r) := HandleAppendEntries(s, m);
      && r.AppendReply? && r.src == s.id && r.dst == m.src && r.term == s'.term == m.term
      && (r.success <==> Consistent(s.log, m.prevIndex, m.prevTerm))
      && s'.log == (if r.success then Overwritten(s.log, m.prevIndex, m.entries) else s.log)
      && (r.success ==> r.lastIndex == m.prevIndex + |m.entries|)
  {
  }

  /** The follower accepts exactly if the term is no earlier than its own and it has the entry before, as the leader has it. */
  predicate AnswersByRule(s: Node, m: Message, s': Node, out: seq<Message>)
    requires m.AppendEntries?
  {
    var heard := m.term >= s.term;
    var ok := heard && (m.prevIndex == 0 || (m.prevIndex < |s.log| && s.log[m.prevIndex].term == m.prevTerm));
    && out == [AppendReply(s.id, m.src, Max(s.term, m.term), ok, if ok then m.prevIndex + |m.entries| else 0)]
    && s'.term == Max(s.term, m.term) && (heard ==> s'.role == Follower && s'.leader == m.leaderId) && (!heard ==> s' == s)
    && s'.votedFor == (if m.term > s.term then 0 else s.votedFor)
    && (!ok ==> s'.log == s.log && s'.commit == s.commit && s'.delivered == s.delivered)
  }

  lemma AnswerIsByRule(s: Node, m: Message)
    requires m.AppendEntries?
    ensures AnswersByRule(s, m, HandleAppendEntries(s, m).0, [HandleAppendEntries(s, m).1])
  {
  }

  /** In every run, every AppendEntries is answered by this rule. */
  lemma AnswerRule(n: nat, events: seq<Event>, states: seq<Cluster>, k: nat)
    requires IsRun(n, events, states) && k < |events| && events[k].Deliver? && Enabled(states[k], events[k])
    requires states[k].sent[events[k].k].AppendEntries?
    ensures
      var m := states[k].sent[events[k].k];
      && m.dst in states[k + 1].nodes && states[k].sent <= states[k + 1].sent && states[k].nodes[m.dst].id == m.dst
      && AnswersByRule(states[k].nodes[m.dst], m, states[k + 1].nodes[m.dst], states[k + 1].sent[|states[k].sent|..])
  {
    Stepped(n, events, states, k);
    AnswerDelivered(states[k], events[k].k);
  }

  lemma AnswerDelivered(c: Cluster, a: nat)
    requires ClusterOk(c) && Enabled(c, Deliver(a)) && c.sent[a].AppendEntries?
    ensures
      var i, c' := c.sent[a].dst, After(c, Deliver(a));
      && i in c'.nodes && c.sent <= c'.sent && c.nodes[i].id == i
      && AnswersByRule(c.nodes[i], c.sent[a], c'.nodes[i], c'.sent[|c.sent|..])
  {
    var i := c.sent[a].dst;
    NodeReady(c, i);
    Delivered(c, a);
    AnswerIsByRule(c.nodes[i], c.sent[a]);
  }

  lemma PrefixIsShared(log: seq<Entry>, lead: seq<Entry>, prev: nat, entries: seq<Entry>)
    requires IsStretch(lead, prev, entries) && prev < |log| && log[..prev + 1] == lead[..prev + 1]
    requires |entries| > 0 ==> Overwritten(log, prev, entries) == lead[..prev + 1 + |entries|]
    ensures Agree(Overwritten(log, prev, entries), lead, prev + |entries|)
  {
  }

  /** Once it has taken the request over, the log is the leader's up to the last entry sent. */
  predicate SharesUpToLast(log: seq<Entry>, m: Message, reigns: map<nat, Reign>)
    requires m.AppendEntries?
  {
    m.term in reigns && Agree(Overwritten(log, m.prevIndex, m.entries), reigns[m.term].log, m.prevIndex + |m.entries|)
  }

  lemma AcceptableAgrees(p: Proto, v: nat, m: Message)
    requires NodesOk(p) && ReignsOk(p) && LogsMatch(p)
    requires m.AppendEntries? && CanAccept(p, v, m.prevIndex, m.entries) && p.nodes[v].term == m.term
    ensures SharesUpToLast(p.nodes[v].log, m, p.reigns)
  {
    OverwrittenIsPrefix(p, v, m.prevIndex, m.entries);
    PrefixIsShared(p.nodes[v].log, p.reigns[m.term].log, m.prevIndex, m.entries);
  }

  lemma HeardIs(p: Proto, v: nat, term: nat)
    requires v in p.nodes && term >= p.nodes[v].term
    ensures
      var p1 := Heard(p, v, term);
      p1.reigns == p.reigns && v in p1.nodes && p1.nodes[v].log == p.nodes[v].log && p1.nodes[v].term == term
  {
  }

  lemma HeardState(p: Proto, i: nat, s: Node, m: Message) returns (p1: Proto)
    requires Basic(p) && Mirrors(p, i, s) && m.AppendEntries? && MsgOk(p, m) && m.dst == i
    requires m.term >= s.term && Consistent(s.log, m.prevIndex, m.prevTerm)
    ensures NodesOk(p1) && ReignsOk(p1) && LogsMatch(p1) && CanAccept(p1, i, m.prevIndex, m.entries)
    ensures p1.reigns == p.reigns && p1.nodes[i].log == s.log && p1.nodes[i].term == m.term
  {
    HeardProto(p, i, s, m);
    HeardCanAccept(p, i, s, m);
    HeardIs(p, i, m.term);
    p1 := Heard(p, i, m.term);
  }

  lemma AcceptedAgrees(p: Proto, i: nat, s: Node, m: Message)
    requires Basic(p) && Mirrors(p, i, s) && m.AppendEntries? && MsgOk(p, m) && m.dst == i
    requires m.term >= s.term && Consistent(s.log, m.prevIndex, m.prevTerm)
    ensures SharesUpToLast(s.log, m, p.reigns)
  {
    var p1 := HeardState(p, i, s, m);
    AcceptableAgrees(p1, i, m);
  }

  /** The leader's current request to the follower is on its way. */
  predicate Awaits(c: Cluster, l: nat, f: nat, a: nat) {
    && l in c.nodes && f in c.nodes && l != f && c.nodes[f].term <= c.nodes[l].term
    && a < |c.sent| && a !in c.taken && c.sent[a].AppendEntries? && c.sent[a].src == l && c.sent[a].dst == f
    && ReadOff(c.sent[a], c.nodes[l], c.sent[a].leaderCommit)
  }

  /** What the follower answers to it: a refusal, or an acceptance when the two logs agree up to the last entry sent. */
  predicate AnswersTo(c: Cluster, l: nat, f: nat, a: nat, c': Cluster) {
    && Awaits(c, l, f, a) && c'.nodes.Keys == c.nodes.Keys && c'.nodes[l] == c.nodes[l]
    && |c'.sent| == |c.sent| + 1 && c'.taken == c.taken + {a} && c'.nodes[f].term == c.nodes[l].term
    && var m, r := c.sent[a], c'.sent[|c.sent|];
       && r.AppendReply? && r.src == f && r.dst == l && r.term == m.term
       && (!r.success ==> m.prevIndex > 0)
       && (r.success ==> r.lastIndex == m.prevIndex + |m.entries| && Agree(c'.nodes[f].log, c.nodes[l].log, r.lastIndex))
  }

  lemma LeaderHas(c: Cluster, l: nat)
    requires CoresOk(c) && ReignsOk(c.proto) && AllNodesOk(c) && l in c.nodes && c.nodes[l].role == Leader
    ensures c.nodes[l].term in c.proto.reigns && c.proto.reigns[c.nodes[l].term].log == c.nodes[l].log
  {
    assert NodeOk(c.proto, l, c.nodes[l], Tally(c, l));
    LeaderLogIsReign(c.proto, l, c.nodes[l]);
  }

  lemma AnsweredAs(c: Cluster, l: nat, f: nat, a: nat)
    requires Awaits(c, l, f, a) && c.nodes[f].id == f
    requires
      var m, s := c.sent[a], c.nodes[f];
      Consistent(s.log, m.prevIndex, m.prevTerm) ==>
        Agree(Overwritten(s.log, m.prevIndex, m.entries), c.nodes[l].log, m.prevIndex + |m.entries|)
    ensures Enabled(c, Deliver(a)) && AnswersTo(c, l, f, a, After(c, Deliver(a)))
  {
    Delivered(c, a);
    AnswerIs(c.nodes[f], c.sent[a]);
  }

  lemma RequestAgrees(c: Cluster, f: nat, a: nat)
    requires ClusterOk(c) && Enabled(c, Deliver(a)) && c.sent[a].AppendEntries? && c.sent[a].dst == f
    requires c.sent[a].term >= c.nodes[f].term && Consistent(c.nodes[f].log, c.sent[a].prevIndex, c.sent[a].prevTerm)
    ensures SharesUpToLast(c.nodes[f].log, c.sent[a], c.proto.reigns)
  {
    TargetMirrors(c, Deliver(a));
    AcceptedAgrees(c.proto, f, c.nodes[f], c.sent[a]);
  }

  lemma RequestAnswered(c: Cluster, l: nat, f: nat, a: nat)
    requires ClusterOk(c) && Awaits(c, l, f, a)
    ensures Enabled(c, Deliver(a)) && AnswersTo(c, l, f, a, After(c, Deliver(a)))
  {
    LeaderHas(c, l);
    NodeReady(c, f);
    if Consistent(c.nodes[f].log, c.sent[a].prevIndex, c.sent[a].prevTerm) {
      RequestAgrees(c, f, a);
    }
    AnsweredAs(c, l, f, a);
  }

  /** The refusal of such a request is on its way. */
  predicate Refused(c: Cluster, l: nat, f: nat, b: nat) {
    && l in c.nodes && f in c.nodes && l != f && c.nodes[f].term <= c.nodes[l].term && TakenOk(c)
    && c.nodes[l].role == Leader && f in c.nodes[l].nextIndex && c.nodes[l].nextIndex[f] > 1
    && b < |c.sent| && b !in c.taken && c.sent[b].AppendReply? && !c.sent[b].success
    && c.sent[b].src == f && c.sent[b].dst == l && c.sent[b].term == c.nodes[l].term
  }

  lemma RefusedBy(c: Cluster, l: nat, f: nat, a: nat, c': Cluster)
    requires TakenOk(c) && AnswersTo(c, l, f, a, c') && !c'.sent[|c.sent|].success
    ensures Refused(c', l, f, |c.sent|)
  {
  }

  /** The next request, an entry further back, is on its way. */
  predicate RetriesTo(c: Cluster, l: nat, f: nat, c': Cluster) {
    && Awaits(c', l, f, |c.sent|) && TakenOk(c') && l in c.nodes && f in c.nodes[l].nextIndex
    && c'.nodes[l].log == c.nodes[l].log && c'.nodes[l].nextIndex[f] + 1 == c.nodes[l].nextIndex[f]
  }

  lemma Retried(c: Cluster, l: nat, f: nat, b: nat, c': Cluster)
    requires Refused(c, l, f, b) && StepsBack(c, b, c')
    ensures RetriesTo(c, l, f, c')
  {
  }

  lemma RefusalAnswered(c: Cluster, l: nat, f: nat, b: nat)
    requires ClusterOk(c) && Refused(c, l, f, b)
    ensures Enabled(c, Deliver(b)) && StepsBack(c, b, After(c, Deliver(b)))
  {
    RefusedIsAnswer(c, l, f, b);
    RefusalDelivered(c, b);
  }

  lemma RefusedIsAnswer(c: Cluster, l: nat, f: nat, b: nat)
    requires Refused(c, l, f, b)
    ensures Answered(c, Deliver(b)) && !c.sent[b].success
  {
  }

  // ---- The exchange ----

  lemma PathGrows(c: Cluster, e: Event, events: seq<Event>, states: seq<Cluster>)
    requires IsPath(events, states) && Enabled(c, e) && states[0] == After(c, e)
    ensures IsPath([e] + events, [c] + states)
  {
    var es, cs := [e] + events, [c] + states;
    forall k | 0 <= k < |es| ensures Enabled(cs[k], es[k]) && cs[k + 1] == After(cs[k], es[k]) {
      if k > 0 {
        assert Enabled(states[k - 1], events[k - 1]) && states[k] == After(states[k - 1], events[k - 1]);
      }
    }
  }

  predicate Brings(c: Cluster, e: Event, src: nat, dst: nat) {
    e.Deliver? && e.k < |c.sent| && c.sent[e.k].src == src && c.sent[e.k].dst == dst
  }

  /** Requests of the leader and refusals of the follower in turn, and one last request. */
  predicate Exchanges(events: seq<Event>, states: seq<Cluster>, l: nat, f: nat)
    requires |states| == |events| + 1
  {
    && |events| > 0 && Brings(states[0], events[0], l, f) && states[0].sent[events[0].k].AppendEntries?
    && (|events| == 1 ||
        (&& |events| > 2 && Brings(states[1], events[1], f, l)
         && states[1].sent[events[1].k].AppendReply? && !states[1].sent[events[1].k].success
         && Exchanges(events[2..], states[2..], l, f)))
  }

  /** The last request is accepted: the follower's log is now the leader's up to the last entry of that request. */
  predicate EndsInAgreement(events: seq<Event>, states: seq<Cluster>, l: nat, f: nat, log: seq<Entry>, next: nat) {
    && |states| == |events| + 1 && |events| > 0 && events[|events| - 1].Deliver?
    && var c, c', a := states[|events| - 1], states[|events|], events[|events| - 1].k;
       && AnswersTo(c, l, f, a, c') && c'.sent[|c.sent|].success
       && c'.nodes[l].log == log && c.sent[a].prevIndex + 1 == next
       && Agree(c'.nodes[f].log, log, c.sent[a].prevIndex + |c.sent[a].entries|)
  }

  lemma EndGrows(c: Cluster, c1: Cluster, e: Event, e1: Event, events: seq<Event>, states: seq<Cluster>, l: nat, f: nat,
                 log: seq<Entry>, next: nat)
    requires EndsInAgreement(events, states, l, f, log, next)
    ensures EndsInAgreement([e, e1] + events, [c, c1] + states, l, f, log, next)
  {
    var es, cs := [e, e1] + events, [c, c1] + states;
    assert cs[|es| - 1] == states[|events| - 1] && cs[|es|] == states[|events|] && es[|es| - 1] == events[|events| - 1];
  }

  lemma ExchangeGrows(c: Cluster, c1: Cluster, e: Event, e1: Event, events: seq<Event>, states: seq<Cluster>, l: nat, f: nat)
    requires |states| == |events| + 1 && Exchanges(events, states, l, f)
    requires Brings(c, e, l, f) && c.sent[e.k].AppendEntries?
    requires Brings(c1, e1, f, l) && c1.sent[e1.k].AppendReply? && !c1.sent[e1.k].success
    ensures Exchanges([e, e1] + events, [c, c1] + states, l, f)
  {
    assert ([e, e1] + events)[2..] == events && ([c, c1] + states)[2..] == states;
  }

  lemma PathGrowsByTwo(c: Cluster, c1: Cluster, e: Event, e1: Event, events: seq<Event>, states: seq<Cluster>)
    requires IsPath(events, states) && Enabled(c, e) && c1 == After(c, e) && Enabled(c1, e1) && states[0] == After(c1, e1)
    ensures IsPath([e, e1] + events, [c, c1] + states)
  {
    PathGrows(c1, e1, events, states);
    PathGrows(c, e, [e1] + events, [c1] + states);
    TwoInFront(e, e1, events);
    TwoInFront(c, c1, states);
  }

  lemma TwoInFront<T>(a: T, b: T, rest: seq<T>)
    ensures [a] + ([b] + rest) == [a, b] + rest
  {
  }

  /** One request and its refusal. */
  lemma RoundOfRefusal(c: Cluster, l: nat, f: nat, a: nat, c1: Cluster)
    requires ClusterOk(c) && Enabled(c, Deliver(a)) && c1 == After(c, Deliver(a))
    requires AnswersTo(c, l, f, a, c1) && !c1.sent[|c.sent|].success
    ensures Enabled(c1, Deliver(|c.sent|)) && ClusterOk(After(c1, Deliver(|c.sent|)))
    ensures Refused(c1, l, f, |c.sent|) && RetriesTo(c1, l, f, After(c1, Deliver(|c.sent|)))
  {
    RefusedBy(c, l, f, a, c1);
    EventKeeps(c, Deliver(a));
    RefusalAnswered(c1, l, f, |c.sent|);
    EventKeeps(c1, Deliver(|c.sent|));
    Retried(c1, l, f, |c.sent|, After(c1, Deliver(|c.sent|)));
  }

  predicate Repaired(c: Cluster, l: nat, f: nat, events: seq<Event>, states: seq<Cluster>) {
    && l in c.nodes && f in c.nodes[l].nextIndex
    && IsPath(events, states) && states[0] == c && Exchanges(events, states, l, f)
    && |events| / 2 < c.nodes[l].nextIndex[f]
    && EndsInAgreement(events, states, l, f, c.nodes[l].log, c.nodes[l].nextIndex[f] - |events| / 2)
  }

  lemma RepairedAtOnce(c: Cluster, l: nat, f: nat, a: nat, c1: Cluster)
    requires Enabled(c, Deliver(a)) && c1 == After(c, Deliver(a)) && AnswersTo(c, l, f, a, c1) && c1.sent[|c.sent|].success
    ensures Repaired(c, l, f, [Deliver(a)], [c, c1])
  {
  }

  lemma RepairedLater(c: Cluster, l: nat, f: nat, a: nat, c1: Cluster, c2: Cluster, events: seq<Event>, states: seq<Cluster>)
    requires Enabled(c, Deliver(a)) && c1 == After(c, Deliver(a)) && AnswersTo(c, l, f, a, c1)
    requires Enabled(c1, Deliver(|c.sent|)) && c2 == After(c1, Deliver(|c.sent|))
    requires Refused(c1, l, f, |c.sent|) && RetriesTo(c1, l, f, c2) && Repaired(c2, l, f, events, states)
    ensures Repaired(c, l, f, [Deliver(a), Deliver(|c.sent|)] + events, [c, c1] + states)
  {
    var b := |c.sent|;
    PathGrowsByTwo(c, c1, Deliver(a), Deliver(b), events, states);
    ExchangeGrows(c, c1, Deliver(a), Deliver(b), events, states, l, f);
    EndGrows(c, c1, Deliver(a), Deliver(b), events, states, l, f, c.nodes[l].log, c2.nodes[l].nextIndex[f] - |events| / 2);
    assert |[Deliver(a), Deliver(b)] + events| / 2 == |events| / 2 + 1;
  }

  lemma Round(c: Cluster, l: nat, f: nat, a: nat) returns (c1: Cluster, c2: Cluster)
    requires ClusterOk(c) && Awaits(c, l, f, a)
    ensures Enabled(c, Deliver(a)) && c1 == After(c, Deliver(a)) && AnswersTo(c, l, f, a, c1)
    ensures !c1.sent[|c.sent|].success ==>
              && ClusterOk(c2) && Enabled(c1, Deliver(|c.sent|)) && c2 == After(c1, Deliver(|c.sent|))
              && Refused(c1, l, f, |c.sent|) && RetriesTo(c1, l, f, c2)
  {
    RequestAnswered(c, l, f, a);
    c1, c2 := After(c, Deliver(a)), c;
    if !c1.sent[|c.sent|].success {
      RoundOfRefusal(c, l, f, a, c1);
      c2 := After(c1, Deliver(|c.sent|));
    }
  }

  /**
   * Log repair. From any state that the invariant allows and in which a leader's request to a node of no
   * later term is on its way, the two of them, answering each other, come to an acceptance after fewer
   * refusals than `nextIndex`, one entry further back for each; and the follower's log then agrees with
   * the leader's up to the last entry sent.
   */
  lemma {:induction false} LogRepair(c: Cluster, l: nat, f: nat, a: nat) returns (events: seq<Event>, states: seq<Cluster>)
    requires ClusterOk(c) && Awaits(c, l, f, a)
    ensures Repaired(c, l, f, events, states)
    decreases c.nodes[l].nextIndex[f]
  {
    var c1, c2 := Round(c, l, f, a);
    if c1.sent[|c.sent|].success {
      RepairedAtOnce(c, l, f, a, c1);
      events, states := [Deliver(a)], [c, c1];
    } else {
      events, states := LogRepair(c2, l, f, |c1.sent|);
      RepairedLater(c, l, f, a, c1, c2, events, states);
      events, states := [Deliver(a), Deliver(|c.sent|)] + events, [c, c1] + states;
    }
  }

  // ---- From any state of any run ----

  /** The follower's place in the round of requests. */
  lemma RequestTo(out: seq<Message>, n: nat, l: nat, f: nat) returns (j: nat)
    requires ToOthers(out, n, l) && 1 <= l <= n && 1 <= f <= n && l != f
    ensures j < |out| && out[j].dst == f
  {
    j := if f < l then f - 1 else f - 2;
  }

  lemma HeartbeatAwaits(c: Cluster, l: nat, f: nat) returns (a: nat)
    requires TakenOk(c) && l in c.nodes && f in c.nodes && l != f && c.nodes[l].role == Leader
    requires c.nodes[f].term <= c.nodes[l].term && Ready(c.nodes[l], c.proto.n) && c.nodes[l].id == l && 1 <= f <= c.proto.n
    ensures Enabled(c, HeartbeatTimeout(l)) && Awaits(After(c, HeartbeatTimeout(l)), l, f, a)
  {
    var j := HeartbeatTo(c.nodes[l], c.proto.n, f);
    HeartbeatLeaves(c, l, f, j);
    a := |c.sent| + j;
  }

  lemma BothReady(c: Cluster, l: nat, f: nat)
    requires ClusterOk(c) && l in c.nodes && f in c.nodes
    ensures Ready(c.nodes[l], c.proto.n) && c.nodes[l].id == l && 1 <= f <= c.proto.n
  {
    NodeReady(c, l);
    NodeReady(c, f);
  }

  lemma HeartbeatTo(s: Node, n: nat, f: nat) returns (j: nat)
    requires Ready(s, n) && s.role == Leader && 1 <= f <= n && f != s.id
    ensures
      var out := HandleHeartbeatTimeout(s);
      j < |out| && out[j].dst == f && ReadOff(out[j], s, s.commit)
  {
    HeartbeatSends(s, n);
    j := RequestTo(HandleHeartbeatTimeout(s), n, s.id, f);
  }

  lemma HeartbeatLeaves(c: Cluster, l: nat, f: nat, j: nat)
    requires TakenOk(c) && l in c.nodes && f in c.nodes && l != f && c.nodes[l].role == Leader && c.nodes[l].id == l
    requires c.nodes[f].term <= c.nodes[l].term
    requires
      var out := HandleHeartbeatTimeout(c.nodes[l]);
      j < |out| && out[j].dst == f && ReadOff(out[j], c.nodes[l], c.nodes[l].commit)
    ensures Enabled(c, HeartbeatTimeout(l)) && Awaits(After(c, HeartbeatTimeout(l)), l, f, |c.sent| + j)
  {
    var c' := After(c, HeartbeatTimeout(l));
    assert c'.sent[|c.sent| + j] == HandleHeartbeatTimeout(c.nodes[l])[j];
    assert c'.nodes[l] == c.nodes[l] && c'.nodes[f] == c.nodes[f];
  }

  lemma RepairAfter(c: Cluster, l: nat, f: nat, a: nat) returns (more: seq<Event>, rest: seq<Cluster>)
    requires ClusterOk(c) && Enabled(c, HeartbeatTimeout(l)) && Awaits(After(c, HeartbeatTimeout(l)), l, f, a)
    ensures IsPath(more, rest) && rest[0] == After(c, HeartbeatTimeout(l)) && Repaired(rest[0], l, f, more, rest)
  {
    var e := HeartbeatTimeout(l);
    EventKeeps(c, e);
    more, rest := LogRepair(After(c, e), l, f, a);
  }

  lemma RepairFrom(c: Cluster, l: nat, f: nat) returns (more: seq<Event>, rest: seq<Cluster>)
    requires ClusterOk(c) && l in c.nodes && f in c.nodes && l != f
    requires c.nodes[l].role == Leader && c.nodes[f].term <= c.nodes[l].term
    ensures IsPath([HeartbeatTimeout(l)] + more, [c] + rest) && |rest| > 0 && Repaired(rest[0], l, f, more, rest)
  {
    BothReady(c, l, f);
    var a := HeartbeatAwaits(c, l, f);
    more, rest := RepairAfter(c, l, f, a);
    PathGrows(c, HeartbeatTimeout(l), more, rest);
  }

  /** Every run in which there is a leader can go on, from its next heartbeat, so that any node of no later term is repaired. */
  lemma EveryRunCanRepair(n: nat, events: seq<Event>, states: seq<Cluster>, l: nat, f: nat)
    returns (more: seq<Event>, rest: seq<Cluster>)
    requires IsRun(n, events, states) && l in states[|events|].nodes && f in states[|events|].nodes && l != f
    requires states[|events|].nodes[l].role == Leader && states[|events|].nodes[f].term <= states[|events|].nodes[l].term
    ensures IsRun(n, events + ([HeartbeatTimeout(l)] + more), states + rest)
    ensures |rest| > 0 && Repaired(rest[0], l, f, more, rest)
  {
    RunOk(n, events, states, |events|);
    more, rest := RepairFrom(states[|events|], l, f);
    RunGoesOn(n, events, states, [HeartbeatTimeout(l)] + more, rest);
  }
}
