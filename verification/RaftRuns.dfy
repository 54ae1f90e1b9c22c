/** ClusterOk holds in every state of every run. */
module RaftRuns {
  import opened RaftLog
  import opened RaftNode
  import opened RaftProtocol
  import opened RaftCompleteness
  import opened RaftCluster
  import opened RaftInvariants
  import opened RaftSteps

  lemma IdleIsNothing(p: Proto, i: nat, s: Node, tally: set<nat>)
    requires Mirrors(p, i, s)
    ensures Record(p, i, s, s, [], tally) == p
  {
    assert p.nodes[i := CoreOf(s)] == p.nodes;
  }

  lemma ForwardRefl(p: Proto)
    ensures Forward(p, p)
  {
  }

  // ---- The protocol state ----

  lemma LocalEventProto(c: Cluster, e: Event)
    requires Basic(c.proto) && Enabled(c, e) && !e.Deliver? && Mirrors(c.proto, Target(c, e), c.nodes[Target(c, e)])
    ensures Basic(After(c, e).proto) && Forward(c.proto, After(c, e).proto)
  {
    var i := Target(c, e);
    var s := c.nodes[i];
    ForwardRefl(c.proto);
    IdleIsNothing(c.proto, i, s, Tally(c, i));
    match e
    case ElectionTimeout(_) => if s.role != Leader { TimeoutProto(c.proto, i, s); }
    case HeartbeatTimeout(_) => HeartbeatIsNothing(c.proto, i, s, Tally(c, i));
    case Propose(_, command) => if s.role == Leader { ProposeProto(c.proto, i, s, command, Tally(c, i)); }
  }

  lemma AppendEntriesRecorded(c: Cluster, k: nat)
    requires Enabled(c, Deliver(k)) && c.sent[k].AppendEntries?
    ensures var i := c.sent[k].dst;
            var (s', reply) := HandleAppendEntries(c.nodes[i], c.sent[k]);
            After(c, Deliver(k)).proto == Record(c.proto, i, c.nodes[i], s', [reply], Tally(c, i))
  {
  }

  lemma RequestVoteRecorded(c: Cluster, k: nat)
    requires Enabled(c, Deliver(k)) && c.sent[k].RequestVote?
    ensures var i := c.sent[k].dst;
            var (s', reply) := HandleRequestVote(c.nodes[i], c.sent[k]);
            After(c, Deliver(k)).proto == Record(c.proto, i, c.nodes[i], s', [reply], Tally(c, i))
  {
  }

  lemma AppendReplyRecorded(c: Cluster, k: nat)
    requires Enabled(c, Deliver(k)) && c.sent[k].AppendReply?
    ensures var i := c.sent[k].dst;
            var (s', out) := HandleAppendReply(c.nodes[i], c.sent[k]);
            After(c, Deliver(k)).proto == Record(c.proto, i, c.nodes[i], s', out, Tally(c, i))
  {
  }

  lemma VoteReplyRecorded(c: Cluster, k: nat)
    requires Enabled(c, Deliver(k)) && c.sent[k].VoteReply?
    ensures var m := c.sent[k];
            var i := m.dst;
            var tally := if Counts(c.nodes[i], m) then Tally(c, i) + {m.src} else Tally(c, i);
            After(c, Deliver(k)).proto == Record(c.proto, i, c.nodes[i], HandleVoteReply(c.nodes[i], m), [], tally)
  {
  }

  lemma DeliverRequestProto(c: Cluster, k: nat)
    requires Basic(c.proto) && Enabled(c, Deliver(k)) && MsgOk(c.proto, c.sent[k])
    requires c.sent[k].AppendEntries? || c.sent[k].RequestVote?
    requires Mirrors(c.proto, c.sent[k].dst, c.nodes[c.sent[k].dst])
    ensures Basic(After(c, Deliver(k)).proto) && Forward(c.proto, After(c, Deliver(k)).proto)
  {
    var m := c.sent[k];
    var i := m.dst;
    if m.AppendEntries? {
      AppendEntriesRecorded(c, k);
      AppendEntriesProto(c.proto, i, c.nodes[i], m, Tally(c, i));
    } else {
      RequestVoteRecorded(c, k);
      RequestVoteProto(c.proto, i, c.nodes[i], m, Tally(c, i));
    }
  }

  lemma DeliverReplyProto(c: Cluster, k: nat)
    requires Basic(c.proto) && Enabled(c, Deliver(k)) && MsgOk(c.proto, c.sent[k])
    requires c.sent[k].AppendReply? || c.sent[k].VoteReply?
    requires
      var i := c.sent[k].dst;
      && Mirrors(c.proto, i, c.nodes[i]) && CandidateOk(c.proto, c.nodes[i], Tally(c, i))
      && (Counts(c.nodes[i], c.sent[k]) ==> c.sent[k].src !in Tally(c, i))
    ensures Basic(After(c, Deliver(k)).proto) && Forward(c.proto, After(c, Deliver(k)).proto)
  {
    var m := c.sent[k];
    var i := m.dst;
    if m.AppendReply? {
      AppendReplyRecorded(c, k);
      AppendReplyProto(c.proto, i, c.nodes[i], m, Tally(c, i));
    } else {
      VoteReplyRecorded(c, k);
      VoteReplyProto(c.proto, i, c.nodes[i], m, Tally(c, i));
    }
  }

  lemma TargetMirrors(c: Cluster, e: Event)
    requires CoresOk(c) && Enabled(c, e) && AllNodesOk(c)
    ensures Mirrors(c.proto, Target(c, e), c.nodes[Target(c, e)])
    ensures NodeOk(c.proto, Target(c, e), c.nodes[Target(c, e)], Tally(c, Target(c, e)))
  {
  }

  lemma PendingIsNotCounted(c: Cluster, k: nat)
    requires TokensOk(c) && Enabled(c, Deliver(k)) && Counts(c.nodes[c.sent[k].dst], c.sent[k])
    ensures c.sent[k].src !in Tally(c, c.sent[k].dst)
  {
    var m := c.sent[k];
    assert Pending(c, k, Vote(m.src, m.term, m.dst));
  }

  lemma EventProto(c: Cluster, e: Event)
    requires ClusterOk(c) && Enabled(c, e)
    ensures Basic(After(c, e).proto) && Forward(c.proto, After(c, e).proto)
  {
    TargetMirrors(c, e);
    if e.Deliver? {
      if Counts(c.nodes[c.sent[e.k].dst], c.sent[e.k]) {
        PendingIsNotCounted(c, e.k);
      }
      if c.sent[e.k].AppendEntries? || c.sent[e.k].RequestVote? {
        DeliverRequestProto(c, e.k);
      } else {
        DeliverReplyProto(c, e.k);
      }
    } else {
      LocalEventProto(c, e);
    }
  }

  // ---- The node that handled the event, and what it sent ----

  predicate HandledOk(c: Cluster, e: Event)
    requires Enabled(c, e)
  {
    var i := Target(c, e);
    var c' := After(c, e);
    NodeOk(c'.proto, i, c'.nodes[i], Tally(c', i)) && AllOk(c'.proto, Outcome(c, e).1)
  }

  lemma LocalEventNode(c: Cluster, e: Event)
    requires IdsOk(c.proto) && NodesOk(c.proto) && ReignsOk(c.proto) && Enabled(c, e) && !e.Deliver?
    requires var i := Target(c, e); Mirrors(c.proto, i, c.nodes[i]) && NodeOk(c.proto, i, c.nodes[i], Tally(c, i))
    requires var p' := After(c, e).proto; NodesOk(p') && ReignsOk(p') && Forward(c.proto, p')
    ensures HandledOk(c, e)
  {
    var i := Target(c, e);
    var s := c.nodes[i];
    var p' := After(c, e).proto;
    NodeStays(c.proto, p', i, s, Tally(c, i));
    match e
    case ElectionTimeout(_) =>
      if s.role != Leader { TimeoutNode(c.proto, i, s, Tally(c, i)); }
    case HeartbeatTimeout(_) =>
      HeartbeatIsNothing(c.proto, i, s, Tally(c, i));
      HeartbeatMsgs(c.proto, i, s);
    case Propose(_, command) =>
      if s.role == Leader {
        ProposeNode(c.proto, p', i, s, command, Tally(c, i));
        ProposeMsgs(p', i, s, command);
      }
  }

  lemma AppendReplyHandled(c: Cluster, k: nat)
    requires Enabled(c, Deliver(k)) && c.sent[k].AppendReply? && MsgOk(c.proto, c.sent[k])
    requires IdsOk(c.proto) && NodesOk(c.proto) && ReignsOk(c.proto) && AcksOk(c.proto)
    requires var i := c.sent[k].dst; Mirrors(c.proto, i, c.nodes[i]) && NodeOk(c.proto, i, c.nodes[i], Tally(c, i))
    requires Forward(c.proto, After(c, Deliver(k)).proto)
    ensures HandledOk(c, Deliver(k))
  {
    var m := c.sent[k];
    var i := m.dst;
    var s := c.nodes[i];
    var p' := After(c, Deliver(k)).proto;
    assert LogOk(s.log, s.term);
    if m.term == s.term && s.role == Leader {
      ReplierIsPeer(c.proto, i, s, m);
      if m.success {
        MatchedKeepsLeader(c.proto, i, s, m.src, m.lastIndex);
      } else {
        BackedOffKeepsLeader(c.proto, s, m.src);
      }
    }
    AppendReplyNode(c.proto, i, s, m, Tally(c, i));
    NodeStays(c.proto, p', i, HandleAppendReply(s, m).0, Tally(c, i));
    AppendReplyMsgs(c.proto, i, s, m);
    AllStay(c.proto, p', HandleAppendReply(s, m).1);
  }

  lemma AllStay(p: Proto, p': Proto, out: seq<Message>)
    requires AllOk(p, out) && Forward(p, p')
    ensures AllOk(p', out)
  {
    forall m | m in out ensures MsgOk(p', m) {
      MsgStays(p, p', m);
    }
  }

  lemma VoteReplyHandled(c: Cluster, k: nat)
    requires Enabled(c, Deliver(k)) && c.sent[k].VoteReply? && MsgOk(c.proto, c.sent[k])
    requires IdsOk(c.proto) && NodesOk(c.proto) && VotesOk(c.proto)
    requires
      var i := c.sent[k].dst;
      && Mirrors(c.proto, i, c.nodes[i]) && NodeOk(c.proto, i, c.nodes[i], Tally(c, i))
      && (Counts(c.nodes[i], c.sent[k]) ==> c.sent[k].src !in Tally(c, i))
    requires Forward(c.proto, After(c, Deliver(k)).proto)
    ensures HandledOk(c, Deliver(k))
  {
    var m := c.sent[k];
    var i := m.dst;
    var s := c.nodes[i];
    assert LogOk(s.log, s.term);
    if Counts(s, m) {
      VoterIsId(c.proto, Vote(m.src, m.term, i));
    }
    VoteReplyNode(c.proto, i, s, m, Tally(c, i));
    NodeStays(c.proto, After(c, Deliver(k)).proto, i, HandleVoteReply(s, m),
              if Counts(s, m) then Tally(c, i) + {m.src} else Tally(c, i));
  }

  lemma RequestVoteHandled(c: Cluster, k: nat)
    requires Enabled(c, Deliver(k)) && c.sent[k].RequestVote? && MsgOk(c.proto, c.sent[k])
    requires IdsOk(c.proto) && VotesOk(c.proto)
    requires var i := c.sent[k].dst; Mirrors(c.proto, i, c.nodes[i]) && NodeOk(c.proto, i, c.nodes[i], Tally(c, i))
    requires Forward(c.proto, After(c, Deliver(k)).proto)
    ensures HandledOk(c, Deliver(k))
  {
    var m := c.sent[k];
    var i := m.dst;
    IdPositive(c.proto, m.src);
    RequestVoteNode(c.proto, i, c.nodes[i], m, Tally(c, i));
    NodeStays(c.proto, After(c, Deliver(k)).proto, i, HandleRequestVote(c.nodes[i], m).0, Tally(c, i));
  }

  lemma AppendEntriesHandled(c: Cluster, k: nat)
    requires Enabled(c, Deliver(k)) && c.sent[k].AppendEntries? && MsgOk(c.proto, c.sent[k])
    requires var i := c.sent[k].dst; Mirrors(c.proto, i, c.nodes[i]) && NodeOk(c.proto, i, c.nodes[i], Tally(c, i))
    requires Forward(c.proto, After(c, Deliver(k)).proto) && NodesOk(After(c, Deliver(k)).proto)
    ensures HandledOk(c, Deliver(k))
  {
    var m := c.sent[k];
    var i := m.dst;
    var s := c.nodes[i];
    var p' := After(c, Deliver(k)).proto;
    if m.term >= s.term && Consistent(s.log, m.prevIndex, m.prevTerm) {
      AcceptedCore(s, m);
      assert LogOk(p'.nodes[i].log, p'.nodes[i].term);
    }
    AppendEntriesNode(c.proto, i, s, m, Tally(c, i));
    NodeStays(c.proto, p', i, HandleAppendEntries(s, m).0, Tally(c, i));
  }

  lemma DeliverHandled(c: Cluster, k: nat)
    requires Basic(c.proto) && Enabled(c, Deliver(k)) && MsgOk(c.proto, c.sent[k])
    requires
      var i := c.sent[k].dst;
      && Mirrors(c.proto, i, c.nodes[i]) && NodeOk(c.proto, i, c.nodes[i], Tally(c, i))
      && (Counts(c.nodes[i], c.sent[k]) ==> c.sent[k].src !in Tally(c, i))
    requires Forward(c.proto, After(c, Deliver(k)).proto) && NodesOk(After(c, Deliver(k)).proto)
    ensures HandledOk(c, Deliver(k))
  {
    match c.sent[k]
    case AppendEntries(_, _, _, _, _, _, _, _) => AppendEntriesHandled(c, k);
    case AppendReply(_, _, _, _, _) => AppendReplyHandled(c, k);
    case RequestVote(_, _, _, _, _, _) => RequestVoteHandled(c, k);
    case VoteReply(_, _, _, _) => VoteReplyHandled(c, k);
  }

  lemma EventHandled(c: Cluster, e: Event)
    requires ClusterOk(c) && Enabled(c, e) && Basic(After(c, e).proto) && Forward(c.proto, After(c, e).proto)
    ensures HandledOk(c, e)
  {
    TargetMirrors(c, e);
    if e.Deliver? {
      if Counts(c.nodes[c.sent[e.k].dst], c.sent[e.k]) {
        PendingIsNotCounted(c, e.k);
      }
      DeliverHandled(c, e.k);
    } else {
      LocalEventNode(c, e);
    }
  }

  // ---- Votes on their way ----

  /** A candidate's term and tally are as before, or it is no candidate, or it is beyond every pending vote. */
  predicate CandidateStays(c: Cluster, c': Cluster, i: nat) {
    c'.nodes.Keys == c.nodes.Keys && i in c.nodes
    && (forall j | j in c.nodes && j != i :: c'.nodes[j] == c.nodes[j] && Tally(c', j) == Tally(c, j))
    && (c'.nodes[i].role == Candidate ==>
          c.nodes[i].role == Candidate && c'.nodes[i].term == c.nodes[i].term)
  }

  /** The outgoing messages carry no vote, or the vote of the request just taken. */
  lemma TokensMove(c: Cluster, c': Cluster, i: nat, k0: nat, out: seq<Message>)
    requires TokensOk(c) && CandidateStays(c, c', i) && (c'.nodes[i].role == Candidate ==> Tally(c', i) == Tally(c, i))
    requires c'.sent == c.sent + out && |out| <= 1 && c.taken <= c'.taken
    requires |out| == 1 ==> k0 < |c.sent| && k0 !in c.taken && k0 in c'.taken && Token(out[0]) <= Token(c.sent[k0])
    ensures TokensOk(c')
  {
    forall k: nat, x | Pending(c', k, x)
      ensures if k < |c.sent| then Pending(c, k, x) && (|out| == 1 ==> k != k0) else Pending(c, k0, x) && k == |c.sent|
    {
    }
  }

  lemma TokensQuiet(c: Cluster, c': Cluster, i: nat, out: seq<Message>)
    requires TokensOk(c) && CandidateStays(c, c', i) && (c'.nodes[i].role == Candidate ==> Tally(c', i) == Tally(c, i))
    requires c'.sent == c.sent + out && c.taken <= c'.taken && forall m | m in out :: Token(m) == {}
    ensures TokensOk(c')
  {
    forall k: nat, x | Pending(c', k, x) ensures Pending(c, k, x) {
      if k >= |c.sent| {
        assert c'.sent[k] in out;
      }
    }
  }

  lemma TokensCounted(c: Cluster, c': Cluster, i: nat, k0: nat)
    requires TokensOk(c) && CandidateStays(c, c', i) && c'.sent == c.sent && c'.taken == c.taken + {k0}
    requires k0 < |c.sent| && k0 !in c.taken
    requires
      var m := c.sent[k0];
      m.VoteReply? && m.dst == i && Counts(c.nodes[i], m)
      && (c'.nodes[i].role == Candidate ==> Tally(c', i) == Tally(c, i) + {m.src})
    ensures TokensOk(c')
  {
    var m := c.sent[k0];
    assert Pending(c, k0, Vote(m.src, m.term, i));
    forall k: nat, x | Pending(c', k, x) ensures Pending(c, k, x) && k != k0 {
    }
  }

  lemma {:induction false} RequestsDiffer(s: Node, upto: nat)
    ensures forall a | 0 <= a < |BroadcastVote(s, upto)| ::
              BroadcastVote(s, upto)[a].RequestVote? && BroadcastVote(s, upto)[a].dst <= upto
              && BroadcastVote(s, upto)[a].dst != s.id
              && Token(BroadcastVote(s, upto)[a]) == {Vote(BroadcastVote(s, upto)[a].dst, s.term, s.id)}
    ensures forall a, b | 0 <= a < b < |BroadcastVote(s, upto)| ::
              BroadcastVote(s, upto)[a].dst != BroadcastVote(s, upto)[b].dst
  {
    if upto > 0 {
      RequestsDiffer(s, upto - 1);
    }
  }

  lemma PendingTermIsOld(c: Cluster, k: nat, x: Vote)
    requires VotesOk(c.proto) && SentOk(c) && Pending(c, k, x) && x.candidate in c.proto.nodes
    ensures x.term <= c.proto.nodes[x.candidate].term
  {
    assert MsgOk(c.proto, c.sent[k]);
    if c.sent[k].VoteReply? {
      assert VoteOk(c.proto, x);
    }
  }

  lemma TokensAsked(c: Cluster, c': Cluster, i: nat)
    requires i in c.nodes && TokensOk(c) && VotesOk(c.proto) && SentOk(c) && Mirrors(c.proto, i, c.nodes[i])
    requires c.nodes[i].role != Leader && c' == After(c, ElectionTimeout(i))
    ensures TokensOk(c')
  {
    var s' := BecomeCandidate(c.nodes[i]);
    RequestsDiffer(s', s'.peers);
    forall k: nat, x | Pending(c', k, x)
      ensures if k < |c.sent| then Pending(c, k, x) && (x.candidate == i ==> x.term < s'.term)
              else x.candidate == i && x.term == s'.term && x.voter != i
    {
      if k < |c.sent| && x.candidate == i {
        PendingTermIsOld(c, k, x);
      }
    }
  }

  lemma DeliverTokens(c: Cluster, k: nat)
    requires TokensOk(c) && CoresOk(c) && Enabled(c, Deliver(k)) && CandidateStays(c, After(c, Deliver(k)), c.sent[k].dst)
    requires c.nodes[c.sent[k].dst].id == c.sent[k].dst
    ensures TokensOk(After(c, Deliver(k)))
  {
    var m := c.sent[k];
    if Counts(c.nodes[m.dst], m) {
      CountedTokens(c, k);
    } else if m.RequestVote? {
      MovedTokens(c, k);
    } else {
      QuietTokens(c, k);
    }
  }

  lemma CountedTokens(c: Cluster, k: nat)
    requires TokensOk(c) && CoresOk(c) && Enabled(c, Deliver(k)) && CandidateStays(c, After(c, Deliver(k)), c.sent[k].dst)
    requires c.nodes[c.sent[k].dst].id == c.sent[k].dst && Counts(c.nodes[c.sent[k].dst], c.sent[k])
    ensures TokensOk(After(c, Deliver(k)))
  {
    TokensCounted(c, After(c, Deliver(k)), c.sent[k].dst, k);
  }

  lemma MovedTokens(c: Cluster, k: nat)
    requires TokensOk(c) && CoresOk(c) && Enabled(c, Deliver(k)) && CandidateStays(c, After(c, Deliver(k)), c.sent[k].dst)
    requires c.nodes[c.sent[k].dst].id == c.sent[k].dst && c.sent[k].RequestVote?
    ensures TokensOk(After(c, Deliver(k)))
  {
    TokensMove(c, After(c, Deliver(k)), c.sent[k].dst, k, Outcome(c, Deliver(k)).1);
  }

  lemma QuietTokens(c: Cluster, k: nat)
    requires TokensOk(c) && CoresOk(c) && Enabled(c, Deliver(k)) && CandidateStays(c, After(c, Deliver(k)), c.sent[k].dst)
    requires c.nodes[c.sent[k].dst].id == c.sent[k].dst && !c.sent[k].RequestVote? && !Counts(c.nodes[c.sent[k].dst], c.sent[k])
    ensures TokensOk(After(c, Deliver(k)))
  {
    TokensQuiet(c, After(c, Deliver(k)), c.sent[k].dst, Outcome(c, Deliver(k)).1);
  }

  lemma EventTokens(c: Cluster, e: Event)
    requires ClusterOk(c) && Enabled(c, e) && Forward(c.proto, After(c, e).proto)
    ensures TokensOk(After(c, e))
  {
    TargetMirrors(c, e);
    var i := Target(c, e);
    var s := c.nodes[i];
    if e.ElectionTimeout? && s.role != Leader {
      TokensAsked(c, After(c, e), i);
    } else {
      CandidateIsAsBefore(c, e);
      if e.Deliver? {
        DeliverTokens(c, e.k);
      } else {
        NoReplyAmongAppends(Outcome(c, e).0, s.peers);
        LocalOutIsAppends(c, e);
        TokensQuiet(c, After(c, e), i, Outcome(c, e).1);
      }
    }
  }

  lemma LocalOutIsAppends(c: Cluster, e: Event)
    requires Enabled(c, e) && !e.Deliver? && (e.ElectionTimeout? ==> c.nodes[Target(c, e)].role == Leader)
    ensures forall m | m in Outcome(c, e).1 :: Token(m) == {}
  {
    var s := c.nodes[Target(c, e)];
    NoReplyAmongAppends(s, s.peers);
    if e.Propose? {
      var s1 := Proposed(s, e.command);
      NoReplyAmongAppends(s1, s1.peers);
    }
  }

  lemma CandidateIsAsBefore(c: Cluster, e: Event)
    requires Enabled(c, e) && (e.ElectionTimeout? ==> c.nodes[Target(c, e)].role == Leader)
    ensures CandidateStays(c, After(c, e), Target(c, e))
    ensures !e.Deliver? || !Counts(c.nodes[Target(c, e)], c.sent[e.k]) ==>
              Tally(After(c, e), Target(c, e)) == Tally(c, Target(c, e))
  {
    StandsAsBefore(c, e);
  }

  lemma StandsAsBefore(c: Cluster, e: Event)
    requires Enabled(c, e) && (e.ElectionTimeout? ==> c.nodes[Target(c, e)].role == Leader)
    ensures
      var s, s' := c.nodes[Target(c, e)], Outcome(c, e).0;
      s'.role == Candidate ==> s.role == Candidate && s'.term == s.term
  {
    var s := c.nodes[Target(c, e)];
    match e
    case Propose(_, command) => AdvanceKeepsCore(Proposed(s, command));
    case Deliver(k) =>
      var m := c.sent[k];
      if m.AppendReply? {
        AdvanceKeepsCore(Matched(s, m.src, m.lastIndex));
      }
    case _ =>
  }

  // ---- ClusterOk is kept ----

  lemma EventNodes(c: Cluster, e: Event)
    requires AllNodesOk(c) && Enabled(c, e) && Forward(c.proto, After(c, e).proto) && HandledOk(c, e)
    ensures AllNodesOk(After(c, e))
  {
    var c' := After(c, e);
    forall i | i in c'.nodes ensures NodeOk(c'.proto, i, c'.nodes[i], Tally(c', i)) {
      if i != Target(c, e) {
        NodeStays(c.proto, c'.proto, i, c.nodes[i], Tally(c, i));
      }
    }
  }

  lemma EventSent(c: Cluster, e: Event)
    requires SentOk(c) && Enabled(c, e) && Forward(c.proto, After(c, e).proto) && HandledOk(c, e)
    ensures SentOk(After(c, e))
  {
    var c' := After(c, e);
    forall k | 0 <= k < |c'.sent| ensures MsgOk(c'.proto, c'.sent[k]) {
      if k < |c.sent| {
        MsgStays(c.proto, c'.proto, c.sent[k]);
      } else {
        assert c'.sent[k] in Outcome(c, e).1;
      }
    }
  }

  lemma EventCores(c: Cluster, e: Event)
    requires CoresOk(c) && Enabled(c, e)
    ensures CoresOk(After(c, e))
  {
  }

  lemma EventKeeps(c: Cluster, e: Event)
    requires ClusterOk(c) && Enabled(c, e)
    ensures ClusterOk(After(c, e)) && Forward(c.proto, After(c, e).proto)
  {
    EventProto(c, e);
    EventHandled(c, e);
    EventCores(c, e);
    EventNodes(c, e);
    EventSent(c, e);
    EventTokens(c, e);
    TakenAfter(c, e);
  }

  lemma TakenAfter(c: Cluster, e: Event)
    requires TakenOk(c) && Enabled(c, e)
    ensures TakenOk(After(c, e))
  {
  }

  lemma StartBasic(n: nat)
    ensures Basic(Start(n).proto)
  {
  }

  lemma StartNodes(n: nat)
    ensures CoresOk(Start(n)) && AllNodesOk(Start(n))
  {
  }

  lemma StartOk(n: nat)
    ensures ClusterOk(Start(n))
  {
    StartBasic(n);
    StartNodes(n);
  }

  lemma StepKeepsOk(c: Cluster, e: Event, c': Cluster)
    requires ClusterOk(c) && Enabled(c, e) && c' == After(c, e)
    ensures ClusterOk(c')
  {
    EventKeeps(c, e);
  }

  lemma {:induction false} RunOk(n: nat, events: seq<Event>, states: seq<Cluster>, k: nat)
    requires IsRun(n, events, states) && k < |states|
    ensures ClusterOk(states[k])
  {
    if k == 0 {
      StartOk(n);
    } else {
      var before := k - 1;
      RunOk(n, events, states, before);
      StepOfRun(n, events, states, before);
      StepKeepsOk(states[before], events[before], states[k]);
    }
  }
}
