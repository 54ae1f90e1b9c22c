/**
 * Leader Completeness (section 5.4 of the Raft paper): an entry that a majority has acknowledged to
 * the leader that created it is in the log of every leader of every later term.
 *
 * It needs one thing of the network beyond RaftProtocol: no AppendEntries may cut a follower's log
 * short (`NonStale`).
 */
module RaftCompleteness {
  import opened Collections
  import opened RaftLog
  import opened RaftNode
  import opened RaftProtocol

  predicate Has(log: seq<Entry>, i: nat, t: nat) {
    1 <= i < |log| && log[i].term == t
  }

  /** Entry `i` was created by the leader of term `t`. */
  predicate Created(p: Proto, t: nat, i: nat) {
    t in p.reigns && Has(p.reigns[t].log, i, t)
  }

  function Ackers(p: Proto, t: nat, i: nat): set<nat> {
    set v | v in p.nodes && Ack(v, t, i) in p.acks
  }

  /** The nodes that have left term `t` without acknowledging index `i` in it: they never will. */
  function NonAckers(p: Proto, t: nat, i: nat): set<nat> {
    set v | v in p.nodes && p.nodes[v].term > t && Ack(v, t, i) !in p.acks
  }

  /** A majority holds entry `i` of the leader of term `t`. */
  predicate Committed(p: Proto, t: nat, i: nat) {
    Created(p, t, i) && 2 * |Ackers(p, t, i)| > p.n
  }

  /** So many nodes have passed the entry by that it can never be committed. */
  predicate Blocked(p: Proto, t: nat, i: nat) {
    2 * |NonAckers(p, t, i)| > p.n
  }

  // ---- What the steps keep when nothing is cut short ----

  predicate AckersHold(p: Proto) {
    forall a | a in p.acks ::
      Created(p, a.term, a.index) && a.node in p.nodes ==>
        Has(p.nodes[a.node].log, a.index, a.term) || Blocked(p, a.term, a.index)
  }

  predicate CandidatesHold(p: Proto) {
    forall x, a | x in p.votes && a in p.acks ::
      x.voter == a.node && a.term < x.term && Created(p, a.term, a.index)
      && x.candidate in p.nodes && p.nodes[x.candidate].term == x.term && p.nodes[x.candidate].role == Candidate
      ==> Has(p.nodes[x.candidate].log, a.index, a.term) || Blocked(p, a.term, a.index)
  }

  ghost predicate LeadersHold(p: Proto) {
    forall t: nat, u: nat, i: nat | u in p.reigns && t < u && Created(p, t, i) ::
      Has(p.reigns[u].log, i, t) || Blocked(p, t, i)
  }

  ghost predicate Complete(p: Proto) {
    AckersHold(p) && CandidatesHold(p) && LeadersHold(p)
  }

  // ---- Leader Completeness follows ----

  lemma CommittedIsNotBlocked(p: Proto, t: nat, i: nat)
    requires IdsOk(p) && Committed(p, t, i)
    ensures !Blocked(p, t, i)
  {
    if Blocked(p, t, i) {
      var v := QuorumsMeet(p.n, Ackers(p, t, i), NonAckers(p, t, i));
      assert false;
    }
  }

  lemma CommittedInLaterLeaders(p: Proto, t: nat, i: nat, u: nat)
    requires Basic(p) && LeadersHold(p) && Committed(p, t, i) && u in p.reigns && t <= u
    ensures Agree(p.reigns[u].log, p.reigns[t].log, i)
  {
    CommittedIsNotBlocked(p, t, i);
    if t < u {
      assert Has(p.reigns[u].log, i, t);
      assert Matches(p.reigns, p.reigns[u].log);
    }
  }

  // ---- Being blocked or committed is for ever ----

  /** Terms do not fall, and whoever is beyond a term acknowledges nothing more in it. */
  predicate Later(p: Proto, p': Proto) {
    p'.n == p.n && p'.nodes.Keys == p.nodes.Keys
    && (forall v | v in p.nodes :: p.nodes[v].term <= p'.nodes[v].term)
    && p.acks <= p'.acks
    && (forall a | a in p'.acks && a !in p.acks && a.node in p.nodes :: p.nodes[a.node].term <= a.term)
  }

  lemma BlockedStays(p: Proto, p': Proto, t: nat, i: nat)
    requires Later(p, p') && Blocked(p, t, i)
    ensures Blocked(p', t, i)
  {
    SubsetSize(NonAckers(p, t, i), NonAckers(p', t, i));
  }

  lemma CommittedStays(p: Proto, p': Proto, t: nat, i: nat)
    requires Later(p, p') && Grows(p.reigns, p'.reigns) && Committed(p, t, i)
    ensures Committed(p', t, i)
  {
    SubsetSize(Ackers(p, t, i), Ackers(p', t, i));
  }

  // ---- Steps that change neither logs, reigns nor acknowledgements ----

  predicate SameLogs(p: Proto, p': Proto) {
    Later(p, p') && p'.reigns == p.reigns && p'.acks == p.acks
    && forall v | v in p.nodes :: p'.nodes[v].log == p.nodes[v].log
  }

  lemma AckersStillHold(p: Proto, p': Proto)
    requires AckersHold(p) && SameLogs(p, p')
    ensures AckersHold(p')
  {
    forall a | a in p'.acks && Created(p', a.term, a.index) && a.node in p'.nodes
      ensures Has(p'.nodes[a.node].log, a.index, a.term) || Blocked(p', a.term, a.index)
    {
      assert Created(p, a.term, a.index);
      if Blocked(p, a.term, a.index) {
        BlockedStays(p, p', a.term, a.index);
      }
    }
  }

  lemma LeadersStillHold(p: Proto, p': Proto)
    requires LeadersHold(p) && Later(p, p') && p'.reigns == p.reigns
    ensures LeadersHold(p')
  {
    forall t: nat, u: nat, i: nat | u in p'.reigns && t < u && Created(p', t, i)
      ensures Has(p'.reigns[u].log, i, t) || Blocked(p', t, i)
    {
      assert Created(p, t, i);
      if Blocked(p, t, i) {
        BlockedStays(p, p', t, i);
      }
    }
  }

  /** The votes that were there before: their candidates keep their logs or stop being candidates. */
  lemma CandidateStillHolds(p: Proto, p': Proto, x: Vote, a: Ack)
    requires CandidatesHold(p) && Later(p, p') && x in p.votes && a in p.acks
    requires x.voter == a.node && a.term < x.term && Created(p, a.term, a.index)
    requires x.candidate in p.nodes && p.nodes[x.candidate].term == x.term && p.nodes[x.candidate].role == Candidate
    requires p'.nodes[x.candidate].log == p.nodes[x.candidate].log
    ensures Has(p'.nodes[x.candidate].log, a.index, a.term) || Blocked(p', a.term, a.index)
  {
    if Blocked(p, a.term, a.index) {
      BlockedStays(p, p', a.term, a.index);
    }
  }

  /** No vote is new, and no acknowledgement is new to a term that its node's votes could be above. */
  lemma CandidatesStillHold(p: Proto, p': Proto)
    requires CandidatesHold(p) && VotesOk(p) && AcksOk(p) && Later(p, p') && p'.votes == p.votes
    requires Grows(p.reigns, p'.reigns)
    requires forall t: nat, i: nat | t in p.reigns && i < |p.reigns[t].log| :: Created(p', t, i) ==> Created(p, t, i)
    requires forall v | v in p.nodes && p'.nodes[v].role == Candidate :: p'.nodes[v] == p.nodes[v]
    ensures CandidatesHold(p')
  {
    forall x, a | x in p'.votes && a in p'.acks
      && x.voter == a.node && a.term < x.term && Created(p', a.term, a.index)
      && x.candidate in p'.nodes && p'.nodes[x.candidate].term == x.term && p'.nodes[x.candidate].role == Candidate
      ensures Has(p'.nodes[x.candidate].log, a.index, a.term) || Blocked(p', a.term, a.index)
    {
      assert VoteOk(p, x);
      assert a in p.acks;
      assert AckOk(p, a);
      CandidateStillHolds(p, p', x, a);
    }
  }

  lemma ObserveKeepsComplete(p: Proto, v: nat, term: nat)
    requires VotesOk(p) && AcksOk(p) && Complete(p) && v in p.nodes && term > p.nodes[v].term
    ensures Complete(Observe(p, v, term))
  {
    var p' := Observe(p, v, term);
    assert SameLogs(p, p');
    AckersStillHold(p, p');
    CandidatesStillHold(p, p');
    LeadersStillHold(p, p');
  }

  lemma StepDownKeepsComplete(p: Proto, v: nat)
    requires VotesOk(p) && AcksOk(p) && Complete(p) && v in p.nodes
    ensures Complete(StepDown(p, v))
  {
    var p' := StepDown(p, v);
    assert SameLogs(p, p');
    AckersStillHold(p, p');
    CandidatesStillHold(p, p');
    LeadersStillHold(p, p');
  }

  lemma StandKeepsCandidates(p: Proto, p': Proto, c: nat)
    requires VotesOk(p) && AcksOk(p) && AckersHold(p) && CandidatesHold(p) && c in p.nodes && p' == Stand(p, c)
    ensures CandidatesHold(p')
  {
    forall x, a | x in p'.votes && a in p'.acks
      && x.voter == a.node && a.term < x.term && Created(p', a.term, a.index)
      && x.candidate in p'.nodes && p'.nodes[x.candidate].term == x.term && p'.nodes[x.candidate].role == Candidate
      ensures Has(p'.nodes[x.candidate].log, a.index, a.term) || Blocked(p', a.term, a.index)
    {
      assert Created(p, a.term, a.index);
      if x in p.votes {
        assert VoteOk(p, x);
        CandidateStillHolds(p, p', x, a);
      } else if Blocked(p, a.term, a.index) {
        BlockedStays(p, p', a.term, a.index);
      }
    }
  }

  lemma StandKeepsComplete(p: Proto, c: nat)
    requires VotesOk(p) && AcksOk(p) && Complete(p) && c in p.nodes
    ensures Complete(Stand(p, c))
  {
    var p' := Stand(p, c);
    assert SameLogs(p, p');
    AckersStillHold(p, p');
    StandKeepsCandidates(p, p', c);
    LeadersStillHold(p, p');
  }

  // ---- Granting a vote: the up-to-date check ----

  /** Whoever is at least as up to date as a log that holds an entry holds it too. */
  lemma UpToDateHas(p: Proto, mine: seq<Entry>, theirs: seq<Entry>, i: nat, t: nat)
    requires Shape(mine) && Shape(theirs) && Matches(p.reigns, mine) && Matches(p.reigns, theirs)
    requires forall u | u in p.reigns :: Shape(p.reigns[u].log)
    requires LeadersHold(p) && Created(p, t, i)
    requires Has(mine, i, t) && UpToDate(LastIndex(theirs), LastTerm(theirs), mine)
    ensures Has(theirs, i, t) || Blocked(p, t, i)
  {
    var l, m := |theirs| - 1, |mine| - 1;
    var u := theirs[l].term;
    assert t <= mine[m].term;
    if u == mine[m].term {
      assert Agree(mine, p.reigns[u].log, m) && Agree(theirs, p.reigns[u].log, l);
      assert theirs[i] == p.reigns[u].log[..l + 1][i];
      assert mine[i] == p.reigns[u].log[..m + 1][i];
    } else {
      assert Agree(theirs, p.reigns[u].log, l);
      if Has(p.reigns[u].log, i, t) {
        assert p.reigns[u].log[l] == p.reigns[u].log[..l + 1][l];
        assert i < l;
        assert theirs[i] == p.reigns[u].log[..l + 1][i];
      }
    }
  }

  lemma GrantedCandidateHolds(p: Proto, v: nat, c: nat, a: Ack)
    requires NodesOk(p) && ReignsOk(p) && LogsMatch(p) && AckersHold(p) && LeadersHold(p) && CanGrant(p, v, c)
    requires a in p.acks && a.node == v && Created(p, a.term, a.index)
    requires p.nodes[c].term == p.nodes[v].term && p.nodes[c].role == Candidate
    ensures Has(p.nodes[c].log, a.index, a.term) || Blocked(p, a.term, a.index)
  {
    forall u | u in p.reigns ensures Shape(p.reigns[u].log) {
      assert ReignOk(p, u);
    }
    if !Blocked(p, a.term, a.index) {
      UpToDateHas(p, p.nodes[v].log, p.nodes[c].log, a.index, a.term);
    }
  }

  lemma GrantedHolds(p: Proto, p': Proto, v: nat, c: nat, a: Ack)
    requires NodesOk(p) && ReignsOk(p) && LogsMatch(p) && AckersHold(p) && LeadersHold(p) && CanGrant(p, v, c)
    requires Later(p, p')
    requires a in p.acks && a.node == v && Created(p, a.term, a.index)
    requires p.nodes[c].term == p.nodes[v].term && p.nodes[c].role == Candidate
    ensures Has(p.nodes[c].log, a.index, a.term) || Blocked(p', a.term, a.index)
  {
    GrantedCandidateHolds(p, v, c, a);
    if Blocked(p, a.term, a.index) {
      BlockedStays(p, p', a.term, a.index);
    }
  }

  /** The candidate of vote x holds what the voter has acknowledged in a, or that can never be committed. */
  predicate HoldsFor(p: Proto, x: Vote, a: Ack) {
    x.voter == a.node && a.term < x.term && Created(p, a.term, a.index)
    && x.candidate in p.nodes && p.nodes[x.candidate].term == x.term && p.nodes[x.candidate].role == Candidate
    ==> Has(p.nodes[x.candidate].log, a.index, a.term) || Blocked(p, a.term, a.index)
  }

  lemma GrantKeepsPair(p: Proto, p': Proto, v: nat, c: nat, x: Vote, a: Ack)
    requires NodesOk(p) && ReignsOk(p) && LogsMatch(p) && AckersHold(p) && LeadersHold(p)
    requires CanGrant(p, v, c) && p' == Grant(p, v, c) && Later(p, p') && a in p.acks
    requires if x in p.votes then CandidatesHold(p) else x == Vote(v, p.nodes[v].term, c)
    ensures HoldsFor(p', x, a)
  {
    if x.voter == a.node && a.term < x.term && Created(p', a.term, a.index)
       && x.candidate in p'.nodes && p'.nodes[x.candidate].term == x.term && p'.nodes[x.candidate].role == Candidate {
      assert Created(p, a.term, a.index);
      if x in p.votes {
        CandidateStillHolds(p, p', x, a);
      } else {
        GrantedHolds(p, p', v, c, a);
      }
    }
  }

  lemma GrantKeepsCandidates(p: Proto, p': Proto, v: nat, c: nat)
    requires NodesOk(p) && ReignsOk(p) && LogsMatch(p) && AckersHold(p) && CandidatesHold(p) && LeadersHold(p)
    requires CanGrant(p, v, c) && p' == Grant(p, v, c) && Later(p, p')
    ensures CandidatesHold(p')
  {
    forall x, a | x in p'.votes && a in p'.acks ensures HoldsFor(p', x, a) {
      GrantKeepsPair(p, p', v, c, x, a);
    }
    EachHolds(p');
  }

  lemma EachHolds(p: Proto)
    requires forall x, a | x in p.votes && a in p.acks :: HoldsFor(p, x, a)
    ensures CandidatesHold(p)
  {
  }

  lemma GrantKeepsComplete(p: Proto, v: nat, c: nat)
    requires Basic(p) && Complete(p) && CanGrant(p, v, c)
    ensures Complete(Grant(p, v, c))
  {
    var p' := Grant(p, v, c);
    assert SameLogs(p, p');
    AckersStillHold(p, p');
    GrantKeepsCandidates(p, p', v, c);
    LeadersStillHold(p, p');
  }

  // ---- Winning an election ----

  /** A majority voted for the candidate: it holds the entry, or that majority has passed the entry by. */
  lemma ElectedHolds(p: Proto, c: nat, voters: set<nat>, t: nat, i: nat)
    requires IdsOk(p) && VotesOk(p) && CandidatesHold(p) && CanElect(p, c, voters)
    requires t < p.nodes[c].term && Created(p, t, i)
    ensures Has(p.nodes[c].log, i, t) || Blocked(p, t, i)
  {
    if v :| v in voters && Ack(v, t, i) in p.acks {
      assert Vote(v, p.nodes[c].term, c) in p.votes;
    } else {
      forall v | v in voters ensures v in NonAckers(p, t, i) {
        assert VoteOk(p, Vote(v, p.nodes[c].term, c));
      }
      SubsetSize(voters, NonAckers(p, t, i));
    }
  }

  /** The new leader's term is new, so none of its entries is its own yet. */
  lemma ElectedCreatesNothing(p: Proto, p': Proto, c: nat, voters: set<nat>, t: nat, i: nat)
    requires LogsMatch(p) && CanElect(p, c, voters) && |p.nodes[c].log| > 0 && p' == Elect(p, c, voters)
    requires p.nodes[c].term !in p.reigns
    requires Created(p', t, i)
    ensures Created(p, t, i) && t != p.nodes[c].term
  {
    assert Matches(p.reigns, p.nodes[c].log);
  }

  lemma ElectKeepsLeaders(p: Proto, p': Proto, c: nat, voters: set<nat>)
    requires IdsOk(p) && VotesOk(p) && LogsMatch(p) && CandidatesHold(p) && LeadersHold(p)
    requires CanElect(p, c, voters) && |p.nodes[c].log| > 0 && p' == Elect(p, c, voters)
    requires p.nodes[c].term !in p.reigns && Later(p, p')
    ensures LeadersHold(p')
  {
    forall t: nat, u: nat, i: nat | u in p'.reigns && t < u && Created(p', t, i)
      ensures Has(p'.reigns[u].log, i, t) || Blocked(p', t, i)
    {
      ElectedCreatesNothing(p, p', c, voters, t, i);
      if u == p.nodes[c].term {
        ElectedHolds(p, c, voters, t, i);
      }
      if Blocked(p, t, i) {
        BlockedStays(p, p', t, i);
      }
    }
  }

  lemma ElectKeepsAckers(p: Proto, p': Proto, c: nat, voters: set<nat>)
    requires LogsMatch(p) && AckersHold(p) && CanElect(p, c, voters) && |p.nodes[c].log| > 0 && p' == Elect(p, c, voters)
    requires p.nodes[c].term !in p.reigns && Later(p, p')
    ensures AckersHold(p')
  {
    forall a | a in p'.acks && Created(p', a.term, a.index) && a.node in p'.nodes
      ensures Has(p'.nodes[a.node].log, a.index, a.term) || Blocked(p', a.term, a.index)
    {
      ElectedCreatesNothing(p, p', c, voters, a.term, a.index);
      if Blocked(p, a.term, a.index) {
        BlockedStays(p, p', a.term, a.index);
      }
    }
  }

  lemma ElectKeepsCandidates(p: Proto, p': Proto, c: nat, voters: set<nat>)
    requires CandidatesHold(p) && VotesOk(p) && AcksOk(p) && CanElect(p, c, voters) && |p.nodes[c].log| > 0
    requires p' == Elect(p, c, voters) && p.nodes[c].term !in p.reigns && Later(p, p')
    ensures CandidatesHold(p')
  {
    CandidatesStillHold(p, p');
  }

  lemma ElectIsLater(p: Proto, c: nat, voters: set<nat>)
    requires CanElect(p, c, voters) && |p.nodes[c].log| > 0
    ensures Later(p, Elect(p, c, voters))
  {
  }

  lemma ElectKeepsComplete(p: Proto, c: nat, voters: set<nat>)
    requires Basic(p) && Complete(p) && CanElect(p, c, voters)
    ensures |p.nodes[c].log| > 0 && Complete(Elect(p, c, voters))
  {
    ElectedTermIsNew(p, c, voters);
    var p' := Elect(p, c, voters);
    ElectIsLater(p, c, voters);
    ElectKeepsAckers(p, p', c, voters);
    ElectKeepsLeaders(p, p', c, voters);
    ElectKeepsCandidates(p, p', c, voters);
  }

  // ---- A leader appends an entry ----

  lemma ExtendCreates(p: Proto, p': Proto, c: nat, command: Command, t: nat, i: nat)
    requires ReignsOk(p) && CanExtend(p, c) && p' == Extend(p, c, command) && Created(p', t, i)
    ensures Created(p, t, i) || (t == p.nodes[c].term && i == |p.nodes[c].log|)
  {
    assert ReignOk(p, p.nodes[c].term);
  }

  /** If a later leader exists when the entry is created, the majority that elected it has passed the entry by. */
  lemma CreatedLateIsBlocked(p: Proto, p': Proto, c: nat, command: Command, u: nat)
    requires IdsOk(p) && VotesOk(p) && ReignsOk(p) && AcksOk(p) && CanExtend(p, c) && p' == Extend(p, c, command)
    requires u in p.reigns && u > p.nodes[c].term
    ensures Blocked(p', p.nodes[c].term, |p.nodes[c].log|)
  {
    var t, i := p.nodes[c].term, |p.nodes[c].log|;
    assert ReignOk(p, u) && ReignOk(p, t);
    forall v | v in p.reigns[u].voters ensures v in NonAckers(p', t, i) {
      assert VoteOk(p, Vote(v, u, p.reigns[u].leader));
      assert Ack(v, t, i) in p.acks ==> AckOk(p, Ack(v, t, i));
    }
    SubsetSize(p.reigns[u].voters, NonAckers(p', t, i));
  }

  lemma OldEntryStillHeld(p: Proto, p': Proto, t: nat, u: nat, i: nat)
    requires LeadersHold(p) && Later(p, p') && Grows(p.reigns, p'.reigns)
    requires u in p.reigns && t < u && Created(p, t, i)
    ensures Has(p'.reigns[u].log, i, t) || Blocked(p', t, i)
  {
    if Blocked(p, t, i) {
      BlockedStays(p, p', t, i);
    }
  }

  lemma ExtendKeepsLeaders(p: Proto, p': Proto, c: nat, command: Command)
    requires IdsOk(p) && VotesOk(p) && ReignsOk(p) && AcksOk(p) && LeadersHold(p)
    requires CanExtend(p, c) && p' == Extend(p, c, command)
    requires Later(p, p') && Grows(p.reigns, p'.reigns)
    ensures LeadersHold(p')
  {
    forall t: nat, u: nat, i: nat | u in p'.reigns && t < u && Created(p', t, i)
      ensures Has(p'.reigns[u].log, i, t) || Blocked(p', t, i)
    {
      ExtendCreates(p, p', c, command, t, i);
      if Created(p, t, i) {
        OldEntryStillHeld(p, p', t, u, i);
      } else {
        CreatedLateIsBlocked(p, p', c, command, u);
      }
    }
  }

  lemma ExtendKeepsAckers(p: Proto, p': Proto, c: nat, command: Command)
    requires ReignsOk(p) && AcksOk(p) && AckersHold(p) && CanExtend(p, c) && p' == Extend(p, c, command)
    requires Later(p, p')
    ensures AckersHold(p')
  {
    forall a | a in p'.acks && Created(p', a.term, a.index) && a.node in p'.nodes
      ensures Has(p'.nodes[a.node].log, a.index, a.term) || Blocked(p', a.term, a.index)
    {
      ExtendCreates(p, p', c, command, a.term, a.index);
      if a in p.acks {
        assert AckOk(p, a);
        assert ReignOk(p, p.nodes[c].term);
        if Blocked(p, a.term, a.index) {
          BlockedStays(p, p', a.term, a.index);
        }
      }
    }
  }

  lemma ExtendCreatesNothingOld(p: Proto, p': Proto, c: nat, command: Command)
    requires ReignsOk(p) && CanExtend(p, c) && p' == Extend(p, c, command)
    ensures forall t: nat, i: nat | t in p.reigns && i < |p.reigns[t].log| :: Created(p', t, i) ==> Created(p, t, i)
  {
    assert ReignOk(p, p.nodes[c].term);
    forall t: nat, i: nat | t in p.reigns && i < |p.reigns[t].log| && Created(p', t, i) ensures Created(p, t, i) {
      ExtendCreates(p, p', c, command, t, i);
    }
  }

  lemma ExtendKeepsCandidates(p: Proto, p': Proto, c: nat, command: Command)
    requires VotesOk(p) && ReignsOk(p) && AcksOk(p) && CandidatesHold(p) && CanExtend(p, c) && p' == Extend(p, c, command)
    requires Later(p, p') && Grows(p.reigns, p'.reigns)
    ensures CandidatesHold(p')
  {
    ExtendCreatesNothingOld(p, p', c, command);
    CandidatesStillHold(p, p');
  }

  lemma ExtendIsLater(p: Proto, c: nat, command: Command)
    requires c in p.nodes && p.nodes[c].term in p.reigns
    ensures Later(p, Extend(p, c, command))
  {
  }

  lemma ExtendKeepsComplete(p: Proto, c: nat, command: Command)
    requires Basic(p) && Complete(p) && CanExtend(p, c)
    ensures p.nodes[c].term in p.reigns && Complete(Extend(p, c, command))
  {
    var p' := Extend(p, c, command);
    ExtendIsLater(p, c, command);
    ExtendKeepsReigns(p, p', c, command);
    ExtendKeepsAckers(p, p', c, command);
    ExtendKeepsCandidates(p, p', c, command);
    ExtendKeepsLeaders(p, p', c, command);
  }

  // ---- A follower accepts entries ----

  /** Some entry the follower already has is of another term than the one sent for its place. */
  predicate Conflicts(log: seq<Entry>, prev: nat, entries: seq<Entry>) {
    exists j :: prev < j <= prev + |entries| && j < |log| && log[j].term != entries[j - prev - 1].term
  }

  /** Taking the entries cuts nothing off that did not have to go. */
  predicate NonStale(log: seq<Entry>, prev: nat, entries: seq<Entry>) {
    |entries| == 0 || Conflicts(log, prev, entries) || prev + |entries| >= |log| - 1
  }

  /** An entry that both the follower and the leader it hears hold survives an accepted AppendEntries. */
  lemma SharedEntrySurvives(p: Proto, v: nat, prev: nat, entries: seq<Entry>, i: nat, t: nat)
    requires NodesOk(p) && ReignsOk(p) && LogsMatch(p) && CanAccept(p, v, prev, entries)
    requires NonStale(p.nodes[v].log, prev, entries)
    requires Has(p.nodes[v].log, i, t) && Has(p.reigns[p.nodes[v].term].log, i, t)
    ensures Has(Overwritten(p.nodes[v].log, prev, entries), i, t)
    ensures |entries| > 0 ==> i <= prev + |entries|
  {
    if |entries| > 0 {
      OverwrittenIsPrefix(p, v, prev, entries);
      var log, lead := p.nodes[v].log, p.reigns[p.nodes[v].term].log;
      SameTermSameLog(p, log, lead, i);
      SharedPrefixIsShort(log, lead, prev, entries, i);
    }
  }

  /** Conflicting or not, what is taken reaches beyond everything the two logs share. */
  lemma SharedPrefixIsShort(log: seq<Entry>, lead: seq<Entry>, prev: nat, entries: seq<Entry>, i: nat)
    requires IsStretch(lead, prev, entries) && |entries| > 0 && NonStale(log, prev, entries) && Agree(log, lead, i)
    ensures i <= prev + |entries|
  {
    if Conflicts(log, prev, entries) {
      var j :| prev < j <= prev + |entries| && j < |log| && log[j].term != entries[j - prev - 1].term;
      assert lead[j] == entries[j - prev - 1];
      forall k | 0 <= k <= i ensures log[k] == lead[k] {
        assert log[..i + 1][k] == lead[..i + 1][k];
      }
    }
  }

  lemma AcceptKeepsAckers(p: Proto, p': Proto, v: nat, prev: nat, entries: seq<Entry>)
    requires NodesOk(p) && ReignsOk(p) && LogsMatch(p) && AcksOk(p) && AckersHold(p) && LeadersHold(p)
    requires CanAccept(p, v, prev, entries)
    requires NonStale(p.nodes[v].log, prev, entries) && p' == Accept(p, v, prev, entries) && Later(p, p')
    ensures AckersHold(p')
  {
    var t := p.nodes[v].term;
    forall a | a in p'.acks && Created(p', a.term, a.index) && a.node in p'.nodes
      ensures Has(p'.nodes[a.node].log, a.index, a.term) || Blocked(p', a.term, a.index)
    {
      assert Created(p, a.term, a.index);
      if a !in p.acks {
        OverwrittenIsPrefix(p, v, prev, entries);
        var log := Overwritten(p.nodes[v].log, prev, entries);
        assert log[a.index] == p.reigns[t].log[..prev + 1 + |entries|][a.index] by {
          assert |entries| == 0 ==> log[a.index] == log[..prev + 1][a.index];
        }
      } else if Blocked(p, a.term, a.index) {
        BlockedStays(p, p', a.term, a.index);
      } else if a.node == v {
        assert AckOk(p, a);
        SharedEntrySurvives(p, v, prev, entries, a.index, a.term);
      }
    }
  }

  lemma AcceptIsLater(p: Proto, p': Proto, v: nat, prev: nat, entries: seq<Entry>)
    requires v in p.nodes && p' == Accept(p, v, prev, entries)
    ensures Later(p, p')
  {
  }

  lemma AcceptKeepsCandidates(p: Proto, p': Proto, v: nat, prev: nat, entries: seq<Entry>)
    requires VotesOk(p) && AcksOk(p) && CandidatesHold(p) && v in p.nodes && p.nodes[v].role == Follower
    requires p' == Accept(p, v, prev, entries) && Later(p, p')
    ensures CandidatesHold(p')
  {
    CandidatesStillHold(p, p');
  }

  lemma AcceptKeepsComplete(p: Proto, v: nat, prev: nat, entries: seq<Entry>)
    requires Basic(p) && Complete(p) && CanAccept(p, v, prev, entries) && NonStale(p.nodes[v].log, prev, entries)
    ensures Complete(Accept(p, v, prev, entries))
  {
    var p' := Accept(p, v, prev, entries);
    AcceptIsLater(p, p', v, prev, entries);
    AcceptKeepsAckers(p, p', v, prev, entries);
    AcceptKeepsCandidates(p, p', v, prev, entries);
    LeadersStillHold(p, p');
  }
}
