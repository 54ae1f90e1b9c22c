/**
 * The failover monitor of cluster/sentinel_mode.go and cluster/master_slave_mode.go, which are the
 * same state machine. A tick probes every node; the outcome of the probes and the clock are inputs.
 */
module Failover {
  import opened Bytes
  import opened Collections

  /** A node is known by a number; the constructors only keep nodes they could connect to. */
  type Node = nat

  /** `since` is the first failed probe of the current master; None while it answers. */
  datatype Group = Group(master: Node, replicas: seq<Node>, healthy: set<Node>, since: Option<nat>)

  /** One health check: the nodes that answered, and the time. */
  datatype Tick = Tick(up: set<Node>, now: nat)

  function Members(g: Group): seq<Node> {
    [g.master] + g.replicas
  }

  function Nodes(s: seq<Node>): set<Node> {
    set n | n in s
  }

  // ---- One tick ----

  /** The first replica that is up; |s| if there is none. */
  function FirstUp(s: seq<Node>, up: set<Node>): (i: nat)
    ensures i <= |s| && (i < |s| ==> s[i] in up) && forall j | 0 <= j < i :: s[j] !in up
  {
    if s == [] || s[0] in up then 0 else 1 + FirstUp(s[1..], up)
  }

  function Probed(g: Group, t: Tick): set<Node> {
    (g.healthy - Nodes(g.replicas) - {g.master}) + (Nodes(Members(g)) * t.up)
  }

  function Promote(g: Group, i: nat): Group
    requires i < |g.replicas|
  {
    Group(g.replicas[i], g.replicas[..i] + g.replicas[i + 1..] + [g.master], g.healthy - {g.master}, None)
  }

  function AfterTick(g: Group, t: Tick, timeout: nat): Group {
    var g1 := g.(healthy := Probed(g, t));
    if g.master in t.up then g1.(since := None)
    else if g.since == None then g1.(since := Some(t.now))
    else if t.now - g.since.value < timeout then g1
    else
      var i := FirstUp(g.replicas, t.up);
      if i < |g.replicas| then Promote(g1, i) else g1
  }

  /** The monitor object. */
  class Monitor {
    const timeout: nat
    var master: Node
    var replicas: seq<Node>
    var healthy: set<Node>
    var since: Option<nat>

    function State(): Group
      reads this
    {
      Group(master, replicas, healthy, since)
    }

    predicate Valid()
      reads this
    {
      NoDup(Members(State()))
    }

    constructor (timeout: nat, master: Node, replicas: seq<Node>)
      requires NoDup([master] + replicas)
      ensures Valid() && State() == Group(master, replicas, Nodes([master] + replicas), None) && this.timeout == timeout
    {
      this.timeout, this.master, this.replicas := timeout, master, replicas;
      this.healthy, this.since := Nodes([master] + replicas), None;
    }

    method ProbeReplicas(t: Tick)
      modifies this`healthy
      ensures healthy == (old(healthy) - Nodes(replicas)) + (Nodes(replicas) * t.up)
    {
      for i := 0 to |replicas|
        invariant healthy == (old(healthy) - Nodes(replicas[..i])) + (Nodes(replicas[..i]) * t.up)
      {
        assert Nodes(replicas[..i + 1]) == Nodes(replicas[..i]) + {replicas[i]};
        healthy := if replicas[i] in t.up then healthy + {replicas[i]} else healthy - {replicas[i]};
      }
      assert replicas[..|replicas|] == replicas;
    }

    method TryFailover()
      requires Valid()
      modifies this
      ensures
        var i := FirstUp(old(replicas), old(healthy));
        State() == if old(master in healthy) || i == |old(replicas)| then old(State()) else Promote(old(State()), i)
    {
      if master in healthy {
        return;
      }
      var i := 0;
      while i < |replicas| && (replicas[i] == master || replicas[i] !in healthy)
        invariant 0 <= i <= |replicas| && forall j | 0 <= j < i :: replicas[j] !in healthy
      {
        assert Members(State())[i + 1] == replicas[i];
        i := i + 1;
      }
      FirstUpIs(replicas, healthy, i);
      if i == |replicas| {
        return;
      }
      var best, demoted := replicas[i], master;
      master := best;
      since := None;
      replicas := replicas[..i] + replicas[i + 1..];
      healthy := healthy - {demoted};
      replicas := replicas + [demoted];
    }

    method CheckAndFailover(t: Tick)
      requires Valid()
      modifies this
      ensures Valid() && State() == AfterTick(old(State()), t, timeout)
    {
      ghost var before := State();
      TickKeepsMembers(before, t, timeout);
      ProbeReplicas(t);
      assert Nodes(Members(before)) == Nodes(replicas) + {master};
      if master in t.up {
        healthy := healthy + {master};
        assert healthy == Probed(before, t);
        since := None;
        return;
      }
      healthy := healthy - {master};
      assert healthy == Probed(before, t);
      if since == None {
        since := Some(t.now);
        return;
      }
      if t.now - since.value >= timeout {
        SameFirstUp(replicas, healthy, t.up);
        TryFailover();
      }
    }
  }

  lemma {:induction false} FirstUpIs(s: seq<Node>, up: set<Node>, i: nat)
    requires i <= |s| && (i < |s| ==> s[i] in up) && forall j | 0 <= j < i :: s[j] !in up
    ensures FirstUp(s, up) == i
  {
  }

  lemma {:induction false} SameFirstUp(s: seq<Node>, a: set<Node>, b: set<Node>)
    requires forall n | n in s :: n in a <==> n in b
    ensures FirstUp(s, a) == FirstUp(s, b)
  {
    FirstUpIs(s, a, FirstUp(s, b));
  }

  // ---- Conservation ----

  lemma PromoteKeepsMembers(g: Group, i: nat)
    requires i < |g.replicas|
    ensures multiset(Members(Promote(g, i))) == multiset(Members(g))
  {
    var r := g.replicas;
    assert r == r[..i] + [r[i]] + r[i + 1..];
    assert Members(g) == [g.master] + r[..i] + [r[i]] + r[i + 1..];
    assert Members(Promote(g, i)) == [r[i]] + r[..i] + r[i + 1..] + [g.master];
  }

  lemma OnceIfDistinct(s: seq<Node>, i: nat)
    requires NoDup(s) && i < |s|
    ensures multiset(s)[s[i]] == 1
  {
    assert s == s[..i] + [s[i]] + s[i + 1..];
    assert s[i] !in s[..i] && s[i] !in s[i + 1..];
  }

  lemma TwiceIfRepeated(s: seq<Node>, i: nat, j: nat)
    requires i < j < |s| && s[i] == s[j]
    ensures multiset(s)[s[i]] >= 2
  {
    assert s == s[..i] + [s[i]] + s[i + 1..j] + [s[j]] + s[j + 1..];
  }

  lemma TickKeepsMembers(g: Group, t: Tick, timeout: nat)
    ensures multiset(Members(AfterTick(g, t, timeout))) == multiset(Members(g))
    ensures NoDup(Members(g)) ==> NoDup(Members(AfterTick(g, t, timeout)))
  {
    var g1 := g.(healthy := Probed(g, t));
    var i := FirstUp(g.replicas, t.up);
    if i < |g.replicas| {
      PromoteKeepsMembers(g1, i);
    }
    KeepsDistinct(Members(g), Members(AfterTick(g, t, timeout)));
  }

  lemma KeepsDistinct(a: seq<Node>, b: seq<Node>)
    requires multiset(a) == multiset(b)
    ensures NoDup(a) ==> NoDup(b)
  {
    if NoDup(a) {
      DistinctPermutation(a, b);
    }
  }

  lemma DistinctPermutation(a: seq<Node>, b: seq<Node>)
    requires multiset(a) == multiset(b) && NoDup(a)
    ensures NoDup(b)
  {
    forall i, j | 0 <= i < j < |b| ensures b[i] != b[j] {
      if b[i] == b[j] {
        TwiceIfRepeated(b, i, j);
        SameMembers(a, b, b[i]);
        var n :| 0 <= n < |a| && a[n] == b[i];
        OnceIfDistinct(a, n);
      }
    }
  }

  lemma SameMembers(a: seq<Node>, b: seq<Node>, n: Node)
    requires multiset(a) == multiset(b)
    ensures n in a <==> n in b
  {
    assert n in a <==> n in multiset(a);
    assert n in b <==> n in multiset(b);
  }

  // ---- Runs ----

  ghost predicate IsRun(gs: seq<Group>, ts: seq<Tick>, timeout: nat) {
    && |gs| == |ts| + 1 && NoDup(Members(gs[0])) && gs[0].since == None
    && (forall i | 0 <= i < |ts| :: gs[i + 1] == AfterTick(gs[i], ts[i], timeout))
    && forall i, j | 0 <= i < j < |ts| :: ts[i].now <= ts[j].now
  }

  /** In every run, master and replicas are the original nodes in some order, each once. */
  lemma {:induction false} MembersAreKept(gs: seq<Group>, ts: seq<Tick>, timeout: nat, i: nat)
    requires IsRun(gs, ts, timeout) && i <= |ts|
    ensures multiset(Members(gs[i])) == multiset(Members(gs[0])) && NoDup(Members(gs[i]))
  {
    if i > 0 {
      MembersAreKept(gs, ts, timeout, i - 1);
      TickKeepsMembers(gs[i - 1], ts[i - 1], timeout);
    }
  }

  /** From tick j to tick i one node was master throughout and answered none of its probes. */
  ghost predicate Failing(gs: seq<Group>, ts: seq<Tick>, j: nat, i: nat)
    requires j <= i < |ts| < |gs|
  {
    forall n | j <= n <= i :: gs[n].master == gs[i].master && gs[n].master !in ts[n].up
  }

  /** The clock of the monitor runs from the first failed probe of an unbroken series. */
  ghost predicate SinceStreak(gs: seq<Group>, ts: seq<Tick>, i: nat, j: nat)
    requires i <= |ts| < |gs|
  {
    && j < i && gs[i].since == Some(ts[j].now)
    && (forall n | j <= n < i :: gs[n].master == gs[i].master && gs[n].master !in ts[n].up)
    && (j > 0 ==> gs[j - 1].master != gs[j].master || gs[j - 1].master in ts[j - 1].up)
  }

  ghost predicate NoStreak(gs: seq<Group>, ts: seq<Tick>, i: nat)
    requires i <= |ts| < |gs|
  {
    gs[i].since == None && (i > 0 ==> gs[i - 1].master != gs[i].master || gs[i - 1].master in ts[i - 1].up)
  }

  lemma MasterChanges(g: Group, t: Tick, timeout: nat)
    requires NoDup(Members(g))
    ensures AfterTick(g, t, timeout).master != g.master <==>
              g.master !in t.up && g.since.Some? && t.now - g.since.value >= timeout && exists r | r in g.replicas :: r in t.up
  {
    var i := FirstUp(g.replicas, t.up);
    if i < |g.replicas| {
      assert Members(g)[i + 1] == g.replicas[i];
      assert g.replicas[i] in g.replicas;
    }
  }

  lemma {:induction false} ClockIsStreak(gs: seq<Group>, ts: seq<Tick>, timeout: nat, i: nat)
    requires IsRun(gs, ts, timeout) && i <= |ts|
    ensures NoStreak(gs, ts, i) || exists j: nat :: SinceStreak(gs, ts, i, j)
  {
    if i > 0 {
      ClockIsStreak(gs, ts, timeout, i - 1);
      MembersAreKept(gs, ts, timeout, i - 1);
      MasterChanges(gs[i - 1], ts[i - 1], timeout);
      assert gs[i] == AfterTick(gs[i - 1], ts[i - 1], timeout);
      if gs[i].since.Some? {
        if NoStreak(gs, ts, i - 1) {
          assert SinceStreak(gs, ts, i, i - 1);
        } else {
          var j: nat :| SinceStreak(gs, ts, i - 1, j);
          assert SinceStreak(gs, ts, i, j);
        }
      }
    }
  }

  lemma StreakReachesBack(gs: seq<Group>, ts: seq<Tick>, i: nat, j: nat, k: nat)
    requires i < |ts| < |gs| && SinceStreak(gs, ts, i, j) && k <= i && Failing(gs, ts, k, i)
    ensures j <= k
  {
  }

  lemma {:induction false} SinceIffFailing(gs: seq<Group>, ts: seq<Tick>, timeout: nat, i: nat)
    requires IsRun(gs, ts, timeout) && i < |ts| && gs[i].master !in ts[i].up
    ensures gs[i].since.Some? && ts[i].now - gs[i].since.value >= timeout <==>
              exists j: nat :: j < i && Failing(gs, ts, j, i) && ts[i].now - ts[j].now >= timeout
  {
    ClockIsStreak(gs, ts, timeout, i);
    if j: nat :| SinceStreak(gs, ts, i, j) {
      assert Failing(gs, ts, j, i);
      if k: nat :| k < i && Failing(gs, ts, k, i) && ts[i].now - ts[k].now >= timeout {
        StreakReachesBack(gs, ts, i, j, k);
        assert ts[j].now <= ts[k].now;
      }
    } else {
      forall k: nat | k < i ensures !Failing(gs, ts, k, i) {
        assert k <= i - 1 <= i;
      }
    }
  }

  /**
   * In every run the master is replaced exactly when it has failed every probe for at least the
   * timeout, counted from an earlier tick, and some replica answers in the same tick.
   */
  lemma FailoverIff(gs: seq<Group>, ts: seq<Tick>, timeout: nat, i: nat)
    requires IsRun(gs, ts, timeout) && i < |ts|
    ensures gs[i + 1].master != gs[i].master <==>
              && (exists j: nat :: j < i && Failing(gs, ts, j, i) && ts[i].now - ts[j].now >= timeout)
              && exists r | r in gs[i].replicas :: r in ts[i].up
  {
    MembersAreKept(gs, ts, timeout, i);
    MasterChanges(gs[i], ts[i], timeout);
    if gs[i].master !in ts[i].up {
      SinceIffFailing(gs, ts, timeout, i);
    } else {
      forall j: nat | j < i ensures !Failing(gs, ts, j, i) {
        assert j <= i <= i;
      }
    }
  }

  /** The promoted node answered its probe in that tick, and no replica listed before it did. */
  lemma PromotedIsFirstUp(gs: seq<Group>, ts: seq<Tick>, timeout: nat, i: nat)
    requires IsRun(gs, ts, timeout) && i < |ts| && gs[i + 1].master != gs[i].master
    ensures gs[i + 1].master in ts[i].up && gs[i + 1].master in gs[i].replicas
    ensures exists n :: 0 <= n < |gs[i].replicas| && gs[i].replicas[n] == gs[i + 1].master
                        && forall j | 0 <= j < n :: gs[i].replicas[j] !in ts[i].up
  {
    assert gs[i + 1] == AfterTick(gs[i], ts[i], timeout);
    var n := FirstUp(gs[i].replicas, ts[i].up);
    assert gs[i].replicas[n] == gs[i + 1].master;
  }

  lemma MembersDiffer(g: Group)
    requires NoDup(Members(g))
    ensures NoDup(g.replicas) && g.master !in g.replicas
  {
    assert forall n | 0 <= n < |g.replicas| :: g.replicas[n] == Members(g)[n + 1];
    assert Members(g)[0] == g.master;
  }

  /**
   * In every run the list of replicas keeps its order: when the master is replaced, the new one leaves
   * its place in the list and the old one goes to the end; otherwise nothing moves.
   */
  lemma ReplicasKeepTheirOrder(gs: seq<Group>, ts: seq<Tick>, timeout: nat, i: nat)
    requires IsRun(gs, ts, timeout) && i < |ts|
    ensures gs[i + 1].master == gs[i].master ==> gs[i + 1].replicas == gs[i].replicas
    ensures gs[i + 1].master != gs[i].master ==>
              forall n | 0 <= n < |gs[i].replicas| && gs[i].replicas[n] == gs[i + 1].master ::
                gs[i + 1].replicas == gs[i].replicas[..n] + gs[i].replicas[n + 1..] + [gs[i].master]
  {
    var rs := gs[i].replicas;
    assert gs[i + 1] == AfterTick(gs[i], ts[i], timeout);
    MembersAreKept(gs, ts, timeout, i);
    MembersDiffer(gs[i]);
    var first := FirstUp(rs, ts[i].up);
    if gs[i + 1].master != gs[i].master {
      assert gs[i + 1].master == rs[first];
      assert forall n | 0 <= n < |rs| && n != first :: rs[n] != rs[first];
    }
  }

  lemma HealthAfterTick(g: Group, t: Tick, timeout: nat, n: Node)
    requires n in Members(g)
    ensures n in AfterTick(g, t, timeout).healthy <==> n in t.up
  {
    assert n in Probed(g, t) <==> n in t.up;
  }

  /** After a tick a node is marked healthy exactly if it answered in that tick. */
  lemma HealthIsCurrent(gs: seq<Group>, ts: seq<Tick>, timeout: nat, i: nat, n: Node)
    requires IsRun(gs, ts, timeout) && i < |ts| && n in Members(gs[i + 1])
    ensures n in gs[i + 1].healthy <==> n in ts[i].up
  {
    assert gs[i + 1] == AfterTick(gs[i], ts[i], timeout);
    TickKeepsMembers(gs[i], ts[i], timeout);
    SameMembers(Members(gs[i + 1]), Members(gs[i]), n);
    HealthAfterTick(gs[i], ts[i], timeout, n);
  }
}
