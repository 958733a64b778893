/** Each piece of a handler keeps a node good, with the protocol actions it stands for. */
module NodeSteps {
  import opened RaftTypes
  import opened NodeSpec
  import opened Cluster
  import opened Replication
  import LogView
  import opened Protocol
  import opened Actions
  import opened ClusterInv
  import Majority

  /** Nothing that was saved is silently changed. */
  ghost predicate Saves(x: Node, y: Node) {
    !y.dirty ==> !x.dirty && y.term == x.term && y.votedFor == x.votedFor
  }

  ghost predicate Progress(g: Group, s: Proto, s': History, n: NodeId, x: Node, y: Node) {
    Good(g, s', n, y) && Grows(s, s', n) && x.log.snap <= y.log.snap && Saves(x, y)
  }

  lemma ProgressTrans(g: Group, a: Proto, b: Proto, c: History, n: NodeId, x: Node, y: Node, z: Node)
    requires Grows(a, b, n) && x.log.snap <= y.log.snap && Saves(x, y)
    requires Progress(g, b, c, n, y, z)
    ensures Progress(g, a, c, n, x, z)
  {
    GrowsTrans(a, b, c, n);
  }

  // ---------------------------------------------------------------- terms

  lemma AdvIsLocal(s: Proto, n: NodeId, t: nat)
    requires n in s.term && t > s.term[n]
    ensures Local(s, Adv(s, n, t), n)
  {
  }

  lemma AdvLocal(s: History, n: NodeId, t: nat) returns (s': History)
    requires n in s.term && t > s.term[n]
    ensures s' == Adv(s, n, t) && Grows(s, s', n)
  {
    AdvKeeps(s, n, t);
    AdvIsLocal(s, n, t);
    s' := Adv(s, n, t);
  }

  lemma Follows(g: Group, s: History, n: NodeId, x: Node, now: int, timeout: int, t: nat) returns (s': History)
    requires Good(g, s, n, x)
    ensures Progress(g, s, s', n, x, BecomeFollower(x, now, timeout, t))
  {
    var y := BecomeFollower(x, now, timeout, t);
    if t > x.term {
      s' := AdvLocal(s, n, t);
      assert (n, t) !in s.votes;
    } else {
      s' := s;
    }
    OutboxStable(g, s, s', n, x, y);
  }

  // ---------------------------------------------------------------- sending

  lemma Sends(g: Group, s: Proto, n: NodeId, x: Node, to: NodeId, a: Payload)
    requires OutboxOk(g, s, n, x) && n in g && g[n].self == n && to in g && to != n && !IsReply(a)
    requires MsgOk(s, x.log.snap, Message(n, to, a))
    ensures OutboxOk(g, s, n, Send(g[n], x, to, a))
  {
  }

  lemma {:induction false} Broadcasts(g: Group, s: Proto, n: NodeId, x: Node, pre: bool, k: nat)
    requires n in g && k <= |g[n].peers|
    requires OutboxOk(g, s, n, x)
    requires !pre ==> (n, x.term) in s.cand && s.cand[(n, x.term)] == x.log.hist
    ensures var y := BroadcastTo(g[n], x, pre, k);
            y == x.(outbox := y.outbox) && OutboxOk(g, s, n, y)
  {
    if k > 0 {
      Broadcasts(g, s, n, x, pre, k - 1);
      var y := BroadcastTo(g[n], x, pre, k - 1);
      var p := g[n].peers[k - 1];
      assert p in g[n].peers;
      Sends(g, s, n, y, p, VoteRequest(g[n], x, pre));
    }
  }

  lemma RequestCarries(x: Node, cfg: Config, next: nat)
    requires next > x.log.snap
    ensures var a := AppendRequest(cfg, x, next);
            Carries(x.log.hist, next - 1, a.prevTerm, a.entries)
  {
  }

  /** A leader's log is the log of its term, and it has accepted all of it. */
  ghost predicate Leads(s: Proto, n: NodeId, x: Node) {
    && x.role == Leader
    && x.term in s.lead && s.lead[x.term] == n
    && x.term in s.tlog && s.tlog[x.term] == x.log.hist
    && Acc(s, n, x.term) == |x.log.hist|
  }

  lemma LeaderLeads(g: Group, s: Proto, n: NodeId, x: Node)
    requires Domains(s) && LeaderHolds(s) && NodeOk(g, s, n, x) && x.role == Leader
    ensures Leads(s, n, x)
  {
    assert HoldsOwn(s, x.term);
  }

  ghost predicate SameButSent(x: Node, y: Node) {
    y == x.(lastSent := y.lastSent, outbox := y.outbox)
  }

  lemma Replicates(g: Group, s: Proto, n: NodeId, x: Node, p: NodeId)
    requires n in g && g[n].self == n && p in g && p != n
    requires OutboxOk(g, s, n, x) && Leads(s, n, x)
    ensures SameButSent(x, ReplicateTo(g[n], x, p)) && OutboxOk(g, s, n, ReplicateTo(g[n], x, p))
  {
    var next := NextIndex(x, p);
    if next <= x.log.snap {
      var z := x.(lastSent := x.lastSent[p := x.log.snap]);
      Sends(g, s, n, z, p, InstallSnapshot(x.term, n, SnapshotOf(x.log)));
    } else {
      var a := AppendRequest(g[n], x, next);
      RequestCarries(x, g[n], next);
      var sent := if a.entries == [] then next - 1 else a.entries[|a.entries| - 1].index;
      var z := x.(lastSent := x.lastSent[p := sent]);
      Sends(g, s, n, z, p, a);
    }
  }

  lemma {:induction false} ReplicatesFirst(g: Group, s: Proto, n: NodeId, x: Node, k: nat)
    requires n in g && k <= |g[n].peers|
    requires OutboxOk(g, s, n, x) && Leads(s, n, x)
    ensures SameButSent(x, ReplicateFirst(g[n], x, k)) && OutboxOk(g, s, n, ReplicateFirst(g[n], x, k))
  {
    if k > 0 {
      ReplicatesFirst(g, s, n, x, k - 1);
      var y := ReplicateFirst(g[n], x, k - 1);
      var p := g[n].peers[k - 1];
      assert p in g[n].peers;
      Replicates(g, s, n, y, p);
    }
  }

  lemma SentIsOk(g: Group, s: Proto, n: NodeId, x: Node, y: Node)
    requires NodeOk(g, s, n, x) && SameButSent(x, y) && OutboxOk(g, s, n, y)
    ensures NodeOk(g, s, n, y)
  {
  }

  lemma ReplicateKeeps(g: Group, s: Proto, n: NodeId, x: Node, p: NodeId)
    requires n in g && p in g && p != n
    requires NodeOk(g, s, n, x) && Leads(s, n, x)
    ensures SameButSent(x, ReplicateTo(g[n], x, p)) && NodeOk(g, s, n, ReplicateTo(g[n], x, p))
  {
    Replicates(g, s, n, x, p);
    SentIsOk(g, s, n, x, ReplicateTo(g[n], x, p));
  }

  lemma ReplicateAllKeeps(g: Group, s: Proto, n: NodeId, x: Node)
    requires n in g
    requires NodeOk(g, s, n, x) && Leads(s, n, x)
    ensures SameButSent(x, ReplicateAll(g[n], x)) && NodeOk(g, s, n, ReplicateAll(g[n], x))
  {
    ReplicatesFirst(g, s, n, x, |g[n].peers|);
    SentIsOk(g, s, n, x, ReplicateAll(g[n], x));
  }

  // ---------------------------------------------------------------- elections

  lemma VotesAreQuorum(g: Group, s: History, n: NodeId, x: Node)
    requires Setting(g, s) && n in g && NodeOk(g, s, n, x)
    requires x.role == Candidate && HasMajority(g[n], |x.votes|)
    ensures CanLead(s, n, x.votes)
  {
    Majority.ClusterSizeIsVoters(g, n);
    assert IsQuorum(s, x.votes);
    if x.term in s.lead {
      OneLeader(s, x.term, x.votes, n);
    }
  }

  lemma ElectIsLocal(s: Proto, n: NodeId, q: set<NodeId>)
    requires CanLead(s, n, q)
    ensures Local(s, Elect(s, n, q), n)
  {
  }

  lemma ElectLocal(s: History, n: NodeId, q: set<NodeId>) returns (s': History)
    requires CanLead(s, n, q)
    ensures s' == Elect(s, n, q) && Grows(s, s', n)
  {
    ElectKeeps(s, n, q);
    ElectIsLocal(s, n, q);
    s' := Elect(s, n, q);
  }

  lemma CrownedIsOk(g: Group, s: Proto, n: NodeId, x: Node, now: int)
    requires n in g && NodeOk(g, s, n, x) && x.role == Candidate && CanLead(s, n, x.votes)
    requires Extends(s, Elect(s, n, x.votes))
    ensures NodeOk(g, Elect(s, n, x.votes), n, Crowned(g[n], x, now))
    ensures Leads(Elect(s, n, x.votes), n, Crowned(g[n], x, now))
  {
    var s', y := Elect(s, n, x.votes), Crowned(g[n], x, now);
    OutboxStable(g, s, s', n, x, y);
    assert forall p :: MatchIndex(y, p) == 0;
  }

  lemma Leadership(g: Group, s: History, n: NodeId, x: Node, now: int) returns (s': History)
    requires Setting(g, s) && n in g && NodeOk(g, s, n, x)
    requires x.role == Candidate && HasMajority(g[n], |x.votes|)
    ensures Progress(g, s, s', n, x, BecomeLeader(g[n], x, now))
    ensures BecomeLeader(g[n], x, now).commit == x.commit
  {
    VotesAreQuorum(g, s, n, x);
    s' := ElectLocal(s, n, x.votes);
    CrownedIsOk(g, s, n, x, now);
    var y := Crowned(g[n], x, now);
    ReplicateAllKeeps(g, s', n, y);
  }

  lemma StandIsLocal(s: Proto, n: NodeId)
    requires n in s.term && n in s.log
    ensures Local(s, Stand(s, n), n)
  {
  }

  lemma StandLocal(s: History, n: NodeId) returns (s': History)
    requires n in s.term
    ensures s' == Stand(s, n) && Grows(s, s', n)
  {
    StandKeeps(s, n);
    StandIsLocal(s, n);
    s' := Stand(s, n);
  }

  lemma StandingIsOk(g: Group, s: Proto, n: NodeId, x: Node, now: int, timeout: int)
    requires Domains(s) && LeadOk(s)
    requires n in g && g[n].self == n && n in Voters(g) && NodeOk(g, s, n, x)
    requires Extends(s, Stand(s, n))
    ensures NodeOk(g, Stand(s, n), n, Standing(g[n], x, now, timeout))
  {
    var s', y := Stand(s, n), Standing(g[n], x, now, timeout);
    OutboxStable(g, s, s', n, x, y);
    assert y.term in s.lead ==> Elected(s, y.term);
  }

  lemma StandingBroadcast(g: Group, s: Proto, n: NodeId, y: Node)
    requires n in g && NodeOk(g, s, n, y) && y.role == Candidate
    ensures var z := BroadcastTo(g[n], y, false, |g[n].peers|);
            z == y.(outbox := z.outbox) && NodeOk(g, s, n, z)
  {
    Broadcasts(g, s, n, y, false, |g[n].peers|);
  }

  /** The candidate that is its own majority leads at once; any other one asks for votes. */
  lemma CandidacyOpens(g: Group, s: History, n: NodeId, y: Node, now: int) returns (s': History)
    requires Setting(g, s) && n in g && NodeOk(g, s, n, y) && y.role == Candidate && y.votes == {n}
    ensures var z := if HasMajority(g[n], 1) then BecomeLeader(g[n], y, now) else BroadcastTo(g[n], y, false, |g[n].peers|);
            Progress(g, s, s', n, y, z) && z.commit == y.commit
  {
    if HasMajority(g[n], 1) {
      s' := Leadership(g, s, n, y, now);
    } else {
      s' := s;
      GrowsRefl(s, n);
      StandingBroadcast(g, s, n, y);
    }
  }

  lemma Candidacy(g: Group, s: History, n: NodeId, x: Node, now: int, timeout: int) returns (s': History)
    requires Setting(g, s) && n in g && NodeOk(g, s, n, x) && n in Voters(g)
    ensures Progress(g, s, s', n, x, BecomeCandidate(g[n], x, now, timeout))
    ensures BecomeCandidate(g[n], x, now, timeout).commit == x.commit
  {
    var y := Standing(g[n], x, now, timeout);
    var t := StandLocal(s, n);
    StandingIsOk(g, s, n, x, now, timeout);
    s' := CandidacyOpens(g, t, n, y, now);
    ProgressTrans(g, s, t, s', n, x, y, BecomeCandidate(g[n], x, now, timeout));
  }

  lemma GrowsRefl(s: Proto, n: NodeId)
    ensures Grows(s, s, n)
  {
  }

  lemma ProbingIsOk(g: Group, s: Proto, n: NodeId, x: Node, now: int, timeout: int)
    requires n in g && n in Voters(g) && NodeOk(g, s, n, x)
    ensures NodeOk(g, s, n, Probing(g[n], x, now, timeout))
  {
  }

  lemma ProbesOk(g: Group, s: Proto, n: NodeId, y: Node)
    requires n in g && NodeOk(g, s, n, y) && y.role == PreCandidate
    ensures var z := BroadcastTo(g[n], y, true, |g[n].peers|);
            z == y.(outbox := z.outbox) && NodeOk(g, s, n, z)
  {
    Broadcasts(g, s, n, y, true, |g[n].peers|);
  }

  lemma PreCandidacy(g: Group, s: History, n: NodeId, x: Node, now: int, timeout: int) returns (s': History)
    requires Setting(g, s) && n in g && NodeOk(g, s, n, x) && n in Voters(g)
    ensures Progress(g, s, s', n, x, StartPreElection(g[n], x, now, timeout))
    ensures StartPreElection(g[n], x, now, timeout).commit == x.commit
  {
    var y := Probing(g[n], x, now, timeout);
    ProbingIsOk(g, s, n, x, now, timeout);
    if HasMajority(g[n], 1) {
      s' := Candidacy(g, s, n, y, now, timeout);
      GrowsRefl(s, n);
      ProgressTrans(g, s, s, s', n, x, y, BecomeCandidate(g[n], y, now, timeout));
    } else {
      s' := s;
      GrowsRefl(s, n);
      ProbesOk(g, s, n, y);
    }
  }
}
