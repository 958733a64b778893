/** What a node does not put off: commits, elections and pre-votes happen as soon as they can. */
module Progress {
  import opened RaftTypes
  import opened NodeSpec
  import opened Cluster
  import LogView
  import opened Protocol
  import opened ClusterInv
  import opened ClusterSteps
  import opened Majority
  import opened Safety

  // ---------------------------------------------------------------- commits

  lemma {:induction false} SamePeerMatches(cfg: Config, x: Node, y: Node, k: nat)
    requires k <= |cfg.peers| && y.matched == x.matched
    ensures PeerMatches(cfg, y, k) == PeerMatches(cfg, x, k)
  {
    if k > 0 {
      SamePeerMatches(cfg, x, y, k - 1);
    }
  }

  lemma SameAdvance(cfg: Config, x: Node, y: Node)
    requires y.matched == x.matched && y.log == x.log && y.term == x.term && y.commit == x.commit
    ensures AdvanceCommit(cfg, y).commit == AdvanceCommit(cfg, x).commit
  {
    SamePeerMatches(cfg, x, y, |cfg.peers|);
  }

  /** The commit index is what the leader computes from some earlier one and its present knowledge. */
  ghost predicate Advanced(cfg: Config, y: Node) {
    exists k: nat :: AdvancedFrom(cfg, y, k)
  }

  predicate AdvancedFrom(cfg: Config, y: Node, k: nat) {
    AdvanceCommit(cfg, y.(commit := k)).commit == y.commit
  }

  /** The leader goes on with what it knew, has just been elected, or has just looked for a commit. */
  ghost predicate LeadsOn(cfg: Config, x: Node, y: Node) {
    || (&& x.role == Leader && y.term == x.term && y.matched == x.matched && y.log.hist == x.log.hist
        && y.commit == x.commit && x.log.snap <= y.log.snap)
    || (y.log == x.log && (y.term > x.term || (y.term == x.term && x.role == Candidate)))
    || Advanced(cfg, y)
  }

  /** Only what was sent and to whom differs. */
  predicate SameKnowledge(x: Node, y: Node) {
    y == x.(lastSent := y.lastSent, outbox := y.outbox, transfer := y.transfer)
  }

  lemma {:induction false} ReplicateKnows(cfg: Config, x: Node, k: nat)
    requires k <= |cfg.peers|
    ensures SameKnowledge(x, ReplicateFirst(cfg, x, k))
  {
    if k > 0 {
      ReplicateKnows(cfg, x, k - 1);
    }
  }

  lemma AdvanceIsAdvanced(cfg: Config, z: Node, y: Node)
    requires SameKnowledge(AdvanceCommit(cfg, z), y)
    ensures Advanced(cfg, y)
  {
    var k := z.commit;
    SameAdvance(cfg, z, y.(commit := k));
    assert AdvancedFrom(cfg, y, k);
  }

  lemma ElectedLeadsOn(cfg: Config, x: Node, now: int, timeout: int)
    ensures BecomeLeader(cfg, x, now).log == x.log && BecomeLeader(cfg, x, now).term == x.term
    ensures BecomeCandidate(cfg, x, now, timeout).role == Leader ==>
              LeadsOn(cfg, x, BecomeCandidate(cfg, x, now, timeout))
  {
    ReplicateKnows(cfg, Crowned(cfg, x, now), |cfg.peers|);
    var z := Standing(cfg, x, now, timeout);
    ReplicateKnows(cfg, Crowned(cfg, z, now), |cfg.peers|);
    BroadcastRole(cfg, z, false, |cfg.peers|);
  }

  lemma {:induction false} BroadcastRole(cfg: Config, x: Node, pre: bool, k: nat)
    requires k <= |cfg.peers|
    ensures BroadcastTo(cfg, x, pre, k).role == x.role
  {
    if k > 0 {
      BroadcastRole(cfg, x, pre, k - 1);
    }
  }

  lemma PreElectionLeadsOn(cfg: Config, x: Node, now: int, timeout: int)
    ensures StartPreElection(cfg, x, now, timeout).role == Leader ==>
              LeadsOn(cfg, x, StartPreElection(cfg, x, now, timeout))
  {
    var z := Probing(cfg, x, now, timeout);
    BroadcastRole(cfg, z, true, |cfg.peers|);
    ElectedLeadsOn(cfg, z, now, timeout);
    if HasMajority(cfg, 1) {
      CandidateTerm(cfg, z, now, timeout);
    }
  }

  lemma CandidateTerm(cfg: Config, x: Node, now: int, timeout: int)
    ensures var y := BecomeCandidate(cfg, x, now, timeout); y.role == Leader ==> y.log == x.log && y.term > x.term
  {
    var z := Standing(cfg, x, now, timeout);
    ReplicateKnows(cfg, Crowned(cfg, z, now), |cfg.peers|);
    BroadcastRole(cfg, z, false, |cfg.peers|);
  }

  lemma TickLeadsOn(cfg: Config, x: Node, now: int, timeout: int)
    requires Tick(cfg, x, now, timeout).role == Leader
    ensures LeadsOn(cfg, x, Tick(cfg, x, now, timeout))
  {
    if x.started && x.role == Leader && now >= x.heartbeatDeadline {
      ReplicateKnows(cfg, x.(heartbeatDeadline := now + cfg.heartbeat), |cfg.peers|);
    } else if x.started && x.role != Leader {
      PreElectionLeadsOn(cfg, x, now, timeout);
    }
  }

  lemma VoteReplyLeadsOn(cfg: Config, x: Node, now: int, timeout: int, from: NodeId, r: Payload)
    requires r.RequestVoteReply? && OnRequestVoteReply(cfg, x, now, timeout, from, r).role == Leader
    ensures LeadsOn(cfg, x, OnRequestVoteReply(cfg, x, now, timeout, from, r))
  {
    var y := x.(votes := x.votes + {from});
    ElectedLeadsOn(cfg, y, now, timeout);
    CandidateTerm(cfg, y, now, timeout);
  }

  lemma AppendReplyLeadsOn(cfg: Config, x: Node, now: int, timeout: int, from: NodeId, r: Payload)
    requires r.AppendEntriesReply? && OnAppendEntriesReply(cfg, x, now, timeout, from, r).role == Leader
    ensures LeadsOn(cfg, x, OnAppendEntriesReply(cfg, x, now, timeout, from, r))
  {
    if x.role == Leader && r.term == x.term && r.success {
      AckLeadsOn(cfg, x, from);
    }
  }

  lemma AckLeadsOn(cfg: Config, x: Node, from: NodeId)
    ensures Advanced(cfg, MaybeTransferTo(cfg, AdvanceCommit(cfg, Credit(x, from)), from))
  {
    var z := AdvanceCommit(cfg, Credit(x, from));
    TransferKnows(cfg, z, from);
    AdvanceIsAdvanced(cfg, Credit(x, from), MaybeTransferTo(cfg, z, from));
  }

  lemma TransferKnows(cfg: Config, x: Node, p: NodeId)
    ensures SameKnowledge(x, MaybeTransferTo(cfg, x, p))
  {
  }

  lemma SnapshotReplyLeadsOn(cfg: Config, x: Node, now: int, timeout: int, from: NodeId, r: Payload)
    requires r.InstallSnapshotReply? && OnInstallSnapshotReply(cfg, x, now, timeout, from, r).role == Leader
    ensures LeadsOn(cfg, x, OnInstallSnapshotReply(cfg, x, now, timeout, from, r))
  {
    if r.term == x.term {
      AdvanceIsAdvanced(cfg, Credit(x, from), ReplicateTo(cfg, AdvanceCommit(cfg, Credit(x, from)), from));
    }
  }

  /** A request that leaves a leader a leader leaves it as it was. */
  lemma EntriesLeadOn(cfg: Config, x: Node, now: int, timeout: int, a: Payload)
    requires a.AppendEntries?
    ensures var y := OnAppendEntries(cfg, x, now, timeout, a).0; y.role == Leader ==> y == x
  {
    var z := FollowLeader(x, now, timeout, a.term, a.leader);
    assert z.role == Follower;
  }

  lemma SnapshotLeadsOn(cfg: Config, x: Node, now: int, timeout: int, a: Payload)
    requires a.InstallSnapshot?
    ensures var y := OnInstallSnapshot(cfg, x, now, timeout, a).0; y.role == Leader ==> y == x
  {
    var z := FollowLeader(x, now, timeout, a.term, a.leader);
    assert z.role == Follower;
  }

  lemma VoteRequestLeadsOn(cfg: Config, x: Node, now: int, timeout: int, a: Payload)
    requires a.RequestVote? && OnRequestVote(cfg, x, now, timeout, a).0.role == Leader
    ensures LeadsOn(cfg, x, OnRequestVote(cfg, x, now, timeout, a).0)
  {
  }

  lemma TimeoutLeadsOn(cfg: Config, x: Node, now: int, timeout: int, a: Payload)
    requires a.TimeoutNow? && OnTimeoutNow(cfg, x, now, timeout, a).role == Leader
    ensures LeadsOn(cfg, x, OnTimeoutNow(cfg, x, now, timeout, a))
  {
    CandidateTerm(cfg, if a.term > x.term then BecomeFollower(x, now, timeout, a.term) else x, now, timeout);
  }

  lemma DeliveryLeadsOn(g: Group, c: Cluster, e: Event)
    requires Enabled(g, c, e) && e.EDeliver? && After(g, c, e).role == Leader
    ensures LeadsOn(g[Actor(e)], c.nodes[Actor(e)], After(g, c, e))
  {
    var cfg, x, m := g[Actor(e)], c.nodes[Actor(e)], e.p.msg;
    match m.payload
    case RequestVote(_, _, _, _, _) => VoteRequestLeadsOn(cfg, x, e.now, e.timeout, m.payload);
    case AppendEntries(_, _, _, _, _, _, _) => EntriesLeadOn(cfg, x, e.now, e.timeout, m.payload);
    case InstallSnapshot(_, _, _) => SnapshotLeadsOn(cfg, x, e.now, e.timeout, m.payload);
    case RequestVoteReply(_, _) => VoteReplyLeadsOn(cfg, x, e.now, e.timeout, m.from, m.payload);
    case AppendEntriesReply(_, _, _) => AppendReplyLeadsOn(cfg, x, e.now, e.timeout, m.from, m.payload);
    case InstallSnapshotReply(_) => SnapshotReplyLeadsOn(cfg, x, e.now, e.timeout, m.from, m.payload);
    case TimeoutNow(_, _) => TimeoutLeadsOn(cfg, x, e.now, e.timeout, m.payload);
  }

  lemma ProposeLeadsOn(cfg: Config, x: Node, b: Batch)
    ensures Propose(cfg, x, b).Some? ==> Advanced(cfg, Propose(cfg, x, b).value)
  {
    var z := ReplicateAll(cfg, Proposed(x, b));
    AdvanceIsAdvanced(cfg, z, AdvanceCommit(cfg, z));
  }

  lemma HandoverLeadsOn(cfg: Config, x: Node, target: NodeId)
    requires TransferLeadership(cfg, x, target).Some?
    ensures LeadsOn(cfg, x, TransferLeadership(cfg, x, target).value)
  {
    TransferKnows(cfg, x.(transfer := Some(target)), target);
  }

  lemma CompactionLeadsOn(cfg: Config, x: Node, threshold: nat)
    requires x.role == Leader
    ensures LeadsOn(cfg, x, Compacted(x, threshold)) && LeadsOn(cfg, x, Flushed(x)) && LeadsOn(cfg, x, x)
  {
  }

  lemma CarrierLeadsOn(g: Group, c: Cluster, e: Event)
    requires Enabled(g, c, e) && (e.ETransfer? || e.EFlush? || e.ECompact? || e.ERestart?) && After(g, c, e).role == Leader
    ensures LeadsOn(g[Actor(e)], c.nodes[Actor(e)], After(g, c, e))
  {
    var cfg, x := g[Actor(e)], c.nodes[Actor(e)];
    assert x.role == Leader;
    CompactionLeadsOn(cfg, x, if e.ECompact? then e.threshold else 0);
    if e.ETransfer? && TransferLeadership(cfg, x, e.target).Some? {
      HandoverLeadsOn(cfg, x, e.target);
    }
  }

  lemma ProposalLeadsOn(g: Group, c: Cluster, e: Event)
    requires Enabled(g, c, e) && e.EPropose? && After(g, c, e).role == Leader
    ensures LeadsOn(g[Actor(e)], c.nodes[Actor(e)], After(g, c, e))
  {
    ProposeLeadsOn(g[Actor(e)], c.nodes[Actor(e)], e.batch);
  }

  lemma EventLeadsOn(g: Group, c: Cluster, e: Event)
    requires Enabled(g, c, e) && After(g, c, e).role == Leader
    ensures LeadsOn(g[Actor(e)], c.nodes[Actor(e)], After(g, c, e))
  {
    match e
    case ETick(n, now, timeout) => TickLeadsOn(g[n], c.nodes[n], now, timeout);
    case EDeliver(_, _, _) => DeliveryLeadsOn(g, c, e);
    case EPropose(_, _) => ProposalLeadsOn(g, c, e);
    case _ => CarrierLeadsOn(g, c, e);
  }

  // ---------------------------------------------------------------- what a leader owes, over runs

  /** Every index of its own term that a majority is known to hold is committed. */
  ghost predicate UpToSpeed(g: Group, n: NodeId, x: Node)
    requires n in g
  {
    x.role == Leader ==> forall c: nat | IsHeld(g, n, x, c) :: c <= x.commit
  }

  /** What the history says of a leader's log and of what it credits. */
  lemma LeaderIsOrderly(g: Group, s: History, c: Cluster, n: NodeId)
    requires CInv(g, s, c) && s.acked && IsLeader(c, n)
    ensures n in g && IsVoter(g[n], n) && TermsRise(c.nodes[n])
    ensures forall m :: MatchIndex(c.nodes[n], m) <= |c.nodes[n].log.hist|
  {
    var x := c.nodes[n];
    assert NodeOk(g, s, n, x);
    LeaderIsRecorded(g, s, c, n);
    LogIsRooted(g, s, c, n);
    LogRises(s, x);
    CreditIsBounded(s, x);
  }

  lemma LogRises(s: Proto, x: Node)
    requires TermLogs(s) && LogOk(s, x.log.hist, x.term)
    ensures TermsRise(x)
  {
    forall i, j | 0 <= i < j < |x.log.hist| ensures x.log.hist[i].term <= x.log.hist[j].term {
      TermsAscend(s, x.log.hist, x.term, i, j);
    }
  }

  lemma CreditIsBounded(s: Proto, x: Node)
    requires AccOk(s) && Credited(s, x) && s.acked && x.term in s.tlog && s.tlog[x.term] == x.log.hist
    ensures forall m :: MatchIndex(x, m) <= |x.log.hist|
  {
    forall m ensures MatchIndex(x, m) <= |x.log.hist| {
      assert Acc(s, m, x.term) <= |s.tlog[x.term]|;
    }
  }

  lemma GoingOn(g: Group, n: NodeId, x: Node, y: Node)
    requires n in g && UpToSpeed(g, n, x) && x.role == Leader && y.term == x.term && y.matched == x.matched
    requires y.log.hist == x.log.hist && y.commit == x.commit && x.log.snap <= y.log.snap
    ensures UpToSpeed(g, n, y)
  {
    forall c: nat | IsHeld(g, n, y, c) ensures c <= y.commit {
      assert Backers(g, n, y, c) == Backers(g, n, x, c);
      assert IsHeld(g, n, x, c);
    }
  }

  lemma NewlyElected(g: Group, s: History, c: Cluster, n: NodeId, y: Node)
    requires CInv(g, s, c) && n in c.nodes && n in g
    requires y.log == c.nodes[n].log
    requires y.term > c.nodes[n].term || (y.term == c.nodes[n].term && c.nodes[n].role == Candidate)
    ensures UpToSpeed(g, n, y)
  {
    var x := c.nodes[n];
    assert NodeOk(g, s, n, x);
    LogIsRooted(g, s, c, n);
    if x.role == Candidate {
      assert LogOk(s, s.cand[(n, x.term)], x.term - 1);
    }
    forall i | 0 <= i < |y.log.hist| ensures y.log.hist[i].term < y.term {
    }
  }

  lemma JustAdvanced(g: Group, n: NodeId, y: Node, k: nat)
    requires n in g && IsVoter(g[n], n) && TermsRise(y) && forall m :: MatchIndex(y, m) <= |y.log.hist|
    requires AdvancedFrom(g[n], y, k)
    ensures UpToSpeed(g, n, y)
  {
    var z := y.(commit := k);
    forall c: nat | IsHeld(g, n, y, c) ensures c <= y.commit {
      assert Backers(g, n, z, c) == Backers(g, n, y, c);
      assert forall m :: MatchIndex(z, m) == MatchIndex(y, m);
      HeldIsCommitted(g, n, z, c);
    }
  }

  lemma LeaderStaysUpToSpeed(g: Group, s: History, c: Cluster, n: NodeId, y: Node)
    requires CInv(g, s, c) && n in c.nodes && n in g && UpToSpeed(g, n, c.nodes[n])
    requires LeadsOn(g[n], c.nodes[n], y) && IsVoter(g[n], n) && TermsRise(y)
    requires forall m :: MatchIndex(y, m) <= |y.log.hist|
    ensures UpToSpeed(g, n, y)
  {
    var x := c.nodes[n];
    if Advanced(g[n], y) {
      var k: nat :| AdvancedFrom(g[n], y, k);
      JustAdvanced(g, n, y, k);
    } else if y.log == x.log && (y.term > x.term || (y.term == x.term && x.role == Candidate)) {
      NewlyElected(g, s, c, n, y);
    } else {
      GoingOn(g, n, x, y);
    }
  }

  lemma StaysUpToSpeed(g: Group, s: History, s': History, c: Cluster, c': Cluster, e: Event, n: NodeId)
    requires CInv(g, s, c) && Enabled(g, c, e) && c'.nodes == c.nodes[Actor(e) := After(g, c, e)]
    requires CInv(g, s', c') && s'.acked && n in c.nodes && n in g && UpToSpeed(g, n, c.nodes[n])
    ensures UpToSpeed(g, n, c'.nodes[n])
  {
    if n == Actor(e) && After(g, c, e).role == Leader {
      EventLeadsOn(g, c, e);
      ActorStaysUpToSpeed(g, s, s', c, c', n, After(g, c, e));
    }
  }

  lemma ActorStaysUpToSpeed(g: Group, s: History, s': History, c: Cluster, c': Cluster, n: NodeId, y: Node)
    requires CInv(g, s, c) && n in c.nodes && n in g && UpToSpeed(g, n, c.nodes[n])
    requires CInv(g, s', c') && s'.acked && n in c'.nodes && c'.nodes[n] == y
    requires y.role == Leader && LeadsOn(g[n], c.nodes[n], y)
    ensures UpToSpeed(g, n, y)
  {
    LeaderIsOrderly(g, s', c', n);
    LeaderStaysUpToSpeed(g, s, c, n, y);
  }

  lemma {:induction false} LeadersAreUpToSpeed(g: Group, cs: seq<Cluster>, es: seq<Event>, i: nat, n: NodeId)
    requires AckedRun(g, cs, es) && i < |cs| && n in g
    ensures n in cs[i].nodes && UpToSpeed(g, n, cs[i].nodes[n])
  {
    if i > 0 {
      LeadersAreUpToSpeed(g, cs, es, i - 1, n);
      var s, t := TwoMoments(g, cs, es, i - 1, i);
      assert cs[(i - 1) + 1] == Next(g, cs[i - 1], es[i - 1]);
      StaysUpToSpeed(g, s, t, cs[i - 1], cs[i], es[i - 1], n);
    }
  }

  /**
    At every moment a leader has committed every index of its own term that it knows a majority of the
    voters to hold: no commit is ever missed.
   */
  lemma HeldByMajorityIsCommitted(g: Group, cs: seq<Cluster>, es: seq<Event>, i: nat, n: NodeId, c: nat)
    requires AckedRun(g, cs, es) && i < |cs| && n in g && IsLeader(cs[i], n) && IsHeld(g, n, cs[i].nodes[n], c)
    ensures c <= cs[i].nodes[n].commit
  {
    LeadersAreUpToSpeed(g, cs, es, i, n);
  }

  // ---------------------------------------------------------------- elections

  /** A granted vote of the term wins the election exactly when it completes a majority of the voters. */
  lemma VoteWinsWithMajority(g: Group, n: NodeId, x: Node, now: int, timeout: int, from: NodeId)
    requires n in g && x.role == Candidate && IsVoter(g[n], from)
    ensures var y := OnRequestVoteReply(g[n], x, now, timeout, from, RequestVoteReply(x.term, true));
            && (y.role == Leader <==> 2 * |x.votes + {from}| > |Voters(g)|)
            && (y.role != Leader ==> y == x.(votes := x.votes + {from}))
            && y.term == x.term && y.log == x.log
  {
    ClusterSizeIsVoters(g, n);
    ElectedLeadsOn(g[n], x.(votes := x.votes + {from}), now, timeout);
    LeaderRole(g[n], x.(votes := x.votes + {from}), now);
  }

  lemma LeaderRole(cfg: Config, x: Node, now: int)
    ensures BecomeLeader(cfg, x, now).role == Leader
  {
    ReplicateKnows(cfg, Crowned(cfg, x, now), |cfg.peers|);
  }

  /** The same for pre-votes, and what they win is a candidacy in the next term. */
  lemma PreVoteWinsWithMajority(g: Group, n: NodeId, x: Node, now: int, timeout: int, from: NodeId)
    requires n in g && x.role == PreCandidate && IsVoter(g[n], from)
    ensures var y := OnRequestVoteReply(g[n], x, now, timeout, from, RequestVoteReply(x.term, true));
            && (y.role != PreCandidate <==> 2 * |x.votes + {from}| > |Voters(g)|)
            && (y.role != PreCandidate ==> y.term == x.term + 1 && y.votedFor == Some(n) && y.votes == {n})
            && (y.role == PreCandidate ==> y == x.(votes := x.votes + {from}))
  {
    ClusterSizeIsVoters(g, n);
    CandidacyIs(g[n], x.(votes := x.votes + {from}), now, timeout);
  }

  lemma CandidacyIs(cfg: Config, x: Node, now: int, timeout: int)
    ensures var y := BecomeCandidate(cfg, x, now, timeout);
            && (y.role == Candidate || y.role == Leader) && y.term == x.term + 1
            && y.votedFor == Some(cfg.self) && y.votes == {cfg.self} && y.leaderContact == x.leaderContact
  {
    var z := Standing(cfg, x, now, timeout);
    ReplicateKnows(cfg, Crowned(cfg, z, now), |cfg.peers|);
    BroadcastKeeps(cfg, z, false, |cfg.peers|);
  }

  lemma {:induction false} BroadcastKeeps(cfg: Config, x: Node, pre: bool, k: nat)
    requires k <= |cfg.peers|
    ensures var y := BroadcastTo(cfg, x, pre, k); y == x.(outbox := y.outbox)
  {
    if k > 0 {
      BroadcastKeeps(cfg, x, pre, k - 1);
    }
  }

  // ---------------------------------------------------------------- pre-votes

  /** The event brings node `n` a request of a leader it accepts. */
  predicate Hears(c: Cluster, e: Event, n: NodeId) {
    && e.EDeliver? && e.p.msg.to == n && n in c.nodes
    && (e.p.msg.payload.AppendEntries? || e.p.msg.payload.InstallSnapshot?)
    && e.p.msg.payload.term >= c.nodes[n].term
  }

  /** When node `n` last heard from a leader since it was started, 0 if it has not. */
  function LastContact(cs: seq<Cluster>, es: seq<Event>, n: NodeId, k: nat): int
    requires k <= |es| < |cs|
  {
    if k == 0 then 0
    else if es[k - 1].ERestart? && es[k - 1].n == n then 0
    else if Hears(cs[k - 1], es[k - 1], n) then es[k - 1].now
    else LastContact(cs, es, n, k - 1)
  }

  lemma ProbeContact(cfg: Config, x: Node, now: int, timeout: int)
    ensures StartPreElection(cfg, x, now, timeout).leaderContact == x.leaderContact
  {
    var z := Probing(cfg, x, now, timeout);
    BroadcastKeeps(cfg, z, true, |cfg.peers|);
    CandidacyIs(cfg, z, now, timeout);
  }

  lemma TickContact(cfg: Config, x: Node, now: int, timeout: int)
    ensures Tick(cfg, x, now, timeout).leaderContact == x.leaderContact
  {
    ReplicateKnows(cfg, x.(heartbeatDeadline := now + cfg.heartbeat), |cfg.peers|);
    ProbeContact(cfg, x, now, timeout);
  }

  lemma VoteReplyContact(cfg: Config, x: Node, now: int, timeout: int, from: NodeId, r: Payload)
    requires r.RequestVoteReply?
    ensures OnRequestVoteReply(cfg, x, now, timeout, from, r).leaderContact == x.leaderContact
  {
    var y := x.(votes := x.votes + {from});
    CandidacyIs(cfg, y, now, timeout);
    ReplicateKnows(cfg, Crowned(cfg, y, now), |cfg.peers|);
  }

  lemma TimeoutContact(cfg: Config, x: Node, now: int, timeout: int, a: Payload)
    requires a.TimeoutNow?
    ensures OnTimeoutNow(cfg, x, now, timeout, a).leaderContact == x.leaderContact
  {
    CandidacyIs(cfg, if a.term > x.term then BecomeFollower(x, now, timeout, a.term) else x, now, timeout);
  }

  lemma EntriesContact(cfg: Config, x: Node, now: int, timeout: int, a: Payload)
    requires a.AppendEntries?
    ensures OnAppendEntries(cfg, x, now, timeout, a).0.leaderContact == if a.term >= x.term then now else x.leaderContact
  {
    var z := FollowLeader(x, now, timeout, a.term, a.leader);
    assert z.leaderContact == now;
  }

  lemma SnapshotContact(cfg: Config, x: Node, now: int, timeout: int, a: Payload)
    requires a.InstallSnapshot?
    ensures OnInstallSnapshot(cfg, x, now, timeout, a).0.leaderContact ==
            if a.term >= x.term then now else x.leaderContact
  {
    var z := FollowLeader(x, now, timeout, a.term, a.leader);
    assert z.leaderContact == now;
  }

  lemma DeliveryContact(g: Group, c: Cluster, e: Event)
    requires Enabled(g, c, e) && e.EDeliver?
    ensures After(g, c, e).leaderContact == if Hears(c, e, Actor(e)) then e.now else c.nodes[Actor(e)].leaderContact
  {
    var cfg, x, m := g[Actor(e)], c.nodes[Actor(e)], e.p.msg;
    match m.payload
    case AppendEntries(_, _, _, _, _, _, _) => EntriesContact(cfg, x, e.now, e.timeout, m.payload);
    case InstallSnapshot(_, _, _) => SnapshotContact(cfg, x, e.now, e.timeout, m.payload);
    case RequestVoteReply(_, _) => VoteReplyContact(cfg, x, e.now, e.timeout, m.from, m.payload);
    case TimeoutNow(_, _) => TimeoutContact(cfg, x, e.now, e.timeout, m.payload);
    case RequestVote(_, _, _, _, _) =>
    case AppendEntriesReply(_, _, _) =>
    case InstallSnapshotReply(_) =>
  }

  lemma ProposeContact(cfg: Config, x: Node, b: Batch)
    requires Propose(cfg, x, b).Some?
    ensures Propose(cfg, x, b).value.leaderContact == x.leaderContact
  {
    ReplicateKnows(cfg, Proposed(x, b), |cfg.peers|);
  }

  lemma EventContact(g: Group, c: Cluster, e: Event)
    requires Enabled(g, c, e)
    ensures After(g, c, e).leaderContact ==
            if e.ERestart? then 0 else if Hears(c, e, Actor(e)) then e.now else c.nodes[Actor(e)].leaderContact
  {
    var cfg, x := g[Actor(e)], c.nodes[Actor(e)];
    match e
    case ETick(_, now, timeout) => TickContact(cfg, x, now, timeout);
    case EDeliver(_, _, _) => DeliveryContact(g, c, e);
    case EPropose(_, b) => if Propose(cfg, x, b).Some? { ProposeContact(cfg, x, b); }
    case _ =>
  }

  lemma {:induction false} ContactIsRemembered(g: Group, cs: seq<Cluster>, es: seq<Event>, n: NodeId, k: nat)
    requires Run(g, cs, es) && n in g && k <= |es|
    ensures n in cs[k].nodes && cs[k].nodes[n].leaderContact == LastContact(cs, es, n, k)
  {
    if k > 0 {
      ContactIsRemembered(g, cs, es, n, k - 1);
      assert cs[(k - 1) + 1] == Next(g, cs[k - 1], es[k - 1]);
      EventContact(g, cs[k - 1], es[k - 1]);
    }
  }

  /** The log whose last entry has this index and term is no older than `l`. */
  predicate NoOlder(lastIndex: nat, lastTerm: nat, l: Log) {
    lastTerm > Protocol.LastTerm(l) || (lastTerm == Protocol.LastTerm(l) && lastIndex >= |l|)
  }

  /**
    In every run a pre-vote is granted if and only if the candidate's term is no lower and its log no
    older, and the node asked neither leads nor has heard from a leader within the minimum election
    timeout; the node itself is left as it was.
   */
  lemma PreVoteIsGrantedIff(g: Group, cs: seq<Cluster>, es: seq<Event>, k: nat)
    requires Run(g, cs, es) && k < |es| && es[k].EDeliver?
    requires es[k].p.msg.payload.RequestVote? && es[k].p.msg.payload.preVote
    ensures var n, a, x := es[k].p.msg.to, es[k].p.msg.payload, cs[k].nodes[es[k].p.msg.to];
            var granted := && a.term >= x.term && x.role != Leader && NoOlder(a.lastIndex, a.lastTerm, x.log.hist)
                           && es[k].now - LastContact(cs, es, n, k) >= g[n].electionMin;
            && Packet(Message(n, es[k].p.msg.from, RequestVoteReply(x.term, granted)), AnswersPreVote) in cs[k + 1].net
            && n in cs[k + 1].nodes && cs[k + 1].nodes[n] == x
  {
    assert Enabled(g, cs[k], es[k]) && cs[k + 1] == Next(g, cs[k], es[k]);
    ContactIsRemembered(g, cs, es, es[k].p.msg.to, k);
  }

  /**
    In every run a vote is granted if and only if the request is of a later term, or of this one with no
    vote yet for another candidate, and the candidate's log is no older. A grant is recorded and puts off
    the node's own candidacy; a refusal leaves the log, and within a term the vote, as they were.
   */
  lemma VoteIsGrantedIff(g: Group, cs: seq<Cluster>, es: seq<Event>, k: nat)
    requires Run(g, cs, es) && k < |es| && es[k].EDeliver?
    requires es[k].p.msg.payload.RequestVote? && !es[k].p.msg.payload.preVote
    ensures var n, a, x := es[k].p.msg.to, es[k].p.msg.payload, cs[k].nodes[es[k].p.msg.to];
            var granted := && (a.term > x.term || (a.term == x.term && x.votedFor in {None, Some(a.candidate)}))
                           && NoOlder(a.lastIndex, a.lastTerm, x.log.hist);
            var t := if a.term > x.term then a.term else x.term;
            && Packet(Message(n, es[k].p.msg.from, RequestVoteReply(t, granted)), Plain) in cs[k + 1].net
            && n in cs[k + 1].nodes && cs[k + 1].nodes[n].term == t && cs[k + 1].nodes[n].log == x.log
            && (granted ==> cs[k + 1].nodes[n].votedFor == Some(a.candidate) &&
                            cs[k + 1].nodes[n].electionDeadline == es[k].now + es[k].timeout)
            && (!granted ==> cs[k + 1].nodes[n].votedFor == (if t > x.term then None else x.votedFor))
  {
    assert Enabled(g, cs[k], es[k]) && cs[k + 1] == Next(g, cs[k], es[k]);
  }

  // ---------------------------------------------------------------- who is sent what

  /** One message to each of the first `k` peers that vote, and no other. */
  predicate AskedFirst(cfg: Config, k: nat, a: Payload, news: seq<Message>) {
    && (forall m | m in news :: m.from == cfg.self && m.payload == a && IsVoter(cfg, m.to))
    && (forall i | 0 <= i < k && i < |cfg.peers| && IsVoter(cfg, cfg.peers[i]) :: Message(cfg.self, cfg.peers[i], a) in news)
    && (forall m | m in news :: m.to in cfg.peers)
    && |news| == CountVoters(cfg.peers[..if k <= |cfg.peers| then k else |cfg.peers|], cfg.learners)
  }

  lemma {:induction false} BroadcastAsks(cfg: Config, x: Node, pre: bool, k: nat) returns (news: seq<Message>)
    requires k <= |cfg.peers|
    ensures BroadcastTo(cfg, x, pre, k).outbox == x.outbox + news
    ensures AskedFirst(cfg, k, VoteRequest(cfg, x, pre), news)
  {
    if k == 0 {
      news := [];
    } else {
      var sent := BroadcastAsks(cfg, x, pre, k - 1);
      var p := cfg.peers[k - 1];
      assert cfg.peers[..k][..k - 1] == cfg.peers[..k - 1];
      news := if IsVoter(cfg, p) then sent + [Message(cfg.self, p, VoteRequest(cfg, x, pre))] else sent;
    }
  }

  /**
    Whoever starts an election asks every other voter of the group, once and with the same question, and
    nobody else: its own next term or, in the real election, its term, and where its log ends.
   */
  lemma ElectionAsksVoters(g: Group, n: NodeId, x: Node, pre: bool) returns (news: seq<Message>)
    requires n in g
    ensures BroadcastTo(g[n], x, pre, |g[n].peers|).outbox == x.outbox + news
    ensures forall m :: (exists q | q in news :: q.to == m) <==> m in Voters(g) - {n}
    ensures forall q | q in news ::
              q == Message(n, q.to, RequestVote(if pre then x.term + 1 else x.term, n, |x.log.hist|, Protocol.LastTerm(x.log.hist), pre))
    ensures |news| + (if n in Voters(g) then 1 else 0) == |Voters(g)|
  {
    var cfg := g[n];
    news := BroadcastAsks(cfg, x, pre, |cfg.peers|);
    assert cfg.peers[..|cfg.peers|] == cfg.peers;
    ClusterSizeIsVoters(g, n);
    forall m | m in Voters(g) - {n} ensures exists q | q in news :: q.to == m {
      var i :| 0 <= i < |cfg.peers| && cfg.peers[i] == m;
      assert Message(n, m, VoteRequest(cfg, x, pre)) in news;
    }
  }

  lemma ServesOne(cfg: Config, x: Node, p: NodeId) returns (m: Message)
    ensures ReplicateTo(cfg, x, p).outbox == x.outbox + [m] && m.to == p && m.from == cfg.self
  {
    var out := ReplicateTo(cfg, x, p).outbox;
    m := out[|out| - 1];
  }

  /** After `start`, one message for each of the first `k` peers, in order. */
  predicate Served(cfg: Config, start: seq<Message>, k: nat, out: seq<Message>) {
    && |out| == |start| + k && k <= |cfg.peers| && out[..|start|] == start
    && forall i | 0 <= i < k :: out[|start| + i].to == cfg.peers[i] && out[|start| + i].from == cfg.self
  }

  lemma ServedStep(cfg: Config, start: seq<Message>, k: nat, y: Node, z: Node)
    requires Served(cfg, start, k, y.outbox) && k < |cfg.peers| && z == ReplicateTo(cfg, y, cfg.peers[k])
    ensures Served(cfg, start, k + 1, z.outbox)
  {
    var m := ServesOne(cfg, y, cfg.peers[k]);
    ServedNext(cfg, start, k, y.outbox, m);
  }

  lemma NobodyServed(cfg: Config, x: Node, y: Node)
    requires y == ReplicateFirst(cfg, x, 0)
    ensures Served(cfg, x.outbox, 0, y.outbox)
  {
  }

  lemma {:induction false} EachIsServed(cfg: Config, x: Node, k: nat, y: Node)
    requires k <= |cfg.peers| && y == ReplicateFirst(cfg, x, k)
    ensures Served(cfg, x.outbox, k, y.outbox)
  {
    if k == 0 {
      NobodyServed(cfg, x, y);
    } else {
      var j := k - 1;
      var z := ReplicateFirst(cfg, x, j);
      EachIsServed(cfg, x, j, z);
      NextPeer(cfg, x, j, z);
      ServedStep(cfg, x.outbox, j, z, y);
    }
  }

  lemma ServedNext(cfg: Config, start: seq<Message>, k: nat, out: seq<Message>, m: Message)
    requires Served(cfg, start, k, out) && k < |cfg.peers| && m.to == cfg.peers[k] && m.from == cfg.self
    ensures Served(cfg, start, k + 1, out + [m])
  {
  }

  /** A leader whose heartbeat is due serves every peer once, in order; before that it sends nothing. */
  lemma HeartbeatServesAll(g: Group, n: NodeId, x: Node, now: int, timeout: int)
    requires n in g && x.role == Leader && x.started
    ensures var y := Tick(g[n], x, now, timeout);
            if now >= x.heartbeatDeadline
            then Served(g[n], x.outbox, |g[n].peers|, y.outbox) && y.heartbeatDeadline == now + g[n].heartbeat
            else y == x
  {
    var z := x.(heartbeatDeadline := now + g[n].heartbeat);
    EachIsServed(g[n], z, |g[n].peers|, ReplicateAll(g[n], z));
    ReplicateKnows(g[n], z, |g[n].peers|);
  }

  /** Any other voter whose deadline has passed starts a pre-election; a learner never does. */
  lemma DeadlineStartsElection(g: Group, n: NodeId, x: Node, now: int, timeout: int)
    requires n in g && x.role != Leader && x.started
    ensures var y := Tick(g[n], x, now, timeout);
            if now >= x.electionDeadline && n in Voters(g)
            then && (if |Voters(g)| > 1 then y.role == PreCandidate && y.term == x.term
                     else y.role == Leader && y.term == x.term + 1)
                 && y.votes == {n} && y.electionDeadline == now + timeout
            else y == x
  {
    var cfg := g[n];
    ClusterSizeIsVoters(g, n);
    var z := Probing(cfg, x, now, timeout);
    BroadcastKeeps(cfg, z, true, |cfg.peers|);
    if HasMajority(cfg, 1) {
      CandidacyAlone(cfg, z, now, timeout);
    }
  }

  lemma CandidacyAlone(cfg: Config, x: Node, now: int, timeout: int)
    requires HasMajority(cfg, 1)
    ensures var y := BecomeCandidate(cfg, x, now, timeout);
            y.role == Leader && y.term == x.term + 1 && y.votes == {cfg.self} && y.electionDeadline == now + timeout
  {
    var z := Standing(cfg, x, now, timeout);
    ReplicateKnows(cfg, Crowned(cfg, z, now), |cfg.peers|);
  }

  // ---------------------------------------------------------------- handing over

  /**
    A pending transfer is carried out by the acknowledgement that shows the target to hold the leader's
    whole log, and by no earlier one: until then the target is served and the transfer stays pending.
   */
  lemma TransferWaitsForTarget(g: Group, n: NodeId, x: Node, now: int, timeout: int, from: NodeId)
    requires n in g && x.role == Leader && x.transfer == Some(from)
    ensures var y := OnAppendEntriesReply(g[n], x, now, timeout, from, AppendEntriesReply(x.term, true, 0));
            var held := if MatchIndex(x, from) > LastSent(x, from) then MatchIndex(x, from) else LastSent(x, from);
            && y.role == Leader && y.log == x.log && MatchIndex(y, from) == held
            && (if held >= |x.log.hist|
                then y.outbox == x.outbox + [Message(n, from, TimeoutNow(x.term, n))] && y.transfer == None
                else && y.transfer == Some(from) && |y.outbox| == |x.outbox| + 1 && y.outbox[..|x.outbox|] == x.outbox
                     && y.outbox[|x.outbox|].to == from && !y.outbox[|x.outbox|].payload.TimeoutNow?)
  {
    var z := AdvanceCommit(g[n], Credit(x, from));
    assert z == Credit(x, from).(commit := z.commit);
    HandsOverIff(g[n], z, from);
  }

  lemma HandsOverIff(cfg: Config, x: Node, p: NodeId)
    requires x.transfer == Some(p)
    ensures var y := MaybeTransferTo(cfg, x, p);
            && SameKnowledge(x, y)
            && (if MatchIndex(x, p) >= |x.log.hist|
                then y.outbox == x.outbox + [Message(cfg.self, p, TimeoutNow(x.term, cfg.self))] && y.transfer == None
                else && y.transfer == Some(p) && |y.outbox| == |x.outbox| + 1 && y.outbox[..|x.outbox|] == x.outbox
                     && y.outbox[|x.outbox|].to == p && !y.outbox[|x.outbox|].payload.TimeoutNow?)
  {
    if MatchIndex(x, p) < |x.log.hist| {
      var m := ServesOne(cfg, x, p);
      ServesWithRequest(cfg, x, p);
    }
  }

  lemma ServesWithRequest(cfg: Config, x: Node, p: NodeId)
    ensures var y := ReplicateTo(cfg, x, p);
            && |y.outbox| == |x.outbox| + 1 && !y.outbox[|x.outbox|].payload.TimeoutNow?
            && SameKnowledge(x, y) && y.transfer == x.transfer
  {
  }

  /** The target stands at once, in a term above both, if and only if it votes and the order is not outdated. */
  lemma OrderedToStand(g: Group, n: NodeId, x: Node, now: int, timeout: int, term: nat, leader: NodeId)
    requires n in g
    ensures var y := OnTimeoutNow(g[n], x, now, timeout, TimeoutNow(term, leader));
            if term >= x.term && n in Voters(g)
            then (y.role == Candidate || y.role == Leader) && y.term == term + 1 && y.votedFor == Some(n) && y.votes == {n}
            else y == x
  {
    CandidacyIs(g[n], if term > x.term then BecomeFollower(x, now, timeout, term) else x, now, timeout);
  }
}
