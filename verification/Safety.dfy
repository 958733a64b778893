/** What every run of a replica group guarantees. */
module Safety {
  import opened RaftTypes
  import opened NodeSpec
  import opened Cluster
  import opened Replication
  import LogView
  import opened Protocol
  import opened Actions
  import opened ClusterInv
  import opened NodeSteps
  import opened Handlers
  import opened ClusterSteps
  import opened Commitment

  /**
    A run in which pre-votes are not taken for votes and nodes restart only with their state saved.
    Messages may be lost, duplicated and reordered at will.
   */
  ghost predicate FairRun(g: Group, cs: seq<Cluster>, es: seq<Event>) {
    Run(g, cs, es) && forall i | 0 <= i < |es| :: Owed(cs[i], es[i])
  }

  /** Moreover, every acknowledgement a leader credits answers its latest request to that peer. */
  ghost predicate AckedRun(g: Group, cs: seq<Cluster>, es: seq<Event>) {
    FairRun(g, cs, es) && forall i | 0 <= i < |es| :: AckIsLatest(cs[i], es[i])
  }

  // ---------------------------------------------------------------- every run has a history

  ghost function Genesis(g: Group): Proto {
    Proto(Voters(g), map n | n in g :: 0, map n | n in g :: [], map[], map[], map[], map[], map[], map[], true)
  }

  lemma Begins(g: Group) returns (s: History)
    ensures s == Genesis(g) && CInv(g, s, Init(g))
  {
    s := Genesis(g);
  }

  lemma RunStep(g: Group, cs: seq<Cluster>, es: seq<Event>, i: nat, s: History) returns (s': History)
    requires FairRun(g, cs, es) && i < |es| && CInv(g, s, cs[i])
    ensures CInv(g, s', cs[i + 1]) && Extends(s, s') && s'.acked == (s.acked && AckIsLatest(cs[i], es[i]))
  {
    assert Owed(cs[i], es[i]);
    s' := EventTaken(g, s, cs[i], es[i]);
  }

  /** From a moment of the run that is tied to a history, to any later one. */
  lemma {:induction false} RunsOn(g: Group, cs: seq<Cluster>, es: seq<Event>, i: nat, s: History, j: nat)
    returns (s': History)
    requires FairRun(g, cs, es) && i <= j <= |es| && CInv(g, s, cs[i])
    ensures CInv(g, s', cs[j]) && Extends(s, s')
    ensures AckedRun(g, cs, es) && s.acked ==> s'.acked
    decreases j - i
  {
    if i == j {
      s' := s;
    } else {
      var t := RunStep(g, cs, es, i, s);
      s' := RunsOn(g, cs, es, i + 1, t, j);
      ExtendsTrans(s, t, s');
    }
  }

  /** Two moments of a run and histories that go with them. */
  lemma TwoMoments(g: Group, cs: seq<Cluster>, es: seq<Event>, i: nat, j: nat) returns (s: History, t: History)
    requires FairRun(g, cs, es) && i <= j < |cs|
    ensures CInv(g, s, cs[i]) && CInv(g, t, cs[j]) && Extends(s, t)
    ensures AckedRun(g, cs, es) ==> s.acked && t.acked
  {
    var o := Begins(g);
    s := RunsOn(g, cs, es, 0, o, i);
    t := RunsOn(g, cs, es, i, s, j);
  }

  // ---------------------------------------------------------------- election safety

  ghost predicate IsLeader(c: Cluster, n: NodeId) {
    n in c.nodes && c.nodes[n].role == Leader
  }

  lemma LeaderIsRecorded(g: Group, s: History, c: Cluster, n: NodeId)
    requires CInv(g, s, c) && IsLeader(c, n)
    ensures var x := c.nodes[n];
            && x.term in s.lead && s.lead[x.term] == n
            && (n, x.term) in s.cand && s.cand[(n, x.term)] <= s.tlog[x.term] && s.tlog[x.term] == x.log.hist
  {
    assert NodeOk(g, s, n, c.nodes[n]);
    LeaderLeads(g, s, n, c.nodes[n]);
    assert Elected(s, c.nodes[n].term);
  }

  /** At most one node is ever leader in a term, at whatever moments one looks. */
  lemma ElectionSafety(g: Group, cs: seq<Cluster>, es: seq<Event>, i: nat, j: nat, a: NodeId, b: NodeId)
    requires FairRun(g, cs, es) && i <= j < |cs|
    requires IsLeader(cs[i], a) && IsLeader(cs[j], b) && cs[i].nodes[a].term == cs[j].nodes[b].term
    ensures a == b
  {
    var s, t := TwoMoments(g, cs, es, i, j);
    LeaderIsRecorded(g, s, cs[i], a);
    LeaderIsRecorded(g, t, cs[j], b);
  }

  // ---------------------------------------------------------------- log matching

  function LogOf(c: Cluster, n: NodeId): Log
    requires n in c.nodes
  {
    c.nodes[n].log.hist
  }

  lemma LogIsRooted(g: Group, s: History, c: Cluster, n: NodeId)
    requires CInv(g, s, c) && n in c.nodes
    ensures LogOk(s, LogOf(c, n), c.nodes[n].term)
  {
    assert NodeOk(g, s, n, c.nodes[n]);
  }

  /**
    If two logs, at any two moments, hold entries of the same index and term, they hold the same
    entries at every index up to it: through appends, truncations, compaction and snapshots.
   */
  lemma LogMatching(g: Group, cs: seq<Cluster>, es: seq<Event>, i: nat, j: nat, a: NodeId, b: NodeId, k: nat)
    requires FairRun(g, cs, es) && i <= j < |cs| && a in cs[i].nodes && b in cs[j].nodes
    requires k < |LogOf(cs[i], a)| && k < |LogOf(cs[j], b)|
    requires LogOf(cs[i], a)[k].term == LogOf(cs[j], b)[k].term
    ensures LogOf(cs[i], a)[..k + 1] == LogOf(cs[j], b)[..k + 1]
  {
    var s, t := TwoMoments(g, cs, es, i, j);
    LogIsRooted(g, s, cs[i], a);
    LogOkStable(s, t, LogOf(cs[i], a), cs[i].nodes[a].term);
    LogIsRooted(g, t, cs[j], b);
    Matching(t, LogOf(cs[i], a), LogOf(cs[j], b), k, cs[i].nodes[a].term, cs[j].nodes[b].term);
  }

  // ---------------------------------------------------------------- leader completeness

  /** In step `i` of the run, leader `a` moves its commit index. */
  ghost predicate CommitsAt(cs: seq<Cluster>, i: nat, a: NodeId) {
    && i + 1 < |cs| && a in cs[i].nodes && IsLeader(cs[i + 1], a)
    && cs[i + 1].nodes[a].commit > cs[i].nodes[a].commit
  }

  lemma CommittedIsChosen(g: Group, cs: seq<Cluster>, es: seq<Event>, i: nat, a: NodeId, s: History) returns (t: History)
    requires AckedRun(g, cs, es) && CommitsAt(cs, i, a) && CInv(g, s, cs[i]) && s.acked
    ensures CInv(g, t, cs[i + 1]) && Extends(s, t) && t.acked
    ensures Chosen(t, cs[i + 1].nodes[a].term, cs[i + 1].nodes[a].commit)
  {
    assert Owed(cs[i], es[i]) && AckIsLatest(cs[i], es[i]);
    t := EventTaken(g, s, cs[i], es[i]);
    assert a == Actor(es[i]);
  }

  /** What is chosen is in every later leader's log, seen before or after the choice. */
  lemma EarlierMoment(g: Group, t: History, u: nat, k: nat, s: History, c: Cluster, b: NodeId)
    requires Chosen(t, u, k) && CInv(g, s, c) && IsLeader(c, b) && u < c.nodes[b].term && Extends(s, t)
    ensures t.tlog[u][..k] <= LogOf(c, b)
  {
    var w := c.nodes[b].term;
    LeaderIsRecorded(g, s, c, b);
    LeadersComplete(t, u, k, w);
    PrefixTrans(t.tlog[u][..k], s.cand[(b, w)], LogOf(c, b));
  }

  lemma PrefixTrans(a: Log, b: Log, c: Log)
    requires a <= b <= c
    ensures a <= c
  {
  }

  lemma LaterMoment(g: Group, t: History, u: nat, k: nat, s: History, c: Cluster, b: NodeId)
    requires Chosen(t, u, k) && CInv(g, s, c) && IsLeader(c, b) && u < c.nodes[b].term && Extends(t, s)
    ensures t.tlog[u][..k] <= LogOf(c, b)
  {
    LeaderIsRecorded(g, s, c, b);
    ChosenStable(t, s, u, k);
    LeadersComplete(s, u, k, c.nodes[b].term);
  }

  /**
    Leader completeness: what a leader commits is in the log of every leader of a later term,
    whenever that leader is observed, before or after the commit.
   */
  lemma LeaderCompleteness(g: Group, cs: seq<Cluster>, es: seq<Event>, i: nat, a: NodeId, j: nat, b: NodeId)
    requires AckedRun(g, cs, es) && CommitsAt(cs, i, a)
    requires j < |cs| && IsLeader(cs[j], b) && cs[j].nodes[b].term > cs[i + 1].nodes[a].term
    ensures cs[i + 1].nodes[a].commit <= |LogOf(cs[i + 1], a)|
    ensures LogOf(cs[i + 1], a)[..cs[i + 1].nodes[a].commit] <= LogOf(cs[j], b)
  {
    var x := cs[i + 1].nodes[a];
    if j <= i {
      var s, r := TwoMoments(g, cs, es, j, i);
      var t := CommittedIsChosen(g, cs, es, i, a, r);
      ExtendsTrans(s, r, t);
      LeaderIsRecorded(g, t, cs[i + 1], a);
      EarlierMoment(g, t, x.term, x.commit, s, cs[j], b);
    } else {
      var r, _ := TwoMoments(g, cs, es, i, i);
      var t := CommittedIsChosen(g, cs, es, i, a, r);
      var s := RunsOn(g, cs, es, i + 1, t, j);
      LeaderIsRecorded(g, t, cs[i + 1], a);
      LaterMoment(g, t, x.term, x.commit, s, cs[j], b);
    }
  }

  // ---------------------------------------------------------------- state machine safety

  /** Moreover, a full request does not move a follower's commit index past its own entries. */
  ghost predicate CoveredRun(g: Group, cs: seq<Cluster>, es: seq<Event>) {
    AckedRun(g, cs, es) && forall i | 0 <= i < |es| :: FullRequestCovers(cs[i], es[i])
  }

  lemma RequestCovers(g: Group, s: History, c: Cluster, e: Event)
    requires CInv(g, s, c) && CommitInv(s, c) && Enabled(g, c, e) && FullRequestCovers(c, e)
    ensures CommitIsCovered(g, c, e)
  {
    if e.EDeliver? && e.p.msg.payload.AppendEntries? {
      var a := e.p.msg.payload;
      if |a.entries| < MAX_ENTRIES {
        ShortRequestCovers(g, s, c, e);
      } else {
        assert PacketOk(g, s, c.nodes, e.p);
        CarriedIsNumbered(s.tlog[a.term], a.prevIndex, a.prevTerm, a.entries);
        CommitStaysCovered(g[Actor(e)], c.nodes[Actor(e)], e.now, e.timeout, a);
      }
    }
  }

  lemma CoveredStep(g: Group, cs: seq<Cluster>, es: seq<Event>, i: nat, s: History) returns (s': History)
    requires CoveredRun(g, cs, es) && i < |es| && CInv(g, s, cs[i]) && CommitInv(s, cs[i]) && s.acked
    ensures CInv(g, s', cs[i + 1]) && CommitInv(s', cs[i + 1]) && Extends(s, s') && s'.acked
  {
    assert Owed(cs[i], es[i]) && AckIsLatest(cs[i], es[i]) && FullRequestCovers(cs[i], es[i]);
    RequestCovers(g, s, cs[i], es[i]);
    s' := EventTaken(g, s, cs[i], es[i]);
    CommitKept(g, s, s', cs[i], es[i]);
  }

  lemma {:induction false} CoveredRunsOn(g: Group, cs: seq<Cluster>, es: seq<Event>, i: nat, s: History, j: nat)
    returns (s': History)
    requires CoveredRun(g, cs, es) && i <= j <= |es| && CInv(g, s, cs[i]) && CommitInv(s, cs[i]) && s.acked
    ensures CInv(g, s', cs[j]) && CommitInv(s', cs[j]) && Extends(s, s') && s'.acked
    decreases j - i
  {
    if i == j {
      s' := s;
    } else {
      var t := CoveredStep(g, cs, es, i, s);
      s' := CoveredRunsOn(g, cs, es, i + 1, t, j);
      ExtendsTrans(s, t, s');
    }
  }

  lemma CoveredMoments(g: Group, cs: seq<Cluster>, es: seq<Event>, i: nat, j: nat) returns (s: History, t: History)
    requires CoveredRun(g, cs, es) && i <= j < |cs|
    ensures CommitInv(s, cs[i]) && CommitInv(t, cs[j]) && Extends(s, t)
  {
    var o := Begins(g);
    s := CoveredRunsOn(g, cs, es, 0, o, i);
    t := CoveredRunsOn(g, cs, es, i, s, j);
  }

  lemma CommittedIsSettled(s: Proto, c: Cluster, n: NodeId)
    requires CommitInv(s, c) && n in c.nodes
    ensures c.nodes[n].commit <= |LogOf(c, n)| && Settled(s, Committed(c, n), c.nodes[n].term)
  {
    assert NodeCommit(s, c.nodes[n]);
  }

  /** The entries a node reports as committed. */
  function Committed(c: Cluster, n: NodeId): Log
    requires n in c.nodes
  {
    var x := c.nodes[n];
    if x.commit <= |x.log.hist| then x.log.hist[..x.commit] else x.log.hist
  }

  /**
    State machine safety: what any two nodes report as committed, at any two moments, agrees: one is
    a prefix of the other, and no commit index points past the log it is in.
   */
  lemma StateMachineSafety(g: Group, cs: seq<Cluster>, es: seq<Event>, i: nat, j: nat, a: NodeId, b: NodeId)
    requires CoveredRun(g, cs, es) && i <= j < |cs| && a in cs[i].nodes && b in cs[j].nodes
    ensures cs[i].nodes[a].commit <= |LogOf(cs[i], a)|
    ensures Committed(cs[i], a) <= Committed(cs[j], b) || Committed(cs[j], b) <= Committed(cs[i], a)
  {
    var s, t := CoveredMoments(g, cs, es, i, j);
    CommittedIsSettled(s, cs[i], a);
    CommittedIsSettled(t, cs[j], b);
    SettledStable(s, t, Committed(cs[i], a), cs[i].nodes[a].term, cs[i].nodes[a].term);
    SettledAgree(t, Committed(cs[i], a), cs[i].nodes[a].term, Committed(cs[j], b), cs[j].nodes[b].term);
  }
}
