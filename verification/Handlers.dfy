/** Every input a node can receive keeps it good; what it answers is what its history says. */
module Handlers {
  import opened RaftTypes
  import opened NodeSpec
  import opened Cluster
  import opened Replication
  import LogView
  import opened Protocol
  import opened Actions
  import opened ClusterInv
  import opened NodeSteps
  import Majority

  /** A leader's commit index only moves to an index a majority accepted. */
  ghost predicate Commits(s: Proto, x: Node, y: Node) {
    s.acked && y.role == Leader && y.commit != x.commit ==> Chosen(s, y.term, y.commit)
  }

  /** The input was handled: the node made progress and committed nothing unsafe. */
  ghost predicate Handled(g: Group, s: Proto, s': History, n: NodeId, x: Node, y: Node) {
    Progress(g, s, s', n, x, y) && Commits(s', x, y)
  }

  // ---------------------------------------------------------------- commit

  lemma CandidateIsAbove(s: Proto, n: NodeId, x: Node, c: nat)
    requires CandLogs(s) && Domains(s) && LeadOk(s)
    requires LeaderOk(s, n, x) && Leads(s, n, x)
    requires c > x.commit && LogView.TermAt(x.log, c) == Some(x.term)
    ensures c > x.log.snap && Own(s, x.term, c)
  {
    assert Elected(s, x.term);
    var k := s.cand[(n, x.term)];
    assert LogOk(s, k, x.term - 1);
    if c <= |k| {
      assert k[c - 1] == s.tlog[x.term][c - 1];
    }
  }

  lemma CommitIsChosen(g: Group, s: Proto, n: NodeId, x: Node)
    requires n in Voters(g) && s.voters == Voters(g)
    requires Domains(s) && CandLogs(s) && LeadOk(s)
    requires LeaderOk(s, n, x) && Leads(s, n, x)
    ensures Commits(s, x, AdvanceCommit(g[n], x))
  {
    var y := AdvanceCommit(g[n], x);
    if s.acked && y.commit != x.commit {
      Majority.BackersAreMajority(g, n, x);
      CandidateIsAbove(s, n, x, y.commit);
      var q := Majority.Backers(g, n, x, y.commit);
      assert ChosenBy(s, x.term, y.commit, q);
    }
  }

  lemma CommitKeeps(g: Group, s: Proto, n: NodeId, x: Node)
    requires n in g && NodeOk(g, s, n, x) && x.role == Leader
    ensures NodeOk(g, s, n, AdvanceCommit(g[n], x))
    ensures AdvanceCommit(g[n], x) == x.(commit := AdvanceCommit(g[n], x).commit)
  {
  }

  /** A leader re-evaluates its commit index. */
  lemma Advances(g: Group, s: History, n: NodeId, x: Node)
    requires Setting(g, s) && n in g && NodeOk(g, s, n, x) && x.role == Leader
    ensures NodeOk(g, s, n, AdvanceCommit(g[n], x)) && Commits(s, x, AdvanceCommit(g[n], x))
    ensures AdvanceCommit(g[n], x) == x.(commit := AdvanceCommit(g[n], x).commit)
    ensures Leads(s, n, AdvanceCommit(g[n], x))
  {
    LeaderLeads(g, s, n, x);
    CommitIsChosen(g, s, n, x);
    CommitKeeps(g, s, n, x);
  }

  // ---------------------------------------------------------------- ticks

  /** A step that changes no history and no commit index. */
  lemma QuietHandled(g: Group, s: History, n: NodeId, x: Node, y: Node)
    requires Setting(g, s) && n in g && NodeOk(g, s, n, y)
    requires x.log.snap <= y.log.snap && Saves(x, y) && y.commit == x.commit
    ensures Handled(g, s, s, n, x, y)
  {
    GrowsRefl(s, n);
  }

  lemma HeartbeatHandled(g: Group, s: Proto, n: NodeId, x: Node, now: int)
    requires n in g && NodeOk(g, s, n, x) && Leads(s, n, x)
    ensures var y := ReplicateAll(g[n], x.(heartbeatDeadline := now + g[n].heartbeat));
            NodeOk(g, s, n, y) && x.log.snap <= y.log.snap && Saves(x, y) && y.commit == x.commit
  {
    var y := x.(heartbeatDeadline := now + g[n].heartbeat);
    TimersAreOk(g, s, n, x, y);
    ReplicateAllKeeps(g, s, n, y);
  }

  lemma TickHandled(g: Group, s: History, n: NodeId, x: Node, now: int, timeout: int) returns (s': History)
    requires Setting(g, s) && n in g && NodeOk(g, s, n, x)
    ensures Handled(g, s, s', n, x, Tick(g[n], x, now, timeout))
  {
    var y := Tick(g[n], x, now, timeout);
    if x.started && x.role != Leader && now >= x.electionDeadline && IsVoter(g[n], n) {
      s' := PreCandidacy(g, s, n, x, now, timeout);
    } else {
      s' := s;
      if x.started && x.role == Leader && now >= x.heartbeatDeadline {
        LeaderLeads(g, s, n, x);
        HeartbeatHandled(g, s, n, x, now);
      } else {
        TimersAreOk(g, s, n, x, y);
      }
      QuietHandled(g, s, n, x, y);
    }
  }

  /** Fields that only hold clocks and hints do not matter. */
  lemma TimersAreOk(g: Group, s: Proto, n: NodeId, x: Node, y: Node)
    requires NodeOk(g, s, n, x)
    requires y == x.(leader := y.leader, transfer := y.transfer, electionDeadline := y.electionDeadline,
                     leaderContact := y.leaderContact, heartbeatDeadline := y.heartbeatDeadline,
                     started := y.started, next := y.next, lastSent := y.lastSent)
    ensures NodeOk(g, s, n, y)
  {
  }

  // ---------------------------------------------------------------- votes

  lemma VoteIsLocal(s: Proto, n: NodeId, c: NodeId)
    requires CanVote(s, n, c)
    ensures Local(s, Vote(s, n, c), n)
  {
  }

  lemma VoteLocal(s: History, n: NodeId, c: NodeId) returns (s': History)
    requires CanVote(s, n, c)
    ensures s' == Vote(s, n, c) && Grows(s, s', n)
  {
    VoteKeeps(s, n, c);
    VoteIsLocal(s, n, c);
    s' := Vote(s, n, c);
  }

  lemma VotedIsOk(g: Group, s: Proto, n: NodeId, x: Node, c: NodeId, now: int, timeout: int)
    requires NodeOk(g, s, n, x) && n in s.term && Extends(s, Vote(s, n, c))
    requires x.votedFor == None || x.votedFor == Some(c)
    ensures NodeOk(g, Vote(s, n, c), n, RecordVote(x, c).(electionDeadline := now + timeout))
  {
    var s', y := Vote(s, n, c), RecordVote(x, c).(electionDeadline := now + timeout);
    OutboxStable(g, s, s', n, x, y);
  }

  /** A node in the candidate's term that is willing to vote does so. */
  lemma Votes(g: Group, s: History, n: NodeId, x: Node, now: int, timeout: int, a: Payload)
    returns (s': History)
    requires Setting(g, s) && n in g && NodeOk(g, s, n, x)
    requires AsksFor(s, a) && a.term == x.term
    requires x.votedFor == None || x.votedFor == Some(a.candidate)
    requires LogIsUpToDate(x, a.lastIndex, a.lastTerm)
    ensures Progress(g, s, s', n, x, RecordVote(x, a.candidate).(electionDeadline := now + timeout))
    ensures (n, a.term) in s'.votes && s'.votes[(n, a.term)] == a.candidate
  {
    assert UpToDate(s.cand[(a.candidate, a.term)], x.log.hist);
    s' := VoteLocal(s, n, a.candidate);
    VotedIsOk(g, s, n, x, a.candidate, now, timeout);
  }

  /** A real request from a candidate whose history is `cand`. */
  ghost predicate AsksFor(s: Proto, a: Payload) {
    && a.RequestVote? && (a.candidate, a.term) in s.cand
    && a.lastIndex == |s.cand[(a.candidate, a.term)]|
    && a.lastTerm == Protocol.LastTerm(s.cand[(a.candidate, a.term)])
  }

  /** The answer to a real request, and the history that goes with it. */
  ghost predicate Answered(s': Proto, n: NodeId, a: Payload, r: Payload)
    requires a.RequestVote?
  {
    r.RequestVoteReply? && (r.granted ==> (n, r.term) in s'.votes && s'.votes[(n, r.term)] == a.candidate)
  }

  /** The vote itself, once the node is in the candidate's term or later. */
  lemma CaughtUpVote(g: Group, s: History, n: NodeId, x: Node, now: int, timeout: int, a: Payload,
                     y: Node, r: Payload) returns (s': History)
    requires Setting(g, s) && n in g && NodeOk(g, s, n, x)
    requires AsksFor(s, a) && !a.preVote && a.term <= x.term
    requires (y, r) == OnRequestVote(g[n], x, now, timeout, a)
    ensures Handled(g, s, s', n, x, y) && Answered(s', n, a, r)
  {
    if r.granted {
      s' := Votes(g, s, n, x, now, timeout, a);
    } else {
      s' := s;
      QuietHandled(g, s, n, x, x);
    }
  }

  lemma VoteAfterCatchUp(cfg: Config, x: Node, now: int, timeout: int, a: Payload)
    requires a.RequestVote? && !a.preVote && a.term > x.term
    ensures OnRequestVote(cfg, x, now, timeout, a) ==
            OnRequestVote(cfg, BecomeFollower(x, now, timeout, a.term), now, timeout, a)
    ensures OnRequestVote(cfg, x, now, timeout, a).0.role == Follower
    ensures OnRequestVote(cfg, x, now, timeout, a).0.commit == x.commit
  {
  }

  lemma LaterTermVote(g: Group, s: History, n: NodeId, x: Node, now: int, timeout: int, a: Payload,
                      z: Node, r: Payload) returns (s': History)
    requires Setting(g, s) && n in g && NodeOk(g, s, n, x)
    requires AsksFor(s, a) && !a.preVote && a.term > x.term && z.role == Follower
    requires (z, r) == OnRequestVote(g[n], BecomeFollower(x, now, timeout, a.term), now, timeout, a)
    ensures Handled(g, s, s', n, x, z) && Answered(s', n, a, r)
  {
    var y := BecomeFollower(x, now, timeout, a.term);
    var s1 := Follows(g, s, n, x, now, timeout, a.term);
    s' := CaughtUpVote(g, s1, n, y, now, timeout, a, z, r);
    ProgressTrans(g, s, s1, s', n, x, y, z);
  }

  lemma RequestVoteHandled(g: Group, s: History, n: NodeId, x: Node, now: int, timeout: int, a: Payload,
                           y: Node, r: Payload) returns (s': History)
    requires Setting(g, s) && n in g && NodeOk(g, s, n, x)
    requires a.RequestVote? && (!a.preVote ==> AsksFor(s, a))
    requires (y, r) == OnRequestVote(g[n], x, now, timeout, a)
    ensures Handled(g, s, s', n, x, y) && r.RequestVoteReply? && (!a.preVote ==> Answered(s', n, a, r))
  {
    if a.preVote {
      s' := s;
      QuietHandled(g, s, n, x, x);
    } else if a.term > x.term {
      VoteAfterCatchUp(g[n], x, now, timeout, a);
      s' := LaterTermVote(g, s, n, x, now, timeout, a, y, r);
    } else {
      s' := CaughtUpVote(g, s, n, x, now, timeout, a, y, r);
    }
  }

  lemma CountedIsOk(g: Group, s: Proto, n: NodeId, x: Node, from: NodeId)
    requires n in g && from in g && IsVoter(g[n], from)
    requires NodeOk(g, s, n, x) && (x.role == PreCandidate || x.role == Candidate)
    requires x.role == Candidate ==> (from, x.term) in s.votes && s.votes[(from, x.term)] == n
    ensures NodeOk(g, s, n, x.(votes := x.votes + {from}))
  {
    assert from in Voters(g);
  }

  lemma VoteReplyHandled(g: Group, s: History, n: NodeId, x: Node, now: int, timeout: int, from: NodeId, r: Payload)
    returns (s': History)
    requires Setting(g, s) && n in g && from in g && NodeOk(g, s, n, x)
    requires r.RequestVoteReply?
    requires r.granted && x.role == Candidate && r.term == x.term ==>
      (from, r.term) in s.votes && s.votes[(from, r.term)] == n
    ensures Handled(g, s, s', n, x, OnRequestVoteReply(g[n], x, now, timeout, from, r))
  {
    s' := s;
    GrowsRefl(s, n);
    if r.term > x.term {
      s' := Follows(g, s, n, x, now, timeout, r.term);
    } else if (x.role == PreCandidate || x.role == Candidate) && r.term == x.term && r.granted && IsVoter(g[n], from) {
      var y := x.(votes := x.votes + {from});
      CountedIsOk(g, s, n, x, from);
      if HasMajority(g[n], |y.votes|) {
        if x.role == PreCandidate {
          s' := Candidacy(g, s, n, y, now, timeout);
        } else {
          s' := Leadership(g, s, n, y, now);
        }
        ProgressTrans(g, s, s, s', n, x, y, OnRequestVoteReply(g[n], x, now, timeout, from, r));
      }
    }
  }

  lemma TimeoutNowHandled(g: Group, s: History, n: NodeId, x: Node, now: int, timeout: int, a: Payload)
    returns (s': History)
    requires Setting(g, s) && n in g && NodeOk(g, s, n, x) && a.TimeoutNow?
    ensures Handled(g, s, s', n, x, OnTimeoutNow(g[n], x, now, timeout, a))
  {
    s' := s;
    GrowsRefl(s, n);
    if a.term >= x.term && IsVoter(g[n], n) {
      var x1, s1 := x, s;
      if a.term > x.term {
        x1 := BecomeFollower(x, now, timeout, a.term);
        s1 := Follows(g, s, n, x, now, timeout, a.term);
      }
      s' := Candidacy(g, s1, n, x1, now, timeout);
      ProgressTrans(g, s, s1, s', n, x, x1, OnTimeoutNow(g[n], x, now, timeout, a));
    }
  }

  // ---------------------------------------------------------------- a follower hears from its leader

  lemma FollowsLeader(g: Group, s: History, n: NodeId, x: Node, now: int, timeout: int, t: nat, l: NodeId)
    returns (s': History)
    requires Setting(g, s) && n in g && NodeOk(g, s, n, x) && t >= x.term
    ensures Progress(g, s, s', n, x, FollowLeader(x, now, timeout, t, l))
    ensures var y := FollowLeader(x, now, timeout, t, l);
            y.role == Follower && y.term == t && y.commit == x.commit && y.log == x.log
  {
    var y := FollowLeader(x, now, timeout, t, l);
    if t > x.term || x.role != Follower {
      s' := Follows(g, s, n, x, now, timeout, t);
      TimersAreOk(g, s', n, BecomeFollower(x, now, timeout, t), y);
    } else {
      s' := s;
      GrowsRefl(s, n);
      TimersAreOk(g, s, n, x, y);
    }
  }

  lemma AcceptIsLocal(s: Proto, n: NodeId, m: nat)
    requires CanAccept(s, n, m)
    ensures Local(s, Accept(s, n, m), n)
  {
  }

  lemma AcceptLocal(s: History, n: NodeId, m: nat) returns (s': History)
    requires CanAccept(s, n, m)
    ensures s' == Accept(s, n, m) && Grows(s, s', n)
  {
    AcceptKeeps(s, n, m);
    AcceptIsLocal(s, n, m);
    s' := Accept(s, n, m);
  }

  /** A follower's log matches its leader's log, and names no term 0. */
  lemma FollowerMatches(s: Proto, n: NodeId, x: Node)
    requires Domains(s) && NodeLogs(s) && TermLogs(s) && Linked(s, n, x) && x.term in s.tlog
    ensures LogsMatch(x.log.hist, s.tlog[x.term]) && PositiveTerms(x.log.hist)
  {
    var a, b := x.log.hist, s.tlog[x.term];
    assert LogOk(s, a, s.term[n]);
    forall i | 0 <= i < |a| && i < |b| && a[i].term == b[i].term ensures a[..i + 1] == b[..i + 1] {
      Matching(s, a, b, i, s.term[n], x.term);
    }
  }

  lemma AdoptedIsOk(g: Group, s: Proto, n: NodeId, x: Node, m: nat, y: Node)
    requires NodeOk(g, s, n, x) && x.role == Follower && CanAccept(s, n, m)
    requires Extends(s, Accept(s, n, m))
    requires y == x.(log := y.log, commit := y.commit) && x.log.snap <= y.log.snap
    requires y.log.hist == Adopt(x.log.hist, s.tlog[x.term][..m])
    ensures NodeOk(g, Accept(s, n, m), n, y)
  {
    OutboxStable(g, s, Accept(s, n, m), n, x, y);
  }

  /** Adopting a prefix of the leader's log, however it arrived. */
  lemma Adopts(g: Group, s: History, n: NodeId, x: Node, m: nat, y: Node) returns (s': History)
    requires Setting(g, s) && n in g && NodeOk(g, s, n, x) && x.role == Follower
    requires x.term in s.lead && x.term in s.tlog && s.lead[x.term] != n && m <= |s.tlog[x.term]|
    requires y == x.(log := y.log, commit := y.commit) && x.log.snap <= y.log.snap
    requires y.log.hist == Adopt(x.log.hist, s.tlog[x.term][..m])
    ensures Progress(g, s, s', n, x, y) && m <= Acc(s', n, x.term)
  {
    s' := AcceptLocal(s, n, m);
    AdoptedIsOk(g, s, n, x, m, y);
  }

  /** The request comes from the leader of its term and carries a slice of its log. */
  ghost predicate FromLeader(s: Proto, n: NodeId, a: Payload) {
    && a.AppendEntries? && a.term in s.lead && s.lead[a.term] != n
    && a.term in s.tlog && Carries(s.tlog[a.term], a.prevIndex, a.prevTerm, a.entries)
  }

  /** A follower in its leader's term takes the entries in. */
  ghost predicate Appended(x: Node, a: Payload, y: Node)
    requires a.AppendEntries?
  {
    && LogView.TermAt(x.log, a.prevIndex) == Some(a.prevTerm)
    && AppendEntriesFrom(x.log, a.entries).Some?
    && y == x.(log := AppendEntriesFrom(x.log, a.entries).value, commit := y.commit)
  }

  lemma AppendedLog(s: Proto, n: NodeId, x: Node, a: Payload, y: Node, m: nat)
    requires Domains(s) && NodeLogs(s) && TermLogs(s) && Linked(s, n, x)
    requires FromLeader(s, n, a) && a.term == x.term && Appended(x, a, y)
    requires m == a.prevIndex + |a.entries|
    ensures x.term in s.tlog && m <= |s.tlog[x.term]|
    ensures y.log.hist == Adopt(x.log.hist, s.tlog[x.term][..m]) && y.log.snap == x.log.snap
    ensures y == x.(log := y.log, commit := y.commit)
  {
    FollowerMatches(s, n, x);
    AppendAdopts(x.log, s.tlog[a.term], a.prevIndex, a.prevTerm, a.entries);
  }

  lemma AppendTaken(g: Group, s: History, n: NodeId, x: Node, a: Payload, y: Node) returns (s': History)
    requires Setting(g, s) && n in g && NodeOk(g, s, n, x) && x.role == Follower
    requires FromLeader(s, n, a) && a.term == x.term && Appended(x, a, y)
    ensures Progress(g, s, s', n, x, y) && a.prevIndex + |a.entries| <= Acc(s', n, a.term)
  {
    var m: nat := a.prevIndex + |a.entries|;
    AppendedLog(s, n, x, a, y, m);
    s' := Adopts(g, s, n, x, m, y);
  }

  lemma FromLeaderStable(s: Proto, s': Proto, n: NodeId, a: Payload)
    requires FromLeader(s, n, a) && Extends(s, s')
    ensures FromLeader(s', n, a)
  {
    CarriesStable(s.tlog[a.term], s'.tlog[a.term], a.prevIndex, a.prevTerm, a.entries);
  }

  /** What the handler does with a request of its own term or a later one. */
  lemma AppendOutcome(cfg: Config, x: Node, now: int, timeout: int, a: Payload)
    requires a.AppendEntries? && a.term >= x.term
    ensures var x1, y, r := FollowLeader(x, now, timeout, a.term, a.leader),
                            OnAppendEntries(cfg, x, now, timeout, a).0,
                            OnAppendEntries(cfg, x, now, timeout, a).1;
            r.term == a.term && (if r.success then Appended(x1, a, y) else y == x1)
  {
  }

  lemma AppendFollowed(g: Group, s: History, n: NodeId, x: Node, now: int, timeout: int, a: Payload,
                       y: Node, success: bool) returns (s': History)
    requires Setting(g, s) && n in g && NodeOk(g, s, n, x) && FromLeader(s, n, a) && a.term >= x.term
    requires var x1 := FollowLeader(x, now, timeout, a.term, a.leader);
             if success then Appended(x1, a, y) else y == x1
    ensures Handled(g, s, s', n, x, y)
    ensures success ==> a.prevIndex + |a.entries| <= Acc(s', n, a.term)
  {
    var x1 := FollowLeader(x, now, timeout, a.term, a.leader);
    s' := FollowsLeader(g, s, n, x, now, timeout, a.term, a.leader);
    if success {
      var s1 := s';
      FromLeaderStable(s, s1, n, a);
      s' := AppendTaken(g, s1, n, x1, a, y);
      ProgressTrans(g, s, s1, s', n, x, x1, y);
    }
  }

  lemma AppendHandled(g: Group, s: History, n: NodeId, x: Node, now: int, timeout: int, a: Payload,
                      y: Node, r: Payload) returns (s': History)
    requires Setting(g, s) && n in g && NodeOk(g, s, n, x) && FromLeader(s, n, a)
    requires (y, r) == OnAppendEntries(g[n], x, now, timeout, a)
    ensures Handled(g, s, s', n, x, y)
    ensures r.AppendEntriesReply? && (r.success ==> a.prevIndex + |a.entries| <= Acc(s', n, r.term))
  {
    if a.term < x.term {
      s' := s;
      QuietHandled(g, s, n, x, x);
    } else {
      AppendOutcome(g[n], x, now, timeout, a);
      s' := AppendFollowed(g, s, n, x, now, timeout, a, y, r.success);
    }
  }

  ghost predicate SnapshotFromLeader(s: Proto, n: NodeId, a: Payload) {
    && a.InstallSnapshot? && a.term in s.lead && s.lead[a.term] != n
    && a.term in s.tlog && a.snapshot.history <= s.tlog[a.term]
  }

  lemma SnapshotAccepted(g: Group, s: History, n: NodeId, x: Node, a: Payload, y: Node) returns (s': History)
    requires Setting(g, s) && n in g && NodeOk(g, s, n, x) && x.role == Follower
    requires SnapshotFromLeader(s, n, a) && a.term == x.term && a.snapshot.index > x.log.snap
    requires LogView.Install(x.log, a.snapshot).Some?
    requires y == x.(log := LogView.Install(x.log, a.snapshot).value, commit := y.commit)
    ensures Progress(g, s, s', n, x, y) && a.snapshot.index <= Acc(s', n, a.term)
  {
    FollowerMatches(s, n, x);
    InstallAdopts(x.log, s.tlog[a.term], a.snapshot);
    assert a.snapshot.history == s.tlog[a.term][..a.snapshot.index];
    s' := Adopts(g, s, n, x, a.snapshot.index, y);
  }

  lemma CommitOnly(g: Group, s: Proto, n: NodeId, x: Node, y: Node)
    requires NodeOk(g, s, n, x) && x.role == Follower && y == x.(commit := y.commit)
    ensures NodeOk(g, s, n, y)
  {
  }

  lemma SnapshotTaken(g: Group, s: History, n: NodeId, x: Node, a: Payload, y: Node) returns (s': History)
    requires Setting(g, s) && n in g && NodeOk(g, s, n, x) && x.role == Follower
    requires SnapshotFromLeader(s, n, a) && a.term == x.term
    requires LogView.Install(x.log, a.snapshot).Some?
    requires y == x.(log := LogView.Install(x.log, a.snapshot).value, commit := y.commit)
    ensures Progress(g, s, s', n, x, y)
    ensures a.snapshot.index > x.log.snap ==> a.snapshot.index <= Acc(s', n, a.term)
  {
    if a.snapshot.index > x.log.snap {
      s' := SnapshotAccepted(g, s, n, x, a, y);
    } else {
      s' := s;
      GrowsRefl(s, n);
      CommitOnly(g, s, n, x, y);
    }
  }

  lemma SnapshotOutcome(cfg: Config, x: Node, now: int, timeout: int, a: Payload)
    requires a.InstallSnapshot? && a.term >= x.term
    ensures var x1, y, r := FollowLeader(x, now, timeout, a.term, a.leader),
                            OnInstallSnapshot(cfg, x, now, timeout, a).0,
                            OnInstallSnapshot(cfg, x, now, timeout, a).1;
            && r.term == a.term && x1.log == x.log
            && (if Installs(x, a) then y == x1.(log := LogView.Install(x1.log, a.snapshot).value, commit := y.commit)
                else y == x1)
  {
  }

  lemma SnapshotFollowed(g: Group, s: History, n: NodeId, x: Node, now: int, timeout: int, a: Payload, y: Node)
    returns (s': History)
    requires Setting(g, s) && n in g && NodeOk(g, s, n, x) && SnapshotFromLeader(s, n, a) && a.term >= x.term
    requires var x1 := FollowLeader(x, now, timeout, a.term, a.leader);
             if Installs(x, a) then y == x1.(log := LogView.Install(x1.log, a.snapshot).value, commit := y.commit)
             else y == x1
    ensures Handled(g, s, s', n, x, y)
    ensures Installs(x, a) && a.snapshot.index > x.log.snap ==> a.snapshot.index <= Acc(s', n, a.term)
  {
    var x1 := FollowLeader(x, now, timeout, a.term, a.leader);
    s' := FollowsLeader(g, s, n, x, now, timeout, a.term, a.leader);
    if Installs(x, a) {
      var s1 := s';
      assert SnapshotFromLeader(s1, n, a);
      s' := SnapshotTaken(g, s1, n, x1, a, y);
      ProgressTrans(g, s, s1, s', n, x, x1, y);
    }
  }

  /** What the sender may conclude from the reply. */
  lemma SnapshotHandled(g: Group, s: History, n: NodeId, x: Node, now: int, timeout: int, a: Payload,
                        y: Node, r: Payload) returns (s': History)
    requires Setting(g, s) && n in g && NodeOk(g, s, n, x) && SnapshotFromLeader(s, n, a)
    requires (y, r) == OnInstallSnapshot(g[n], x, now, timeout, a)
    ensures Handled(g, s, s', n, x, y)
    ensures r.InstallSnapshotReply? && (Installs(x, a) ==> r.term == a.term)
    ensures Installs(x, a) && a.snapshot.index > x.log.snap ==> a.snapshot.index <= Acc(s', n, a.term)
  {
    if a.term < x.term {
      s' := s;
      QuietHandled(g, s, n, x, x);
    } else {
      SnapshotOutcome(g[n], x, now, timeout, a);
      s' := SnapshotFollowed(g, s, n, x, now, timeout, a, y);
    }
  }

  // ---------------------------------------------------------------- a leader hears from a follower

  /** The acknowledged index really is behind the credit the leader gives. */
  ghost predicate Backed(s: Proto, x: Node, from: NodeId) {
    || !s.acked
    || LastSent(x, from) <= MatchIndex(x, from)
    || LastSent(x, from) <= x.log.snap
    || LastSent(x, from) <= Acc(s, from, x.term)
  }

  lemma CreditIsOk(g: Group, s: Proto, n: NodeId, x: Node, from: NodeId)
    requires NodeOk(g, s, n, x) && x.role == Leader && Backed(s, x, from)
    ensures NodeOk(g, s, n, Credit(x, from))
  {
    var y := Credit(x, from);
    forall p | s.acked ensures MatchIndex(y, p) <= y.log.snap || MatchIndex(y, p) <= Acc(s, p, y.term) {
      assert MatchIndex(x, p) <= x.log.snap || MatchIndex(x, p) <= Acc(s, p, x.term);
    }
  }

  lemma TransferKeeps(g: Group, s: Proto, n: NodeId, x: Node, p: NodeId)
    requires n in g && p in g && p != n
    requires NodeOk(g, s, n, x) && Leads(s, n, x)
    ensures var y := MaybeTransferTo(g[n], x, p);
            NodeOk(g, s, n, y) && y == x.(transfer := y.transfer, lastSent := y.lastSent, outbox := y.outbox)
  {
    if x.transfer == Some(p) {
      if MatchIndex(x, p) >= LogView.LastIndex(x.log) {
        var y := Send(g[n], x, p, TimeoutNow(x.term, n));
        Sends(g, s, n, x, p, TimeoutNow(x.term, n));
        SentIsOk(g, s, n, x, y);
        TimersAreOk(g, s, n, y, y.(transfer := None));
      } else {
        ReplicateKeeps(g, s, n, x, p);
      }
    }
  }

  /** Crediting an acknowledgement and committing what it makes possible. */
  lemma Acknowledged(g: Group, s: History, n: NodeId, x: Node, from: NodeId)
    requires Setting(g, s) && n in g && NodeOk(g, s, n, x) && x.role == Leader && Backed(s, x, from)
    ensures var y := AdvanceCommit(g[n], Credit(x, from));
            && NodeOk(g, s, n, y) && Leads(s, n, y) && Commits(s, x, y)
            && y.term == x.term && y.votedFor == x.votedFor && y.dirty == x.dirty && y.log == x.log
  {
    CreditIsOk(g, s, n, x, from);
    Advances(g, s, n, Credit(x, from));
  }

  lemma LeaderHandled(g: Group, s: History, n: NodeId, x: Node, y: Node, z: Node)
    requires Setting(g, s) && n in g && NodeOk(g, s, n, z)
    requires Commits(s, x, y) && y.role == Leader && y.term == x.term && y.votedFor == x.votedFor
    requires y.dirty == x.dirty && y.log == x.log
    requires z == y.(transfer := z.transfer, lastSent := z.lastSent, outbox := z.outbox)
    ensures Handled(g, s, s, n, x, z)
  {
    GrowsRefl(s, n);
  }

  lemma AppendReplyHandled(g: Group, s: History, n: NodeId, x: Node, now: int, timeout: int, from: NodeId, r: Payload)
    returns (s': History)
    requires Setting(g, s) && n in g && from in g && from != n && NodeOk(g, s, n, x) && r.AppendEntriesReply?
    requires x.role == Leader && r.term == x.term && r.success ==> Backed(s, x, from)
    ensures Handled(g, s, s', n, x, OnAppendEntriesReply(g[n], x, now, timeout, from, r))
  {
    if r.term > x.term {
      s' := Follows(g, s, n, x, now, timeout, r.term);
    } else {
      s' := s;
      var z := OnAppendEntriesReply(g[n], x, now, timeout, from, r);
      if x.role != Leader || r.term != x.term {
        QuietHandled(g, s, n, x, x);
      } else if r.success {
        var y := AdvanceCommit(g[n], Credit(x, from));
        Acknowledged(g, s, n, x, from);
        TransferKeeps(g, s, n, y, from);
        LeaderHandled(g, s, n, x, y, z);
      } else {
        var y := Backtrack(x, from, r.conflictIndex);
        TimersAreOk(g, s, n, x, y);
        LeaderLeads(g, s, n, y);
        ReplicateKeeps(g, s, n, y, from);
        QuietHandled(g, s, n, x, z);
      }
    }
  }

  lemma SnapshotReplyHandled(g: Group, s: History, n: NodeId, x: Node, now: int, timeout: int, from: NodeId, r: Payload)
    returns (s': History)
    requires Setting(g, s) && n in g && from in g && from != n && NodeOk(g, s, n, x) && r.InstallSnapshotReply?
    requires x.role == Leader && r.term == x.term ==> Backed(s, x, from)
    ensures Handled(g, s, s', n, x, OnInstallSnapshotReply(g[n], x, now, timeout, from, r))
  {
    if r.term > x.term {
      s' := Follows(g, s, n, x, now, timeout, r.term);
    } else {
      s' := s;
      if x.role != Leader || r.term != x.term {
        QuietHandled(g, s, n, x, x);
      } else {
        var y := AdvanceCommit(g[n], Credit(x, from));
        Acknowledged(g, s, n, x, from);
        ReplicateKeeps(g, s, n, y, from);
        LeaderHandled(g, s, n, x, y, ReplicateTo(g[n], y, from));
      }
    }
  }

  // ---------------------------------------------------------------- a leader hears from its clients

  lemma CreateIsLocal(s: Proto, n: NodeId, e: LogEntry)
    requires CanCreate(s, n, e)
    ensures Local(s, Create(s, n, e), n)
  {
  }

  lemma CreateLocal(s: History, n: NodeId, e: LogEntry) returns (s': History)
    requires CanCreate(s, n, e)
    ensures s' == Create(s, n, e) && Grows(s, s', n)
  {
    CreateKeeps(s, n, e);
    CreateIsLocal(s, n, e);
    s' := Create(s, n, e);
  }

  lemma ProposedIsOk(g: Group, s: Proto, n: NodeId, x: Node, b: Batch)
    requires NodeOk(g, s, n, x) && Leads(s, n, x) && n in s.term && n in s.log
    requires Extends(s, Create(s, n, LogEntry(x.term, Data, b)))
    ensures NodeOk(g, Create(s, n, LogEntry(x.term, Data, b)), n, Proposed(x, b))
  {
    var s', y := Create(s, n, LogEntry(x.term, Data, b)), Proposed(x, b);
    OutboxStable(g, s, s', n, x, y);
    forall p | s.acked ensures MatchIndex(y, p) <= y.log.snap || MatchIndex(y, p) <= Acc(s', p, y.term) {
      assert MatchIndex(x, p) <= x.log.snap || MatchIndex(x, p) <= Acc(s, p, x.term);
    }
  }

  lemma Proposes(g: Group, s: History, n: NodeId, x: Node, b: Batch) returns (s': History)
    requires Setting(g, s) && n in g && NodeOk(g, s, n, x) && x.role == Leader
    ensures Progress(g, s, s', n, x, Proposed(x, b))
  {
    var e := LogEntry(x.term, Data, b);
    LeaderLeads(g, s, n, x);
    s' := CreateLocal(s, n, e);
    ProposedIsOk(g, s, n, x, b);
  }

  lemma ProposalSent(g: Group, s: History, n: NodeId, x: Node, y: Node)
    requires Setting(g, s) && n in g && NodeOk(g, s, n, x) && x.role == Leader
    requires y == AdvanceCommit(g[n], ReplicateAll(g[n], x))
    ensures NodeOk(g, s, n, y) && Commits(s, x, y)
    ensures y == x.(lastSent := y.lastSent, outbox := y.outbox, commit := y.commit)
  {
    LeaderLeads(g, s, n, x);
    ReplicateAllKeeps(g, s, n, x);
    Advances(g, s, n, ReplicateAll(g[n], x));
  }

  lemma SentAndCommitted(g: Group, s: Proto, s': History, n: NodeId, x: Node, y: Node, z: Node)
    requires Progress(g, s, s', n, x, y) && y.commit == x.commit
    requires NodeOk(g, s', n, z) && Commits(s', y, z)
    requires z == y.(lastSent := z.lastSent, outbox := z.outbox, commit := z.commit)
    ensures Handled(g, s, s', n, x, z)
  {
  }

  lemma ProposeHandled(g: Group, s: History, n: NodeId, x: Node, b: Batch, z: Node) returns (s': History)
    requires Setting(g, s) && n in g && NodeOk(g, s, n, x) && x.role == Leader
    requires z == AdvanceCommit(g[n], ReplicateAll(g[n], Proposed(x, b)))
    ensures Handled(g, s, s', n, x, z)
  {
    s' := Proposes(g, s, n, x, b);
    ProposalSent(g, s', n, Proposed(x, b), z);
    SentAndCommitted(g, s, s', n, x, Proposed(x, b), z);
  }

  lemma TransferHandled(g: Group, s: History, n: NodeId, x: Node, p: NodeId)
    requires Setting(g, s) && n in g && NodeOk(g, s, n, x)
    requires TransferLeadership(g[n], x, p).Some?
    ensures Handled(g, s, s, n, x, TransferLeadership(g[n], x, p).value)
  {
    assert p in g[n].peers;
    var y := x.(transfer := Some(p));
    TimersAreOk(g, s, n, x, y);
    LeaderLeads(g, s, n, y);
    TransferKeeps(g, s, n, y, p);
    QuietHandled(g, s, n, x, MaybeTransferTo(g[n], y, p));
  }

  lemma CompactHandled(g: Group, s: History, n: NodeId, x: Node, threshold: nat)
    requires Setting(g, s) && n in g && NodeOk(g, s, n, x)
    ensures Handled(g, s, s, n, x, Compacted(x, threshold))
  {
    CompactedIsOk(g, s, n, x, threshold);
    QuietHandled(g, s, n, x, Compacted(x, threshold));
  }

  lemma CompactedIsOk(g: Group, s: Proto, n: NodeId, x: Node, threshold: nat)
    requires NodeOk(g, s, n, x)
    ensures var y := Compacted(x, threshold);
            NodeOk(g, s, n, y) && x.log.snap <= y.log.snap && Saves(x, y) && y.commit == x.commit
  {
    var y := Compacted(x, threshold);
    OutboxStable(g, s, s, n, x, y);
  }
}
