/** Commit indices: what a node reports as committed is settled for the whole group. */
module Commitment {
  import opened Common
  import opened RaftTypes
  import opened NodeSpec
  import opened Cluster
  import opened Replication
  import LogView
  import opened Protocol
  import opened Actions
  import opened ClusterInv
  import opened NodeSteps
  import opened Handlers
  import opened ClusterSteps
  import opened Mail

  /** A log prefix inside what a majority accepted in some term up to `u`. */
  ghost predicate SettledBy(s: Proto, p: Log, u: nat, t: nat, k: nat) {
    t <= u && Chosen(s, t, k) && Own(s, t, k) && p <= s.tlog[t][..k]
  }

  ghost predicate Settled(s: Proto, p: Log, u: nat) {
    p == [] || exists t: nat, k: nat :: SettledBy(s, p, u, t, k)
  }

  lemma ChosenIsOwn(s: Proto, t: nat, k: nat)
    requires Chosen(s, t, k)
    ensures Own(s, t, k)
  {
    var q :| ChosenBy(s, t, k, q);
  }

  lemma SettledStable(s: Proto, s': Proto, p: Log, u: nat, u': nat)
    requires Settled(s, p, u) && Extends(s, s') && u <= u'
    ensures Settled(s', p, u')
  {
    if p != [] {
      var t: nat, k: nat :| SettledBy(s, p, u, t, k);
      ChosenStable(s, s', t, k);
      ChosenIsOwn(s', t, k);
      assert SettledBy(s', p, u', t, k);
    }
  }

  lemma SettledShorter(s: Proto, p: Log, u: nat, q: Log)
    requires Settled(s, p, u) && q <= p
    ensures Settled(s, q, u)
  {
    if p != [] {
      var t: nat, k: nat :| SettledBy(s, p, u, t, k);
      assert SettledBy(s, q, u, t, k);
    }
  }

  /** The leader of a term holds everything settled up to it. */
  lemma SettledInLeader(s: Proto, p: Log, u: nat)
    requires Domains(s) && LeadOk(s) && LeadSafe(s) && Settled(s, p, u) && u in s.lead
    ensures p <= s.tlog[u]
  {
    if p != [] {
      var t: nat, k: nat :| SettledBy(s, p, u, t, k);
      if t < u {
        LeadersComplete(s, t, k, u);
      }
    }
  }

  lemma ChosenIsSettled(s: Proto, t: nat, k: nat)
    requires Chosen(s, t, k)
    ensures Own(s, t, k) && Settled(s, s.tlog[t][..k], t)
  {
    ChosenIsOwn(s, t, k);
    assert SettledBy(s, s.tlog[t][..k], t, t, k);
  }

  /** Two settled prefixes never disagree. */
  lemma SettledAgree(s: Proto, p: Log, u: nat, q: Log, w: nat)
    requires Domains(s) && LeadOk(s) && LeadSafe(s) && Settled(s, p, u) && Settled(s, q, w)
    ensures p <= q || q <= p
  {
    if p != [] && q != [] {
      var t: nat, k: nat :| SettledBy(s, p, u, t, k);
      var t': nat, k': nat :| SettledBy(s, q, w, t', k');
      var top := if t <= t' then t' else t;
      assert SettledBy(s, p, top, t, k) && SettledBy(s, q, top, t', k');
      SettledInLeader(s, p, top);
      SettledInLeader(s, q, top);
    }
  }

  // ---------------------------------------------------------------- invariant

  ghost predicate CommitOk(s: Proto, x: Node) {
    && x.commit <= |x.log.hist|
    && Settled(s, x.log.hist[..x.commit], x.term)
    && Settled(s, x.log.hist[..x.log.snap], x.term)
  }

  ghost predicate MailOk(s: Proto, m: Message) {
    match m.payload
    case AppendEntries(t, _, prev, _, es, lc, _) =>
      && t in s.tlog && lc <= |s.tlog[t]| && Settled(s, s.tlog[t][..lc], t)
      && (|es| < MAX_ENTRIES ==> lc <= prev + |es|)
    case InstallSnapshot(t, _, sn) => Settled(s, sn.history, t)
    case _ => true
  }

  ghost predicate NodeCommit(s: Proto, x: Node) {
    CommitOk(s, x) && forall m | m in x.outbox :: MailOk(s, m)
  }

  ghost predicate CommitInv(s: Proto, c: Cluster) {
    && (forall n | n in c.nodes :: NodeCommit(s, c.nodes[n]))
    && (forall p | p in c.net :: MailOk(s, p.msg))
  }

  lemma MailStable(s: Proto, s': Proto, m: Message)
    requires MailOk(s, m) && Extends(s, s')
    ensures MailOk(s', m)
  {
    match m.payload
    case AppendEntries(t, _, _, _, _, lc, _) =>
      SettledStable(s, s', s.tlog[t][..lc], t, t);
      assert s'.tlog[t][..lc] == s.tlog[t][..lc];
    case InstallSnapshot(t, _, sn) => SettledStable(s, s', sn.history, t, t);
    case _ =>
  }

  lemma NodeCommitStable(s: Proto, s': Proto, x: Node)
    requires NodeCommit(s, x) && Extends(s, s')
    ensures NodeCommit(s', x)
  {
    SettledStable(s, s', x.log.hist[..x.commit], x.term, x.term);
    SettledStable(s, s', x.log.hist[..x.log.snap], x.term, x.term);
    forall m | m in x.outbox ensures MailOk(s', m) {
      MailStable(s, s', m);
    }
  }

  // ---------------------------------------------------------------- events that leave logs alone

  /** The log only grows, compaction stops at the commit index, and a leader may commit. */
  ghost predicate KeepsLog(x: Node, y: Node) {
    && x.log.hist <= y.log.hist && x.term <= y.term
    && (y.log.snap == x.log.snap || y.log.snap == x.commit)
    && (y.commit == x.commit || y.commit == 0 || (y.role == Leader && y.commit > x.commit))
    && NewMail(x, y)
  }

  lemma ReplyEffect(cfg: Config, x: Node, now: int, timeout: int, from: NodeId, r: Payload)
    requires r.AppendEntriesReply?
    ensures KeepsLog(x, OnAppendEntriesReply(cfg, x, now, timeout, from, r))
  {
    if r.term == x.term && x.role == Leader {
      if r.success {
        var y := AdvanceCommit(cfg, Credit(x, from));
        CommitMail(cfg, Credit(x, from));
        TransferMail(cfg, y, from);
        MailTrans(x, y, MaybeTransferTo(cfg, y, from));
      } else {
        ReplicateMail(cfg, Backtrack(x, from, r.conflictIndex), from);
      }
    }
  }

  lemma SnapshotReplyEffect(cfg: Config, x: Node, now: int, timeout: int, from: NodeId, r: Payload)
    requires r.InstallSnapshotReply?
    ensures KeepsLog(x, OnInstallSnapshotReply(cfg, x, now, timeout, from, r))
  {
    if r.term == x.term && x.role == Leader {
      var y := AdvanceCommit(cfg, Credit(x, from));
      CommitMail(cfg, Credit(x, from));
      ReplicateMail(cfg, y, from);
      MailTrans(x, y, ReplicateTo(cfg, y, from));
    }
  }

  lemma VoteReplyEffect(cfg: Config, x: Node, now: int, timeout: int, from: NodeId, r: Payload)
    requires r.RequestVoteReply?
    ensures KeepsLog(x, OnRequestVoteReply(cfg, x, now, timeout, from, r))
  {
    var y := x.(votes := x.votes + {from});
    CandidateMail(cfg, y, now, timeout);
    LeaderMail(cfg, y, now);
  }

  lemma TimeoutEffect(cfg: Config, x: Node, now: int, timeout: int, a: Payload)
    requires a.TimeoutNow?
    ensures KeepsLog(x, OnTimeoutNow(cfg, x, now, timeout, a))
  {
    CandidateMail(cfg, if a.term > x.term then BecomeFollower(x, now, timeout, a.term) else x, now, timeout);
  }

  lemma ProposeEffect(cfg: Config, x: Node, b: Batch)
    requires x.role == Leader
    ensures KeepsLog(x, Propose(cfg, x, b).value)
  {
    var y := Proposed(x, b);
    ReplicateFirstMail(cfg, y, |cfg.peers|);
    CommitMail(cfg, ReplicateAll(cfg, y));
    MailTrans(x, ReplicateAll(cfg, y), Propose(cfg, x, b).value);
  }

  lemma BeatEffect(cfg: Config, x: Node, deadline: int)
    requires x.role == Leader
    ensures KeepsLog(x, ReplicateAll(cfg, x.(heartbeatDeadline := deadline)))
  {
    ReplicateFirstMail(cfg, x.(heartbeatDeadline := deadline), |cfg.peers|);
  }

  lemma TickEffect(cfg: Config, x: Node, now: int, timeout: int)
    ensures KeepsLog(x, Tick(cfg, x, now, timeout))
  {
    if x.started && x.role == Leader && now >= x.heartbeatDeadline {
      BeatEffect(cfg, x, now + cfg.heartbeat);
    } else if x.started && x.role != Leader {
      PreElectionMail(cfg, x, now, timeout);
    }
  }

  /** Not a request that writes the log. */
  predicate LeavesLog(e: Event) {
    e.EDeliver? ==> !e.p.msg.payload.AppendEntries? && !e.p.msg.payload.InstallSnapshot?
  }

  lemma DeliveryEffect(g: Group, c: Cluster, e: Event)
    requires Enabled(g, c, e) && LeavesLog(e) && e.EDeliver?
    ensures KeepsLog(c.nodes[Actor(e)], After(g, c, e))
  {
    var cfg, x, m := g[Actor(e)], c.nodes[Actor(e)], e.p.msg;
    match m.payload
    case RequestVote(_, _, _, _, _) =>
    case RequestVoteReply(_, _) => VoteReplyEffect(cfg, x, e.now, e.timeout, m.from, m.payload);
    case AppendEntriesReply(_, _, _) => ReplyEffect(cfg, x, e.now, e.timeout, m.from, m.payload);
    case TimeoutNow(_, _) => TimeoutEffect(cfg, x, e.now, e.timeout, m.payload);
    case InstallSnapshotReply(_) => SnapshotReplyEffect(cfg, x, e.now, e.timeout, m.from, m.payload);
    case _ =>
  }

  lemma QuietEffect(g: Group, c: Cluster, e: Event)
    requires Enabled(g, c, e) && LeavesLog(e) && DiskOk(c) && RestartsClean(c, e)
    ensures KeepsLog(c.nodes[Actor(e)], After(g, c, e))
  {
    var cfg, x := g[Actor(e)], c.nodes[Actor(e)];
    match e
    case EDeliver(_, _, _) => DeliveryEffect(g, c, e);
    case ETick(_, now, timeout) => TickEffect(cfg, x, now, timeout);
    case EPropose(_, b) =>
      if x.role == Leader {
        ProposeEffect(cfg, x, b);
      }
    case ETransfer(_, p) => TransferMail(cfg, x.(transfer := Some(p)), p);
    case _ =>
  }

  // ---------------------------------------------------------------- one event

  lemma KeptCommitIndex(s: Proto, s': Proto, n: NodeId, x: Node, y: Node)
    requires CommitOk(s, x) && KeepsLog(x, y) && Extends(s, s') && Commits(s', x, y) && s'.acked
    requires y.role == Leader ==> y.term in s'.tlog && s'.tlog[y.term] == y.log.hist
    ensures CommitOk(s', y)
  {
    var a, b := x.log.hist, y.log.hist;
    SettledStable(s, s', a[..x.commit], x.term, y.term);
    SettledStable(s, s', a[..x.log.snap], x.term, y.term);
    assert b[..x.commit] == a[..x.commit] && b[..x.log.snap] == a[..x.log.snap];
    if y.commit != x.commit && y.commit != 0 {
      ChosenIsSettled(s', y.term, y.commit);
    }
  }

  lemma KeptMail(g: Group, s: Proto, s': Proto, n: NodeId, x: Node, y: Node)
    requires Domains(s') && LeaderHolds(s') && NodeOk(g, s', n, y)
    requires NodeCommit(s, x) && NewMail(x, y) && Extends(s, s') && CommitOk(s', y)
    ensures NodeCommit(s', y)
  {
    forall m | m in y.outbox ensures MailOk(s', m) {
      if m in x.outbox {
        MailStable(s, s', m);
      } else {
        PromiseIsOk(g, s', n, y, m);
      }
    }
  }

  lemma PromiseIsOk(g: Group, s: Proto, n: NodeId, y: Node, m: Message)
    requires Domains(s) && LeaderHolds(s) && NodeOk(g, s, n, y) && CommitOk(s, y)
    requires m in y.outbox && Promises(y, m)
    ensures MailOk(s, m)
  {
    assert Ours(g, n, m) && MsgOk(s, y.log.snap, m);
    match m.payload
    case AppendEntries(t, _, _, _, _, lc, _) =>
      assert HoldsOwn(s, t);
      SettledShorter(s, y.log.hist[..y.commit], t, y.log.hist[..lc]);
    case InstallSnapshot(t, _, sn) =>
      SettledShorter(s, y.log.hist[..y.log.snap], t, sn.history);
    case _ =>
  }

  lemma QuietCommit(g: Group, s: Proto, s': Proto, n: NodeId, x: Node, y: Node)
    requires Domains(s') && LeaderHolds(s') && NodeOk(g, s', n, y)
    requires NodeCommit(s, x) && KeepsLog(x, y) && Extends(s, s') && Commits(s', x, y) && s'.acked
    ensures NodeCommit(s', y)
  {
    if y.role == Leader {
      LeaderLeads(g, s', n, y);
    }
    KeptCommitIndex(s, s', n, x, y);
    KeptMail(g, s, s', n, x, y);
  }

  /** Adopting a prefix of a leader's log keeps what was settled and settles what the prefix settles. */
  lemma AdoptedCommit(s: Proto, x: Node, u: nat, m: nat, y: Node)
    requires Domains(s) && LeadOk(s) && LeadSafe(s) && u in s.lead && x.term <= u && y.term == u
    requires CommitOk(s, x) && m <= |s.tlog[u]| && y.log.hist == Adopt(x.log.hist, s.tlog[u][..m])
    requires y.commit == x.commit || (y.commit <= m && Settled(s, s.tlog[u][..y.commit], u))
    requires y.log.snap == x.log.snap || (y.log.snap <= m && Settled(s, s.tlog[u][..y.log.snap], u))
    ensures CommitOk(s, y)
  {
    AdoptedPrefix(s, x.log.hist, x.term, u, m, x.commit, y.commit);
    AdoptedPrefix(s, x.log.hist, x.term, u, m, x.log.snap, y.log.snap);
  }

  lemma AdoptedPrefix(s: Proto, h: Log, t: nat, u: nat, m: nat, k: nat, k': nat)
    requires Domains(s) && LeadOk(s) && LeadSafe(s) && u in s.lead && t <= u && m <= |s.tlog[u]|
    requires k <= |h| && Settled(s, h[..k], t)
    requires k' == k || (k' <= m && Settled(s, s.tlog[u][..k'], u))
    ensures k' <= |Adopt(h, s.tlog[u][..m])| && Settled(s, Adopt(h, s.tlog[u][..m])[..k'], u)
  {
    var l := s.tlog[u];
    var h' := Adopt(h, l[..m]);
    if k' == k {
      SettledStable(s, s, h[..k], t, u);
      SettledInLeader(s, h[..k], u);
      AdoptKeeps(h, l, m, h[..k]);
      assert h'[..k] == h[..k];
    } else {
      AdoptHolds(h, l, m);
      PrefixCut(h', l[..m], k');
      assert l[..m][..k'] == l[..k'];
    }
  }

  lemma AdoptHolds(h: Log, l: Log, m: nat)
    requires m <= |l|
    ensures l[..m] <= Adopt(h, l[..m])
  {
  }

  lemma PrefixCut(h: Log, p: Log, k: nat)
    requires p <= h && k <= |p|
    ensures k <= |h| && h[..k] == p[..k]
  {
  }

  lemma SameOutbox(s: Proto, s': Proto, x: Node, y: Node)
    requires NodeCommit(s, x) && Extends(s, s') && CommitOk(s, y) && y.outbox == x.outbox
    ensures NodeCommit(s', y)
  {
    forall m | m in y.outbox ensures MailOk(s, m) {
    }
    NodeCommitStable(s, s', y);
  }

  lemma FollowedCommit(s: Proto, x: Node, now: int, timeout: int, t: nat, l: NodeId)
    requires CommitOk(s, x) && t >= x.term
    ensures CommitOk(s, FollowLeader(x, now, timeout, t, l))
  {
    SettledStable(s, s, x.log.hist[..x.commit], x.term, t);
    SettledStable(s, s, x.log.hist[..x.log.snap], x.term, t);
  }

  lemma LogMatchesLeader(s: Proto, v: LogView.View, b: nat, t: nat)
    requires TermLogs(s) && LogOk(s, v.hist, b) && t in s.tlog
    ensures LogsMatch(v.hist, s.tlog[t]) && PositiveTerms(v.hist)
  {
    var h, l := v.hist, s.tlog[t];
    forall i | 0 <= i < |h| && i < |l| && h[i].term == l[i].term ensures h[..i + 1] == l[..i + 1] {
      Matching(s, h, l, i, b, t);
    }
  }

  lemma AppendedHist(s: Proto, n: NodeId, x: Node, b: nat, a: Payload, y: Node, m: nat)
    requires TermLogs(s) && LogOk(s, x.log.hist, b) && FromLeader(s, n, a) && Appended(x, a, y)
    requires m == a.prevIndex + |a.entries|
    ensures m <= |s.tlog[a.term]| && y.log.hist == Adopt(x.log.hist, s.tlog[a.term][..m])
    ensures y.log.snap == x.log.snap && y.term == x.term
  {
    LogMatchesLeader(s, x.log, b, a.term);
    AppendAdopts(x.log, s.tlog[a.term], a.prevIndex, a.prevTerm, a.entries);
  }

  lemma AppendCommit(s: Proto, n: NodeId, x: Node, b: nat, a: Payload, m: Message, y: Node)
    requires Domains(s) && TermLogs(s) && LeadOk(s) && LeadSafe(s)
    requires CommitOk(s, x) && LogOk(s, x.log.hist, b) && x.term == a.term
    requires FromLeader(s, n, a) && m.payload == a && MailOk(s, m) && Appended(x, a, y)
    requires y.commit == x.commit || (y.commit <= a.leaderCommit && y.commit <= a.prevIndex + |a.entries|)
    ensures CommitOk(s, y)
  {
    var k: nat := a.prevIndex + |a.entries|;
    AppendedHist(s, n, x, b, a, y, k);
    if y.commit != x.commit {
      SettledShorter(s, s.tlog[a.term][..a.leaderCommit], a.term, s.tlog[a.term][..y.commit]);
    }
    AdoptedCommit(s, x, a.term, k, y);
  }

  /** An older snapshot changes at most the commit index, to something compacted long ago. */
  lemma OldSnapshotCommit(s: Proto, x: Node, index: nat, y: Node)
    requires CommitOk(s, x) && index <= x.log.snap
    requires y == x.(commit := y.commit) && (y.commit == x.commit || y.commit == index)
    ensures CommitOk(s, y)
  {
    SettledShorter(s, x.log.hist[..x.log.snap], x.term, x.log.hist[..index]);
  }

  lemma InstallCommit(s: Proto, n: NodeId, x: Node, b: nat, a: Payload, m: Message, y: Node)
    requires Domains(s) && TermLogs(s) && LeadOk(s) && LeadSafe(s)
    requires CommitOk(s, x) && LogOk(s, x.log.hist, b) && x.term == a.term
    requires SnapshotFromLeader(s, n, a) && m.payload == a && MailOk(s, m)
    requires LogView.Install(x.log, a.snapshot).Some?
    requires y == x.(log := LogView.Install(x.log, a.snapshot).value, commit := y.commit)
    requires y.commit == x.commit || y.commit == a.snapshot.index
    ensures CommitOk(s, y)
  {
    var sn := a.snapshot;
    if sn.index <= x.log.snap {
      OldSnapshotCommit(s, x, sn.index, y);
    } else {
      LogMatchesLeader(s, x.log, b, a.term);
      InstallAdopts(x.log, s.tlog[a.term], sn);
      assert sn.history == s.tlog[a.term][..sn.index];
      AdoptedCommit(s, x, a.term, sn.index, y);
    }
  }

  /** What a request can do to a follower's commit index and outbox. */
  lemma AppendClamp(cfg: Config, x: Node, now: int, timeout: int, a: Payload)
    requires a.AppendEntries?
    ensures var y := OnAppendEntries(cfg, x, now, timeout, a).0;
            y.outbox == x.outbox && (y.commit == x.commit || y.commit <= a.leaderCommit)
  {
    if a.term >= x.term {
      var z := FollowLeader(x, now, timeout, a.term, a.leader);
      assert z.outbox == x.outbox && z.commit == x.commit;
    }
  }

  lemma EntriesCommit(s: Proto, n: NodeId, cfg: Config, x: Node, b: nat, now: int, timeout: int, m: Message, y: Node)
    requires Domains(s) && TermLogs(s) && LeadOk(s) && LeadSafe(s)
    requires CommitOk(s, x) && LogOk(s, x.log.hist, b) && FromLeader(s, n, m.payload) && MailOk(s, m)
    requires y == OnAppendEntries(cfg, x, now, timeout, m.payload).0
    requires y.commit == x.commit || y.commit <= m.payload.prevIndex + |m.payload.entries|
    ensures CommitOk(s, y)
  {
    var a := m.payload;
    if a.term >= x.term {
      AppendOutcome(cfg, x, now, timeout, a);
      AppendClamp(cfg, x, now, timeout, a);
      FollowedCommit(s, x, now, timeout, a.term, a.leader);
      var z := FollowLeader(x, now, timeout, a.term, a.leader);
      if y != z {
        AppendCommit(s, n, z, b, a, m, y);
      }
    }
  }

  lemma InstallClamp(cfg: Config, x: Node, now: int, timeout: int, a: Payload)
    requires a.InstallSnapshot?
    ensures var y := OnInstallSnapshot(cfg, x, now, timeout, a).0;
            y.outbox == x.outbox && (y.commit == x.commit || y.commit == a.snapshot.index)
  {
  }

  lemma SnapshotCommit(s: Proto, n: NodeId, cfg: Config, x: Node, b: nat, now: int, timeout: int, m: Message, y: Node)
    requires Domains(s) && TermLogs(s) && LeadOk(s) && LeadSafe(s)
    requires CommitOk(s, x) && LogOk(s, x.log.hist, b) && SnapshotFromLeader(s, n, m.payload) && MailOk(s, m)
    requires y == OnInstallSnapshot(cfg, x, now, timeout, m.payload).0
    ensures CommitOk(s, y)
  {
    var a := m.payload;
    if a.term >= x.term {
      SnapshotOutcome(cfg, x, now, timeout, a);
      InstallClamp(cfg, x, now, timeout, a);
      FollowedCommit(s, x, now, timeout, a.term, a.leader);
      if Installs(x, a) {
        InstallCommit(s, n, FollowLeader(x, now, timeout, a.term, a.leader), b, a, m, y);
      }
    }
  }

  lemma AcceptedCommit(cfg: Config, x: Node, now: int, timeout: int, a: Payload, w: LogView.View)
    requires a.AppendEntries? && a.term >= x.term && a.prevIndex <= LogView.LastIndex(x.log)
    requires LogView.TermAt(x.log, a.prevIndex) == Some(a.prevTerm) && AppendEntriesFrom(x.log, a.entries) == Some(w)
    ensures var y := OnAppendEntries(cfg, x, now, timeout, a).0;
            && y.log == w
            && y.commit == (if a.leaderCommit > x.commit then Min(a.leaderCommit, LogView.LastIndex(w)) else x.commit)
  {
    var z := FollowLeader(x, now, timeout, a.term, a.leader);
    assert z.log == x.log && z.commit == x.commit;
  }

  lemma RefusedCommit(cfg: Config, x: Node, now: int, timeout: int, a: Payload)
    requires a.AppendEntries?
    requires a.term < x.term || a.prevIndex > LogView.LastIndex(x.log) ||
             LogView.TermAt(x.log, a.prevIndex) != Some(a.prevTerm) || AppendEntriesFrom(x.log, a.entries) == None
    ensures OnAppendEntries(cfg, x, now, timeout, a).0.commit == x.commit
  {
    var z := FollowLeader(x, now, timeout, a.term, a.leader);
    assert z.log == x.log && z.commit == x.commit;
  }

  /** Exactly when a request leaves the commit index alone or within what the request itself covers. */
  lemma CommitStaysCovered(cfg: Config, x: Node, now: int, timeout: int, a: Payload)
    requires a.AppendEntries? && Numbered(a.prevIndex, a.entries)
    ensures var y := OnAppendEntries(cfg, x, now, timeout, a).0;
            y.commit == x.commit || y.commit <= a.prevIndex + |a.entries| <==> !Overreaches(x, a)
  {
    FirstNewBound(x.log, a.entries, 0);
    if a.term < x.term || a.prevIndex > LogView.LastIndex(x.log) ||
       LogView.TermAt(x.log, a.prevIndex) != Some(a.prevTerm) || AppendEntriesFrom(x.log, a.entries) == None {
      RefusedCommit(cfg, x, now, timeout, a);
    } else {
      EndsWithRequest(x.log, a.prevIndex, a.entries);
      AcceptedCommit(cfg, x, now, timeout, a, AppendEntriesFrom(x.log, a.entries).value);
    }
  }

  /** Only a full request may carry a commit index past its own entries. */
  lemma ShortRequestCovers(g: Group, s: Proto, c: Cluster, e: Event)
    requires CommitInv(s, c) && Enabled(g, c, e) && e.EDeliver? && e.p.msg.payload.AppendEntries?
    requires |e.p.msg.payload.entries| < MAX_ENTRIES
    ensures CommitIsCovered(g, c, e)
  {
    var n, m := Actor(e), e.p.msg;
    assert MailOk(s, m);
    AppendClamp(g[n], c.nodes[n], e.now, e.timeout, m.payload);
  }

  lemma WritingDelivery(g: Group, s: History, c: Cluster, e: Event)
    requires CInv(g, s, c) && CommitInv(s, c) && Enabled(g, c, e) && !LeavesLog(e) && CommitIsCovered(g, c, e)
    ensures CommitOk(s, After(g, c, e)) && After(g, c, e).outbox == c.nodes[Actor(e)].outbox
  {
    var n, m := Actor(e), e.p.msg;
    var x, y := c.nodes[n], After(g, c, e);
    assert NodeOk(g, s, n, x) && NodeCommit(s, x) && MailOk(s, m) && PacketOk(g, s, c.nodes, e.p);
    assert LogOk(s, s.log[n], s.term[n]);
    if m.payload.AppendEntries? {
      AppendClamp(g[n], x, e.now, e.timeout, m.payload);
      EntriesCommit(s, n, g[n], x, x.term, e.now, e.timeout, m, y);
    } else {
      InstallClamp(g[n], x, e.now, e.timeout, m.payload);
      SnapshotCommit(s, n, g[n], x, x.term, e.now, e.timeout, m, y);
    }
  }

  lemma ActorCommit(g: Group, s: History, s': History, c: Cluster, e: Event)
    requires CInv(g, s, c) && CommitInv(s, c) && Enabled(g, c, e) && RestartsClean(c, e) && CommitIsCovered(g, c, e)
    requires Taken(g, s, s', c, e) && s'.acked
    ensures NodeCommit(s', After(g, c, e))
  {
    var n := Actor(e);
    var x, y := c.nodes[n], After(g, c, e);
    if LeavesLog(e) {
      QuietEffect(g, c, e);
      assert NodeOk(g, s', n, Next(g, c, e).nodes[n]);
      QuietCommit(g, s, s', n, x, y);
    } else {
      WritingDelivery(g, s, c, e);
      SameOutbox(s, s', x, y);
    }
  }

  lemma EmittedIsOk(g: Group, s: Proto, c: Cluster, e: Event, p: Packet)
    requires CommitInv(s, c) && Enabled(g, c, e) && p in Emitted(g, c, e)
    ensures MailOk(s, p.msg)
  {
    if e.EFlush? {
      assert p.msg in c.nodes[Actor(e)].outbox && NodeCommit(s, c.nodes[Actor(e)]);
    }
  }

  /** Every event keeps what the nodes and the messages report as committed settled. */
  lemma NodesKeepCommit(g: Group, s: History, s': History, c: Cluster, e: Event)
    requires CInv(g, s, c) && CommitInv(s, c) && Enabled(g, c, e) && RestartsClean(c, e) && CommitIsCovered(g, c, e)
    requires Taken(g, s, s', c, e) && s'.acked
    ensures forall n | n in Next(g, c, e).nodes :: NodeCommit(s', Next(g, c, e).nodes[n])
  {
    var c' := Next(g, c, e);
    ActorCommit(g, s, s', c, e);
    forall n | n in c'.nodes ensures NodeCommit(s', c'.nodes[n]) {
      if n != Actor(e) {
        NodeCommitStable(s, s', c.nodes[n]);
      }
    }
  }

  lemma CommitKept(g: Group, s: History, s': History, c: Cluster, e: Event)
    requires CInv(g, s, c) && CommitInv(s, c) && Enabled(g, c, e) && RestartsClean(c, e) && CommitIsCovered(g, c, e)
    requires Taken(g, s, s', c, e) && s'.acked
    ensures CommitInv(s', Next(g, c, e))
  {
    var c' := Next(g, c, e);
    NodesKeepCommit(g, s, s', c, e);
    forall p | p in c'.net ensures MailOk(s', p.msg) {
      if p !in c.net {
        EmittedIsOk(g, s, c, e, p);
      }
      MailStable(s, s', p.msg);
    }
  }
}
