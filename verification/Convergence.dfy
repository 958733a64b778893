/** A leader brings its followers up to date: the exchanges of `CatchUp`, by the handlers and from every reachable state. */
module Convergence {
  import opened RaftTypes
  import opened NodeSpec
  import opened Cluster
  import opened Replication
  import LogView
  import opened Protocol
  import opened ClusterInv
  import opened Commitment
  import opened Safety
  import opened Progress
  import CatchUp

  // ---------------------------------------------------------------- one round between two nodes

  /** The leader's next request to the follower, the follower's answer, and the leader taking it in. */
  function Round(cfg: Config, of: Config, x: Node, y: Node, now: int, timeout: int): (Node, Node) {
    var z := ReplicateTo(cfg, x, of.self);
    var a := z.outbox[|z.outbox| - 1].payload;
    if a.AppendEntries? then
      var (w, r) := OnAppendEntries(of, y, now, timeout, a);
      (OnAppendEntriesReply(cfg, z, now, timeout, of.self, r), w)
    else if a.InstallSnapshot? then
      var (w, r) := OnInstallSnapshot(of, y, now, timeout, a);
      (OnInstallSnapshotReply(cfg, z, now, timeout, of.self, r), w)
    else (z, y)
  }

  function PairOf(x: Node, y: Node, f: NodeId): CatchUp.Pair {
    CatchUp.Pair(x.log, y.log, NextIndex(x, f), MatchIndex(x, f))
  }

  /** What a round leaves as it was. */
  predicate Leads(x: Node, y: Node, z: Node, w: Node) {
    z.role == Leader && z.term == x.term && w.term == x.term && z.log == x.log
  }

  lemma CreditIs(cfg: Config, x: Node, z: Node, y: Node, w: Node, f: NodeId, upTo: nat, u: Node)
    requires x.role == Leader && z == x.(lastSent := x.lastSent[f := upTo], outbox := z.outbox)
    requires SameKnowledge(AdvanceCommit(cfg, Credit(z, f)), u)
    ensures PairOf(u, w, f) == CatchUp.Credited(PairOf(x, y, f), w.log, upTo)
    ensures u.role == Leader && u.term == x.term && u.log == x.log
  {
  }

  lemma SnapshotSent(cfg: Config, x: Node, f: NodeId)
    requires NextIndex(x, f) <= x.log.snap
    ensures ReplicateTo(cfg, x, f) ==
            x.(lastSent := x.lastSent[f := x.log.snap],
               outbox := x.outbox + [Message(cfg.self, f, InstallSnapshot(x.term, cfg.self, SnapshotOf(x.log)))])
  {
  }

  lemma FollowerInstalls(of: Config, t: nat, y: Node, now: int, timeout: int, a: Payload)
    requires a.InstallSnapshot? && a.term == t && y.term <= t
    ensures var (w, r) := OnInstallSnapshot(of, y, now, timeout, a);
            var v := LogView.Install(y.log, a.snapshot);
            r == InstallSnapshotReply(t) && w.term == t && w.log == if v.Some? then v.value else y.log
  {
    assert FollowLeader(y, now, timeout, a.term, a.leader).log == y.log;
  }

  lemma RoundOfSnapshot(cfg: Config, of: Config, x: Node, y: Node, now: int, timeout: int, z: Node, a: Payload)
    requires z == ReplicateTo(cfg, x, of.self) && z.outbox == x.outbox + [Message(cfg.self, of.self, a)] && a.InstallSnapshot?
    ensures var (w, r) := OnInstallSnapshot(of, y, now, timeout, a);
            Round(cfg, of, x, y, now, timeout) == (OnInstallSnapshotReply(cfg, z, now, timeout, of.self, r), w)
  {
  }

  lemma InstalledIs(cfg: Config, x: Node, z: Node, y: Node, w: Node, f: NodeId, upTo: nat, now: int, timeout: int)
    requires x.role == Leader && z == x.(lastSent := x.lastSent[f := upTo], outbox := z.outbox)
    ensures var u := OnInstallSnapshotReply(cfg, z, now, timeout, f, InstallSnapshotReply(x.term));
            && u.role == Leader && u.term == x.term && u.log == x.log
            && PairOf(u, w, f) == CatchUp.Credited(PairOf(x, y, f), w.log, upTo)
  {
    var v := AdvanceCommit(cfg, Credit(z, f));
    CreditIs(cfg, x, z, y, w, f, upTo, ReplicateTo(cfg, v, f));
  }

  lemma SnapshotExchange(s: CatchUp.Pair, v: LogView.View)
    requires s.next <= s.x.snap
    requires var o := LogView.Install(s.y, SnapshotOf(s.x)); v == if o.Some? then o.value else s.y
    ensures CatchUp.Exchange(s) == CatchUp.Credited(s, v, s.x.snap)
  {
  }

  lemma SnapshotRoundIs(cfg: Config, of: Config, x: Node, y: Node, now: int, timeout: int)
    requires x.role == Leader && y.term <= x.term && NextIndex(x, of.self) <= x.log.snap
    ensures var (z, w) := Round(cfg, of, x, y, now, timeout);
            Leads(x, y, z, w) && PairOf(z, w, of.self) == CatchUp.Exchange(PairOf(x, y, of.self))
  {
    var f := of.self;
    var a := InstallSnapshot(x.term, cfg.self, SnapshotOf(x.log));
    var z := ReplicateTo(cfg, x, f);
    SnapshotSent(cfg, x, f);
    RoundOfSnapshot(cfg, of, x, y, now, timeout, z, a);
    FollowerInstalls(of, x.term, y, now, timeout, a);
    var w := OnInstallSnapshot(of, y, now, timeout, a).0;
    InstalledIs(cfg, x, z, y, w, f, x.log.snap, now, timeout);
    SnapshotExchange(PairOf(x, y, f), w.log);
  }

  lemma SentUpTo(cfg: Config, x: Node, f: NodeId)
    requires NextIndex(x, f) > x.log.snap
    ensures var next := NextIndex(x, f);
            && AppendRequest(cfg, x, next).entries == CatchUp.Slice(x.log, next)
            && ReplicateTo(cfg, x, f) ==
               x.(lastSent := x.lastSent[f := next - 1 + |CatchUp.Slice(x.log, next)|],
                  outbox := x.outbox + [Message(cfg.self, f, AppendRequest(cfg, x, next))])
  {
    var next := NextIndex(x, f);
    var es := CatchUp.Slice(x.log, next);
    if es != [] {
      assert es[|es| - 1] == LogView.Wire(x.log.hist, next + |es| - 1);
    }
  }

  /** How a log takes a request: what it becomes, whether that is a success, and the hint given if not. */
  predicate Answered(y: LogView.View, prev: nat, prevTerm: nat, es: seq<WireEntry>, v: LogView.View, success: bool, hint: nat) {
    var last, t := LogView.LastIndex(y), LogView.TermAt(y, prev);
    if prev > last || t.None? then v == y && !success && hint == last + 1
    else if t.value != prevTerm then v == y && !success && hint == prev
    else match AppendEntriesFrom(y, es)
      case None => v == y && !success && hint == 0
      case Some(w) => v == w && success
  }

  lemma FollowerTakes(of: Config, t: nat, y: Node, now: int, timeout: int, a: Payload) returns (w: Node, r: Payload)
    requires a.AppendEntries? && a.term == t && y.term <= t
    ensures OnAppendEntries(of, y, now, timeout, a) == (w, r)
    ensures w.term == t && r.AppendEntriesReply? && r.term == t
    ensures Answered(y.log, a.prevIndex, a.prevTerm, a.entries, w.log, r.success, r.conflictIndex)
  {
    var (v, s) := OnAppendEntries(of, y, now, timeout, a);
    w, r := v, s;
    assert FollowLeader(y, now, timeout, a.term, a.leader).log == y.log;
  }

  lemma RefusedIs(cfg: Config, x: Node, z: Node, y: Node, w: Node, f: NodeId, conflict: nat, now: int, timeout: int, r: Payload)
    requires x.role == Leader && z == x.(lastSent := z.lastSent, outbox := z.outbox) && w.log == y.log
    requires r == AppendEntriesReply(x.term, false, conflict)
    ensures var u := OnAppendEntriesReply(cfg, z, now, timeout, f, r);
            var hint := if conflict > 0 then conflict else if NextIndex(x, f) > 0 then NextIndex(x, f) - 1 else 0;
            && u.role == Leader && u.term == x.term && u.log == x.log
            && PairOf(u, w, f) == PairOf(x, y, f).(next := if hint < 1 then 1 else hint)
  {
  }

  lemma AcceptedIs(cfg: Config, x: Node, z: Node, y: Node, w: Node, f: NodeId, upTo: nat, now: int, timeout: int, r: Payload)
    requires x.role == Leader && z == x.(lastSent := x.lastSent[f := upTo], outbox := z.outbox)
    requires r.AppendEntriesReply? && r.term == x.term && r.success
    ensures var u := OnAppendEntriesReply(cfg, z, now, timeout, f, r);
            && u.role == Leader && u.term == x.term && u.log == x.log
            && PairOf(u, w, f) == CatchUp.Credited(PairOf(x, y, f), w.log, upTo)
  {
    var u := OnAppendEntriesReply(cfg, z, now, timeout, f, r);
    TransferKnows(cfg, AdvanceCommit(cfg, Credit(z, f)), f);
    CreditIs(cfg, x, z, y, w, f, upTo, u);
  }

  lemma RoundOfAppend(cfg: Config, of: Config, x: Node, y: Node, now: int, timeout: int, z: Node, a: Payload,
                      w: Node, r: Payload)
    requires z == ReplicateTo(cfg, x, of.self) && z.outbox == x.outbox + [Message(cfg.self, of.self, a)]
    requires a.AppendEntries? && OnAppendEntries(of, y, now, timeout, a) == (w, r)
    ensures r.AppendEntriesReply? && Round(cfg, of, x, y, now, timeout) == (OnAppendEntriesReply(cfg, z, now, timeout, of.self, r), w)
  {
  }

  /** What the exchange makes of such an answer. */
  lemma AppendExchange(s: CatchUp.Pair, p: nat, es: seq<WireEntry>, v: LogView.View, success: bool, hint: nat)
    requires s.next > s.x.snap && p == s.next - 1 && es == CatchUp.Slice(s.x, s.next)
    requires Answered(s.y, p, CatchUp.PrevTerm(s.x, p), es, v, success, hint)
    ensures CatchUp.Exchange(s) ==
            if success then CatchUp.Credited(s, v, p + |es|) else s.(next := if hint > 0 then hint else if p < 1 then 1 else p)
    ensures !success ==> v == s.y
  {
  }

  lemma AnswerTaken(cfg: Config, x: Node, z: Node, y: Node, w: Node, f: NodeId, p: nat, es: seq<WireEntry>,
                    now: int, timeout: int, r: Payload)
    requires x.role == Leader && NextIndex(x, f) > x.log.snap && p == NextIndex(x, f) - 1 && es == CatchUp.Slice(x.log, p + 1)
    requires z == x.(lastSent := x.lastSent[f := p + |es|], outbox := z.outbox)
    requires r.AppendEntriesReply? && r.term == x.term
    requires Answered(y.log, p, CatchUp.PrevTerm(x.log, p), es, w.log, r.success, r.conflictIndex)
    ensures var u := OnAppendEntriesReply(cfg, z, now, timeout, f, r);
            && u.role == Leader && u.term == x.term && u.log == x.log
            && PairOf(u, w, f) == CatchUp.Exchange(PairOf(x, y, f))
  {
    AppendExchange(PairOf(x, y, f), p, es, w.log, r.success, r.conflictIndex);
    if r.success {
      AcceptedIs(cfg, x, z, y, w, f, p + |es|, now, timeout, r);
    } else {
      RefusedIs(cfg, x, z, y, w, f, r.conflictIndex, now, timeout, r);
    }
  }

  lemma RequestIs(cfg: Config, x: Node, next: nat)
    requires next > x.log.snap
    ensures var a := AppendRequest(cfg, x, next);
            && a.AppendEntries? && a.term == x.term && a.prevIndex == next - 1
            && a.prevTerm == CatchUp.PrevTerm(x.log, next - 1) && a.entries == CatchUp.Slice(x.log, next)
  {
  }

  /** The request `a` that goes with index `p` and the entries after it. */
  predicate IsRequest(x: Node, p: nat, es: seq<WireEntry>, a: Payload) {
    a.AppendEntries? && a.term == x.term && a.prevIndex == p && a.prevTerm == CatchUp.PrevTerm(x.log, p) && a.entries == es
  }

  lemma AppendSent(cfg: Config, x: Node, f: NodeId, p: nat, es: seq<WireEntry>) returns (z: Node, a: Payload)
    requires p == NextIndex(x, f) - 1 && p >= x.log.snap && es == CatchUp.Slice(x.log, p + 1)
    ensures z == ReplicateTo(cfg, x, f) && z.outbox == x.outbox + [Message(cfg.self, f, a)]
    ensures z == x.(lastSent := x.lastSent[f := p + |es|], outbox := z.outbox)
    ensures IsRequest(x, p, es, a)
  {
    a := AppendRequest(cfg, x, p + 1);
    z := ReplicateTo(cfg, x, f);
    RequestIs(cfg, x, p + 1);
    SentUpTo(cfg, x, f);
  }

  lemma AnswerTo(cfg: Config, of: Config, x: Node, y: Node, now: int, timeout: int, p: nat, es: seq<WireEntry>, z: Node, a: Payload)
    returns (w: Node, r: Payload)
    requires y.term <= x.term && IsRequest(x, p, es, a)
    requires z == ReplicateTo(cfg, x, of.self) && z.outbox == x.outbox + [Message(cfg.self, of.self, a)]
    ensures r.AppendEntriesReply? && r.term == x.term && w.term == x.term
    ensures Answered(y.log, p, CatchUp.PrevTerm(x.log, p), es, w.log, r.success, r.conflictIndex)
    ensures Round(cfg, of, x, y, now, timeout) == (OnAppendEntriesReply(cfg, z, now, timeout, of.self, r), w)
  {
    w, r := FollowerTakes(of, x.term, y, now, timeout, a);
    RoundOfAppend(cfg, of, x, y, now, timeout, z, a, w, r);
  }

  lemma AppendAnswer(cfg: Config, of: Config, x: Node, y: Node, now: int, timeout: int, p: nat, es: seq<WireEntry>)
    returns (z: Node, w: Node, r: Payload)
    requires y.term <= x.term && p == NextIndex(x, of.self) - 1 && p >= x.log.snap && es == CatchUp.Slice(x.log, p + 1)
    ensures z == x.(lastSent := x.lastSent[of.self := p + |es|], outbox := z.outbox)
    ensures r.AppendEntriesReply? && r.term == x.term && w.term == x.term
    ensures Answered(y.log, p, CatchUp.PrevTerm(x.log, p), es, w.log, r.success, r.conflictIndex)
    ensures Round(cfg, of, x, y, now, timeout) == (OnAppendEntriesReply(cfg, z, now, timeout, of.self, r), w)
  {
    var a;
    z, a := AppendSent(cfg, x, of.self, p, es);
    w, r := AnswerTo(cfg, of, x, y, now, timeout, p, es, z, a);
  }

  lemma AppendRoundIs(cfg: Config, of: Config, x: Node, y: Node, now: int, timeout: int)
    requires x.role == Leader && y.term <= x.term && NextIndex(x, of.self) > x.log.snap
    ensures var (z, w) := Round(cfg, of, x, y, now, timeout);
            Leads(x, y, z, w) && PairOf(z, w, of.self) == CatchUp.Exchange(PairOf(x, y, of.self))
  {
    var p := NextIndex(x, of.self) - 1;
    var es := CatchUp.Slice(x.log, p + 1);
    var z, w, r := AppendAnswer(cfg, of, x, y, now, timeout, p, es);
    AnswerTaken(cfg, x, z, y, w, of.self, p, es, now, timeout, r);
  }

  /** A round is an exchange. */
  lemma RoundIsExchange(cfg: Config, of: Config, x: Node, y: Node, now: int, timeout: int)
    requires x.role == Leader && y.term <= x.term
    ensures var (z, w) := Round(cfg, of, x, y, now, timeout);
            Leads(x, y, z, w) && PairOf(z, w, of.self) == CatchUp.Exchange(PairOf(x, y, of.self))
  {
    if NextIndex(x, of.self) <= x.log.snap {
      SnapshotRoundIs(cfg, of, x, y, now, timeout);
    } else {
      AppendRoundIs(cfg, of, x, y, now, timeout);
    }
  }

  // ---------------------------------------------------------------- what holds of every node

  /** Offsets never fall below zero, and a leader never asks a peer for what lies before the first entry. */
  ghost predicate Tidy(cfg: Config, x: Node) {
    x.log.origin >= 0 && (x.role == Leader ==> forall p | p in cfg.peers :: NextIndex(x, p) >= 1)
  }

  lemma {:induction false} BroadcastKnows(cfg: Config, x: Node, pre: bool, k: nat)
    requires k <= |cfg.peers|
    ensures SameKnowledge(x, BroadcastTo(cfg, x, pre, k))
  {
    if k > 0 {
      BroadcastKnows(cfg, x, pre, k - 1);
    }
  }

  lemma LeaderIsTidy(cfg: Config, x: Node, now: int)
    requires x.log.origin >= 0
    ensures Tidy(cfg, BecomeLeader(cfg, x, now))
  {
    ReplicateKnows(cfg, Crowned(cfg, x, now), |cfg.peers|);
  }

  lemma CandidateIsTidy(cfg: Config, x: Node, now: int, timeout: int)
    requires x.log.origin >= 0
    ensures Tidy(cfg, BecomeCandidate(cfg, x, now, timeout))
  {
    var z := Standing(cfg, x, now, timeout);
    LeaderIsTidy(cfg, z, now);
    BroadcastKnows(cfg, z, false, |cfg.peers|);
  }

  lemma ProbeIsTidy(cfg: Config, x: Node, now: int, timeout: int)
    requires x.log.origin >= 0
    ensures Tidy(cfg, StartPreElection(cfg, x, now, timeout))
  {
    var z := Probing(cfg, x, now, timeout);
    CandidateIsTidy(cfg, z, now, timeout);
    BroadcastKnows(cfg, z, true, |cfg.peers|);
  }

  lemma TickIsTidy(cfg: Config, x: Node, now: int, timeout: int)
    requires Tidy(cfg, x)
    ensures Tidy(cfg, Tick(cfg, x, now, timeout))
  {
    ProbeIsTidy(cfg, x, now, timeout);
    ReplicateKnows(cfg, x.(heartbeatDeadline := now + cfg.heartbeat), |cfg.peers|);
  }

  lemma VoteReplyIsTidy(cfg: Config, x: Node, now: int, timeout: int, from: NodeId, r: Payload)
    requires Tidy(cfg, x) && r.RequestVoteReply?
    ensures Tidy(cfg, OnRequestVoteReply(cfg, x, now, timeout, from, r))
  {
    var z := x.(votes := x.votes + {from});
    CandidateIsTidy(cfg, z, now, timeout);
    LeaderIsTidy(cfg, z, now);
  }

  lemma CreditIsTidy(cfg: Config, x: Node, from: NodeId, y: Node)
    requires Tidy(cfg, x) && SameKnowledge(AdvanceCommit(cfg, Credit(x, from)), y)
    ensures Tidy(cfg, y)
  {
  }

  lemma AppendReplyIsTidy(cfg: Config, x: Node, now: int, timeout: int, from: NodeId, r: Payload)
    requires Tidy(cfg, x) && r.AppendEntriesReply?
    ensures Tidy(cfg, OnAppendEntriesReply(cfg, x, now, timeout, from, r))
  {
    if x.role == Leader && r.term == x.term && r.success {
      var z := AdvanceCommit(cfg, Credit(x, from));
      TransferKnows(cfg, z, from);
      CreditIsTidy(cfg, x, from, MaybeTransferTo(cfg, z, from));
    }
  }

  lemma SnapshotReplyIsTidy(cfg: Config, x: Node, now: int, timeout: int, from: NodeId, r: Payload)
    requires Tidy(cfg, x) && r.InstallSnapshotReply?
    ensures Tidy(cfg, OnInstallSnapshotReply(cfg, x, now, timeout, from, r))
  {
    if x.role == Leader && r.term == x.term {
      CreditIsTidy(cfg, x, from, ReplicateTo(cfg, AdvanceCommit(cfg, Credit(x, from)), from));
    }
  }

  lemma AppendedOrigin(v: LogView.View, es: seq<WireEntry>)
    ensures AppendEntriesFrom(v, es).Some? ==> AppendEntriesFrom(v, es).value.origin == v.origin
  {
    FirstNewBound(v, es, 0);
  }

  lemma EntriesAreTidy(cfg: Config, x: Node, now: int, timeout: int, a: Payload)
    requires Tidy(cfg, x) && a.AppendEntries?
    ensures Tidy(cfg, OnAppendEntries(cfg, x, now, timeout, a).0)
  {
    AppendedOrigin(x.log, a.entries);
    EntriesLeadOn(cfg, x, now, timeout, a);
    assert FollowLeader(x, now, timeout, a.term, a.leader).log == x.log;
  }

  lemma SnapshotIsTidy(cfg: Config, x: Node, now: int, timeout: int, a: Payload)
    requires Tidy(cfg, x) && a.InstallSnapshot?
    ensures Tidy(cfg, OnInstallSnapshot(cfg, x, now, timeout, a).0)
  {
    SnapshotLeadsOn(cfg, x, now, timeout, a);
    assert FollowLeader(x, now, timeout, a.term, a.leader).log == x.log;
  }

  lemma DeliveryIsTidy(cfg: Config, x: Node, p: Packet, now: int, timeout: int)
    requires Tidy(cfg, x)
    ensures Tidy(cfg, Handle(cfg, x, p, now, timeout).0)
  {
    var from, a := p.msg.from, p.msg.payload;
    match a
    case RequestVote(_, _, _, _, _) =>
    case RequestVoteReply(_, _) => VoteReplyIsTidy(cfg, x, now, timeout, from, a);
    case AppendEntries(_, _, _, _, _, _, _) => EntriesAreTidy(cfg, x, now, timeout, a);
    case AppendEntriesReply(_, _, _) => AppendReplyIsTidy(cfg, x, now, timeout, from, a);
    case TimeoutNow(_, _) =>
      CandidateIsTidy(cfg, if a.term > x.term then BecomeFollower(x, now, timeout, a.term) else x, now, timeout);
    case InstallSnapshot(_, _, _) => SnapshotIsTidy(cfg, x, now, timeout, a);
    case InstallSnapshotReply(_) => SnapshotReplyIsTidy(cfg, x, now, timeout, from, a);
  }

  lemma ProposeIsTidy(cfg: Config, x: Node, b: Batch)
    requires Tidy(cfg, x) && x.role == Leader
    ensures Tidy(cfg, Propose(cfg, x, b).value)
  {
    ReplicateKnows(cfg, Proposed(x, b), |cfg.peers|);
  }

  lemma EventIsTidy(g: Group, c: Cluster, e: Event)
    requires Enabled(g, c, e) && Tidy(g[Actor(e)], c.nodes[Actor(e)])
    ensures Tidy(g[Actor(e)], After(g, c, e))
  {
    var cfg, x := g[Actor(e)], c.nodes[Actor(e)];
    match e
    case ETick(_, now, timeout) => TickIsTidy(cfg, x, now, timeout);
    case EDeliver(p, now, timeout) => DeliveryIsTidy(cfg, x, p, now, timeout);
    case EPropose(_, b) =>
      if x.role == Leader {
        ProposeIsTidy(cfg, x, b);
      }
    case ETransfer(_, target) => TransferKnows(cfg, x.(transfer := Some(target)), target);
    case _ =>
  }

  ghost predicate AllTidy(g: Group, c: Cluster) {
    forall n | n in c.nodes :: n in g && Tidy(g[n], c.nodes[n])
  }

  lemma StaysTidy(g: Group, c: Cluster, e: Event)
    requires AllTidy(g, c) && Enabled(g, c, e)
    ensures AllTidy(g, Next(g, c, e))
  {
    EventIsTidy(g, c, e);
    assert Next(g, c, e).nodes == c.nodes[Actor(e) := After(g, c, e)];
  }

  lemma {:induction false} NodesAreTidy(g: Group, cs: seq<Cluster>, es: seq<Event>, i: nat)
    requires Run(g, cs, es) && i < |cs|
    ensures AllTidy(g, cs[i])
  {
    if i > 0 {
      NodesAreTidy(g, cs, es, i - 1);
      assert cs[(i - 1) + 1] == Next(g, cs[i - 1], es[i - 1]);
      StaysTidy(g, cs[i - 1], es[i - 1]);
    }
  }

  // ---------------------------------------------------------------- in every run

  lemma LogsRelate(s: History, x: Log, t: nat, y: Log, u: nat)
    requires LogOk(s, x, t) && LogOk(s, y, u)
    ensures PositiveTerms(x) && PositiveTerms(y) && LogsMatch(y, x)
  {
    forall i | 0 <= i < |y| && i < |x| && y[i].term == x[i].term ensures y[..i + 1] == x[..i + 1] {
      Matching(s, y, x, i, u, t);
    }
  }

  lemma CompactedIsLed(g: Group, s: History, c: Cluster, n: NodeId, f: NodeId)
    requires CInv(g, s, c) && CommitInv(s, c) && IsLeader(c, n) && f in c.nodes && c.nodes[f].term <= c.nodes[n].term
    ensures var y := c.nodes[f].log; y.hist[..y.snap] <= LogOf(c, n)
  {
    var x, y := c.nodes[n], c.nodes[f];
    LeaderIsRecorded(g, s, c, n);
    assert NodeCommit(s, y);
    SettledStable(s, s, y.log.hist[..y.log.snap], y.term, x.term);
    SettledInLeader(s, y.log.hist[..y.log.snap], x.term);
  }

  /** At every moment of every run, a leader and any peer not ahead of it are related as an exchange needs. */
  lemma RunsAreRelated(g: Group, cs: seq<Cluster>, es: seq<Event>, i: nat, n: NodeId, f: NodeId)
    requires CoveredRun(g, cs, es) && i < |cs| && IsLeader(cs[i], n) && f in cs[i].nodes && f != n
    requires cs[i].nodes[f].term <= cs[i].nodes[n].term
    ensures CatchUp.Related(PairOf(cs[i].nodes[n], cs[i].nodes[f], f))
  {
    var x, y := cs[i].nodes[n], cs[i].nodes[f];
    var o := Begins(g);
    var s := CoveredRunsOn(g, cs, es, 0, o, i);
    LogIsRooted(g, s, cs[i], n);
    LogIsRooted(g, s, cs[i], f);
    LogsRelate(s, x.log.hist, x.term, y.log.hist, y.term);
    CompactedIsLed(g, s, cs[i], n, f);
    LeaderIsOrderly(g, s, cs[i], n);
    NodesAreTidy(g, cs, es, i);
    assert f in g[n].peers;
  }

  /** Rounds one after the other, at any times and with any timeouts drawn. */
  ghost predicate RoundRun(cfg: Config, of: Config, rs: seq<(Node, Node)>, ts: seq<(int, int)>) {
    && |rs| == |ts| + 1
    && forall i | 0 <= i < |ts| :: rs[i + 1] == Round(cfg, of, rs[i].0, rs[i].1, ts[i].0, ts[i].1)
  }

  /** `z` still leads with the log of `x`, `w` is not ahead, and `k` exchanges lead from `s` to where they are. */
  ghost predicate Follows(x: Node, s: CatchUp.Pair, f: NodeId, k: nat, z: Node, w: Node) {
    z.role == Leader && z.term == x.term && w.term <= x.term && z.log == x.log && PairOf(z, w, f) == CatchUp.Exchanged(s, k)
  }

  lemma OneMoreRound(cfg: Config, of: Config, x: Node, s: CatchUp.Pair, z: Node, w: Node, now: int, timeout: int, k: nat)
    requires Follows(x, s, of.self, k, z, w)
    ensures Follows(x, s, of.self, k + 1, Round(cfg, of, z, w, now, timeout).0, Round(cfg, of, z, w, now, timeout).1)
  {
    RoundIsExchange(cfg, of, z, w, now, timeout);
    CatchUp.Steps(s, k);
  }

  lemma RunStep(cfg: Config, of: Config, rs: seq<(Node, Node)>, ts: seq<(int, int)>, x: Node, s: CatchUp.Pair, k: nat)
    requires RoundRun(cfg, of, rs, ts) && k < |ts| && Follows(x, s, of.self, k, rs[k].0, rs[k].1)
    ensures Follows(x, s, of.self, k + 1, rs[k + 1].0, rs[k + 1].1)
  {
    OneMoreRound(cfg, of, x, s, rs[k].0, rs[k].1, ts[k].0, ts[k].1, k);
  }

  lemma {:induction false} RoundsAreExchanges(cfg: Config, of: Config, rs: seq<(Node, Node)>, ts: seq<(int, int)>,
                                              x: Node, s: CatchUp.Pair, k: nat)
    requires RoundRun(cfg, of, rs, ts) && k < |rs| && Follows(x, s, of.self, 0, rs[0].0, rs[0].1)
    ensures Follows(x, s, of.self, k, rs[k].0, rs[k].1)
  {
    if k > 0 {
      var j := k - 1;
      RoundsAreExchanges(cfg, of, rs, ts, x, s, j);
      RunStep(cfg, of, rs, ts, x, s, j);
    }
  }

  lemma StartFollows(x: Node, y: Node, f: NodeId)
    requires x.role == Leader && y.term <= x.term
    ensures Follows(x, PairOf(x, y, f), f, 0, x, y)
  {
  }

  /** `z` still leads with its log, the follower `w` holds all of it, and `z` knows. */
  ghost predicate CaughtUp(x: Node, f: NodeId, z: Node, w: Node) {
    z.role == Leader && z.log == x.log && x.log.hist <= w.log.hist && MatchIndex(z, f) == |x.log.hist|
  }

  /** The leader has compacted nothing and starts over from its first entry, which the follower has compacted away. */
  predicate Wedged(x: Node, y: Node, f: NodeId) {
    NextIndex(x, f) == 1 && x.log.snap == 0 && y.log.snap >= 2
  }

  lemma CaughtUpThen(x: Node, s: CatchUp.Pair, f: NodeId, k: nat, z: Node, w: Node)
    requires Follows(x, s, f, k, z, w) && CatchUp.UpToDate(CatchUp.Exchanged(s, k))
    ensures CaughtUp(x, f, z, w)
  {
  }

  /**
    From any reachable state, rounds between a leader and a peer not ahead of it bring the peer up to
    date, whatever its log was, unless the two are wedged.
   */
  lemma FollowerCatchesUp(g: Group, cs: seq<Cluster>, es: seq<Event>, i: nat, n: NodeId, f: NodeId) returns (k: nat)
    requires CoveredRun(g, cs, es) && i < |cs| && IsLeader(cs[i], n) && f in cs[i].nodes && f != n && n in g && f in g
    requires cs[i].nodes[f].term <= cs[i].nodes[n].term && !Wedged(cs[i].nodes[n], cs[i].nodes[f], f)
    ensures forall rs: seq<(Node, Node)>, ts | RoundRun(g[n], g[f], rs, ts) && rs[0] == (cs[i].nodes[n], cs[i].nodes[f]) && k < |rs| ::
              CaughtUp(cs[i].nodes[n], f, rs[k].0, rs[k].1)
  {
    var x, y := cs[i].nodes[n], cs[i].nodes[f];
    var s := PairOf(x, y, f);
    RunsAreRelated(g, cs, es, i, n, f);
    k := CatchUp.CatchesUpFrom(s, CatchUp.DistanceOf(s));
    StartFollows(x, y, f);
    forall rs: seq<(Node, Node)>, ts | RoundRun(g[n], g[f], rs, ts) && rs[0] == (x, y) && k < |rs| ensures CaughtUp(x, f, rs[k].0, rs[k].1) {
      RoundsAreExchanges(g[n], g[f], rs, ts, x, s, k);
      CaughtUpThen(x, s, f, k, rs[k].0, rs[k].1);
    }
  }

  /** And while they are wedged, no number of rounds changes the follower's log or what the leader knows of it. */
  lemma WedgedStays(g: Group, cs: seq<Cluster>, es: seq<Event>, i: nat, n: NodeId, f: NodeId,
                    rs: seq<(Node, Node)>, ts: seq<(int, int)>, k: nat)
    requires CoveredRun(g, cs, es) && i < |cs| && IsLeader(cs[i], n) && f in cs[i].nodes && f != n && n in g && f in g
    requires cs[i].nodes[f].term <= cs[i].nodes[n].term && Wedged(cs[i].nodes[n], cs[i].nodes[f], f)
    requires RoundRun(g[n], g[f], rs, ts) && rs[0] == (cs[i].nodes[n], cs[i].nodes[f]) && k < |rs|
    ensures Wedged(rs[k].0, rs[k].1, f) && rs[k].1.log == cs[i].nodes[f].log
    ensures MatchIndex(rs[k].0, f) == MatchIndex(cs[i].nodes[n], f)
  {
    var x, y := cs[i].nodes[n], cs[i].nodes[f];
    var s := PairOf(x, y, f);
    RunsAreRelated(g, cs, es, i, n, f);
    CatchUp.StuckStays(s, k);
    StartFollows(x, y, f);
    RoundsAreExchanges(g[n], g[f], rs, ts, x, s, k);
  }
}
