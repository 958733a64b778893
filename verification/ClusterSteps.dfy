/** Every event of a run keeps the cluster tied to a history. */
module ClusterSteps {
  import opened RaftTypes
  import opened NodeSpec
  import opened Cluster
  import opened Replication
  import LogView
  import opened Protocol
  import opened Actions
  import opened ClusterInv
  import opened NodeSteps
  import opened Handlers

  /** What elections and log matching rest on, besides the code. */
  ghost predicate Owed(c: Cluster, e: Event) {
    VoteKindKept(c, e) && RestartsClean(c, e)
  }

  /** The history knows whether acknowledgements can still be trusted. */
  ghost predicate AckFits(s: Proto, c: Cluster, e: Event) {
    s.acked ==> AckIsLatest(c, e)
  }

  /** The event was taken: the history grew with it, and its commits are safe. */
  ghost predicate Taken(g: Group, s: Proto, s': History, c: Cluster, e: Event)
    requires Enabled(g, c, e)
  {
    CInv(g, s', Next(g, c, e)) && Extends(s, s') && Commits(s', c.nodes[Actor(e)], After(g, c, e))
  }

  lemma SavesKeepDisk(c: Cluster, c': Cluster, n: NodeId, y: Node)
    requires DiskOk(c) && n in c.nodes && Saves(c.nodes[n], y)
    requires c'.nodes == c.nodes[n := y] && c'.disk == c.disk
    ensures DiskOk(c')
  {
  }

  lemma Finishes(g: Group, s: History, s': History, c: Cluster, e: Event, y: Node)
    requires CInv(g, s, c) && Enabled(g, c, e) && !e.EFlush? && y == After(g, c, e)
    requires Handled(g, s, s', Actor(e), c.nodes[Actor(e)], y)
    requires forall p | p in Emitted(g, c, e) :: PacketOk(g, s', c.nodes[Actor(e) := y], p)
    ensures Taken(g, s, s', c, e)
  {
    var c' := Next(g, c, e);
    SavesKeepDisk(c, c', Actor(e), y);
    StepIsLocal(g, s, s', c, c', Actor(e), y);
  }

  // ---------------------------------------------------------------- deliveries

  /** The node that handles the packet, and the packet itself. */
  ghost predicate Arrives(g: Group, s: Proto, c: Cluster, e: Event) {
    && Enabled(g, c, e) && e.EDeliver?
    && Setting(g, s) && NodeOk(g, s, Actor(e), c.nodes[Actor(e)])
    && PacketOk(g, s, c.nodes, e.p)
  }

  ghost predicate Delivered(g: Group, s: Proto, s': History, c: Cluster, e: Event)
    requires Enabled(g, c, e)
  {
    var n, y := Actor(e), After(g, c, e);
    && Handled(g, s, s', n, c.nodes[n], y)
    && forall p | p in Emitted(g, c, e) :: PacketOk(g, s', c.nodes[n := y], p)
  }

  lemma VoteRequested(g: Group, s: History, c: Cluster, e: Event) returns (s': History)
    requires Arrives(g, s, c, e) && e.p.msg.payload.RequestVote?
    ensures Delivered(g, s, s', c, e)
  {
    var n, m := Actor(e), e.p.msg;
    var (y, r) := OnRequestVote(g[n], c.nodes[n], e.now, e.timeout, m.payload);
    s' := RequestVoteHandled(g, s, n, c.nodes[n], e.now, e.timeout, m.payload, y, r);
  }

  lemma VoteAnswered(g: Group, s: History, c: Cluster, e: Event) returns (s': History)
    requires Arrives(g, s, c, e) && e.p.msg.payload.RequestVoteReply? && VoteKindKept(c, e)
    ensures Delivered(g, s, s', c, e)
  {
    var n := Actor(e);
    s' := VoteReplyHandled(g, s, n, c.nodes[n], e.now, e.timeout, e.p.msg.from, e.p.msg.payload);
  }

  lemma DeliveredAs(g: Group, s: Proto, s': History, c: Cluster, e: Event, y: Node, q: Packet)
    requires Enabled(g, c, e) && After(g, c, e) == y && Emitted(g, c, e) == {q}
    requires Handled(g, s, s', Actor(e), c.nodes[Actor(e)], y) && PacketOk(g, s', c.nodes[Actor(e) := y], q)
    ensures Delivered(g, s, s', c, e)
  {
  }

  /** The sender and the receiver of a packet swap roles in its reply. */
  lemma ReplyPacketOk(g: Group, s: Proto, s': Proto, nodes: map<NodeId, Node>, p: Packet, y: Node, q: Packet)
    requires PacketOk(g, s, nodes, p)
    requires q.msg.from == p.msg.to && q.msg.to == p.msg.from && IsReply(q.msg.payload)
    requires ReplyOk(s', nodes[p.msg.from].log.snap, q)
    ensures PacketOk(g, s', nodes[p.msg.to := y], q)
  {
  }

  lemma EntriesTaken(g: Group, s: History, c: Cluster, e: Event, y: Node, r: Payload, q: Packet) returns (s': History)
    requires Arrives(g, s, c, e) && e.p.msg.payload.AppendEntries?
    requires (y, r) == OnAppendEntries(g[Actor(e)], c.nodes[Actor(e)], e.now, e.timeout, e.p.msg.payload)
    requires r.AppendEntriesReply? && q.msg == Message(Actor(e), e.p.msg.from, r)
    requires q.tag == Answers(if r.success then e.p.msg.payload.prevIndex + |e.p.msg.payload.entries| else 0)
    ensures Handled(g, s, s', Actor(e), c.nodes[Actor(e)], y) && PacketOk(g, s', c.nodes[Actor(e) := y], q)
  {
    s' := AppendHandled(g, s, Actor(e), c.nodes[Actor(e)], e.now, e.timeout, e.p.msg.payload, y, r);
    ReplyPacketOk(g, s, s', c.nodes, e.p, y, q);
  }

  lemma EntriesEffect(g: Group, c: Cluster, e: Event) returns (y: Node, r: Payload, q: Packet)
    requires Enabled(g, c, e) && e.EDeliver? && e.p.msg.payload.AppendEntries?
    ensures (y, r) == OnAppendEntries(g[Actor(e)], c.nodes[Actor(e)], e.now, e.timeout, e.p.msg.payload)
    ensures r.AppendEntriesReply? && q.msg == Message(Actor(e), e.p.msg.from, r)
    ensures q.tag == Answers(if r.success then e.p.msg.payload.prevIndex + |e.p.msg.payload.entries| else 0)
    ensures After(g, c, e) == y && Emitted(g, c, e) == {q}
  {
    var n, m := Actor(e), e.p.msg;
    y := OnAppendEntries(g[n], c.nodes[n], e.now, e.timeout, m.payload).0;
    r := OnAppendEntries(g[n], c.nodes[n], e.now, e.timeout, m.payload).1;
    q := Packet(Message(n, m.from, r), Answers(if r.success then m.payload.prevIndex + |m.payload.entries| else 0));
  }

  lemma EntriesArrived(g: Group, s: History, c: Cluster, e: Event) returns (s': History)
    requires Arrives(g, s, c, e) && e.p.msg.payload.AppendEntries?
    ensures Delivered(g, s, s', c, e)
  {
    var y, r, q := EntriesEffect(g, c, e);
    s' := EntriesTaken(g, s, c, e, y, r, q);
    DeliveredAs(g, s, s', c, e, y, q);
  }

  /** The credit a leader gives is behind the acknowledgement it received. */
  lemma AckBacks(g: Group, s: Proto, c: Cluster, e: Event)
    requires Arrives(g, s, c, e) && AckFits(s, c, e)
    requires var x, a := c.nodes[Actor(e)], e.p.msg.payload;
             && x.role == Leader
             && ((a.AppendEntriesReply? && a.success) || a.InstallSnapshotReply?) && a.term == x.term
    ensures Backed(s, c.nodes[Actor(e)], e.p.msg.from)
  {
  }

  lemma EntriesAnswered(g: Group, s: History, c: Cluster, e: Event) returns (s': History)
    requires Arrives(g, s, c, e) && e.p.msg.payload.AppendEntriesReply? && AckFits(s, c, e)
    ensures Delivered(g, s, s', c, e)
  {
    var n, m := Actor(e), e.p.msg;
    var x := c.nodes[n];
    if x.role == Leader && m.payload.term == x.term && m.payload.success {
      AckBacks(g, s, c, e);
    }
    s' := AppendReplyHandled(g, s, n, x, e.now, e.timeout, m.from, m.payload);
  }

  lemma SnapshotTakenIn(g: Group, s: History, c: Cluster, e: Event, y: Node, r: Payload, q: Packet) returns (s': History)
    requires Arrives(g, s, c, e) && e.p.msg.payload.InstallSnapshot?
    requires (y, r) == OnInstallSnapshot(g[Actor(e)], c.nodes[Actor(e)], e.now, e.timeout, e.p.msg.payload)
    requires q.msg == Message(Actor(e), e.p.msg.from, r)
    requires q.tag == Answers(if Installs(c.nodes[Actor(e)], e.p.msg.payload) then e.p.msg.payload.snapshot.index else 0)
    ensures Handled(g, s, s', Actor(e), c.nodes[Actor(e)], y) && PacketOk(g, s', c.nodes[Actor(e) := y], q)
  {
    s' := SnapshotHandled(g, s, Actor(e), c.nodes[Actor(e)], e.now, e.timeout, e.p.msg.payload, y, r);
    assert ReplyOk(s', c.nodes[e.p.msg.from].log.snap, q);
    ReplyPacketOk(g, s, s', c.nodes, e.p, y, q);
  }

  lemma SnapshotEffect(g: Group, c: Cluster, e: Event) returns (y: Node, r: Payload, q: Packet)
    requires Enabled(g, c, e) && e.EDeliver? && e.p.msg.payload.InstallSnapshot?
    ensures (y, r) == OnInstallSnapshot(g[Actor(e)], c.nodes[Actor(e)], e.now, e.timeout, e.p.msg.payload)
    ensures q.msg == Message(Actor(e), e.p.msg.from, r)
    ensures q.tag == Answers(if Installs(c.nodes[Actor(e)], e.p.msg.payload) then e.p.msg.payload.snapshot.index else 0)
    ensures After(g, c, e) == y && Emitted(g, c, e) == {q}
  {
    var n, m := Actor(e), e.p.msg;
    y := OnInstallSnapshot(g[n], c.nodes[n], e.now, e.timeout, m.payload).0;
    r := OnInstallSnapshot(g[n], c.nodes[n], e.now, e.timeout, m.payload).1;
    q := Packet(Message(n, m.from, r), Answers(if Installs(c.nodes[n], m.payload) then m.payload.snapshot.index else 0));
  }

  lemma SnapshotArrived(g: Group, s: History, c: Cluster, e: Event) returns (s': History)
    requires Arrives(g, s, c, e) && e.p.msg.payload.InstallSnapshot?
    ensures Delivered(g, s, s', c, e)
  {
    var y, r, q := SnapshotEffect(g, c, e);
    s' := SnapshotTakenIn(g, s, c, e, y, r, q);
    DeliveredAs(g, s, s', c, e, y, q);
  }

  lemma SnapshotAnswered(g: Group, s: History, c: Cluster, e: Event) returns (s': History)
    requires Arrives(g, s, c, e) && e.p.msg.payload.InstallSnapshotReply? && AckFits(s, c, e)
    ensures Delivered(g, s, s', c, e)
  {
    var n, m := Actor(e), e.p.msg;
    var x := c.nodes[n];
    if x.role == Leader && m.payload.term == x.term {
      AckBacks(g, s, c, e);
    }
    s' := SnapshotReplyHandled(g, s, n, x, e.now, e.timeout, m.from, m.payload);
  }

  lemma TimeoutArrived(g: Group, s: History, c: Cluster, e: Event) returns (s': History)
    requires Arrives(g, s, c, e) && e.p.msg.payload.TimeoutNow?
    ensures Delivered(g, s, s', c, e)
  {
    var n := Actor(e);
    s' := TimeoutNowHandled(g, s, n, c.nodes[n], e.now, e.timeout, e.p.msg.payload);
  }

  lemma PacketDelivered(g: Group, s: History, c: Cluster, e: Event) returns (s': History)
    requires Arrives(g, s, c, e) && VoteKindKept(c, e) && AckFits(s, c, e)
    ensures Delivered(g, s, s', c, e)
  {
    match e.p.msg.payload
    case RequestVote(_, _, _, _, _) => s' := VoteRequested(g, s, c, e);
    case RequestVoteReply(_, _) => s' := VoteAnswered(g, s, c, e);
    case AppendEntries(_, _, _, _, _, _, _) => s' := EntriesArrived(g, s, c, e);
    case AppendEntriesReply(_, _, _) => s' := EntriesAnswered(g, s, c, e);
    case TimeoutNow(_, _) => s' := TimeoutArrived(g, s, c, e);
    case InstallSnapshot(_, _, _) => s' := SnapshotArrived(g, s, c, e);
    case InstallSnapshotReply(_) => s' := SnapshotAnswered(g, s, c, e);
  }

  // ---------------------------------------------------------------- the other events

  lemma FlushTaken(g: Group, s: History, c: Cluster, e: Event)
    requires CInv(g, s, c) && Enabled(g, c, e) && e.EFlush?
    ensures Taken(g, s, s, c, e)
  {
    GrowsRefl(s, e.n);
    FlushedIsOk(g, s, c, e);
    StepIsLocal(g, s, s, c, Next(g, c, e), e.n, Flushed(c.nodes[e.n]));
  }

  lemma FlushedIsOk(g: Group, s: Proto, c: Cluster, e: Event)
    requires NodesOk(g, s, c.nodes) && DiskOk(c) && Enabled(g, c, e) && e.EFlush?
    ensures NodeOk(g, s, e.n, Flushed(c.nodes[e.n])) && DiskOk(Next(g, c, e))
    ensures forall p | p in Emitted(g, c, e) :: PacketOk(g, s, Next(g, c, e).nodes, p)
  {
    var n, x := e.n, c.nodes[e.n];
    assert NodeOk(g, s, n, x);
    forall p | p in Emitted(g, c, e) ensures PacketOk(g, s, Next(g, c, e).nodes, p) {
      assert p.msg in x.outbox;
      assert Ours(g, n, p.msg);
    }
  }

  lemma RestartHandled(g: Group, s: History, c: Cluster, e: Event)
    requires CInv(g, s, c) && Enabled(g, c, e) && e.ERestart? && RestartsClean(c, e)
    ensures Handled(g, s, s, e.n, c.nodes[e.n], After(g, c, e))
  {
    GrowsRefl(s, e.n);
    assert NodeOk(g, s, e.n, c.nodes[e.n]);
  }

  lemma ProposeEvent(g: Group, s: History, n: NodeId, x: Node, b: Batch, y: Node) returns (s': History)
    requires Setting(g, s) && n in g && NodeOk(g, s, n, x)
    requires y == (match Propose(g[n], x, b) case None => x case Some(z) => z)
    ensures Handled(g, s, s', n, x, y)
  {
    if x.role == Leader {
      s' := ProposeHandled(g, s, n, x, b, y);
    } else {
      s' := s;
      QuietHandled(g, s, n, x, x);
    }
  }

  lemma TransferEvent(g: Group, s: History, n: NodeId, x: Node, p: NodeId, y: Node)
    requires Setting(g, s) && n in g && NodeOk(g, s, n, x)
    requires y == (match TransferLeadership(g[n], x, p) case None => x case Some(z) => z)
    ensures Handled(g, s, s, n, x, y)
  {
    if TransferLeadership(g[n], x, p).Some? {
      TransferHandled(g, s, n, x, p);
    } else {
      QuietHandled(g, s, n, x, x);
    }
  }

  lemma QuietEventHandled(g: Group, s: History, c: Cluster, e: Event, y: Node) returns (s': History)
    requires CInv(g, s, c) && Enabled(g, c, e) && !e.EDeliver? && !e.EFlush? && RestartsClean(c, e)
    requires y == After(g, c, e)
    ensures Handled(g, s, s', Actor(e), c.nodes[Actor(e)], y)
  {
    var n, x := Actor(e), c.nodes[Actor(e)];
    assert NodeOk(g, s, n, x);
    s' := s;
    match e
    case ETick(_, now, timeout) => s' := TickHandled(g, s, n, x, now, timeout);
    case EPropose(_, b) => s' := ProposeEvent(g, s, n, x, b, y);
    case ETransfer(_, p) => TransferEvent(g, s, n, x, p, y);
    case ECompact(_, threshold) => CompactHandled(g, s, n, x, threshold);
    case ERestart(_) => RestartHandled(g, s, c, e);
  }

  lemma DeliveryTaken(g: Group, s: History, c: Cluster, e: Event) returns (s': History)
    requires CInv(g, s, c) && Enabled(g, c, e) && e.EDeliver? && VoteKindKept(c, e) && AckFits(s, c, e)
    ensures Taken(g, s, s', c, e) && s'.acked == s.acked
  {
    assert NodeOk(g, s, Actor(e), c.nodes[Actor(e)]);
    s' := PacketDelivered(g, s, c, e);
    Finishes(g, s, s', c, e, After(g, c, e));
  }

  lemma FittingEventTaken(g: Group, s: History, c: Cluster, e: Event) returns (s': History)
    requires CInv(g, s, c) && Enabled(g, c, e) && Owed(c, e) && AckFits(s, c, e)
    ensures Taken(g, s, s', c, e) && s'.acked == s.acked
  {
    if e.EFlush? {
      s' := s;
      FlushTaken(g, s, c, e);
    } else if e.EDeliver? {
      s' := DeliveryTaken(g, s, c, e);
    } else {
      s' := QuietEventHandled(g, s, c, e, After(g, c, e));
      Finishes(g, s, s', c, e, After(g, c, e));
    }
  }

  lemma ForgettingExtends(s: Proto, t: Proto, u: Proto)
    requires t == s.(acked := false) && Extends(t, u)
    ensures Extends(s, u)
  {
  }

  lemma UntrustedEventTaken(g: Group, s: History, c: Cluster, e: Event) returns (s': History)
    requires CInv(g, s, c) && Enabled(g, c, e) && Owed(c, e)
    ensures Taken(g, s, s', c, e) && !s'.acked
  {
    var t := ForgetAcks(g, s, c);
    s' := FittingEventTaken(g, t, c, e);
    ForgettingExtends(s, t, s');
  }

  /** One event of a run. */
  lemma EventTaken(g: Group, s: History, c: Cluster, e: Event) returns (s': History)
    requires CInv(g, s, c) && Enabled(g, c, e) && Owed(c, e)
    ensures Taken(g, s, s', c, e)
    ensures s'.acked == (s.acked && AckIsLatest(c, e))
  {
    if AckFits(s, c, e) {
      s' := FittingEventTaken(g, s, c, e);
    } else {
      s' := UntrustedEventTaken(g, s, c, e);
    }
  }
}
