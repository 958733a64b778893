/**
  A leader and a follower that no further message brings together. Node 0 leads term 1 and logs two
  entries; node 2 acknowledges them and they are committed. Node 1 gets them together with the commit
  index and compacts both away, but its acknowledgement is lost. From then on node 0 sends it everything
  from the first entry, which node 1 can no longer compare.
 */
module WedgedRun {
  import opened Common
  import opened RaftTypes
  import opened NodeSpec
  import opened Cluster
  import opened Replication
  import opened Safety
  import opened TrioRuns
  import opened TrioElections
  import opened TrioReplication
  import opened NeededAssumptions
  import opened StaleTail
  import opened Convergence
  import LogView

  /** A run as every safety result allows it. */
  ghost predicate Clean(cs: seq<Cluster>, es: seq<Event>) {
    Run(Trio(), cs, es) && VotesKept(cs, es) && AcksLatest(cs, es) && NoRestarts(es) && NoFull(es)
  }

  lemma CleanIsCovered(cs: seq<Cluster>, es: seq<Event>)
    requires Clean(cs, es)
    ensures CoveredRun(Trio(), cs, es)
  {
    FairIsFair(Trio(), cs, es);
    forall i | 0 <= i < |es| ensures AckIsLatest(cs[i], es[i]) && FullRequestCovers(cs[i], es[i]) {
    }
  }

  // ---------------------------------------------------------------- two entries

  lemma TwoLogged() returns (cs: seq<Cluster>, es: seq<Event>, x: Node)
    ensures Clean(cs, es) && At(Last(cs), 0, Flushed(x)) && Filling(x, 2)
    ensures At(Last(cs), 1, Voted(FRESH, 0, 1, 100)) && At(Last(cs), 2, FRESH)
    ensures Packet(Request(0, x, 2), Plain) in Last(cs).net && LastSent(x, 2) == 2
  {
    cs, es := FirstElection();
    InTrio(0);
    cs, es := FlushStep(Trio(), cs, es, 0, FIRST);
    FirstIsFilling();
    var y := FillsOne(Flushed(FIRST), 0);
    cs, es := ProposeStep(Trio(), cs, es, 0, Flushed(FIRST), BATCH, y);
    x := SecondLogged(y);
    cs, es := ProposeStep(Trio(), cs, es, 0, y, BATCH, x);
    cs, es := FlushStep(Trio(), cs, es, 0, x);
  }

  lemma SecondLogged(y: Node) returns (x: Node)
    requires Filling(y, 1)
    ensures Propose(Member(0), y, BATCH) == Some(x) && Filling(x, 2) && Request(0, x, 2) in x.outbox && LastSent(x, 2) == 2
  {
    x := FillsOne(y, 1);
    var z := Proposes(0, y, 1, 2, BATCH);
    ReachesEnd(0, z, 2);
  }

  /** The request that carries both entries. */
  lemma BothEntries(x: Node, p: NodeId)
    requires x.log.snap == 0 && x.log.hist == StaleTail.Shared(2) && NextIndex(x, p) == 1
    ensures var a := Request(0, x, p).payload;
            && a == AppendEntries(x.term, 0, 0, 0, a.entries, x.commit, x.epoch)
            && |a.entries| == 2 && a.entries[0].index == 1 && LogView.Unwired(a.entries) == StaleTail.Shared(2)
  {
    var h := StaleTail.Shared(2);
    var es := Request(0, x, p).payload.entries;
    assert es == [LogView.Wire(h, 1), LogView.Wire(h, 2)];
    assert LogView.Unwired(es) == [h[0], h[1]] == h;
  }

  const TWO := LogView.RawView(StaleTail.Shared(2), 0, 0)

  lemma TakesBoth(m: NodeId, y: Node, a: Payload, now: int)
    requires (m == 1 || m == 2) && y.log == NO_LOG && y.term <= 1
    requires a.AppendEntries? && a == AppendEntries(1, 0, 0, 0, a.entries, a.leaderCommit, 1)
    requires |a.entries| == 2 && a.entries[0].index == 1 && LogView.Unwired(a.entries) == StaleTail.Shared(2)
    ensures Takes(Trio(), y, Packet(Message(0, m, a), Plain), now, Fed(y, a, TWO, now), Some(Ack(0, m, 1, 2)))
  {
    AppendsAll(NO_LOG, a.entries);
    assert LogView.Append(NO_LOG, a.entries) == TWO;
    TakesEntries(0, m, y, a, TWO, now);
  }

  // ---------------------------------------------------------------- committed with node 2

  /** The leader after that, with node 1 still unheard. */
  predicate Ahead(x: Node) {
    && Holds(x, Leader, 1, StaleTail.Shared(2)) && x.commit == 2 && x.epoch == 1
    && NextIndex(x, 1) == 1 && NextIndex(x, 2) >= 1 && MatchIndex(x, 1) == 0
  }

  lemma BothAcked() returns (cs: seq<Cluster>, es: seq<Event>, x: Node)
    ensures Clean(cs, es) && At(Last(cs), 0, Flushed(x)) && Filling(x, 2) && LastSent(x, 2) == 2
    ensures At(Last(cs), 1, Voted(FRESH, 0, 1, 100)) && Ack(0, 2, 1, 2) in Last(cs).net
  {
    cs, es, x := TwoLogged();
    BothEntries(x, 2);
    var a := Request(0, x, 2).payload;
    TakesBoth(2, FRESH, a, 100);
    cs, es := OrdinaryStep(Trio(), cs, es, Packet(Request(0, x, 2), Plain), FRESH, 100, Fed(FRESH, a, TWO, 100),
                           Some(Ack(0, 2, 1, 2)));
  }

  lemma AckCommits(f: Node) returns (x: Node)
    requires Filling(f, 2) && LastSent(f, 2) == 2
    ensures Takes(Trio(), Flushed(f), Ack(0, 2, 1, 2), 100, x, None) && IsOrdinary(Flushed(f), Ack(0, 2, 1, 2))
    ensures Ahead(x) && x.started && x.outbox == []
  {
    x := TakesAck(0, Flushed(f), 1, 2, 2, 2, 100);
  }

  lemma BothCommitted() returns (cs: seq<Cluster>, es: seq<Event>, x: Node)
    ensures Clean(cs, es) && At(Last(cs), 0, x) && Ahead(x) && x.started && x.outbox == []
    ensures At(Last(cs), 1, Voted(FRESH, 0, 1, 100))
  {
    var f: Node;
    cs, es, f := BothAcked();
    x := AckCommits(f);
    cs, es := OrdinaryStep(Trio(), cs, es, Ack(0, 2, 1, 2), Flushed(f), 100, x, None);
  }

  // ---------------------------------------------------------------- and compacted by node 1

  lemma BeatsBoth(x: Node) returns (y: Node)
    requires Ahead(x) && x.started && x.outbox == []
    ensures Tick(Member(0), x, x.heartbeatDeadline, 100) == y && Ahead(y) && Request(0, y, 1) in y.outbox
  {
    var z := x.(heartbeatDeadline := x.heartbeatDeadline + 5);
    SendsBoth(0, z, 1, 2);
    y := ReplicateAll(Member(0), z);
    SameRequest(0, z, y, 1);
    assert y.outbox[0] == Request(0, z, 1);
  }

  lemma CompactStep(g: Group, cs: seq<Cluster>, es: seq<Event>, n: NodeId, x: Node, threshold: nat, y: Node)
    returns (cs': seq<Cluster>, es': seq<Event>)
    requires Run(g, cs, es) && n in g && At(Last(cs), n, x) && Compacted(x, threshold) == y
    ensures Onward(g, cs, es, cs', es') && At(Last(cs'), n, y) && OthersStay(Last(cs), Last(cs'), n)
  {
    cs', es' := TrioRuns.Step(g, cs, es, ECompact(n, threshold), y);
  }

  lemma CompactsBoth(y: Node) returns (z: Node)
    requires y.log == TWO && y.commit == 2
    ensures Compacted(y, 2) == z && z.log.snap == 2 && z.log.hist == y.log.hist && z.term == y.term
  {
    z := Compacted(y, 2);
  }

  lemma SentAgain() returns (cs: seq<Cluster>, es: seq<Event>, x: Node)
    ensures Clean(cs, es) && At(Last(cs), 0, Flushed(x)) && Ahead(x)
    ensures At(Last(cs), 1, Voted(FRESH, 0, 1, 100)) && Packet(Request(0, x, 1), Plain) in Last(cs).net
  {
    var y: Node;
    cs, es, y := BothCommitted();
    InTrio(0);
    x := BeatsBoth(y);
    cs, es := TickStep(Trio(), cs, es, 0, y, y.heartbeatDeadline, x);
    cs, es := FlushStep(Trio(), cs, es, 0, x);
  }

  lemma TakesCommitted(x: Node) returns (y: Node)
    requires Ahead(x)
    ensures Takes(Trio(), Voted(FRESH, 0, 1, 100), Packet(Request(0, x, 1), Plain), 100, y, Some(Ack(0, 1, 1, 2)))
    ensures y.log == TWO && y.commit == 2 && y.term == 1 && !IsFull(Request(0, x, 1).payload)
  {
    var a := Request(0, x, 1).payload;
    BothEntries(x, 1);
    y := Fed(Voted(FRESH, 0, 1, 100), a, TWO, 100);
    TakesBoth(1, Voted(FRESH, 0, 1, 100), a, 100);
  }

  lemma GotCommitted() returns (cs: seq<Cluster>, es: seq<Event>, x: Node, y: Node)
    ensures Clean(cs, es) && At(Last(cs), 0, x) && Ahead(x)
    ensures At(Last(cs), 1, y) && y.log == TWO && y.commit == 2 && y.term == 1
  {
    var f: Node;
    cs, es, f := SentAgain();
    x := Flushed(f);
    y := TakesCommitted(f);
    cs, es := OrdinaryStep(Trio(), cs, es, Packet(Request(0, f, 1), Plain), Voted(FRESH, 0, 1, 100), 100, y,
                           Some(Ack(0, 1, 1, 2)));
  }

  /**
    Reachable without a restart and with every condition of the safety results kept: a leader and a
    follower that are wedged, so that by `WedgedStays` no number of rounds makes the leader know it.
   */
  lemma WedgeIsReachable() returns (cs: seq<Cluster>, es: seq<Event>)
    ensures CoveredRun(Trio(), cs, es) && NoRestarts(es) && IsLeader(Last(cs), 0) && 1 in Last(cs).nodes
    ensures Last(cs).nodes[1].term == Last(cs).nodes[0].term && Wedged(Last(cs).nodes[0], Last(cs).nodes[1], 1)
    ensures MatchIndex(Last(cs).nodes[0], 1) < Last(cs).nodes[0].commit
  {
    var x, y: Node;
    cs, es, x, y := GotCommitted();
    InTrio(1);
    var z := CompactsBoth(y);
    cs, es := CompactStep(Trio(), cs, es, 1, y, 2, z);
    CleanIsCovered(cs, es);
  }
}
