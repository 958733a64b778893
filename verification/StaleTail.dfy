/**
  Why a full request must not move the commit index past its own entries. Node 0 leads term 1 and fills
  all three logs with 64 entries; node 1 leads term 2 and logs one more that nobody else gets; node 0
  leads term 3 and commits another 65th entry with node 2. Refusals of a request of term 1 then move
  what it sends node 1 back to the beginning, and the full request it sends in the end covers 64 entries
  but makes node 1 commit its own 65th.
 */
module StaleTail {
  import opened Common
  import opened RaftTypes
  import opened NodeSpec
  import opened Cluster
  import opened ClusterSteps
  import opened Replication
  import opened Safety
  import opened TrioRuns
  import opened TrioElections
  import opened TrioReplication
  import opened NeededAssumptions
  import LogView

  const BATCH := Batch(1, [])
  const STALE := LogEntry(2, Data, BATCH)
  const NEWER := LogEntry(3, Data, BATCH)

  /** The entries of term 1 that everybody has. */
  function Shared(k: nat): (l: Log)
    ensures |l| == k && forall i | 0 <= i < k :: l[i] == LogEntry(1, Data, BATCH)
  {
    seq(k, i => LogEntry(1, Data, BATCH))
  }

  predicate Holds(x: Node, role: Role, term: nat, hist: Log) {
    x.role == role && x.term == term && x.log.snap == 0 && x.log.hist == hist
  }

  // ---------------------------------------------------------------- term 1: 64 entries for everybody

  const OLD := Packet(Message(0, 1, AppendEntries(1, 0, 0, 0, [], 0, 1)), Plain)

  lemma Opening() returns (cs: seq<Cluster>, es: seq<Event>)
    ensures Run(Trio(), cs, es) && VotesKept(cs, es) && AcksLatest(cs, es) && NoRestarts(es) && OLD in Last(cs).net
    ensures At(Last(cs), 0, Flushed(FIRST)) && At(Last(cs), 1, Voted(FRESH, 0, 1, 100)) && At(Last(cs), 2, FRESH)
  {
    cs, es := FirstElection();
    FirstBeat(1);
    InTrio(0);
    cs, es := FlushStep(Trio(), cs, es, 0, FIRST);
  }

  /** A leader of term 1 with `k` shared entries whose next request to either peer starts at the beginning. */
  predicate Filling(x: Node, k: nat) {
    && Unheard(0, x, 1, 2) && Holds(x, Leader, 1, Shared(k)) && NextIndex(x, 1) == NextIndex(x, 2) == 1
    && x.epoch == 1 && x.started
  }

  lemma FillsOne(x: Node, k: nat) returns (y: Node)
    requires Filling(x, k)
    ensures Propose(Member(0), x, BATCH) == Some(y) && Filling(y, k + 1)
    ensures Request(0, y, 1) in y.outbox && Request(0, y, 2) in y.outbox
  {
    y := Proposes(0, x, 1, 2, BATCH);
    assert Shared(k) + [LogEntry(1, Data, BATCH)] == Shared(k + 1);
  }

  lemma {:induction false} Fills(cs: seq<Cluster>, es: seq<Event>, x: Node, k: nat)
    returns (cs': seq<Cluster>, es': seq<Event>, y: Node)
    requires Run(Trio(), cs, es) && At(Last(cs), 0, x) && Filling(x, k) && k < 64
    ensures Onward(Trio(), cs, es, cs', es') && At(Last(cs'), 0, y) && OthersStay(Last(cs), Last(cs'), 0)
    ensures Filling(y, 64) && Request(0, y, 1) in y.outbox && Request(0, y, 2) in y.outbox
    decreases 64 - k
  {
    InTrio(0);
    y := FillsOne(x, k);
    cs', es' := ProposeStep(Trio(), cs, es, 0, x, BATCH, y);
    if k < 63 {
      var cs1, es1 := cs', es';
      cs', es', y := Fills(cs1, es1, y, k + 1);
      OnwardTrans(Trio(), cs, es, cs1, es1, cs', es');
    }
  }

  /** The request that carries all 64 entries. */
  lemma FullRequest(y: Node, p: NodeId, hist: Log)
    requires y.log.snap == 0 && y.log.hist == hist && |hist| >= 64 && hist[..64] == Shared(64) && NextIndex(y, p) == 1
    ensures var a := Request(0, y, p).payload;
            && a == AppendEntries(y.term, 0, 0, 0, a.entries, y.commit, y.epoch)
            && |a.entries| == 64 && Numbered(0, a.entries) && LogView.Unwired(a.entries) == Shared(64)
            && forall k | 0 <= k < 64 :: a.entries[k] == LogView.Wire(hist, 1 + k)
  {
    var es := Request(0, y, p).payload.entries;
    assert es == seq(64, k requires 0 <= k < 64 => LogView.Wire(hist, 1 + k));
    forall k | 0 <= k < 64 ensures LogView.Unwired(es)[k] == Shared(64)[k] {
      assert hist[k] == hist[..64][k];
    }
  }

  lemma TakesFirst64(m: NodeId, y: Node, a: Payload)
    requires (m == 1 || m == 2) && y.log == NO_LOG && y.term <= 1 && y.commit == 0
    requires a.AppendEntries? && a == AppendEntries(1, 0, 0, 0, a.entries, 0, 1)
    requires |a.entries| == 64 && Numbered(0, a.entries) && LogView.Unwired(a.entries) == Shared(64)
    ensures Takes(Trio(), y, Packet(Message(0, m, a), Plain), 100, Fed(y, a, LogView.RawView(Shared(64), 0, 0), 100),
                  Some(Ack(0, m, 1, 64)))
  {
    AppendsAll(NO_LOG, a.entries);
    assert LogView.Append(NO_LOG, a.entries) == LogView.RawView(Shared(64), 0, 0);
    TakesEntries(0, m, y, a, LogView.RawView(Shared(64), 0, 0), 100);
  }

  /** A run as the safety results allow it, with the first request of term 1 still deliverable. */
  ghost predicate Good(cs: seq<Cluster>, es: seq<Event>) {
    Run(Trio(), cs, es) && VotesKept(cs, es) && AcksLatest(cs, es) && NoRestarts(es) && OLD in Last(cs).net
  }

  /** A follower with nothing committed and nothing queued that last heard from a leader by `heard`. */
  predicate Follows(x: Node, term: nat, hist: Log, heard: int) {
    Holds(x, Follower, term, hist) && x.commit == 0 && x.outbox == [] && x.transfer == None && x.leaderContact <= heard
  }

  lemma FedFollows(y: Node, a: Payload, w: LogView.View, now: int)
    requires a.AppendEntries? && a.term >= y.term && y.outbox == [] && y.transfer == None && w.snap == 0
    ensures var z := Fed(y, a, w, now);
            && Holds(z, Follower, a.term, w.hist) && z.outbox == [] && z.transfer == None && z.leaderContact == now && z.started == y.started
            && z.electionDeadline == now + 100 && z.epoch == y.epoch && (a.leaderCommit == 0 ==> z.commit == y.commit)
  {
  }

  lemma Deliver64(cs: seq<Cluster>, es: seq<Event>, m: NodeId, y: Node, a: Payload)
    returns (cs': seq<Cluster>, es': seq<Event>, z: Node)
    requires Good(cs, es) && At(Last(cs), m, y) && Packet(Message(0, m, a), Plain) in Last(cs).net
    requires (m == 1 || m == 2) && y.log == NO_LOG && y.term <= 1 && y.commit == 0 && y.outbox == [] && y.transfer == None && !y.started
    requires a.AppendEntries? && a == AppendEntries(1, 0, 0, 0, a.entries, 0, 1)
    requires |a.entries| == 64 && Numbered(0, a.entries) && LogView.Unwired(a.entries) == Shared(64)
    ensures Good(cs', es') && Last(cs).net <= Last(cs').net && OthersStay(Last(cs), Last(cs'), m)
    ensures At(Last(cs'), m, z) && Follows(z, 1, Shared(64), 100) && !z.started
  {
    TakesFirst64(m, y, a);
    z := Fed(y, a, LogView.RawView(Shared(64), 0, 0), 100);
    FedFollows(y, a, LogView.RawView(Shared(64), 0, 0), 100);
    cs', es' := DeliverStep(Trio(), cs, es, Packet(Message(0, m, a), Plain), y, 100, z, Some(Ack(0, m, 1, 64)));
  }

  lemma FirstIsFilling()
    ensures Filling(Flushed(FIRST), 0)
  {
  }

  lemma AllFilled() returns (cs: seq<Cluster>, es: seq<Event>, x: Node)
    ensures Good(cs, es) && At(Last(cs), 0, Flushed(x)) && Filling(x, 64)
    ensures At(Last(cs), 1, Voted(FRESH, 0, 1, 100)) && At(Last(cs), 2, FRESH)
    ensures Packet(Request(0, x, 1), Plain) in Last(cs).net && Packet(Request(0, x, 2), Plain) in Last(cs).net
  {
    cs, es := Opening();
    FirstIsFilling();
    cs, es, x := Fills(cs, es, Flushed(FIRST), 0);
    InTrio(0);
    cs, es := FlushStep(Trio(), cs, es, 0, x);
  }

  lemma TermOne() returns (cs: seq<Cluster>, es: seq<Event>, x: Node, y: Node, z: Node)
    ensures Good(cs, es) && At(Last(cs), 0, x) && At(Last(cs), 1, y) && At(Last(cs), 2, z)
    ensures Holds(x, Leader, 1, Shared(64)) && x.commit == 0 && x.outbox == [] && x.transfer == None
    ensures x.started && x.epoch == 1
    ensures Follows(y, 1, Shared(64), 100) && !y.started && Follows(z, 1, Shared(64), 100)
  {
    var f: Node;
    cs, es, f := AllFilled();
    x := Flushed(f);
    FullRequest(f, 1, Shared(64));
    FullRequest(f, 2, Shared(64));
    cs, es, y := Deliver64(cs, es, 1, Voted(FRESH, 0, 1, 100), Request(0, f, 1).payload);
    cs, es, z := Deliver64(cs, es, 2, FRESH, Request(0, f, 2).payload);
  }

  // ---------------------------------------------------------------- the next two elections

  /** A new leader: nobody heard from, everybody believed to have its log, its empty requests queued. */
  predicate IsNew(n: NodeId, x: Node, p: NodeId, q: NodeId, term: nat, hist: Log) {
    && Unheard(n, x, p, q) && Holds(x, Leader, term, hist)
    && NextIndex(x, p) == NextIndex(x, q) == |hist| + 1
  }

  lemma ElectedIsNew(n: NodeId, x: Node, m: NodeId, p: NodeId, q: NodeId, now: int)
    requires 0 <= n < 3 && Peers(n) == [p, q] && x.log.snap == 0 && x.commit == 0 && x.transfer == None
    ensures var l := RivalFrom(n, x, m, now).leading;
            && IsNew(n, l, p, q, x.term + 1, x.log.hist) && l.started == x.started && l.epoch == x.epoch + 1
            && l.outbox == [Beat(n, l, p), Beat(n, l, q)]
  {
  }

  lemma VoterFollows(y: Node, n: NodeId, term: nat, now: int, hist: Log, heard: int)
    requires Follows(y, y.term, hist, heard) && y.term < term
    ensures Follows(Voted(y, n, term, now), term, hist, heard) && Voted(y, n, term, now).started == y.started
  {
  }

  lemma SameLogBacks(y: Node, x: Node, term: nat, hist: Log)
    requires y.log.hist == hist && x.log.hist == hist
    ensures Backs(y, x.log)
  {
  }

  /** A ready member with the shared log is elected by another that has no more. */
  lemma SharedElects(cs: seq<Cluster>, es: seq<Event>, n: NodeId, x: Node, k: nat, m: NodeId, y: Node, p: NodeId, q: NodeId,
                     term: nat, hist: Log, now: int)
    returns (cs': seq<Cluster>, es': seq<Event>, l: Node, v: Node)
    requires Good(cs, es) && At(Last(cs), n, x) && At(Last(cs), m, y)
    requires 0 <= n < 3 && 0 <= m < 3 && n != m && k < 2 && Peers(n)[k] == m && Peers(n) == [p, q]
    requires Ready(x, now) && Follows(x, term, hist, now) && Follows(y, term, hist, now - 10)
    ensures Good(cs', es') && Last(cs).net <= Last(cs').net && RestStays(Last(cs), Last(cs'), n, m)
    ensures At(Last(cs'), n, l) && IsNew(n, l, p, q, term + 1, hist) && l.outbox == [Beat(n, l, p), Beat(n, l, q)]
    ensures l.started && l.epoch == x.epoch + 1
    ensures At(Last(cs'), m, v) && Follows(v, term + 1, hist, now - 10)
  {
    SameLogBacks(y, x, term, hist);
    cs', es' := TrioElects(cs, es, n, x, k, m, y, now);
    l, v := RivalFrom(n, x, m, now).leading, Voted(y, n, term + 1, now);
    ElectedIsNew(n, x, m, p, q, now);
    VoterFollows(y, n, term + 1, now, hist, now - 10);
  }

  /** An empty request inside or at the end of a log is accepted and changes nothing in it. */
  lemma TakesBeat(n: NodeId, l: Node, m: NodeId, y: Node, hist: Log, now: int)
    requires 0 <= m < 3 && l.log.snap == 0 && l.log.hist == Shared(64) && l.commit == 0 && y.log.snap == 0 && y.log.hist == hist
    requires |hist| >= 64 && hist[63].term == 1 && y.term <= l.term
    ensures Takes(Trio(), y, Packet(Beat(n, l, m), Plain), now, Fed(y, Beat(n, l, m).payload, y.log, now),
                  Some(Ack(n, m, l.term, 64)))
    ensures Beat(n, l, m).payload.AppendEntries? && Beat(n, l, m).payload.term == l.term
    ensures Beat(n, l, m).payload.leaderCommit == 0
  {
    var a := Beat(n, l, m).payload;
    assert a == AppendEntries(l.term, n, 64, 1, [], 0, l.epoch);
    assert AppendEntriesFrom(y.log, []) == Some(y.log);
    TakesEntries(n, m, y, a, y.log, now);
  }

  /** The beat of a new leader reaches a member that has the shared log, whatever else it has. */
  lemma DeliverBeat(cs: seq<Cluster>, es: seq<Event>, n: NodeId, l: Node, m: NodeId, y: Node, hist: Log, now: int)
    returns (cs': seq<Cluster>, es': seq<Event>, z: Node)
    requires Good(cs, es) && At(Last(cs), m, y) && Packet(Beat(n, l, m), Plain) in Last(cs).net
    requires 0 <= m < 3 && l.log.snap == 0 && l.log.hist == Shared(64) && l.commit == 0 && y.log.snap == 0 && y.log.hist == hist
    requires |hist| >= 64 && hist[63].term == 1 && y.term <= l.term && y.commit == 0 && y.outbox == [] && y.transfer == None
    ensures Good(cs', es') && Last(cs).net <= Last(cs').net && OthersStay(Last(cs), Last(cs'), m)
    ensures At(Last(cs'), m, z) && Follows(z, l.term, hist, now) && z.started == y.started
    ensures z.electionDeadline == now + 100 && z.epoch == y.epoch
  {
    TakesBeat(n, l, m, y, hist, now);
    z := Fed(y, Beat(n, l, m).payload, y.log, now);
    FedFollows(y, Beat(n, l, m).payload, y.log, now);
    cs', es' := OrdinaryStep(Trio(), cs, es, Packet(Beat(n, l, m), Plain), y, now, z, Some(Ack(n, m, l.term, 64)));
  }

  /** Node 1 is elected in term 2 and its empty requests are out. */
  lemma SecondElection() returns (cs: seq<Cluster>, es: seq<Event>, x: Node, l: Node, z: Node)
    ensures Good(cs, es) && At(Last(cs), 0, x) && At(Last(cs), 1, Flushed(l)) && At(Last(cs), 2, z)
    ensures Holds(x, Leader, 1, Shared(64)) && x.commit == 0 && x.outbox == [] && x.transfer == None
    ensures x.started && x.epoch == 1
    ensures IsNew(1, l, 0, 2, 2, Shared(64)) && Packet(Beat(1, l, 0), Plain) in Last(cs).net
    ensures Follows(z, 2, Shared(64), 190)
  {
    var y: Node;
    cs, es, x, y, z := TermOne();
    cs, es := Wake(cs, es, 1, y, 200);
    cs, es, l, z := SharedElects(cs, es, 1, Woken(y, 200), 1, 2, z, 0, 2, 1, Shared(64), 200);
    assert l.outbox[0] == Beat(1, l, 0);
    InTrio(1);
    cs, es := FlushStep(Trio(), cs, es, 1, l);
  }

  lemma StaleProposed(l: Node) returns (y: Node)
    requires IsNew(1, l, 0, 2, 2, Shared(64))
    ensures Propose(Member(1), Flushed(l), BATCH) == Some(y) && y.commit == 0 && y.transfer == None
    ensures Holds(y, Leader, 2, Shared(64) + [STALE])
  {
    y := Proposes(1, Flushed(l), 0, 2, BATCH);
  }

  /** Node 1 has an entry of term 2 that nobody else has, and node 0 follows it. */
  lemma TermTwo() returns (cs: seq<Cluster>, es: seq<Event>, x: Node, y: Node, z: Node)
    ensures Good(cs, es) && At(Last(cs), 0, x) && At(Last(cs), 1, Flushed(y)) && At(Last(cs), 2, z)
    ensures Follows(x, 2, Shared(64), 200) && x.started && x.electionDeadline == 300 && x.epoch == 1
    ensures Holds(y, Leader, 2, Shared(64) + [STALE]) && y.commit == 0 && y.transfer == None
    ensures Follows(z, 2, Shared(64), 190)
  {
    var l: Node;
    cs, es, x, l, z := SecondElection();
    cs, es, x := DeliverBeat(cs, es, 1, l, 0, x, Shared(64), 200);
    y := StaleProposed(l);
    InTrio(1);
    cs, es := ProposeStep(Trio(), cs, es, 1, Flushed(l), BATCH, y);
    cs, es := FlushStep(Trio(), cs, es, 1, y);
  }

  // ---------------------------------------------------------------- term 3: another 65th entry is committed

  /** Node 0 leads term 3 and node 1 follows it with its stale entry. */
  lemma ThirdElection() returns (cs: seq<Cluster>, es: seq<Event>, l: Node, y: Node, z: Node)
    ensures Good(cs, es) && At(Last(cs), 0, Flushed(l)) && At(Last(cs), 1, y) && At(Last(cs), 2, z)
    ensures IsNew(0, l, 1, 2, 3, Shared(64)) && l.epoch == 2
    ensures Follows(y, 3, Shared(64) + [STALE], 300) && Follows(z, 3, Shared(64), 290)
  {
    var x, f: Node;
    cs, es, x, f, z := TermTwo();
    cs, es, l, z := SharedElects(cs, es, 0, x, 1, 2, z, 1, 2, 2, Shared(64), 300);
    assert l.outbox[0] == Beat(0, l, 1);
    InTrio(0);
    cs, es := FlushStep(Trio(), cs, es, 0, l);
    cs, es, y := DeliverBeat(cs, es, 0, l, 1, Flushed(f), Shared(64) + [STALE], 300);
  }

  /** A leader of term 3 with the shared log and one more entry, which node 1 is believed to lack. */
  predicate Ahead(x: Node, commit: nat) {
    && Holds(x, Leader, 3, Shared(64) + [NEWER]) && x.commit == commit && x.epoch == 2 && x.transfer == None
    && NextIndex(x, 1) == 65
  }

  lemma NewerProposed(l: Node) returns (x: Node)
    requires IsNew(0, l, 1, 2, 3, Shared(64)) && l.epoch == 2
    ensures Propose(Member(0), Flushed(l), BATCH) == Some(x) && Unheard(0, x, 1, 2) && Ahead(x, 0)
    ensures NextIndex(x, 2) == 65 && Request(0, x, 2) in x.outbox && LastSent(x, 2) == 65
  {
    x := Proposes(0, Flushed(l), 1, 2, BATCH);
    ReachesEnd(0, x, 2);
  }

  lemma NewerRequest(x: Node)
    requires Ahead(x, 0) && NextIndex(x, 2) == 65
    ensures Request(0, x, 2).payload == AppendEntries(3, 0, 64, 1, [WireEntry(65, 3, Data, BATCH)], 0, 2)
  {
    var h := Shared(64) + [NEWER];
    assert h[63] == Shared(64)[63];
    assert LogView.EntriesFrom(x.log, 65, MAX_ENTRIES).value == [LogView.Wire(h, 65)];
  }

  lemma TakesNewer(z: Node) returns (w: Node)
    requires Follows(z, 3, Shared(64), 290)
    ensures Takes(Trio(), z, Packet(Message(0, 2, AppendEntries(3, 0, 64, 1, [WireEntry(65, 3, Data, BATCH)], 0, 2)), Plain),
                  300, w, Some(Ack(0, 2, 3, 65)))
  {
    var e := WireEntry(65, 3, Data, BATCH);
    var a := AppendEntries(3, 0, 64, 1, [e], 0, 2);
    AppendsAll(z.log, [e]);
    w := Fed(z, a, LogView.Append(z.log, [e]), 300);
    assert LogView.TermAt(z.log, 64) == Some(1);
    TakesEntries(0, 2, z, a, LogView.Append(z.log, [e]), 300);
  }

  /** The request is out and node 2 has acknowledged it. */
  lemma NewerAcked() returns (cs: seq<Cluster>, es: seq<Event>, x: Node, y: Node)
    ensures Good(cs, es) && At(Last(cs), 0, Flushed(x)) && At(Last(cs), 1, y) && Ack(0, 2, 3, 65) in Last(cs).net
    ensures Unheard(0, x, 1, 2) && Ahead(x, 0) && LastSent(x, 2) == 65 && Follows(y, 3, Shared(64) + [STALE], 300)
  {
    var l, z: Node;
    cs, es, l, y, z := ThirdElection();
    x := NewerProposed(l);
    InTrio(0);
    cs, es := ProposeStep(Trio(), cs, es, 0, Flushed(l), BATCH, x);
    cs, es := FlushStep(Trio(), cs, es, 0, x);
    NewerRequest(x);
    var w := TakesNewer(z);
    cs, es := OrdinaryStep(Trio(), cs, es, Packet(Request(0, x, 2), Plain), z, 300, w, Some(Ack(0, 2, 3, 65)));
  }

  /** Node 0 commits its 65th entry. */
  lemma NewerCommitted() returns (cs: seq<Cluster>, es: seq<Event>, x: Node, y: Node)
    ensures Good(cs, es) && At(Last(cs), 0, x) && At(Last(cs), 1, y)
    ensures Ahead(x, 65) && Follows(y, 3, Shared(64) + [STALE], 300)
  {
    var f: Node;
    cs, es, f, y := NewerAcked();
    x := TakesAck(0, Flushed(f), 1, 2, 2, 65, 300);
    cs, es := OrdinaryStep(Trio(), cs, es, Ack(0, 2, 3, 65), Flushed(f), 300, x, None);
  }

  // ---------------------------------------------------------------- back to the beginning

  /** Node 1 refuses the old request again; its refusal carries term 3. */
  lemma Refused() returns (cs: seq<Cluster>, es: seq<Event>, x: Node, y: Node)
    ensures Good(cs, es) && At(Last(cs), 0, x) && At(Last(cs), 1, y) && Refusal(0, 1, 3) in Last(cs).net
    ensures Ahead(x, 65) && Follows(y, 3, Shared(64) + [STALE], 300)
  {
    cs, es, x, y := NewerCommitted();
    TakesStale(0, 1, y, OLD.msg.payload, 300);
    cs, es := OrdinaryStep(Trio(), cs, es, OLD, y, 300, y, Some(Refusal(0, 1, 3)));
  }

  /** As `Ahead`, with node 1's next index anywhere. */
  predicate Backing(x: Node, j: nat) {
    && Holds(x, Leader, 3, Shared(64) + [NEWER]) && x.commit == 65 && x.epoch == 2
    && NextIndex(x, 1) == j
  }

  /** Every delivery of that refusal moves it back by one. */
  lemma {:induction false} BacksUp(cs: seq<Cluster>, es: seq<Event>, x: Node, j: nat)
    returns (cs': seq<Cluster>, es': seq<Event>, w: Node)
    requires Good(cs, es) && At(Last(cs), 0, x) && Refusal(0, 1, 3) in Last(cs).net && Backing(x, j) && 2 <= j
    ensures Good(cs', es') && OthersStay(Last(cs), Last(cs'), 0) && At(Last(cs'), 0, w)
    ensures Backing(w, 1) && Request(0, w, 1) in w.outbox
    decreases j
  {
    w := TakesRefusal(0, x, 1, 300);
    cs', es' := OrdinaryStep(Trio(), cs, es, Refusal(0, 1, 3), x, 300, w, None);
    if j > 2 {
      cs', es', w := BacksUp(cs', es', w, j - 1);
    }
  }

  /** The full request that comes of it makes node 1 commit its stale entry. */
  lemma TakesFull(y: Node, a: Payload) returns (w: Node)
    requires Follows(y, 3, Shared(64) + [STALE], 300)
    requires a.AppendEntries? && a == AppendEntries(3, 0, 0, 0, a.entries, 65, 2) && |a.entries| == 64
    requires forall k | 0 <= k < 64 :: a.entries[k] == LogView.Wire(Shared(64) + [NEWER], 1 + k)
    ensures Takes(Trio(), y, Packet(Message(0, 1, a), Plain), 300, w, Some(Ack(0, 1, 3, 64)))
    ensures w.log == y.log && w.commit == 65
  {
    var l := Shared(64) + [NEWER];
    assert l[..64] == Shared(64) && (Shared(64) + [STALE])[..64] == Shared(64);
    AllPresent(y.log, l, 0, a.entries, 0);
    w := Fed(y, a, y.log, 300);
    TakesEntries(0, 1, y, a, y.log, 300);
  }

  lemma FullSent() returns (cs: seq<Cluster>, es: seq<Event>, x: Node, y: Node)
    ensures Good(cs, es) && At(Last(cs), 0, Flushed(x)) && At(Last(cs), 1, y)
    ensures Backing(x, 1) && Packet(Request(0, x, 1), Plain) in Last(cs).net
    ensures Follows(y, 3, Shared(64) + [STALE], 300)
  {
    cs, es, x, y := Refused();
    cs, es, x := BacksUp(cs, es, x, 65);
    InTrio(0);
    cs, es := FlushStep(Trio(), cs, es, 0, x);
  }

  /** The end of the run: both nodes report 65 entries committed. */
  lemma BothCommit() returns (cs: seq<Cluster>, es: seq<Event>)
    ensures Good(cs, es) && 0 in Last(cs).nodes && 1 in Last(cs).nodes
    ensures Last(cs).nodes[0].commit == 65 && LogOf(Last(cs), 0) == Shared(64) + [NEWER]
    ensures Last(cs).nodes[1].commit == 65 && LogOf(Last(cs), 1) == Shared(64) + [STALE]
  {
    var x, y: Node;
    cs, es, x, y := FullSent();
    var l := Shared(64) + [NEWER];
    assert l[..64] == Shared(64);
    FullRequest(x, 1, l);
    var w := TakesFull(y, Request(0, x, 1).payload);
    cs, es := DeliverStep(Trio(), cs, es, Packet(Request(0, x, 1), Plain), y, 300, w, Some(Ack(0, 1, 3, 64)));
  }

  lemma GoodIsAcked(cs: seq<Cluster>, es: seq<Event>)
    requires Good(cs, es)
    ensures AckedRun(Trio(), cs, es)
  {
    FairIsFair(Trio(), cs, es);
    forall i | 0 <= i < |es| ensures AckIsLatest(cs[i], es[i]) {
    }
  }

  /**
    Without `FullRequestCovers` state machine safety is false of a run in which everything else holds
    and nobody restarts: nodes 0 and 1 report different 65th entries as committed.
   */
  lemma CommittedPrefixesDiffer() returns (cs: seq<Cluster>, es: seq<Event>)
    ensures AckedRun(Trio(), cs, es) && NoRestarts(es) && 0 in Last(cs).nodes && 1 in Last(cs).nodes
    ensures |Committed(Last(cs), 0)| == |Committed(Last(cs), 1)| == 65
    ensures Committed(Last(cs), 0)[64] != Committed(Last(cs), 1)[64]
  {
    cs, es := BothCommit();
    GoodIsAcked(cs, es);
  }
}
