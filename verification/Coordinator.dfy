/**
  The transaction coordinator: a two-phase commit whose decisions are recorded before any marker is
  ordered. The functions say what each input does; the class computes it in place.
 */
module Coordinator {
  import opened RaftTypes
  import opened Results
  import opened TxnLog

  /** A topic partition, named by its rank in the (topic, partition) order. */
  type Part = int

  datatype TxnState = Ongoing | PrepareCommit | PrepareAbort | CompleteCommit | CompleteAbort

  datatype Txn = Txn(
    epoch: int, state: TxnState, parts: seq<Part>, unacked: seq<Part>, coordEpoch: int, lastUpdate: int)

  datatype Order = Order(pid: int, epoch: int, coordEpoch: int, decision: Decision, part: Part)

  datatype Identity = Identity(pid: int, epoch: int)

  datatype Coord = Coord(
    epoch: int,
    timeout: int,
    nextPid: nat,
    identities: map<string, Identity>,
    current: map<int, int>,
    txns: map<int, Txn>,
    pending: set<Order>)

  const MAX_EPOCH: int := 32767

  // ---------------------------------------------------------------- states

  function PrepareOf(d: Decision): TxnState {
    if d == Commit then PrepareCommit else PrepareAbort
  }

  function CompleteOf(d: Decision): TxnState {
    if d == Commit then CompleteCommit else CompleteAbort
  }

  predicate IsPrepared(s: TxnState) {
    s == PrepareCommit || s == PrepareAbort
  }

  predicate IsComplete(s: TxnState) {
    s == CompleteCommit || s == CompleteAbort
  }

  function DecisionOf(s: TxnState): Decision {
    if s == PrepareCommit || s == CompleteCommit then Commit else Abort
  }

  // ---------------------------------------------------------------- sorted participants

  /** Strictly sorted: no partition twice. */
  predicate Sorted(ps: seq<Part>) {
    forall i, j | 0 <= i < j < |ps| :: ps[i] < ps[j]
  }

  function LowerBound(ps: seq<Part>, p: Part): (k: nat)
    ensures k <= |ps|
  {
    if ps == [] || ps[0] >= p then 0 else 1 + LowerBound(ps[1..], p)
  }

  function Merge(ps: seq<Part>, p: Part): seq<Part> {
    var k := LowerBound(ps, p);
    if k < |ps| && ps[k] == p then ps else ps[..k] + [p] + ps[k..]
  }

  function MergeAll(ps: seq<Part>, more: seq<Part>): seq<Part> {
    if more == [] then ps else Merge(MergeAll(ps, more[..|more| - 1]), more[|more| - 1])
  }

  function Without(ps: seq<Part>, p: Part): seq<Part> {
    var k := LowerBound(ps, p);
    if k < |ps| && ps[k] == p then ps[..k] + ps[k + 1..] else ps
  }

  // ---------------------------------------------------------------- decisions

  function Decided(t: Txn, d: Decision, epoch: int, now: int): Txn {
    t.(state := if t.parts == [] then CompleteOf(d) else PrepareOf(d),
       coordEpoch := epoch, unacked := t.parts, lastUpdate := now)
  }

  function OrdersFor(pid: int, t: Txn, d: Decision, epoch: int): set<Order> {
    set p | p in t.unacked :: Order(pid, t.epoch, epoch, d, p)
  }

  /** The decision of `pid`'s transaction is recorded and its markers are ordered. */
  function EnterPrepare(c: Coord, pid: int, d: Decision, now: int): Coord
    requires pid in c.txns
  {
    var t := Decided(c.txns[pid], d, c.epoch, now);
    c.(txns := c.txns[pid := t], pending := c.pending + OrdersFor(pid, t, d, c.epoch))
  }

  // ---------------------------------------------------------------- inputs

  /** What the previous incarnation left open is aborted, so that it does not hold readers back. */
  function Expelled(c: Coord, now: int, pid: int): Coord {
    if pid in c.txns && c.txns[pid].state == Ongoing then EnterPrepare(c, pid, Abort, now) else c
  }

  /** The next epoch of a known identity, or a new identity once epochs run out. */
  function Rotated(c: Coord, tid: string): (Coord, Identity)
    requires tid in c.identities
  {
    var was := c.identities[tid];
    var spent := was.epoch == MAX_EPOCH;
    var id := if spent then Identity(c.nextPid, 0) else Identity(was.pid, was.epoch + 1);
    (c.(nextPid := if spent then c.nextPid + 1 else c.nextPid,
        identities := c.identities[tid := id], current := c.current[id.pid := id.epoch]), id)
  }

  function InitProducer(c: Coord, now: int, tid: string): (Coord, Identity) {
    if tid !in c.identities then
      var id := Identity(c.nextPid, 0);
      (c.(nextPid := c.nextPid + 1, identities := c.identities[tid := id], current := c.current[id.pid := 0]), id)
    else Rotated(Expelled(c, now, c.identities[tid].pid), tid)
  }

  predicate IsFenced(c: Coord, pid: int, epoch: int) {
    pid in c.current && epoch < c.current[pid]
  }

  function Begun(c: Coord, now: int, pid: int, epoch: int): Result<Coord> {
    if IsFenced(c, pid, epoch) then Err(Fenced)
    else if pid in c.txns && epoch == c.txns[pid].epoch && !IsComplete(c.txns[pid].state) then Err(InvalidArgument)
    else
      var top := if pid !in c.current && epoch < 0 then 0 else epoch;
      Ok(c.(current := c.current[pid := top],
            txns := c.txns[pid := Txn(epoch, Ongoing, [], [], c.epoch, now)]))
  }

  /** The transaction `(pid, epoch)` refers to, or why there is none. */
  function Require(c: Coord, pid: int, epoch: int): Result<Txn> {
    if IsFenced(c, pid, epoch) then Err(Fenced)
    else if pid !in c.txns then Err(NotFound)
    else if epoch < c.txns[pid].epoch then Err(Fenced)
    else if epoch > c.txns[pid].epoch then Err(InvalidArgument)
    else Ok(c.txns[pid])
  }

  function Added(c: Coord, now: int, pid: int, epoch: int, ps: seq<Part>): Result<Coord> {
    var t :- Require(c, pid, epoch);
    if t.state != Ongoing then Err(InvalidArgument)
    else Ok(c.(txns := c.txns[pid := t.(parts := MergeAll(t.parts, ps), lastUpdate := now)]))
  }

  function Ended(c: Coord, now: int, pid: int, epoch: int, d: Decision): Result<Coord> {
    var t :- Require(c, pid, epoch);
    if t.state != Ongoing then Err(InvalidArgument) else Ok(EnterPrepare(c, pid, d, now))
  }

  function Acked(c: Coord, pid: int, epoch: int, p: Part): Coord {
    if pid !in c.txns || epoch != c.txns[pid].epoch || !IsPrepared(c.txns[pid].state) then c
    else
      var t := c.txns[pid];
      var left := Without(t.unacked, p);
      if left == t.unacked then c
      else c.(txns := c.txns[pid := t.(unacked := left,
                                       state := if left == [] then CompleteOf(DecisionOf(t.state)) else t.state)])
  }

  predicate Expired(c: Coord, pid: int, now: int) {
    pid in c.txns && c.txns[pid].state == Ongoing && now - c.txns[pid].lastUpdate > c.timeout
  }

  /** The open transactions among `pids` that waited too long are aborted. */
  function Ticked(c: Coord, pids: set<int>, now: int): Coord {
    c.(txns := map q | q in c.txns :: if q in pids && Expired(c, q, now)
                                      then Decided(c.txns[q], Abort, c.epoch, now) else c.txns[q],
       pending := c.pending + set q, p | q in c.txns && q in pids && Expired(c, q, now) && p in c.txns[q].parts
                                         :: Order(q, c.txns[q].epoch, c.epoch, Abort, p))
  }

  /** Markers still missing among `pids` are ordered again, sealed with the current epoch. */
  function Resumed(c: Coord, pids: set<int>): Coord {
    c.(txns := map q | q in c.txns :: if q in pids && IsPrepared(c.txns[q].state)
                                      then c.txns[q].(coordEpoch := c.epoch) else c.txns[q],
       pending := c.pending + set q, p | q in c.txns && q in pids && IsPrepared(c.txns[q].state) && p in c.txns[q].unacked
                                         :: Order(q, c.txns[q].epoch, c.epoch, DecisionOf(c.txns[q].state), p))
  }

  // ---------------------------------------------------------------- what every input keeps

  /** Participants sorted, missing acknowledgements among them, and some missing exactly while prepared. */
  ghost predicate TxnOk(t: Txn) {
    && Sorted(t.parts) && Sorted(t.unacked) && (forall p | p in t.unacked :: p in t.parts)
    && (IsPrepared(t.state) <==> t.unacked != [])
  }

  ghost predicate CoordOk(c: Coord) {
    forall pid | pid in c.txns :: TxnOk(c.txns[pid])
  }

  function NewCoord(epoch: int, timeout: int): Coord {
    Coord(epoch, timeout, 0, map[], map[], map[], {})
  }

  lemma {:induction false} LowerBoundSplits(ps: seq<Part>, p: Part)
    requires Sorted(ps)
    ensures forall i | 0 <= i < LowerBound(ps, p) :: ps[i] < p
    ensures forall i | LowerBound(ps, p) <= i < |ps| :: ps[i] >= p
  {
    if ps != [] && ps[0] < p {
      LowerBoundSplits(ps[1..], p);
    }
  }

  lemma MergeSorts(ps: seq<Part>, p: Part)
    requires Sorted(ps)
    ensures Sorted(Merge(ps, p)) && forall q :: q in Merge(ps, p) <==> q in ps || q == p
  {
    LowerBoundSplits(ps, p);
    InsertedAt(ps, p, LowerBound(ps, p));
  }

  lemma InsertedAt(ps: seq<Part>, p: Part, k: nat)
    requires Sorted(ps) && k <= |ps|
    requires (forall i | 0 <= i < k :: ps[i] < p) && forall i | k <= i < |ps| :: ps[i] >= p
    ensures k == |ps| || ps[k] != p ==> Sorted(ps[..k] + [p] + ps[k..])
    ensures forall q :: q in ps[..k] + [p] + ps[k..] <==> q in ps || q == p
  {
    assert ps == ps[..k] + ps[k..];
  }

  lemma {:induction false} MergeAllSorts(ps: seq<Part>, more: seq<Part>)
    requires Sorted(ps)
    ensures Sorted(MergeAll(ps, more)) && forall q :: q in MergeAll(ps, more) <==> q in ps || q in more
  {
    if more != [] {
      var n := |more| - 1;
      MergeAllSorts(ps, more[..n]);
      MergeSorts(MergeAll(ps, more[..n]), more[n]);
      assert more == more[..n] + [more[n]];
    }
  }

  /** Removing an acknowledged partition removes it and nothing else. */
  lemma WithoutRemoves(ps: seq<Part>, p: Part)
    requires Sorted(ps)
    ensures Sorted(Without(ps, p)) && forall q :: q in Without(ps, p) <==> q in ps && q != p
    ensures Without(ps, p) == ps <==> p !in ps
  {
    LowerBoundSplits(ps, p);
    var k := LowerBound(ps, p);
    assert ps == ps[..k] + ps[k..];
    if k < |ps| && ps[k] == p {
      assert ps[k..] == [p] + ps[k + 1..];
      assert |Without(ps, p)| == |ps| - 1;
    }
  }

  lemma AckedOk(c: Coord, pid: int, epoch: int, p: Part)
    requires CoordOk(c)
    ensures CoordOk(Acked(c, pid, epoch, p))
  {
    if pid in c.txns {
      WithoutRemoves(c.txns[pid].unacked, p);
      assert TxnOk(c.txns[pid]);
    }
  }

  // ---------------------------------------------------------------- every input

  datatype Input =
    | Init(now: int, tid: string)
    | Begin(now: int, pid: int, epoch: int)
    | Add(now: int, pid: int, epoch: int, parts: seq<Part>)
    | End(now: int, pid: int, epoch: int, decision: Decision)
    | Ack(pid: int, epoch: int, part: Part)
    | Tick(now: int)
    | Failover(epoch: int)
    | Resume
    | Take

  /** The coordinator after an input; a refused one leaves it as it was. */
  function Step(c: Coord, i: Input): Coord {
    match i
    case Init(now, tid) => InitProducer(c, now, tid).0
    case Begin(now, pid, epoch) => (match Begun(c, now, pid, epoch) case Ok(d) => d case Err(_) => c)
    case Add(now, pid, epoch, ps) => (match Added(c, now, pid, epoch, ps) case Ok(d) => d case Err(_) => c)
    case End(now, pid, epoch, d) => (match Ended(c, now, pid, epoch, d) case Ok(e) => e case Err(_) => c)
    case Ack(pid, epoch, p) => Acked(c, pid, epoch, p)
    case Tick(now) => Ticked(c, c.txns.Keys, now)
    case Failover(epoch) => c.(epoch := epoch)
    case Resume => Resumed(c, c.txns.Keys)
    case Take => c.(pending := {})
  }

  lemma StepOk(c: Coord, i: Input)
    requires CoordOk(c)
    ensures CoordOk(Step(c, i))
  {
    match i
    case Add(now, pid, epoch, ps) =>
      if pid in c.txns {
        assert TxnOk(c.txns[pid]);
        MergeAllSorts(c.txns[pid].parts, ps);
      }
    case Ack(pid, epoch, p) => AckedOk(c, pid, epoch, p);
    case _ =>
  }

  /** After a failover's resume, every missing marker is ordered at the coordinator's own epoch. */
  lemma ResumeCovers(c: Coord, pid: int, p: Part)
    requires pid in c.txns && IsPrepared(c.txns[pid].state) && p in c.txns[pid].unacked
    ensures var r, t := Step(c, Resume), c.txns[pid];
            && Order(pid, t.epoch, c.epoch, DecisionOf(t.state), p) in r.pending
            && pid in r.txns && r.txns[pid] == t.(coordEpoch := c.epoch)
  {
  }

  // ---------------------------------------------------------------- whole runs

  ghost predicate CoordRun(cs: seq<Coord>, ins: seq<Input>) {
    && |cs| == |ins| + 1
    && (exists epoch, timeout :: cs[0] == NewCoord(epoch, timeout))
    && forall k | 0 <= k < |ins| :: cs[k + 1] == Step(cs[k], ins[k])
  }

  /** In every run: participants sorted, missing ones among them, some missing exactly while prepared. */
  lemma {:induction false} RunOk(cs: seq<Coord>, ins: seq<Input>, k: nat)
    requires CoordRun(cs, ins) && k < |cs|
    ensures CoordOk(cs[k])
  {
    if k > 0 {
      RunOk(cs, ins, k - 1);
      assert cs[(k - 1) + 1] == Step(cs[k - 1], ins[k - 1]);
      StepOk(cs[k - 1], ins[k - 1]);
    }
  }

  /** The input opens a new transaction for `pid`. */
  predicate Opens(c: Coord, i: Input, pid: int) {
    i.Begin? && i.pid == pid && Begun(c, i.now, i.pid, i.epoch).Ok?
  }

  predicate IsDecided(c: Coord, pid: int) {
    pid in c.txns && c.txns[pid].state != Ongoing
  }

  /** The orders in the queue after an input that were not there before. */
  function Fresh(c: Coord, i: Input): set<Order> {
    Step(c, i).pending - c.pending
  }

  /** A decision stands until the producer opens its next transaction, and new orders carry it. */
  lemma DecisionStands(c: Coord, i: Input, pid: int)
    requires IsDecided(c, pid) && !Opens(c, i, pid)
    ensures var c', t := Step(c, i), c.txns[pid];
            && IsDecided(c', pid) && c'.txns[pid].epoch == t.epoch && c'.txns[pid].parts == t.parts
            && DecisionOf(c'.txns[pid].state) == DecisionOf(t.state)
            && forall o | o in Fresh(c, i) && o.pid == pid :: o.decision == DecisionOf(t.state)
  {
  }

  /** The input that decides orders one marker per participant, all with that decision. */
  lemma DecisionOrdersAll(c: Coord, i: Input, pid: int)
    requires pid in c.txns && c.txns[pid].state == Ongoing && IsDecided(Step(c, i), pid)
    ensures var c', t := Step(c, i), c.txns[pid];
            && c'.txns[pid].parts == t.parts && c'.txns[pid].unacked == t.parts
            && (forall p | p in t.parts :: Order(pid, t.epoch, c.epoch, DecisionOf(c'.txns[pid].state), p) in c'.pending)
            && forall o | o in Fresh(c, i) && o.pid == pid ::
                 o.decision == DecisionOf(c'.txns[pid].state) && o.part in t.parts
  {
  }

  /** Every marker newly ordered for `pid` by step `j` carries `d`. */
  ghost predicate OrdersCarry(cs: seq<Coord>, ins: seq<Input>, j: nat, pid: int, d: Decision)
    requires j < |cs| && j < |ins|
  {
    forall o | o in Fresh(cs[j], ins[j]) && o.pid == pid :: o.decision == d
  }

  lemma RunDecisionStands(cs: seq<Coord>, ins: seq<Input>, j: nat, pid: int)
    requires CoordRun(cs, ins) && j < |ins| && IsDecided(cs[j], pid) && !Opens(cs[j], ins[j], pid)
    ensures IsDecided(cs[j + 1], pid) && DecisionOf(cs[j + 1].txns[pid].state) == DecisionOf(cs[j].txns[pid].state)
    ensures OrdersCarry(cs, ins, j, pid, DecisionOf(cs[j].txns[pid].state))
  {
    DecisionStands(cs[j], ins[j], pid);
  }

  /**
    Once decided at moment `k`, the transaction has that one decision at every later moment up to
    the producer's next opening, and every marker ordered for it on the way carries it.
   */
  lemma {:induction false} OneDecision(cs: seq<Coord>, ins: seq<Input>, k: nat, m: nat, pid: int)
    requires CoordRun(cs, ins) && k <= m < |cs| && IsDecided(cs[k], pid)
    requires forall j | k <= j < m :: !Opens(cs[j], ins[j], pid)
    ensures IsDecided(cs[m], pid) && DecisionOf(cs[m].txns[pid].state) == DecisionOf(cs[k].txns[pid].state)
    ensures forall j | k <= j < m :: OrdersCarry(cs, ins, j, pid, DecisionOf(cs[k].txns[pid].state))
    decreases m - k
  {
    if k < m {
      RunDecisionStands(cs, ins, k, pid);
      OneDecision(cs, ins, k + 1, m, pid);
    }
  }
}
