/**
  Coordinator, marker delivery and partitions together. Orders reach partitions in any order, any
  number of times or never, acknowledgements may repeat or be lost, and the coordinator may crash and
  lose everything but its transaction table.
 */
module TxnSystem {
  import opened RaftTypes
  import opened Results
  import opened TxnLog
  import opened Coordinator

  /** A batch of a partition; `serial` is which transaction of its producer the data was written in. */
  datatype Entry = Entry(item: Item, serial: nat)

  datatype AckMsg = AckMsg(pid: int, epoch: int, part: Part)

  /**
    `serial` counts each producer's transactions, `past` holds how the earlier ones were decided, and
    `lossy` holds the producers of whose transaction an order was lost since the last resume.
   */
  datatype Sys = Sys(
    coord: Coord,
    serial: map<int, nat>,
    past: map<(int, nat), Decision>,
    flight: set<Order>,
    lossy: set<int>,
    acks: set<AckMsg>,
    logs: map<Part, seq<Entry>>)

  datatype Event =
    | EInput(input: Input)
    | ETake
    | EWrite(order: Order, again: bool)
    | EAck(ack: AckMsg, again: bool)
    | ELoseAck(ack: AckMsg)
    | ELoseOrder(order: Order)
    | ECrash(epoch: int)
    | EProduce(pid: int, part: Part)

  function LogAt(s: Sys, p: Part): seq<Entry> {
    if p in s.logs then s.logs[p] else []
  }

  function Items(es: seq<Entry>): seq<Item> {
    seq(|es|, i requires 0 <= i < |es| => es[i].item)
  }

  function Outcome(s: Sys, p: Part, i: nat): Option<Decision>
    requires i < |LogAt(s, p)|
  {
    Verdict(Items(LogAt(s, p)), i)
  }

  predicate Enabled(s: Sys, e: Event) {
    match e
    case EInput(i) => !i.Ack? && !i.Take?
    case ETake => true
    case EWrite(o, _) => o in s.flight
    case EAck(a, _) => a in s.acks
    case ELoseAck(a) => a in s.acks
    case ELoseOrder(o) => o in s.flight
    case ECrash(_) => true
    case EProduce(pid, p) => pid in s.serial
  }

  function Written(s: Sys, p: Part, x: Entry): Sys {
    s.(logs := s.logs[p := LogAt(s, p) + [x]])
  }

  function Next(s: Sys, e: Event): Sys
    requires Enabled(s, e)
  {
    match e
    case EInput(i) =>
      var t := s.(coord := Step(s.coord, i));
      if i.Begin? && Opens(s.coord, i, i.pid) then
        if i.pid in s.coord.txns && i.pid in s.serial
        then t.(serial := s.serial[i.pid := s.serial[i.pid] + 1], lossy := s.lossy - {i.pid},
                past := s.past[(i.pid, s.serial[i.pid]) := DecisionOf(s.coord.txns[i.pid].state)])
        else t.(serial := s.serial[i.pid := 0], lossy := s.lossy - {i.pid})
      else if i.Resume? then t.(lossy := {})
      else t
    case ETake => s.(coord := s.coord.(pending := {}), flight := s.flight + s.coord.pending)
    case EWrite(o, again) =>
      Written(s, o.part, Entry(Marker(o.pid, |LogAt(s, o.part)|, o.decision), 0))
      .(flight := if again then s.flight else s.flight - {o}, acks := s.acks + {AckMsg(o.pid, o.epoch, o.part)})
    case EAck(a, again) =>
      s.(coord := Acked(s.coord, a.pid, a.epoch, a.part), acks := if again then s.acks else s.acks - {a})
    case ELoseAck(a) => s.(acks := s.acks - {a})
    case ELoseOrder(o) => s.(flight := s.flight - {o}, lossy := s.lossy + {o.pid})
    case ECrash(epoch) =>
      s.(coord := s.coord.(epoch := epoch, pending := {}), flight := {}, acks := {},
         lossy := s.lossy + set o | o in Outstanding(s) :: o.pid)
    case EProduce(pid, p) => Written(s, p, Entry(Item.Data(pid, |LogAt(s, p)|, |LogAt(s, p)|, true), s.serial[pid]))
  }

  // ---------------------------------------------------------------- what producers and carriers owe

  predicate Issued(c: Coord, pid: int, epoch: int) {
    pid in c.current && epoch <= c.current[pid]
  }

  /** Markers ordered and not yet known to be through. */
  function Outstanding(s: Sys): set<Order> {
    s.coord.pending + s.flight
  }

  /** No marker of the producer is still to be written and none of its acknowledgements is on its way. */
  predicate Quiet(s: Sys, pid: int) {
    && (forall o | o in Outstanding(s) :: o.pid != pid)
    && (forall a | a in s.acks :: a.pid != pid)
  }

  /** The producer's transaction is over, or all its markers were written. */
  predicate Through(s: Sys, pid: int) {
    pid in s.coord.txns && IsPrepared(s.coord.txns[pid].state) ==> pid !in s.lossy
  }

  /** Producers use identities they were given, wait for their markers, and write inside transactions. */
  predicate Disciplined(s: Sys, e: Event) {
    match e
    case EInput(Begin(_, pid, epoch)) => Issued(s.coord, pid, epoch) && Quiet(s, pid) && Through(s, pid)
    case EProduce(pid, p) =>
      pid in s.coord.txns && s.coord.txns[pid].state == Ongoing && p in s.coord.txns[pid].parts
    case _ => true
  }

  // ---------------------------------------------------------------- invariant

  /** Every identity is unique and only its latest epoch can be open. */
  ghost predicate IdsOk(c: Coord) {
    && (forall pid | pid in c.txns :: OnlyLatestOpen(c, pid))
    && (forall pid | pid in c.current :: 0 <= pid < c.nextPid)
    && (forall tid | tid in c.identities :: IdOk(c, c.identities[tid]))
    && (forall tid, tid' | tid in c.identities && tid' in c.identities && tid != tid' ::
          c.identities[tid].pid != c.identities[tid'].pid)
  }

  predicate OnlyLatestOpen(c: Coord, pid: int)
    requires pid in c.txns
  {
    && pid in c.current && c.txns[pid].epoch <= c.current[pid]
    && (c.txns[pid].state == Ongoing ==> c.txns[pid].epoch == c.current[pid])
  }

  predicate IdOk(c: Coord, id: Identity) {
    id.pid in c.current && c.current[id.pid] == id.epoch
  }

  ghost predicate OrderOk(c: Coord, o: Order) {
    IsDecided(c, o.pid) && DecisionOf(c.txns[o.pid].state) == o.decision && o.part in c.txns[o.pid].parts
  }

  predicate IsCurrent(s: Sys, pid: int, x: Entry) {
    x.item.Data? && x.item.pid == pid && pid in s.serial && x.serial == s.serial[pid]
  }

  /** The data `pid` wrote to `p` in its current transaction is closed, with the decision taken. */
  ghost predicate ClosedAt(s: Sys, pid: int, p: Part) {
    && IsDecided(s.coord, pid)
    && forall i: nat | i < |LogAt(s, p)| && IsCurrent(s, pid, LogAt(s, p)[i]) ::
         Outcome(s, p, i) == Some(DecisionOf(s.coord.txns[pid].state))
  }

  ghost predicate OnItsWay(s: Sys, pid: int, p: Part) {
    exists o :: o in Outstanding(s) && o.pid == pid && o.part == p
  }

  /** A missing marker is ordered, or the producer is known to have lost one. */
  ghost predicate Served(s: Sys, pid: int, p: Part) {
    OnItsWay(s, pid, p) || pid in s.lossy
  }

  ghost predicate DataOk(s: Sys, p: Part, i: nat)
    requires i < |LogAt(s, p)|
  {
    var x := LogAt(s, p)[i];
    x.item.Data? ==>
      var pid := x.item.pid;
      && x.item.txn && pid in s.serial && x.serial <= s.serial[pid]
      && (x.serial < s.serial[pid] ==>
            (pid, x.serial) in s.past && Outcome(s, p, i) == Some(s.past[(pid, x.serial)]))
      && (x.serial == s.serial[pid] ==> CurrentOk(s, p, pid, Outcome(s, p, i)))
  }

  ghost predicate CurrentOk(s: Sys, p: Part, pid: int, outcome: Option<Decision>) {
    && pid in s.coord.txns && p in s.coord.txns[pid].parts
    && (if s.coord.txns[pid].state == Ongoing then outcome == None
        else outcome == Some(DecisionOf(s.coord.txns[pid].state)) ||
             (outcome == None && p in s.coord.txns[pid].unacked && Served(s, pid, p)))
  }

  ghost predicate DatasOk(s: Sys) {
    forall p, i: nat | p in s.logs && i < |s.logs[p]| :: DataOk(s, p, i)
  }

  ghost predicate Inv(s: Sys) {
    && CoordOk(s.coord) && IdsOk(s.coord)
    && s.serial.Keys == s.coord.txns.Keys
    && (forall o | o in Outstanding(s) :: OrderOk(s.coord, o))
    && (forall a | a in s.acks :: ClosedAt(s, a.pid, a.part))
    && DatasOk(s)
  }

  // ---------------------------------------------------------------- one more item in a log

  lemma ItemsGrow(es: seq<Entry>, x: Entry)
    ensures Items(es + [x]) == Items(es) + [x.item]
  {
  }

  lemma OutcomeGrows(s: Sys, p: Part, x: Entry, q: Part, i: nat)
    requires i < |LogAt(s, q)|
    ensures var s', y := Written(s, p, x), LogAt(s, q)[i];
            && LogAt(s', q)[i] == y
            && Outcome(s', q, i) ==
               if p == q && Outcome(s, q, i) == None && IsMarker(x.item, y.item.pid) then Some(x.item.decision)
               else Outcome(s, q, i)
  {
    if p == q {
      var es := LogAt(s, q);
      var log := Items(es + [x]);
      ItemsGrow(es, x);
      assert log[..|es|] == Items(es);
      EndingGrows(log, i, es[i].item.pid);
    }
  }

  // ---------------------------------------------------------------- partitions

  lemma DatasMean(s: Sys, p: Part, i: nat)
    requires DatasOk(s) && i < |LogAt(s, p)|
    ensures DataOk(s, p, i)
  {
  }

  /** What a marker on its way is good for: closing what is open, with the decision taken. */
  lemma WriteData(s: Sys, o: Order, again: bool, q: Part, i: nat)
    requires Inv(s) && o in s.flight && i < |LogAt(Next(s, EWrite(o, again)), q)|
    ensures DataOk(Next(s, EWrite(o, again)), q, i)
  {
    var s' := Next(s, EWrite(o, again));
    var x := Entry(Marker(o.pid, |LogAt(s, o.part)|, o.decision), 0);
    assert OrderOk(s.coord, o);
    if i < |LogAt(s, q)| {
      DatasMean(s, q, i);
      OutcomeGrows(s, o.part, x, q, i);
      var y := LogAt(s, q)[i];
      if y.item.Data? && Served(s, y.item.pid, q) && !(y.item.pid == o.pid && q == o.part) {
        OthersServed(s, o, again, y.item.pid, q);
      }
    }
  }

  lemma OthersServed(s: Sys, o: Order, again: bool, pid: int, q: Part)
    requires o in s.flight && Served(s, pid, q) && !(pid == o.pid && q == o.part)
    ensures Served(Next(s, EWrite(o, again)), pid, q)
  {
    if OnItsWay(s, pid, q) {
      var w :| w in Outstanding(s) && w.pid == pid && w.part == q;
      assert w in Outstanding(Next(s, EWrite(o, again)));
    }
  }

  lemma WriteCloses(s: Sys, o: Order, again: bool, pid: int, p: Part)
    requires Inv(s) && o in s.flight
    requires (pid == o.pid && p == o.part) || ClosedAt(s, pid, p)
    ensures ClosedAt(Next(s, EWrite(o, again)), pid, p)
  {
    var s' := Next(s, EWrite(o, again));
    var x := Entry(Marker(o.pid, |LogAt(s, o.part)|, o.decision), 0);
    assert OrderOk(s.coord, o);
    forall i: nat | i < |LogAt(s', p)| && IsCurrent(s', pid, LogAt(s', p)[i])
      ensures Outcome(s', p, i) == Some(DecisionOf(s'.coord.txns[pid].state))
    {
      DatasMean(s, p, i);
      OutcomeGrows(s, o.part, x, p, i);
    }
  }

  lemma WriteKeeps(s: Sys, o: Order, again: bool)
    requires Inv(s) && o in s.flight
    ensures Inv(Next(s, EWrite(o, again)))
  {
    var s' := Next(s, EWrite(o, again));
    forall p, i: nat | p in s'.logs && i < |s'.logs[p]| ensures DataOk(s', p, i) {
      WriteData(s, o, again, p, i);
    }
    forall a | a in s'.acks ensures ClosedAt(s', a.pid, a.part) {
      WriteCloses(s, o, again, a.pid, a.part);
    }
  }

  lemma ProduceData(s: Sys, pid: int, p: Part, q: Part, i: nat)
    requires Inv(s) && pid in s.serial && Disciplined(s, EProduce(pid, p)) && i < |LogAt(Next(s, EProduce(pid, p)), q)|
    ensures DataOk(Next(s, EProduce(pid, p)), q, i)
  {
    var s' := Next(s, EProduce(pid, p));
    var x := Entry(Item.Data(pid, |LogAt(s, p)|, |LogAt(s, p)|, true), s.serial[pid]);
    if i < |LogAt(s, q)| {
      DatasMean(s, q, i);
      OutcomeGrows(s, p, x, q, i);
      var y := LogAt(s, q)[i];
      if y.item.Data? && Served(s, y.item.pid, q) {
        StillServed(s, s', y.item.pid, q);
      }
    }
  }

  lemma ProduceKeeps(s: Sys, pid: int, p: Part)
    requires Inv(s) && pid in s.serial && Disciplined(s, EProduce(pid, p))
    ensures Inv(Next(s, EProduce(pid, p)))
  {
    var s' := Next(s, EProduce(pid, p));
    var x := Entry(Item.Data(pid, |LogAt(s, p)|, |LogAt(s, p)|, true), s.serial[pid]);
    forall q, i: nat | q in s'.logs && i < |s'.logs[q]| ensures DataOk(s', q, i) {
      ProduceData(s, pid, p, q, i);
    }
    forall a | a in s'.acks ensures ClosedAt(s', a.pid, a.part) {
      forall i: nat | i < |LogAt(s', a.part)| && IsCurrent(s', a.pid, LogAt(s', a.part)[i])
        ensures Outcome(s', a.part, i) == Some(DecisionOf(s'.coord.txns[a.pid].state))
      {
        OutcomeGrows(s, p, x, a.part, i);
      }
    }
  }

  // ---------------------------------------------------------------- the coordinator moves

  /** Same partitions and the same transactions. */
  ghost predicate SameLogs(s: Sys, s': Sys) {
    s'.logs == s.logs && s'.serial == s.serial && s'.past == s.past
  }

  /** A transaction goes on, is decided with all its markers ordered, or keeps its decision and its orders. */
  ghost predicate Evolves(s: Sys, s': Sys, pid: int)
    requires pid in s.coord.txns
  {
    pid in s'.coord.txns &&
    var t, t' := s.coord.txns[pid], s'.coord.txns[pid];
    && (forall p | p in t.parts :: p in t'.parts)
    && (if t.state == Ongoing
        then t'.state == Ongoing || forall p | p in t'.parts :: p in t'.unacked && Served(s', pid, p)
        else && t'.state != Ongoing && DecisionOf(t'.state) == DecisionOf(t.state)
             && (forall p | p in t.unacked && p !in t'.unacked :: ClosedAt(s, pid, p))
             && (forall p | p in t'.unacked && Served(s, pid, p) :: Served(s', pid, p)))
  }

  ghost predicate AllEvolve(s: Sys, s': Sys) {
    forall pid | pid in s.coord.txns :: Evolves(s, s', pid)
  }

  /** Every order of the producer that is gone is known to be lost. */
  ghost predicate Accounted(s: Sys, s': Sys, pid: int) {
    && (pid in s.lossy ==> pid in s'.lossy)
    && (forall o | o in Outstanding(s) && o !in Outstanding(s') && o.pid == pid :: pid in s'.lossy)
  }

  lemma StillServed(s: Sys, s': Sys, pid: int, p: Part)
    requires Accounted(s, s', pid) && Served(s, pid, p)
    ensures Served(s', pid, p)
  {
    if OnItsWay(s, pid, p) && pid !in s'.lossy {
      var o :| o in Outstanding(s) && o.pid == pid && o.part == p;
      assert o in Outstanding(s');
    }
  }

  /** The transaction is as it was. */
  lemma Rests(s: Sys, s': Sys, pid: int)
    requires pid in s.coord.txns && pid in s'.coord.txns && s'.coord.txns[pid] == s.coord.txns[pid] && Accounted(s, s', pid)
    ensures Evolves(s, s', pid)
  {
    forall p | Served(s, pid, p) ensures Served(s', pid, p) {
      StillServed(s, s', pid, p);
    }
  }

  lemma MoveData(s: Sys, s': Sys, p: Part, i: nat)
    requires DatasOk(s) && SameLogs(s, s') && AllEvolve(s, s') && i < |LogAt(s', p)|
    ensures DataOk(s', p, i)
  {
    DatasMean(s, p, i);
    var x := LogAt(s, p)[i];
    if x.item.Data? && IsCurrent(s, x.item.pid, x) {
      assert Evolves(s, s', x.item.pid);
    }
  }

  lemma MoveAck(s: Sys, s': Sys, pid: int, p: Part)
    requires ClosedAt(s, pid, p) && SameLogs(s, s') && AllEvolve(s, s')
    ensures ClosedAt(s', pid, p)
  {
    assert Evolves(s, s', pid);
    forall i: nat | i < |LogAt(s', p)| && IsCurrent(s', pid, LogAt(s', p)[i])
      ensures Outcome(s', p, i) == Some(DecisionOf(s'.coord.txns[pid].state))
    {
      assert IsCurrent(s, pid, LogAt(s, p)[i]);
    }
  }

  lemma MoveOrder(s: Sys, s': Sys, o: Order)
    requires OrderOk(s.coord, o) && AllEvolve(s, s')
    ensures OrderOk(s'.coord, o)
  {
    assert Evolves(s, s', o.pid);
  }

  lemma MoveKeeps(s: Sys, s': Sys)
    requires Inv(s) && SameLogs(s, s') && AllEvolve(s, s') && s'.acks <= s.acks
    requires CoordOk(s'.coord) && IdsOk(s'.coord) && s'.coord.txns.Keys == s.coord.txns.Keys
    requires forall o | o in Outstanding(s') && o !in Outstanding(s) :: OrderOk(s'.coord, o)
    ensures Inv(s')
  {
    forall p, i: nat | p in s'.logs && i < |s'.logs[p]| ensures DataOk(s', p, i) {
      MoveData(s, s', p, i);
    }
    forall a | a in s'.acks ensures ClosedAt(s', a.pid, a.part) {
      MoveAck(s, s', a.pid, a.part);
    }
    forall o | o in Outstanding(s') ensures OrderOk(s'.coord, o) {
      if o in Outstanding(s) {
        MoveOrder(s, s', o);
      }
    }
  }

  // ---------------------------------------------------------------- its inputs

  lemma SameOrdersServe(s: Sys, s': Sys, pid: int)
    requires Outstanding(s') == Outstanding(s) && s'.lossy == s.lossy
    ensures forall p | Served(s, pid, p) :: Served(s', pid, p)
  {
    forall p | Served(s, pid, p) ensures Served(s', pid, p) {
      StillServed(s, s', pid, p);
    }
  }

  lemma AckEvolves(s: Sys, s': Sys, a: AckMsg, pid: int)
    requires pid in s.coord.txns && TxnOk(s.coord.txns[pid]) && ClosedAt(s, a.pid, a.part)
    requires s'.coord == Acked(s.coord, a.pid, a.epoch, a.part) && s'.flight == s.flight && s'.lossy == s.lossy
    ensures Evolves(s, s', pid)
  {
    AckedTxn(s.coord, a.pid, a.epoch, a.part, pid);
    SameOrdersServe(s, s', pid);
  }

  lemma AckedTxn(c: Coord, pid: int, epoch: int, p: Part, q: int)
    requires q in c.txns && TxnOk(c.txns[q])
    ensures q in Acked(c, pid, epoch, p).txns
    ensures var t, t' := c.txns[q], Acked(c, pid, epoch, p).txns[q];
            && t'.parts == t.parts && (t.state == Ongoing <==> t'.state == Ongoing)
            && (t.state != Ongoing ==> DecisionOf(t'.state) == DecisionOf(t.state))
            && (forall r | r in t.unacked && r !in t'.unacked :: q == pid && r == p)
  {
    WithoutRemoves(c.txns[q].unacked, p);
  }

  lemma AckKeeps(s: Sys, a: AckMsg, again: bool)
    requires Inv(s) && a in s.acks
    ensures Inv(Next(s, EAck(a, again)))
  {
    var s' := Next(s, EAck(a, again));
    AckedOk(s.coord, a.pid, a.epoch, a.part);
    forall pid | pid in s.coord.txns ensures Evolves(s, s', pid) {
      assert TxnOk(s.coord.txns[pid]) && ClosedAt(s, a.pid, a.part);
      AckEvolves(s, s', a, pid);
    }
    MoveKeeps(s, s');
  }

  /** Events that leave the transactions alone: taking the queue, losing messages, crashing. */
  predicate IsTransport(e: Event) {
    e.ETake? || e.ELoseAck? || e.ELoseOrder? || e.ECrash?
  }

  lemma TransportKeeps(s: Sys, e: Event)
    requires Inv(s) && Enabled(s, e) && IsTransport(e)
    ensures Inv(Next(s, e))
  {
    var s' := Next(s, e);
    forall pid | pid in s.coord.txns ensures Evolves(s, s', pid) {
      Rests(s, s', pid);
    }
    MoveKeeps(s, s');
  }

  predicate IsPlain(c: Coord, i: Input) {
    !i.Ack? && !i.Take? && (i.Begin? ==> !Opens(c, i, i.pid))
  }

  lemma QueuedIsOnItsWay(s: Sys, pid: int, o: Order)
    requires o in s.coord.pending && o.pid == pid
    ensures OnItsWay(s, pid, o.part)
  {
    assert o in Outstanding(s);
  }

  /** A resume orders every missing marker of a prepared transaction again. */
  lemma ResumeEvolves(s: Sys, s': Sys, pid: int)
    requires CoordOk(s.coord) && pid in s.coord.txns && s' == Next(s, EInput(Resume))
    ensures Evolves(s, s', pid)
  {
    var t := s.coord.txns[pid];
    assert TxnOk(t);
    forall p | p in t.unacked ensures Served(s', pid, p) {
      ResumeCovers(s.coord, pid, p);
      QueuedIsOnItsWay(s', pid, Order(pid, t.epoch, s.coord.epoch, DecisionOf(t.state), p));
    }
  }

  lemma InputEvolves(s: Sys, s': Sys, i: Input, pid: int)
    requires CoordOk(s.coord) && IsPlain(s.coord, i) && !i.Resume? && s' == s.(coord := Step(s.coord, i))
    requires pid in s.coord.txns && s.coord.pending <= s'.coord.pending
    ensures Evolves(s, s', pid)
  {
    forall p | Served(s, pid, p) ensures Served(s', pid, p) {
      StillServed(s, s', pid, p);
    }
    var t := s.coord.txns[pid];
    assert TxnOk(t);
    if i.Add? {
      MergeAllSorts(t.parts, i.parts);
    }
    var t' := s'.coord.txns[pid];
    if t.state == Ongoing && t'.state != Ongoing {
      DecisionOrdersAll(s.coord, i, pid);
      forall p | p in t'.parts ensures OnItsWay(s', pid, p) {
        QueuedIsOnItsWay(s', pid, Order(pid, t.epoch, s.coord.epoch, DecisionOf(t'.state), p));
      }
    }
  }

  lemma InputOrders(c: Coord, i: Input, o: Order)
    requires CoordOk(c) && IsPlain(c, i) && o in Step(c, i).pending && o !in c.pending
    ensures OrderOk(Step(c, i), o)
  {
    match i
    case Resume => assert TxnOk(c.txns[o.pid]);
    case _ =>
  }

  lemma ExpelIds(c: Coord, now: int, pid: int)
    requires IdsOk(c)
    ensures var d := Expelled(c, now, pid);
            && IdsOk(d) && d.identities == c.identities && d.txns.Keys == c.txns.Keys && c.pending <= d.pending
            && (pid in d.txns ==> d.txns[pid].state != Ongoing)
  {
  }

  lemma RotateIds(c: Coord, tid: string)
    requires IdsOk(c) && tid in c.identities
    requires c.identities[tid].pid in c.txns ==> c.txns[c.identities[tid].pid].state != Ongoing
    ensures IdsOk(Rotated(c, tid).0)
  {
    assert IdOk(c, c.identities[tid]);
    var d, id := Rotated(c, tid).0, Rotated(c, tid).1;
    forall pid | pid in d.txns ensures OnlyLatestOpen(d, pid) {
      assert OnlyLatestOpen(c, pid);
    }
    forall t | t in d.identities ensures IdOk(d, d.identities[t]) {
      if t != tid {
        assert IdOk(c, c.identities[t]);
      }
    }
    forall t, u | t in d.identities && u in d.identities && t != u ensures d.identities[t].pid != d.identities[u].pid {
      assert t != tid ==> IdOk(c, c.identities[t]);
      assert u != tid ==> IdOk(c, c.identities[u]);
    }
  }

  lemma NewIds(c: Coord, now: int, tid: string)
    requires IdsOk(c) && tid !in c.identities
    ensures IdsOk(InitProducer(c, now, tid).0)
  {
    var d := InitProducer(c, now, tid).0;
    forall pid | pid in d.txns ensures OnlyLatestOpen(d, pid) {
      assert OnlyLatestOpen(c, pid);
    }
    forall t | t in d.identities ensures IdOk(d, d.identities[t]) {
      if t != tid {
        assert IdOk(c, c.identities[t]);
      }
    }
    forall t, u | t in d.identities && u in d.identities && t != u ensures d.identities[t].pid != d.identities[u].pid {
      assert t != tid ==> IdOk(c, c.identities[t]);
      assert u != tid ==> IdOk(c, c.identities[u]);
    }
  }

  lemma InitIds(c: Coord, now: int, tid: string)
    requires IdsOk(c)
    ensures var d := Step(c, Init(now, tid)); IdsOk(d) && d.txns.Keys == c.txns.Keys && c.pending <= d.pending
  {
    if tid in c.identities {
      ExpelIds(c, now, c.identities[tid].pid);
      RotateIds(Expelled(c, now, c.identities[tid].pid), tid);
    } else {
      NewIds(c, now, tid);
    }
  }

  lemma InputIds(c: Coord, i: Input)
    requires IdsOk(c) && IsPlain(c, i)
    ensures IdsOk(Step(c, i)) && Step(c, i).txns.Keys == c.txns.Keys && c.pending <= Step(c, i).pending
  {
    if i.Init? {
      InitIds(c, i.now, i.tid);
    }
  }

  lemma InputKeeps(s: Sys, i: Input)
    requires Inv(s) && IsPlain(s.coord, i)
    ensures Inv(Next(s, EInput(i)))
  {
    var s' := Next(s, EInput(i));
    StepOk(s.coord, i);
    InputIds(s.coord, i);
    forall pid | pid in s.coord.txns ensures Evolves(s, s', pid) {
      if i.Resume? {
        ResumeEvolves(s, s', pid);
      } else {
        InputEvolves(s, s', i, pid);
      }
    }
    forall o | o in Outstanding(s') && o !in Outstanding(s) ensures OrderOk(s'.coord, o) {
      InputOrders(s.coord, i, o);
    }
    MoveKeeps(s, s');
  }

  // ---------------------------------------------------------------- a new transaction

  /** A producer in good standing never opens over a transaction that is still open. */
  lemma OpensOverDecided(c: Coord, i: Input)
    requires IdsOk(c) && i.Begin? && Opens(c, i, i.pid) && Issued(c, i.pid, i.epoch)
    ensures i.epoch == c.current[i.pid] && Step(c, i).current == c.current
    ensures i.pid in c.txns ==> IsDecided(c, i.pid)
  {
    if i.pid in c.txns {
      assert OnlyLatestOpen(c, i.pid);
    }
  }

  lemma BeginIds(c: Coord, i: Input)
    requires IdsOk(c) && i.Begin? && Opens(c, i, i.pid) && Issued(c, i.pid, i.epoch)
    ensures IdsOk(Step(c, i))
  {
    OpensOverDecided(c, i);
    var d := Step(c, i);
    forall pid | pid in d.txns ensures OnlyLatestOpen(d, pid) {
      if pid != i.pid {
        assert OnlyLatestOpen(c, pid);
      }
    }
    forall tid | tid in d.identities ensures IdOk(d, d.identities[tid]) {
      assert IdOk(c, c.identities[tid]);
    }
  }

  /** What the producer wrote before is closed by now, with the decision taken then. */
  lemma BeginData(s: Sys, i: Input, p: Part, k: nat)
    requires Inv(s) && i.Begin? && Opens(s.coord, i, i.pid) && Disciplined(s, EInput(i)) && k < |LogAt(s, p)|
    ensures DataOk(Next(s, EInput(i)), p, k)
  {
    var s' := Next(s, EInput(i));
    OpensOverDecided(s.coord, i);
    DatasMean(s, p, k);
    var x := LogAt(s, p)[k];
    if x.item.Data? && x.item.pid != i.pid && Served(s, x.item.pid, p) {
      StillServed(s, s', x.item.pid, p);
    }
    if i.pid in s.coord.txns {
      assert TxnOk(s.coord.txns[i.pid]);
    }
  }

  lemma BeginAck(s: Sys, i: Input, pid: int, p: Part)
    requires Inv(s) && i.Begin? && Opens(s.coord, i, i.pid) && pid != i.pid && ClosedAt(s, pid, p)
    ensures ClosedAt(Next(s, EInput(i)), pid, p)
  {
    var s' := Next(s, EInput(i));
    forall k: nat | k < |LogAt(s', p)| && IsCurrent(s', pid, LogAt(s', p)[k])
      ensures Outcome(s', p, k) == Some(DecisionOf(s'.coord.txns[pid].state))
    {
      assert IsCurrent(s, pid, LogAt(s, p)[k]);
    }
  }

  lemma BeginKeeps(s: Sys, i: Input)
    requires Inv(s) && i.Begin? && Opens(s.coord, i, i.pid) && Disciplined(s, EInput(i))
    ensures Inv(Next(s, EInput(i)))
  {
    var s' := Next(s, EInput(i));
    StepOk(s.coord, i);
    BeginIds(s.coord, i);
    forall p, k: nat | p in s'.logs && k < |s'.logs[p]| ensures DataOk(s', p, k) {
      BeginData(s, i, p, k);
    }
    forall a | a in s'.acks ensures ClosedAt(s', a.pid, a.part) {
      BeginAck(s, i, a.pid, a.part);
    }
    forall o | o in Outstanding(s') ensures OrderOk(s'.coord, o) {
      assert o in Outstanding(s) && OrderOk(s.coord, o);
    }
  }

  lemma StepKeeps(s: Sys, e: Event)
    requires Inv(s) && Enabled(s, e) && Disciplined(s, e)
    ensures Inv(Next(s, e))
  {
    match e
    case EInput(i) =>
      if IsPlain(s.coord, i) {
        InputKeeps(s, i);
      } else {
        BeginKeeps(s, i);
      }
    case ETake => TransportKeeps(s, e);
    case EWrite(o, again) => WriteKeeps(s, o, again);
    case EAck(a, again) => AckKeeps(s, a, again);
    case ELoseAck(_) => TransportKeeps(s, e);
    case ELoseOrder(_) => TransportKeeps(s, e);
    case ECrash(_) => TransportKeeps(s, e);
    case EProduce(pid, p) => ProduceKeeps(s, pid, p);
  }

  // ---------------------------------------------------------------- whole runs

  function Start(epoch: int, timeout: int): Sys {
    Sys(NewCoord(epoch, timeout), map[], map[], {}, {}, {}, map[])
  }

  ghost predicate Run(ss: seq<Sys>, es: seq<Event>) {
    && |ss| == |es| + 1
    && (exists epoch, timeout :: ss[0] == Start(epoch, timeout))
    && forall k | 0 <= k < |es| :: Enabled(ss[k], es[k]) && Disciplined(ss[k], es[k]) && ss[k + 1] == Next(ss[k], es[k])
  }

  lemma {:induction false} RunKeeps(ss: seq<Sys>, es: seq<Event>, k: nat)
    requires Run(ss, es) && k < |ss|
    ensures Inv(ss[k])
  {
    if k > 0 {
      RunKeeps(ss, es, k - 1);
      assert ss[(k - 1) + 1] == Next(ss[k - 1], es[k - 1]);
      StepKeeps(ss[k - 1], es[k - 1]);
    }
  }

  /** Data of `pid`'s transaction number `n`, at position `i` of partition `p`. */
  predicate WroteIn(s: Sys, pid: int, n: nat, p: Part, i: nat) {
    i < |LogAt(s, p)| && LogAt(s, p)[i].item.Data? && LogAt(s, p)[i].item.pid == pid && LogAt(s, p)[i].serial == n
  }

  /** No run ever closes a transaction as committed in one place and aborted in another. */
  lemma AtomicVisibility(ss: seq<Sys>, es: seq<Event>, k: nat, pid: int, n: nat, p: Part, i: nat, q: Part, j: nat)
    requires Run(ss, es) && k < |ss| && WroteIn(ss[k], pid, n, p, i) && WroteIn(ss[k], pid, n, q, j)
    ensures Outcome(ss[k], p, i).Some? && Outcome(ss[k], q, j).Some? ==> Outcome(ss[k], p, i) == Outcome(ss[k], q, j)
  {
    RunKeeps(ss, es, k);
    DatasMean(ss[k], p, i);
    DatasMean(ss[k], q, j);
  }

  /** When a transaction is complete, all its data everywhere is closed with the decision taken. */
  lemma CompleteMeansClosed(ss: seq<Sys>, es: seq<Event>, k: nat, pid: int, p: Part, i: nat)
    requires Run(ss, es) && k < |ss| && pid in ss[k].serial && WroteIn(ss[k], pid, ss[k].serial[pid], p, i)
    requires pid in ss[k].coord.txns && IsComplete(ss[k].coord.txns[pid].state)
    ensures Outcome(ss[k], p, i) == Some(DecisionOf(ss[k].coord.txns[pid].state))
    ensures p in ss[k].coord.txns[pid].parts
  {
    RunKeeps(ss, es, k);
    assert TxnOk(ss[k].coord.txns[pid]);
    DatasMean(ss[k], p, i);
  }

  /**
    Whatever a decided transaction has still open is ordered closed, unless an order was lost since the
    last resume.
   */
  lemma OpenIsOnItsWay(ss: seq<Sys>, es: seq<Event>, k: nat, pid: int, p: Part, i: nat)
    requires Run(ss, es) && k < |ss| && pid in ss[k].serial && WroteIn(ss[k], pid, ss[k].serial[pid], p, i)
    requires IsDecided(ss[k].coord, pid) && Outcome(ss[k], p, i) == None && pid !in ss[k].lossy
    ensures exists o :: o in Outstanding(ss[k]) && o.pid == pid && o.part == p &&
                        o.decision == DecisionOf(ss[k].coord.txns[pid].state)
  {
    RunKeeps(ss, es, k);
    DatasMean(ss[k], p, i);
    var o :| o in Outstanding(ss[k]) && o.pid == pid && o.part == p;
    assert OrderOk(ss[k].coord, o);
  }

  /** After any losses and any crash, one resume puts a marker on its way to everything still open. */
  lemma ResumeRecovers(ss: seq<Sys>, es: seq<Event>, k: nat, pid: int, p: Part, i: nat)
    requires Run(ss, es) && k < |es| && es[k] == EInput(Resume)
    requires pid in ss[k + 1].serial && WroteIn(ss[k + 1], pid, ss[k + 1].serial[pid], p, i)
    requires IsDecided(ss[k + 1].coord, pid) && Outcome(ss[k + 1], p, i) == None
    ensures exists o :: o in Outstanding(ss[k + 1]) && o.pid == pid && o.part == p &&
                        o.decision == DecisionOf(ss[k + 1].coord.txns[pid].state)
  {
    assert ss[k + 1] == Next(ss[k], es[k]);
    OpenIsOnItsWay(ss, es, k + 1, pid, p, i);
  }
}
