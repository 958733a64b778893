/** Whose wish a transaction's outcome is, and who is shut out: decisions and epochs over whole runs. */
module TxnIntent {
  import opened RaftTypes
  import opened Results
  import opened TxnLog
  import opened Coordinator
  import opened TxnSystem

  // ---------------------------------------------------------------- one input

  /** The transaction `(pid, epoch)` names is open and its producer is not shut out. */
  predicate IsOpen(c: Coord, pid: int, epoch: int) {
    && pid in c.txns && c.txns[pid].epoch == epoch && c.txns[pid].state == Ongoing
    && (pid in c.current ==> c.current[pid] <= epoch)
  }

  /** Ending an open transaction decides it as asked and orders that decision; anything else is refused. */
  lemma EndDecidesAsAsked(c: Coord, now: int, pid: int, epoch: int, d: Decision)
    ensures var i := End(now, pid, epoch, d);
            if IsOpen(c, pid, epoch)
            then && Ended(c, now, pid, epoch, d).Ok?
                 && IsDecided(Step(c, i), pid) && DecisionOf(Step(c, i).txns[pid].state) == d
                 && (forall o | o in Fresh(c, i) :: o.pid == pid && o.epoch == epoch && o.decision == d)
                 && (forall q | q in c.txns && q != pid :: q in Step(c, i).txns && Step(c, i).txns[q] == c.txns[q])
            else Ended(c, now, pid, epoch, d).Err? && Step(c, i) == c
  {
  }

  /** Nothing else commits: what is decided without being asked is aborted. */
  lemma OnlyEndCommits(c: Coord, i: Input, pid: int)
    requires pid in c.txns && c.txns[pid].state == Ongoing && IsDecided(Step(c, i), pid)
    ensures || (i.End? && i.pid == pid && IsOpen(c, pid, i.epoch) && DecisionOf(Step(c, i).txns[pid].state) == i.decision)
            || ((i.Tick? || i.Init?) && DecisionOf(Step(c, i).txns[pid].state) == Abort)
  {
  }

  /** A tick aborts exactly the open transactions that nothing happened to for longer than the timeout. */
  lemma TickAbortsIff(c: Coord, now: int, pid: int)
    requires pid in c.txns
    ensures var c' := Step(c, Tick(now));
            && pid in c'.txns
            && (c'.txns[pid] != c.txns[pid] ==> c.txns[pid].state == Ongoing)
            && (c.txns[pid].state == Ongoing ==>
                  (IsDecided(c', pid) <==> now - c.txns[pid].lastUpdate > c.timeout))
  {
  }

  // ---------------------------------------------------------------- decisions over a run

  /** How `pid`'s transaction number `n` was decided, if it was. */
  function DecidedAs(s: Sys, pid: int, n: nat): Option<Decision> {
    if pid !in s.serial || n > s.serial[pid] then None
    else if n < s.serial[pid] then (if (pid, n) in s.past then Some(s.past[(pid, n)]) else None)
    else if IsDecided(s.coord, pid) then Some(DecisionOf(s.coord.txns[pid].state))
    else None
  }

  /** Event `e` asks for the end of `pid`'s transaction number `n`, and is accepted. */
  predicate Asks(s: Sys, e: Event, pid: int, n: nat, d: Decision) {
    && e.EInput? && e.input.End? && e.input.pid == pid && e.input.decision == d
    && IsOpen(s.coord, pid, e.input.epoch) && pid in s.serial && s.serial[pid] == n
  }

  lemma AskedIsDecided(s: Sys, e: Event, pid: int, n: nat, d: Decision)
    requires Enabled(s, e) && Asks(s, e, pid, n, d)
    ensures DecidedAs(Next(s, e), pid, n) == Some(d)
  {
    EndDecidesAsAsked(s.coord, e.input.now, pid, e.input.epoch, d);
  }

  lemma InputDecides(s: Sys, i: Input, pid: int, n: nat)
    requires TxnSystem.Inv(s) && !i.Ack? && !i.Take? && Disciplined(s, EInput(i))
    ensures DecidedAs(s, pid, n).Some? ==> DecidedAs(Next(s, EInput(i)), pid, n) == DecidedAs(s, pid, n)
    ensures DecidedAs(s, pid, n) == None && DecidedAs(Next(s, EInput(i)), pid, n) == Some(Commit) ==>
              Asks(s, EInput(i), pid, n, Commit)
  {
    if pid in s.coord.txns {
      assert TxnOk(s.coord.txns[pid]);
    }
    if i.Begin? && Opens(s.coord, i, i.pid) {
      OpensOverDecided(s.coord, i);
    } else if pid in s.coord.txns && IsDecided(s.coord, pid) {
      DecisionStands(s.coord, i, pid);
    } else if pid in s.coord.txns && IsDecided(Step(s.coord, i), pid) {
      OnlyEndCommits(s.coord, i, pid);
    }
  }

  lemma AckDecides(c: Coord, a: AckMsg, pid: int)
    requires CoordOk(c)
    ensures var d := Acked(c, a.pid, a.epoch, a.part);
            && (pid in d.txns <==> pid in c.txns) && (IsDecided(d, pid) <==> IsDecided(c, pid))
            && (IsDecided(c, pid) ==> DecisionOf(d.txns[pid].state) == DecisionOf(c.txns[pid].state))
  {
    if pid in c.txns {
      assert TxnOk(c.txns[pid]);
      AckedTxn(c, a.pid, a.epoch, a.part, pid);
    }
  }

  lemma EventDecides(s: Sys, e: Event, pid: int, n: nat)
    requires TxnSystem.Inv(s) && Enabled(s, e) && Disciplined(s, e)
    ensures DecidedAs(s, pid, n).Some? ==> DecidedAs(Next(s, e), pid, n) == DecidedAs(s, pid, n)
    ensures DecidedAs(s, pid, n) == None && DecidedAs(Next(s, e), pid, n) == Some(Commit) ==> Asks(s, e, pid, n, Commit)
  {
    match e
    case EInput(i) => InputDecides(s, i, pid, n);
    case EAck(a, _) => AckDecides(s.coord, a, pid);
    case _ =>
  }

  lemma {:induction false} DecidedStays(ss: seq<Sys>, es: seq<Event>, j: nat, k: nat, pid: int, n: nat)
    requires Run(ss, es) && j <= k < |ss| && DecidedAs(ss[j], pid, n).Some?
    ensures DecidedAs(ss[k], pid, n) == DecidedAs(ss[j], pid, n)
    decreases k - j
  {
    if j < k {
      RunDecides(ss, es, j, pid, n);
      DecidedStays(ss, es, j + 1, k, pid, n);
    }
  }

  lemma NothingDecidedYet(ss: seq<Sys>, es: seq<Event>, pid: int, n: nat)
    requires Run(ss, es)
    ensures DecidedAs(ss[0], pid, n) == None
  {
  }

  lemma RunDecides(ss: seq<Sys>, es: seq<Event>, k: nat, pid: int, n: nat)
    requires Run(ss, es) && k < |es|
    ensures DecidedAs(ss[k], pid, n).Some? ==> DecidedAs(ss[k + 1], pid, n) == DecidedAs(ss[k], pid, n)
    ensures DecidedAs(ss[k], pid, n) == None && DecidedAs(ss[k + 1], pid, n) == Some(Commit) ==>
              Asks(ss[k], es[k], pid, n, Commit)
  {
    RunKeeps(ss, es, k);
    assert ss[k + 1] == Next(ss[k], es[k]);
    EventDecides(ss[k], es[k], pid, n);
  }

  lemma {:induction false} CommitIsAsked(ss: seq<Sys>, es: seq<Event>, k: nat, pid: int, n: nat) returns (j: nat)
    requires Run(ss, es) && k < |ss| && DecidedAs(ss[k], pid, n) == Some(Commit)
    ensures j < k && Asks(ss[j], es[j], pid, n, Commit)
  {
    NothingDecidedYet(ss, es, pid, n);
    RunDecides(ss, es, k - 1, pid, n);
    if DecidedAs(ss[k - 1], pid, n).Some? {
      j := CommitIsAsked(ss, es, k - 1, pid, n);
    } else {
      j := k - 1;
    }
  }

  lemma OutcomeIsDecision(s: Sys, pid: int, n: nat, p: Part, i: nat)
    requires TxnSystem.Inv(s) && WroteIn(s, pid, n, p, i) && Outcome(s, p, i).Some?
    ensures DecidedAs(s, pid, n) == Outcome(s, p, i)
  {
    DatasMean(s, p, i);
  }

  /** In every run, data is committed only if its producer asked for the commit of that very transaction. */
  lemma CommittedWasAskedFor(ss: seq<Sys>, es: seq<Event>, k: nat, pid: int, n: nat, p: Part, i: nat) returns (j: nat)
    requires Run(ss, es) && k < |ss| && WroteIn(ss[k], pid, n, p, i) && Outcome(ss[k], p, i) == Some(Commit)
    ensures j < k && Asks(ss[j], es[j], pid, n, Commit)
  {
    RunKeeps(ss, es, k);
    OutcomeIsDecision(ss[k], pid, n, p, i);
    j := CommitIsAsked(ss, es, k, pid, n);
  }

  /** And what was asked for is what happens: an accepted commit never ends in an abort, nor the reverse. */
  lemma AskedIsHonoured(ss: seq<Sys>, es: seq<Event>, j: nat, k: nat, pid: int, n: nat, d: Decision, p: Part, i: nat)
    requires Run(ss, es) && j < k < |ss| && Asks(ss[j], es[j], pid, n, d)
    requires WroteIn(ss[k], pid, n, p, i) && Outcome(ss[k], p, i).Some?
    ensures Outcome(ss[k], p, i) == Some(d)
  {
    assert ss[j + 1] == Next(ss[j], es[j]);
    AskedIsDecided(ss[j], es[j], pid, n, d);
    DecidedStays(ss, es, j + 1, k, pid, n);
    RunKeeps(ss, es, k);
    OutcomeIsDecision(ss[k], pid, n, p, i);
  }

  // ---------------------------------------------------------------- epochs over a run

  /** The current epoch of `pid` is at least `e`. */
  predicate AtLeastEpoch(c: Coord, pid: int, e: int) {
    pid in c.current && c.current[pid] >= e
  }

  lemma InputKeepsEpoch(c: Coord, i: Input, pid: int, e: int)
    requires IdsOk(c) && AtLeastEpoch(c, pid, e)
    requires i.Begin? ==> Issued(c, i.pid, i.epoch)
    ensures AtLeastEpoch(Step(c, i), pid, e)
  {
    if i.Init? && i.tid in c.identities {
      assert IdOk(c, c.identities[i.tid]);
      assert c.current[pid] >= e;
    }
  }

  lemma EventKeepsEpoch(s: Sys, ev: Event, pid: int, e: int)
    requires TxnSystem.Inv(s) && Enabled(s, ev) && Disciplined(s, ev) && AtLeastEpoch(s.coord, pid, e)
    ensures AtLeastEpoch(Next(s, ev).coord, pid, e)
  {
    if ev.EInput? {
      InputKeepsEpoch(s.coord, ev.input, pid, e);
    }
  }

  lemma {:induction false} EpochsNeverFall(ss: seq<Sys>, es: seq<Event>, j: nat, k: nat, pid: int, e: int)
    requires Run(ss, es) && j <= k < |ss| && AtLeastEpoch(ss[j].coord, pid, e)
    ensures AtLeastEpoch(ss[k].coord, pid, e)
    decreases k - j
  {
    if j < k {
      RunKeeps(ss, es, j);
      assert ss[j + 1] == Next(ss[j], es[j]);
      EventKeepsEpoch(ss[j], es[j], pid, e);
      EpochsNeverFall(ss, es, j + 1, k, pid, e);
    }
  }

  /** Below its current epoch a producer is refused everything, and nothing changes. */
  lemma BelowIsFenced(c: Coord, pid: int, epoch: int, e: int, now: int, ps: seq<Part>, d: Decision)
    requires AtLeastEpoch(c, pid, e) && epoch < e
    ensures Begun(c, now, pid, epoch) == Err(Fenced) && Step(c, Begin(now, pid, epoch)) == c
    ensures Added(c, now, pid, epoch, ps) == Err(Fenced) && Step(c, Add(now, pid, epoch, ps)) == c
    ensures Ended(c, now, pid, epoch, d) == Err(Fenced) && Step(c, End(now, pid, epoch, d)) == c
  {
  }

  /**
    Once an identity is issued, every older incarnation of that producer is shut out for the rest of the
    run: whatever it asks is refused as fenced and changes nothing, and what it had open is aborted.
   */
  lemma OlderIncarnationsAreFenced(ss: seq<Sys>, es: seq<Event>, j: nat, k: nat, now: int, tid: string,
                                   epoch: int, at: int, ps: seq<Part>, d: Decision)
    requires Run(ss, es) && j < k < |ss| && es[j] == EInput(Init(now, tid))
    requires epoch < InitProducer(ss[j].coord, now, tid).1.epoch
    ensures var c, pid := ss[k].coord, InitProducer(ss[j].coord, now, tid).1.pid;
            && Begun(c, at, pid, epoch) == Err(Fenced) && Step(c, Begin(at, pid, epoch)) == c
            && Added(c, at, pid, epoch, ps) == Err(Fenced) && Step(c, Add(at, pid, epoch, ps)) == c
            && Ended(c, at, pid, epoch, d) == Err(Fenced) && Step(c, End(at, pid, epoch, d)) == c
            && (pid in ss[j].coord.txns && ss[j].coord.txns[pid].state == Ongoing ==>
                  IsDecided(ss[j + 1].coord, pid) && DecisionOf(ss[j + 1].coord.txns[pid].state) == Abort)
  {
    var id := InitProducer(ss[j].coord, now, tid).1;
    RunKeeps(ss, es, j);
    assert ss[j + 1] == Next(ss[j], es[j]);
    IssuedIsCurrent(ss[j].coord, now, tid);
    EpochsNeverFall(ss, es, j + 1, k, id.pid, id.epoch);
    BelowIsFenced(ss[k].coord, id.pid, epoch, id.epoch, at, ps, d);
  }

  lemma IssuedIsCurrent(c: Coord, now: int, tid: string)
    requires IdsOk(c)
    ensures var (d, id) := InitProducer(c, now, tid);
            && AtLeastEpoch(d, id.pid, id.epoch)
            && (id.pid in c.txns && c.txns[id.pid].state == Ongoing ==>
                  IsDecided(d, id.pid) && DecisionOf(d.txns[id.pid].state) == Abort)
  {
    assert c.nextPid in c.txns ==> OnlyLatestOpen(c, c.nextPid);
  }

  /**
    Not so when epochs run out: the new incarnation gets another producer id, and the old id can go on
    with its last epoch.
   */
  lemma LastEpochIsNotFenced(c: Coord, now: int, tid: string)
    requires IdsOk(c) && tid in c.identities && c.identities[tid].epoch == MAX_EPOCH
    requires c.identities[tid].pid in c.txns ==> IsComplete(c.txns[c.identities[tid].pid].state)
    ensures var (d, id) := InitProducer(c, now, tid);
            id.pid != c.identities[tid].pid && Begun(d, now, c.identities[tid].pid, MAX_EPOCH).Ok?
  {
    assert IdOk(c, c.identities[tid]);
  }
}
