/** What a transaction's record says about the requests behind it, over every run of the coordinator. */
module TxnHistory {
  import opened RaftTypes
  import opened Results
  import opened TxnLog
  import opened Coordinator
  import opened TxnIntent

  /** An accepted request to add partitions to the open transaction of `pid`. */
  predicate Adds(c: Coord, i: Input, pid: int) {
    i.Add? && i.pid == pid && IsOpen(c, pid, i.epoch)
  }

  /** The producer did something for its transaction: opened it or added to it. */
  predicate Touches(c: Coord, i: Input, pid: int) {
    Opens(c, i, pid) || Adds(c, i, pid)
  }

  function TimeOf(i: Input): int {
    if i.Begin? || i.Add? then i.now else 0
  }

  /** The partitions added since `pid` last opened a transaction. */
  function AddedSince(cs: seq<Coord>, ins: seq<Input>, pid: int, k: nat): set<Part>
    requires k <= |ins| <= |cs|
  {
    if k == 0 then {}
    else
      var c, i := cs[k - 1], ins[k - 1];
      if Opens(c, i, pid) then {}
      else AddedSince(cs, ins, pid, k - 1) + (if Adds(c, i, pid) then set p | p in i.parts else {})
  }

  lemma StepOpen(c: Coord, i: Input, pid: int)
    requires CoordOk(c) && pid in Step(c, i).txns && Step(c, i).txns[pid].state == Ongoing
    ensures var t := Step(c, i).txns[pid];
            if Opens(c, i, pid) then t.parts == [] && t.lastUpdate == TimeOf(i)
            else
              && pid in c.txns && c.txns[pid].state == Ongoing
              && (Adds(c, i, pid) ==>
                    t.lastUpdate == TimeOf(i) && forall p :: p in t.parts <==> p in c.txns[pid].parts || p in i.parts)
              && (!Adds(c, i, pid) ==> t == c.txns[pid])
  {
    if pid in c.txns {
      assert TxnOk(c.txns[pid]);
      if Adds(c, i, pid) {
        MergeAllSorts(c.txns[pid].parts, i.parts);
      }
    }
  }

  /** In every run, an open transaction's participants are exactly the partitions its producer added to it. */
  lemma {:induction false} ParticipantsWereAdded(cs: seq<Coord>, ins: seq<Input>, pid: int, k: nat)
    requires CoordRun(cs, ins) && k < |cs| && pid in cs[k].txns && cs[k].txns[pid].state == Ongoing
    ensures forall p :: p in cs[k].txns[pid].parts <==> p in AddedSince(cs, ins, pid, k)
  {
    if k > 0 {
      RunOk(cs, ins, k - 1);
      assert cs[(k - 1) + 1] == Step(cs[k - 1], ins[k - 1]);
      StepOpen(cs[k - 1], ins[k - 1], pid);
      if !Opens(cs[k - 1], ins[k - 1], pid) {
        ParticipantsWereAdded(cs, ins, pid, k - 1);
      }
    }
  }

  /** So whatever decides it orders that decision for those partitions and no others. */
  lemma MarkersGoWhereAdded(cs: seq<Coord>, ins: seq<Input>, pid: int, k: nat)
    requires CoordRun(cs, ins) && k < |ins| && pid in cs[k].txns && cs[k].txns[pid].state == Ongoing
    requires IsDecided(cs[k + 1], pid)
    ensures var t, t' := cs[k].txns[pid], cs[k + 1].txns[pid];
            && (forall p | p in AddedSince(cs, ins, pid, k) ::
                  p in t'.unacked && Order(pid, t.epoch, cs[k].epoch, DecisionOf(t'.state), p) in cs[k + 1].pending)
            && (forall o | o in Fresh(cs[k], ins[k]) && o.pid == pid ::
                  o.decision == DecisionOf(t'.state) && o.part in AddedSince(cs, ins, pid, k))
  {
    assert cs[k + 1] == Step(cs[k], ins[k]);
    ParticipantsWereAdded(cs, ins, pid, k);
    DecisionOrdersAll(cs[k], ins[k], pid);
  }

  // ---------------------------------------------------------------- idleness

  /** Step `j` is the last one before `k` at which the producer touched its transaction. */
  ghost predicate LastTouch(cs: seq<Coord>, ins: seq<Input>, pid: int, j: int, k: int)
    requires |cs| == |ins| + 1 && 0 <= k <= |ins|
  {
    0 <= j < k && Touches(cs[j], ins[j], pid) && forall m | j < m < k :: !Touches(cs[m], ins[m], pid)
  }

  lemma {:induction false} StampIsLastTouch(cs: seq<Coord>, ins: seq<Input>, pid: int, k: nat) returns (j: nat)
    requires CoordRun(cs, ins) && k < |cs| && pid in cs[k].txns && cs[k].txns[pid].state == Ongoing
    ensures LastTouch(cs, ins, pid, j, k) && cs[k].txns[pid].lastUpdate == TimeOf(ins[j])
  {
    var p := k - 1;
    RunOk(cs, ins, p);
    assert cs[p + 1] == Step(cs[p], ins[p]);
    StepOpen(cs[p], ins[p], pid);
    if Touches(cs[p], ins[p], pid) {
      j := p;
    } else {
      j := StampIsLastTouch(cs, ins, pid, p);
    }
  }

  /** In every run, a tick aborts an open transaction if and only if its producer was idle for longer than the timeout. */
  lemma AbortedIffIdle(cs: seq<Coord>, ins: seq<Input>, pid: int, k: nat, now: int, j: int)
    requires CoordRun(cs, ins) && k < |ins| && ins[k] == Tick(now)
    requires pid in cs[k].txns && cs[k].txns[pid].state == Ongoing && LastTouch(cs, ins, pid, j, k)
    ensures IsDecided(cs[k + 1], pid) <==> now - TimeOf(ins[j]) > cs[k].timeout
    ensures IsDecided(cs[k + 1], pid) ==> DecisionOf(cs[k + 1].txns[pid].state) == Abort
  {
    var i := StampIsLastTouch(cs, ins, pid, k);
    assert i == j;
    assert cs[k + 1] == Step(cs[k], ins[k]);
    TickAbortsIff(cs[k], now, pid);
  }
}
