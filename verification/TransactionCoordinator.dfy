/** The coordinator as an object, its tables updated in place. */
module TransactionCoordinators {
  import opened Common
  import opened RaftTypes
  import opened Results
  import opened TxnLog
  import opened Coordinator

  class TransactionCoordinator {
    var epoch: int
    const timeout: int
    var nextPid: nat
    var identities: map<string, Identity>
    var current: map<int, int>
    var txns: map<int, Txn>
    var pending: seq<Order>

    function State(): Coord
      reads this
    {
      Coord(epoch, timeout, nextPid, identities, current, txns, set o | o in pending)
    }

    constructor (e: int, t: int)
      ensures State() == NewCoord(e, t)
    {
      epoch, timeout, nextPid, identities, current, txns, pending := e, t, 0, map[], map[], map[], [];
    }

    method SetEpoch(e: int)
      modifies this`epoch
      ensures State() == Step(old(State()), Failover(e))
    {
      epoch := e;
    }

    /** One order per participant whose marker is missing. */
    method Enqueue(pid: int, d: Decision)
      requires pid in txns
      modifies this`pending
      ensures State() == old(State()).(pending := old(State()).pending + OrdersFor(pid, txns[pid], d, epoch))
    {
      var t := txns[pid];
      ghost var before := pending;
      for i := 0 to |t.unacked|
        invariant (set o | o in pending) ==
                  (set o | o in before) + set p | p in t.unacked[..i] :: Order(pid, t.epoch, epoch, d, p)
      {
        var o := Order(pid, t.epoch, epoch, d, t.unacked[i]);
        ghost var was := pending;
        pending := pending + [o];
        assert (set x | x in pending) == (set x | x in was) + {o};
        assert t.unacked[..i + 1] == t.unacked[..i] + [t.unacked[i]];
      }
      assert t.unacked[..|t.unacked|] == t.unacked;
    }

    method Prepare(pid: int, d: Decision, now: int)
      requires pid in txns
      modifies this`txns, this`pending
      ensures State() == EnterPrepare(old(State()), pid, d, now)
    {
      var t := txns[pid].(state := PrepareOf(d), coordEpoch := epoch, unacked := txns[pid].parts, lastUpdate := now);
      if t.unacked == [] {
        txns := txns[pid := t.(state := CompleteOf(d))];
        assert OrdersFor(pid, txns[pid], d, epoch) == {};
        return;
      }
      txns := txns[pid := t];
      Enqueue(pid, d);
    }

    method InitProducerId(now: int, tid: string) returns (id: Identity)
      modifies this
      ensures (State(), id) == InitProducer(old(State()), now, tid)
    {
      if tid !in identities {
        id := Identity(nextPid, 0);
        nextPid := nextPid + 1;
        identities := identities[tid := id];
        current := current[id.pid := id.epoch];
        return;
      }
      id := identities[tid];
      if id.pid in txns && txns[id.pid].state == Ongoing {
        Prepare(id.pid, Abort, now);
      }
      if id.epoch == MAX_EPOCH {
        id := Identity(nextPid, 0);
        nextPid := nextPid + 1;
      } else {
        id := id.(epoch := id.epoch + 1);
      }
      identities := identities[tid := id];
      current := current[id.pid := id.epoch];
    }

    method BeginTxn(now: int, pid: int, e: int) returns (r: Result<()>)
      modifies this`current, this`txns
      ensures r.Ok? <==> Begun(old(State()), now, pid, e).Ok?
      ensures r.Err? ==> r.error == Begun(old(State()), now, pid, e).error
      ensures State() == Step(old(State()), Begin(now, pid, e))
    {
      if pid in current && e < current[pid] {
        return Err(Fenced);
      }
      if pid in txns && e == txns[pid].epoch && !IsComplete(txns[pid].state) {
        return Err(InvalidArgument);
      }
      var top := if pid in current then current[pid] else 0;
      current := current[pid := if e > top then e else top];
      txns := txns[pid := Txn(e, Ongoing, [], [], epoch, now)];
      r := Ok(());
    }

    method AddPartitions(now: int, pid: int, e: int, ps: seq<Part>) returns (r: Result<()>)
      modifies this`txns
      ensures r.Ok? <==> Added(old(State()), now, pid, e, ps).Ok?
      ensures r.Err? ==> r.error == Added(old(State()), now, pid, e, ps).error
      ensures State() == Step(old(State()), Add(now, pid, e, ps))
    {
      var t := Require(State(), pid, e);
      if t.Err? {
        return Err(t.error);
      }
      if t.value.state != Ongoing {
        return Err(InvalidArgument);
      }
      var parts := t.value.parts;
      for i := 0 to |ps|
        invariant parts == MergeAll(t.value.parts, ps[..i])
      {
        assert ps[..i + 1][..i] == ps[..i];
        var k := LowerBound(parts, ps[i]);
        if k == |parts| || parts[k] != ps[i] {
          parts := parts[..k] + [ps[i]] + parts[k..];
        }
      }
      assert ps[..|ps|] == ps;
      txns := txns[pid := t.value.(parts := parts, lastUpdate := now)];
      r := Ok(());
    }

    /** Commit or abort: only an open transaction can be decided. */
    method EndTxn(now: int, pid: int, e: int, d: Decision) returns (r: Result<()>)
      modifies this`txns, this`pending
      ensures r.Ok? <==> Ended(old(State()), now, pid, e, d).Ok?
      ensures r.Err? ==> r.error == Ended(old(State()), now, pid, e, d).error
      ensures State() == Step(old(State()), End(now, pid, e, d))
    {
      var t := Require(State(), pid, e);
      if t.Err? {
        return Err(t.error);
      }
      if t.value.state != Ongoing {
        return Err(InvalidArgument);
      }
      Prepare(pid, d, now);
      r := Ok(());
    }

    method OnMarkerWritten(pid: int, e: int, p: Part)
      modifies this`txns
      ensures State() == Step(old(State()), Ack(pid, e, p))
    {
      if pid !in txns {
        return;
      }
      var t := txns[pid];
      if e != t.epoch || !IsPrepared(t.state) {
        return;
      }
      var k := LowerBound(t.unacked, p);
      if k == |t.unacked| || t.unacked[k] != p {
        return;
      }
      var left := t.unacked[..k] + t.unacked[k + 1..];
      assert |left| < |t.unacked|;
      txns := txns[pid := t.(unacked := left, state := if left == [] then CompleteOf(DecisionOf(t.state)) else t.state)];
    }

    method OnTick(now: int)
      modifies this`txns, this`pending
      ensures State() == Step(old(State()), Tick(now))
    {
      ghost var c := State();
      var rest := txns.Keys;
      TickedNone(c, now);
      while rest != {}
        invariant rest <= c.txns.Keys && State() == Ticked(c, c.txns.Keys - rest, now)
        decreases |rest|
      {
        var pid := Pick(rest);
        TickedOne(c, c.txns.Keys - rest, pid, now);
        assert c.txns.Keys - (rest - {pid}) == c.txns.Keys - rest + {pid};
        if txns[pid].state == Ongoing && now - txns[pid].lastUpdate > timeout {
          Prepare(pid, Abort, now);
        }
        rest := rest - {pid};
      }
      assert c.txns.Keys - {} == c.txns.Keys;
    }

    /** The missing markers of one transaction, if it is prepared. */
    method Reorder(pid: int)
      requires pid in txns
      modifies this`txns, this`pending
      ensures State() == ReorderedOne(old(State()), pid)
    {
      if IsPrepared(txns[pid].state) {
        txns := txns[pid := txns[pid].(coordEpoch := epoch)];
        Enqueue(pid, DecisionOf(txns[pid].state));
      }
    }

    method ResumePending()
      modifies this`txns, this`pending
      ensures State() == Step(old(State()), Resume)
    {
      ghost var c := State();
      var rest := txns.Keys;
      ResumedNone(c);
      while rest != {}
        invariant rest <= c.txns.Keys && State() == Resumed(c, c.txns.Keys - rest)
        decreases |rest|
      {
        var pid := Pick(rest);
        ResumedOne(c, c.txns.Keys - rest, pid);
        assert c.txns.Keys - (rest - {pid}) == c.txns.Keys - rest + {pid};
        Reorder(pid);
        rest := rest - {pid};
      }
      assert c.txns.Keys - {} == c.txns.Keys;
    }

    method TakePending() returns (orders: seq<Order>)
      modifies this`pending
      ensures orders == old(pending) && State() == Step(old(State()), Take)
    {
      orders := pending;
      pending := [];
    }
  }

  lemma TickedNone(c: Coord, now: int)
    ensures Ticked(c, {}, now) == c
    ensures c.txns.Keys - c.txns.Keys == {}
  {
  }

  /** One transaction at a time. */
  lemma TickedOne(c: Coord, done: set<int>, pid: int, now: int)
    requires pid in c.txns && pid !in done
    ensures Ticked(c, done + {pid}, now) ==
            if Expired(Ticked(c, done, now), pid, now) then EnterPrepare(Ticked(c, done, now), pid, Abort, now)
            else Ticked(c, done, now)
  {
  }

  function ReorderedOne(d: Coord, pid: int): Coord
    requires pid in d.txns
  {
    if IsPrepared(d.txns[pid].state)
    then d.(txns := d.txns[pid := d.txns[pid].(coordEpoch := d.epoch)],
            pending := d.pending + OrdersFor(pid, d.txns[pid], DecisionOf(d.txns[pid].state), d.epoch))
    else d
  }

  lemma ResumedNone(c: Coord)
    ensures Resumed(c, {}) == c
    ensures c.txns.Keys - c.txns.Keys == {}
  {
  }

  lemma ResumedOne(c: Coord, done: set<int>, pid: int)
    requires pid in c.txns && pid !in done
    ensures Resumed(c, done + {pid}) == ReorderedOne(Resumed(c, done), pid)
  {
  }
}
