/**
  Why a producer must be quiet when it begins again: with a marker of its last transaction still to be
  written, or lost and not ordered again, that transaction can be committed in one place and aborted in
  another, and with an acknowledgement still on its way the next transaction can be reported complete
  while it is open.
 */
module NeededQuiet {
  import opened RaftTypes
  import opened Results
  import opened TxnLog
  import opened Coordinator
  import opened TxnSystem

  // ---------------------------------------------------------------- runs that waive one condition

  datatype Waived = Orders | Acks | Losses

  /** As disciplined as in any run, but for one condition on beginning. */
  predicate Allowed(s: Sys, e: Event, w: Waived) {
    if e.EInput? && e.input.Begin? then
      var pid := e.input.pid;
      && Issued(s.coord, pid, e.input.epoch) && (w != Losses ==> Through(s, pid))
      && (w != Orders ==> forall o | o in Outstanding(s) :: o.pid != pid)
      && (w != Acks ==> forall a | a in s.acks :: a.pid != pid)
    else Disciplined(s, e)
  }

  ghost predicate RunWaiving(ss: seq<Sys>, es: seq<Event>, w: Waived) {
    && |ss| == |es| + 1
    && (exists epoch, timeout :: ss[0] == Start(epoch, timeout))
    && forall k | 0 <= k < |es| :: Enabled(ss[k], es[k]) && Allowed(ss[k], es[k], w) && ss[k + 1] == Next(ss[k], es[k])
  }

  function Last(ss: seq<Sys>): Sys
    requires ss != []
  {
    ss[|ss| - 1]
  }

  lemma Go(ss: seq<Sys>, es: seq<Event>, w: Waived, e: Event) returns (ss': seq<Sys>, es': seq<Event>)
    requires RunWaiving(ss, es, w) && Enabled(Last(ss), e) && Allowed(Last(ss), e, w)
    ensures RunWaiving(ss', es', w) && Last(ss') == Next(Last(ss), e)
  {
    ss', es' := ss + [Next(Last(ss), e)], es + [e];
    assert ss'[0] == ss[0];
    forall k | 0 <= k < |es'|
      ensures Enabled(ss'[k], es'[k]) && Allowed(ss'[k], es'[k], w) && ss'[k + 1] == Next(ss'[k], es'[k])
    {
      if k < |es| {
        assert Enabled(ss[k], es[k]) && Allowed(ss[k], es[k], w) && ss[k + 1] == Next(ss[k], es[k]);
      }
    }
  }

  // ---------------------------------------------------------------- producer 0 and two partitions

  /** What matters of a state: producer 0 with its identity and transaction, the messages, partitions 1 and 2. */
  datatype View = View(
    epoch: int, t: Txn, serial: nat, pending: set<Order>, flight: set<Order>, acks: set<AckMsg>,
    lossy: set<int>, one: seq<Entry>, two: seq<Entry>)

  predicate Shows(s: Sys, v: View) {
    && s.coord.epoch == 1 && s.lossy == v.lossy
    && "t" in s.coord.identities && s.coord.identities["t"] == Identity(0, v.epoch)
    && 0 in s.coord.current && s.coord.current[0] == v.epoch
    && 0 in s.coord.txns && s.coord.txns[0] == v.t
    && 0 in s.serial && s.serial[0] == v.serial
    && s.coord.pending == v.pending && s.flight == v.flight && s.acks == v.acks
    && LogAt(s, 1) == v.one && LogAt(s, 2) == v.two
  }

  function Opened(epoch: int): Txn {
    Txn(epoch, Ongoing, [], [], 1, 0)
  }

  function OrderOf(epoch: int, d: Decision, p: Part): Order {
    Order(0, epoch, 1, d, p)
  }

  function DataAt(n: nat, serial: nat): Entry {
    Entry(Item.Data(0, n, n, true), serial)
  }

  function MarkerAt(n: nat, d: Decision): Entry {
    Entry(Marker(0, n, d), 0)
  }

  /** The first transaction is open and nothing is written yet. */
  lemma FirstBegin(w: Waived) returns (ss: seq<Sys>, es: seq<Event>)
    ensures RunWaiving(ss, es, w) && Shows(Last(ss), View(0, Opened(0), 0, {}, {}, {}, {}, [], []))
  {
    ss, es := [Start(1, 100)], [];
    ss, es := Go(ss, es, w, EInput(Init(0, "t")));
    ss, es := Go(ss, es, w, EInput(Begin(0, 0, 0)));
  }

  lemma DoInit(ss: seq<Sys>, es: seq<Event>, w: Waived, v: View) returns (ss': seq<Sys>, es': seq<Event>)
    requires RunWaiving(ss, es, w) && Shows(Last(ss), v) && v.t.state != Ongoing && 0 <= v.epoch < 100
    ensures RunWaiving(ss', es', w) && Shows(Last(ss'), v.(epoch := v.epoch + 1))
  {
    ss', es' := Go(ss, es, w, EInput(Init(0, "t")));
  }

  lemma DoBegin(ss: seq<Sys>, es: seq<Event>, w: Waived, v: View) returns (ss': seq<Sys>, es': seq<Event>)
    requires RunWaiving(ss, es, w) && Shows(Last(ss), v) && v.t.state != Ongoing
    requires v.t.epoch == v.epoch ==> IsComplete(v.t.state)
    requires (w != Orders ==> v.pending == v.flight == {}) && (w != Acks ==> v.acks == {}) && (w != Losses ==> v.lossy == {})
    ensures RunWaiving(ss', es', w) && Shows(Last(ss'), v.(t := Opened(v.epoch), serial := v.serial + 1, lossy := v.lossy - {0}))
  {
    ss', es' := Go(ss, es, w, EInput(Begin(0, 0, v.epoch)));
  }

  lemma DoAdd(ss: seq<Sys>, es: seq<Event>, w: Waived, v: View, ps: seq<Part>) returns (ss': seq<Sys>, es': seq<Event>)
    requires RunWaiving(ss, es, w) && Shows(Last(ss), v) && v.t.state == Ongoing && v.t.epoch == v.epoch
    ensures RunWaiving(ss', es', w)
    ensures Shows(Last(ss'), v.(t := v.t.(parts := MergeAll(v.t.parts, ps), lastUpdate := 0)))
  {
    ss', es' := Go(ss, es, w, EInput(Add(0, 0, v.epoch, ps)));
  }

  lemma DoEnd(ss: seq<Sys>, es: seq<Event>, w: Waived, v: View, d: Decision) returns (ss': seq<Sys>, es': seq<Event>)
    requires RunWaiving(ss, es, w) && Shows(Last(ss), v) && v.t.state == Ongoing && v.t.epoch == v.epoch
    requires v.t.parts != []
    ensures RunWaiving(ss', es', w)
    ensures Shows(Last(ss'), v.(t := v.t.(state := PrepareOf(d), coordEpoch := 1, unacked := v.t.parts, lastUpdate := 0),
                                pending := v.pending + set p | p in v.t.parts :: OrderOf(v.epoch, d, p)))
  {
    ss', es' := Go(ss, es, w, EInput(End(0, 0, v.epoch, d)));
  }

  lemma DoTake(ss: seq<Sys>, es: seq<Event>, w: Waived, v: View) returns (ss': seq<Sys>, es': seq<Event>)
    requires RunWaiving(ss, es, w) && Shows(Last(ss), v)
    ensures RunWaiving(ss', es', w) && Shows(Last(ss'), v.(pending := {}, flight := v.flight + v.pending))
  {
    ss', es' := Go(ss, es, w, ETake);
  }

  lemma DoProduce(ss: seq<Sys>, es: seq<Event>, w: Waived, v: View, p: Part) returns (ss': seq<Sys>, es': seq<Event>)
    requires RunWaiving(ss, es, w) && Shows(Last(ss), v) && v.t.state == Ongoing && p in v.t.parts && (p == 1 || p == 2)
    ensures RunWaiving(ss', es', w)
    ensures Shows(Last(ss'), if p == 1 then v.(one := v.one + [DataAt(|v.one|, v.serial)])
                             else v.(two := v.two + [DataAt(|v.two|, v.serial)]))
  {
    ss', es' := Go(ss, es, w, EProduce(0, p));
  }

  lemma DoWrite(ss: seq<Sys>, es: seq<Event>, w: Waived, v: View, epoch: int, d: Decision, p: Part)
    returns (ss': seq<Sys>, es': seq<Event>)
    requires RunWaiving(ss, es, w) && Shows(Last(ss), v) && OrderOf(epoch, d, p) in v.flight && (p == 1 || p == 2)
    ensures RunWaiving(ss', es', w)
    ensures var u := v.(flight := v.flight - {OrderOf(epoch, d, p)}, acks := v.acks + {AckMsg(0, epoch, p)});
            Shows(Last(ss'), if p == 1 then u.(one := v.one + [MarkerAt(|v.one|, d)])
                             else u.(two := v.two + [MarkerAt(|v.two|, d)]))
  {
    ss', es' := Go(ss, es, w, EWrite(OrderOf(epoch, d, p), false));
  }

  lemma DoAck(ss: seq<Sys>, es: seq<Event>, w: Waived, v: View, p: Part, again: bool)
    returns (ss': seq<Sys>, es': seq<Event>)
    requires RunWaiving(ss, es, w) && Shows(Last(ss), v) && AckMsg(0, v.t.epoch, p) in v.acks
    requires IsPrepared(v.t.state) && Without(v.t.unacked, p) != v.t.unacked
    ensures RunWaiving(ss', es', w)
    ensures var left := Without(v.t.unacked, p);
            Shows(Last(ss'), v.(t := v.t.(unacked := left,
                                          state := if left == [] then CompleteOf(DecisionOf(v.t.state)) else v.t.state),
                                acks := if again then v.acks else v.acks - {AckMsg(0, v.t.epoch, p)}))
  {
    ss', es' := Go(ss, es, w, EAck(AckMsg(0, v.t.epoch, p), again));
  }

  // ---------------------------------------------------------------- arithmetic of the participants

  lemma MergeOne(p: Part)
    ensures MergeAll([], [p]) == [p]
  {
    assert [p][..0] == [];
    assert MergeAll([], []) == [];
  }

  lemma MergeTwo()
    ensures MergeAll([], [1, 2]) == [1, 2]
  {
    assert [1, 2][..1] == [1];
    MergeOne(1);
    assert LowerBound([1], 2) == 1;
  }

  lemma AckedOne(p: Part)
    ensures Without([p], p) == []
  {
  }

  // ---------------------------------------------------------------- one transaction, two outcomes

  /** Both partitions hold a batch of the open transaction. */
  lemma BothWritten(w: Waived) returns (ss: seq<Sys>, es: seq<Event>)
    ensures RunWaiving(ss, es, w)
    ensures Shows(Last(ss), View(0, Txn(0, Ongoing, [1, 2], [], 1, 0), 0, {}, {}, {}, {}, [DataAt(0, 0)], [DataAt(0, 0)]))
  {
    ss, es := FirstBegin(w);
    var v := View(0, Opened(0), 0, {}, {}, {}, {}, [], []);
    ss, es := DoAdd(ss, es, w, v, [1, 2]);
    MergeTwo();
    v := v.(t := Txn(0, Ongoing, [1, 2], [], 1, 0));
    ss, es := DoProduce(ss, es, w, v, 1);
    v := v.(one := [DataAt(0, 0)]);
    ss, es := DoProduce(ss, es, w, v, 2);
  }

  lemma OrdersOfTwo()
    ensures (set p | p in [1, 2] :: OrderOf(0, Commit, p)) == {OrderOf(0, Commit, 1), OrderOf(0, Commit, 2)}
  {
    assert 1 in [1, 2] && 2 in [1, 2];
  }

  /** Its commit is decided and both orders are out. */
  lemma BothOrdered(w: Waived) returns (ss: seq<Sys>, es: seq<Event>)
    ensures RunWaiving(ss, es, w)
    ensures Shows(Last(ss), View(0, Txn(0, PrepareCommit, [1, 2], [1, 2], 1, 0), 0, {},
                                 {OrderOf(0, Commit, 1), OrderOf(0, Commit, 2)}, {}, {}, [DataAt(0, 0)], [DataAt(0, 0)]))
  {
    ss, es := BothWritten(w);
    var v := View(0, Txn(0, Ongoing, [1, 2], [], 1, 0), 0, {}, {}, {}, {}, [DataAt(0, 0)], [DataAt(0, 0)]);
    ss, es := DoEnd(ss, es, w, v, Commit);
    OrdersOfTwo();
    v := v.(t := Txn(0, PrepareCommit, [1, 2], [1, 2], 1, 0),
            pending := {OrderOf(0, Commit, 1), OrderOf(0, Commit, 2)});
    ss, es := DoTake(ss, es, w, v);
  }

  /** Committed on partition 1; the order to commit on partition 2 is still on its way. */
  lemma HalfCommitted(w: Waived) returns (ss: seq<Sys>, es: seq<Event>)
    ensures RunWaiving(ss, es, w)
    ensures Shows(Last(ss), View(0, Txn(0, PrepareCommit, [1, 2], [2], 1, 0), 0, {}, {OrderOf(0, Commit, 2)}, {},
                                 {}, [DataAt(0, 0), MarkerAt(1, Commit)], [DataAt(0, 0)]))
  {
    ss, es := BothOrdered(w);
    var v := View(0, Txn(0, PrepareCommit, [1, 2], [1, 2], 1, 0), 0, {},
                  {OrderOf(0, Commit, 1), OrderOf(0, Commit, 2)}, {}, {}, [DataAt(0, 0)], [DataAt(0, 0)]);
    ss, es := DoWrite(ss, es, w, v, 0, Commit, 1);
    v := v.(flight := {OrderOf(0, Commit, 2)}, acks := {AckMsg(0, 0, 1)}, one := [DataAt(0, 0), MarkerAt(1, Commit)]);
    assert Without([1, 2], 1) == [2];
    ss, es := DoAck(ss, es, w, v, 1, false);
  }

  /** From there, a new transaction on partition 2 that is aborted closes what the first one wrote there. */
  lemma NextIsAborted(ss: seq<Sys>, es: seq<Event>, w: Waived, flight: set<Order>, lossy: set<int>)
    returns (ss': seq<Sys>, es': seq<Event>)
    requires RunWaiving(ss, es, w) && (w != Orders ==> flight == {}) && (w != Losses ==> lossy == {})
    requires Shows(Last(ss), View(0, Txn(0, PrepareCommit, [1, 2], [2], 1, 0), 0, {}, flight, {},
                                  lossy, [DataAt(0, 0), MarkerAt(1, Commit)], [DataAt(0, 0)]))
    ensures RunWaiving(ss', es', w)
    ensures WroteIn(Last(ss'), 0, 0, 1, 0) && Outcome(Last(ss'), 1, 0) == Some(Commit)
    ensures WroteIn(Last(ss'), 0, 0, 2, 0) && Outcome(Last(ss'), 2, 0) == Some(Abort)
  {
    var v := View(0, Txn(0, PrepareCommit, [1, 2], [2], 1, 0), 0, {}, flight, {},
                  lossy, [DataAt(0, 0), MarkerAt(1, Commit)], [DataAt(0, 0)]);
    ss', es' := DoInit(ss, es, w, v);
    v := v.(epoch := 1);
    ss', es' := DoBegin(ss', es', w, v);
    v := v.(t := Opened(1), serial := 1, lossy := lossy - {0});
    ss', es' := DoAdd(ss', es', w, v, [2]);
    MergeOne(2);
    v := v.(t := Txn(1, Ongoing, [2], [], 1, 0));
    ss', es' := DoEnd(ss', es', w, v, Abort);
    v := v.(t := Txn(1, PrepareAbort, [2], [2], 1, 0), pending := {} + set p | p in [2] :: OrderOf(1, Abort, p));
    assert 2 in [2] && OrderOf(1, Abort, 2) in v.pending;
    ss', es' := DoTake(ss', es', w, v);
    v := v.(pending := {}, flight := flight + v.pending);
    ss', es' := DoWrite(ss', es', w, v, 1, Abort, 2);
    ClosedByNext(Last(ss'), 1, Commit);
    ClosedByNext(Last(ss'), 2, Abort);
  }

  /**
    If a producer may begin while a marker is outstanding, one of its transactions can end committed
    on one partition and aborted on another, although nothing is lost or repeated.
   */
  lemma TransactionIsSplit() returns (ss: seq<Sys>, es: seq<Event>)
    ensures RunWaiving(ss, es, Orders)
    ensures WroteIn(Last(ss), 0, 0, 1, 0) && Outcome(Last(ss), 1, 0) == Some(Commit)
    ensures WroteIn(Last(ss), 0, 0, 2, 0) && Outcome(Last(ss), 2, 0) == Some(Abort)
  {
    ss, es := HalfCommitted(Orders);
    ss, es := NextIsAborted(ss, es, Orders, {OrderOf(0, Commit, 2)}, {});
  }

  /** The same if it may begin while a marker it lost has not been ordered again. */
  lemma LossSplitsTransaction() returns (ss: seq<Sys>, es: seq<Event>)
    ensures RunWaiving(ss, es, Losses)
    ensures WroteIn(Last(ss), 0, 0, 1, 0) && Outcome(Last(ss), 1, 0) == Some(Commit)
    ensures WroteIn(Last(ss), 0, 0, 2, 0) && Outcome(Last(ss), 2, 0) == Some(Abort)
  {
    ss, es := HalfCommitted(Losses);
    ss, es := Go(ss, es, Losses, ELoseOrder(OrderOf(0, Commit, 2)));
    ss, es := NextIsAborted(ss, es, Losses, {}, {0});
  }

  lemma ClosedByNext(s: Sys, p: Part, d: Decision)
    requires LogAt(s, p) == [DataAt(0, 0), MarkerAt(1, d)]
    ensures Outcome(s, p, 0) == Some(d)
  {
    var log := Items(LogAt(s, p));
    assert log == [Item.Data(0, 0, 0, true), Marker(0, 1, d)];
    assert NextMarker(log, 1, 0) == Some(d);
  }

  // ---------------------------------------------------------------- complete but open

  /** The first transaction is complete, and its one acknowledgement may arrive again. */
  lemma FirstComplete() returns (ss: seq<Sys>, es: seq<Event>)
    ensures RunWaiving(ss, es, Acks)
    ensures Shows(Last(ss), View(0, Txn(0, CompleteCommit, [1], [], 1, 0), 0, {}, {}, {AckMsg(0, 0, 1)},
                                 {}, [DataAt(0, 0), MarkerAt(1, Commit)], []))
  {
    var w := Acks;
    ss, es := FirstBegin(w);
    var v := View(0, Opened(0), 0, {}, {}, {}, {}, [], []);
    ss, es := DoAdd(ss, es, w, v, [1]);
    MergeOne(1);
    v := v.(t := Txn(0, Ongoing, [1], [], 1, 0));
    ss, es := DoProduce(ss, es, w, v, 1);
    v := v.(one := [DataAt(0, 0)]);
    ss, es := DoEnd(ss, es, w, v, Commit);
    assert (set p | p in [1] :: OrderOf(0, Commit, p)) == {OrderOf(0, Commit, 1)};
    v := v.(t := Txn(0, PrepareCommit, [1], [1], 1, 0), pending := {OrderOf(0, Commit, 1)});
    ss, es := DoTake(ss, es, w, v);
    v := v.(pending := {}, flight := {OrderOf(0, Commit, 1)});
    ss, es := DoWrite(ss, es, w, v, 0, Commit, 1);
    v := v.(flight := {}, acks := {AckMsg(0, 0, 1)}, one := [DataAt(0, 0), MarkerAt(1, Commit)]);
    AckedOne(1);
    ss, es := DoAck(ss, es, w, v, 1, true);
  }

  /**
    If a producer may begin while an acknowledgement of its is on its way, that acknowledgement can
    complete its next transaction, whose data is still open.
   */
  lemma CompleteButOpen() returns (ss: seq<Sys>, es: seq<Event>)
    ensures RunWaiving(ss, es, Acks)
    ensures 0 in Last(ss).serial && WroteIn(Last(ss), 0, Last(ss).serial[0], 1, 2)
    ensures 0 in Last(ss).coord.txns && IsComplete(Last(ss).coord.txns[0].state)
    ensures Outcome(Last(ss), 1, 2) == None
  {
    var w := Acks;
    ss, es := FirstComplete();
    var v := View(0, Txn(0, CompleteCommit, [1], [], 1, 0), 0, {}, {}, {AckMsg(0, 0, 1)},
                  {}, [DataAt(0, 0), MarkerAt(1, Commit)], []);
    ss, es := DoBegin(ss, es, w, v);
    v := v.(t := Opened(0), serial := 1);
    ss, es := DoAdd(ss, es, w, v, [1]);
    MergeOne(1);
    v := v.(t := Txn(0, Ongoing, [1], [], 1, 0));
    ss, es := DoProduce(ss, es, w, v, 1);
    v := v.(one := [DataAt(0, 0), MarkerAt(1, Commit), DataAt(2, 1)]);
    ss, es := DoEnd(ss, es, w, v, Commit);
    v := v.(t := Txn(0, PrepareCommit, [1], [1], 1, 0), pending := set p | p in [1] :: OrderOf(0, Commit, p));
    AckedOne(1);
    ss, es := DoAck(ss, es, w, v, 1, false);
    assert NextMarker(Items(LogAt(Last(ss), 1)), 3, 0) == None;
  }
}
