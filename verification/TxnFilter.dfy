/** read_committed: which batches of a fetched slice a consumer gets to see. */
module TxnFilter {
  import opened RaftTypes
  import opened TxnLog
  import opened TxnIndex

  // ---------------------------------------------------------------- one producer

  /** Which aborted transaction of a producer comes next, and whether its data is running. */
  datatype Spot = Spot(next: nat, active: bool)

  function OnData(firsts: seq<int>, s: Spot, base: int): Spot {
    if !s.active && s.next < |firsts| && firsts[s.next] <= base then Spot(s.next, true) else s
  }

  function OnMarker(s: Spot): Spot {
    if s.active then Spot(s.next + 1, false) else s
  }

  function Stepped(firsts: seq<int>, s: Spot, x: Item, pid: int): Spot {
    if IsMarker(x, pid) then OnMarker(s)
    else if IsTxnData(x, pid) then OnData(firsts, s, x.base)
    else s
  }

  /** Where `pid` stands after the first `k` items. */
  function Track(firsts: seq<int>, items: seq<Item>, k: nat, pid: int): Spot
    requires k <= |items|
  {
    if k == 0 then Spot(0, false) else Stepped(firsts, Track(firsts, items, k - 1, pid), items[k - 1], pid)
  }

  // ---------------------------------------------------------------- all producers

  function InsertInt(x: int, s: seq<int>): seq<int> {
    if s == [] || x <= s[0] then [x] + s else [s[0]] + InsertInt(x, s[1..])
  }

  function SortInts(s: seq<int>): seq<int> {
    if s == [] then [] else InsertInt(s[|s| - 1], SortInts(s[..|s| - 1]))
  }

  /** Beginnings listed for `pid`, in list order. */
  function Group(ts: seq<AbortedTxn>, pid: int): seq<int> {
    if ts == [] then []
    else Group(ts[..|ts| - 1], pid) + (if ts[|ts| - 1].pid == pid then [ts[|ts| - 1].first] else [])
  }

  lemma GroupMore(ts: seq<AbortedTxn>, t: AbortedTxn, pid: int)
    ensures Group(ts + [t], pid) == Group(ts, pid) + (if t.pid == pid then [t.first] else [])
  {
    assert (ts + [t])[..|ts|] == ts;
  }

  function Entry(groups: map<int, seq<int>>, pid: int): seq<int> {
    if pid in groups then groups[pid] else []
  }

  ghost predicate Grouped(groups: map<int, seq<int>>, ts: seq<AbortedTxn>) {
    forall pid :: Entry(groups, pid) == Group(ts, pid)
  }

  lemma GroupedMore(groups: map<int, seq<int>>, ts: seq<AbortedTxn>, t: AbortedTxn)
    requires Grouped(groups, ts)
    ensures Grouped(groups[t.pid := Entry(groups, t.pid) + [t.first]], ts + [t])
  {
    var next := groups[t.pid := Entry(groups, t.pid) + [t.first]];
    forall pid
      ensures Entry(next, pid) == Group(ts + [t], pid)
    {
      GroupMore(ts, t, pid);
      assert Entry(groups, pid) == Group(ts, pid);
    }
  }

  function FirstsFor(ts: seq<AbortedTxn>, pid: int): seq<int> {
    SortInts(Group(ts, pid))
  }

  lemma SortedEntries(groups: map<int, seq<int>>, ts: seq<AbortedTxn>, sorted: map<int, seq<int>>)
    requires Grouped(groups, ts)
    requires sorted.Keys == groups.Keys && forall q | q in groups :: sorted[q] == SortInts(groups[q])
    ensures forall pid :: Entry(sorted, pid) == FirstsFor(ts, pid)
  {
    forall pid
      ensures Entry(sorted, pid) == FirstsFor(ts, pid)
    {
      assert Entry(groups, pid) == Group(ts, pid);
    }
  }

  /** Item `k` reaches the consumer. */
  predicate Passes(ts: seq<AbortedTxn>, items: seq<Item>, k: nat)
    requires k < |items|
  {
    var x := items[k];
    x.Data? && (x.txn ==> !Track(FirstsFor(ts, x.pid), items, k + 1, x.pid).active)
  }

  /** What passes among the first `k` items. */
  function Passed(ts: seq<AbortedTxn>, items: seq<Item>, k: nat): seq<Item>
    requires k <= |items|
  {
    if k == 0 then []
    else Passed(ts, items, k - 1) + (if Passes(ts, items, k - 1) then [items[k - 1]] else [])
  }

  class AbortedTracker {
    var firsts: map<int, seq<int>>
    var next: map<int, nat>
    var active: set<int>

    function FirstsOf(pid: int): seq<int>
      reads this
    {
      Entry(firsts, pid)
    }

    function At(pid: int): Spot
      reads this
    {
      Spot(if pid in next then next[pid] else 0, pid in active)
    }

    constructor (ts: seq<AbortedTxn>)
      ensures forall pid :: FirstsOf(pid) == FirstsFor(ts, pid) && At(pid) == Spot(0, false)
    {
      next, active := map[], {};
      var groups: map<int, seq<int>> := map[];
      for i := 0 to |ts|
        invariant Grouped(groups, ts[..i])
      {
        GroupedMore(groups, ts[..i], ts[i]);
        assert ts[..i + 1] == ts[..i] + [ts[i]];
        groups := groups[ts[i].pid := Entry(groups, ts[i].pid) + [ts[i].first]];
      }
      assert ts[..|ts|] == ts;
      var sorted := map pid | pid in groups :: SortInts(groups[pid]);
      SortedEntries(groups, ts, sorted);
      firsts := sorted;
    }

    method Mark(pid: int)
      modifies this`next, this`active
      ensures At(pid) == OnMarker(old(At(pid)))
      ensures forall q | q != pid :: At(q) == old(At(q))
    {
      if pid in active {
        active := active - {pid};
        next := next[pid := (if pid in next then next[pid] else 0) + 1];
      }
    }

    method IsAborted(pid: int, base: int) returns (r: bool)
      modifies this`next, this`active
      ensures At(pid) == OnData(FirstsOf(pid), old(At(pid)), base) && r == At(pid).active
      ensures forall q | q != pid :: At(q) == old(At(q))
    {
      if pid !in active && pid in firsts {
        var i := if pid in next then next[pid] else 0;
        next := next[pid := i];
        if i < |firsts[pid]| && firsts[pid][i] <= base {
          active := active + {pid};
        }
      }
      r := pid in active;
    }
  }

  method FilterCommitted(items: seq<Item>, ts: seq<AbortedTxn>) returns (out: seq<Item>)
    ensures out == Passed(ts, items, |items|)
  {
    var tracker := new AbortedTracker(ts);
    out := [];
    for i := 0 to |items|
      invariant out == Passed(ts, items, i)
      invariant forall pid :: tracker.FirstsOf(pid) == FirstsFor(ts, pid)
      invariant forall pid :: tracker.At(pid) == Track(FirstsFor(ts, pid), items, i, pid)
    {
      var x := items[i];
      if x.Marker? {
        tracker.Mark(x.pid);
      } else {
        var dropped := false;
        if x.txn {
          dropped := tracker.IsAborted(x.pid, x.base);
        }
        if !dropped {
          out := out + [x];
        }
      }
    }
  }
}
