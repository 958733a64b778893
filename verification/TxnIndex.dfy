/** The transactional index of a partition, fed from its log: last stable offset, aborted ranges. */
module TxnIndex {
  import opened RaftTypes
  import opened TxnLog

  datatype AbortedRange = AbortedRange(pid: int, first: int, marker: int)

  datatype AbortedTxn = AbortedTxn(pid: int, first: int)

  datatype Index = Index(open: map<int, int>, aborted: seq<AbortedRange>)

  const EMPTY := Index(map[], [])

  function WithData(ix: Index, pid: int, base: int): Index {
    if pid in ix.open then ix else ix.(open := ix.open[pid := base])
  }

  function WithMarker(ix: Index, pid: int, decision: Decision, offset: int): Index {
    if pid !in ix.open then ix
    else Index(ix.open - {pid},
               if decision == Abort then ix.aborted + [AbortedRange(pid, ix.open[pid], offset)] else ix.aborted)
  }

  function Feed(ix: Index, x: Item): Index {
    match x
    case Data(pid, base, _, txn) => if txn then WithData(ix, pid, base) else ix
    case Marker(pid, base, decision) => WithMarker(ix, pid, decision, base)
  }

  /** The index a log leads to, item by item. */
  function Fed(log: seq<Item>): Index {
    if log == [] then EMPTY else Feed(Fed(log[..|log| - 1]), log[|log| - 1])
  }

  /** `r` is the smaller of the high watermark and the oldest open transaction. */
  ghost predicate IsLso(ix: Index, hw: int, r: int) {
    && r <= hw
    && (forall pid | pid in ix.open :: r <= ix.open[pid])
    && (r == hw || Begins(ix.open, r))
  }

  ghost predicate Begins(open: map<int, int>, offset: int) {
    exists pid :: pid in open && open[pid] == offset
  }

  function ListedIn(rs: seq<AbortedRange>, fetch: int): seq<AbortedTxn> {
    if rs == [] then []
    else
      var n := |rs| - 1;
      ListedIn(rs[..n], fetch) + (if rs[n].marker > fetch then [AbortedTxn(rs[n].pid, rs[n].first)] else [])
  }

  /** The aborted transactions a fetch from `fetch` may run into. */
  function Listed(ix: Index, fetch: int): seq<AbortedTxn> {
    ListedIn(ix.aborted, fetch)
  }

  function Since(rs: seq<AbortedRange>, start: int): seq<AbortedRange> {
    if rs == [] then []
    else Since(rs[..|rs| - 1], start) + (if rs[|rs| - 1].marker < start then [] else [rs[|rs| - 1]])
  }

  function Evicted(ix: Index, start: int): Index {
    ix.(aborted := Since(ix.aborted, start))
  }

  predicate Sorted(ts: seq<AbortedTxn>) {
    forall i, j | 0 <= i < j < |ts| :: ts[i].first <= ts[j].first
  }

  /** The smallest of `hw` and the offsets in `open`; `at` holds it when it is one of these. */
  method Oldest<K>(open: map<K, int>, hw: int) returns (lso: int, ghost at: Option<K>)
    ensures lso <= hw && forall p | p in open :: lso <= open[p]
    ensures lso == hw || (at.Some? && at.value in open && open[at.value] == lso)
  {
    lso, at := hw, None;
    var rest := open.Keys;
    while rest != {}
      invariant rest <= open.Keys && lso <= hw
      invariant forall p | p in open && p !in rest :: lso <= open[p]
      invariant lso == hw || (at.Some? && at.value in open && open[at.value] == lso)
      decreases |rest|
    {
      var p :| p in rest;
      if open[p] < lso {
        lso, at := open[p], Some(p);
      }
      rest := rest - {p};
    }
  }

  class PartitionTxnIndex {
    var open: map<int, int>
    var aborted: seq<AbortedRange>

    function State(): Index
      reads this
    {
      Index(open, aborted)
    }

    constructor ()
      ensures State() == EMPTY
    {
      open, aborted := map[], [];
    }

    method OnData(pid: int, base: int)
      modifies this
      ensures State() == WithData(old(State()), pid, base)
    {
      if pid !in open {
        open := open[pid := base];
      }
    }

    method OnMarker(pid: int, decision: Decision, offset: int)
      modifies this
      ensures State() == WithMarker(old(State()), pid, decision, offset)
    {
      if pid !in open {
        return;
      }
      if decision == Abort {
        aborted := aborted + [AbortedRange(pid, open[pid], offset)];
      }
      open := open - {pid};
    }

    method LastStableOffset(hw: int) returns (lso: int)
      ensures IsLso(State(), hw, lso)
    {
      ghost var at;
      lso, at := Oldest(open, hw);
      if lso != hw {
        ghost var p: int := at.value;
        assert p in open && open[p] == lso;
      }
    }

    method AbortedTransactions(fetch: int) returns (ts: seq<AbortedTxn>)
      ensures ts == SortTxns(Listed(State(), fetch)) && Sorted(ts)
    {
      ts := [];
      for i := 0 to |aborted|
        invariant ts == ListedIn(aborted[..i], fetch)
      {
        assert aborted[..i + 1][..i] == aborted[..i];
        if aborted[i].marker > fetch {
          ts := ts + [AbortedTxn(aborted[i].pid, aborted[i].first)];
        }
      }
      assert aborted[..|aborted|] == aborted;
      SortTxnsSorts(ts);
      ts := SortTxns(ts);
    }

    method EvictBelow(start: int)
      modifies this`aborted
      ensures State() == Evicted(old(State()), start)
    {
      var kept: seq<AbortedRange> := [];
      for i := 0 to |aborted|
        invariant kept == Since(aborted[..i], start) && aborted == old(aborted)
      {
        assert aborted[..i + 1][..i] == aborted[..i];
        if aborted[i].marker >= start {
          kept := kept + [aborted[i]];
        }
      }
      assert aborted[..|aborted|] == aborted;
      aborted := kept;
    }
  }

  function Insert(x: AbortedTxn, s: seq<AbortedTxn>): seq<AbortedTxn> {
    if s == [] || x.first <= s[0].first then [x] + s else [s[0]] + Insert(x, s[1..])
  }

  lemma {:induction false} InsertPermutes(x: AbortedTxn, s: seq<AbortedTxn>)
    ensures multiset(Insert(x, s)) == multiset(s) + multiset{x}
  {
    if s != [] {
      assert s == [s[0]] + s[1..];
      InsertPermutes(x, s[1..]);
    }
  }

  lemma {:induction false} InsertSorts(x: AbortedTxn, s: seq<AbortedTxn>)
    requires Sorted(s)
    ensures Sorted(Insert(x, s))
  {
    if s != [] && x.first > s[0].first {
      InsertSorts(x, s[1..]);
      var r := Insert(x, s[1..]);
      forall j | 0 <= j < |r| ensures s[0].first <= r[j].first {
        InsertPermutes(x, s[1..]);
        assert r[j] in multiset(r);
      }
    }
  }

  function SortTxns(s: seq<AbortedTxn>): seq<AbortedTxn> {
    if s == [] then [] else Insert(s[|s| - 1], SortTxns(s[..|s| - 1]))
  }

  lemma {:induction false} SortTxnsSorts(s: seq<AbortedTxn>)
    ensures Sorted(SortTxns(s)) && multiset(SortTxns(s)) == multiset(s)
  {
    if s != [] {
      var n := |s| - 1;
      SortTxnsSorts(s[..n]);
      InsertSorts(s[n], SortTxns(s[..n]));
      InsertPermutes(s[n], SortTxns(s[..n]));
      assert s == s[..n] + [s[n]];
    }
  }

  // ---------------------------------------------------------------- the last stable offset

  /** The index knows exactly the open transactions. */
  lemma {:induction false} FedOpen(log: seq<Item>, pid: int)
    ensures FirstOpen(log, pid) == if pid in Fed(log).open then Some(Fed(log).open[pid]) else None
  {
    if log != [] {
      FedOpen(log[..|log| - 1], pid);
    }
  }

  /** Every transactional batch below `bound` is decided. */
  ghost predicate Stable(log: seq<Item>, bound: int) {
    forall i: nat | i < |log| && log[i].Data? && log[i].txn && log[i].base < bound :: Verdict(log, i).Some?
  }

  lemma BelowLsoIsDecided(log: seq<Item>, hw: int, lso: int, i: nat)
    requires Ordered(log) && IsLso(Fed(log), hw, lso)
    requires i < |log| && log[i].Data? && log[i].txn && log[i].base < lso
    ensures Verdict(log, i).Some?
  {
    var pid := log[i].pid;
    FedOpen(log, pid);
    OpenMeaning(log, pid);
    if FirstOpen(log, pid).Some? {
      var j: nat :| OpensAt(log, pid, j) && log[j].base == FirstOpen(log, pid).value;
      assert i < j;
    }
  }

  /** The last stable offset is the greatest bound up to the high watermark with nothing undecided below. */
  lemma LsoIsExact(log: seq<Item>, hw: int, lso: int, bound: int)
    requires Ordered(log) && IsLso(Fed(log), hw, lso)
    ensures lso <= hw && Stable(log, lso)
    ensures lso < bound <= hw ==> !Stable(log, bound)
  {
    forall i: nat | i < |log| && log[i].Data? && log[i].txn && log[i].base < lso ensures Verdict(log, i).Some? {
      BelowLsoIsDecided(log, hw, lso, i);
    }
    if lso < bound <= hw {
      var pid :| pid in Fed(log).open && Fed(log).open[pid] == lso;
      FedOpen(log, pid);
      OpenMeaning(log, pid);
      var i: nat :| OpensAt(log, pid, i) && log[i].base == FirstOpen(log, pid).value;
      assert Verdict(log, i) == None;
    }
  }

  lemma StableGrows(log: seq<Item>, more: seq<Item>, bound: int)
    requires Stable(log, bound) && forall i | 0 <= i < |more| :: bound <= more[i].base
    ensures Stable(log + more, bound)
  {
    var all := log + more;
    forall i: nat | i < |all| && all[i].Data? && all[i].txn && all[i].base < bound ensures Verdict(all, i).Some? {
      assert all[..|log|] == log && Verdict(log, i).Some?;
      NextMarkerOfPrefix(all, i + 1, |log|, all[i].pid);
    }
  }

  /** It never falls while the log and the high watermark grow. */
  lemma LsoNeverFalls(log: seq<Item>, more: seq<Item>, hw: int, hw': int, lso: int, lso': int)
    requires Ordered(log) && Ordered(log + more) && hw <= hw' && forall i | 0 <= i < |more| :: hw <= more[i].base
    requires IsLso(Fed(log), hw, lso) && IsLso(Fed(log + more), hw', lso')
    ensures lso <= lso'
  {
    LsoIsExact(log, hw, lso, lso);
    StableGrows(log, more, lso);
    LsoIsExact(log + more, hw', lso', lso);
  }

  // ---------------------------------------------------------------- eviction

  lemma {:induction false} ListedSince(rs: seq<AbortedRange>, start: int, fetch: int)
    requires start <= fetch
    ensures ListedIn(Since(rs, start), fetch) == ListedIn(rs, fetch)
  {
    if rs != [] {
      var n := |rs| - 1;
      ListedSince(rs[..n], start, fetch);
      var kept := Since(rs[..n], start);
      assert (kept + [rs[n]])[..|kept|] == kept && kept + [] == kept;
      assert ListedIn(rs[..n], fetch) + [] == ListedIn(rs[..n], fetch);
    }
  }

  /** Evicting below the log start changes no answer for an offset still in the log. */
  lemma EvictionIsInvisible(ix: Index, start: int, fetch: int, hw: int, lso: int)
    requires start <= fetch
    ensures Listed(Evicted(ix, start), fetch) == Listed(ix, fetch)
    ensures IsLso(Evicted(ix, start), hw, lso) <==> IsLso(ix, hw, lso)
  {
    ListedSince(ix.aborted, start, fetch);
  }
}
