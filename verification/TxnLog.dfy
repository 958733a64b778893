/**
  What a partition log says about transactions: which data is decided, how, and which ranges were
  aborted. Everything here is about the log alone; the index and the filter are measured against it.
 */
module TxnLog {
  import opened RaftTypes

  datatype Decision = Commit | Abort

  /** A batch as far as transactions care: its producer, its offsets, and whether it is a marker. */
  datatype Item =
    | Data(pid: int, base: int, last: int, txn: bool)
    | Marker(pid: int, base: int, decision: Decision)

  /** A marker takes one offset, data as many as it has records. */
  function LastOffset(x: Item): int {
    if x.Data? then x.last else x.base
  }

  predicate Ordered(log: seq<Item>) {
    && (forall i | 0 <= i < |log| :: log[i].base <= LastOffset(log[i]))
    && (forall i, j | 0 <= i < j < |log| :: LastOffset(log[i]) < log[j].base)
  }

  predicate IsTxnData(x: Item, pid: int) {
    x.Data? && x.txn && x.pid == pid
  }

  predicate IsMarker(x: Item, pid: int) {
    x.Marker? && x.pid == pid
  }

  /** The first marker of `pid` at or after position `i`. */
  function NextMarker(log: seq<Item>, i: nat, pid: int): Option<Decision>
    requires i <= |log|
    decreases |log| - i
  {
    if i == |log| then None
    else if IsMarker(log[i], pid) then Some(log[i].decision)
    else NextMarker(log, i + 1, pid)
  }

  /** The first marker of `pid` after position `i`. */
  function Ending(log: seq<Item>, i: nat, pid: int): Option<Decision>
    requires i < |log|
  {
    NextMarker(log, i + 1, pid)
  }

  /** How the transaction that position `i` belongs to ended, if it did. */
  function Verdict(log: seq<Item>, i: nat): Option<Decision>
    requires i < |log|
  {
    Ending(log, i, log[i].pid)
  }

  /** Where the open transaction of `pid` began, if one is open at the end of the log. */
  function FirstOpen(log: seq<Item>, pid: int): Option<int> {
    if log == [] then None
    else
      var before, x := FirstOpen(log[..|log| - 1], pid), log[|log| - 1];
      if IsMarker(x, pid) then None
      else if IsTxnData(x, pid) && before == None then Some(x.base)
      else before
  }

  /** Beginnings of the aborted transactions of `pid` whose marker lies past `fetch`, in order. */
  function Firsts(log: seq<Item>, fetch: int, pid: int): seq<int> {
    if log == [] then []
    else
      var n := |log| - 1;
      Firsts(log[..n], fetch, pid) +
      (if IsMarker(log[n], pid) && log[n].decision == Abort && log[n].base > fetch && FirstOpen(log[..n], pid).Some?
       then [FirstOpen(log[..n], pid).value] else [])
  }

  // ---------------------------------------------------------------- markers

  lemma {:induction false} NextMarkerOfPrefix(log: seq<Item>, i: nat, k: nat, pid: int)
    requires i <= k <= |log|
    ensures NextMarker(log, i, pid) ==
            if NextMarker(log[..k], i, pid).Some? then NextMarker(log[..k], i, pid) else NextMarker(log, k, pid)
    decreases k - i
  {
    if i < k {
      NextMarkerOfPrefix(log, i + 1, k, pid);
    }
  }

  lemma {:induction false} MarkerIsFound(log: seq<Item>, i: nat, j: nat, pid: int)
    requires i <= j < |log| && IsMarker(log[j], pid)
    ensures NextMarker(log, i, pid).Some?
    decreases j - i
  {
    if i < j {
      MarkerIsFound(log, i + 1, j, pid);
    }
  }

  // ---------------------------------------------------------------- the open transaction

  /** An open transaction began at some undecided batch, and every earlier one of `pid` is decided. */
  ghost predicate OpensAt(log: seq<Item>, pid: int, i: nat) {
    && i < |log| && IsTxnData(log[i], pid) && Ending(log, i, pid) == None
    && forall j: nat | j < i && IsTxnData(log[j], pid) :: Ending(log, j, pid).Some?
  }

  ghost predicate AllDecided(log: seq<Item>, pid: int) {
    forall j: nat | j < |log| && IsTxnData(log[j], pid) :: Ending(log, j, pid).Some?
  }

  /** One more item decides what was open, or leaves it as it was. */
  lemma EndingGrows(log: seq<Item>, j: nat, pid: int)
    requires j + 1 < |log|
    ensures var n := |log| - 1;
            Ending(log, j, pid) ==
            if Ending(log[..n], j, pid).Some? then Ending(log[..n], j, pid)
            else if IsMarker(log[n], pid) then Some(log[n].decision) else None
  {
    NextMarkerOfPrefix(log, j + 1, |log| - 1, pid);
  }

  lemma StillOpen(log: seq<Item>, pid: int, i: nat)
    requires log != [] && OpensAt(log[..|log| - 1], pid, i) && !IsMarker(log[|log| - 1], pid)
    ensures OpensAt(log, pid, i)
  {
    EndingGrows(log, i, pid);
    forall j: nat | j < i && IsTxnData(log[j], pid) ensures Ending(log, j, pid).Some? {
      EndingGrows(log, j, pid);
      assert log[j] == log[..|log| - 1][j];
    }
  }

  lemma {:induction false} OpenMeaning(log: seq<Item>, pid: int)
    ensures FirstOpen(log, pid) == None ==> AllDecided(log, pid)
    ensures FirstOpen(log, pid).Some? ==>
              exists i: nat :: OpensAt(log, pid, i) && log[i].base == FirstOpen(log, pid).value
  {
    if log != [] {
      var n := |log| - 1;
      var before, x := log[..n], log[n];
      OpenMeaning(before, pid);
      if FirstOpen(before, pid).Some? && !IsMarker(x, pid) {
        var i: nat :| OpensAt(before, pid, i) && before[i].base == FirstOpen(before, pid).value;
        StillOpen(log, pid, i);
      } else {
        forall j: nat | j < n && IsTxnData(log[j], pid) ensures Ending(log, j, pid).Some? {
          EndingGrows(log, j, pid);
          assert log[j] == before[j];
        }
        assert IsTxnData(x, pid) ==> OpensAt(log, pid, n);
      }
    }
  }
}
