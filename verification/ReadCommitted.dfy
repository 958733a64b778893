/** What read_committed filtering guarantees, measured against the log alone. */
module ReadCommitted {
  import opened RaftTypes
  import opened TxnLog
  import opened TxnIndex
  import opened TxnFilter

  // ---------------------------------------------------------------- the listed beginnings

  predicate Ascending(s: seq<int>) {
    forall i, j | 0 <= i < j < |s| :: s[i] < s[j]
  }

  /** Every listed beginning lies before `bound`. */
  predicate Below(s: seq<int>, bound: int) {
    forall i | 0 <= i < |s| :: s[i] < bound
  }

  predicate LogBelow(log: seq<Item>, bound: int) {
    forall i | 0 <= i < |log| :: log[i].base < bound
  }

  lemma {:induction false} OpenIsBelow(log: seq<Item>, pid: int, bound: int)
    requires LogBelow(log, bound)
    ensures FirstOpen(log, pid).Some? ==> FirstOpen(log, pid).value < bound
  {
    if log != [] {
      OpenIsBelow(log[..|log| - 1], pid, bound);
    }
  }

  /** The beginnings listed for a producer ascend, and an open transaction began after all of them. */
  lemma {:induction false} FirstsAscend(log: seq<Item>, fetch: int, pid: int)
    requires Ordered(log)
    ensures var f := Firsts(log, fetch, pid);
            && Ascending(f)
            && (FirstOpen(log, pid).Some? ==> Below(f, FirstOpen(log, pid).value))
  {
    if log != [] {
      var n := |log| - 1;
      FirstsAscend(log[..n], fetch, pid);
      FirstsBelow(log[..n], fetch, pid, log[n].base);
    }
  }

  lemma {:induction false} FirstsBelow(log: seq<Item>, fetch: int, pid: int, bound: int)
    requires LogBelow(log, bound)
    ensures Below(Firsts(log, fetch, pid), bound)
  {
    if log != [] {
      var n := |log| - 1;
      FirstsBelow(log[..n], fetch, pid, bound);
      OpenIsBelow(log[..n], pid, bound);
    }
  }

  lemma {:induction false} FirstsPrefix(log: seq<Item>, fetch: int, pid: int, p: nat)
    requires p <= |log|
    ensures Firsts(log[..p], fetch, pid) <= Firsts(log, fetch, pid)
  {
    if p < |log| {
      FirstsPrefix(log[..|log| - 1], fetch, pid, p);
      assert log[..|log| - 1][..p] == log[..p];
    } else {
      assert log[..p] == log;
    }
  }

  lemma {:induction false} NothingListedYet(log: seq<Item>, fetch: int, pid: int)
    requires LogBelow(log, fetch)
    ensures Firsts(log, fetch, pid) == []
  {
    if log != [] {
      NothingListedYet(log[..|log| - 1], fetch, pid);
    }
  }

  // ---------------------------------------------------------------- the tracker starts from them

  lemma GroupOfMore(rs: seq<AbortedRange>, r: AbortedRange, fetch: int, pid: int)
    ensures Group(ListedIn(rs + [r], fetch), pid)
         == Group(ListedIn(rs, fetch), pid) + (if r.marker > fetch && r.pid == pid then [r.first] else [])
  {
    assert (rs + [r])[..|rs|] == rs;
    var ts := ListedIn(rs, fetch);
    assert ListedIn(rs + [r], fetch) == if r.marker > fetch then ts + [AbortedTxn(r.pid, r.first)] else ts;
    GroupMore(ListedIn(rs, fetch), AbortedTxn(r.pid, r.first), pid);
  }

  lemma GroupStep(ix: Index, x: Item, fetch: int, pid: int)
    ensures Group(Listed(Feed(ix, x), fetch), pid)
         == Group(Listed(ix, fetch), pid) +
            (if IsMarker(x, pid) && x.decision == Abort && x.base > fetch && pid in ix.open then [ix.open[pid]] else [])
  {
    if x.Marker? && x.pid in ix.open && x.decision == Abort {
      GroupOfMore(ix.aborted, AbortedRange(x.pid, ix.open[x.pid], x.base), fetch, pid);
    }
  }

  lemma {:induction false} GroupOfFed(log: seq<Item>, fetch: int, pid: int)
    ensures Group(Listed(Fed(log), fetch), pid) == Firsts(log, fetch, pid)
  {
    if log != [] {
      var n := |log| - 1;
      GroupOfFed(log[..n], fetch, pid);
      FedOpen(log[..n], pid);
      GroupStep(Fed(log[..n]), log[n], fetch, pid);
    }
  }

  lemma {:induction false} GroupFront(ts: seq<AbortedTxn>, pid: int)
    requires ts != []
    ensures Group(ts, pid) == (if ts[0].pid == pid then [ts[0].first] else []) + Group(ts[1..], pid)
  {
    var n := |ts| - 1;
    if n > 0 {
      GroupFront(ts[..n], pid);
      assert ts[..n][1..] == ts[1..][..n - 1];
    }
  }

  /** All of `pid`'s transactions in the list began before `bound`. */
  predicate Precede(ts: seq<AbortedTxn>, pid: int, bound: int) {
    forall i | 0 <= i < |ts| && ts[i].pid == pid :: ts[i].first < bound
  }

  lemma {:induction false} BelowMeansPrecede(ts: seq<AbortedTxn>, pid: int, bound: int)
    requires Below(Group(ts, pid), bound)
    ensures Precede(ts, pid, bound)
  {
    if ts != [] {
      var n := |ts| - 1;
      var g := Group(ts[..n], pid);
      forall i | 0 <= i < |g| ensures g[i] < bound {
        assert g[i] == Group(ts, pid)[i];
      }
      BelowMeansPrecede(ts[..n], pid, bound);
      assert ts[n].pid == pid ==> Group(ts, pid)[|g|] == ts[n].first;
    }
  }

  lemma {:induction false} GroupNone(ts: seq<AbortedTxn>, pid: int)
    requires forall i | 0 <= i < |ts| :: ts[i].pid != pid
    ensures Group(ts, pid) == []
  {
    if ts != [] {
      GroupNone(ts[..|ts| - 1], pid);
    }
  }

  /** Putting a transaction in its place among all is putting its beginning last for its producer. */
  lemma {:induction false} GroupOfInsert(x: AbortedTxn, ts: seq<AbortedTxn>, pid: int)
    requires Sorted(ts) && Precede(ts, x.pid, x.first)
    ensures Group(Insert(x, ts), pid) == Group(ts, pid) + (if x.pid == pid then [x.first] else [])
  {
    if ts == [] {
      GroupFront([x], pid);
    } else if x.first <= ts[0].first {
      GroupFront([x] + ts, pid);
      assert ([x] + ts)[1..] == ts;
      if x.pid == pid {
        GroupNone(ts, pid);
      }
    } else {
      var r := Insert(x, ts[1..]);
      GroupFront(ts, pid);
      GroupFront([ts[0]] + r, pid);
      assert ([ts[0]] + r)[1..] == r;
      GroupOfInsert(x, ts[1..], pid);
    }
  }

  lemma GreatestLast(s: seq<int>, x: int)
    requires Ascending(s + [x])
    ensures Ascending(s) && Below(s, x)
  {
    var t := s + [x];
    forall i, j | 0 <= i < j < |s| ensures s[i] < s[j] {
      assert t[i] < t[j];
    }
    forall i | 0 <= i < |s| ensures s[i] < x {
      assert t[i] < t[|s|];
    }
  }

  ghost predicate AllAscend(ts: seq<AbortedTxn>) {
    forall q :: Ascending(Group(ts, q))
  }

  lemma WithoutLast(ts: seq<AbortedTxn>, q: int)
    requires ts != [] && Ascending(Group(ts, q))
    ensures Ascending(Group(ts[..|ts| - 1], q))
    ensures ts[|ts| - 1].pid == q ==> Below(Group(ts[..|ts| - 1], q), ts[|ts| - 1].first)
  {
    var g := Group(ts[..|ts| - 1], q);
    assert g + [] == g;
    if ts[|ts| - 1].pid == q {
      GreatestLast(g, ts[|ts| - 1].first);
    }
  }

  /** Sorting the whole list leaves every producer's ascending beginnings as they are. */
  lemma {:induction false} GroupOfSorted(ts: seq<AbortedTxn>, pid: int)
    requires AllAscend(ts)
    ensures Group(SortTxns(ts), pid) == Group(ts, pid)
    decreases |ts|
  {
    if ts != [] {
      var rest, x := ts[..|ts| - 1], ts[|ts| - 1];
      forall q ensures Ascending(Group(rest, q)) {
        WithoutLast(ts, q);
      }
      WithoutLast(ts, x.pid);
      GroupOfSorted(rest, pid);
      GroupOfSorted(rest, x.pid);
      SortTxnsSorts(rest);
      BelowMeansPrecede(SortTxns(rest), x.pid, x.first);
      GroupOfInsert(x, SortTxns(rest), pid);
    }
  }

  lemma {:induction false} InsertGreatest(x: int, s: seq<int>)
    requires Below(s, x)
    ensures InsertInt(x, s) == s + [x]
  {
    if s != [] {
      InsertGreatest(x, s[1..]);
    }
  }

  lemma {:induction false} SortOfAscending(s: seq<int>)
    requires Ascending(s)
    ensures SortInts(s) == s
  {
    if s != [] {
      SortOfAscending(s[..|s| - 1]);
      InsertGreatest(s[|s| - 1], s[..|s| - 1]);
    }
  }

  /** The tracker starts from the beginnings in log order. */
  lemma TrackerFirsts(log: seq<Item>, fetch: int, pid: int)
    requires Ordered(log)
    ensures FirstsFor(SortTxns(Listed(Fed(log), fetch)), pid) == Firsts(log, fetch, pid)
  {
    forall q ensures Ascending(Group(Listed(Fed(log), fetch), q)) {
      GroupOfFed(log, fetch, q);
      FirstsAscend(log, fetch, q);
    }
    GroupOfFed(log, fetch, pid);
    FirstsAscend(log, fetch, pid);
    GroupOfSorted(Listed(Fed(log), fetch), pid);
    SortOfAscending(Firsts(log, fetch, pid));
  }

  // ---------------------------------------------------------------- what lies ahead in the log

  /** How many aborted transactions of `pid` are listed and closed by position `p`. */
  function Closed(log: seq<Item>, fetch: int, pid: int, p: nat): nat
    requires p <= |log|
  {
    |Firsts(log[..p], fetch, pid)|
  }

  function OpenAt(log: seq<Item>, pid: int, p: nat): Option<int>
    requires p <= |log|
  {
    FirstOpen(log[..p], pid)
  }

  /** Whether item `p` closes a transaction of `pid` that the list contains. */
  predicate Closes(log: seq<Item>, fetch: int, pid: int, p: nat)
    requires p < |log|
  {
    IsMarker(log[p], pid) && log[p].decision == Abort && log[p].base > fetch && OpenAt(log, pid, p).Some?
  }

  lemma OneItem(log: seq<Item>, fetch: int, pid: int, p: nat)
    requires p < |log|
    ensures Closed(log, fetch, pid, p + 1) == Closed(log, fetch, pid, p) + (if Closes(log, fetch, pid, p) then 1 else 0)
    ensures OpenAt(log, pid, p + 1) ==
            if IsMarker(log[p], pid) then None
            else if IsTxnData(log[p], pid) && OpenAt(log, pid, p) == None then Some(log[p].base)
            else OpenAt(log, pid, p)
    ensures Closed(log, fetch, pid, p + 1) <= |Firsts(log, fetch, pid)|
    ensures Closes(log, fetch, pid, p) ==> Firsts(log, fetch, pid)[Closed(log, fetch, pid, p)] == OpenAt(log, pid, p).value
  {
    assert log[..p + 1][..p] == log[..p];
    FirstsPrefix(log, fetch, pid, p + 1);
  }

  predicate PastFetch(log: seq<Item>, fetch: int, p: nat) {
    forall i | p <= i < |log| :: log[i].base > fetch
  }

  /** A transaction open at `p` that will be aborted is the next one listed. */
  lemma {:induction false} AbortIsListed(log: seq<Item>, fetch: int, pid: int, p: nat)
    requires p <= |log| && PastFetch(log, fetch, p)
    requires OpenAt(log, pid, p).Some? && NextMarker(log, p, pid) == Some(Abort)
    ensures Closed(log, fetch, pid, p) < |Firsts(log, fetch, pid)|
    ensures Firsts(log, fetch, pid)[Closed(log, fetch, pid, p)] == OpenAt(log, pid, p).value
    decreases |log| - p
  {
    OneItem(log, fetch, pid, p);
    if !IsMarker(log[p], pid) {
      AbortIsListed(log, fetch, pid, p + 1);
    }
  }

  /** Otherwise the next one listed, if any, begins later. */
  lemma {:induction false} NextBeginsLater(log: seq<Item>, fetch: int, pid: int, p: nat)
    requires Ordered(log) && p <= |log| && PastFetch(log, fetch, p)
    requires OpenAt(log, pid, p) == None || NextMarker(log, p, pid) != Some(Abort)
    requires Closed(log, fetch, pid, p) < |Firsts(log, fetch, pid)|
    ensures LogBelow(log[..p], Firsts(log, fetch, pid)[Closed(log, fetch, pid, p)])
    decreases |log| - p
  {
    assert log[..|log|] == log;
    if p < |log| {
      OneItem(log, fetch, pid, p);
      var next := Firsts(log, fetch, pid)[Closed(log, fetch, pid, p)];
      if OpenAt(log, pid, p + 1).Some? && NextMarker(log, p + 1, pid) == Some(Abort) {
        AbortIsListed(log, fetch, pid, p + 1);
      } else {
        NextBeginsLater(log, fetch, pid, p + 1);
        forall i | 0 <= i < p ensures log[..p][i].base < next {
          assert log[..p + 1][i] == log[i];
        }
      }
    }
  }

  /** Everything closed so far began before item `p`. */
  lemma ClosedIsPast(log: seq<Item>, fetch: int, pid: int, p: nat, i: nat)
    requires Ordered(log) && p < |log| && i < Closed(log, fetch, pid, p)
    ensures i < |Firsts(log, fetch, pid)| && Firsts(log, fetch, pid)[i] < log[p].base
  {
    FirstsPrefix(log, fetch, pid, p);
    FirstsBelow(log[..p], fetch, pid, log[p].base);
    assert Firsts(log[..p], fetch, pid)[i] == Firsts(log, fetch, pid)[i];
  }

  // ---------------------------------------------------------------- the tracker never runs ahead

  /** The tracker is not ahead of the log, and marks data as aborted only inside an open transaction. */
  ghost predicate InStep(log: seq<Item>, fetch: int, pid: int, p: nat, s: Spot)
    requires p <= |log|
  {
    && s.next <= Closed(log, fetch, pid, p)
    && (s.active ==> OpenAt(log, pid, p).Some? &&
                     (s.next < Closed(log, fetch, pid, p) || NextMarker(log, p, pid) == Some(Abort)))
  }

  lemma StepKeeps(log: seq<Item>, fetch: int, pid: int, p: nat, s: Spot)
    requires Ordered(log) && p < |log| && PastFetch(log, fetch, p + 1)
    requires InStep(log, fetch, pid, p, s) && (log[p].base <= fetch ==> !s.active)
    ensures InStep(log, fetch, pid, p + 1, Stepped(Firsts(log, fetch, pid), s, log[p], pid))
  {
    OneItem(log, fetch, pid, p);
    assert log[..p + 1][p] == log[p];
    var f, c := Firsts(log, fetch, pid), Closed(log, fetch, pid, p);
    if IsTxnData(log[p], pid) && !s.active && s.next == c < |f| && f[c] <= log[p].base {
      if NextMarker(log, p + 1, pid) != Some(Abort) {
        NextBeginsLater(log, fetch, pid, p + 1);
      }
    }
  }

  // ---------------------------------------------------------------- a fetched slice

  /**
    `[a, b)` is a stretch of the log that starts with the batch that reaches `fetch`: the first one,
    and only it, may begin before `fetch`.
   */
  ghost predicate Slice(log: seq<Item>, fetch: int, a: nat, b: nat) {
    && Ordered(log) && a <= b <= |log|
    && (forall i | 0 <= i < a :: LastOffset(log[i]) < fetch)
    && (forall i | a <= i < |log| :: LastOffset(log[i]) >= fetch)
  }

  lemma EarlierIsBelow(log: seq<Item>, fetch: int, a: nat, b: nat)
    requires Slice(log, fetch, a, b)
    ensures LogBelow(log[..a], fetch)
  {
    forall i | 0 <= i < a ensures log[..a][i].base < fetch {
      assert LastOffset(log[i]) < fetch;
    }
  }

  /** Where the tracker stands for `pid` before item `p` of the slice. */
  function Standing(log: seq<Item>, fetch: int, a: nat, pid: int, p: nat): Spot
    requires a <= p <= |log|
    decreases p - a
  {
    if p == a then Spot(0, false)
    else Stepped(Firsts(log, fetch, pid), Standing(log, fetch, a, pid, p - 1), log[p - 1], pid)
  }

  lemma LaterIsPastFetch(log: seq<Item>, fetch: int, a: nat, b: nat, p: nat)
    requires Slice(log, fetch, a, b) && a <= p < |log|
    ensures PastFetch(log, fetch, p + 1) && (p > a ==> log[p].base > fetch)
  {
    forall i | p < i < |log| ensures log[i].base > fetch {
      assert LastOffset(log[p]) < log[i].base;
    }
    assert p > a ==> LastOffset(log[a]) < log[p].base;
  }

  lemma {:induction false} StandingKeepsStep(log: seq<Item>, fetch: int, a: nat, b: nat, pid: int, p: nat)
    requires Slice(log, fetch, a, b) && a <= p <= |log|
    ensures InStep(log, fetch, pid, p, Standing(log, fetch, a, pid, p))
    decreases p
  {
    if p == a {
      EarlierIsBelow(log, fetch, a, b);
      NothingListedYet(log[..a], fetch, pid);
    } else {
      StandingKeepsStep(log, fetch, a, b, pid, p - 1);
      LaterIsPastFetch(log, fetch, a, b, p - 1);
      StepKeeps(log, fetch, pid, p - 1, Standing(log, fetch, a, pid, p - 1));
    }
  }

  /** The item at `p` is dropped as aborted data of its producer. */
  predicate Drops(log: seq<Item>, fetch: int, a: nat, p: nat)
    requires a <= p < |log|
  {
    log[p].Data? && log[p].txn && Standing(log, fetch, a, log[p].pid, p + 1).active
  }

  predicate IsAborted(log: seq<Item>, p: nat)
    requires p < |log|
  {
    log[p].Data? && log[p].txn && Verdict(log, p) == Some(Abort)
  }

  /** Data of an aborted transaction is always dropped. */
  lemma AbortedIsDropped(log: seq<Item>, fetch: int, a: nat, b: nat, p: nat)
    requires Slice(log, fetch, a, b) && a <= p < b && IsAborted(log, p)
    ensures Drops(log, fetch, a, p)
  {
    var pid := log[p].pid;
    var s, f := Standing(log, fetch, a, pid, p), Firsts(log, fetch, pid);
    StandingKeepsStep(log, fetch, a, b, pid, p);
    OneItem(log, fetch, pid, p);
    AbortIsListed(log, fetch, pid, p + 1);
    OpenIsBelow(log[..p], pid, log[p].base);
    FirstsAscend(log, fetch, pid);
    assert f[s.next] <= f[Closed(log, fetch, pid, p)];
  }

  // ---------------------------------------------------------------- when nothing else is dropped

  predicate IsEvent(x: Item, pid: int) {
    IsMarker(x, pid) || IsTxnData(x, pid)
  }

  /**
    An aborted transaction of `pid` whose data lies wholly before the fetch and whose marker is the
    first thing the slice has of `pid`. The fetch lists it, but no data of it arrives.
   */
  ghost predicate StaleAt(log: seq<Item>, fetch: int, a: nat, pid: int, m: nat) {
    && a <= m < |log| && Closes(log, fetch, pid, m)
    && forall i | a <= i < m :: !IsEvent(log[i], pid)
  }

  /** As long as none is stale the tracker keeps up with the log. */
  ghost predicate KeepsUp(log: seq<Item>, fetch: int, a: nat, pid: int, p: nat)
    requires a <= p <= |log|
  {
    var s := Standing(log, fetch, a, pid, p);
    && s.next == Closed(log, fetch, pid, p)
    && (OpenAt(log, pid, p).Some? && NextMarker(log, p, pid) == Some(Abort) && Seen(log, a, pid, p) ==> s.active)
  }

  ghost predicate Seen(log: seq<Item>, a: nat, pid: int, p: nat)
    requires a <= p <= |log|
  {
    exists i :: a <= i < p && IsEvent(log[i], pid)
  }

  lemma {:induction false} NoneStaleKeepsUp(log: seq<Item>, fetch: int, a: nat, b: nat, pid: int, p: nat)
    requires Slice(log, fetch, a, b) && a <= p <= b
    requires forall m | a <= m < p :: !StaleAt(log, fetch, a, pid, m)
    ensures KeepsUp(log, fetch, a, pid, p)
    decreases p
  {
    if p == a {
      EarlierIsBelow(log, fetch, a, b);
      NothingListedYet(log[..a], fetch, pid);
    } else {
      var q := p - 1;
      NoneStaleKeepsUp(log, fetch, a, b, pid, q);
      OneItem(log, fetch, pid, q);
      StandingKeepsStep(log, fetch, a, b, pid, q);
      if IsTxnData(log[q], pid) && NextMarker(log, p, pid) == Some(Abort) {
        AbortedIsDropped(log, fetch, a, b, q);
      }
      if Closes(log, fetch, pid, q) {
        assert !StaleAt(log, fetch, a, pid, q);
      }
    }
  }

  /** Data of a transaction that was not aborted. */
  predicate IsKept(log: seq<Item>, p: nat, pid: int)
    requires p < |log|
  {
    IsTxnData(log[p], pid) && Verdict(log, p) != Some(Abort)
  }

  /** Then data that was not aborted gets through. */
  lemma KeptGetsThrough(log: seq<Item>, fetch: int, a: nat, b: nat, p: nat)
    requires Slice(log, fetch, a, b) && a <= p < b && IsKept(log, p, log[p].pid)
    requires forall m | a <= m < p :: !StaleAt(log, fetch, a, log[p].pid, m)
    ensures !Drops(log, fetch, a, p)
  {
    var pid := log[p].pid;
    var f, c := Firsts(log, fetch, pid), Closed(log, fetch, pid, p);
    NoneStaleKeepsUp(log, fetch, a, b, pid, p);
    StandingKeepsStep(log, fetch, a, b, pid, p);
    OneItem(log, fetch, pid, p);
    LaterIsPastFetch(log, fetch, a, b, p);
    if c < |f| {
      NextBeginsLater(log, fetch, pid, p + 1);
      assert log[..p + 1][p] == log[p];
    }
  }

  /** After a stale marker the tracker lags until it has dropped data it should not have. */
  lemma {:induction false} StaleLags(log: seq<Item>, fetch: int, a: nat, b: nat, pid: int, m: nat, p: nat)
    requires Slice(log, fetch, a, b) && StaleAt(log, fetch, a, pid, m) && m < p <= b
    requires forall i | m < i < p :: !IsKept(log, i, pid)
    ensures Standing(log, fetch, a, pid, p).next < Closed(log, fetch, pid, p)
    decreases p
  {
    var q := p - 1;
    OneItem(log, fetch, pid, q);
    StandingKeepsStep(log, fetch, a, b, pid, q);
    if q == m {
      NothingSeen(log, fetch, a, pid, m);
    } else {
      StaleLags(log, fetch, a, b, pid, m, q);
      if IsMarker(log[q], pid) && Standing(log, fetch, a, pid, q).active {
        OpenWasSeen(log, fetch, a, b, pid, m, q);
      }
    }
  }

  lemma {:induction false} NothingSeen(log: seq<Item>, fetch: int, a: nat, pid: int, p: nat)
    requires a <= p <= |log| && forall i | a <= i < p :: !IsEvent(log[i], pid)
    ensures Standing(log, fetch, a, pid, p) == Spot(0, false)
    decreases p
  {
    if p > a {
      NothingSeen(log, fetch, a, pid, p - 1);
    }
  }

  /** A transaction open at a marker after the stale one has its data in between, so it was aborted. */
  lemma OpenWasSeen(log: seq<Item>, fetch: int, a: nat, b: nat, pid: int, m: nat, q: nat)
    requires Slice(log, fetch, a, b) && m < q < |log| && IsMarker(log[m], pid) && IsMarker(log[q], pid)
    requires OpenAt(log, pid, q).Some? && PastFetch(log, fetch, q)
    requires forall i | m < i < q :: !IsKept(log, i, pid)
    ensures Closes(log, fetch, pid, q)
  {
    OpenMeaning(log[..q], pid);
    var i: nat :| OpensAt(log[..q], pid, i);
    if i < m {
      MarkerIsFound(log[..q], i + 1, m, pid);
    }
    NextMarkerOfPrefix(log, i + 1, q, pid);
    assert log[..q][i] == log[i];
    assert !IsKept(log, i, pid);
  }

  lemma StaleDropsKept(log: seq<Item>, fetch: int, a: nat, b: nat, pid: int, m: nat, p: nat)
    requires Slice(log, fetch, a, b) && StaleAt(log, fetch, a, pid, m) && m < p < b && IsKept(log, p, pid)
    requires forall i | m < i < p :: !IsKept(log, i, pid)
    ensures Drops(log, fetch, a, p)
  {
    var s, f := Standing(log, fetch, a, pid, p), Firsts(log, fetch, pid);
    StaleLags(log, fetch, a, b, pid, m, p);
    ClosedIsPast(log, fetch, pid, p, s.next);
  }

  // ---------------------------------------------------------------- what the consumer gets

  /** The aborted transactions the index hands to a fetch. */
  function ListFor(log: seq<Item>, fetch: int): seq<AbortedTxn> {
    SortTxns(Listed(Fed(log), fetch))
  }

  lemma {:induction false} TrackIsStanding(log: seq<Item>, fetch: int, a: nat, b: nat, pid: int, k: nat)
    requires Slice(log, fetch, a, b) && k <= b - a
    ensures Track(FirstsFor(ListFor(log, fetch), pid), log[a..b], k, pid) == Standing(log, fetch, a, pid, a + k)
  {
    TrackerFirsts(log, fetch, pid);
    if k > 0 {
      TrackIsStanding(log, fetch, a, b, pid, k - 1);
    }
  }

  lemma PassesMeans(log: seq<Item>, fetch: int, a: nat, b: nat, k: nat)
    requires Slice(log, fetch, a, b) && k < b - a
    ensures Passes(ListFor(log, fetch), log[a..b], k) <==> log[a + k].Data? && !Drops(log, fetch, a, a + k)
  {
    TrackIsStanding(log, fetch, a, b, log[a + k].pid, k + 1);
  }

  /** Not a marker and not data of an aborted transaction. */
  predicate IsVisible(log: seq<Item>, p: nat)
    requires p < |log|
  {
    log[p].Data? && !IsAborted(log, p)
  }

  function Visible(log: seq<Item>, a: nat, b: nat): seq<Item>
    requires a <= b <= |log|
    decreases b
  {
    if a == b then [] else Visible(log, a, b - 1) + (if IsVisible(log, b - 1) then [log[b - 1]] else [])
  }

  /** From any log and any offset: no marker and no aborted data is ever delivered. */
  lemma NothingAbortedIsDelivered(log: seq<Item>, fetch: int, a: nat, b: nat, k: nat)
    requires Slice(log, fetch, a, b) && k < b - a && Passes(ListFor(log, fetch), log[a..b], k)
    ensures IsVisible(log, a + k)
  {
    PassesMeans(log, fetch, a, b, k);
    if IsAborted(log, a + k) {
      AbortedIsDropped(log, fetch, a, b, a + k);
    }
  }

  /** No producer has kept data in the slice behind the marker of a stale aborted transaction. */
  ghost predicate Clean(log: seq<Item>, fetch: int, a: nat, b: nat)
    requires b <= |log|
  {
    forall pid, m: nat, p: nat | m < p < b && StaleAt(log, fetch, a, pid, m) :: !IsKept(log, p, pid)
  }

  lemma CleanPasses(log: seq<Item>, fetch: int, a: nat, b: nat, k: nat)
    requires Slice(log, fetch, a, b) && Clean(log, fetch, a, b) && k < b - a
    ensures Passes(ListFor(log, fetch), log[a..b], k) <==> IsVisible(log, a + k)
  {
    var p := a + k;
    PassesMeans(log, fetch, a, b, k);
    if log[p].Data? && log[p].txn {
      if IsAborted(log, p) {
        AbortedIsDropped(log, fetch, a, b, p);
      } else {
        forall m | a <= m < p ensures !StaleAt(log, fetch, a, log[p].pid, m) {
          assert m >= 0 && IsKept(log, p, log[p].pid);
        }
        KeptGetsThrough(log, fetch, a, b, p);
      }
    }
  }

  lemma {:induction false} CleanDelivers(log: seq<Item>, fetch: int, a: nat, b: nat, k: nat)
    requires Slice(log, fetch, a, b) && Clean(log, fetch, a, b) && k <= b - a
    ensures Passed(ListFor(log, fetch), log[a..b], k) == Visible(log, a, a + k)
  {
    if k > 0 {
      CleanDelivers(log, fetch, a, b, k - 1);
      CleanPasses(log, fetch, a, b, k - 1);
    }
  }

  /** How many visible items among the first `k` the consumer does not get. */
  ghost function Missing(log: seq<Item>, fetch: int, a: nat, b: nat, k: nat): int
    requires a <= b <= |log| && k <= b - a
  {
    |Visible(log, a, a + k)| - |Passed(ListFor(log, fetch), log[a..b], k)|
  }

  lemma MissingGrows(log: seq<Item>, fetch: int, a: nat, b: nat, k: nat)
    requires Slice(log, fetch, a, b) && k < b - a
    ensures Missing(log, fetch, a, b, k + 1) >= Missing(log, fetch, a, b, k)
    ensures IsVisible(log, a + k) && Drops(log, fetch, a, a + k) ==>
              Missing(log, fetch, a, b, k + 1) == Missing(log, fetch, a, b, k) + 1
  {
    PassesMeans(log, fetch, a, b, k);
    if Passes(ListFor(log, fetch), log[a..b], k) {
      NothingAbortedIsDelivered(log, fetch, a, b, k);
    }
  }

  lemma {:induction false} MissingAtLeast(log: seq<Item>, fetch: int, a: nat, b: nat, j: nat, k: nat)
    requires Slice(log, fetch, a, b) && j <= k <= b - a
    ensures Missing(log, fetch, a, b, j) <= Missing(log, fetch, a, b, k)
    decreases k - j
  {
    if j < k {
      MissingGrows(log, fetch, a, b, j);
      MissingAtLeast(log, fetch, a, b, j + 1, k);
    }
  }

  /** One visible item withheld and the consumer has fewer from then on. */
  lemma WithheldIsMissing(log: seq<Item>, fetch: int, a: nat, b: nat, p: nat)
    requires Slice(log, fetch, a, b) && a <= p < b && IsVisible(log, p) && Drops(log, fetch, a, p)
    ensures Missing(log, fetch, a, b, b - a) > 0
  {
    MissingAtLeast(log, fetch, a, b, 0, p - a);
    MissingGrows(log, fetch, a, b, p - a);
    MissingAtLeast(log, fetch, a, b, p - a + 1, b - a);
  }

  /** Behind a stale marker something visible is withheld. */
  lemma UncleanWithholds(log: seq<Item>, fetch: int, a: nat, b: nat)
    requires Slice(log, fetch, a, b) && !Clean(log, fetch, a, b)
    ensures Missing(log, fetch, a, b, b - a) > 0
  {
    var pid, m: nat, p: nat :| m < p < b && StaleAt(log, fetch, a, pid, m) && IsKept(log, p, pid);
    StaleWithholds(log, fetch, a, b, pid, m, p);
  }

  lemma StaleWithholds(log: seq<Item>, fetch: int, a: nat, b: nat, pid: int, m: nat, p: nat)
    requires Slice(log, fetch, a, b) && m < p < b && StaleAt(log, fetch, a, pid, m) && IsKept(log, p, pid)
    ensures Missing(log, fetch, a, b, b - a) > 0
  {
    var q := EarliestKept(log, pid, m, p);
    StaleDropsKept(log, fetch, a, b, pid, m, q);
    WithheldIsMissing(log, fetch, a, b, q);
  }

  lemma {:induction false} EarliestKept(log: seq<Item>, pid: int, m: nat, p: nat) returns (q: nat)
    requires m < p < |log| && IsKept(log, p, pid)
    ensures m < q <= p && IsKept(log, q, pid) && forall i | m < i < q :: !IsKept(log, i, pid)
    decreases p - m
  {
    if IsKept(log, m + 1, pid) {
      q := m + 1;
    } else {
      q := EarliestKept(log, pid, m + 1, p);
    }
  }

  /** The consumer gets exactly the visible items if and only if the slice is clean. */
  lemma DeliveryIsExactIffClean(log: seq<Item>, fetch: int, a: nat, b: nat)
    requires Slice(log, fetch, a, b)
    ensures Passed(ListFor(log, fetch), log[a..b], b - a) == Visible(log, a, b) <==> Clean(log, fetch, a, b)
  {
    if Clean(log, fetch, a, b) {
      CleanDelivers(log, fetch, a, b, b - a);
    } else {
      UncleanWithholds(log, fetch, a, b);
    }
  }

  /** Below a stable offset, visible transactional data is committed data. */
  lemma VisibleIsCommitted(log: seq<Item>, bound: int, p: nat)
    requires Stable(log, bound) && p < |log| && log[p].base < bound && log[p].Data? && log[p].txn
    ensures IsVisible(log, p) <==> Verdict(log, p) == Some(Commit)
  {
    assert Verdict(log, p).Some?;
    match Verdict(log, p).value
    case Commit =>
    case Abort =>
  }

  const EXAMPLE := [Item.Data(7, 0, 0, true), Item.Data(8, 1, 1, false), Marker(7, 2, Abort), Item.Data(7, 3, 3, true),
                    Marker(7, 4, Commit)]

  /** Such slices exist: producer 7 aborts, a fetch starts past its data, and what it commits next is lost. */
  lemma CommittedDataCanBeWithheld()
    ensures Slice(EXAMPLE, 1, 1, 5) && !Clean(EXAMPLE, 1, 1, 5)
    ensures Verdict(EXAMPLE, 3) == Some(Commit) && Drops(EXAMPLE, 1, 1, 3)
  {
    var log := EXAMPLE;
    assert log[..2] == [Item.Data(7, 0, 0, true), Item.Data(8, 1, 1, false)];
    assert log[..2][..1] == [Item.Data(7, 0, 0, true)];
    assert FirstOpen([Item.Data(7, 0, 0, true)], 7) == Some(0);
    assert FirstOpen(log[..2], 7) == Some(0);
    assert StaleAt(log, 1, 1, 7, 2);
    assert NextMarker(log, 4, 7) == Some(Commit);
    assert IsKept(log, 3, 7);
    StaleDropsKept(log, 1, 1, 5, 7, 2, 3);
  }
}
