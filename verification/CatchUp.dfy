/**
  A leader and one follower exchanging requests and replies: how far behind or astray the follower's
  log is, a finite number of exchanges brings it up to date, except from one kind of state.
 */
module CatchUp {
  import opened Common
  import opened RaftTypes
  import opened NodeSpec
  import opened Replication
  import LogView
  import Actions

  /** The leader's log, the follower's, and what the leader keeps about the follower. */
  datatype Pair = Pair(x: LogView.View, y: LogView.View, next: nat, matched: nat)

  function Larger(a: nat, b: nat): nat {
    if a >= b then a else b
  }

  function Credited(s: Pair, y: LogView.View, upTo: nat): Pair {
    var m := Larger(s.matched, upTo);
    Pair(s.x, y, m + 1, m)
  }

  function PrevTerm(x: LogView.View, p: nat): nat {
    var t := LogView.TermAt(x, p);
    if t.Some? then t.value else 0
  }

  function Slice(x: LogView.View, next: nat): seq<WireEntry> {
    var es := LogView.EntriesFrom(x, next, MAX_ENTRIES);
    if es.Some? then es.value else []
  }

  /** One request and its reply. */
  function Exchange(s: Pair): Pair {
    if s.next <= s.x.snap then
      var v := LogView.Install(s.y, SnapshotOf(s.x));
      Credited(s, if v.Some? then v.value else s.y, s.x.snap)
    else
      var p, last := s.next - 1, LogView.LastIndex(s.y);
      var t := LogView.TermAt(s.y, p);
      if p > last || t.None? then s.(next := last + 1)
      else if t.value != PrevTerm(s.x, p) then s.(next := p)
      else
        var es := Slice(s.x, s.next);
        match AppendEntriesFrom(s.y, es)
        case None => s.(next := if p < 1 then 1 else p)
        case Some(v) => Credited(s, v, p + |es|)
  }

  /** What holds between a leader's log and a follower's: matching logs, and what was compacted is shared. */
  ghost predicate Related(s: Pair) {
    && PositiveTerms(s.x.hist) && PositiveTerms(s.y.hist) && LogsMatch(s.y.hist, s.x.hist)
    && s.y.hist[..s.y.snap] <= s.x.hist
    && s.matched <= |s.x.hist| && s.next >= 1
    && s.x.origin >= 0
  }

  /** The leader starts from its first entry, and the follower has compacted past that. */
  predicate Stuck(s: Pair) {
    s.next == 1 && s.x.snap == 0 && s.y.snap >= 2
  }

  // ---------------------------------------------------------------- shared prefixes

  function Shared(a: Log, b: Log): (c: nat)
    ensures c <= |a| && c <= |b|
  {
    if a == [] || b == [] || a[0] != b[0] then 0 else 1 + Shared(a[1..], b[1..])
  }

  lemma {:induction false} SharedIs(a: Log, b: Log)
    ensures a[..Shared(a, b)] == b[..Shared(a, b)]
    ensures Shared(a, b) < |a| && Shared(a, b) < |b| ==> a[Shared(a, b)] != b[Shared(a, b)]
  {
    if a != [] && b != [] && a[0] == b[0] {
      SharedIs(a[1..], b[1..]);
      var c := Shared(a[1..], b[1..]);
      assert a[..c + 1] == [a[0]] + a[1..][..c] && b[..c + 1] == [b[0]] + b[1..][..c];
    }
  }

  lemma {:induction false} SharedAtLeast(a: Log, b: Log, k: nat)
    requires k <= |a| && k <= |b| && a[..k] == b[..k]
    ensures Shared(a, b) >= k
  {
    if k > 0 {
      assert a[0] == a[..k][0] == b[..k][0] == b[0];
      assert a[1..][..k - 1] == a[..k][1..] == b[..k][1..] == b[1..][..k - 1];
      SharedAtLeast(a[1..], b[1..], k - 1);
    }
  }

  lemma SharedPrefix(a: Log, b: Log, m: nat)
    requires m <= |b|
    ensures Shared(a, b) >= m <==> b[..m] <= a
  {
    var c := Shared(a, b);
    SharedIs(a, b);
    if c >= m {
      assert b[..m] == b[..c][..m] == a[..c][..m] == a[..m];
    }
    if b[..m] <= a {
      assert a[..m] == b[..m];
      SharedAtLeast(a, b, m);
    }
  }

  /** Between matching logs, terms agree exactly on what is shared. */
  lemma SharedIff(s: Pair, p: nat)
    requires Related(s) && 1 <= p <= |s.y.hist| && p <= |s.x.hist|
    ensures s.y.hist[p - 1].term == s.x.hist[p - 1].term <==> p <= Shared(s.y.hist, s.x.hist)
  {
    var a, b, c := s.y.hist, s.x.hist, Shared(s.y.hist, s.x.hist);
    SharedIs(a, b);
    if p <= c {
      assert a[p - 1] == a[..c][p - 1] == b[..c][p - 1] == b[p - 1];
    } else if a[p - 1].term == b[p - 1].term {
      assert a[..(p - 1) + 1] == b[..(p - 1) + 1];
      SharedAtLeast(a, b, p);
    }
  }

  lemma CompactedIsShared(s: Pair)
    requires Related(s)
    ensures s.y.snap <= Shared(s.y.hist, s.x.hist)
  {
    assert s.y.hist[..s.y.snap] == s.x.hist[..s.y.snap];
    SharedAtLeast(s.y.hist, s.x.hist, s.y.snap);
  }

  // ---------------------------------------------------------------- adopting

  /** Adopting a prefix of the leader's log shares it, loses nothing shared, and keeps the logs matching. */
  lemma AdoptShares(a: Log, b: Log, m: nat)
    requires m <= |b| && LogsMatch(a, b) && PositiveTerms(a) && PositiveTerms(b)
    ensures var w := Actions.Adopt(a, b[..m]);
            && LogsMatch(w, b) && PositiveTerms(w)
            && Shared(w, b) >= m && Shared(w, b) >= Shared(a, b)
  {
    var w := Actions.Adopt(a, b[..m]);
    SharedPrefix(a, b, m);
    SharedPrefix(w, b, m);
    if w != a {
      forall i | 0 <= i < |w| && i < |b| && w[i].term == b[i].term ensures w[..i + 1] == b[..i + 1] {
      }
    }
  }

  // ---------------------------------------------------------------- each kind of exchange

  lemma SnapshotRound(s: Pair)
    requires Related(s) && s.next <= s.x.snap
    ensures var t := Exchange(s);
            && Related(t) && t.next == t.matched + 1 && t.matched == Larger(s.matched, s.x.snap)
            && Shared(t.y.hist, t.x.hist) >= Shared(s.y.hist, s.x.hist) && Shared(t.y.hist, t.x.hist) >= s.x.snap
  {
    var h, sn := s.x.hist, SnapshotOf(s.x);
    CompactedIsShared(s);
    if s.x.snap > s.y.snap {
      InstallAdopts(s.y, h, sn);
      AdoptShares(s.y.hist, h, s.x.snap);
      var w := LogView.Install(s.y, sn).value;
      SharedIs(w.hist, h);
      assert w.hist[..w.snap] == h[..w.snap];
    }
  }

  lemma SliceCarries(x: LogView.View, next: nat)
    requires x.snap < next
    ensures Carries(x.hist, next - 1, PrevTerm(x, next - 1), Slice(x, next))
    ensures next <= |x.hist| ==> |Slice(x, next)| >= 1
    ensures next <= |x.hist| + 1 ==> next - 1 + |Slice(x, next)| <= |x.hist|
  {
  }

  /** The follower agrees at the index before the request, and has it or starts from nothing compacted. */
  predicate Agrees(s: Pair) {
    var p := s.next - 1;
    && s.next > s.x.snap && p <= |s.y.hist| && LogView.TermAt(s.y, p) == Some(PrevTerm(s.x, p)) && (p == 0 ==> s.y.snap <= 1)
  }

  lemma AgreesIsConsistent(s: Pair)
    requires Related(s) && Agrees(s)
    ensures Consistent(s.y, s.x.hist, s.next - 1, PrevTerm(s.x, s.next - 1), Slice(s.x, s.next))
  {
    SliceCarries(s.x, s.next);
  }

  lemma SliceFits(s: Pair)
    requires Related(s) && Agrees(s)
    ensures var p, es := s.next - 1, Slice(s.x, s.next);
            p <= Shared(s.y.hist, s.x.hist) && p + |es| <= |s.x.hist| && (p < |s.x.hist| ==> |es| >= 1)
  {
    var p, es := s.next - 1, Slice(s.x, s.next);
    SliceCarries(s.x, s.next);
    AgreesIsConsistent(s);
    SenderHoldsPrev(s.y, s.x.hist, p, PrevTerm(s.x, p), es);
    SharedAtLeast(s.y.hist, s.x.hist, p);
  }

  lemma FirstNewIsLive(s: Pair)
    requires Related(s) && Agrees(s)
    ensures var es := Slice(s.x, s.next);
            FirstNew(s.y, es, 0) < |es| ==> es[FirstNew(s.y, es, 0)].index > s.y.snap
  {
    var p, es := s.next - 1, Slice(s.x, s.next);
    AgreesIsConsistent(s);
    SenderHoldsPrev(s.y, s.x.hist, p, PrevTerm(s.x, p), es);
    StopsAtNew(s.y, es, 0);
    if es != [] && p == 0 && s.y.snap == 1 {
      assert es[0] == LogView.Wire(s.x.hist, 1);
      assert s.y.hist[..1] == s.x.hist[..1];
      assert s.y.hist[0] == s.x.hist[0];
      StopsAtNew(s.y, es, 1);
    }
  }

  lemma AppendSucceeds(s: Pair)
    requires Related(s) && Agrees(s)
    ensures AppendEntriesFrom(s.y, Slice(s.x, s.next)).Some?
  {
    FirstNewIsLive(s);
    FirstNewBound(s.y, Slice(s.x, s.next), 0);
  }

  lemma AppendOutcome(s: Pair, p: nat, es: seq<WireEntry>)
    requires Related(s) && Agrees(s) && p == s.next - 1 && es == Slice(s.x, s.next) && p + |es| <= |s.x.hist|
    requires AppendEntriesFrom(s.y, es).Some?
    ensures AppendEntriesFrom(s.y, es).value == s.y.(hist := Actions.Adopt(s.y.hist, s.x.hist[..p + |es|]))
  {
    AgreesIsConsistent(s);
    AppendAdopts(s.y, s.x.hist, p, PrevTerm(s.x, p), es);
  }

  lemma AgreedIsCredited(s: Pair, es: seq<WireEntry>, v: LogView.View)
    requires Agrees(s) && es == Slice(s.x, s.next) && AppendEntriesFrom(s.y, es) == Some(v)
    ensures Exchange(s) == Credited(s, v, s.next - 1 + |es|)
  {
  }

  /** An accepted request takes the follower to some index `m` of the leader's log. */
  lemma AppendAccepted(s: Pair) returns (m: nat)
    requires Related(s) && Agrees(s)
    ensures s.next - 1 <= m <= |s.x.hist| && (s.next - 1 < |s.x.hist| ==> m >= s.next)
    ensures Exchange(s) == Credited(s, s.y.(hist := Actions.Adopt(s.y.hist, s.x.hist[..m])), m)
  {
    var p, es := s.next - 1, Slice(s.x, s.next);
    SliceFits(s);
    AppendSucceeds(s);
    AppendOutcome(s, p, es);
    AgreedIsCredited(s, es, AppendEntriesFrom(s.y, es).value);
    m := p + |es|;
  }

  lemma AdoptedIsRelated(s: Pair, m: nat, y: LogView.View, next: nat, matched: nat)
    requires Related(s) && m <= |s.x.hist| && y == s.y.(hist := Actions.Adopt(s.y.hist, s.x.hist[..m]))
    requires matched <= |s.x.hist| && next >= 1
    ensures Related(Pair(s.x, y, next, matched))
    ensures Shared(y.hist, s.x.hist) >= m && Shared(y.hist, s.x.hist) >= Shared(s.y.hist, s.x.hist)
  {
    var h := s.x.hist;
    AdoptShares(s.y.hist, h, m);
    CompactedIsShared(s);
    SharedPrefix(y.hist, h, y.snap);
    assert h[..y.snap] == y.hist[..y.snap];
  }

  lemma AppendRound(s: Pair)
    requires Related(s) && Agrees(s)
    ensures var t, p := Exchange(s), s.next - 1;
            && Related(t) && t.x == s.x && t.next == t.matched + 1 && p <= Shared(s.y.hist, s.x.hist)
            && t.matched >= s.matched && t.y.snap == s.y.snap
            && Shared(t.y.hist, t.x.hist) >= Shared(s.y.hist, s.x.hist)
            && (p < |s.x.hist| ==> t.matched > p && Shared(t.y.hist, t.x.hist) > p)
  {
    SliceFits(s);
    var m := AppendAccepted(s);
    var y, k := s.y.(hist := Actions.Adopt(s.y.hist, s.x.hist[..m])), Larger(s.matched, m);
    AdoptedIsRelated(s, m, y, k + 1, k);
  }

  lemma BackRound(s: Pair)
    requires Related(s) && s.next > s.x.snap && !Agrees(s) && !Stuck(s)
    ensures var t, p, c := Exchange(s), s.next - 1, Shared(s.y.hist, s.x.hist);
            && t == s.(next := t.next) && t.next >= c + 1 && p >= 1
            && (p < s.y.snap || (p > c && t.next < s.next))
  {
    var p, c := s.next - 1, Shared(s.y.hist, s.x.hist);
    CompactedIsShared(s);
    if s.y.snap <= p <= |s.y.hist| && 1 <= p <= |s.x.hist| {
      SharedIff(s, p);
    }
  }

  // ---------------------------------------------------------------- convergence

  /** What the follower still lacks, and what the leader does not yet know it has. */
  function Missing(s: Pair): nat
    requires s.matched <= |s.x.hist|
  {
    (|s.x.hist| - Shared(s.y.hist, s.x.hist)) + (|s.x.hist| - s.matched)
  }

  /** The next request would tell nothing new. */
  predicate Low(s: Pair) {
    s.next <= Shared(s.y.hist, s.x.hist) && s.next <= s.matched
  }

  predicate Under(s: Pair) {
    1 <= s.next - 1 < s.y.snap
  }

  function Flag(b: bool): nat {
    if b then 1 else 0
  }

  /** How far there is to go, most important first. */
  datatype Distance = Distance(missing: nat, low: nat, under: nat, next: nat)

  function DistanceOf(s: Pair): Distance
    requires s.matched <= |s.x.hist|
  {
    Distance(Missing(s), Flag(Low(s)), Flag(Under(s)), s.next)
  }

  predicate Shorter(e: Distance, d: Distance) {
    || e.missing < d.missing
    || (e.missing == d.missing &&
        (|| e.low < d.low
         || (e.low == d.low && (e.under < d.under || (e.under == d.under && e.next < d.next)))))
  }

  /** Every exchange gets closer. */
  ghost predicate Closer(t: Pair, s: Pair) {
    t.matched <= |t.x.hist| && s.matched <= |s.x.hist| && Shorter(DistanceOf(t), DistanceOf(s))
  }

  lemma SnapshotIsCloser(s: Pair)
    requires Related(s) && Missing(s) > 0 && s.next <= s.x.snap
    ensures Related(Exchange(s)) && !Stuck(Exchange(s)) && Exchange(s).x == s.x && Closer(Exchange(s), s)
  {
    SnapshotRound(s);
  }

  lemma AppendIsCloser(s: Pair)
    requires Related(s) && Missing(s) > 0 && Agrees(s)
    ensures Related(Exchange(s)) && !Stuck(Exchange(s)) && Exchange(s).x == s.x && Closer(Exchange(s), s)
  {
    AppendRound(s);
  }

  lemma BackIsCloser(s: Pair)
    requires Related(s) && !Stuck(s) && s.next > s.x.snap && !Agrees(s)
    ensures Related(Exchange(s)) && !Stuck(Exchange(s)) && Exchange(s).x == s.x && Closer(Exchange(s), s)
  {
    BackRound(s);
    CompactedIsShared(s);
  }

  lemma ExchangeIsCloser(s: Pair)
    requires Related(s) && !Stuck(s) && Missing(s) > 0
    ensures Related(Exchange(s)) && !Stuck(Exchange(s)) && Exchange(s).x == s.x && Closer(Exchange(s), s)
  {
    if s.next <= s.x.snap {
      SnapshotIsCloser(s);
    } else if Agrees(s) {
      AppendIsCloser(s);
    } else {
      BackIsCloser(s);
    }
  }

  function Exchanged(s: Pair, k: nat): Pair
    decreases k
  {
    if k == 0 then s else Exchanged(Exchange(s), k - 1)
  }

  /** Up to date: the follower holds the leader's whole log and the leader knows. */
  predicate UpToDate(s: Pair) {
    s.x.hist <= s.y.hist && s.matched == |s.x.hist|
  }

  lemma NothingMissing(s: Pair)
    requires s.matched <= |s.x.hist|
    ensures Missing(s) == 0 <==> UpToDate(s)
  {
    SharedIs(s.y.hist, s.x.hist);
    if UpToDate(s) {
      SharedAtLeast(s.y.hist, s.x.hist, |s.x.hist|);
    }
  }

  lemma StartsUpToDate(s: Pair)
    requires s.matched <= |s.x.hist| && Missing(s) == 0
    ensures UpToDate(Exchanged(s, 0))
  {
    NothingMissing(s);
  }

  /** The pair after one exchange, and where any number of further ones leads. */
  lemma Onward(s: Pair) returns (t: Pair)
    requires Related(s) && !Stuck(s) && Missing(s) > 0
    ensures Related(t) && !Stuck(t) && Closer(t, s)
    ensures forall j: nat :: Exchanged(t, j) == Exchanged(s, j + 1)
  {
    t := Exchange(s);
    ExchangeIsCloser(s);
  }

  lemma {:induction false} CatchesUpFrom(s: Pair, d: Distance) returns (k: nat)
    requires Related(s) && !Stuck(s) && d == DistanceOf(s)
    ensures UpToDate(Exchanged(s, k))
    decreases d.missing, d.low, d.under, d.next
  {
    if d.missing == 0 {
      StartsUpToDate(s);
      k := 0;
    } else {
      var t := Onward(s);
      var j := CatchesUpFrom(t, DistanceOf(t));
      k := j + 1;
    }
  }

  /** From the one exception nothing ever moves. */
  lemma {:induction false} StuckStays(s: Pair, k: nat)
    requires Related(s) && Stuck(s)
    ensures Exchanged(s, k) == s
  {
    if k > 0 {
      StuckStep(s);
      StuckStays(s, k - 1);
    }
  }

  lemma StuckStep(s: Pair)
    requires Related(s) && Stuck(s)
    ensures Exchange(s) == s
  {
    var es := Slice(s.x, 1);
    assert es[0] == LogView.Wire(s.x.hist, 1);
    assert FirstNew(s.y, es, 0) == 0;
  }

  lemma {:induction false} Steps(s: Pair, k: nat)
    ensures Exchanged(s, k + 1) == Exchange(Exchanged(s, k))
    decreases k
  {
    if k > 0 {
      Steps(Exchange(s), k - 1);
    }
  }

  /** Once up to date, further exchanges leave it so. */
  lemma StaysUpToDate(s: Pair)
    requires Related(s) && UpToDate(s)
    ensures Related(Exchange(s)) && UpToDate(Exchange(s)) && Exchange(s).x == s.x
  {
    NothingMissing(s);
    if s.next <= s.x.snap {
      SnapshotRound(s);
    } else if Agrees(s) {
      AppendRound(s);
    } else if Stuck(s) {
      StuckStep(s);
    } else {
      BackRound(s);
    }
    NothingMissing(Exchange(s));
  }

  /** Some number of exchanges brings the follower up to date. */
  ghost predicate Converges(s: Pair) {
    exists k: nat :: IsUpToDateAfter(s, k)
  }

  predicate IsUpToDateAfter(s: Pair, k: nat) {
    UpToDate(Exchanged(s, k))
  }

  /**
    Any follower whose log is related to the leader's is brought up to date by finitely many exchanges,
    if and only if it is not in the one state from which nothing moves.
   */
  lemma ConvergesIff(s: Pair)
    requires Related(s)
    ensures Converges(s) <==> UpToDate(s) || !Stuck(s)
  {
    if !Stuck(s) {
      var k := CatchesUpFrom(s, DistanceOf(s));
      assert IsUpToDateAfter(s, k);
    } else {
      StuckStays(s, 0);
      assert UpToDate(s) ==> IsUpToDateAfter(s, 0);
      forall k: nat | IsUpToDateAfter(s, k) ensures UpToDate(s) {
        StuckStays(s, k);
      }
    }
  }
}
