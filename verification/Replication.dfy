/** What applying a leader's request does to a follower's log. */
module Replication {
  import opened RaftTypes
  import opened NodeSpec
  import LogView
  import Actions

  /** The request is a slice of `l` with the term that precedes it, or names a term no entry has. */
  ghost predicate Carries(l: Log, prev: nat, prevTerm: nat, es: seq<WireEntry>) {
    (&& prev + |es| <= |l|
     && prevTerm == (if prev == 0 then 0 else l[prev - 1].term)
     && forall k | 0 <= k < |es| :: es[k] == LogView.Wire(l, prev + 1 + k))
    || (prev > 0 && prevTerm == 0 && es == [])
  }

  /** Equal terms at an index make the two logs equal up to it (section 5.3). */
  ghost predicate LogsMatch(a: Log, b: Log) {
    forall i | 0 <= i < |a| && i < |b| && a[i].term == b[i].term :: a[..i + 1] == b[..i + 1]
  }

  ghost predicate PositiveTerms(a: Log) {
    forall i | 0 <= i < |a| :: a[i].term >= 1
  }

  /** The consistency check passed: `v` agrees with `l` at `prev`. */
  ghost predicate Consistent(v: LogView.View, l: Log, prev: nat, prevTerm: nat, es: seq<WireEntry>) {
    && PositiveTerms(v.hist)
    && LogsMatch(v.hist, l)
    && Carries(l, prev, prevTerm, es)
    && LogView.TermAt(v, prev) == Some(prevTerm)
  }

  lemma SenderHoldsPrev(v: LogView.View, l: Log, prev: nat, prevTerm: nat, es: seq<WireEntry>)
    requires Consistent(v, l, prev, prevTerm, es)
    ensures prev <= |v.hist| && prev + |es| <= |l|
    ensures v.hist[..prev] == l[..prev]
    ensures forall k | 0 <= k < |es| :: es[k] == LogView.Wire(l, prev + 1 + k)
  {
    if prev > 0 {
      assert v.hist[prev - 1].term == prevTerm >= 1;
      assert v.hist[prev - 1].term == l[prev - 1].term;
    }
  }

  /** Everything before the first new entry is already shared. */
  lemma {:induction false} SharedUpTo(v: LogView.View, l: Log, prev: nat, prevTerm: nat, es: seq<WireEntry>, i: nat)
    requires Consistent(v, l, prev, prevTerm, es)
    requires i <= |es|
    requires prev + i <= |v.hist| && prev + i <= |l| && v.hist[..prev + i] == l[..prev + i]
    ensures var k := FirstNew(v, es, i);
            i <= k <= |es| && prev + k <= |v.hist| && prev + k <= |l| && v.hist[..prev + k] == l[..prev + k]
    decreases |es| - i
  {
    SenderHoldsPrev(v, l, prev, prevTerm, es);
    if i < |es| && es[i].index <= LogView.LastIndex(v) && LogView.TermAt(v, es[i].index) == Some(es[i].term) {
      assert es[i] == LogView.Wire(l, prev + 1 + i);
      assert v.hist[prev + i].term == l[prev + i].term;
      assert v.hist[..prev + i + 1] == l[..prev + i + 1];
      SharedUpTo(v, l, prev, prevTerm, es, i + 1);
    }
  }

  lemma UnwiredSlice(l: Log, prev: nat, es: seq<WireEntry>, i: nat)
    requires i <= |es| && prev + |es| <= |l|
    requires forall k | 0 <= k < |es| :: es[k] == LogView.Wire(l, prev + 1 + k)
    ensures LogView.Unwired(es[i..]) == l[prev + i..prev + |es|]
  {
    var u := LogView.Unwired(es[i..]);
    forall k | 0 <= k < |u| ensures u[k] == l[prev + i..prev + |es|][k] {
      assert es[i..][k] == es[i + k] == LogView.Wire(l, prev + 1 + i + k);
    }
  }

  /**
    On success the follower's log is the sender's up to the end of the request, and it is left
    alone if it already was: no matching entry is ever removed.
   */
  lemma AppendAdopts(v: LogView.View, l: Log, prev: nat, prevTerm: nat, es: seq<WireEntry>)
    requires Consistent(v, l, prev, prevTerm, es)
    requires AppendEntriesFrom(v, es).Some?
    ensures prev + |es| <= |l|
    ensures var w := AppendEntriesFrom(v, es).value;
            w == v.(hist := Actions.Adopt(v.hist, l[..prev + |es|]))
  {
    SenderHoldsPrev(v, l, prev, prevTerm, es);
    SharedUpTo(v, l, prev, prevTerm, es, 0);
    StopsAtNew(v, es, 0);
    var i := FirstNew(v, es, 0);
    if i < |es| {
      UnwiredSlice(l, prev, es, i);
      RestAdopts(v, l, prev, es, i);
    } else {
      assert l[..prev + |es|] <= v.hist;
    }
  }

  lemma AppendFrom(v: LogView.View, es: seq<WireEntry>, i: nat, rest: Log)
    requires i < |es| && i == FirstNew(v, es, 0) && LogView.Unwired(es[i..]) == rest && AppendEntriesFrom(v, es).Some?
    ensures AppendEntriesFrom(v, es).value ==
            v.(hist := (if es[i].index > LogView.LastIndex(v) then v.hist else v.hist[..es[i].index - 1]) + rest)
  {
  }

  /** The same, from the first new entry on. */
  lemma RestAdopts(v: LogView.View, l: Log, prev: nat, es: seq<WireEntry>, i: nat)
    requires i < |es| && i == FirstNew(v, es, 0) && prev + |es| <= |l| && prev + i <= |v.hist|
    requires es[i] == LogView.Wire(l, prev + 1 + i) && LogView.Unwired(es[i..]) == l[prev + i..prev + |es|]
    requires es[i].index > LogView.LastIndex(v) || LogView.TermAt(v, es[i].index) != Some(es[i].term)
    requires v.hist[..prev + i] == l[..prev + i] && AppendEntriesFrom(v, es).Some?
    ensures AppendEntriesFrom(v, es).value == v.(hist := Actions.Adopt(v.hist, l[..prev + |es|]))
  {
    AppendFrom(v, es, i, l[prev + i..prev + |es|]);
    SuffixAdopts(v.hist, l, prev + i, prev + |es|);
  }

  /** Replacing what follows a shared prefix that stops at `i` yields the other log's prefix. */
  lemma SuffixAdopts(h: Log, l: Log, i: nat, m: nat)
    requires i < m <= |l| && i <= |h| && h[..i] == l[..i]
    requires i == |h| || h[i].term != l[i].term
    ensures h[..i] + l[i..m] == Actions.Adopt(h, l[..m])
    ensures i == |h| ==> h + l[i..m] == Actions.Adopt(h, l[..m])
  {
    var p := l[..m];
    assert h[..i] + l[i..m] == p;
    assert p[i] == l[i];
    if i == |h| {
      assert h == h[..i];
    }
  }

  /** The scan stops only at the end, past the log, or at a different term. */
  lemma StopsAtNew(v: LogView.View, es: seq<WireEntry>, i: nat)
    requires i <= |es|
    ensures var k := FirstNew(v, es, i);
            i <= k <= |es| &&
            (k < |es| ==> es[k].index > LogView.LastIndex(v) || LogView.TermAt(v, es[k].index) != Some(es[k].term))
    decreases |es| - i
  {
  }

  /** After a success the two logs agree at every index the request covers. */
  lemma AppendAgrees(v: LogView.View, l: Log, prev: nat, prevTerm: nat, es: seq<WireEntry>)
    requires Consistent(v, l, prev, prevTerm, es)
    requires AppendEntriesFrom(v, es).Some?
    ensures prev + |es| <= |l|
    ensures l[..prev + |es|] <= AppendEntriesFrom(v, es).value.hist
    ensures l[..prev + |es|] <= v.hist ==> AppendEntriesFrom(v, es).value == v
  {
    AppendAdopts(v, l, prev, prevTerm, es);
  }

  /** Delivering the same request again changes nothing. */
  lemma AppendTwice(v: LogView.View, l: Log, prev: nat, prevTerm: nat, es: seq<WireEntry>)
    requires Consistent(v, l, prev, prevTerm, es)
    requires AppendEntriesFrom(v, es).Some?
    ensures var w := AppendEntriesFrom(v, es).value;
            AppendEntriesFrom(w, es) == Some(w)
  {
    var w := AppendEntriesFrom(v, es).value;
    AppendAdopts(v, l, prev, prevTerm, es);
    SenderHoldsPrev(v, l, prev, prevTerm, es);
    if es != [] {
      assert es[0] == LogView.Wire(l, prev + 1);
    }
    AllPresent(w, l, prev, es, 0);
  }

  lemma {:induction false} AllPresent(w: LogView.View, l: Log, prev: nat, es: seq<WireEntry>, i: nat)
    requires i <= |es| && prev + |es| <= |l| && l[..prev + |es|] <= w.hist
    requires forall k | 0 <= k < |es| :: es[k] == LogView.Wire(l, prev + 1 + k)
    requires es == [] || w.snap <= prev + 1
    ensures FirstNew(w, es, i) == |es|
    decreases |es| - i
  {
    if i < |es| {
      assert es[i] == LogView.Wire(l, prev + 1 + i);
      assert w.hist[prev + i] == l[..prev + |es|][prev + i];
      AllPresent(w, l, prev, es, i + 1);
    }
  }

  // ---------------------------------------------------------------- where the log ends afterwards

  /** The entries follow each other from `prev` on. */
  predicate Numbered(prev: nat, es: seq<WireEntry>) {
    forall k | 0 <= k < |es| :: es[k].index == prev + 1 + k
  }

  lemma CarriedIsNumbered(l: Log, prev: nat, prevTerm: nat, es: seq<WireEntry>)
    requires Carries(l, prev, prevTerm, es)
    ensures Numbered(prev, es)
  {
  }

  lemma {:induction false} ScannedIsHeld(v: LogView.View, prev: nat, es: seq<WireEntry>, i: nat)
    requires Numbered(prev, es) && i <= |es| && prev + i <= LogView.LastIndex(v)
    ensures i <= FirstNew(v, es, i) <= |es| && prev + FirstNew(v, es, i) <= LogView.LastIndex(v)
    decreases |es| - i
  {
    if i < |es| && es[i].index <= LogView.LastIndex(v) && LogView.TermAt(v, es[i].index) == Some(es[i].term) {
      ScannedIsHeld(v, prev, es, i + 1);
    }
  }

  /** A log that takes anything from a request ends where the request ends. */
  lemma EndsWithRequest(v: LogView.View, prev: nat, es: seq<WireEntry>)
    requires Numbered(prev, es) && prev <= LogView.LastIndex(v) && AppendEntriesFrom(v, es).Some?
    ensures var w := AppendEntriesFrom(v, es).value;
            LogView.LastIndex(w) == if FirstNew(v, es, 0) == |es| then LogView.LastIndex(v) else prev + |es|
  {
    ScannedIsHeld(v, prev, es, 0);
    var i := FirstNew(v, es, 0);
    if i < |es| {
      assert es[i].index == prev + 1 + i;
    }
  }

  /** A snapshot of the leader's log is adopted like a request that starts at the beginning. */
  lemma InstallAdopts(v: LogView.View, l: Log, s: Snapshot)
    requires LogsMatch(v.hist, l) && s.history <= l && s.index > v.snap
    requires LogView.Install(v, s).Some?
    ensures var w := LogView.Install(v, s).value;
            w.snap == s.index && w.hist == Actions.Adopt(v.hist, s.history)
  {
    if s.index <= |v.hist| && LogView.TermAt(v, s.index) == Some(s.term) {
      assert v.hist[s.index - 1].term == l[s.index - 1].term;
      assert s.history == l[..s.index] == v.hist[..s.index];
    }
  }
}
