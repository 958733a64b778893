/** Requests, replies and commits in a group of three. */
module TrioReplication {
  import opened Common
  import opened RaftTypes
  import opened NodeSpec
  import opened Cluster
  import opened TrioRuns
  import LogView

  // ---------------------------------------------------------------- what a leader sends

  function Request(n: NodeId, x: Node, p: NodeId): Message
    requires NextIndex(x, p) >= 1
  {
    Message(n, p, AppendRequest(Member(n), x, NextIndex(x, p)))
  }

  /** The index a leader notes as last sent with its next request. */
  function Reaches(n: NodeId, x: Node, p: NodeId): nat
    requires NextIndex(x, p) >= 1
  {
    var es := AppendRequest(Member(n), x, NextIndex(x, p)).entries;
    if es == [] then NextIndex(x, p) - 1 else es[|es| - 1].index
  }

  lemma SendsRequest(n: NodeId, x: Node, p: NodeId)
    requires x.log.snap == 0 && NextIndex(x, p) >= 1
    ensures ReplicateTo(Member(n), x, p)
         == x.(lastSent := x.lastSent[p := Reaches(n, x, p)], outbox := x.outbox + [Request(n, x, p)])
  {
  }

  /** A request depends on the term, the log, the commit index and the epoch only. */
  lemma SameRequest(n: NodeId, x: Node, y: Node, p: NodeId)
    requires NextIndex(x, p) == NextIndex(y, p) >= 1
    requires y.term == x.term && y.log == x.log && y.commit == x.commit && y.epoch == x.epoch
    ensures Request(n, y, p) == Request(n, x, p) && Reaches(n, y, p) == Reaches(n, x, p)
  {
  }

  lemma SendsBoth(n: NodeId, x: Node, p: NodeId, q: NodeId)
    requires 0 <= n < 3 && Peers(n) == [p, q] && x.log.snap == 0 && NextIndex(x, p) >= 1 && NextIndex(x, q) >= 1
    ensures ReplicateAll(Member(n), x)
         == x.(lastSent := x.lastSent[p := Reaches(n, x, p)][q := Reaches(n, x, q)],
               outbox := x.outbox + [Request(n, x, p)] + [Request(n, x, q)])
  {
    assert ReplicateFirst(Member(n), x, 0) == x;
    SendsRequest(n, x, p);
    var y := ReplicateFirst(Member(n), x, 1);
    assert y == ReplicateTo(Member(n), x, p);
    SameRequest(n, x, y, q);
    SendsRequest(n, y, q);
    assert ReplicateFirst(Member(n), x, 2) == ReplicateTo(Member(n), y, q);
  }

  /** When everything missing fits into one request, it reaches the end of the log. */
  lemma ReachesEnd(n: NodeId, x: Node, p: NodeId)
    requires x.log.snap == 0 && 1 <= NextIndex(x, p) <= |x.log.hist| < NextIndex(x, p) + MAX_ENTRIES
    ensures Reaches(n, x, p) == |x.log.hist|
  {
    var j := NextIndex(x, p);
    var es := AppendRequest(Member(n), x, j).entries;
    assert |es| == |x.log.hist| - j + 1;
    assert es[|es| - 1] == LogView.Wire(x.log.hist, j + (|es| - 1));
  }

  // ---------------------------------------------------------------- what it commits

  lemma InsertTwo(a: nat, b: nat)
    requires b <= a
    ensures SortDesc([a, b]) == [a, b]
  {
    assert [a, b][..1] == [a] && [a][..0] == [];
    assert SortDesc([a]) == [a];
    assert [a][1..] == [];
    assert InsertDesc(b, [a]) == if a <= b then [b] + [a] else [a] + InsertDesc(b, []);
  }

  lemma MiddleOfThree(a: nat, b: nat, c: nat)
    requires b <= a && c <= a
    ensures MajorityMatch([a, b, c]) == if b >= c then b else c
  {
    assert [a, b, c][..2] == [a, b];
    InsertTwo(a, b);
    assert [a, b][1..] == [b] && [b][1..] == [];
    assert InsertDesc(c, [b]) == if b <= c then [c, b] else [b, c];
    assert c < a ==> InsertDesc(c, [a, b]) == [a] + InsertDesc(c, [b]);
  }

  lemma MatchesOfThree(n: NodeId, x: Node, p: NodeId, q: NodeId)
    requires Peers(n) == [p, q]
    ensures Matches(Member(n), x) == [LogView.LastIndex(x.log), MatchIndex(x, p), MatchIndex(x, q)]
  {
    assert PeerMatches(Member(n), x, 0) == [];
    assert PeerMatches(Member(n), x, 1) == [MatchIndex(x, p)];
    assert PeerMatches(Member(n), x, 2) == [MatchIndex(x, p), MatchIndex(x, q)];
  }

  /** The index both the leader and the better of its peers hold, if it is of this term and news. */
  lemma CommitOfThree(n: NodeId, x: Node, p: NodeId, q: NodeId)
    requires Peers(n) == [p, q]
    requires MatchIndex(x, p) <= LogView.LastIndex(x.log) && MatchIndex(x, q) <= LogView.LastIndex(x.log)
    ensures var c := if MatchIndex(x, p) >= MatchIndex(x, q) then MatchIndex(x, p) else MatchIndex(x, q);
            AdvanceCommit(Member(n), x) ==
            (if c > x.commit && LogView.TermAt(x.log, c) == Some(x.term) then x.(commit := c) else x)
  {
    MatchesOfThree(n, x, p, q);
    MiddleOfThree(LogView.LastIndex(x.log), MatchIndex(x, p), MatchIndex(x, q));
  }

  /** A leader that has heard from nobody yet. */
  predicate Unheard(n: NodeId, x: Node, p: NodeId, q: NodeId) {
    && 0 <= n < 3 && Peers(n) == [p, q] && x.role == Leader && x.log.snap == 0 && x.transfer == None && x.commit == 0
    && MatchIndex(x, p) == 0 && MatchIndex(x, q) == 0 && NextIndex(x, p) >= 1 && NextIndex(x, q) >= 1
  }

  /** It appends the batch and asks both peers to; nothing is committed by that. */
  lemma Proposes(n: NodeId, x: Node, p: NodeId, q: NodeId, b: Batch) returns (y: Node)
    requires Unheard(n, x, p, q)
    ensures Propose(Member(n), x, b) == Some(y) && Unheard(n, y, p, q)
    ensures y.term == x.term && y.log == x.log.(hist := x.log.hist + [LogEntry(x.term, Data, b)])
    ensures y.epoch == x.epoch && y.next == x.next && y.leaderContact == x.leaderContact && y.started == x.started
    ensures y.outbox == x.outbox + [Request(n, y, p)] + [Request(n, y, q)]
    ensures LastSent(y, p) == Reaches(n, y, p) && LastSent(y, q) == Reaches(n, y, q)
  {
    var z := Proposed(x, b);
    SendsBoth(n, z, p, q);
    y := ReplicateAll(Member(n), z);
    SameRequest(n, z, y, p);
    SameRequest(n, z, y, q);
    CommitOfThree(n, y, p, q);
  }

  // ---------------------------------------------------------------- what followers answer

  function Ack(n: NodeId, m: NodeId, term: nat, upTo: nat): Packet {
    Packet(Message(m, n, AppendEntriesReply(term, true, 0)), Answers(upTo))
  }

  function Refusal(n: NodeId, m: NodeId, term: nat): Packet {
    Packet(Message(m, n, AppendEntriesReply(term, false, 0)), Answers(0))
  }

  /** The follower after a request it accepts, with log `w`. */
  function Fed(y: Node, a: Payload, w: LogView.View, now: int): Node
    requires a.AppendEntries?
  {
    FollowLeader(y, now, 100, a.term, a.leader)
    .(log := w, commit := if a.leaderCommit > y.commit then Min(a.leaderCommit, LogView.LastIndex(w)) else y.commit)
  }

  lemma TakesEntries(n: NodeId, m: NodeId, y: Node, a: Payload, w: LogView.View, now: int)
    requires 0 <= m < 3 && a.AppendEntries? && a.term >= y.term && a.prevIndex <= LogView.LastIndex(y.log)
    requires LogView.TermAt(y.log, a.prevIndex) == Some(a.prevTerm) && AppendEntriesFrom(y.log, a.entries) == Some(w)
    ensures Takes(Trio(), y, Packet(Message(n, m, a), Plain), now, Fed(y, a, w, now),
                  Some(Ack(n, m, a.term, a.prevIndex + |a.entries|)))
  {
    InTrio(m);
    var z := FollowLeader(y, now, 100, a.term, a.leader);
    assert z.log == y.log && z.commit == y.commit && z.term == a.term;
  }

  /** A request of an earlier term is refused, and changes nothing. */
  lemma TakesStale(n: NodeId, m: NodeId, y: Node, a: Payload, now: int)
    requires 0 <= m < 3 && a.AppendEntries? && a.term < y.term
    ensures Takes(Trio(), y, Packet(Message(n, m, a), Plain), now, y, Some(Refusal(n, m, y.term)))
  {
    InTrio(m);
  }

  /** Entries that follow a follower's log are appended to it. */
  lemma AppendsAll(v: LogView.View, es: seq<WireEntry>)
    requires es != [] ==> es[0].index == LogView.LastIndex(v) + 1
    ensures AppendEntriesFrom(v, es) == Some(LogView.Append(v, es))
  {
    if es == [] {
      assert LogView.Unwired(es) == [] && v.hist + [] == v.hist;
    } else {
      assert es[0..] == es;
    }
  }

  // ---------------------------------------------------------------- what the leader makes of it

  /** A refusal without a hint moves the peer's next index back by one. */
  lemma TakesRefusal(n: NodeId, x: Node, m: NodeId, now: int) returns (y: Node)
    requires 0 <= n < 3 && x.role == Leader && x.log.snap == 0 && NextIndex(x, m) >= 2
    ensures Takes(Trio(), x, Refusal(n, m, x.term), now, y, None)
    ensures y == x.(next := x.next[m := NextIndex(x, m) - 1], lastSent := y.lastSent, outbox := y.outbox)
    ensures NextIndex(y, m) == NextIndex(x, m) - 1 && y.outbox == x.outbox + [Request(n, y, m)]
  {
    InTrio(n);
    var z := Backtrack(x, m, 0);
    SendsRequest(n, z, m);
    y := ReplicateTo(Member(n), z, m);
    SameRequest(n, z, y, m);
  }

  /** A success is credited with the last index sent; with that on two of three it is committed. */
  lemma TakesAck(n: NodeId, x: Node, p: NodeId, q: NodeId, m: NodeId, upTo: nat, now: int) returns (y: Node)
    requires Unheard(n, x, p, q) && (m == p || m == q) && p != q
    requires x.log.hist != [] && LogView.LastTerm(x.log) == x.term && LastSent(x, m) == |x.log.hist|
    ensures Takes(Trio(), x, Ack(n, m, x.term, upTo), now, y, None)
    ensures y.role == Leader && y.term == x.term && y.log == x.log && y.epoch == x.epoch && y.transfer == None
    ensures y.commit == |x.log.hist| && y.outbox == x.outbox && y.started == x.started
    ensures forall k | k != m :: NextIndex(y, k) == NextIndex(x, k) && MatchIndex(y, k) == MatchIndex(x, k)
    ensures NextIndex(y, m) == |x.log.hist| + 1
  {
    InTrio(n);
    var z := Credit(x, m);
    CommitOfThree(n, z, p, q);
    y := AdvanceCommit(Member(n), z);
  }
}
