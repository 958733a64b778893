/**
  The safety argument of the replication protocol, on histories.

  `Proto` keeps what a proof needs to remember about a run of the replica group: who voted for
  whom, the log each candidate stood with, the log each term's leader built, and how far each node
  has accepted each term's log. Every handler of a node is a short sequence of the actions below.
 */
module Protocol {
  import opened RaftTypes

  datatype Proto = Proto(
    voters: set<NodeId>,
    term: map<NodeId, nat>,                // current term of each node
    log: map<NodeId, Log>,                 // whole log of each node, compacted prefix included
    votes: map<(NodeId, nat), NodeId>,     // (voter, term) -> candidate
    cand: map<(NodeId, nat), Log>,         // (candidate, term) -> log it stood with
    lead: map<nat, NodeId>,                // term -> its leader
    quorum: map<nat, set<NodeId>>,         // term -> the voters that elected its leader
    tlog: map<nat, Log>,                   // term -> the log its leader has built so far
    acc: map<(NodeId, nat), nat>,          // (node, term) -> how much of tlog[term] it accepted
    acked: bool)                           // every acknowledgement credited so far was the latest

  ghost predicate IsQuorum(s: Proto, q: set<NodeId>) {
    q <= s.voters && 2 * |q| > |s.voters|
  }

  function Acc(s: Proto, n: NodeId, t: nat): nat {
    if (n, t) in s.acc then s.acc[(n, t)] else 0
  }

  function LastTerm(l: Log): nat {
    if l == [] then 0 else l[|l| - 1].term
  }

  /** Section 5.4.1: a candidate log `c` is at least as recent as a voter log `v`. */
  predicate UpToDate(c: Log, v: Log) {
    LastTerm(c) > LastTerm(v) || (LastTerm(c) == LastTerm(v) && |c| >= |v|)
  }

  /** Up to its entry `i`, the log is what the leader of that entry's term built. */
  ghost predicate Rooted(s: Proto, l: Log, i: nat)
    requires i < |l|
  {
    && l[i].term in s.tlog
    && i < |s.tlog[l[i].term]|
    && l[..i + 1] == s.tlog[l[i].term][..i + 1]
  }

  ghost predicate LogOk(s: Proto, l: Log, bound: nat) {
    forall i | 0 <= i < |l| :: 1 <= l[i].term <= bound && Rooted(s, l, i)
  }

  /** Index `k` of term `t` was created by the leader of `t` itself. */
  ghost predicate Own(s: Proto, t: nat, k: nat) {
    t in s.tlog && 1 <= k <= |s.tlog[t]| && s.tlog[t][k - 1].term == t
  }

  /** A quorum has left term `t` without accepting `k`: nobody can ever gather a majority for it. */
  ghost predicate DeadBy(s: Proto, t: nat, k: nat, q: set<NodeId>) {
    && IsQuorum(s, q)
    && forall n | n in q :: n in s.term && s.term[n] > t && Acc(s, n, t) < k
  }

  ghost predicate Dead(s: Proto, t: nat, k: nat) {
    exists q :: DeadBy(s, t, k, q)
  }

  ghost predicate Safe(s: Proto, t: nat, k: nat, l: Log)
    requires Own(s, t, k)
  {
    s.tlog[t][..k] <= l || Dead(s, t, k)
  }

  /** A majority of the voters accepted index `k` of term `t`. */
  ghost predicate ChosenBy(s: Proto, t: nat, k: nat, q: set<NodeId>) {
    Own(s, t, k) && IsQuorum(s, q) && forall n | n in q :: Acc(s, n, t) >= k
  }

  ghost predicate Chosen(s: Proto, t: nat, k: nat) {
    exists q :: ChosenBy(s, t, k, q)
  }

  // ---------------------------------------------------------------- invariant

  ghost predicate Domains(s: Proto) {
    && s.term.Keys == s.log.Keys
    && s.voters <= s.term.Keys
    && s.lead.Keys == s.tlog.Keys == s.quorum.Keys
  }

  ghost predicate NodeLogs(s: Proto)
    requires Domains(s)
  {
    forall n | n in s.log :: LogOk(s, s.log[n], s.term[n])
  }

  ghost predicate TermLogs(s: Proto) {
    forall t | t in s.tlog :: LogOk(s, s.tlog[t], t)
  }

  ghost predicate CandLogs(s: Proto) {
    forall n, t | (n, t) in s.cand ::
      n in s.term && 1 <= t <= s.term[n] && LogOk(s, s.cand[(n, t)], t - 1)
  }

  ghost predicate VotesOk(s: Proto) {
    forall n, t | (n, t) in s.votes ::
      n in s.term && t <= s.term[n] && (s.votes[(n, t)], t) in s.cand
  }

  ghost predicate VotedFor(s: Proto, q: set<NodeId>, t: nat, c: NodeId) {
    forall n | n in q :: (n, t) in s.votes && s.votes[(n, t)] == c
  }

  /** The leader of `t` was elected by a quorum and has only added entries of `t` to its own log. */
  ghost predicate Elected(s: Proto, t: nat)
    requires Domains(s) && t in s.lead
  {
    var c := s.lead[t];
    && c in s.term
    && t <= s.term[c]
    && (c, t) in s.cand
    && s.cand[(c, t)] <= s.tlog[t]
    && (forall i | |s.cand[(c, t)]| <= i < |s.tlog[t]| :: s.tlog[t][i].term == t)
    && IsQuorum(s, s.quorum[t])
    && VotedFor(s, s.quorum[t], t, c)
  }

  ghost predicate LeadOk(s: Proto)
    requires Domains(s)
  {
    forall t | t in s.lead :: Elected(s, t)
  }

  ghost predicate AccOk(s: Proto) {
    forall n, t | (n, t) in s.acc ::
      n in s.term && t in s.tlog && t <= s.term[n] && s.acc[(n, t)] <= |s.tlog[t]|
  }

  /** While the leader of `t` is still in `t`, its log is the term's log and it has accepted all of it. */
  ghost predicate HoldsOwn(s: Proto, t: nat)
    requires Domains(s) && t in s.lead
  {
    var c := s.lead[t];
    c in s.term && (s.term[c] == t ==> s.log[c] == s.tlog[t] && Acc(s, c, t) == |s.tlog[t]|)
  }

  ghost predicate LeaderHolds(s: Proto)
    requires Domains(s)
  {
    forall t | t in s.lead :: HoldsOwn(s, t)
  }

  /** What a node accepted stays in its log, unless it can no longer be chosen. */
  ghost predicate NodeSafe(s: Proto) {
    forall n, t: nat, k: nat | n in s.log && Own(s, t, k) && k <= Acc(s, n, t) :: Safe(s, t, k, s.log[n])
  }

  /** A vote only goes to a log that holds what the voter accepted before. */
  ghost predicate VoteSafe(s: Proto) {
    forall n, u: nat, t: nat, k: nat |
      (n, u) in s.votes && (s.votes[(n, u)], u) in s.cand && t < u && Own(s, t, k) && k <= Acc(s, n, t) ::
      Safe(s, t, k, s.cand[(s.votes[(n, u)], u)])
  }

  /** The leader of a later term starts with everything an earlier term can still have chosen. */
  ghost predicate LeadSafe(s: Proto) {
    forall u: nat, t: nat, k: nat | u in s.lead && (s.lead[u], u) in s.cand && t < u && Own(s, t, k) ::
      Safe(s, t, k, s.cand[(s.lead[u], u)])
  }

  ghost predicate Inv(s: Proto) {
    && Domains(s)
    && NodeLogs(s)
    && TermLogs(s)
    && CandLogs(s)
    && VotesOk(s)
    && LeadOk(s)
    && AccOk(s)
    && LeaderHolds(s)
    && NodeSafe(s)
    && VoteSafe(s)
    && LeadSafe(s)
  }

  const NOTHING := Proto({}, map[], map[], map[], map[], map[], map[], map[], map[], true)

  /** A history that some run of the protocol can have left behind, as far as the invariant tells. */
  type History = s: Proto | Inv(s) ghost witness NOTHING

  /** How histories grow: nothing that was recorded is ever changed. */
  ghost predicate Extends(s: Proto, s': Proto) {
    && s'.voters == s.voters
    && s'.term.Keys == s.term.Keys
    && (s'.acked ==> s.acked)
    && (forall n | n in s.term :: s.term[n] <= s'.term[n])
    && (forall x | x in s.votes :: x in s'.votes && s'.votes[x] == s.votes[x])
    && (forall x | x in s.cand :: x in s'.cand && s'.cand[x] == s.cand[x])
    && (forall t | t in s.lead :: t in s'.lead && s'.lead[t] == s.lead[t])
    && (forall t | t in s.tlog :: t in s'.tlog && s.tlog[t] <= s'.tlog[t])
    && (forall n, t :: Acc(s, n, t) <= Acc(s', n, t))
    // What a node accepted of a term it has left is final.
    && (forall n, t | n in s.term && t < s.term[n] :: Acc(s', n, t) == Acc(s, n, t))
  }

  // ---------------------------------------------------------------- quorums

  lemma QuorumsMeet(s: Proto, p: set<NodeId>, q: set<NodeId>) returns (n: NodeId)
    requires IsQuorum(s, p) && IsQuorum(s, q)
    ensures n in p && n in q
  {
    if forall x | x in p :: x !in q {
      assert p !! q;
      assert |p + q| == |p| + |q|;
      SubsetCardinality(p + q, s.voters);
      assert false;
    }
    n :| n in p && n in q;
  }

  lemma {:induction false} SubsetCardinality<T>(a: set<T>, b: set<T>)
    requires a <= b
    ensures |a| <= |b|
  {
    if a != {} {
      var x :| x in a;
      SubsetCardinality(a - {x}, b - {x});
    }
  }

  lemma ChosenIsNotDead(s: Proto, t: nat, k: nat)
    requires Chosen(s, t, k)
    ensures !Dead(s, t, k)
  {
    if Dead(s, t, k) {
      var p :| ChosenBy(s, t, k, p);
      var q :| DeadBy(s, t, k, q);
      var n := QuorumsMeet(s, p, q);
      assert false;
    }
  }

  // ---------------------------------------------------------------- consequences

  /** At most one leader per term. */
  lemma OneLeader(s: Proto, t: nat, q: set<NodeId>, c: NodeId)
    requires Domains(s) && LeadOk(s) && t in s.lead
    requires IsQuorum(s, q) && VotedFor(s, q, t, c)
    ensures s.lead[t] == c
  {
    assert Elected(s, t);
    var n := QuorumsMeet(s, s.quorum[t], q);
  }

  /** Log matching: equal terms at an index make two logs equal up to it. */
  lemma Matching(s: Proto, a: Log, b: Log, i: nat, x: nat, y: nat)
    requires LogOk(s, a, x) && LogOk(s, b, y)
    requires i < |a| && i < |b| && a[i].term == b[i].term
    ensures a[..i + 1] == b[..i + 1]
  {
    assert Rooted(s, a, i) && Rooted(s, b, i);
  }

  lemma TermsAscend(s: Proto, a: Log, x: nat, i: nat, j: nat)
    requires TermLogs(s) && LogOk(s, a, x) && i <= j < |a|
    ensures a[i].term <= a[j].term
  {
    assert Rooted(s, a, j);
    var m := s.tlog[a[j].term];
    assert a[i] == a[..j + 1][i] == m[..j + 1][i];
  }

  /** Leader completeness on histories. */
  lemma LeadersComplete(s: Proto, t: nat, k: nat, u: nat)
    requires Domains(s) && LeadOk(s) && LeadSafe(s)
    requires Chosen(s, t, k) && t < u && u in s.lead
    ensures s.tlog[t][..k] <= s.cand[(s.lead[u], u)] <= s.tlog[u]
  {
    ChosenIsNotDead(s, t, k);
    assert Elected(s, u) && Own(s, t, k);
    assert Safe(s, t, k, s.cand[(s.lead[u], u)]);
  }
}
