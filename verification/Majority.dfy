/** The counting behind elections and commits: a node's own arithmetic against sets of voters. */
module Majority {
  import opened RaftTypes
  import opened NodeSpec
  import opened Cluster
  import LogView
  import Protocol

  /** Voters among the first `k` peers. */
  ghost function FirstVoters(cfg: Config, k: nat): set<NodeId>
    requires k <= |cfg.peers|
  {
    set i | 0 <= i < k && IsVoter(cfg, cfg.peers[i]) :: cfg.peers[i]
  }

  ghost predicate DistinctPeers(cfg: Config) {
    forall i, j | 0 <= i < j < |cfg.peers| :: cfg.peers[i] != cfg.peers[j]
  }

  lemma FirstVotersGrow(cfg: Config, k: nat)
    requires 0 < k <= |cfg.peers| && DistinctPeers(cfg)
    ensures cfg.peers[k - 1] !in FirstVoters(cfg, k - 1)
    ensures FirstVoters(cfg, k) ==
            FirstVoters(cfg, k - 1) + (if IsVoter(cfg, cfg.peers[k - 1]) then {cfg.peers[k - 1]} else {})
  {
  }

  lemma {:induction false} CountIsCardinality(cfg: Config, k: nat)
    requires k <= |cfg.peers| && DistinctPeers(cfg)
    ensures CountVoters(cfg.peers[..k], cfg.learners) == |FirstVoters(cfg, k)|
  {
    if k > 0 {
      CountIsCardinality(cfg, k - 1);
      FirstVotersGrow(cfg, k);
      assert cfg.peers[..k][..k - 1] == cfg.peers[..k - 1];
    }
  }

  lemma MembersVote(g: Group, n: NodeId)
    requires n in g
    ensures Voters(g) == FirstVoters(g[n], |g[n].peers|) + (if IsVoter(g[n], n) then {n} else {})
    ensures n !in FirstVoters(g[n], |g[n].peers|)
  {
    var cfg := g[n];
    forall m | m in Voters(g)
      ensures m in FirstVoters(cfg, |cfg.peers|) || (m == n && IsVoter(cfg, n))
    {
      if m != n {
        assert m in cfg.peers;
        var i :| 0 <= i < |cfg.peers| && cfg.peers[i] == m;
      }
    }
    forall m | m in FirstVoters(cfg, |cfg.peers|) ensures m in Voters(g) {
      assert m in cfg.peers;
    }
  }

  /** `cluster_size()` is the number of voters of the group. */
  lemma ClusterSizeIsVoters(g: Group, n: NodeId)
    requires n in g
    ensures ClusterSize(g[n]) == |Voters(g)|
  {
    var cfg := g[n];
    MembersVote(g, n);
    assert DistinctPeers(cfg);
    CountIsCardinality(cfg, |cfg.peers|);
    assert cfg.peers[..|cfg.peers|] == cfg.peers;
  }

  // ---------------------------------------------------------------- the sorted matches

  ghost predicate Descending(s: seq<nat>) {
    forall i, j | 0 <= i < j < |s| :: s[i] >= s[j]
  }

  /** How many elements are at least `x`. */
  ghost function AtLeast(s: seq<nat>, x: nat): nat {
    if s == [] then 0 else AtLeast(s[..|s| - 1], x) + (if s[|s| - 1] >= x then 1 else 0)
  }

  lemma {:induction false} AtLeastSplit(a: seq<nat>, b: seq<nat>, x: nat)
    ensures AtLeast(a + b, x) == AtLeast(a, x) + AtLeast(b, x)
  {
    if b == [] {
      assert a + b == a;
    } else {
      AtLeastSplit(a, b[..|b| - 1], x);
      assert (a + b)[..|a + b| - 1] == a + b[..|b| - 1];
    }
  }

  lemma {:induction false} InsertSorted(x: nat, s: seq<nat>, y: nat)
    requires Descending(s)
    ensures Descending(InsertDesc(x, s))
    ensures AtLeast(InsertDesc(x, s), y) == AtLeast([x], y) + AtLeast(s, y)
    ensures forall z | z in InsertDesc(x, s) :: z == x || z in s
  {
    if s == [] || s[0] <= x {
      AtLeastSplit([x], s, y);
    } else {
      var t := InsertDesc(x, s[1..]);
      InsertSorted(x, s[1..], y);
      AtLeastSplit([s[0]], t, y);
      AtLeastSplit([s[0]], s[1..], y);
      assert s == [s[0]] + s[1..];
      forall j | 0 <= j < |t| ensures s[0] >= t[j] {
        assert t[j] in t;
      }
    }
  }

  lemma {:induction false} SortSorted(s: seq<nat>, y: nat)
    ensures Descending(SortDesc(s)) && |SortDesc(s)| == |s|
    ensures AtLeast(SortDesc(s), y) == AtLeast(s, y)
  {
    if s != [] {
      var r := s[..|s| - 1];
      SortSorted(r, y);
      InsertSorted(s[|s| - 1], SortDesc(r), y);
      InsertDescLength(s[|s| - 1], SortDesc(r));
    }
  }

  lemma {:induction false} PrefixAtLeast(s: seq<nat>, k: nat, x: nat)
    requires k <= |s| && forall i | 0 <= i < k :: s[i] >= x
    ensures AtLeast(s, x) >= k
  {
    if s != [] {
      if k == |s| {
        PrefixAtLeast(s[..|s| - 1], k - 1, x);
      } else {
        PrefixAtLeast(s[..|s| - 1], k, x);
      }
    }
  }

  lemma DescendingPrefix(r: seq<nat>, k: nat)
    requires Descending(r) && k < |r|
    ensures forall i | 0 <= i < k + 1 :: r[i] >= r[k]
  {
  }

  /** The element at the majority position is reached by a strict majority. */
  lemma MajorityReached(s: seq<nat>)
    requires s != []
    ensures 2 * AtLeast(s, MajorityMatch(s)) > |s|
  {
    var c, r := MajorityMatch(s), SortDesc(s);
    SortSorted(s, c);
    DescendingPrefix(r, |s| / 2);
    PrefixAtLeast(r, |s| / 2 + 1, c);
  }

  lemma {:induction false} AtLeastOfSuffix(s: seq<nat>, k: nat, x: nat)
    requires k <= |s| && forall i | k <= i < |s| :: s[i] < x
    ensures AtLeast(s, x) <= k
  {
    if s != [] && k < |s| {
      AtLeastOfSuffix(s[..|s| - 1], k, x);
    } else if s != [] {
      AtLeastOfSuffix(s[..|s| - 1], k - 1, x);
    }
  }

  /** And it is the greatest such value: nothing above it is reached by a strict majority. */
  lemma MajorityIsGreatest(s: seq<nat>, x: nat)
    requires s != [] && x > MajorityMatch(s)
    ensures 2 * AtLeast(s, x) <= |s|
  {
    var r := SortDesc(s);
    SortSorted(s, x);
    DescendingSuffix(r, |s| / 2);
    AtLeastOfSuffix(r, |s| / 2, x);
  }

  lemma DescendingSuffix(r: seq<nat>, k: nat)
    requires Descending(r) && k < |r|
    ensures forall i | k <= i < |r| :: r[i] <= r[k]
  {
  }

  // ---------------------------------------------------------------- from matches to voters

  ghost function Reached(cfg: Config, n: Node, k: nat, x: nat): set<NodeId>
    requires k <= |cfg.peers|
  {
    set m | m in FirstVoters(cfg, k) && MatchIndex(n, m) >= x
  }

  lemma ReachedGrow(cfg: Config, n: Node, k: nat, x: nat)
    requires 0 < k <= |cfg.peers| && DistinctPeers(cfg)
    ensures var p := cfg.peers[k - 1];
            p !in Reached(cfg, n, k - 1, x) &&
            Reached(cfg, n, k, x) ==
            Reached(cfg, n, k - 1, x) + (if IsVoter(cfg, p) && MatchIndex(n, p) >= x then {p} else {})
  {
    FirstVotersGrow(cfg, k);
  }

  lemma AtLeastOne(y: nat, x: nat)
    ensures AtLeast([y], x) == if y >= x then 1 else 0
  {
    assert [y][..0] == [];
  }

  lemma {:induction false} PeerMatchesLength(cfg: Config, n: Node, k: nat)
    requires k <= |cfg.peers| && DistinctPeers(cfg)
    ensures |PeerMatches(cfg, n, k)| == |FirstVoters(cfg, k)|
  {
    if k > 0 {
      PeerMatchesLength(cfg, n, k - 1);
      FirstVotersGrow(cfg, k);
    }
  }

  lemma {:induction false} PeerMatchesCount(cfg: Config, n: Node, k: nat, x: nat)
    requires k <= |cfg.peers| && DistinctPeers(cfg)
    ensures AtLeast(PeerMatches(cfg, n, k), x) == |Reached(cfg, n, k, x)|
  {
    if k > 0 {
      var p := cfg.peers[k - 1];
      PeerMatchesCount(cfg, n, k - 1, x);
      ReachedGrow(cfg, n, k, x);
      if IsVoter(cfg, p) {
        AtLeastSplit(PeerMatches(cfg, n, k - 1), [MatchIndex(n, p)], x);
        AtLeastOne(MatchIndex(n, p), x);
      } else {
        assert PeerMatches(cfg, n, k) == PeerMatches(cfg, n, k - 1);
      }
    }
  }

  /** Who stands behind the index a leader is about to commit. */
  ghost function Backers(g: Group, n: NodeId, x: Node, c: nat): set<NodeId>
    requires n in g
  {
    set m | m in Voters(g) && (if m == n then LogView.LastIndex(x.log) else MatchIndex(x, m)) >= c
  }

  lemma BackersCount(g: Group, n: NodeId, x: Node, c: nat)
    requires n in g && IsVoter(g[n], n)
    ensures |Backers(g, n, x, c)| == AtLeast(Matches(g[n], x), c)
  {
    var cfg := g[n];
    var k, last := |cfg.peers|, LogView.LastIndex(x.log);
    AtLeastSplit([last], PeerMatches(cfg, x, k), c);
    AtLeastOne(last, c);
    assert DistinctPeers(cfg);
    PeerMatchesCount(cfg, x, k, c);
    MembersVote(g, n);
    BackersSplit(g, n, x, c);
  }

  lemma BackersSplit(g: Group, n: NodeId, x: Node, c: nat)
    requires n in g && IsVoter(g[n], n)
    requires Voters(g) == FirstVoters(g[n], |g[n].peers|) + {n} && n !in FirstVoters(g[n], |g[n].peers|)
    ensures |Backers(g, n, x, c)| ==
            |Reached(g[n], x, |g[n].peers|, c)| + (if LogView.LastIndex(x.log) >= c then 1 else 0)
  {
    var reached := Reached(g[n], x, |g[n].peers|, c);
    var self := if LogView.LastIndex(x.log) >= c then {n} else {};
    assert Backers(g, n, x, c) == reached + self;
    assert reached !! self;
  }

  lemma MatchesLength(g: Group, n: NodeId, x: Node)
    requires n in g && IsVoter(g[n], n)
    ensures |Matches(g[n], x)| == |Voters(g)|
  {
    assert DistinctPeers(g[n]);
    PeerMatchesLength(g[n], x, |g[n].peers|);
    MembersVote(g, n);
  }

  lemma BackersAreMajority(g: Group, n: NodeId, x: Node)
    requires n in g && IsVoter(g[n], n)
    ensures Matches(g[n], x) != []
    ensures 2 * |Backers(g, n, x, MajorityMatch(Matches(g[n], x)))| > |Voters(g)|
  {
    var ms := Matches(g[n], x);
    MajorityReached(ms);
    MatchesLength(g, n, x);
    BackersCount(g, n, x, MajorityMatch(ms));
  }

  // ---------------------------------------------------------------- progress

  /** A leader's log: terms do not fall and none is later than its own. */
  ghost predicate TermsRise(x: Node) {
    && (forall i, j | 0 <= i < j < |x.log.hist| :: x.log.hist[i].term <= x.log.hist[j].term)
    && (forall i | 0 <= i < |x.log.hist| :: x.log.hist[i].term <= x.term)
  }

  /** An index of the leader's own term, above what it has compacted, that a majority is known to hold. */
  ghost predicate IsHeld(g: Group, n: NodeId, x: Node, c: nat)
    requires n in g
  {
    && 1 <= c && x.log.snap <= c <= |x.log.hist| && x.log.hist[c - 1].term == x.term
    && 2 * |Backers(g, n, x, c)| > |Voters(g)|
  }

  lemma HeldIsReached(g: Group, n: NodeId, x: Node, c: nat)
    requires n in g && IsVoter(g[n], n) && IsHeld(g, n, x, c)
    ensures Matches(g[n], x) != [] && c <= MajorityMatch(Matches(g[n], x))
  {
    var ms := Matches(g[n], x);
    MatchesLength(g, n, x);
    BackersCount(g, n, x, c);
    if c > MajorityMatch(ms) {
      MajorityIsGreatest(ms, c);
    }
  }

  lemma ReachedIsInLog(g: Group, n: NodeId, x: Node)
    requires n in g && IsVoter(g[n], n) && forall m :: MatchIndex(x, m) <= |x.log.hist|
    ensures Matches(g[n], x) != [] && MajorityMatch(Matches(g[n], x)) <= |x.log.hist|
  {
    MatchesLength(g, n, x);
    NobodyBeyond(g, n, x, MajorityMatch(Matches(g[n], x)));
    BackersAreMajority(g, n, x);
  }

  lemma NobodyBeyond(g: Group, n: NodeId, x: Node, c: nat)
    requires n in g && forall m :: MatchIndex(x, m) <= |x.log.hist|
    ensures c > |x.log.hist| ==> Backers(g, n, x, c) == {}
  {
  }

  /**
    Whatever of its own term a majority holds, a leader commits: the commit index becomes the greatest
    such index, and stays where it is only if there is none above it.
   */
  lemma HeldIsCommitted(g: Group, n: NodeId, x: Node, c: nat)
    requires n in g && IsVoter(g[n], n) && TermsRise(x) && forall m :: MatchIndex(x, m) <= |x.log.hist|
    requires IsHeld(g, n, x, c)
    ensures AdvanceCommit(g[n], x).commit >= c
    ensures var y := AdvanceCommit(g[n], x); y.commit == x.commit || IsHeld(g, n, x, y.commit)
  {
    HeldIsReached(g, n, x, c);
    ReachedIsInLog(g, n, x);
    BackersAreMajority(g, n, x);
    var d := MajorityMatch(Matches(g[n], x));
    assert c < d ==> x.log.hist[c - 1].term <= x.log.hist[d - 1].term;
  }
}
