/** The actions that make up a run of the protocol, each keeping the invariant of `Protocol`. */
module Actions {
  import opened RaftTypes
  import opened Protocol

  // ---------------------------------------------------------------- stability

  lemma LogOkStable(s: Proto, s': Proto, l: Log, bound: nat)
    requires LogOk(s, l, bound)
    requires forall t | t in s.tlog :: t in s'.tlog && s.tlog[t] <= s'.tlog[t]
    ensures LogOk(s', l, bound)
  {
    forall i | 0 <= i < |l|
      ensures 1 <= l[i].term <= bound && Rooted(s', l, i)
    {
      assert Rooted(s, l, i);
      var m, m' := s.tlog[l[i].term], s'.tlog[l[i].term];
      assert m == m'[..|m|];
      assert m[..i + 1] == m'[..i + 1];
    }
  }

  lemma SafeStable(s: Proto, s': Proto, t: nat, k: nat, l: Log)
    requires Extends(s, s')
    requires Own(s, t, k) && Safe(s, t, k, l)
    ensures Own(s', t, k) && Safe(s', t, k, l)
  {
    var m, m' := s.tlog[t], s'.tlog[t];
    assert m == m'[..|m|];
    assert m[..k] == m'[..k];
    if Dead(s, t, k) {
      var q :| DeadBy(s, t, k, q);
      assert DeadBy(s', t, k, q);
    }
  }

  lemma ChosenStable(s: Proto, s': Proto, t: nat, k: nat)
    requires Extends(s, s') && Chosen(s, t, k)
    ensures Chosen(s', t, k) && s'.tlog[t][..k] == s.tlog[t][..k]
  {
    var q :| ChosenBy(s, t, k, q);
    var m, m' := s.tlog[t], s'.tlog[t];
    assert m == m'[..|m|];
    assert m[..k] == m'[..k];
    assert ChosenBy(s', t, k, q);
  }

  // Each conjunct of the invariant is kept by every action that leaves its own records alone.

  lemma KeptNodeLogs(s: Proto, s': Proto)
    requires Domains(s) && NodeLogs(s) && Extends(s, s') && Domains(s')
    requires s'.tlog == s.tlog && s'.log == s.log
    ensures NodeLogs(s')
  {
    forall n | n in s'.log ensures LogOk(s', s'.log[n], s'.term[n]) {
      LogOkStable(s, s', s.log[n], s.term[n]);
    }
  }

  lemma KeptTermLogs(s: Proto, s': Proto)
    requires TermLogs(s) && s'.tlog == s.tlog
    ensures TermLogs(s')
  {
    forall t | t in s'.tlog ensures LogOk(s', s'.tlog[t], t) {
      LogOkStable(s, s', s.tlog[t], t);
    }
  }

  lemma KeptCandLogs(s: Proto, s': Proto)
    requires CandLogs(s) && Extends(s, s') && s'.cand == s.cand
    ensures CandLogs(s')
  {
    forall n, t | (n, t) in s'.cand
      ensures n in s'.term && 1 <= t <= s'.term[n] && LogOk(s', s'.cand[(n, t)], t - 1)
    {
      LogOkStable(s, s', s.cand[(n, t)], t - 1);
    }
  }

  lemma KeptVotes(s: Proto, s': Proto)
    requires VotesOk(s) && Extends(s, s') && s'.votes == s.votes
    ensures VotesOk(s')
  {
  }

  lemma KeptLead(s: Proto, s': Proto)
    requires Domains(s) && LeadOk(s) && Extends(s, s') && Domains(s')
    requires s'.tlog == s.tlog && s'.lead == s.lead && s'.quorum == s.quorum
    ensures LeadOk(s')
  {
    forall t | t in s'.lead ensures Elected(s', t) {
      KeptElected(s, s', t);
    }
  }

  /** An election stays recorded while the term's log only gains entries of that term. */
  lemma KeptElected(s: Proto, s': Proto, t: nat)
    requires Domains(s) && Extends(s, s') && Domains(s')
    requires t in s.lead && Elected(s, t)
    requires s'.lead[t] == s.lead[t] && s'.quorum[t] == s.quorum[t]
    requires forall i | |s.tlog[t]| <= i < |s'.tlog[t]| :: s'.tlog[t][i].term == t
    ensures Elected(s', t)
  {
    assert VotedFor(s, s.quorum[t], t, s.lead[t]);
    assert VotedFor(s', s'.quorum[t], t, s'.lead[t]);
    assert forall i | 0 <= i < |s.tlog[t]| :: s'.tlog[t][i] == s.tlog[t][i];
  }

  lemma KeptAcc(s: Proto, s': Proto)
    requires AccOk(s) && Extends(s, s') && s'.acc == s.acc
    ensures AccOk(s')
  {
  }

  lemma KeptHolds(s: Proto, s': Proto)
    requires Domains(s) && LeadOk(s) && LeaderHolds(s) && Extends(s, s') && Domains(s')
    requires s'.tlog == s.tlog && s'.lead == s.lead && s'.log == s.log && s'.acc == s.acc
    ensures LeaderHolds(s')
  {
    forall t | t in s'.lead ensures HoldsOwn(s', t) {
      assert HoldsOwn(s, t) && Elected(s, t);
    }
  }

  lemma KeptNodeSafe(s: Proto, s': Proto)
    requires NodeSafe(s) && Extends(s, s')
    requires s'.tlog == s.tlog && s'.log == s.log && s'.acc == s.acc
    ensures NodeSafe(s')
  {
    forall n, t: nat, k: nat | n in s'.log && Own(s', t, k) && k <= Acc(s', n, t)
      ensures Safe(s', t, k, s'.log[n])
    {
      assert Own(s, t, k);
      SafeStable(s, s', t, k, s.log[n]);
    }
  }

  lemma KeptLeadSafe(s: Proto, s': Proto)
    requires LeadSafe(s) && Extends(s, s')
    requires s'.tlog == s.tlog && s'.lead == s.lead
    requires forall t | t in s.lead :: (s.lead[t], t) in s.cand
    ensures LeadSafe(s')
  {
    forall u: nat, t: nat, k: nat | u in s'.lead && (s'.lead[u], u) in s'.cand && t < u && Own(s', t, k)
      ensures Safe(s', t, k, s'.cand[(s'.lead[u], u)])
    {
      assert Own(s, t, k);
      SafeStable(s, s', t, k, s.cand[(s.lead[u], u)]);
    }
  }

  /** A change of terms, votes and candidacies leaves everything said about logs alone. */
  lemma KeptByElections(s: Proto, s': Proto)
    requires Inv(s) && Extends(s, s')
    requires s' == s.(term := s'.term, votes := s'.votes, cand := s'.cand, acked := s'.acked)
    ensures Domains(s') && NodeLogs(s') && TermLogs(s') && LeadOk(s') && AccOk(s') && LeaderHolds(s')
    ensures NodeSafe(s') && LeadSafe(s')
  {
    KeptNodeLogs(s, s');
    KeptTermLogs(s, s');
    KeptLead(s, s');
    KeptAcc(s, s');
    KeptHolds(s, s');
    KeptNodeSafe(s, s');
    KeptLeadSafe(s, s');
  }

  lemma KeptVoteSafe(s: Proto, s': Proto, n: NodeId, u: nat, t: nat, k: nat)
    requires VoteSafe(s) && VotesOk(s) && Extends(s, s')
    requires (n, u) in s.votes && t < u && Own(s, t, k) && k <= Acc(s, n, t)
    ensures Own(s', t, k) && (s'.votes[(n, u)], u) in s'.cand
    ensures Safe(s', t, k, s'.cand[(s'.votes[(n, u)], u)])
  {
    SafeStable(s, s', t, k, s.cand[(s.votes[(n, u)], u)]);
  }

  // ---------------------------------------------------------------- a node moves to a later term

  function Adv(s: Proto, n: NodeId, t: nat): Proto
    requires n in s.term
  {
    s.(term := s.term[n := t])
  }

  lemma AdvKeeps(s: Proto, n: NodeId, t: nat)
    requires Inv(s) && n in s.term && t > s.term[n]
    ensures Inv(Adv(s, n, t)) && Extends(s, Adv(s, n, t))
  {
    var s' := Adv(s, n, t);
    AdvExtends(s, n, t);
    KeptByElections(s, s');
    KeptCandLogs(s, s');
    KeptVotes(s, s');
    AdvVoteSafe(s, s');
  }

  lemma AdvExtends(s: Proto, n: NodeId, t: nat)
    requires n in s.term && t > s.term[n]
    ensures Extends(s, Adv(s, n, t))
  {
  }

  lemma AdvVoteSafe(s: Proto, s': Proto)
    requires VotesOk(s) && VoteSafe(s) && Extends(s, s')
    requires s'.votes == s.votes && s'.acc == s.acc && s'.tlog == s.tlog
    ensures VoteSafe(s')
  {
    forall m, u: nat, v: nat, k: nat |
      (m, u) in s'.votes && (s'.votes[(m, u)], u) in s'.cand && v < u && Own(s', v, k) && k <= Acc(s', m, v)
      ensures Safe(s', v, k, s'.cand[(s'.votes[(m, u)], u)])
    {
      assert Own(s, v, k);
      KeptVoteSafe(s, s', m, u, v, k);
    }
  }

  // ---------------------------------------------------------------- a node stands for election

  function Stand(s: Proto, n: NodeId): Proto
    requires n in s.term && n in s.log
  {
    var t := s.term[n] + 1;
    s.(term := s.term[n := t],
       votes := s.votes[(n, t) := n],
       cand := s.cand[(n, t) := s.log[n]])
  }

  lemma StandKeeps(s: Proto, n: NodeId)
    requires Inv(s) && n in s.term
    ensures Inv(Stand(s, n)) && Extends(s, Stand(s, n))
  {
    StandExtends(s, n);
    KeptByElections(s, Stand(s, n));
    StandCandLogs(s, n);
    StandVoteSafe(s, n);
  }

  lemma StandExtends(s: Proto, n: NodeId)
    requires Domains(s) && CandLogs(s) && VotesOk(s) && n in s.term
    ensures Extends(s, Stand(s, n)) && VotesOk(Stand(s, n))
  {
    var t := s.term[n] + 1;
    assert (n, t) !in s.votes && (n, t) !in s.cand;
  }

  lemma StandCandLogs(s: Proto, n: NodeId)
    requires Domains(s) && NodeLogs(s) && CandLogs(s) && n in s.term
    ensures CandLogs(Stand(s, n))
  {
    var s' := Stand(s, n);
    forall c, u | (c, u) in s'.cand
      ensures c in s'.term && 1 <= u <= s'.term[c] && LogOk(s', s'.cand[(c, u)], u - 1)
    {
      if (c, u) == (n, s.term[n] + 1) {
        LogOkStable(s, s', s.log[n], s.term[n]);
      } else {
        LogOkStable(s, s', s.cand[(c, u)], u - 1);
      }
    }
  }

  lemma StandVoteSafe(s: Proto, n: NodeId)
    requires Domains(s) && CandLogs(s) && VotesOk(s) && NodeSafe(s) && VoteSafe(s) && n in s.term
    requires Extends(s, Stand(s, n))
    ensures VoteSafe(Stand(s, n))
  {
    var s' := Stand(s, n);
    var t := s.term[n] + 1;
    forall m, u: nat, v: nat, k: nat |
      (m, u) in s'.votes && (s'.votes[(m, u)], u) in s'.cand && v < u && Own(s', v, k) && k <= Acc(s', m, v)
      ensures Safe(s', v, k, s'.cand[(s'.votes[(m, u)], u)])
    {
      assert Own(s, v, k);
      if (m, u) == (n, t) {
        assert Safe(s, v, k, s.log[n]);
        SafeStable(s, s', v, k, s.log[n]);
      } else {
        KeptVoteSafe(s, s', m, u, v, k);
      }
    }
  }

  // ---------------------------------------------------------------- a node votes

  function Vote(s: Proto, n: NodeId, c: NodeId): Proto
    requires n in s.term
  {
    s.(votes := s.votes[(n, s.term[n]) := c])
  }

  ghost predicate CanVote(s: Proto, n: NodeId, c: NodeId) {
    && n in s.term && n in s.log
    && (c, s.term[n]) in s.cand
    && ((n, s.term[n]) in s.votes ==> s.votes[(n, s.term[n])] == c)
    && UpToDate(s.cand[(c, s.term[n])], s.log[n])
  }

  /** What a log holds, every log at least as recent holds too (or it is dead). */
  lemma RecentHolds(s: Proto, t: nat, k: nat, v: Log, x: nat, c: Log, u: nat)
    requires Domains(s) && TermLogs(s) && LeadOk(s) && LeadSafe(s)
    requires Own(s, t, k) && t < u
    requires LogOk(s, v, x) && LogOk(s, c, u - 1)
    requires s.tlog[t][..k] <= v && UpToDate(c, v)
    ensures Safe(s, t, k, c)
  {
    var p := s.tlog[t][..k];
    assert v[k - 1] == p[k - 1];
    TermsAscend(s, v, x, k - 1, |v| - 1);
    var w := LastTerm(c);
    assert c == s.tlog[w][..|c|] by { assert Rooted(s, c, |c| - 1) && c == c[..|c|]; }
    if w == LastTerm(v) {
      assert v == s.tlog[w][..|v|] by { assert Rooted(s, v, |v| - 1) && v == v[..|v|]; }
      assert v <= c;
      assert p <= c;
    } else if !Dead(s, t, k) {
      assert Elected(s, w);
      assert Safe(s, t, k, s.cand[(s.lead[w], w)]);
      assert p <= s.tlog[w];
      LaterTermIsLonger(s, t, k, c);
      assert p <= c;
    }
  }

  lemma LaterTermIsLonger(s: Proto, t: nat, k: nat, c: Log)
    requires TermLogs(s) && Own(s, t, k)
    requires c != [] && LastTerm(c) > t && LastTerm(c) in s.tlog
    requires c <= s.tlog[LastTerm(c)] && s.tlog[t][..k] <= s.tlog[LastTerm(c)]
    ensures k <= |c|
  {
    var m := s.tlog[LastTerm(c)];
    assert forall i | 0 <= i < k :: m[i] == s.tlog[t][i] && s.tlog[t][i].term <= t;
    assert c[|c| - 1] == m[|c| - 1];
  }

  lemma VoteKeeps(s: Proto, n: NodeId, c: NodeId)
    requires Inv(s) && CanVote(s, n, c)
    ensures Inv(Vote(s, n, c)) && Extends(s, Vote(s, n, c))
  {
    var s' := Vote(s, n, c);
    VoteExtends(s, n, c);
    KeptByElections(s, s');
    KeptCandLogs(s, s');
    VoteVoteSafe(s, n, c);
  }

  lemma VoteExtends(s: Proto, n: NodeId, c: NodeId)
    requires Domains(s) && VotesOk(s) && CanVote(s, n, c)
    ensures Extends(s, Vote(s, n, c)) && VotesOk(Vote(s, n, c))
  {
  }

  lemma VoteVoteSafe(s: Proto, n: NodeId, c: NodeId)
    requires Inv(s) && CanVote(s, n, c)
    requires Extends(s, Vote(s, n, c))
    ensures VoteSafe(Vote(s, n, c))
  {
    var s' := Vote(s, n, c);
    var t := s.term[n];
    forall m, u: nat, v: nat, k: nat |
      (m, u) in s'.votes && (s'.votes[(m, u)], u) in s'.cand && v < u && Own(s', v, k) && k <= Acc(s', m, v)
      ensures Safe(s', v, k, s'.cand[(s'.votes[(m, u)], u)])
    {
      assert Own(s, v, k);
      if (m, u) == (n, t) {
        var l := s.cand[(c, t)];
        assert Safe(s, v, k, s.log[n]);
        if !Dead(s, v, k) {
          RecentHolds(s, v, k, s.log[n], s.term[n], l, t);
        }
        SafeStable(s, s', v, k, l);
      } else {
        KeptVoteSafe(s, s', m, u, v, k);
      }
    }
  }

  // ---------------------------------------------------------------- a candidate becomes leader

  function Elect(s: Proto, n: NodeId, q: set<NodeId>): Proto
    requires n in s.term && n in s.log
  {
    var t := s.term[n];
    s.(lead := s.lead[t := n],
       quorum := s.quorum[t := q],
       tlog := s.tlog[t := s.log[n]],
       acc := s.acc[(n, t) := |s.log[n]|])
  }

  ghost predicate CanLead(s: Proto, n: NodeId, q: set<NodeId>) {
    && n in s.term && n in s.log
    && s.term[n] !in s.lead
    && (n, s.term[n]) in s.cand && s.cand[(n, s.term[n])] == s.log[n]
    && IsQuorum(s, q) && VotedFor(s, q, s.term[n], n)
  }

  lemma ElectExtends(s: Proto, n: NodeId, q: set<NodeId>)
    requires Domains(s) && AccOk(s) && CanLead(s, n, q)
    ensures Extends(s, Elect(s, n, q)) && Domains(Elect(s, n, q)) && AccOk(Elect(s, n, q))
  {
    var s' := Elect(s, n, q);
    forall m, t: nat ensures Acc(s, m, t) <= Acc(s', m, t) {
      if (m, t) == (n, s.term[n]) {
        assert (m, t) !in s.acc;
      }
    }
  }

  /** A fresh leader has not created anything yet. */
  lemma ElectOwn(s: Proto, n: NodeId, q: set<NodeId>, t: nat, k: nat)
    requires CandLogs(s) && CanLead(s, n, q)
    requires Own(Elect(s, n, q), t, k)
    ensures t != s.term[n] && Own(s, t, k)
  {
    assert LogOk(s, s.log[n], s.term[n] - 1);
  }

  lemma ElectLogs(s: Proto, n: NodeId, q: set<NodeId>)
    requires Inv(s) && CanLead(s, n, q)
    requires Extends(s, Elect(s, n, q)) && Domains(Elect(s, n, q))
    ensures NodeLogs(Elect(s, n, q)) && TermLogs(Elect(s, n, q))
  {
    var s' := Elect(s, n, q);
    forall m | m in s'.log ensures LogOk(s', s'.log[m], s'.term[m]) {
      LogOkStable(s, s', s.log[m], s.term[m]);
    }
    forall t | t in s'.tlog ensures LogOk(s', s'.tlog[t], t) {
      if t == s.term[n] {
        LogOkStable(s, s', s.log[n], t);
      } else {
        LogOkStable(s, s', s.tlog[t], t);
      }
    }
  }

  lemma ElectLead(s: Proto, n: NodeId, q: set<NodeId>)
    requires Domains(s) && LeadOk(s) && CanLead(s, n, q)
    requires Extends(s, Elect(s, n, q)) && Domains(Elect(s, n, q))
    ensures LeadOk(Elect(s, n, q))
  {
    var s' := Elect(s, n, q);
    forall t | t in s'.lead ensures Elected(s', t) {
      if t != s.term[n] {
        assert Elected(s, t);
        KeptElected(s, s', t);
      } else {
        assert VotedFor(s', q, t, n);
      }
    }
  }

  lemma ElectHolds(s: Proto, n: NodeId, q: set<NodeId>)
    requires Domains(s) && LeaderHolds(s) && CanLead(s, n, q) && Domains(Elect(s, n, q))
    ensures LeaderHolds(Elect(s, n, q))
  {
    var s' := Elect(s, n, q);
    forall t | t in s'.lead ensures HoldsOwn(s', t) {
      assert t != s.term[n] ==> HoldsOwn(s, t);
    }
  }

  lemma ElectNodeSafe(s: Proto, n: NodeId, q: set<NodeId>)
    requires CandLogs(s) && NodeSafe(s) && CanLead(s, n, q) && Extends(s, Elect(s, n, q))
    ensures NodeSafe(Elect(s, n, q))
  {
    var s' := Elect(s, n, q);
    forall m, t: nat, k: nat | m in s'.log && Own(s', t, k) && k <= Acc(s', m, t)
      ensures Safe(s', t, k, s'.log[m])
    {
      ElectOwn(s, n, q, t, k);
      SafeStable(s, s', t, k, s.log[m]);
    }
  }

  lemma ElectVoteSafe(s: Proto, n: NodeId, q: set<NodeId>)
    requires CandLogs(s) && VotesOk(s) && VoteSafe(s) && CanLead(s, n, q) && Extends(s, Elect(s, n, q))
    ensures VoteSafe(Elect(s, n, q))
  {
    var s' := Elect(s, n, q);
    forall m, u: nat, v: nat, k: nat |
      (m, u) in s'.votes && (s'.votes[(m, u)], u) in s'.cand && v < u && Own(s', v, k) && k <= Acc(s', m, v)
      ensures Safe(s', v, k, s'.cand[(s'.votes[(m, u)], u)])
    {
      ElectOwn(s, n, q, v, k);
      KeptVoteSafe(s, s', m, u, v, k);
    }
  }

  /** The heart of leader completeness: either some elector accepted `k`, or all of them left it behind. */
  lemma ElectorsKnow(s: Proto, n: NodeId, q: set<NodeId>, t: nat, k: nat)
    requires Domains(s) && VotesOk(s) && VoteSafe(s) && CanLead(s, n, q)
    requires t < s.term[n] && Own(s, t, k)
    ensures Safe(s, t, k, s.cand[(n, s.term[n])])
  {
    var u := s.term[n];
    if m :| m in q && Acc(s, m, t) >= k {
      assert (m, u) in s.votes;
      assert Safe(s, t, k, s.cand[(s.votes[(m, u)], u)]);
    } else {
      forall m | m in q ensures m in s.term && s.term[m] > t && Acc(s, m, t) < k {
        assert (m, u) in s.votes;
      }
      assert DeadBy(s, t, k, q);
    }
  }

  lemma ElectLeadSafe(s: Proto, n: NodeId, q: set<NodeId>)
    requires Inv(s) && CanLead(s, n, q) && Extends(s, Elect(s, n, q))
    ensures LeadSafe(Elect(s, n, q))
  {
    var s' := Elect(s, n, q);
    forall u: nat, t: nat, k: nat | u in s'.lead && (s'.lead[u], u) in s'.cand && t < u && Own(s', t, k)
      ensures Safe(s', t, k, s'.cand[(s'.lead[u], u)])
    {
      ElectOwn(s, n, q, t, k);
      if u == s.term[n] {
        ElectorsKnow(s, n, q, t, k);
      }
      SafeStable(s, s', t, k, s.cand[(s'.lead[u], u)]);
    }
  }

  lemma ElectKeeps(s: Proto, n: NodeId, q: set<NodeId>)
    requires Inv(s) && CanLead(s, n, q)
    ensures Inv(Elect(s, n, q)) && Extends(s, Elect(s, n, q))
  {
    var s' := Elect(s, n, q);
    ElectExtends(s, n, q);
    ElectLogs(s, n, q);
    KeptCandLogs(s, s');
    KeptVotes(s, s');
    ElectLead(s, n, q);
    ElectHolds(s, n, q);
    ElectNodeSafe(s, n, q);
    ElectVoteSafe(s, n, q);
    ElectLeadSafe(s, n, q);
  }

  // ---------------------------------------------------------------- a leader creates an entry

  function Create(s: Proto, n: NodeId, e: LogEntry): Proto
    requires n in s.term && n in s.log
  {
    var t, l := s.term[n], s.log[n] + [e];
    s.(tlog := s.tlog[t := l], log := s.log[n := l], acc := s.acc[(n, t) := |l|])
  }

  ghost predicate CanCreate(s: Proto, n: NodeId, e: LogEntry) {
    && n in s.term && n in s.log
    && s.term[n] in s.lead && s.lead[s.term[n]] == n
    && e.term == s.term[n]
  }

  lemma CreateExtends(s: Proto, n: NodeId, e: LogEntry)
    requires Domains(s) && AccOk(s) && LeaderHolds(s) && CanCreate(s, n, e)
    ensures Extends(s, Create(s, n, e)) && Domains(Create(s, n, e))
  {
    var s' := Create(s, n, e);
    assert HoldsOwn(s, s.term[n]);
    forall m, t: nat ensures Acc(s, m, t) <= Acc(s', m, t) {
    }
  }

  lemma CreateAcc(s: Proto, n: NodeId, e: LogEntry)
    requires Domains(s) && AccOk(s) && LeaderHolds(s) && CanCreate(s, n, e)
    ensures AccOk(Create(s, n, e))
  {
    assert HoldsOwn(s, s.term[n]);
  }

  lemma CreateLogs(s: Proto, n: NodeId, e: LogEntry)
    requires Domains(s) && NodeLogs(s) && TermLogs(s) && CandLogs(s) && LeadOk(s) && LeaderHolds(s)
    requires CanCreate(s, n, e)
    requires Extends(s, Create(s, n, e)) && Domains(Create(s, n, e))
    ensures NodeLogs(Create(s, n, e)) && TermLogs(Create(s, n, e))
  {
    CreatedLogOk(s, n, e);
    CreateNodeLogs(s, n, e);
    CreateTermLogs(s, n, e);
  }

  lemma CreateNodeLogs(s: Proto, n: NodeId, e: LogEntry)
    requires Domains(s) && NodeLogs(s) && CanCreate(s, n, e)
    requires Extends(s, Create(s, n, e)) && Domains(Create(s, n, e))
    requires LogOk(Create(s, n, e), s.log[n] + [e], s.term[n])
    ensures NodeLogs(Create(s, n, e))
  {
    var s' := Create(s, n, e);
    forall m | m in s'.log ensures LogOk(s', s'.log[m], s'.term[m]) {
      if m != n {
        LogOkStable(s, s', s.log[m], s.term[m]);
      }
    }
  }

  lemma CreateTermLogs(s: Proto, n: NodeId, e: LogEntry)
    requires Domains(s) && TermLogs(s) && LeaderHolds(s) && CanCreate(s, n, e)
    requires Extends(s, Create(s, n, e)) && Domains(Create(s, n, e))
    requires LogOk(Create(s, n, e), s.log[n] + [e], s.term[n])
    ensures TermLogs(Create(s, n, e))
  {
    var s' := Create(s, n, e);
    forall t | t in s'.tlog ensures LogOk(s', s'.tlog[t], t) {
      if t != s.term[n] {
        LogOkStable(s, s', s.tlog[t], t);
      }
    }
  }

  lemma CreatedLogOk(s: Proto, n: NodeId, e: LogEntry)
    requires Domains(s) && TermLogs(s) && CandLogs(s) && LeadOk(s) && LeaderHolds(s) && CanCreate(s, n, e)
    requires Extends(s, Create(s, n, e))
    ensures LogOk(Create(s, n, e), s.log[n] + [e], s.term[n])
  {
    var s' := Create(s, n, e);
    var t, l := s.term[n], s.log[n] + [e];
    assert HoldsOwn(s, t);
    LogOkStable(s, s', s.tlog[t], t);
    forall i | 0 <= i < |l| ensures 1 <= l[i].term <= t && Rooted(s', l, i) {
      if i < |l| - 1 {
        assert Rooted(s', s.log[n], i);
        assert l[..i + 1] == s.log[n][..i + 1];
      }
    }
  }

  lemma CreateLead(s: Proto, n: NodeId, e: LogEntry)
    requires Domains(s) && LeadOk(s) && LeaderHolds(s) && CanCreate(s, n, e)
    requires Extends(s, Create(s, n, e)) && Domains(Create(s, n, e))
    ensures LeadOk(Create(s, n, e))
  {
    var s' := Create(s, n, e);
    assert HoldsOwn(s, s.term[n]);
    forall t | t in s'.lead ensures Elected(s', t) {
      assert Elected(s, t);
      KeptElected(s, s', t);
    }
  }

  lemma CreateHolds(s: Proto, n: NodeId, e: LogEntry)
    requires Domains(s) && LeaderHolds(s) && CanCreate(s, n, e) && Domains(Create(s, n, e))
    ensures LeaderHolds(Create(s, n, e))
  {
    var s' := Create(s, n, e);
    forall t | t in s'.lead ensures HoldsOwn(s', t) {
      assert HoldsOwn(s, t);
    }
  }

  lemma CreateNodeSafe(s: Proto, n: NodeId, e: LogEntry)
    requires Domains(s) && AccOk(s) && LeaderHolds(s) && NodeSafe(s) && CanCreate(s, n, e)
    requires Extends(s, Create(s, n, e))
    ensures NodeSafe(Create(s, n, e))
  {
    var s' := Create(s, n, e);
    forall m, t: nat, k: nat | m in s'.log && Own(s', t, k) && k <= Acc(s', m, t)
      ensures Safe(s', t, k, s'.log[m])
    {
      if (m, t) != (n, s.term[n]) {
        CreateOldNode(s, n, e, m, t, k);
      }
    }
  }

  lemma CreateOldNode(s: Proto, n: NodeId, e: LogEntry, m: NodeId, t: nat, k: nat)
    requires Domains(s) && AccOk(s) && LeaderHolds(s) && NodeSafe(s) && CanCreate(s, n, e)
    requires Extends(s, Create(s, n, e))
    requires m in s.log && Own(Create(s, n, e), t, k) && k <= Acc(Create(s, n, e), m, t)
    requires (m, t) != (n, s.term[n])
    ensures Safe(Create(s, n, e), t, k, Create(s, n, e).log[m])
  {
    var s' := Create(s, n, e);
    assert HoldsOwn(s, s.term[n]);
    assert (m, t) in s.acc;
    assert Own(s, t, k);
    SafeStable(s, s', t, k, s.log[m]);
  }

  lemma CreateVoteSafe(s: Proto, n: NodeId, e: LogEntry)
    requires Domains(s) && AccOk(s) && VotesOk(s) && LeaderHolds(s) && VoteSafe(s) && CanCreate(s, n, e)
    requires Extends(s, Create(s, n, e))
    ensures VoteSafe(Create(s, n, e))
  {
    var s' := Create(s, n, e);
    assert HoldsOwn(s, s.term[n]);
    forall m, u: nat, v: nat, k: nat |
      (m, u) in s'.votes && (s'.votes[(m, u)], u) in s'.cand && v < u && Own(s', v, k) && k <= Acc(s', m, v)
      ensures Safe(s', v, k, s'.cand[(s'.votes[(m, u)], u)])
    {
      assert u <= s.term[m];
      assert Acc(s', m, v) == Acc(s, m, v);
      assert Own(s, v, k);
      KeptVoteSafe(s, s', m, u, v, k);
    }
  }

  /** An entry created after a later leader was elected is dead: its electors had moved on. */
  lemma CreateLeadSafe(s: Proto, n: NodeId, e: LogEntry)
    requires Domains(s) && AccOk(s) && VotesOk(s) && LeadOk(s) && LeaderHolds(s) && LeadSafe(s)
    requires CanCreate(s, n, e) && Extends(s, Create(s, n, e))
    ensures LeadSafe(Create(s, n, e))
  {
    var s' := Create(s, n, e);
    assert HoldsOwn(s, s.term[n]);
    forall u: nat, t: nat, k: nat | u in s'.lead && (s'.lead[u], u) in s'.cand && t < u && Own(s', t, k)
      ensures Safe(s', t, k, s'.cand[(s'.lead[u], u)])
    {
      assert Elected(s, u);
      if Own(s, t, k) {
        SafeStable(s, s', t, k, s.cand[(s.lead[u], u)]);
      } else {
        assert t == s.term[n] && k == |s.tlog[t]| + 1;
        LateEntryIsDead(s, n, e, u);
      }
    }
  }

  lemma LateEntryIsDead(s: Proto, n: NodeId, e: LogEntry, u: nat)
    requires Domains(s) && AccOk(s) && VotesOk(s) && LeadOk(s) && LeaderHolds(s) && CanCreate(s, n, e)
    requires u in s.lead && s.term[n] < u
    ensures Dead(Create(s, n, e), s.term[n], |s.tlog[s.term[n]]| + 1)
  {
    var s' := Create(s, n, e);
    var t, q := s.term[n], s.quorum[u];
    assert HoldsOwn(s, t);
    assert Elected(s, u);
    forall m | m in q ensures m in s'.term && s'.term[m] > t && Acc(s', m, t) < |s.tlog[t]| + 1 {
      assert (m, u) in s.votes;
    }
    assert DeadBy(s', t, |s.tlog[t]| + 1, q);
  }

  lemma CreateKeeps(s: Proto, n: NodeId, e: LogEntry)
    requires Inv(s) && CanCreate(s, n, e)
    ensures Inv(Create(s, n, e)) && Extends(s, Create(s, n, e))
  {
    var s' := Create(s, n, e);
    CreateExtends(s, n, e);
    CreateAcc(s, n, e);
    CreateLogs(s, n, e);
    KeptCandLogs(s, s');
    KeptVotes(s, s');
    CreateLead(s, n, e);
    CreateHolds(s, n, e);
    CreateNodeSafe(s, n, e);
    CreateVoteSafe(s, n, e);
    CreateLeadSafe(s, n, e);
  }

  // ---------------------------------------------------------------- a node accepts its leader's log

  /** A log after adopting the prefix `p`: untouched when it holds it already, `p` itself otherwise. */
  function Adopt(l: Log, p: Log): Log {
    if p <= l then l else p
  }

  function Accept(s: Proto, n: NodeId, m: nat): Proto
    requires n in s.term && n in s.log
    requires s.term[n] in s.tlog && m <= |s.tlog[s.term[n]]|
  {
    var t := s.term[n];
    s.(log := s.log[n := Adopt(s.log[n], s.tlog[t][..m])],
       acc := s.acc[(n, t) := if m > Acc(s, n, t) then m else Acc(s, n, t)])
  }

  ghost predicate CanAccept(s: Proto, n: NodeId, m: nat) {
    && n in s.term && n in s.log
    && s.term[n] in s.tlog && s.term[n] in s.lead && s.lead[s.term[n]] != n
    && m <= |s.tlog[s.term[n]]|
  }

  lemma AcceptExtends(s: Proto, n: NodeId, m: nat)
    requires Domains(s) && AccOk(s) && CanAccept(s, n, m)
    ensures Extends(s, Accept(s, n, m)) && Domains(Accept(s, n, m)) && AccOk(Accept(s, n, m))
  {
  }

  lemma AcceptLogs(s: Proto, n: NodeId, m: nat)
    requires Domains(s) && NodeLogs(s) && TermLogs(s) && CanAccept(s, n, m)
    requires Extends(s, Accept(s, n, m)) && Domains(Accept(s, n, m))
    ensures NodeLogs(Accept(s, n, m))
  {
    var s' := Accept(s, n, m);
    var t := s.term[n];
    PrefixLogOk(s, s.tlog[t], t, m);
    forall d | d in s'.log ensures LogOk(s', s'.log[d], s'.term[d]) {
      LogOkStable(s, s', s'.log[d], s.term[d]);
    }
  }

  lemma PrefixLogOk(s: Proto, l: Log, bound: nat, m: nat)
    requires LogOk(s, l, bound) && m <= |l|
    ensures LogOk(s, l[..m], bound)
  {
    forall i | 0 <= i < m ensures 1 <= l[..m][i].term <= bound && Rooted(s, l[..m], i) {
      assert Rooted(s, l, i);
      assert l[..m][..i + 1] == l[..i + 1];
    }
  }

  lemma AcceptLead(s: Proto, n: NodeId, m: nat)
    requires Domains(s) && LeadOk(s) && LeaderHolds(s) && CanAccept(s, n, m)
    requires Extends(s, Accept(s, n, m)) && Domains(Accept(s, n, m))
    ensures LeadOk(Accept(s, n, m)) && LeaderHolds(Accept(s, n, m))
  {
    var s' := Accept(s, n, m);
    KeptLead(s, s');
    forall t | t in s'.lead ensures HoldsOwn(s', t) {
      assert HoldsOwn(s, t);
    }
  }

  /** Adopting a prefix of the leader's log loses nothing that both logs hold. */
  lemma AdoptKeeps(l: Log, g: Log, m: nat, p: Log)
    requires m <= |g| && p <= l && p <= g
    ensures p <= Adopt(l, g[..m])
  {
    if m < |p| {
      assert g[..m] == p[..m] == l[..m];
    }
  }

  lemma AcceptedSafe(s: Proto, n: NodeId, m: nat, t: nat, k: nat)
    requires Inv(s) && CanAccept(s, n, m)
    requires Own(s, t, k) && k <= Acc(Accept(s, n, m), n, t)
    ensures Safe(s, t, k, Adopt(s.log[n], s.tlog[s.term[n]][..m]))
  {
    var u := s.term[n];
    var g := s.tlog[u];
    if !Dead(s, t, k) {
      var p := s.tlog[t][..k];
      if t < u {
        assert Elected(s, u);
        assert Safe(s, t, k, s.cand[(s.lead[u], u)]);
      }
      assert p <= g;
      if k <= Acc(s, n, t) {
        assert Safe(s, t, k, s.log[n]);
        AdoptKeeps(s.log[n], g, m, p);
      } else {
        assert t == u && k <= m;
        assert p <= g[..m];
      }
    }
  }

  lemma AcceptNodeSafe(s: Proto, n: NodeId, m: nat)
    requires Inv(s) && CanAccept(s, n, m) && Extends(s, Accept(s, n, m))
    ensures NodeSafe(Accept(s, n, m))
  {
    var s' := Accept(s, n, m);
    forall d, t: nat, k: nat | d in s'.log && Own(s', t, k) && k <= Acc(s', d, t)
      ensures Safe(s', t, k, s'.log[d])
    {
      assert Own(s, t, k);
      if d == n {
        AcceptedSafe(s, n, m, t, k);
      }
      SafeStable(s, s', t, k, s'.log[d]);
    }
  }

  lemma AcceptVoteSafe(s: Proto, n: NodeId, m: nat)
    requires VotesOk(s) && VoteSafe(s) && CanAccept(s, n, m) && Extends(s, Accept(s, n, m))
    ensures VoteSafe(Accept(s, n, m))
  {
    var s' := Accept(s, n, m);
    forall d, u: nat, v: nat, k: nat |
      (d, u) in s'.votes && (s'.votes[(d, u)], u) in s'.cand && v < u && Own(s', v, k) && k <= Acc(s', d, v)
      ensures Safe(s', v, k, s'.cand[(s'.votes[(d, u)], u)])
    {
      assert u <= s.term[d];
      assert Own(s, v, k) && Acc(s', d, v) == Acc(s, d, v);
      KeptVoteSafe(s, s', d, u, v, k);
    }
  }

  lemma AcceptKeeps(s: Proto, n: NodeId, m: nat)
    requires Inv(s) && CanAccept(s, n, m)
    ensures Inv(Accept(s, n, m)) && Extends(s, Accept(s, n, m))
  {
    var s' := Accept(s, n, m);
    AcceptExtends(s, n, m);
    AcceptLogs(s, n, m);
    KeptTermLogs(s, s');
    KeptCandLogs(s, s');
    KeptVotes(s, s');
    AcceptLead(s, n, m);
    AcceptNodeSafe(s, n, m);
    AcceptVoteSafe(s, n, m);
    KeptLeadSafe(s, s');
  }

  // ---------------------------------------------------------------- bookkeeping

  /** Whether acknowledgements are credited soundly is no part of the protocol's own invariant. */
  lemma Unacked(s: History) returns (s': History)
    ensures s' == s.(acked := false)
  {
    UnackedIsHistory(s, s.(acked := false));
    s' := s.(acked := false);
  }

  lemma UnackedIsHistory(s: History, u: Proto)
    requires u == s.(acked := false)
    ensures Inv(u)
  {
    KeptTermLogs(s, u);
    KeptCandLogs(s, u);
    KeptVotes(s, u);
    KeptAcc(s, u);
    KeptByElections(s, u);
    AdvVoteSafe(s, u);
  }
}
