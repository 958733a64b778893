/**
  Why the runs of `Safety` are restricted as they are. In a group of three: a late pre-vote reply that
  is counted as a vote elects two leaders of one term, so does a restart that forgets a vote, and an old
  acknowledgement that is credited to a newer request commits an entry that the next leader lacks.
 */
module NeededAssumptions {
  import opened RaftTypes
  import opened NodeSpec
  import opened Cluster
  import opened ClusterSteps
  import opened Safety
  import opened TrioRuns
  import opened TrioElections
  import opened TrioReplication
  import LogView

  const NO_LOG: LogView.View := LogView.RawView([], 0, 0)

  function Woken(x: Node, now: int): Node {
    x.(started := true, electionDeadline := now)
  }

  lemma Begin() returns (cs: seq<Cluster>, es: seq<Event>)
    ensures Run(Trio(), cs, es) && VotesKept(cs, es) && AcksLatest(cs, es) && NoRestarts(es) && NoFull(es)
    ensures At(Last(cs), 0, FRESH) && At(Last(cs), 1, FRESH) && At(Last(cs), 2, FRESH) && Last(cs).disk[2] == (0, None)
  {
    cs, es := [Init(Trio())], [];
  }

  // ---------------------------------------------------------------- two leaders in one term

  /** Nobody restarts and no old acknowledgement is credited. */
  ghost predicate Plainly(cs: seq<Cluster>, es: seq<Event>) {
    NoRestarts(es) && AcksLatest(cs, es)
  }

  /** A vote request or a vote reply is delivered, whatever it answers. */
  lemma BallotStep(g: Group, cs: seq<Cluster>, es: seq<Event>, p: Packet, x: Node, y: Node, r: Option<Packet>)
    returns (cs': seq<Cluster>, es': seq<Event>)
    requires Run(g, cs, es) && Plainly(cs, es) && At(Last(cs), p.msg.to, x) && p in Last(cs).net
    requires Takes(g, x, p, 100, y, r) && (p.msg.payload.RequestVote? || p.msg.payload.RequestVoteReply?)
    ensures Run(g, cs', es') && Plainly(cs', es') && Last(cs).net <= Last(cs').net
    ensures At(Last(cs'), p.msg.to, y) && OthersStay(Last(cs), Last(cs'), p.msg.to)
    ensures r.Some? ==> r.value in Last(cs').net
  {
    cs', es' := DeliverStep(g, cs, es, p, x, 100, y, r);
  }

  /** Two rivals each deliver the other one packet and each answer it. */
  lemma Exchange(g: Group, cs: seq<Cluster>, es: seq<Event>, a: NodeId, b: NodeId, x: Node, y: Node,
                 toA: Packet, toB: Packet, forA: Packet, forB: Packet)
    returns (cs': seq<Cluster>, es': seq<Event>)
    requires Run(g, cs, es) && Plainly(cs, es) && a != b && At(Last(cs), a, x) && At(Last(cs), b, y)
    requires toA in Last(cs).net && toB in Last(cs).net && toA.msg.to == a && toB.msg.to == b
    requires toA.msg.payload.RequestVote? && toB.msg.payload.RequestVote?
    requires Takes(g, y, toB, 100, y, Some(forA)) && Takes(g, x, toA, 100, x, Some(forB))
    ensures Run(g, cs', es') && Plainly(cs', es') && Last(cs).net <= Last(cs').net
    ensures At(Last(cs'), a, x) && At(Last(cs'), b, y) && forA in Last(cs').net && forB in Last(cs').net
  {
    var cs1, es1 := BallotStep(g, cs, es, toB, y, y, Some(forA));
    cs', es' := BallotStep(g, cs1, es1, toA, x, x, Some(forB));
  }

  lemma Promote(g: Group, cs: seq<Cluster>, es: seq<Event>, a: NodeId, b: NodeId, x: Node, y: Node,
                forA: Packet, forB: Packet, x': Node, y': Node)
    returns (cs': seq<Cluster>, es': seq<Event>)
    requires Run(g, cs, es) && Plainly(cs, es) && a != b && At(Last(cs), a, x) && At(Last(cs), b, y)
    requires forA in Last(cs).net && forB in Last(cs).net && forA.msg.to == a && forB.msg.to == b
    requires forA.msg.payload.RequestVoteReply? && forB.msg.payload.RequestVoteReply?
    requires Takes(g, x, forA, 100, x', None) && Takes(g, y, forB, 100, y', None)
    ensures Run(g, cs', es') && Plainly(cs', es') && Last(cs).net <= Last(cs').net
    ensures At(Last(cs'), a, x') && At(Last(cs'), b, y')
  {
    var cs1, es1 := BallotStep(g, cs, es, forA, x, x', None);
    cs', es' := BallotStep(g, cs1, es1, forB, y, y', None);
  }

  predicate Starts(g: Group, x: Node, a: Rival, ask: Packet) {
    a.id in g && Tick(g[a.id], x, 100, 100) == a.probing && ask.tag == Plain && ask.msg in a.probing.outbox
  }

  /** Rival `a` stands with `pre` and wins with `late`, both of which answer its pre-vote request `ask`. */
  predicate Wins(g: Group, a: Rival, b: Rival, ask: Packet, pre: Packet, late: Packet) {
    && ask.msg.to == b.id && pre.msg.to == a.id && late.msg.to == a.id
    && ask.msg.payload.RequestVote? && pre.msg.payload.RequestVoteReply? && late.msg.payload.RequestVoteReply?
    && Takes(g, Flushed(b.probing), ask, 100, Flushed(b.probing), Some(pre))
    && Takes(g, Flushed(a.probing), pre, 100, a.standing, None)
    && Takes(g, Flushed(b.standing), ask, 100, Flushed(b.standing), Some(late))
    && Takes(g, Flushed(a.standing), late, 100, a.leading, None)
  }

  lemma BothStand(g: Group, cs: seq<Cluster>, es: seq<Event>, x: Node, a: Rival, b: Rival,
                  askA: Packet, preA: Packet, lateA: Packet, askB: Packet, preB: Packet, lateB: Packet)
    returns (cs': seq<Cluster>, es': seq<Event>)
    requires Run(g, cs, es) && Plainly(cs, es) && At(Last(cs), a.id, x) && At(Last(cs), b.id, x) && a.id != b.id
    requires Starts(g, x, a, askA) && Wins(g, a, b, askA, preA, lateA)
    requires Starts(g, x, b, askB) && Wins(g, b, a, askB, preB, lateB)
    ensures Run(g, cs', es') && Plainly(cs', es') && askA in Last(cs').net && askB in Last(cs').net
    ensures At(Last(cs'), a.id, Flushed(a.standing)) && At(Last(cs'), b.id, Flushed(b.standing))
  {
    cs', es' := Canvass(g, cs, es, a.id, x, a.probing, 100, askA.msg);
    cs', es' := Canvass(g, cs', es', b.id, x, b.probing, 100, askB.msg);
    cs', es' := Exchange(g, cs', es', a.id, b.id, Flushed(a.probing), Flushed(b.probing), askB, askA, preA, preB);
    cs', es' := Promote(g, cs', es', a.id, b.id, Flushed(a.probing), Flushed(b.probing), preA, preB,
                        a.standing, b.standing);
    cs', es' := FlushStep(g, cs', es', a.id, a.standing);
    cs', es' := FlushStep(g, cs', es', b.id, b.standing);
  }

  lemma BothLead(g: Group, cs: seq<Cluster>, es: seq<Event>, x: Node, a: Rival, b: Rival,
                 askA: Packet, preA: Packet, lateA: Packet, askB: Packet, preB: Packet, lateB: Packet)
    returns (cs': seq<Cluster>, es': seq<Event>)
    requires Run(g, cs, es) && Plainly(cs, es) && At(Last(cs), a.id, x) && At(Last(cs), b.id, x) && a.id != b.id
    requires Starts(g, x, a, askA) && Wins(g, a, b, askA, preA, lateA)
    requires Starts(g, x, b, askB) && Wins(g, b, a, askB, preB, lateB)
    ensures Run(g, cs', es') && Plainly(cs', es') && At(Last(cs'), a.id, a.leading) && At(Last(cs'), b.id, b.leading)
  {
    cs', es' := BothStand(g, cs, es, x, a, b, askA, preA, lateA, askB, preB, lateB);
    cs', es' := Exchange(g, cs', es', a.id, b.id, Flushed(a.standing), Flushed(b.standing), askB, askA, lateA, lateB);
    cs', es' := Promote(g, cs', es', a.id, b.id, Flushed(a.standing), Flushed(b.standing), lateA, lateB,
                        a.leading, b.leading);
  }

  predicate Poised(x: Node) {
    Ready(x, 100) && x.log == NO_LOG && x.leaderContact <= 90
  }

  lemma RivalStarts(n: NodeId, x: Node, k: nat, m: NodeId, term: nat)
    requires 0 <= n < 3 && k < 2 && Peers(n)[k] == m && Poised(x) && x.term == term
    ensures Starts(Trio(), x, RivalFrom(n, x, m, 100), AskPacket(n, m, term + 1, NO_LOG, true))
  {
    RivalTicks(n, x, m, 100);
    RivalAsks(n, x, k, m, term + 1, NO_LOG, 100);
  }

  lemma RivalStands(n: NodeId, x: Node, m: NodeId, term: nat)
    requires 0 <= n < 3 && 0 <= m < 3 && m != n && Poised(x) && x.term == term
    ensures var a, b := RivalFrom(n, x, m, 100), RivalFrom(m, x, n, 100);
            && Takes(Trio(), Flushed(b.probing), AskPacket(n, m, term + 1, NO_LOG, true), 100, Flushed(b.probing),
                     Some(Granted(n, m, term, AnswersPreVote)))
            && Takes(Trio(), Flushed(a.probing), Granted(n, m, term, AnswersPreVote), 100, a.standing, None)
  {
    TakesProbe(n, m, Flushed(RivalFrom(m, x, n, 100).probing), term + 1, NO_LOG, 100);
    TakesPreVote(n, m, Flushed(RivalFrom(n, x, m, 100).probing), 100);
  }

  lemma StandingIs(n: NodeId, x: Node, m: NodeId)
    ensures var z := Flushed(RivalFrom(n, x, m, 100).standing);
            z.term == x.term + 1 && z.role == Candidate && z.leaderContact == x.leaderContact && z.log == x.log
  {
  }

  lemma CandidateAnswers(n: NodeId, m: NodeId, x: Node, term: nat)
    requires 0 <= m < 3 && Poised(x) && x.term + 1 == term
    ensures var z := Flushed(RivalFrom(m, x, n, 100).standing);
            Takes(Trio(), z, AskPacket(n, m, term, NO_LOG, true), 100, z, Some(Granted(n, m, term, AnswersPreVote)))
  {
    StandingIs(m, x, n);
    TakesProbe(n, m, Flushed(RivalFrom(m, x, n, 100).standing), term, NO_LOG, 100);
  }

  lemma RivalWins(n: NodeId, x: Node, m: NodeId, term: nat)
    requires 0 <= n < 3 && 0 <= m < 3 && m != n && Poised(x) && x.term == term
    ensures Wins(Trio(), RivalFrom(n, x, m, 100), RivalFrom(m, x, n, 100), AskPacket(n, m, term + 1, NO_LOG, true),
                 Granted(n, m, term, AnswersPreVote), Granted(n, m, term + 1, AnswersPreVote))
  {
    RivalStands(n, x, m, term);
    CandidateAnswers(n, m, x, term + 1);
    ReplyElects(n, x, m, term + 1, AnswersPreVote, 100);
  }

  /** The same for either of two rivals, `n` being 0 or 1. */
  lemma RivalWinsOver(n: NodeId, m: NodeId, x: Node, term: nat, a: Rival, b: Rival, ask: Packet)
    requires 0 <= n < 2 && m == 1 - n && Poised(x) && x.term == term
    requires a == RivalFrom(n, x, m, 100) && b == RivalFrom(m, x, n, 100) && ask == AskPacket(n, m, term + 1, NO_LOG, true)
    ensures Starts(Trio(), x, a, ask)
    ensures Wins(Trio(), a, b, ask, Granted(n, m, term, AnswersPreVote), Granted(n, m, term + 1, AnswersPreVote))
  {
    RivalStarts(n, x, 0, m, term);
    RivalWins(n, x, m, term);
  }

  lemma RivalsLead(cs: seq<Cluster>, es: seq<Event>, x: Node, term: nat)
    returns (cs': seq<Cluster>, es': seq<Event>)
    requires Run(Trio(), cs, es) && Plainly(cs, es) && At(Last(cs), 0, x) && At(Last(cs), 1, x)
    requires Poised(x) && term == x.term
    ensures Run(Trio(), cs', es') && Plainly(cs', es')
    ensures At(Last(cs'), 0, RivalFrom(0, x, 1, 100).leading) && At(Last(cs'), 1, RivalFrom(1, x, 0, 100).leading)
  {
    var a, b := RivalFrom(0, x, 1, 100), RivalFrom(1, x, 0, 100);
    var askA, askB := AskPacket(0, 1, term + 1, NO_LOG, true), AskPacket(1, 0, term + 1, NO_LOG, true);
    RivalWinsOver(0, 1, x, term, a, b, askA);
    RivalWinsOver(1, 0, x, term, b, a, askB);
    cs', es' := BothLead(Trio(), cs, es, x, a, b,
                         askA, Granted(0, 1, term, AnswersPreVote), Granted(0, 1, term + 1, AnswersPreVote),
                         askB, Granted(1, 0, term, AnswersPreVote), Granted(1, 0, term + 1, AnswersPreVote));
  }

  lemma BothAwake() returns (cs: seq<Cluster>, es: seq<Event>)
    ensures Run(Trio(), cs, es) && VotesKept(cs, es) && AcksLatest(cs, es) && NoRestarts(es)
    ensures At(Last(cs), 0, Woken(FRESH, 100)) && At(Last(cs), 1, Woken(FRESH, 100))
    ensures At(Last(cs), 2, FRESH) && Last(cs).disk[2] == (0, None)
  {
    cs, es := Begin();
    cs, es := Wake(cs, es, 0, FRESH, 100);
    cs, es := Wake(cs, es, 1, FRESH, 100);
  }

  /**
    Without `VoteKindKept` election safety is false: in a group of three, where nothing is lost and
    nobody restarts, a duplicated pre-vote reply elects two leaders of term 1.
   */
  lemma TwoLeadersOfOneTerm() returns (cs: seq<Cluster>, es: seq<Event>)
    ensures Run(Trio(), cs, es) && NoRestarts(es) && AcksLatest(cs, es)
    ensures IsLeader(Last(cs), 0) && IsLeader(Last(cs), 1) && Last(cs).nodes[0].term == Last(cs).nodes[1].term == 1
  {
    cs, es := BothAwake();
    cs, es := RivalsLead(cs, es, Woken(FRESH, 100), 0);
  }

  // ---------------------------------------------------------------- a forgotten vote

  /** Member `n` is built again from its disk, whatever it had not saved. */
  lemma RestartStep(cs: seq<Cluster>, es: seq<Event>, n: NodeId, x: Node)
    returns (cs': seq<Cluster>, es': seq<Event>)
    requires Run(Trio(), cs, es) && n in Trio() && At(Last(cs), n, x)
    ensures Run(Trio(), cs', es') && OthersStay(Last(cs), Last(cs'), n)
    ensures VotesKept(cs, es) ==> VotesKept(cs', es')
    ensures AcksLatest(cs, es) ==> AcksLatest(cs', es')
    ensures At(Last(cs'), n, Restarted(x, Last(cs).disk[n].0, Last(cs).disk[n].1))
  {
    cs', es' := Step(Trio(), cs, es, ERestart(n), Restarted(x, Last(cs).disk[n].0, Last(cs).disk[n].1));
  }

  lemma ForgetsVote(n: NodeId)
    ensures Restarted(Voted(FRESH, n, 1, 100), 0, None) == FRESH
  {
  }

  /**
    Without `RestartsClean` election safety is false even if all else holds: node 2 votes for node 0,
    restarts before the vote is saved, and votes for node 1 in the same term.
   */
  lemma ForgottenVoteElectsTwo() returns (cs: seq<Cluster>, es: seq<Event>)
    ensures Run(Trio(), cs, es) && VotesKept(cs, es) && AcksLatest(cs, es)
    ensures IsLeader(Last(cs), 0) && IsLeader(Last(cs), 1) && Last(cs).nodes[0].term == Last(cs).nodes[1].term == 1
  {
    cs, es := BothAwake();
    cs, es := TrioElects(cs, es, 0, Woken(FRESH, 100), 1, 2, FRESH, 100);
    InTrio(2);
    cs, es := RestartStep(cs, es, 2, Voted(FRESH, 0, 1, 100));
    ForgetsVote(0);
    cs, es := TrioElects(cs, es, 1, Woken(FRESH, 100), 1, 2, FRESH, 100);
  }

  // ---------------------------------------------------------------- a committed entry that is lost

  /** The leader's first, empty requests reach both followers; the reply of `m` to it is under way. */
  lemma Greets(g: Group, cs: seq<Cluster>, es: seq<Event>, n: NodeId, x: Node, m: NodeId, y: Node, y': Node,
               k: NodeId, z: Node, z': Node, beatM: Packet, beatK: Packet, ackM: Packet, ackK: Packet)
    returns (cs': seq<Cluster>, es': seq<Event>)
    requires Run(g, cs, es) && n in g && n != m && m != k && k != n
    requires At(Last(cs), n, x) && At(Last(cs), m, y) && At(Last(cs), k, z)
    requires beatM.msg in x.outbox && beatK.msg in x.outbox && beatM.tag == beatK.tag == Plain
    requires beatM.msg.to == m && beatK.msg.to == k && beatM.msg.payload.AppendEntries? && beatK.msg.payload.AppendEntries?
    requires beatM.msg.payload.entries == beatK.msg.payload.entries == []
    requires Takes(g, y, beatM, 100, y', Some(ackM)) && Takes(g, z, beatK, 100, z', Some(ackK))
    ensures Onward(g, cs, es, cs', es') && ackM in Last(cs').net
    ensures At(Last(cs'), n, Flushed(x)) && At(Last(cs'), m, y') && At(Last(cs'), k, z')
  {
    var cs1, es1 := FlushStep(g, cs, es, n, x);
    var cs2, es2 := OrdinaryStep(g, cs1, es1, beatM, y, 100, y', Some(ackM));
    cs', es' := OrdinaryStep(g, cs2, es2, beatK, z, 100, z', Some(ackK));
    OnwardTrans(g, cs, es, cs1, es1, cs2, es2);
    OnwardTrans(g, cs, es, cs2, es2, cs', es');
  }

  lemma BeforeLast(cs: seq<Cluster>, cs': seq<Cluster>, n: NodeId, x: Node)
    requires cs != [] && cs <= cs' && |cs'| == |cs| + 1 && At(Last(cs), n, x)
    ensures At(cs'[|cs'| - 2], n, x)
  {
  }

  /** The leader appends an entry, and then takes the old reply for an acknowledgement of it. */
  lemma Miscounts(g: Group, cs: seq<Cluster>, es: seq<Event>, n: NodeId, x: Node, b: Batch, x': Node, x'': Node,
                  ack: Packet, m: NodeId, y: Node, k: NodeId, z: Node)
    returns (cs': seq<Cluster>, es': seq<Event>)
    requires Run(g, cs, es) && VotesKept(cs, es) && NoRestarts(es) && n in g && n != m && m != k && k != n
    requires At(Last(cs), n, x) && At(Last(cs), m, y) && At(Last(cs), k, z)
    requires ack in Last(cs).net && ack.msg.to == n && ack.tag != AnswersPreVote
    requires Propose(g[n], x, b) == Some(x') && Takes(g, x', ack, 100, x'', None)
    ensures Run(g, cs', es') && VotesKept(cs', es') && NoRestarts(es')
    ensures At(Last(cs'), n, x'') && At(Last(cs'), m, y) && At(Last(cs'), k, z)
    ensures |cs'| > 1 && At(cs'[|cs'| - 2], n, x')
  {
    var cs1, es1 := ProposeStep(g, cs, es, n, x, b, x');
    cs', es' := DeliverStep(g, cs1, es1, ack, x', 100, x'', None);
    BeforeLast(cs1, cs', n, x');
  }

  lemma FairIsFair(g: Group, cs: seq<Cluster>, es: seq<Event>)
    requires Run(g, cs, es) && VotesKept(cs, es) && NoRestarts(es)
    ensures FairRun(g, cs, es)
  {
    forall i | 0 <= i < |es| ensures Owed(cs[i], es[i]) {
      assert VoteKindKept(cs[i], es[i]) && !es[i].ERestart?;
    }
  }

  // The states of the run.

  const FIRST := RivalFrom(0, Woken(FRESH, 100), 1, 100).leading
  const FOLLOWER_1 := FollowLeader(Voted(FRESH, 0, 1, 100), 100, 100, 1, 0)
  const FOLLOWER_2 := FollowLeader(FRESH, 100, 100, 1, 0)

  lemma FirstBeat(m: NodeId)
    requires m == 1 || m == 2
    ensures Beat(0, FIRST, m) in FIRST.outbox
    ensures Beat(0, FIRST, m).payload == AppendEntries(1, 0, 0, 0, [], 0, 1)
  {
    assert FIRST.outbox[m - 1] == Beat(0, FIRST, m);
  }

  lemma TakesFirstBeat(m: NodeId, y: Node)
    requires (m == 1 || m == 2) && y.term <= 1 && y.log == NO_LOG && y.commit == 0
    ensures Takes(Trio(), y, Packet(Beat(0, FIRST, m), Plain), 100, FollowLeader(y, 100, 100, 1, 0),
                  Some(Ack(0, m, 1, 0)))
  {
    FirstBeat(m);
    var a := AppendEntries(1, 0, 0, 0, [], 0, 1);
    AppendsAll(NO_LOG, []);
    assert LogView.Append(NO_LOG, []) == NO_LOG;
    TakesEntries(0, m, y, a, NO_LOG, 100);
    assert Fed(y, a, NO_LOG, 100) == FollowLeader(y, 100, 100, 1, 0);
  }

  lemma FirstElection() returns (cs: seq<Cluster>, es: seq<Event>)
    ensures Run(Trio(), cs, es) && VotesKept(cs, es) && AcksLatest(cs, es) && NoRestarts(es) && NoFull(es)
    ensures At(Last(cs), 0, FIRST) && At(Last(cs), 1, Voted(FRESH, 0, 1, 100)) && At(Last(cs), 2, FRESH)
  {
    cs, es := Begin();
    cs, es := Wake(cs, es, 0, FRESH, 100);
    cs, es := TrioElects(cs, es, 0, Woken(FRESH, 100), 0, 1, FRESH, 100);
  }

  /** Node 0 leads term 1, both others follow it, and the reply of node 1 to an empty request is out. */
  lemma FirstTerm() returns (cs: seq<Cluster>, es: seq<Event>)
    ensures Run(Trio(), cs, es) && VotesKept(cs, es) && NoRestarts(es) && Ack(0, 1, 1, 0) in Last(cs).net
    ensures At(Last(cs), 0, Flushed(FIRST)) && At(Last(cs), 1, FOLLOWER_1) && At(Last(cs), 2, FOLLOWER_2)
  {
    cs, es := FirstElection();
    FirstBeat(1);
    FirstBeat(2);
    TakesFirstBeat(1, Voted(FRESH, 0, 1, 100));
    TakesFirstBeat(2, FRESH);
    cs, es := Greets(Trio(), cs, es, 0, FIRST, 1, Voted(FRESH, 0, 1, 100), FOLLOWER_1, 2, FRESH, FOLLOWER_2,
                     Packet(Beat(0, FIRST, 1), Plain), Packet(Beat(0, FIRST, 2), Plain),
                     Ack(0, 1, 1, 0), Ack(0, 2, 1, 0));
  }

  lemma FirstProposes(b: Batch) returns (y: Node)
    ensures Propose(Member(0), Flushed(FIRST), b) == Some(y) && Unheard(0, y, 1, 2) && y.term == 1
    ensures y.log.hist == [LogEntry(1, Data, b)] && LastSent(y, 1) == 1
  {
    y := Proposes(0, Flushed(FIRST), 1, 2, b);
    ReachesEnd(0, y, 1);
  }

  /** Node 0 commits index 1, which only it holds. */
  lemma Miscommitted() returns (cs: seq<Cluster>, es: seq<Event>)
    ensures Run(Trio(), cs, es) && VotesKept(cs, es) && NoRestarts(es)
    ensures At(Last(cs), 1, FOLLOWER_1) && At(Last(cs), 2, FOLLOWER_2)
    ensures |cs| > 1 && CommitsAt(cs, |cs| - 2, 0)
    ensures var x := Last(cs).nodes[0]; x.term == 1 && x.commit == 1 && |x.log.hist| == 1
  {
    InTrio(0);
    var b := Batch(1, []);
    var x := FirstProposes(b);
    var y := TakesAck(0, x, 1, 2, 1, 0, 100);
    cs, es := FirstTerm();
    cs, es := Miscounts(Trio(), cs, es, 0, Flushed(FIRST), b, x, y, Ack(0, 1, 1, 0), 1, FOLLOWER_1, 2, FOLLOWER_2);
  }

  lemma SecondTerm(cs: seq<Cluster>, es: seq<Event>) returns (cs': seq<Cluster>, es': seq<Event>)
    requires Run(Trio(), cs, es) && At(Last(cs), 1, FOLLOWER_1) && At(Last(cs), 2, FOLLOWER_2)
    ensures Onward(Trio(), cs, es, cs', es')
    ensures IsLeader(Last(cs'), 1) && Last(cs').nodes[1].term == 2 && LogOf(Last(cs'), 1) == []
  {
    var cs1, es1 := Wake(cs, es, 1, FOLLOWER_1, 200);
    cs', es' := TrioElects(cs1, es1, 1, Woken(FOLLOWER_1, 200), 1, 2, FOLLOWER_2, 200);
    OnwardTrans(Trio(), cs, es, cs1, es1, cs', es');
  }

  lemma StillCommits(cs: seq<Cluster>, cs': seq<Cluster>, i: nat)
    requires cs <= cs' && i + 1 < |cs| && CommitsAt(cs, i, 0)
    ensures CommitsAt(cs', i, 0) && cs'[i + 1] == cs[i + 1]
  {
  }

  /**
    Without `AckIsLatest` leader completeness is false even of a fair run without restarts: node 0
    commits an entry in term 1 and node 1 leads term 2 with an empty log.
   */
  lemma CommittedEntryIsLost() returns (cs: seq<Cluster>, es: seq<Event>, i: nat)
    ensures FairRun(Trio(), cs, es) && NoRestarts(es) && CommitsAt(cs, i, 0)
    ensures IsLeader(Last(cs), 1) && Last(cs).nodes[1].term > cs[i + 1].nodes[0].term
    ensures cs[i + 1].nodes[0].commit == |LogOf(cs[i + 1], 0)| == 1 && LogOf(Last(cs), 1) == []
  {
    var cs1, es1 := Miscommitted();
    i := |cs1| - 2;
    cs, es := SecondTerm(cs1, es1);
    FairIsFair(Trio(), cs, es);
    StillCommits(cs1, cs, i);
  }
}
