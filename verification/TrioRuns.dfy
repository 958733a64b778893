/** A group of three, and the pieces its example runs are put together from. */
module TrioRuns {
  import opened RaftTypes
  import opened NodeSpec
  import opened Cluster
  import LogView

  // ---------------------------------------------------------------- the group

  function Peers(n: NodeId): seq<NodeId> {
    if n == 0 then [1, 2] else if n == 1 then [0, 2] else [0, 1]
  }

  function Member(n: NodeId): Config {
    NodeSpec.Config(n, Peers(n), [], 10, 5)
  }

  lemma TrioIsValid()
    ensures ValidGroup(map[0 := Member(0), 1 := Member(1), 2 := Member(2)])
  {
  }

  function Trio(): Group {
    TrioIsValid();
    map[0 := Member(0), 1 := Member(1), 2 := Member(2)]
  }

  lemma InTrio(n: NodeId)
    requires 0 <= n < 3
    ensures n in Trio() && Trio()[n] == Member(n)
  {
  }

  // ---------------------------------------------------------------- single steps of a member

  lemma TwoOfThree(n: NodeId)
    requires 0 <= n < 3
    ensures ClusterSize(Member(n)) == 3 && !HasMajority(Member(n), 1) && HasMajority(Member(n), 2)
  {
    var ps := Peers(n);
    assert ps[..1][..0] == [] && ps[..2] == ps && ps[..2][..1] == ps[..1];
    assert CountVoters(ps[..1], []) == 1;
  }

  function Ask(n: NodeId, m: NodeId, term: nat, v: LogView.View, pre: bool): Message {
    Message(n, m, RequestVote(term, n, LogView.LastIndex(v), LogView.LastTerm(v), pre))
  }

  function Asking(n: NodeId, term: nat, v: LogView.View, pre: bool): seq<Message> {
    [Ask(n, Peers(n)[0], term, v, pre), Ask(n, Peers(n)[1], term, v, pre)]
  }

  lemma Asks(n: NodeId, x: Node, pre: bool)
    requires 0 <= n < 3 && x.outbox == []
    ensures BroadcastTo(Member(n), x, pre, 2) == x.(outbox := Asking(n, if pre then x.term + 1 else x.term, x.log, pre))
  {
    var y := BroadcastTo(Member(n), x, pre, 1);
    assert BroadcastTo(Member(n), x, pre, 0) == x;
    assert y == x.(outbox := [Asking(n, if pre then x.term + 1 else x.term, x.log, pre)[0]]);
  }

  lemma Awakes(n: NodeId, x: Node, now: int)
    requires !x.started
    ensures Tick(Member(n), x, now - 100, 100) == x.(started := true, electionDeadline := now)
  {
  }

  /** A tick past the deadline starts the pre-election. */
  function Probes(n: NodeId, x: Node, now: int): Node {
    x.(role := PreCandidate, leader := None, votes := {n}, electionDeadline := now + 100,
       outbox := Asking(n, x.term + 1, x.log, true))
  }

  lemma TickProbes(n: NodeId, x: Node, now: int)
    requires 0 <= n < 3 && x.outbox == [] && x.started && x.role == Follower && x.electionDeadline <= now
    ensures Tick(Member(n), x, now, 100) == Probes(n, x, now)
  {
    TwoOfThree(n);
    Asks(n, Probing(Member(n), x, now, 100), true);
  }

  function Stands(n: NodeId, x: Node, now: int): Node {
    x.(role := Candidate, term := x.term + 1, votedFor := Some(n), dirty := true, leader := None, votes := {n},
       electionDeadline := now + 100, outbox := Asking(n, x.term + 1, x.log, false))
  }

  lemma PreVoteCounts(n: NodeId, x: Node, m: NodeId, now: int)
    requires 0 <= n < 3 && m != n && x.outbox == [] && x.role == PreCandidate && x.votes == {n}
    ensures OnRequestVoteReply(Member(n), x, now, 100, m, RequestVoteReply(x.term, true)) == Stands(n, x, now)
  {
    TwoOfThree(n);
    var y := x.(votes := {n} + {m});
    assert |y.votes| == 2;
    Asks(n, Standing(Member(n), y, now, 100), false);
  }

  /** The empty request a leader sends to a peer that has its whole log. */
  function Beat(n: NodeId, x: Node, p: NodeId): Message {
    Message(n, p, AppendEntries(x.term, n, LogView.LastIndex(x.log), LogView.LastTerm(x.log), [], x.commit, x.epoch))
  }

  /** A new leader sends everyone an empty request at the end of its log. */
  function Leads(n: NodeId, x: Node, now: int): Node {
    var y := Crowned(Member(n), x, now);
    y.(outbox := [Beat(n, y, Peers(n)[0]), Beat(n, y, Peers(n)[1])],
       lastSent := map[Peers(n)[0] := LogView.LastIndex(x.log), Peers(n)[1] := LogView.LastIndex(x.log)])
  }

  lemma Beats(n: NodeId, x: Node, p: NodeId)
    requires x.log.snap == 0 && NextIndex(x, p) == LogView.LastIndex(x.log) + 1
    ensures ReplicateTo(Member(n), x, p)
         == x.(lastSent := x.lastSent[p := LogView.LastIndex(x.log)], outbox := x.outbox + [Beat(n, x, p)])
  {
  }

  lemma VoteCounts(n: NodeId, x: Node, m: NodeId, now: int)
    requires 0 <= n < 3 && m != n && x.outbox == [] && x.log.snap == 0 && x.role == Candidate && x.votes == {n}
    ensures OnRequestVoteReply(Member(n), x, now, 100, m, RequestVoteReply(x.term, true))
         == Leads(n, x.(votes := {n, m}), now)
  {
    TwoOfThree(n);
    var y := x.(votes := {n} + {m});
    assert |y.votes| == 2 && y.votes == {n, m};
    FirstBeats(n, y, now);
  }

  lemma FirstBeats(n: NodeId, x: Node, now: int)
    requires 0 <= n < 3 && x.outbox == [] && x.log.snap == 0
    ensures BecomeLeader(Member(n), x, now) == Leads(n, x, now)
  {
    var z := Crowned(Member(n), x, now);
    var ps, l := Peers(n), LogView.LastIndex(x.log);
    assert ReplicateFirst(Member(n), z, 0) == z;
    Beats(n, z, ps[0]);
    var z1 := ReplicateFirst(Member(n), z, 1);
    assert z1 == ReplicateTo(Member(n), z, ps[0]);
    Beats(n, z1, ps[1]);
    assert ReplicateFirst(Member(n), z, 2) == ReplicateTo(Member(n), z1, ps[1]);
    assert z.lastSent[ps[0] := l][ps[1] := l] == map[ps[0] := l, ps[1] := l];
  }

  // ---------------------------------------------------------------- extending a run

  function Last(cs: seq<Cluster>): Cluster
    requires cs != []
  {
    cs[|cs| - 1]
  }

  lemma Extend(g: Group, cs: seq<Cluster>, es: seq<Event>, e: Event)
    requires Run(g, cs, es) && Enabled(g, Last(cs), e)
    ensures Run(g, cs + [Next(g, Last(cs), e)], es + [e])
  {
    var cs', es' := cs + [Next(g, Last(cs), e)], es + [e];
    forall i | 0 <= i < |es'|
      ensures Enabled(g, cs'[i], es'[i]) && cs'[i + 1] == Next(g, cs'[i], es'[i])
    {
      if i < |es| {
        assert Enabled(g, cs[i], es[i]) && cs[i + 1] == Next(g, cs[i], es[i]);
      }
    }
  }

  /** Member `n` is in state `x`. */
  predicate At(c: Cluster, n: NodeId, x: Node) {
    n in c.nodes && n in c.disk && c.nodes[n] == x
  }

  lemma Moves(g: Group, c: Cluster, e: Event)
    requires Enabled(g, c, e)
    ensures var c' := Next(g, c, e);
            && c'.nodes == c.nodes[Actor(e) := After(g, c, e)]
            && c'.disk == (if e.EFlush? then c.disk[e.n := (After(g, c, e).term, After(g, c, e).votedFor)] else c.disk)
            && c'.net == c.net + Emitted(g, c, e)
  {
  }

  ghost predicate VotesKept(cs: seq<Cluster>, es: seq<Event>) {
    |es| < |cs| && forall i | 0 <= i < |es| :: VoteKindKept(cs[i], es[i])
  }

  ghost predicate AcksLatest(cs: seq<Cluster>, es: seq<Event>) {
    |es| < |cs| && forall i | 0 <= i < |es| :: AckIsLatest(cs[i], es[i])
  }

  predicate NoRestarts(es: seq<Event>) {
    forall i | 0 <= i < |es| :: !es[i].ERestart?
  }

  predicate NoFull(es: seq<Event>) {
    forall i | 0 <= i < |es| :: es[i].EDeliver? ==> !IsFull(es[i].p.msg.payload)
  }

  /** A later stage of the same run: nothing sent is lost, and what its events owed so far they still do. */
  ghost predicate Onward(g: Group, cs: seq<Cluster>, es: seq<Event>, cs': seq<Cluster>, es': seq<Event>) {
    && Run(g, cs, es) && Run(g, cs', es') && cs <= cs'
    && Last(cs).net <= Last(cs').net
    && (VotesKept(cs, es) ==> VotesKept(cs', es'))
    && (AcksLatest(cs, es) ==> AcksLatest(cs', es'))
    && (NoRestarts(es) ==> NoRestarts(es'))
    && (NoFull(es) ==> NoFull(es'))
  }

  lemma OnwardTrans(g: Group, cs: seq<Cluster>, es: seq<Event>, cs1: seq<Cluster>, es1: seq<Event>,
                    cs2: seq<Cluster>, es2: seq<Event>)
    requires Onward(g, cs, es, cs1, es1) && Onward(g, cs1, es1, cs2, es2)
    ensures Onward(g, cs, es, cs2, es2)
  {
  }

  /** Members other than `n` and their disks are as they were. */
  ghost predicate OthersStay(c: Cluster, c': Cluster, n: NodeId) {
    && (forall m, y | m != n && At(c, m, y) :: At(c', m, y))
    && (forall m | m != n && m in c.disk :: m in c'.disk && c'.disk[m] == c.disk[m])
  }

  lemma OneMoved(c: Cluster, c': Cluster, m: NodeId, w: Node, d: (nat, Option<NodeId>))
    requires c'.nodes == c.nodes[m := w] && (c'.disk == c.disk || c'.disk == c.disk[m := d])
    ensures OthersStay(c, c', m)
  {
  }

  lemma ExtendVotes(cs: seq<Cluster>, es: seq<Event>, c: Cluster, e: Event)
    requires |cs| == |es| + 1 && VotesKept(cs, es) && VoteKindKept(Last(cs), e)
    ensures VotesKept(cs + [c], es + [e])
  {
    var cs', es' := cs + [c], es + [e];
    forall i | 0 <= i < |es'| ensures VoteKindKept(cs'[i], es'[i]) {
      if i < |es| {
        assert VoteKindKept(cs[i], es[i]);
      }
    }
  }

  lemma ExtendAcks(cs: seq<Cluster>, es: seq<Event>, c: Cluster, e: Event)
    requires |cs| == |es| + 1 && AcksLatest(cs, es) && AckIsLatest(Last(cs), e)
    ensures AcksLatest(cs + [c], es + [e])
  {
    var cs', es' := cs + [c], es + [e];
    forall i | 0 <= i < |es'| ensures AckIsLatest(cs'[i], es'[i]) {
      if i < |es| {
        assert AckIsLatest(cs[i], es[i]);
      }
    }
  }

  /** One more event, after which its actor is in state `w` and the others are where they were. */
  lemma Step(g: Group, cs: seq<Cluster>, es: seq<Event>, e: Event, w: Node) returns (cs': seq<Cluster>, es': seq<Event>)
    requires Run(g, cs, es) && Enabled(g, Last(cs), e) && After(g, Last(cs), e) == w
    ensures cs' == cs + [Next(g, Last(cs), e)] && es' == es + [e] && Run(g, cs', es')
    ensures VotesKept(cs, es) && VoteKindKept(Last(cs), e) ==> VotesKept(cs', es')
    ensures AcksLatest(cs, es) && AckIsLatest(Last(cs), e) ==> AcksLatest(cs', es')
    ensures At(Last(cs'), Actor(e), w) && OthersStay(Last(cs), Last(cs'), Actor(e))
    ensures Last(cs').net == Last(cs).net + Emitted(g, Last(cs), e)
    ensures !e.EFlush? ==> Last(cs').disk == Last(cs).disk
  {
    var c := Next(g, Last(cs), e);
    Moves(g, Last(cs), e);
    Extend(g, cs, es, e);
    if VotesKept(cs, es) && VoteKindKept(Last(cs), e) {
      ExtendVotes(cs, es, c, e);
    }
    if AcksLatest(cs, es) && AckIsLatest(Last(cs), e) {
      ExtendAcks(cs, es, c, e);
    }
    cs', es' := cs + [c], es + [e];
    OneMoved(Last(cs), Last(cs'), Actor(e), w, (w.term, w.votedFor));
  }

  // ---------------------------------------------------------------- stages of a run

  lemma TickStep(g: Group, cs: seq<Cluster>, es: seq<Event>, n: NodeId, x: Node, now: int, y: Node)
    returns (cs': seq<Cluster>, es': seq<Event>)
    requires Run(g, cs, es) && n in g && At(Last(cs), n, x) && Tick(g[n], x, now, 100) == y
    ensures Onward(g, cs, es, cs', es') && At(Last(cs'), n, y) && OthersStay(Last(cs), Last(cs'), n)
  {
    cs', es' := Step(g, cs, es, ETick(n, now, 100), y);
  }

  lemma ProposeStep(g: Group, cs: seq<Cluster>, es: seq<Event>, n: NodeId, x: Node, b: Batch, y: Node)
    returns (cs': seq<Cluster>, es': seq<Event>)
    requires Run(g, cs, es) && n in g && At(Last(cs), n, x) && Propose(g[n], x, b) == Some(y)
    ensures Onward(g, cs, es, cs', es') && At(Last(cs'), n, y) && OthersStay(Last(cs), Last(cs'), n)
  {
    cs', es' := Step(g, cs, es, EPropose(n, b), y);
  }

  lemma FlushStep(g: Group, cs: seq<Cluster>, es: seq<Event>, n: NodeId, x: Node)
    returns (cs': seq<Cluster>, es': seq<Event>)
    requires Run(g, cs, es) && n in g && At(Last(cs), n, x)
    ensures Onward(g, cs, es, cs', es') && At(Last(cs'), n, Flushed(x)) && OthersStay(Last(cs), Last(cs'), n)
    ensures forall q | q in x.outbox :: Packet(q, Plain) in Last(cs').net
  {
    cs', es' := Step(g, cs, es, EFlush(n), Flushed(x));
  }

  /** Delivering `p` takes its receiver from `x` to `y`; `r` is the reply, if any. */
  predicate Takes(g: Group, x: Node, p: Packet, now: int, y: Node, r: Option<Packet>) {
    p.msg.to in g && Handle(g[p.msg.to], x, p, now, 100) == (y, r)
  }

  lemma DeliverStep(g: Group, cs: seq<Cluster>, es: seq<Event>, p: Packet, x: Node, now: int, y: Node,
                    r: Option<Packet>)
    returns (cs': seq<Cluster>, es': seq<Event>)
    requires Run(g, cs, es) && At(Last(cs), p.msg.to, x) && p in Last(cs).net && Takes(g, x, p, now, y, r)
    ensures Run(g, cs', es') && cs <= cs' && |cs'| == |cs| + 1 && Last(cs).net <= Last(cs').net
    ensures NoRestarts(es) ==> NoRestarts(es')
    ensures NoFull(es) && !IsFull(p.msg.payload) ==> NoFull(es')
    ensures VotesKept(cs, es) && VoteKindKept(Last(cs), EDeliver(p, now, 100)) ==> VotesKept(cs', es')
    ensures AcksLatest(cs, es) && AckIsLatest(Last(cs), EDeliver(p, now, 100)) ==> AcksLatest(cs', es')
    ensures At(Last(cs'), p.msg.to, y) && OthersStay(Last(cs), Last(cs'), p.msg.to) && Last(cs').disk == Last(cs).disk
    ensures r.Some? ==> r.value in Last(cs').net
  {
    cs', es' := Step(g, cs, es, EDeliver(p, now, 100), y);
  }

  /** A delivery the safety results allow: no full request, no late pre-vote, no old acknowledgement. */
  predicate IsOrdinary(x: Node, p: Packet) {
    && !IsFull(p.msg.payload)
    && (p.msg.payload.RequestVoteReply? && p.tag == AnswersPreVote ==> x.role != Candidate)
    && ((p.msg.payload.AppendEntriesReply? && p.msg.payload.success) || p.msg.payload.InstallSnapshotReply? ==>
          p.tag.Answers? && LastSent(x, p.msg.from) <= p.tag.upTo)
  }

  lemma OrdinaryStep(g: Group, cs: seq<Cluster>, es: seq<Event>, p: Packet, x: Node, now: int, y: Node,
                     r: Option<Packet>)
    returns (cs': seq<Cluster>, es': seq<Event>)
    requires Run(g, cs, es) && At(Last(cs), p.msg.to, x) && p in Last(cs).net && Takes(g, x, p, now, y, r)
    requires IsOrdinary(x, p)
    ensures Onward(g, cs, es, cs', es') && Last(cs').disk == Last(cs).disk
    ensures At(Last(cs'), p.msg.to, y) && OthersStay(Last(cs), Last(cs'), p.msg.to)
    ensures r.Some? ==> r.value in Last(cs').net
  {
    cs', es' := DeliverStep(g, cs, es, p, x, now, y, r);
  }
}
