/** Elections in a group of three, member by member and as stages of a run. */
module TrioElections {
  import opened RaftTypes
  import opened NodeSpec
  import opened Cluster
  import opened TrioRuns
  import LogView

  // ---------------------------------------------------------------- what the members do

  function AskPacket(n: NodeId, m: NodeId, term: nat, v: LogView.View, pre: bool): Packet {
    Packet(Ask(n, m, term, v, pre), Plain)
  }

  function Granted(n: NodeId, m: NodeId, term: nat, tag: Tag): Packet {
    Packet(Message(m, n, RequestVoteReply(term, true)), tag)
  }

  predicate Backs(y: Node, v: LogView.View) {
    LogIsUpToDate(y, LogView.LastIndex(v), LogView.LastTerm(v))
  }

  /** A pre-vote is granted by whoever has not heard from a leader lately, and changes nothing there. */
  lemma TakesProbe(n: NodeId, m: NodeId, y: Node, term: nat, v: LogView.View, now: int)
    requires 0 <= m < 3 && y.term <= term && y.role != Leader && now - y.leaderContact >= 10 && Backs(y, v)
    ensures Takes(Trio(), y, AskPacket(n, m, term, v, true), now, y, Some(Granted(n, m, y.term, AnswersPreVote)))
  {
    InTrio(m);
  }

  lemma TakesPreVote(n: NodeId, m: NodeId, x: Node, now: int)
    requires 0 <= n < 3 && m != n && x.outbox == [] && x.role == PreCandidate && x.votes == {n}
    ensures Takes(Trio(), x, Granted(n, m, x.term, AnswersPreVote), now, Stands(n, x, now), None)
  {
    InTrio(n);
    PreVoteCounts(n, x, m, now);
  }

  function Voted(y: Node, n: NodeId, term: nat, now: int): Node {
    RecordVote(BecomeFollower(y, now, 100, term), n).(electionDeadline := now + 100)
  }

  lemma TakesRequest(n: NodeId, m: NodeId, y: Node, term: nat, v: LogView.View, now: int)
    requires 0 <= m < 3 && y.term < term && Backs(y, v)
    ensures Takes(Trio(), y, AskPacket(n, m, term, v, false), now, Voted(y, n, term, now),
                  Some(Granted(n, m, term, Plain)))
  {
    InTrio(m);
  }

  /** Any granted reply of its term makes a candidate lead: it does not say which question it answers. */
  lemma TakesVote(n: NodeId, m: NodeId, x: Node, term: nat, tag: Tag, now: int, y: Node)
    requires 0 <= n < 3 && m != n && x.outbox == [] && x.log.snap == 0 && x.role == Candidate && x.votes == {n}
    requires term == x.term && y == Leads(n, x.(votes := {n, m}), now)
    ensures Takes(Trio(), x, Granted(n, m, term, tag), now, y, None)
  {
    InTrio(n);
    VoteCounts(n, x, m, now);
  }

  // ---------------------------------------------------------------- one candidacy

  /** A candidate's states: asking for pre-votes, standing, leading. */
  datatype Rival = Rival(id: NodeId, probing: Node, standing: Node, leading: Node)

  /** How member `n` goes from `x` to leadership with the help of `m`. */
  function RivalFrom(n: NodeId, x: Node, m: NodeId, now: int): Rival {
    var probing := Probes(n, x, now);
    var standing := Stands(n, Flushed(probing), now);
    Rival(n, probing, standing, Leads(n, Flushed(standing).(votes := {n, m}), now))
  }

  /** Ready to stand: awake, following nobody in time, nothing queued, nothing compacted. */
  predicate Ready(x: Node, now: int) {
    x.started && x.role == Follower && x.electionDeadline <= now && x.outbox == [] && x.log.snap == 0
  }

  lemma RivalAsks(n: NodeId, x: Node, k: nat, m: NodeId, term: nat, v: LogView.View, now: int)
    requires k < 2 && Peers(n)[k] == m && term == x.term + 1 && v == x.log
    ensures var a := RivalFrom(n, x, m, now);
            Ask(n, m, term, v, true) in a.probing.outbox && Ask(n, m, term, v, false) in a.standing.outbox
  {
    var a := RivalFrom(n, x, m, now);
    assert a.probing.outbox[k] == Ask(n, m, term, v, true);
    assert a.standing.outbox[k] == Ask(n, m, term, v, false);
  }

  lemma RivalTicks(n: NodeId, x: Node, m: NodeId, now: int)
    requires 0 <= n < 3 && Ready(x, now)
    ensures n in Trio() && Tick(Trio()[n], x, now, 100) == RivalFrom(n, x, m, now).probing
  {
    InTrio(n);
    TickProbes(n, x, now);
  }

  lemma ReplyElects(n: NodeId, x: Node, m: NodeId, term: nat, tag: Tag, now: int)
    requires 0 <= n < 3 && m != n && x.log.snap == 0 && term == x.term + 1
    ensures var a := RivalFrom(n, x, m, now);
            Takes(Trio(), Flushed(a.standing), Granted(n, m, term, tag), now, a.leading, None)
  {
    var a := RivalFrom(n, x, m, now);
    TakesVote(n, m, Flushed(a.standing), term, tag, now, a.leading);
  }

  // ---------------------------------------------------------------- stages

  lemma Wake(cs: seq<Cluster>, es: seq<Event>, n: NodeId, x: Node, now: int)
    returns (cs': seq<Cluster>, es': seq<Event>)
    requires Run(Trio(), cs, es) && 0 <= n < 3 && At(Last(cs), n, x) && !x.started
    ensures Onward(Trio(), cs, es, cs', es') && OthersStay(Last(cs), Last(cs'), n)
    ensures At(Last(cs'), n, x.(started := true, electionDeadline := now))
  {
    InTrio(n);
    Awakes(n, x, now);
    cs', es' := TickStep(Trio(), cs, es, n, x, now - 100, x.(started := true, electionDeadline := now));
  }

  lemma Canvass(g: Group, cs: seq<Cluster>, es: seq<Event>, n: NodeId, x: Node, y: Node, now: int, q: Message)
    returns (cs': seq<Cluster>, es': seq<Event>)
    requires Run(g, cs, es) && n in g && At(Last(cs), n, x) && Tick(g[n], x, now, 100) == y && q in y.outbox
    ensures Onward(g, cs, es, cs', es') && At(Last(cs'), n, Flushed(y)) && OthersStay(Last(cs), Last(cs'), n)
    ensures Packet(q, Plain) in Last(cs').net
  {
    var cs1, es1 := TickStep(g, cs, es, n, x, now, y);
    cs', es' := FlushStep(g, cs1, es1, n, y);
    OnwardTrans(g, cs, es, cs1, es1, cs', es');
  }

  /** `a` is elected in the ordinary way with the vote of member `m`, which goes from `y` to `y'`. */
  predicate Carried(g: Group, a: Rival, m: NodeId, y: Node, y': Node, ask: Packet, pre: Packet, vote: Packet,
                    yes: Packet, now: int) {
    && ask.msg.to == m && vote.msg.to == m && pre.msg.to == a.id && yes.msg.to == a.id
    && ask.msg.payload.RequestVote? && vote.msg.payload.RequestVote?
    && pre.msg.payload.RequestVoteReply? && yes.msg.payload.RequestVoteReply?
    && ask.tag == Plain && vote.tag == Plain && yes.tag == Plain
    && vote.msg in a.standing.outbox && a.probing.role == PreCandidate
    && Takes(g, y, ask, now, y, Some(pre)) && Takes(g, Flushed(a.probing), pre, now, a.standing, None)
    && Takes(g, y, vote, now, y', Some(yes)) && Takes(g, Flushed(a.standing), yes, now, a.leading, None)
  }

  /** Everyone but `n` and `m`, and every disk but that of `n`, is as it was. */
  ghost predicate RestStays(c: Cluster, c': Cluster, n: NodeId, m: NodeId) {
    && (forall k, z | k != n && k != m && At(c, k, z) :: At(c', k, z))
    && (forall k | k != n && k in c.disk :: k in c'.disk && c'.disk[k] == c.disk[k])
  }

  lemma GetsPreVote(g: Group, cs: seq<Cluster>, es: seq<Event>, a: Rival, m: NodeId, y: Node, y': Node,
                    ask: Packet, pre: Packet, vote: Packet, yes: Packet, now: int)
    returns (cs': seq<Cluster>, es': seq<Event>)
    requires Run(g, cs, es) && a.id in g && a.id != m && Carried(g, a, m, y, y', ask, pre, vote, yes, now)
    requires At(Last(cs), a.id, Flushed(a.probing)) && At(Last(cs), m, y) && ask in Last(cs).net
    ensures Onward(g, cs, es, cs', es') && At(Last(cs'), a.id, a.standing) && At(Last(cs'), m, y)
    ensures RestStays(Last(cs), Last(cs'), a.id, m)
  {
    var cs1, es1 := OrdinaryStep(g, cs, es, ask, y, now, y, Some(pre));
    cs', es' := OrdinaryStep(g, cs1, es1, pre, Flushed(a.probing), now, a.standing, None);
    OnwardTrans(g, cs, es, cs1, es1, cs', es');
  }

  lemma GetsVote(g: Group, cs: seq<Cluster>, es: seq<Event>, a: Rival, m: NodeId, y: Node, y': Node,
                 ask: Packet, pre: Packet, vote: Packet, yes: Packet, now: int)
    returns (cs': seq<Cluster>, es': seq<Event>)
    requires Run(g, cs, es) && a.id in g && a.id != m && Carried(g, a, m, y, y', ask, pre, vote, yes, now)
    requires At(Last(cs), a.id, a.standing) && At(Last(cs), m, y)
    ensures Onward(g, cs, es, cs', es') && At(Last(cs'), a.id, a.leading) && At(Last(cs'), m, y')
    ensures RestStays(Last(cs), Last(cs'), a.id, m)
  {
    var cs1, es1 := FlushStep(g, cs, es, a.id, a.standing);
    var cs2, es2 := OrdinaryStep(g, cs1, es1, vote, y, now, y', Some(yes));
    cs', es' := OrdinaryStep(g, cs2, es2, yes, Flushed(a.standing), now, a.leading, None);
    OnwardTrans(g, cs, es, cs1, es1, cs2, es2);
    OnwardTrans(g, cs, es, cs2, es2, cs', es');
  }

  lemma Elects(g: Group, cs: seq<Cluster>, es: seq<Event>, x: Node, a: Rival, m: NodeId, y: Node, y': Node,
               ask: Packet, pre: Packet, vote: Packet, yes: Packet, now: int)
    returns (cs': seq<Cluster>, es': seq<Event>)
    requires Run(g, cs, es) && a.id in g && a.id != m && Carried(g, a, m, y, y', ask, pre, vote, yes, now)
    requires Tick(g[a.id], x, now, 100) == a.probing && ask.msg in a.probing.outbox
    requires At(Last(cs), a.id, x) && At(Last(cs), m, y)
    ensures Onward(g, cs, es, cs', es') && At(Last(cs'), a.id, a.leading) && At(Last(cs'), m, y')
    ensures RestStays(Last(cs), Last(cs'), a.id, m)
  {
    var cs1, es1 := Canvass(g, cs, es, a.id, x, a.probing, now, ask.msg);
    var cs2, es2 := GetsPreVote(g, cs1, es1, a, m, y, y', ask, pre, vote, yes, now);
    cs', es' := GetsVote(g, cs2, es2, a, m, y, y', ask, pre, vote, yes, now);
    OnwardTrans(g, cs, es, cs1, es1, cs2, es2);
    OnwardTrans(g, cs, es, cs2, es2, cs', es');
  }

  lemma RivalIsCarried(n: NodeId, x: Node, m: NodeId, y: Node, now: int)
    requires 0 <= n < 3 && 0 <= m < 3 && n != m && x.outbox == [] && x.log.snap == 0
    requires y.term == x.term && y.role != Leader && now - y.leaderContact >= 10 && Backs(y, x.log)
    requires Ask(n, m, x.term + 1, x.log, false) in RivalFrom(n, x, m, now).standing.outbox
    ensures Carried(Trio(), RivalFrom(n, x, m, now), m, y, Voted(y, n, x.term + 1, now),
                    AskPacket(n, m, x.term + 1, x.log, true), Granted(n, m, x.term, AnswersPreVote),
                    AskPacket(n, m, x.term + 1, x.log, false), Granted(n, m, x.term + 1, Plain), now)
  {
    var a := RivalFrom(n, x, m, now);
    TakesProbe(n, m, y, x.term + 1, x.log, now);
    TakesPreVote(n, m, Flushed(a.probing), now);
    TakesRequest(n, m, y, x.term + 1, x.log, now);
    ReplyElects(n, x, m, x.term + 1, Plain, now);
  }

  /** A member that is ready can be elected by one of the same term that has no newer log. */
  lemma TrioElects(cs: seq<Cluster>, es: seq<Event>, n: NodeId, x: Node, k: nat, m: NodeId, y: Node, now: int)
    returns (cs': seq<Cluster>, es': seq<Event>)
    requires Run(Trio(), cs, es) && At(Last(cs), n, x) && At(Last(cs), m, y)
    requires 0 <= n < 3 && 0 <= m < 3 && n != m && k < 2 && Peers(n)[k] == m && Ready(x, now)
    requires y.term == x.term && y.role != Leader && now - y.leaderContact >= 10 && Backs(y, x.log)
    ensures Onward(Trio(), cs, es, cs', es') && At(Last(cs'), n, RivalFrom(n, x, m, now).leading)
    ensures At(Last(cs'), m, Voted(y, n, x.term + 1, now)) && RestStays(Last(cs), Last(cs'), n, m)
  {
    RivalTicks(n, x, m, now);
    RivalAsks(n, x, k, m, x.term + 1, x.log, now);
    RivalIsCarried(n, x, m, y, now);
    cs', es' := Elects(Trio(), cs, es, x, RivalFrom(n, x, m, now), m, y, Voted(y, n, x.term + 1, now),
                       AskPacket(n, m, x.term + 1, x.log, true), Granted(n, m, x.term, AnswersPreVote),
                       AskPacket(n, m, x.term + 1, x.log, false), Granted(n, m, x.term + 1, Plain), now);
  }
}
