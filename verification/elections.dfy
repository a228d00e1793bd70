/** Elections: what every step keeps, with the handlers as coded and with the repaired ones. */
module Elections {
  import opened RaftTypes
  import opened RaftNode
  import opened RaftSystem
  import opened Quorum

  /** The nodes whose recorded vote for the term is that candidate. */
  function Voters(s: System, term: int, c: NodeId): set<NodeId> {
    set p | p in s.nodes && Voted(s.nodes[p], term, c)
  }

  predicate ElectedAs(h: History, term: int, leader: NodeId) {
    exists e :: e in h.elected && e.term == term && e.leader == leader
  }

  /** A node votes neither beyond its term nor for a node that has not reached the vote's term. */
  predicate VotesOk(s: System, n: NodeId)
    requires n in s.nodes
  {
    var a := s.nodes[n];
    && a.currentTerm >= 0
    && forall t | t in a.votedFor ::
        && 0 < t <= a.currentTerm
        && a.votedFor[t] in s.nodes && t <= s.nodes[a.votedFor[t]].currentTerm
  }

  /** The votes a candidate or leader counted were really cast for it in its term. */
  predicate CandidacyOk(s: System, n: NodeId)
    requires n in s.nodes
  {
    var a := s.nodes[n];
    && (a.identity != FOLLOWER ==>
      && Voted(a, a.currentTerm, n)
      && n !in a.awaiting
      && a.votesGained <= |Voters(s, a.currentTerm, n) - a.awaiting|)
    && (a.identity == LEADER ==> ElectedAs(s.hist, a.currentTerm, n))
    && (a.identity == CANDIDATE ==> !ElectedAs(s.hist, a.currentTerm, n))
  }

  predicate MessageOk(s: System, m: Message) {
    match m
    case VoteAsk(_, req) =>
      && req.candidate in s.nodes
      && s.nodes[req.candidate].currentTerm >= req.term
      && req.term > 0
      && (s.nodes[req.candidate].identity == CANDIDATE && s.nodes[req.candidate].currentTerm == req.term ==>
        req == VoteRequestOf(s.nodes[req.candidate], req.candidate))
    case VoteAnswer(p, req, reply) =>
      p in s.nodes && req.candidate in s.nodes && (reply.granted ==> Voted(s.nodes[p], req.term, req.candidate))
    case Announce(a) => ElectedAs(s.hist, a.term, a.leader)
    case _ => true
  }

  predicate ElectionOk(s: System, e: Election) {
    && e.term > 0
    && e.leader in s.nodes
    && s.nodes[e.leader].currentTerm >= e.term
    && Majority(Voters(s, e.term, e.leader), s.nodes.Keys)
  }

  predicate ElectionInv(s: System) {
    && "" !in s.nodes
    && (forall n | n in s.nodes :: VotesOk(s, n) && CandidacyOk(s, n))
    && (forall m | m in s.net :: MessageOk(s, m))
    && (forall e | e in s.hist.elected :: ElectionOk(s, e))
    && (forall e, f | e in s.hist.elected && f in s.hist.elected :: SameOffice(e, f) ==> e == f)
  }

  predicate SameOffice(e: Election, f: Election) {
    e.term == f.term && e.leader == f.leader
  }

  /** The term only rises and a recorded vote stays. */
  predicate BallotGrows(a: Node, b: Node) {
    && a.currentTerm <= b.currentTerm
    && (forall t | t in a.votedFor :: t in b.votedFor && b.votedFor[t] == a.votedFor[t])
  }

  /** Terms only rise, votes are write-once, and what happened stays. */
  predicate VotesGrow(s: System, s': System) {
    && s'.nodes.Keys == s.nodes.Keys
    && (forall n | n in s.nodes :: BallotGrows(s.nodes[n], s'.nodes[n]))
    && s.hist.elected <= s'.hist.elected
    && s.net <= s'.net
  }

  lemma VotersGrow(s: System, s': System, term: int, c: NodeId)
    requires VotesGrow(s, s')
    ensures Voters(s, term, c) <= Voters(s', term, c)
  {}

  /** The vote a step casts, if any. */
  datatype Cast = NoVote | Vote(voter: NodeId, term: int, candidate: NodeId)

  function CastBy(s: System, step: Step): Cast {
    match step
    case Timeout(n) => if n in s.nodes then Vote(n, s.nodes[n].currentTerm + 1, n) else NoVote
    case AnswerVote(m) =>
      if m.VoteAsk? && m.to in s.nodes && Grants(s.nodes[m.to], m.vreq)
      then Vote(m.to, m.vreq.term, m.vreq.candidate) else NoVote
    case _ => NoVote
  }

  predicate SameVotes(s: System, s': System, p: NodeId)
    requires p in s.nodes && p in s'.nodes
  {
    s'.nodes[p].votedFor == s.nodes[p].votedFor
  }

  /** Between the two states no term fell, and exactly that vote was cast and recorded. */
  predicate CastStep(s: System, s': System, cast: Cast) {
    && s'.nodes.Keys == s.nodes.Keys
    && (forall p | p in s.nodes :: s.nodes[p].currentTerm <= s'.nodes[p].currentTerm)
    && match cast
       case NoVote => s'.hist.ballots == s.hist.ballots && forall p | p in s.nodes :: SameVotes(s, s', p)
       case Vote(voter, t, c) =>
         && voter in s.nodes
         && s'.hist.ballots == s.hist.ballots[(voter, t) := s.nodes[voter].log]
         && t !in s.nodes[voter].votedFor
         && t <= s'.nodes[voter].currentTerm
         && s'.nodes[voter].votedFor == s.nodes[voter].votedFor[t := c]
         && forall p | p in s.nodes && p != voter :: SameVotes(s, s', p)
  }

  lemma ActorVotes(v: Variant, s: System, step: Step)
    requires Enabled(v, s, step) && !step.Deliver?
    ensures var a, b := s.nodes[Actor(v, s, step)], NodeAfter(v, s, step);
      && a.currentTerm <= b.currentTerm
      && b.votedFor == (
          match step
          case Timeout(n) => if b.currentTerm in a.votedFor then a.votedFor else a.votedFor[b.currentTerm := n]
          case AnswerVote(m) =>
            if Grants(a, m.vreq) then a.votedFor[m.vreq.term := m.vreq.candidate] else a.votedFor
          case _ => a.votedFor)
      && (step.Timeout? ==> b.currentTerm == a.currentTerm + 1)
      && (step.AnswerVote? ==> step.m.vreq.term <= b.currentTerm)
  {
    hide OnAppendEntries, OnAppendReply, OnReqVote, OnVoteReply, Torn, LinesToWrite, TornLog, CrashPoint;
    match step
    case CrashInAppend(m, lines, upto) => TornEffect(v, s.nodes[m.to], m.areq, lines, upto);
    case AnswerVote(m) => ReqVoteEffect(s.nodes[m.to], m.vreq);
    case CountVote(m) => VoteReplyEffect(s.nodes[m.vreq.candidate], m.from, m.vreq, m.vreply);
    case AnswerAppend(m) => AppendEffect(v, s.nodes[m.to], m.areq);
    case UseAppendAnswer(m) =>
      AppendReplyEffect(v, s.nodes[m.areq.leader], m.from, m.next, m.len, m.purpose, m.areq, m.areply);
    case _ =>
  }

  lemma StepBallots(v: Variant, s: System, step: Step)
    requires Enabled(v, s, step)
    ensures Perform(v, s, step).hist.ballots == (
      match step
      case Timeout(n) => s.hist.ballots[(n, s.nodes[n].currentTerm + 1) := s.nodes[n].log]
      case AnswerVote(m) =>
        if Grants(s.nodes[m.to], m.vreq) then s.hist.ballots[(m.to, m.vreq.term) := s.nodes[m.to].log]
        else s.hist.ballots
      case _ => s.hist.ballots)
  {
    hide NodeAfter, Sent;
  }

  /** Only the actor's node changes. */
  lemma StepMoves(v: Variant, s: System, step: Step)
    requires Enabled(v, s, step)
    ensures Perform(v, s, step).nodes ==
      if step.Deliver? then s.nodes else s.nodes[Actor(v, s, step) := NodeAfter(v, s, step)]
  {
    hide NodeAfter, Sent, HistoryAfter;
  }

  /** A vote is new, and not beyond the voter's new term. */
  lemma CastIsNew(v: Variant, s: System, step: Step)
    requires ElectionInv(s) && Enabled(v, s, step) && CastBy(s, step).Vote?
    ensures !step.Deliver? && Actor(v, s, step) == CastBy(s, step).voter
    ensures CastBy(s, step).term !in s.nodes[CastBy(s, step).voter].votedFor
    ensures CastBy(s, step).term <= NodeAfter(v, s, step).currentTerm
  {
    hide NodeAfter, CandidacyOk, MessageOk, ElectionOk, UpToDate;
    ActorVotes(v, s, step);
    assert VotesOk(s, Actor(v, s, step));
    hide ElectionInv;
  }

  lemma StepCasts(v: Variant, s: System, step: Step)
    requires ElectionInv(s) && Enabled(v, s, step)
    ensures CastStep(s, Perform(v, s, step), CastBy(s, step))
  {
    hide Perform, NodeAfter, ElectionInv, Grants;
    StepBallots(v, s, step);
    StepMoves(v, s, step);
    if !step.Deliver? { ActorVotes(v, s, step); }
    if CastBy(s, step).Vote? { CastIsNew(v, s, step); }
  }

  lemma CastGrows(s: System, s': System, cast: Cast)
    requires CastStep(s, s', cast)
    ensures s'.nodes.Keys == s.nodes.Keys && forall p | p in s.nodes :: BallotGrows(s.nodes[p], s'.nodes[p])
  {}

  lemma StepVotesGrow(v: Variant, s: System, step: Step)
    requires ElectionInv(s) && Enabled(v, s, step)
    ensures VotesGrow(s, Perform(v, s, step))
  {
    hide NodeAfter, Sent, HistoryAfter, ElectionInv, CastStep, CastBy, BallotGrows;
    StepCasts(v, s, step);
    CastGrows(s, Perform(v, s, step), CastBy(s, step));
    StepElects(v, s, step);
    hide Enabled;
  }

  /** Still a candidate or leader of the same term with the same count, or a follower. */
  predicate SameCandidacy(a: Node, b: Node) {
    || b.identity == FOLLOWER
    || (b.identity == a.identity && b.currentTerm == a.currentTerm && b.log == a.log
        && b.votesGained == a.votesGained && b.awaiting == a.awaiting)
    || (b.identity == LEADER == a.identity && b.currentTerm == a.currentTerm
        && b.votesGained == a.votesGained && b.awaiting == a.awaiting)
  }

  /** Only a timeout starts a candidacy, only a win makes a leader, and a candidate's log does not change. */
  lemma ActorCandidacy(v: Variant, s: System, step: Step)
    requires Enabled(v, s, step) && !step.Deliver?
    requires !step.Timeout? && !step.CountVote? && !step.Win?
    ensures SameCandidacy(s.nodes[Actor(v, s, step)], NodeAfter(v, s, step))
  {
    hide OnAppendEntries, OnAppendReply, OnReqVote, OnVoteReply;
    match step
    case AnswerVote(m) => ReqVoteEffect(s.nodes[m.to], m.vreq);
    case AnswerAppend(m) => AppendEffect(v, s.nodes[m.to], m.areq);
    case UseAppendAnswer(m) =>
      AppendReplyEffect(v, s.nodes[m.areq.leader], m.from, m.next, m.len, m.purpose, m.areq, m.areply);
    case _ =>
  }

  lemma KeptCandidacy(s: System, s': System, n: NodeId)
    requires VotesGrow(s, s') && n in s.nodes && CandidacyOk(s, n) && SameCandidacy(s.nodes[n], s'.nodes[n])
    requires forall e | e in s'.hist.elected - s.hist.elected :: e.leader != n
    ensures CandidacyOk(s', n)
  {
    var a := s.nodes[n];
    VotersGrow(s, s', a.currentTerm, n);
    Smaller(Voters(s, a.currentTerm, n) - a.awaiting, Voters(s', a.currentTerm, n) - a.awaiting);
    if ElectedAs(s.hist, a.currentTerm, n) {
      var e :| e in s.hist.elected && e.term == a.currentTerm && e.leader == n;
      assert e in s'.hist.elected;
    }
  }

  lemma OldElection(s: System, s': System, e: Election)
    requires VotesGrow(s, s') && ElectionOk(s, e)
    ensures ElectionOk(s', e)
  {
    VotersGrow(s, s', e.term, e.leader);
    Grows(Voters(s, e.term, e.leader), Voters(s', e.term, e.leader), s'.nodes.Keys);
  }

  lemma CastVotesOk(s: System, s': System, cast: Cast, n: NodeId)
    requires CastStep(s, s', cast) && n in s.nodes && VotesOk(s, n)
    requires cast.Vote? ==> cast.candidate in s.nodes
    requires cast.Vote? ==> 0 < cast.term <= s'.nodes[cast.candidate].currentTerm
    ensures VotesOk(s', n)
  {
    assert cast.NoVote? || n != cast.voter ==> SameVotes(s, s', n);
  }

  /** Whoever a vote is cast for has reached the term of the vote. */
  lemma CastTerm(v: Variant, s: System, step: Step)
    requires ElectionInv(s) && Enabled(v, s, step) && CastBy(s, step).Vote?
    ensures var s', cast := Perform(v, s, step), CastBy(s, step);
      0 < cast.term && cast.candidate in s.nodes && cast.candidate in s'.nodes &&
      cast.term <= s'.nodes[cast.candidate].currentTerm
  {
    hide Perform, CandidacyOk, ElectionOk;
    StepCasts(v, s, step);
    if step.AnswerVote? {
      assert MessageOk(s, step.m);
    } else {
      assert VotesOk(s, step.n);
    }
    hide MessageOk, VotesOk, ElectionInv, Grants;
  }

  lemma StepVotesOk(v: Variant, s: System, step: Step, n: NodeId)
    requires ElectionInv(s) && Enabled(v, s, step) && n in s.nodes
    ensures VotesOk(Perform(v, s, step), n)
  {
    hide Perform, CandidacyOk, ElectionOk, MessageOk, CastStep, Enabled, CastBy, VotesOk;
    StepCasts(v, s, step);
    assert VotesOk(s, n);
    if CastBy(s, step).Vote? { CastTerm(v, s, step); }
    hide ElectionInv;
    CastVotesOk(s, Perform(v, s, step), CastBy(s, step), n);
  }

  lemma StartedCandidacy(s: System, s': System, n: NodeId)
    requires VotesGrow(s, s') && n in s.nodes && VotesOk(s, n) && n != ""
    requires s'.nodes[n] == StartElection(s.nodes[n], n, s.nodes.Keys)
    requires s'.hist.elected == s.hist.elected
    requires forall e | e in s.hist.elected && e.leader == n :: e.term <= s.nodes[n].currentTerm
    ensures CandidacyOk(s', n)
  {
    var b := s'.nodes[n];
    Smaller({n}, Voters(s', b.currentTerm, n) - b.awaiting);
  }

  predicate CountsVote(a: Node, b: Node, from: NodeId) {
    && from in a.awaiting && b.awaiting == a.awaiting - {from} && b.votesGained == a.votesGained + 1
    && b.identity == a.identity && b.currentTerm == a.currentTerm
  }

  lemma VoteReplyCases(n: Node, from: NodeId, req: VoteRequest, reply: VoteReply)
    ensures var b := OnVoteReply(n, from, req, reply);
      SameCandidacy(n, b) || (CountsVote(n, b, from) && reply.granted && req.term == n.currentTerm)
  {}

  /** A counted vote moves its voter out of `awaiting`, so the bound on the count keeps up. */
  lemma CountedCandidacy(s: System, s': System, c: NodeId, from: NodeId)
    requires VotesGrow(s, s') && c in s.nodes && CandidacyOk(s, c) && CountsVote(s.nodes[c], s'.nodes[c], from)
    requires s'.hist.elected == s.hist.elected
    requires from in s.nodes && Voted(s.nodes[from], s.nodes[c].currentTerm, c)
    ensures CandidacyOk(s', c)
  {
    var a, b := s.nodes[c], s'.nodes[c];
    assert BallotGrows(a, b) && BallotGrows(s.nodes[from], s'.nodes[from]);
    VotersGrow(s, s', a.currentTerm, c);
    assert from in Voters(s', a.currentTerm, c);
    hide VotesGrow, Voters, ElectedAs;
    Counted(Voters(s, a.currentTerm, c), Voters(s', a.currentTerm, c), a.awaiting, from);
  }

  lemma WonCandidacy(s: System, s': System, n: NodeId)
    requires VotesGrow(s, s') && n in s.nodes && CandidacyOk(s, n) && VotesOk(s, n)
    requires WinsElection(s.nodes[n], |s.nodes|) && s.nodes[n].currentTerm > 0
    requires s'.nodes[n] == BecomeLeader(s.nodes[n], s.nodes.Keys)
    requires Election(s.nodes[n].currentTerm, n, s.nodes[n].log) in s'.hist.elected
    ensures CandidacyOk(s', n)
    ensures ElectionOk(s', Election(s.nodes[n].currentTerm, n, s.nodes[n].log))
  {
    var a := s.nodes[n];
    var counted := Voters(s, a.currentTerm, n) - a.awaiting;
    VotersGrow(s, s', a.currentTerm, n);
    Smaller(counted, Voters(s', a.currentTerm, n) - a.awaiting);
    Smaller(counted, Voters(s', a.currentTerm, n));
    assert |s.nodes.Keys| == |s.nodes|;
  }

  lemma TimeoutCandidacy(v: Variant, s: System, n: NodeId)
    requires ElectionInv(s) && Enabled(v, s, Timeout(n))
    ensures CandidacyOk(Perform(v, s, Timeout(n)), n)
  {
    hide StartElection, CandidacyOk;
    var s' := Perform(v, s, Timeout(n));
    StepVotesGrow(v, s, Timeout(n));
    assert VotesOk(s, n) && n != "";
    assert s'.nodes[n] == StartElection(s.nodes[n], n, s.nodes.Keys) && s'.hist.elected == s.hist.elected;
    forall e | e in s.hist.elected && e.leader == n ensures e.term <= s.nodes[n].currentTerm {
      assert ElectionOk(s, e);
    }
    hide *;
    StartedCandidacy(s, s', n);
  }

  lemma CountCandidacy(v: Variant, s: System, m: Message)
    requires ElectionInv(s) && Enabled(v, s, CountVote(m))
    ensures CandidacyOk(Perform(v, s, CountVote(m)), m.vreq.candidate)
  {
    hide OnVoteReply, VotesOk;
    var c, s' := m.vreq.candidate, Perform(v, s, CountVote(m));
    StepVotesGrow(v, s, CountVote(m));
    assert MessageOk(s, m) && CandidacyOk(s, c);
    assert s'.nodes[c] == OnVoteReply(s.nodes[c], m.from, m.vreq, m.vreply) && s'.hist.elected == s.hist.elected;
    VoteReplyCases(s.nodes[c], m.from, m.vreq, m.vreply);
    assert m.vreply.granted ==> m.from in s.nodes && Voted(s.nodes[m.from], m.vreq.term, c);
    hide *;
    if SameCandidacy(s.nodes[c], s'.nodes[c]) {
      KeptCandidacy(s, s', c);
    } else {
      CountedCandidacy(s, s', c, m.from);
    }
  }

  lemma IdleCandidacy(v: Variant, s: System, step: Step, n: NodeId)
    requires ElectionInv(s) && Enabled(v, s, step) && n in s.nodes
    requires step.Timeout? || step.CountVote? || step.Win? ==> n != Actor(v, s, step)
    ensures CandidacyOk(Perform(v, s, step), n)
  {
    hide NodeAfter, Sent, VotesOk, VotesGrow;
    var s' := Perform(v, s, step);
    StepVotesGrow(v, s, step);
    assert CandidacyOk(s, n);
    hide CandidacyOk;
    StepElects(v, s, step);
    if !step.Deliver? && n == Actor(v, s, step) { ActorCandidacy(v, s, step); }
    assert SameCandidacy(s.nodes[n], s'.nodes[n]);
    hide *;
    KeptCandidacy(s, s', n);
  }

  lemma StepCandidacy(v: Variant, s: System, step: Step, n: NodeId)
    requires ElectionInv(s) && Enabled(v, s, step) && n in s.nodes
    ensures CandidacyOk(Perform(v, s, step), n)
  {
    hide Perform, ElectionInv, CandidacyOk;
    if step == Timeout(n) {
      TimeoutCandidacy(v, s, n);
    } else if step.CountVote? && step.m.vreq.candidate == n {
      CountCandidacy(v, s, step.m);
    } else if step == Win(n) {
      WinElection(v, s, n);
    } else {
      IdleCandidacy(v, s, step, n);
    }
  }

  /** A candidate after a step was that candidate before it, with that log, unless it has just timed out. */
  predicate Steady(s: System, s': System, step: Step, n: NodeId)
    requires n in s.nodes && n in s'.nodes
  {
    var a, b := s.nodes[n], s'.nodes[n];
    b.identity == CANDIDATE ==>
      && a.log == b.log
      && if step == Timeout(n) then b.currentTerm == a.currentTerm + 1
         else a.identity == CANDIDATE && a.currentTerm == b.currentTerm
  }

  lemma CandidateSteady(v: Variant, s: System, step: Step, n: NodeId)
    requires Enabled(v, s, step) && n in s.nodes
    ensures Steady(s, Perform(v, s, step), step, n)
  {
    hide OnAppendEntries, OnAppendReply, OnReqVote, OnVoteReply;
    if !step.Deliver? && n == Actor(v, s, step) {
      match step
      case Timeout(_) =>
      case CountVote(m) => VoteReplyEffect(s.nodes[n], m.from, m.vreq, m.vreply);
      case Win(_) =>
      case _ => ActorCandidacy(v, s, step);
    }
  }

  lemma OldMessage(v: Variant, s: System, step: Step, m: Message)
    requires ElectionInv(s) && Enabled(v, s, step) && m in s.net
    ensures MessageOk(Perform(v, s, step), m)
  {
    hide Perform, Enabled, VotesOk, CandidacyOk, ElectionOk;
    StepVotesGrow(v, s, step);
    assert MessageOk(s, m);
    if m.VoteAsk? { CandidateSteady(v, s, step, m.vreq.candidate); }
    hide ElectionInv;
    MessageStays(s, Perform(v, s, step), step, m);
  }

  lemma MessageStays(s: System, s': System, step: Step, m: Message)
    requires VotesGrow(s, s') && MessageOk(s, m)
    requires m.VoteAsk? ==> m.vreq.candidate in s.nodes && Steady(s, s', step, m.vreq.candidate)
    ensures MessageOk(s', m)
  {
    if m.Announce? {
      var e :| e in s.hist.elected && e.term == m.ann.term && e.leader == m.ann.leader;
      assert e in s'.hist.elected;
    } else if m.VoteAsk? {
      assert BallotGrows(s.nodes[m.vreq.candidate], s'.nodes[m.vreq.candidate]);
    } else if m.VoteAnswer? {
      assert BallotGrows(s.nodes[m.from], s'.nodes[m.from]);
    }
  }

  lemma AskedMessage(v: Variant, s: System, n: NodeId, p: NodeId)
    requires ElectionInv(s) && Enabled(v, s, AskVote(n, p))
    ensures MessageOk(s, VoteAsk(p, VoteRequestOf(s.nodes[n], n)))
  {
    assert VotesOk(s, n) && CandidacyOk(s, n);
    hide ElectionInv, ElectedAs, Voters, Enabled;
  }

  /** An answer that grants comes with the recorded vote. */
  lemma AnsweredMessage(v: Variant, s: System, ask: Message)
    requires ElectionInv(s) && Enabled(v, s, AnswerVote(ask))
    ensures var (_, reply) := OnReqVote(s.nodes[ask.to], ask.vreq);
      MessageOk(Perform(v, s, AnswerVote(ask)), VoteAnswer(ask.to, ask.vreq, reply))
  {
    hide OnReqVote, UpToDate, Sent, HistoryAfter, VotesOk, CandidacyOk, ElectionOk;
    assert MessageOk(s, ask);
    hide ElectionInv;
    ReqVoteEffect(s.nodes[ask.to], ask.vreq);
  }

  lemma NewMessage(v: Variant, s: System, step: Step, m: Message)
    requires ElectionInv(s) && Enabled(v, s, step) && m in Sent(v, s, step)
    ensures MessageOk(Perform(v, s, step), m)
  {
    hide OnAppendEntries, OnReqVote, ElectionInv, VoteRequestOf, PrepareAppend;
    var s' := Perform(v, s, step);
    if step.AskVote? {
      AskedMessage(v, s, step.n, step.p);
      CandidateSteady(v, s, step, step.n);
      StepVotesGrow(v, s, step);
      hide Perform, VotesGrow;
      MessageStays(s, s', step, m);
    } else if step.AnswerVote? {
      AnsweredMessage(v, s, step.m);
      hide Perform;
    } else if step.Win? {
      StepElects(v, s, step);
      hide Perform;
      assert Election(s.nodes[step.n].currentTerm, step.n, s.nodes[step.n].log) in s'.hist.elected;
    } else {
      hide Perform;
    }
  }

  lemma WinElection(v: Variant, s: System, n: NodeId)
    requires ElectionInv(s) && Enabled(v, s, Win(n))
    ensures CandidacyOk(Perform(v, s, Win(n)), n)
    ensures ElectionOk(Perform(v, s, Win(n)), Election(s.nodes[n].currentTerm, n, s.nodes[n].log))
    ensures !ElectedAs(s.hist, s.nodes[n].currentTerm, n)
  {
    hide BecomeLeader;
    var s' := Perform(v, s, Win(n));
    StepVotesGrow(v, s, Win(n));
    assert CandidacyOk(s, n) && VotesOk(s, n);
    assert s'.nodes[n] == BecomeLeader(s.nodes[n], s.nodes.Keys);
    hide Perform;
    WonCandidacy(s, s', n);
  }

  lemma StepElection(v: Variant, s: System, step: Step, e: Election)
    requires ElectionInv(s) && Enabled(v, s, step) && e in Perform(v, s, step).hist.elected
    ensures ElectionOk(Perform(v, s, step), e)
    ensures forall f | f in s.hist.elected :: SameOffice(e, f) ==> e == f
  {
    hide Perform, VotesOk, CandidacyOk, MessageOk, VotesGrow;
    StepElects(v, s, step);
    if e in s.hist.elected {
      StepVotesGrow(v, s, step);
      assert ElectionOk(s, e);
      hide ElectionOk;
      OldElection(s, Perform(v, s, step), e);
    } else {
      hide ElectionOk, ElectionInv;
      WinElection(v, s, step.n);
      assert forall f | f in s.hist.elected :: !SameOffice(e, f);
    }
  }

  lemma StepKeepsElections(v: Variant, s: System, step: Step)
    requires ElectionInv(s) && Enabled(v, s, step)
    ensures ElectionInv(Perform(v, s, step))
  {
    hide NodeAfter, Sent, HistoryAfter, CandidacyOk, VotesOk, MessageOk, ElectionOk, Enabled;
    var s' := Perform(v, s, step);
    forall n | n in s'.nodes ensures VotesOk(s', n) && CandidacyOk(s', n) {
      StepVotesOk(v, s, step, n);
      StepCandidacy(v, s, step, n);
    }
    forall m | m in s'.net ensures MessageOk(s', m) {
      if m in s.net { OldMessage(v, s, step, m); } else { NewMessage(v, s, step, m); }
    }
    forall e | e in s'.hist.elected ensures ElectionOk(s', e) {
      StepElection(v, s, step, e);
    }
    forall e, f | e in s'.hist.elected && f in s'.hist.elected && SameOffice(e, f) ensures e == f {
      StepElection(v, s, step, e);
      StepElection(v, s, step, f);
      StepElects(v, s, step);
    }
  }

  /** A step elects at most one node. */
  lemma StepElects(v: Variant, s: System, step: Step)
    requires Enabled(v, s, step)
    ensures var h, h' := s.hist, Perform(v, s, step).hist;
      h'.elected == (if step.Win?
        then h.elected + {Election(s.nodes[step.n].currentTerm, step.n, s.nodes[step.n].log)} else h.elected)
  {}

  /** Two elections of one term are one: their majorities share a voter, who voted once. */
  lemma OneElectionPerTerm(s: System, e: Election, f: Election)
    requires ElectionInv(s) && e in s.hist.elected && f in s.hist.elected && e.term == f.term
    ensures e == f
  {
    assert ElectionOk(s, e) && ElectionOk(s, f);
    var p := Overlap(Voters(s, e.term, e.leader), Voters(s, f.term, f.leader), s.nodes.Keys);
    assert SameOffice(e, f);
  }
}
