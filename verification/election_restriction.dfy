/** The election restriction: a majority of voters had logs no more recent than the elected node's. */
module ElectionRestriction {
  import opened RaftTypes
  import opened RaftNode
  import opened RaftSystem
  import opened Quorum
  import opened Elections

  function LastTermOf(log: seq<Entry>): int {
    TermAt(log, |log| - 1)
  }

  /** The first log ends at least as recently as the second. */
  predicate AtLeast(a: seq<Entry>, b: seq<Entry>) {
    AtLeastAsRecent(LastTermOf(a), |a| - 1, LastTermOf(b), |b| - 1)
  }

  /** `p` voted for `c` in the term, holding a log no more recent than `log` when it did. */
  predicate Backed(s: System, p: NodeId, term: int, c: NodeId, log: seq<Entry>)
    requires p in s.nodes
  {
    Voted(s.nodes[p], term, c) && (p, term) in s.hist.ballots && AtLeast(log, s.hist.ballots[(p, term)])
  }

  function Backers(s: System, e: Election): set<NodeId> {
    set p | p in s.nodes && Backed(s, p, e.term, e.leader, e.log)
  }

  ghost predicate BallotsKept(s: System, n: NodeId)
    requires n in s.nodes
  {
    forall t :: t in s.nodes[n].votedFor <==> (n, t) in s.hist.ballots
  }

  predicate CandidateBacked(s: System, c: NodeId, p: NodeId)
    requires c in s.nodes && p in s.nodes
  {
    var a := s.nodes[c];
    a.identity == CANDIDATE && Voted(s.nodes[p], a.currentTerm, c) ==> Backed(s, p, a.currentTerm, c, a.log)
  }

  ghost predicate RestrictionInv(s: System) {
    && (forall n | n in s.nodes :: BallotsKept(s, n))
    && (forall c, p | c in s.nodes && p in s.nodes :: CandidateBacked(s, c, p))
    && (forall e | e in s.hist.elected :: Majority(Backers(s, e), s.nodes.Keys))
  }

  predicate BallotsGrow(s: System, s': System) {
    forall k | k in s.hist.ballots :: k in s'.hist.ballots && s'.hist.ballots[k] == s.hist.ballots[k]
  }

  /** A ballot is recorded together with the vote it belongs to, so it is never overwritten. */
  lemma CastKeepsBallots(s: System, s': System, cast: Cast)
    requires CastStep(s, s', cast) && forall n | n in s.nodes :: BallotsKept(s, n)
    ensures BallotsGrow(s, s')
    ensures forall n | n in s.nodes :: BallotsKept(s', n)
  {
    if cast.Vote? {
      assert BallotsKept(s, cast.voter);
    }
    forall n | n in s.nodes ensures BallotsKept(s', n) {
      assert BallotsKept(s, n);
      assert cast.NoVote? || n != cast.voter ==> SameVotes(s, s', n);
    }
  }

  lemma BackingStays(s: System, s': System, p: NodeId, term: int, c: NodeId, log: seq<Entry>)
    requires VotesGrow(s, s') && BallotsGrow(s, s') && p in s.nodes && Backed(s, p, term, c, log)
    ensures Backed(s', p, term, c, log)
  {}

  /** A vote just cast backs the candidate, because the request still describes the candidate's log. */
  lemma NewVoteBacks(s: System, s': System, step: Step, c: NodeId, p: NodeId)
    requires CastStep(s, s', CastBy(s, step)) && c in s.nodes && p in s.nodes && Steady(s, s', step, c)
    requires VotesOk(s, p) && (step.AnswerVote? ==> MessageOk(s, step.m))
    requires s'.nodes[c].identity == CANDIDATE && Voted(s'.nodes[p], s'.nodes[c].currentTerm, c)
    requires !Voted(s.nodes[p], s'.nodes[c].currentTerm, c)
    ensures Backed(s', p, s'.nodes[c].currentTerm, c, s'.nodes[c].log)
  {
    assert SameVotes(s, s', p) || CastBy(s, step) == Vote(p, s'.nodes[c].currentTerm, c);
  }

  lemma StepCandidateBacked(v: Variant, s: System, step: Step, c: NodeId, p: NodeId)
    requires ElectionInv(s) && RestrictionInv(s) && Enabled(v, s, step) && c in s.nodes && p in s.nodes
    ensures CandidateBacked(Perform(v, s, step), c, p)
  {
    var s' := Perform(v, s, step);
    StepCasts(v, s, step);
    StepVotesGrow(v, s, step);
    CandidateSteady(v, s, step, c);
    assert VotesOk(s, p) && VotesOk(s, c) && CandidateBacked(s, c, p);
    if step.AnswerVote? { assert MessageOk(s, step.m); }
    CastKeepsBallots(s, s', CastBy(s, step));
    hide Perform, Enabled, ElectionInv, RestrictionInv, CastStep, VotesGrow;
    var term := s'.nodes[c].currentTerm;
    if s'.nodes[c].identity == CANDIDATE && Voted(s'.nodes[p], term, c) {
      if Voted(s.nodes[p], term, c) {
        BackingStays(s, s', p, term, c, s'.nodes[c].log);
      } else {
        NewVoteBacks(s, s', step, c, p);
      }
    }
  }

  lemma WonBacked(s: System, c: NodeId)
    requires c in s.nodes && s.nodes[c].identity == CANDIDATE && CandidacyOk(s, c)
    requires WinsElection(s.nodes[c], |s.nodes|) && forall p | p in s.nodes :: CandidateBacked(s, c, p)
    ensures Majority(Backers(s, Election(s.nodes[c].currentTerm, c, s.nodes[c].log)), s.nodes.Keys)
  {
    var a := s.nodes[c];
    var voters := Voters(s, a.currentTerm, c);
    forall p | p in voters ensures Backed(s, p, a.currentTerm, c, a.log) {
      assert CandidateBacked(s, c, p);
    }
    Smaller(voters - a.awaiting, Backers(s, Election(a.currentTerm, c, a.log)));
    assert |s.nodes.Keys| == |s.nodes|;
  }

  lemma BackersGrow(s: System, s': System, e: Election)
    requires VotesGrow(s, s') && BallotsGrow(s, s') && Majority(Backers(s, e), s.nodes.Keys)
    ensures Majority(Backers(s', e), s.nodes.Keys)
  {
    forall p | p in Backers(s, e) ensures p in Backers(s', e) {
      BackingStays(s, s', p, e.term, e.leader, e.log);
    }
    hide VotesGrow, BallotsGrow, Backed, Majority;
    Grows(Backers(s, e), Backers(s', e), s.nodes.Keys);
  }

  lemma StepElectionBacked(v: Variant, s: System, step: Step, e: Election)
    requires ElectionInv(s) && RestrictionInv(s) && Enabled(v, s, step) && e in Perform(v, s, step).hist.elected
    ensures Majority(Backers(Perform(v, s, step), e), s.nodes.Keys)
  {
    hide Perform, VotesOk, MessageOk, ElectionOk, CastStep, VotesGrow, BallotsGrow, Backers, Majority, CandidateBacked;
    var s' := Perform(v, s, step);
    StepCasts(v, s, step);
    StepVotesGrow(v, s, step);
    StepElects(v, s, step);
    CastKeepsBallots(s, s', CastBy(s, step));
    if e !in s.hist.elected {
      assert CandidacyOk(s, step.n);
      WonBacked(s, step.n);
    }
    BackersGrow(s, s', e);
  }

  lemma StepKeepsRestriction(v: Variant, s: System, step: Step)
    requires ElectionInv(s) && RestrictionInv(s) && Enabled(v, s, step)
    ensures RestrictionInv(Perform(v, s, step)) && BallotsGrow(s, Perform(v, s, step))
  {
    hide Perform, Enabled, CandidateBacked, BallotsKept;
    var s' := Perform(v, s, step);
    StepCasts(v, s, step);
    CastKeepsBallots(s, s', CastBy(s, step));
    forall c, p | c in s'.nodes && p in s'.nodes ensures CandidateBacked(s', c, p) {
      StepCandidateBacked(v, s, step, c, p);
    }
    forall e | e in s'.hist.elected ensures Majority(Backers(s', e), s'.nodes.Keys) {
      StepElectionBacked(v, s, step, e);
    }
  }
}
