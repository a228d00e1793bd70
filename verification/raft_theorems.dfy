/** The guarantees over whole runs. */
module RaftTheorems {
  import opened RaftTypes
  import opened RaftNode
  import opened RaftSystem
  import opened Quorum
  import opened Elections
  import opened ElectionRestriction
  import opened LogMatching
  import opened Replication
  import opened Completeness
  import opened Commitment
  import opened ApplyLog
  import opened StoreConvergence

  predicate PointerOk(s: System) {
    s.lb.term >= 0 && (s.lb.term > 0 ==> ElectedAs(s.hist, s.lb.term, s.lb.leader))
  }

  ghost predicate Inv(v: Variant, s: System) {
    && ElectionInv(s) && RestrictionInv(s) && PointerOk(s)
    && (v.Repaired? ==> LogInv(s) && SafeInv(s) && CommitInv(s) && StoreInv(s))
  }

  /** What a later state of a run inherits from an earlier one. */
  ghost predicate Follows(v: Variant, s: System, s': System) {
    && VotesGrow(s, s') && BallotsGrow(s, s')
    && s.hist.executed <= s'.hist.executed
    && s.lb.term <= s'.lb.term
    && (v.Repaired? ==> LogsGrow(s, s'))
  }

  lemma InitElections(s: System)
    requires Init(s)
    ensures ElectionInv(s) && RestrictionInv(s) && PointerOk(s)
  {}

  lemma InitLogs(s: System)
    requires Init(s)
    ensures LogInv(s) && SafeInv(s)
  {}

  lemma InitCommit(s: System)
    requires Init(s)
    ensures CommitInv(s)
  {
    forall n | n in s.nodes ensures CommitOk(s, s.nodes[n]) {
      assert s.nodes[n].log[..1] == [SENTINEL];
    }
  }

  lemma InitStores(s: System)
    requires Init(s)
    ensures StoreInv(s)
  {
    forall n | n in s.nodes ensures StoreOk(s, s.nodes[n], Reached(s.hist, n)) {
      assert s.nodes[n].log[..1] == [SENTINEL];
    }
  }

  lemma InitInv(v: Variant, s: System)
    requires Init(s)
    ensures Inv(v, s)
  {
    hide ElectionInv, RestrictionInv, PointerOk, LogInv, SafeInv, CommitInv, StoreInv, Init;
    InitElections(s);
    InitLogs(s);
    InitCommit(s);
    InitStores(s);
  }

  lemma StepPointer(v: Variant, s: System, step: Step)
    requires ElectionInv(s) && PointerOk(s) && Enabled(v, s, step)
    ensures PointerOk(Perform(v, s, step)) && s.lb.term <= Perform(v, s, step).lb.term
  {
    hide NodeAfter, Sent, HistoryAfter, CandidacyOk, VotesOk, ElectionOk;
    StepVotesGrow(v, s, step);
    var s' := Perform(v, s, step);
    if step.Deliver? { assert MessageOk(s, step.m); }
    if s'.lb.term > 0 {
      var e :| e in s.hist.elected && e.term == s'.lb.term && e.leader == s'.lb.leader;
      assert e in s'.hist.elected;
    }
  }

  lemma StepExecutedGrows(v: Variant, s: System, step: Step)
    requires Enabled(v, s, step)
    ensures s.hist.executed <= Perform(v, s, step).hist.executed
  {
    hide ExecutedBetween, WindowOf;
    StepExecutes(v, s, step);
    hide Perform;
  }

  lemma NextKeeps(v: Variant, s: System, s': System)
    requires Inv(v, s) && Next(v, s, s')
    ensures Inv(v, s') && Follows(v, s, s')
  {
    hide ElectionInv, RestrictionInv, PointerOk, LogInv, SafeInv, CommitInv, StoreInv, VotesGrow, BallotsGrow,
      LogsGrow, Enabled,
      Perform;
    var step: Step :| Enabled(v, s, step) && s' == Perform(v, s, step);
    StepKeepsElections(v, s, step);
    StepKeepsRestriction(v, s, step);
    StepVotesGrow(v, s, step);
    StepPointer(v, s, step);
    StepExecutedGrows(v, s, step);
    if v.Repaired? {
      StepKeepsLogs(s, step);
      StepKeepsSafe(s, step);
      StepKeepsCommit(s, step);
      StepKeepsStores(s, step);
    }
  }

  lemma FollowsTransitive(v: Variant, a: System, b: System, c: System)
    requires Follows(v, a, b) && Follows(v, b, c)
    ensures Follows(v, a, c)
  {
    if v.Repaired? {
      forall p, t ensures Held(a.hist, p, t) <= Held(c.hist, p, t) {
        assert Held(a.hist, p, t) <= Held(b.hist, p, t) <= Held(c.hist, p, t);
      }
      forall p, t | p in a.nodes && a.nodes[p].currentTerm > t ensures Held(c.hist, p, t) == Held(a.hist, p, t) {
        assert BallotGrows(a.nodes[p], b.nodes[p]);
        assert Held(b.hist, p, t) == Held(a.hist, p, t);
        assert Held(c.hist, p, t) == Held(b.hist, p, t);
      }
    }
  }

  /** Every state of a run satisfies the invariants. */
  lemma {:induction false} RunInv(v: Variant, run: seq<System>, i: nat)
    requires Run(v, run) && i < |run|
    ensures Inv(v, run[i])
  {
    if i == 0 {
      InitInv(v, run[0]);
    } else {
      RunInv(v, run, i - 1);
      assert Next(v, run[i - 1], run[i - 1 + 1]);
      NextKeeps(v, run[i - 1], run[i]);
    }
  }

  lemma FollowsItself(v: Variant, s: System)
    ensures Follows(v, s, s)
  {}

  lemma {:induction false} RunFollows(v: Variant, run: seq<System>, i: nat, j: nat)
    requires Run(v, run) && i <= j < |run|
    ensures Follows(v, run[i], run[j])
    decreases j
  {
    hide Inv, Follows, Next, Init;
    if i == j {
      FollowsItself(v, run[i]);
    } else {
      RunFollows(v, run, i, j - 1);
      RunInv(v, run, j - 1);
      assert Next(v, run[j - 1], run[j - 1 + 1]);
      NextKeeps(v, run[j - 1], run[j]);
      FollowsTransitive(v, run[i], run[j - 1], run[j]);
    }
  }

  // Elections, votes and terms; with the handlers as coded and repaired

  /** Election Safety: over the whole run, crashes included, one term has at most one leader. */
  lemma ElectionSafety(v: Variant, run: seq<System>, i: nat, j: nat, a: NodeId, b: NodeId)
    requires Run(v, run) && i < |run| && j < |run| && a in run[i].nodes && b in run[j].nodes
    requires run[i].nodes[a].identity == LEADER && run[j].nodes[b].identity == LEADER
    requires run[i].nodes[a].currentTerm == run[j].nodes[b].currentTerm
    ensures a == b
  {
    var last := if i <= j then j else i;
    RunInv(v, run, i); RunInv(v, run, j); RunInv(v, run, last);
    RunFollows(v, run, i, last); RunFollows(v, run, j, last);
    assert CandidacyOk(run[i], a) && CandidacyOk(run[j], b);
    var term := run[i].nodes[a].currentTerm;
    var e :| e in run[i].hist.elected && e.term == term && e.leader == a;
    var f :| f in run[j].hist.elected && f.term == term && f.leader == b;
    hide Inv, Next, Init;
    OneElectionPerTerm(run[last], e, f);
  }

  /** Votes are write-once and terms never fall, for every node, across restarts too. */
  lemma VotesAndTermsLast(v: Variant, run: seq<System>, i: nat, j: nat, n: NodeId)
    requires Run(v, run) && i <= j < |run| && n in run[i].nodes
    ensures n in run[j].nodes && run[i].nodes[n].currentTerm <= run[j].nodes[n].currentTerm
    ensures forall t | t in run[i].nodes[n].votedFor ::
      t in run[j].nodes[n].votedFor && run[j].nodes[n].votedFor[t] == run[i].nodes[n].votedFor[t]
  {
    hide Inv, Next, Init;
    RunFollows(v, run, i, j);
    assert BallotGrows(run[i].nodes[n], run[j].nodes[n]);
  }

  /** Between states `m` and `m + 1`, `p` casts its vote of the term for `c`. */
  predicate CastAt(run: seq<System>, m: nat, p: NodeId, term: int, c: NodeId) {
    && m + 1 < |run| && p in run[m].nodes && p in run[m + 1].nodes
    && term !in run[m].nodes[p].votedFor
    && Voted(run[m + 1].nodes[p], term, c)
  }

  /** Every recorded ballot is the voter's log at the moment it voted. */
  lemma {:induction false} BallotOrigin(v: Variant, run: seq<System>, i: nat, p: NodeId, term: int) returns (m: nat)
    requires Run(v, run) && i < |run| && p in run[i].nodes && (p, term) in run[i].hist.ballots
    ensures m < i && term in run[i].nodes[p].votedFor && CastAt(run, m, p, term, run[i].nodes[p].votedFor[term])
    ensures run[i].hist.ballots[(p, term)] == run[m].nodes[p].log
  {
    hide ElectionInv, RestrictionInv, PointerOk, LogInv, SafeInv, CommitInv, StoreInv, Perform, Enabled, LogsGrow;
    RunInv(v, run, i);
    assert BallotsKept(run[i], p) by { BallotsKeptIn(run[i], p); }
    if i > 0 {
      RunFollows(v, run, i - 1, i);
      RunInv(v, run, i - 1);
      BallotsKeptIn(run[i - 1], p);
      assert Next(v, run[i - 1], run[i - 1 + 1]);
      if (p, term) in run[i - 1].hist.ballots {
        assert BallotGrows(run[i - 1].nodes[p], run[i].nodes[p]);
        m := BallotOrigin(v, run, i - 1, p, term);
      } else {
        m := i - 1;
        var step: Step :| Enabled(v, run[i - 1], step) && run[i] == Perform(v, run[i - 1], step);
        StepCasts(v, run[i - 1], step);
      }
    }
  }

  lemma BallotsKeptIn(s: System, n: NodeId)
    requires RestrictionInv(s) && n in s.nodes
    ensures BallotsKept(s, n)
  {}

  /** Every recorded election is a candidate turning leader, with the log it had as a candidate. */
  lemma {:induction false} ElectionOrigin(v: Variant, run: seq<System>, i: nat, e: Election) returns (k: nat)
    requires Run(v, run) && i < |run| && e in run[i].hist.elected
    ensures k < i && e.leader in run[k].nodes && e.leader in run[k + 1].nodes && e in run[k + 1].hist.elected
    ensures var a, b := run[k].nodes[e.leader], run[k + 1].nodes[e.leader];
      && a.identity == CANDIDATE && a.currentTerm == e.term && a.log == e.log
      && b.identity == LEADER && b.currentTerm == e.term && b.log == e.log
  {
    if i > 0 {
      assert Next(v, run[i - 1], run[i - 1 + 1]);
      if e in run[i - 1].hist.elected {
        k := ElectionOrigin(v, run, i - 1, e);
      } else {
        k := i - 1;
        hide NodeAfter, Sent, HistoryAfter, Init;
        var step: Step :| Enabled(v, run[k], step) && run[i] == Perform(v, run[k], step);
        StepElects(v, run[k], step);
        WinNode(v, run[k], step.n);
      }
    }
  }

  lemma WinNode(v: Variant, s: System, n: NodeId)
    requires Enabled(v, s, Win(n))
    ensures Perform(v, s, Win(n)).nodes[n] == BecomeLeader(s.nodes[n], s.nodes.Keys)
  {}

  /** `p` voted for the candidate of that term at some point before `k`, with a log no more recent than `log`. */
  ghost predicate VotedForRecent(run: seq<System>, k: nat, p: NodeId, term: int, c: NodeId, log: seq<Entry>) {
    exists m: nat :: m <= k && CastAt(run, m, p, term, c) && AtLeast(log, run[m].nodes[p].log)
  }

  /** Whoever backs a recorded election voted at some earlier step, with the log on its ballot. */
  lemma BackerVoted(v: Variant, run: seq<System>, k: nat, e: Election, p: NodeId)
    requires Run(v, run) && k + 1 < |run| && p in Backers(run[k + 1], e)
    ensures VotedForRecent(run, k, p, e.term, e.leader, e.log)
  {
    hide Run;
    var m := BallotOrigin(v, run, k + 1, p, e.term);
  }

  lemma LeaderWasElected(v: Variant, run: seq<System>, i: nat, n: NodeId) returns (e: Election)
    requires Run(v, run) && i < |run| && n in run[i].nodes && run[i].nodes[n].identity == LEADER
    ensures e in run[i].hist.elected && e.term == run[i].nodes[n].currentTerm && e.leader == n
  {
    hide Next, Init, LogInv, SafeInv, CommitInv, StoreInv, RestrictionInv, PointerOk;
    RunInv(v, run, i);
    assert CandidacyOk(run[i], n);
    e :| e in run[i].hist.elected && e.term == run[i].nodes[n].currentTerm && e.leader == n;
  }

  lemma ElectionWasBacked(v: Variant, run: seq<System>, i: nat, e: Election)
    requires Run(v, run) && i < |run| && e in run[i].hist.elected
    ensures Majority(Backers(run[i], e), run[i].nodes.Keys)
  {
    hide Next, Init, LogInv, SafeInv, CommitInv, StoreInv, ElectionInv, PointerOk, Majority, BallotsKept,
      CandidateBacked;
    RunInv(v, run, i);
  }

  /**
   The election restriction over a run: whenever a node leads a term, it became leader at some earlier step `k`,
   and a majority had voted for it by then, each while holding a log no more recent than the winner's.
   */
  lemma LeadersWereRecent(v: Variant, run: seq<System>, i: nat, n: NodeId) returns (k: nat, voters: set<NodeId>)
    requires Run(v, run) && i < |run| && n in run[i].nodes && run[i].nodes[n].identity == LEADER
    ensures k < i && n in run[k].nodes && run[k].nodes[n].identity == CANDIDATE
    ensures run[k].nodes[n].currentTerm == run[i].nodes[n].currentTerm
    ensures Majority(voters, run[i].nodes.Keys)
    ensures forall p | p in voters :: VotedForRecent(run, k, p, run[i].nodes[n].currentTerm, n, run[k].nodes[n].log)
  {
    var e := LeaderWasElected(v, run, i, n);
    k := ElectionOrigin(v, run, i, e);
    RunFollows(v, run, k + 1, i);
    assert run[k + 1].nodes.Keys == run[i].nodes.Keys;
    hide Run, Follows, Majority, Backers, VotedForRecent;
    ElectionWasBacked(v, run, k + 1, e);
    voters := Backers(run[k + 1], e);
    forall p | p in voters ensures VotedForRecent(run, k, p, e.term, n, e.log) {
      BackerVoted(v, run, k, e, p);
    }
  }

  /** While a node is a candidate in one term its log does not change. */
  lemma {:induction false} CandidateLogFixed(v: Variant, run: seq<System>, i: nat, j: nat, n: NodeId)
    requires Run(v, run) && i <= j < |run| && n in run[i].nodes && n in run[j].nodes
    requires run[i].nodes[n].currentTerm == run[j].nodes[n].currentTerm
    requires run[j].nodes[n].identity == CANDIDATE
    ensures run[i].nodes[n].identity == CANDIDATE && run[i].nodes[n].log == run[j].nodes[n].log
    decreases j
  {
    hide Inv, Init, Perform, Enabled;
    if i < j {
      assert Next(v, run[j - 1], run[j - 1 + 1]);
      RunFollows(v, run, i, j - 1);
      RunFollows(v, run, j - 1, j);
      assert BallotGrows(run[i].nodes[n], run[j - 1].nodes[n]);
      assert BallotGrows(run[j - 1].nodes[n], run[j].nodes[n]);
      var step: Step :| Enabled(v, run[j - 1], step) && run[j] == Perform(v, run[j - 1], step);
      CandidateSteady(v, run[j - 1], step, n);
      CandidateLogFixed(v, run, i, j - 1, n);
    }
  }

  /** The load balancer's pointer only moves to newer terms, and names the unique leader of its term. */
  lemma PointerNamesTheLeader(v: Variant, run: seq<System>, i: nat, j: nat, n: NodeId)
    requires Run(v, run) && i < |run| && j < |run| && n in run[j].nodes
    ensures i <= j ==> run[i].lb.term <= run[j].lb.term
    ensures var lb := run[i].lb;
      lb.term > 0 ==> exists e :: e in run[i].hist.elected && e.term == lb.term && e.leader == lb.leader
    ensures var lb, a := run[i].lb, run[j].nodes[n];
      lb.term > 0 && a.identity == LEADER && a.currentTerm == lb.term ==> n == lb.leader
  {
    if i <= j { RunFollows(v, run, i, j); }
    RunInv(v, run, i);
    var term := run[i].lb.term;
    if term > 0 && run[j].nodes[n].identity == LEADER && run[j].nodes[n].currentTerm == term {
      var last := if i <= j then j else i;
      RunInv(v, run, j); RunInv(v, run, last);
      RunFollows(v, run, i, last); RunFollows(v, run, j, last);
      assert CandidacyOk(run[j], n);
      var e :| e in run[i].hist.elected && e.term == term && e.leader == run[i].lb.leader;
      var f :| f in run[j].hist.elected && f.term == term && f.leader == n;
      hide Inv, Next, Init;
      OneElectionPerTerm(run[last], e, f);
    }
  }

  // Replication; with the repaired handlers

  /** Log Matching, also between logs of different moments of the run. */
  lemma LogMatchingHolds(run: seq<System>, i: nat, j: nat, a: NodeId, b: NodeId, k: nat)
    requires Run(Repaired, run) && i < |run| && j < |run| && a in run[i].nodes && b in run[j].nodes
    requires k < |run[i].nodes[a].log| && k < |run[j].nodes[b].log|
    requires run[i].nodes[a].log[k].term == run[j].nodes[b].log[k].term
    ensures run[i].nodes[a].log[..k + 1] == run[j].nodes[b].log[..k + 1]
  {
    var last := if i <= j then j else i;
    GroundedLog(run, i, last, a);
    GroundedLog(run, j, last, b);
    Matching(run[last].hist.leaderLogs, run[i].nodes[a].log, run[j].nodes[b].log, k);
  }

  lemma GroundedLog(run: seq<System>, i: nat, last: nat, n: NodeId)
    requires Run(Repaired, run) && i <= last < |run| && n in run[i].nodes
    ensures Grounded(run[last].hist.leaderLogs, run[i].nodes[n].log)
  {
    hide Next, Init, ElectionInv, RestrictionInv, SafeInv, CommitInv, StoreInv, VotesGrow, BallotsGrow, Grounded;
    RunInv(Repaired, run, i);
    RunFollows(Repaired, run, i, last);
    assert NodeLogOk(run[i], n);
    GroundedGrows(run[i].hist.leaderLogs, run[last].hist.leaderLogs, run[i].nodes[n].log);
  }

  /** Terms never fall along a log, stay within the node's term, and only the sentinel has term 0. */
  lemma LogTermsRise(run: seq<System>, i: nat, n: NodeId, a: nat, b: nat)
    requires Run(Repaired, run) && i < |run| && n in run[i].nodes && a <= b < |run[i].nodes[n].log|
    ensures var log := run[i].nodes[n].log;
      && 0 <= log[a].term <= log[b].term <= run[i].nodes[n].currentTerm
      && (log[a].term == 0 <==> a == 0)
  {
    hide Next, Init, ElectionInv, RestrictionInv, SafeInv, CommitInv, StoreInv, Grounded, LeaderLogsOk;
    RunInv(Repaired, run, i);
    assert NodeLogOk(run[i], n);
    TermsRise(run[i].hist.leaderLogs, run[i].nodes[n].log, a, b);
    SentinelOnly(run[i].hist.leaderLogs, run[i].nodes[n].log, a);
  }

  /**
   The consistency check of any request ever sent, against any node's log at any later moment, passes exactly when
   that log holds the sender's log up to the checked index: reading term 0 past the end is never taken for an entry.
   */
  lemma CheckPassesExactly(run: seq<System>, i: nat, n: NodeId, m: Message)
    requires Run(Repaired, run) && i < |run| && n in run[i].nodes && m in run[i].net && m.AppendAsk?
    ensures 0 <= m.areq.prevIndex && m.areq.term in run[i].hist.leaderLogs
    ensures var log, sender, prev := run[i].nodes[n].log, run[i].hist.leaderLogs[m.areq.term], m.areq.prevIndex;
      TermAt(log, prev) == m.areq.prevTerm <==> prev < |log| && prev < |sender| && log[..prev + 1] == sender[..prev + 1]
  {
    hide Next, Init, ElectionInv, RestrictionInv, SafeInv, CommitInv, StoreInv, Grounded, LeaderLogsOk;
    RunInv(Repaired, run, i);
    assert NodeLogOk(run[i], n) && AppendMessageOk(run[i], m);
    var tl := run[i].hist.leaderLogs;
    assert Grounded(tl, tl[m.areq.term]) by { GroundedLeader(tl, m.areq.term); }
    CheckIsSound(tl, run[i].nodes[n].log, tl[m.areq.term], m.areq.prevIndex);
  }

  lemma GroundedLeader(tl: LeaderLogs, term: int)
    requires LeaderLogsOk(tl) && term in tl
    ensures Grounded(tl, tl[term])
  {}

  /** Leader Append-Only: within its term a leader's log only grows. */
  lemma LeaderAppendOnly(run: seq<System>, i: nat, j: nat, n: NodeId)
    requires Run(Repaired, run) && i <= j < |run| && n in run[i].nodes && n in run[j].nodes
    requires run[i].nodes[n].identity == LEADER && run[j].nodes[n].identity == LEADER
    requires run[i].nodes[n].currentTerm == run[j].nodes[n].currentTerm
    ensures run[i].nodes[n].log <= run[j].nodes[n].log
  {
    hide Next, Init, ElectionInv, RestrictionInv, SafeInv, CommitInv, StoreInv, VotesGrow, BallotsGrow, Grounded;
    RunInv(Repaired, run, i);
    RunInv(Repaired, run, j);
    RunFollows(Repaired, run, i, j);
    assert NodeLogOk(run[i], n) && NodeLogOk(run[j], n);
  }

  /** A put of node `n` has its majority. */
  predicate HasMajority(s: System, n: NodeId, id: PutId) {
    n in s.nodes && id in s.nodes[n].puts && ReceivedMajority(s.nodes[n].puts[id].count, |s.nodes|)
  }

  lemma MajorityIsChosen(run: seq<System>, i: nat, last: nat, n: NodeId, id: PutId)
    requires Run(Repaired, run) && i <= last < |run| && HasMajority(run[i], n, id)
    ensures Chosen(run[last], id.term, id.len)
    ensures 1 <= id.len <= |run[i].nodes[n].log|
    ensures run[i].nodes[n].log[..id.len] == Prefix(run[last], id.term, id.len)
  {
    hide Next, Init, ElectionInv, RestrictionInv, LogInv, BallotsGrow, CommitOk, ExecutedOk, LeaderCommitOk;
    RunInv(Repaired, run, i);
    RunFollows(Repaired, run, i, last);
    assert PutOk(run[i], n, id, run[i].nodes[n].puts[id]);
    hide CommitInv, StoreInv, SafeInv, LogsGrow, VotesGrow, PutOk, Chosen;
    MajorityChooses(run[i], n, id);
    ChosenStays(run[i], run[last], id.term, id.len);
    ChosenInLog(run[i], n, id.term, id.len);
    PrefixStays(run[i], run[last], id.term, id.len);
  }

  /**
   Leader Completeness: once a put has its majority, every node that leads a later term, at whatever moment of the
   run, holds the putter's log through the put's entry.
   */
  lemma LeaderCompleteness(run: seq<System>, i: nat, j: nat, n: NodeId, id: PutId, m: NodeId)
    requires Run(Repaired, run) && i < |run| && j < |run| && HasMajority(run[i], n, id)
    requires m in run[j].nodes && run[j].nodes[m].identity == LEADER && run[j].nodes[m].currentTerm > id.term
    ensures 1 <= id.len <= |run[i].nodes[n].log|
    ensures run[i].nodes[n].log[..id.len] <= run[j].nodes[m].log
  {
    hide Next, Init, RestrictionInv, SafeInv, CommitInv, StoreInv, BallotsGrow, Chosen, Grounded, LeaderLogsOk,
      AckOk, Prefix;
    var last := if i <= j then j else i;
    MajorityIsChosen(run, i, last, n, id);
    RunInv(Repaired, run, j); RunInv(Repaired, run, last);
    RunFollows(Repaired, run, j, last);
    assert CandidacyOk(run[j], m) && NodeLogOk(run[j], m);
    var e :| e in run[j].hist.elected && e.term == run[j].nodes[m].currentTerm && e.leader == m;
    assert ElectionLogOk(run[j].hist, e);
    ChosenAtElection(run[last], id.term, id.len, e);
  }

  /** State Machine Safety: over the whole run, restarts included, one entry per index is ever executed. */
  lemma StateMachineSafety(run: seq<System>, i: nat, j: nat, x: Executed, y: Executed)
    requires Run(Repaired, run) && i < |run| && j < |run|
    requires x in run[i].hist.executed && y in run[j].hist.executed && x.index == y.index
    ensures x.entry == y.entry
  {
    hide Next, Init, ElectionInv, RestrictionInv, LogInv, SafeInv, CommitInv, StoreInv, VotesGrow, BallotsGrow,
      LogsGrow;
    var last := if i <= j then j else i;
    RunInv(Repaired, run, last);
    RunFollows(Repaired, run, i, last); RunFollows(Repaired, run, j, last);
    ExecutedAgree(run[last], x, y);
  }

  lemma CommittedPrefix(run: seq<System>, i: nat, n: NodeId)
    requires Run(Repaired, run) && i < |run| && n in run[i].nodes
    ensures var a := run[i].nodes[n];
      0 <= a.commitIndex < |a.log| && Settled(run[i], a.log[..a.commitIndex + 1], a.currentTerm)
  {
    hide Next, Init, ElectionInv, RestrictionInv, LogInv, SafeInv, StoreInv, PutOk, ExecutedOk, LeaderCommitOk, Settled;
    RunInv(Repaired, run, i);
    assert CommitOk(run[i], run[i].nodes[n]);
  }

  /** Prefixes settled at any two moments agree. */
  lemma SettledAcross(run: seq<System>, i: nat, j: nat, x: seq<Entry>, y: seq<Entry>, k: nat,
                      boundX: int, boundY: int)
    requires Run(Repaired, run) && i < |run| && j < |run| && k < |x| && k < |y|
    requires Settled(run[i], x, boundX) && Settled(run[j], y, boundY)
    ensures x[k] == y[k]
  {
    hide Next, Init, ElectionInv, RestrictionInv, SafeInv, CommitInv, StoreInv, VotesGrow, BallotsGrow, LogsGrow,
      Settled,
      LeaderLogsOk;
    var last := if i <= j then j else i;
    RunInv(Repaired, run, last);
    RunFollows(Repaired, run, i, last); RunFollows(Repaired, run, j, last);
    SettledStays(run[i], run[last], x, boundX, boundX);
    SettledStays(run[j], run[last], y, boundY, boundY);
    SettledAgree(run[last], x, y, k, boundX, boundY);
  }

  /** Any two nodes, at any two moments, agree on every index both have committed. */
  lemma CommittedLogsAgree(run: seq<System>, i: nat, j: nat, a: NodeId, b: NodeId, k: nat)
    requires Run(Repaired, run) && i < |run| && j < |run| && a in run[i].nodes && b in run[j].nodes
    requires k <= run[i].nodes[a].commitIndex && k <= run[j].nodes[b].commitIndex
    ensures k < |run[i].nodes[a].log| && k < |run[j].nodes[b].log|
    ensures run[i].nodes[a].log[k] == run[j].nodes[b].log[k]
  {
    hide Run, Settled;
    CommittedPrefix(run, i, a);
    CommittedPrefix(run, j, b);
    var x, y := run[i].nodes[a], run[j].nodes[b];
    SettledAcross(run, i, j, x.log[..x.commitIndex + 1], y.log[..y.commitIndex + 1], k, x.currentTerm, y.currentTerm);
  }

  // The key-value stores; with the repaired handlers

  /** The highest index a node ever reached is that of a command it executed, unless it never left the sentinel. */
  lemma {:induction false} ReachedWasExecuted(run: seq<System>, i: nat, n: NodeId)
    requires Run(Repaired, run) && i < |run| && n in run[i].nodes
    ensures var r := Reached(run[i].hist, n); r == 0 || exists e :: Executed(n, r, e) in run[i].hist.executed
  {
    hide Inv, Next, Init;
    if i == 0 {
      assert Init(run[0]);
      NothingReached(run[0], n);
    } else {
      assert Next(Repaired, run[i - 1], run[i - 1 + 1]);
      RunFollows(Repaired, run, i - 1, i);
      RunInv(Repaired, run, i - 1);
      NodesStay(run, i - 1, i, n);
      ReachedWasExecuted(run, i - 1, n);
      NextReaches(run[i - 1], run[i], n);
    }
  }

  lemma NothingReached(s: System, n: NodeId)
    requires Init(s)
    ensures Reached(s.hist, n) == 0
  {}

  lemma NodesStay(run: seq<System>, i: nat, j: nat, n: NodeId)
    requires i <= j < |run| && Follows(Repaired, run[i], run[j]) && n in run[j].nodes
    ensures n in run[i].nodes
  {}

  lemma NextReaches(s: System, s': System, n: NodeId)
    requires Inv(Repaired, s) && Next(Repaired, s, s') && n in s.nodes
    ensures s.hist.executed <= s'.hist.executed
    ensures var r := Reached(s'.hist, n);
      r == Reached(s.hist, n) || exists e :: Executed(n, r, e) in s'.hist.executed
  {
    StoresOf(s);
    hide Inv, Enabled, Perform, StoreInv;
    var step: Step :| Enabled(Repaired, s, step) && s' == Perform(Repaired, s, step);
    StepReachesExecuted(s, step, n);
  }

  lemma StoresOf(s: System)
    requires Inv(Repaired, s)
    ensures StoreInv(s)
  {
    hide ElectionInv, RestrictionInv, LogInv, SafeInv, CommitInv, StoreInv;
  }

  /** The node has again executed as far as it ever had, before whatever crashes: no command it executed lies beyond. */
  predicate AtItsHighest(run: seq<System>, i: nat, n: NodeId) {
    i < |run| && n in run[i].nodes &&
    forall x | x in run[i].hist.executed && x.id == n :: x.index <= run[i].nodes[n].lastApplied
  }

  lemma HighestReached(run: seq<System>, i: nat, n: NodeId)
    requires Run(Repaired, run) && AtItsHighest(run, i, n)
    ensures var a, r := run[i].nodes[n], run[i].nodes[n].lastApplied;
      0 <= r < |a.log| && Settled(run[i], a.log[..r + 1], a.currentTerm) && Fits(a.store, a.log, r, r)
  {
    hide Next, Init, ElectionInv, RestrictionInv, LogInv, SafeInv, CommitInv, Settled, Fits;
    RunInv(Repaired, run, i);
    ReachedWasExecuted(run, i, n);
    assert StoreOk(run[i], run[i].nodes[n], Reached(run[i].hist, n));
  }

  /**
   Replays converge: although windows overlap and a restart executes the whole log again over a surviving store, a
   node that has caught up with its own past holds the log's commands executed once, in order, from an empty store.
   The sentinel's key aside, which only followers ever write.
   */
  lemma ReplayConverges(run: seq<System>, i: nat, n: NodeId)
    requires Run(Repaired, run) && AtItsHighest(run, i, n)
    ensures var a := run[i].nodes[n]; SameBut(a.store, Applied(map[], a.log, 1, a.lastApplied), "NULL")
  {
    hide Run, Settled, Fits, Applied;
    HighestReached(run, i, n);
    CaughtUp(run[i].nodes[n].store, run[i].nodes[n].log, run[i].nodes[n].lastApplied);
  }

  /** Two nodes that executed equally far hold the same store, wherever and whenever they did. */
  lemma StoresAgree(run: seq<System>, i: nat, j: nat, a: NodeId, b: NodeId)
    requires Run(Repaired, run) && AtItsHighest(run, i, a) && AtItsHighest(run, j, b)
    requires run[i].nodes[a].lastApplied == run[j].nodes[b].lastApplied
    ensures SameBut(run[i].nodes[a].store, run[j].nodes[b].store, "NULL")
  {
    hide Run, Settled, Fits, Applied;
    var x, y, r := run[i].nodes[a], run[j].nodes[b], run[i].nodes[a].lastApplied;
    HighestReached(run, i, a); HighestReached(run, j, b);
    ReplayConverges(run, i, a); ReplayConverges(run, j, b);
    forall k | 0 <= k <= r ensures x.log[k] == y.log[k] {
      SettledAcross(run, i, j, x.log[..r + 1], y.log[..r + 1], k, x.currentTerm, y.currentTerm);
    }
    AppliedPrefix(map[], x.log, y.log, 1, r);
  }
}
