/** When a candidate wins, as coded and repaired: not only must a winner have a majority, a majority suffices. */
module Winning {
  import opened RaftTypes
  import opened RaftNode
  import opened HandlerLaws
  import opened RaftSystem
  import opened Quorum
  import opened Elections
  import opened Driving
  import opened Commitment

  /** A candidate's count is exactly the number of nodes it no longer waits for, itself included. */
  predicate CountExact(s: System, n: NodeId)
    requires n in s.nodes
  {
    var a := s.nodes[n];
    a.identity == CANDIDATE ==>
      && a.awaiting <= s.nodes.Keys && n !in a.awaiting && a.votesGained == |s.nodes.Keys - a.awaiting|
  }

  predicate CountsExact(s: System) {
    forall n | n in s.nodes :: CountExact(s, n)
  }

  lemma StartedCount(s: System, s': System, n: NodeId)
    requires n in s.nodes && s'.nodes.Keys == s.nodes.Keys && s'.nodes[n] == StartElection(s.nodes[n], n, s.nodes.Keys)
    ensures CountExact(s', n)
  {
    assert s.nodes.Keys - (s.nodes.Keys - {n}) == {n};
  }

  lemma CountedCount(s: System, s': System, n: NodeId, from: NodeId)
    requires n in s.nodes && s'.nodes.Keys == s.nodes.Keys && CountExact(s, n)
    requires CountsVote(s.nodes[n], s'.nodes[n], from)
    ensures CountExact(s', n)
  {
    var a := s.nodes[n];
    if a.identity == CANDIDATE {
      assert s.nodes.Keys - (a.awaiting - {from}) == (s.nodes.Keys - a.awaiting) + {from};
    }
  }

  lemma StepCount(v: Variant, s: System, step: Step, n: NodeId)
    requires Enabled(v, s, step) && n in s.nodes && CountExact(s, n)
    ensures n in Perform(v, s, step).nodes && CountExact(Perform(v, s, step), n)
  {
    hide Perform, StartElection, OnVoteReply, BecomeLeader;
    var s' := Perform(v, s, step);
    StepMoves(v, s, step);
    if !step.Deliver? && n == Actor(v, s, step) {
      if step.Timeout? {
        StartedCount(s, s', n);
      } else if step.CountVote? {
        VoteReplyCases(s.nodes[n], step.m.from, step.m.vreq, step.m.vreply);
        if !SameCandidacy(s.nodes[n], s'.nodes[n]) { CountedCount(s, s', n, step.m.from); }
      } else if step.Win? {
        OfficeLaw(s.nodes[n], s.nodes.Keys);
      } else {
        ActorCandidacy(v, s, step);
        hide NodeAfter;
      }
    }
  }

  lemma {:induction false} RunCounts(v: Variant, run: seq<System>, i: nat)
    requires Run(v, run) && i < |run|
    ensures CountsExact(run[i])
  {
    if i > 0 {
      RunCounts(v, run, i - 1);
      assert Next(v, run[i - 1], run[i - 1 + 1]);
      hide Perform, Enabled, Init, CountExact;
      var step: Step :| Enabled(v, run[i - 1], step) && run[i] == Perform(v, run[i - 1], step);
      StepMoves(v, run[i - 1], step);
      hide NodeAfter;
      forall n | n in run[i].nodes ensures CountExact(run[i], n) {
        StepCount(v, run[i - 1], step, n);
      }
    }
  }

  /** In any state of a run a candidate can win exactly when it no longer waits for a majority, itself included. */
  lemma WinsExactly(v: Variant, run: seq<System>, i: nat, n: NodeId)
    requires Run(v, run) && i < |run| && n in run[i].nodes && run[i].nodes[n].identity == CANDIDATE
    ensures Enabled(v, run[i], Win(n)) <==>
      Majority(run[i].nodes.Keys - run[i].nodes[n].awaiting, run[i].nodes.Keys)
  {
    RunCounts(v, run, i);
    assert CountExact(run[i], n);
    WinLaw(run[i].nodes[n], |run[i].nodes|);
    assert |run[i].nodes| == |run[i].nodes.Keys|;
    hide Run, WinsElection;
  }

  /** An answer on its way grants the candidate a vote in its present term. */
  ghost predicate Granted(s: System, p: NodeId, n: NodeId)
    requires n in s.nodes
  {
    exists m :: m in s.net && m.VoteAnswer? && m.from == p && m.vreq.candidate == n && m.vreply.granted
      && m.vreq.term == s.nodes[n].currentTerm
  }

  /** Counting the grants on their way, one after another, leaves the candidate waiting for none of them. */
  lemma {:induction false} CountAll(v: Variant, run: seq<System>, n: NodeId, rest: set<NodeId>)
    returns (longer: seq<System>)
    requires Ongoing(v, run) && n in Last(run).nodes && Last(run).nodes[n].identity == CANDIDATE
    requires rest <= Last(run).nodes[n].awaiting && forall p | p in rest :: Granted(Last(run), p, n)
    ensures Extends(v, run, longer) && Last(longer).nodes.Keys == Last(run).nodes.Keys
    ensures var a, b := Last(run).nodes[n], Last(longer).nodes[n];
      b.identity == CANDIDATE && b.currentTerm == a.currentTerm && b.awaiting == a.awaiting - rest
    decreases |rest|
  {
    hide Run, OnVoteReply;
    if rest == {} {
      longer := run;
    } else {
      var p :| p in rest;
      var s := Last(run);
      assert Granted(s, p, n);
      var m :| m in s.net && m.VoteAnswer? && m.from == p && m.vreq.candidate == n && m.vreply.granted
        && m.vreq.term == s.nodes[n].currentTerm;
      var once := TakeCount(v, run, m);
      VoteAnswerLaw(s.nodes[n], p, m.vreq, m.vreply);
      assert Last(once).nodes[n].awaiting == s.nodes[n].awaiting - {p};
      forall q | q in rest - {p} ensures Granted(Last(once), q, n) {
        GrantStays(s, Last(once), q, n);
      }
      longer := CountAll(v, once, n, rest - {p});
      hide Extends;
      Onward(v, run, once, longer);
    }
  }

  lemma GrantStays(s: System, s': System, p: NodeId, n: NodeId)
    requires n in s.nodes && n in s'.nodes && Granted(s, p, n) && s.net <= s'.net
    requires s'.nodes[n].currentTerm == s.nodes[n].currentTerm
    ensures Granted(s', p, n)
  {}

  /**
   A candidate for whom a majority's grants of its present term have been counted or are on their way, its own vote
   included, can be elected in that term: the run goes on to a state in which it leads.
   */
  lemma ElectionCanSucceed(v: Variant, run: seq<System>, n: NodeId, majority: set<NodeId>) returns (longer: seq<System>)
    requires Ongoing(v, run) && n in Last(run).nodes && Last(run).nodes[n].identity == CANDIDATE
    requires Majority(majority, Last(run).nodes.Keys)
    requires forall p | p in majority && p in Last(run).nodes[n].awaiting :: Granted(Last(run), p, n)
    ensures Extends(v, run, longer) && n in Last(longer).nodes && Last(longer).nodes[n].identity == LEADER
    ensures Last(longer).nodes[n].currentTerm == Last(run).nodes[n].currentTerm
  {
    var counted := CountAll(v, run, n, majority * Last(run).nodes[n].awaiting);
    var s := Last(counted);
    CanWin(v, counted, n, majority);
    hide Run, WinsElection, Majority;
    longer := TakeWin(v, counted, n);
    OfficeLaw(s.nodes[n], s.nodes.Keys);
    hide BecomeLeader, Extends;
    Onward(v, run, counted, longer);
  }

  lemma CanWin(v: Variant, run: seq<System>, n: NodeId, majority: set<NodeId>)
    requires Ongoing(v, run) && n in Last(run).nodes && Last(run).nodes[n].identity == CANDIDATE
    requires Majority(majority, Last(run).nodes.Keys) && majority !! Last(run).nodes[n].awaiting
    ensures WinsElection(Last(run).nodes[n], |Last(run).nodes|)
  {
    var s := Last(run);
    Grows(majority, s.nodes.Keys - s.nodes[n].awaiting, s.nodes.Keys);
    WinsExactly(v, run, |run| - 1, n);
    hide Run, Majority, WinsElection;
  }

  // Puts

  /** A put's count is exactly the number of nodes it no longer waits for, its own included. */
  predicate PutExact(s: System, put: Put) {
    put.waiting <= s.nodes.Keys && put.count == |s.nodes.Keys - put.waiting|
  }

  predicate PutsExact(s: System, n: NodeId)
    requires n in s.nodes
  {
    forall id | id in s.nodes[n].puts :: PutExact(s, s.nodes[n].puts[id])
  }

  lemma OnePut(s: System, n: NodeId)
    requires n in s.nodes
    ensures PutExact(s, Put(1, s.nodes.Keys - {n}))
  {
    assert s.nodes.Keys - (s.nodes.Keys - {n}) == {n};
  }

  lemma OneMoreAck(s: System, put: Put, from: NodeId)
    requires PutExact(s, put) && from in put.waiting
    ensures PutExact(s, Put(put.count + 1, put.waiting - {from}))
  {
    assert s.nodes.Keys - (put.waiting - {from}) == (s.nodes.Keys - put.waiting) + {from};
  }

  lemma StepPutsExact(v: Variant, s: System, step: Step, n: NodeId)
    requires Enabled(v, s, step) && n in s.nodes && PutsExact(s, n)
    ensures n in Perform(v, s, step).nodes && PutsExact(Perform(v, s, step), n)
  {
    hide Perform, OnAppendReply, NodeAfter, PutExact;
    var s' := Perform(v, s, step);
    StepPuts(v, s, step, n);
    if !step.Deliver? && n == Actor(v, s, step) {
      ActorPuts(v, s, step);
      OnePut(s, n);
      if step.UseAppendAnswer? {
        var m := step.m;
        AnswerPuts(v, s.nodes[n], m.from, m.next, m.len, m.purpose, m.areq, m.areply);
        if CountsAck(v, s.nodes[n], m.from, m.purpose, m.areq.term) {
          OneMoreAck(s, s.nodes[n].puts[m.purpose.id], m.from);
        }
      }
      hide Enabled;
      forall id | id in s'.nodes[n].puts ensures PutExact(s', s'.nodes[n].puts[id]) {
        SameSize(s, s', s'.nodes[n].puts[id]);
      }
    } else {
      forall id | id in s'.nodes[n].puts ensures PutExact(s', s'.nodes[n].puts[id]) {
        SameSize(s, s', s'.nodes[n].puts[id]);
      }
    }
  }

  lemma SameSize(s: System, s': System, put: Put)
    requires s'.nodes.Keys == s.nodes.Keys
    ensures PutExact(s, put) <==> PutExact(s', put)
  {}

  lemma {:induction false} RunPutsExact(v: Variant, run: seq<System>, i: nat, n: NodeId)
    requires Run(v, run) && i < |run| && n in run[i].nodes
    ensures PutsExact(run[i], n)
  {
    hide Next, Init, PutsExact;
    if i == 0 {
      assert Init(run[0]);
      NoPuts(run[0], n);
    } else {
      assert Next(v, run[i - 1], run[i - 1 + 1]);
      NextNodes(v, run[i - 1], run[i]);
      RunPutsExact(v, run, i - 1, n);
      NextPutsExact(v, run[i - 1], run[i], n);
    }
  }

  lemma NoPuts(s: System, n: NodeId)
    requires Init(s) && n in s.nodes
    ensures PutsExact(s, n)
  {}

  lemma NextNodes(v: Variant, s: System, s': System)
    requires Next(v, s, s')
    ensures s'.nodes.Keys == s.nodes.Keys
  {
    hide Perform, Enabled, NodeAfter;
    var step: Step :| Enabled(v, s, step) && s' == Perform(v, s, step);
    StepMoves(v, s, step);
  }

  lemma NextPutsExact(v: Variant, s: System, s': System, n: NodeId)
    requires Next(v, s, s') && n in s.nodes && PutsExact(s, n)
    ensures n in s'.nodes && PutsExact(s', n)
  {
    hide Perform, Enabled, PutsExact;
    var step: Step :| Enabled(v, s, step) && s' == Perform(v, s, step);
    StepPutsExact(v, s, step, n);
  }

  /** In any state of a run a put can commit exactly when it no longer waits for a majority, its own node included. */
  lemma CommitsExactly(v: Variant, run: seq<System>, i: nat, n: NodeId, id: PutId)
    requires Run(v, run) && i < |run| && n in run[i].nodes && id in run[i].nodes[n].puts
    ensures run[i].nodes[n].puts[id].waiting <= run[i].nodes.Keys
    ensures |run[i].nodes| > 1 ==> (Enabled(v, run[i], CommitPut(n, id)) <==>
      Majority(run[i].nodes.Keys - run[i].nodes[n].puts[id].waiting, run[i].nodes.Keys))
    ensures |run[i].nodes| == 1 ==> Enabled(v, run[i], CommitPut(n, id))
  {
    RunPutsExact(v, run, i, n);
    assert PutExact(run[i], run[i].nodes[n].puts[id]);
    MajorityLaw(run[i].nodes[n].puts[id].count, |run[i].nodes|);
    assert |run[i].nodes| == |run[i].nodes.Keys|;
    hide Run, ReceivedMajority;
  }
}
