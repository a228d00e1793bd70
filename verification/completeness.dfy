/** Leader Completeness with the repaired handlers: an entry a majority acknowledged is in every later leader's log. */
module Completeness {
  import opened RaftTypes
  import opened RaftNode
  import opened RaftSystem
  import opened Quorum
  import opened Elections
  import opened LogMatching
  import opened Replication

  /** The first `len` entries of a term's leader log end with an entry of that very term. */
  predicate Anchor(s: System, term: int, len: int) {
    && term in s.hist.leaderLogs
    && 1 <= len <= |s.hist.leaderLogs[term]|
    && s.hist.leaderLogs[term][len - 1].term == term
  }

  function Prefix(s: System, term: int, len: int): seq<Entry>
    requires Anchor(s, term, len)
  {
    s.hist.leaderLogs[term][..len]
  }

  function Holders(s: System, term: int, len: int): set<NodeId> {
    set p | p in s.nodes && Held(s.hist, p, term) >= len
  }

  /** Nodes that left the term without acknowledging that much of it; they never will. */
  function Deserters(s: System, term: int, len: int): set<NodeId> {
    set p | p in s.nodes && s.nodes[p].currentTerm > term && Held(s.hist, p, term) < len
  }

  /** A majority acknowledged the prefix, in its term. */
  predicate Chosen(s: System, term: int, len: int) {
    Anchor(s, term, len) && Majority(Holders(s, term, len), s.nodes.Keys)
  }

  /** No majority will ever acknowledge it. */
  predicate Blocked(s: System, term: int, len: int) {
    Majority(Deserters(s, term, len), s.nodes.Keys)
  }

  predicate Keeps(s: System, l: seq<Entry>, term: int, len: int)
    requires Anchor(s, term, len)
  {
    Prefix(s, term, len) <= l || Blocked(s, term, len)
  }

  predicate Owed(s: System, p: NodeId, term: int, len: int) {
    Anchor(s, term, len) && len <= Held(s.hist, p, term)
  }

  /** A node still holds what it acknowledged, unless that can no longer be chosen. */
  ghost predicate NodeSafe(s: System, n: NodeId)
    requires n in s.nodes
  {
    forall t, k | Owed(s, n, t, k) :: Keeps(s, s.nodes[n].log, t, k)
  }

  /** A later leader's log holds whatever of an earlier term may yet be chosen. */
  ghost predicate LeaderSafe(s: System, term: int)
    requires term in s.hist.leaderLogs
  {
    forall t, k | t < term && Anchor(s, t, k) :: Keeps(s, s.hist.leaderLogs[term], t, k)
  }

  /** So does a candidate's log, as far as its voters acknowledged it. */
  ghost predicate VoteSafe(s: System, c: NodeId, p: NodeId)
    requires c in s.nodes && p in s.nodes
  {
    var a := s.nodes[c];
    a.identity == CANDIDATE && Voted(s.nodes[p], a.currentTerm, c) ==>
      forall t, k | t < a.currentTerm && Owed(s, p, t, k) :: Keeps(s, a.log, t, k)
  }

  ghost predicate SafeInv(s: System) {
    && (forall n | n in s.nodes :: NodeSafe(s, n))
    && (forall t | t in s.hist.leaderLogs :: LeaderSafe(s, t))
    && (forall c, p | c in s.nodes && p in s.nodes :: VoteSafe(s, c, p))
  }

  lemma NotBoth(s: System, term: int, len: int)
    ensures !(Chosen(s, term, len) && Blocked(s, term, len))
  {
    if Chosen(s, term, len) && Blocked(s, term, len) {
      var p := Overlap(Holders(s, term, len), Deserters(s, term, len), s.nodes.Keys);
    }
  }

  // What later states inherit

  lemma BlockedStays(s: System, s': System, term: int, len: int)
    requires Blocked(s, term, len) && LogsGrow(s, s') && VotesGrow(s, s')
    ensures Blocked(s', term, len)
  {
    Grows(Deserters(s, term, len), Deserters(s', term, len), s'.nodes.Keys);
  }

  lemma KeepsStays(s: System, s': System, l: seq<Entry>, l': seq<Entry>, term: int, len: int)
    requires Anchor(s, term, len) && Keeps(s, l, term, len) && LogsGrow(s, s') && VotesGrow(s, s')
    requires l <= l'
    ensures Anchor(s', term, len) && Keeps(s', l', term, len)
    ensures Prefix(s', term, len) == Prefix(s, term, len)
  {
    if Blocked(s, term, len) { BlockedStays(s, s', term, len); }
  }

  lemma ChosenStays(s: System, s': System, term: int, len: int)
    requires Chosen(s, term, len) && LogsGrow(s, s') && VotesGrow(s, s')
    ensures Chosen(s', term, len)
  {
    Grows(Holders(s, term, len), Holders(s', term, len), s'.nodes.Keys);
  }

  // Logs that are at least as recent

  /** The election restriction at work: a candidate whose log is at least as recent holds what its voter holds. */
  lemma RecentLogKeeps(s: System, c: seq<Entry>, p: seq<Entry>, term: int, len: int)
    requires LeaderLogsOk(s.hist.leaderLogs) && Grounded(s.hist.leaderLogs, c) && Grounded(s.hist.leaderLogs, p)
    requires Anchor(s, term, len) && Prefix(s, term, len) <= p
    requires forall t | t in s.hist.leaderLogs :: LeaderSafe(s, t)
    requires var ct, pt := TermAt(c, |c| - 1), TermAt(p, |p| - 1); ct > pt || (ct == pt && |c| >= |p|)
    ensures Keeps(s, c, term, len)
  {
    var tl := s.hist.leaderLogs;
    var last := c[|c| - 1].term;
    assert p[len - 1] == Prefix(s, term, len)[len - 1];
    TermsRise(tl, p, len - 1, |p| - 1);
    assert c == c[..|c|] && c <= tl[last];
    if last > term {
      assert LeaderSafe(s, last);
      assert Keeps(s, tl[last], term, len);
    }
  }

  // Steps

  /** Only a put makes a new prefix that ends with an entry of its own term. */
  lemma NewAnchor(s: System, step: Step, term: int, len: int)
    requires ElectionInv(s) && LogInv(s) && Enabled(Repaired, s, step)
    requires Anchor(Perform(Repaired, s, step), term, len)
    ensures Anchor(s, term, len) ||
      (step.ClientPut? && term == s.nodes[step.n].currentTerm && len == |s.nodes[step.n].log| + 1)
  {
    hide Perform, ElectionInv, AckOk, AppendMessageOk, ElectionLogOk, LeaderLogsOk, AckBy;
    StepRecords(Repaired, s, step);
    if step.Win? {
      WinIsFresh(Repaired, s, step.n);
      assert NodeLogOk(s, step.n);
      hide LogInv, Enabled;
      WonAnchor(s, s.nodes[step.n].log, s.nodes[step.n].currentTerm);
    } else if step.ClientPut? {
      assert NodeLogOk(s, step.n);
      hide LogInv, Grounded, Bounded;
    } else {
      hide LogInv, Enabled;
    }
  }

  /** The log a leader is elected with has no entry of the new term yet. */
  lemma WonAnchor(s: System, log: seq<Entry>, term: int)
    requires Grounded(s.hist.leaderLogs, log) && term !in s.hist.leaderLogs
    ensures forall i | 0 <= i < |log| :: log[i].term != term
  {}

  /** Every elected term has left behind a majority of nodes that reached it. */
  lemma TermReached(s: System, term: int) returns (voters: set<NodeId>)
    requires ElectionInv(s) && LogInv(s) && term in s.hist.leaderLogs && term != 0
    ensures Majority(voters, s.nodes.Keys) && forall p | p in voters :: s.nodes[p].currentTerm >= term
  {
    assert ElectedTerm(s.hist, term);
    hide LogInv;
    var e :| e in s.hist.elected && e.term == term;
    assert ElectionOk(s, e);
    voters := Voters(s, e.term, e.leader);
    forall p | p in voters ensures s.nodes[p].currentTerm >= term { assert VotesOk(s, p); }
  }

  /** Nobody acknowledged more of a term than its leader's log holds. */
  lemma HeldBound(s: System, p: NodeId, term: int)
    requires LogInv(s) && term in s.hist.leaderLogs
    ensures Held(s.hist, p, term) <= |s.hist.leaderLogs[term]|
  {
    hide LeaderLogsOk, NodeLogOk, ElectionLogOk, AppendMessageOk, ElectedTerm;
    if (p, term) in s.hist.acked { assert AckOk(s, p, term); }
  }

  lemma LateDeserter(s: System, s': System, p: NodeId, term: int, len: int)
    requires LogsGrow(s, s') && VotesGrow(s, s')
    requires p in s.nodes && s.nodes[p].currentTerm > term && Held(s.hist, p, term) < len
    ensures p in Deserters(s', term, len)
  {
    assert BallotGrows(s.nodes[p], s'.nodes[p]);
  }

  lemma DesertersAreNodes(s: System, term: int, len: int)
    ensures Deserters(s, term, len) <= s.nodes.Keys
  {}

  /** The putter's log is its term's leader log. */
  lemma PutterLog(s: System, step: Step)
    requires ElectionInv(s) && LogInv(s) && Enabled(Repaired, s, step) && step.ClientPut?
    ensures var a := s.nodes[step.n];
      a.currentTerm >= 0 && a.currentTerm in s.hist.leaderLogs && s.hist.leaderLogs[a.currentTerm] == a.log
  {
    hide Grounded, Bounded, NextIndexOk, AckOk, AppendMessageOk, ElectionLogOk, LeaderLogsOk, ElectedTerm;
    assert NodeLogOk(s, step.n) && VotesOk(s, step.n);
  }

  /** A late entry of an old leader cannot be chosen: a majority has already moved on without it. */
  lemma LatePutBlocked(s: System, step: Step, later: int)
    requires ElectionInv(s) && LogInv(s) && Enabled(Repaired, s, step) && step.ClientPut?
    requires later in s.hist.leaderLogs && later > s.nodes[step.n].currentTerm
    ensures Blocked(Perform(Repaired, s, step), s.nodes[step.n].currentTerm, |s.nodes[step.n].log| + 1)
  {
    hide Perform, ElectionInv, LogInv, LogsGrow, Deserters, Held;
    var s' := Perform(Repaired, s, step);
    var term, len := s.nodes[step.n].currentTerm, |s.nodes[step.n].log| + 1;
    StepLogsGrow(s, step);
    StepVotesGrow(Repaired, s, step);
    PutterLog(s, step);
    var voters := TermReached(s, later);
    forall p | p in voters ensures p in Deserters(s', term, len) {
      HeldBound(s, p, term);
      LateDeserter(s, s', p, term, len);
    }
    DesertersAreNodes(s', term, len);
    Grows(voters, Deserters(s', term, len), s.nodes.Keys);
  }

  /** A winner's log keeps what may yet be chosen: one of its voters had acknowledged it. */
  lemma WinnerKeeps(s: System, c: NodeId, term: int, len: int)
    requires ElectionInv(s) && SafeInv(s) && c in s.nodes && WinsElection(s.nodes[c], |s.nodes|)
    requires Anchor(s, term, len) && term < s.nodes[c].currentTerm
    ensures Keeps(s, s.nodes[c].log, term, len)
  {
    var a := s.nodes[c];
    assert CandidacyOk(s, c);
    var voters := Voters(s, a.currentTerm, c);
    Smaller(voters - a.awaiting, voters);
    assert |s.nodes.Keys| == |s.nodes|;
    if p :| p in voters && len <= Held(s.hist, p, term) {
      assert VoteSafe(s, c, p) && Owed(s, p, term, len);
    } else {
      forall p | p in voters ensures p in Deserters(s, term, len) { assert VotesOk(s, p); }
      hide ElectionInv, SafeInv, CandidacyOk;
      Grows(voters, Deserters(s, term, len), s.nodes.Keys);
    }
  }

  lemma StepLeaderKeeps(s: System, step: Step, later: int, term: int, len: int)
    requires ElectionInv(s) && LogInv(s) && SafeInv(s) && Enabled(Repaired, s, step)
    requires var s' := Perform(Repaired, s, step);
      later in s'.hist.leaderLogs && term < later && Anchor(s', term, len)
    ensures Keeps(Perform(Repaired, s, step), Perform(Repaired, s, step).hist.leaderLogs[later], term, len)
  {
    hide Perform, NodeSafe, VoteSafe, ElectionInv, LogInv, VotesGrow, AckBy, Blocked;
    var s' := Perform(Repaired, s, step);
    StepRecords(Repaired, s, step);
    StepLogsGrow(s, step);
    StepVotesGrow(Repaired, s, step);
    NewAnchor(s, step, term, len);
    if step.ClientPut? { PutterLog(s, step); }
    if !Anchor(s, term, len) {
      LatePutBlocked(s, step, later);
    } else if later in s.hist.leaderLogs {
      assert LeaderSafe(s, later);
      KeepsStays(s, s', s.hist.leaderLogs[later], s'.hist.leaderLogs[later], term, len);
    } else {
      WinnerKeeps(s, step.n, term, len);
      KeepsStays(s, s', s.nodes[step.n].log, s'.hist.leaderLogs[later], term, len);
    }
  }

  /** A stretch accepted from a later leader never removes what may yet be chosen. */
  lemma MergeKeeps(s: System, l: seq<Entry>, later: int, k: nat, term: int, len: int)
    requires later in s.hist.leaderLogs && LeaderSafe(s, later) && k <= |s.hist.leaderLogs[later]|
    requires Anchor(s, term, len) && term <= later && Keeps(s, l, term, len)
    ensures Keeps(s, Merged(l, s.hist.leaderLogs[later], k), term, len)
  {
    var x := s.hist.leaderLogs[later];
    assert Keeps(s, x, term, len);
  }

  lemma NewHolder(h: History, h': History, w: Write, k: Ack, p: NodeId, term: int, len: int)
    requires Recorded(h, h', w, k) && Held(h, p, term) < len <= Held(h', p, term)
    ensures k.Ack? && p == k.p && term == k.term && len <= k.len
  {}

  /** Whoever newly owes something has just acknowledged it. */
  lemma NewDebtor(s: System, step: Step, n: NodeId, term: int, len: int)
    requires ElectionInv(s) && LogInv(s) && Enabled(Repaired, s, step)
    requires Owed(Perform(Repaired, s, step), n, term, len) && !Owed(s, n, term, len)
    ensures AckBy(s, step).Ack? && n == AckBy(s, step).p && term == AckBy(s, step).term && len <= AckBy(s, step).len
  {
    NewAnchor(s, step, term, len);
    if (n, term) in s.hist.acked { assert AckOk(s, n, term); }
    if step.ClientPut? { assert NodeLogOk(s, step.n); }
    StepRecords(Repaired, s, step);
    hide Perform, ElectionInv, LogInv, Enabled, Grounded, Bounded, Recorded;
    NewHolder(s.hist, Perform(Repaired, s, step).hist, WriteBy(s, step), AckBy(s, step), n, term, len);
  }

  /** Acknowledging a length of a term means holding that much of the term's leader log. */
  lemma AckHeld(s: System, step: Step)
    requires ElectionInv(s) && LogInv(s) && Enabled(Repaired, s, step) && AckBy(s, step).Ack?
    ensures var k, s' := AckBy(s, step), Perform(Repaired, s, step);
      && k.p in s.nodes && k.term in s'.hist.leaderLogs && 0 <= k.len <= |s'.hist.leaderLogs[k.term]|
      && s'.hist.leaderLogs[k.term][..k.len] <= s'.nodes[k.p].log
  {
    hide Perform, ElectionInv, LogInv, Confirm, InsertRepaired, Accepts;
    StepRecords(Repaired, s, step);
    if step.ClientPut? {
      StepLog(Repaired, s, step, step.n);
    } else {
      AcceptedNode(s, step.m);
    }
  }

  /** What a node newly owes it holds. */
  lemma NewlyOwedKept(s: System, step: Step, n: NodeId, term: int, len: int)
    requires ElectionInv(s) && LogInv(s) && Enabled(Repaired, s, step) && n in s.nodes
    requires var s' := Perform(Repaired, s, step); Owed(s', n, term, len) && !Owed(s, n, term, len)
    ensures Keeps(Perform(Repaired, s, step), Perform(Repaired, s, step).nodes[n].log, term, len)
  {
    hide Perform, ElectionInv, LogInv, Enabled, AckBy, Blocked, Held;
    NewDebtor(s, step, n, term, len);
    AckHeld(s, step);
  }

  /** Neither does a crash inside its insertion: what may yet be chosen begins both logs. */
  lemma TornKeeps(s: System, l: seq<Entry>, later: int, torn: seq<Entry>, term: int, len: int)
    requires later in s.hist.leaderLogs && LeaderSafe(s, later) && TornBetween(l, s.hist.leaderLogs[later], torn)
    requires Anchor(s, term, len) && term <= later && Keeps(s, l, term, len)
    ensures Keeps(s, torn, term, len)
  {
    assert Keeps(s, s.hist.leaderLogs[later], term, len);
    assert Agree(l, s.hist.leaderLogs[later], len) || Blocked(s, term, len);
  }

  /** What a node owes is of a term it has reached. */
  lemma OwedTerm(s: System, n: NodeId, term: int, len: int)
    requires LogInv(s) && Owed(s, n, term, len)
    ensures n in s.nodes && term <= s.nodes[n].currentTerm
  {
    hide NodeLogOk, AppendMessageOk, ElectionLogOk, LeaderLogsOk, ElectedTerm;
    assert (n, term) in s.hist.acked && AckOk(s, n, term);
  }

  lemma AcceptedKeeps(s: System, m: Message, term: int, len: int)
    requires ElectionInv(s) && LogInv(s) && SafeInv(s) && Enabled(Repaired, s, AnswerAppend(m))
    requires Accepts(s.nodes[m.to], m.areq) && Owed(s, m.to, term, len)
    ensures Keeps(s, Perform(Repaired, s, AnswerAppend(m)).nodes[m.to].log, term, len)
  {
    hide Perform, LogInv, ElectionInv, VoteSafe, LeaderSafe, Keeps, Merged;
    OwedTerm(s, m.to, term, len);
    assert NodeSafe(s, m.to) && Keeps(s, s.nodes[m.to].log, term, len);
    AcceptedNode(s, m);
    assert LeaderSafe(s, m.areq.term);
    hide SafeInv, NodeSafe, Owed;
    MergeKeeps(s, s.nodes[m.to].log, m.areq.term, Covered(m.areq), term, len);
  }

  lemma CrashedKeeps(s: System, m: Message, lines: nat, upto: int, term: int, len: int)
    requires LogInv(s) && SafeInv(s) && Enabled(Repaired, s, CrashInAppend(m, lines, upto)) && Owed(s, m.to, term, len)
    ensures Keeps(s, Torn(Repaired, s.nodes[m.to], m.areq, lines, upto).log, term, len)
  {
    hide Torn, LogInv, VoteSafe, LeaderSafe, Keeps, TornBetween, Kept;
    OwedTerm(s, m.to, term, len);
    assert NodeSafe(s, m.to) && Keeps(s, s.nodes[m.to].log, term, len);
    TornNode(s, m, lines, upto);
    assert LeaderSafe(s, m.areq.term);
    hide SafeInv, NodeSafe, Owed;
    TornKeeps(s, s.nodes[m.to].log, m.areq.term, Torn(Repaired, s.nodes[m.to], m.areq, lines, upto).log, term, len);
  }

  /** The step neither truncates nor replaces entries in the log of `n`. */
  predicate OnlyAppends(s: System, step: Step, n: NodeId)
    requires Enabled(Repaired, s, step) && n in s.nodes
  {
    && !(step.AnswerAppend? && step.m.to == n && Accepts(s.nodes[n], step.m.areq))
    && !(step.CrashInAppend? && step.m.to == n)
  }

  lemma OnlyAppended(s: System, step: Step, n: NodeId)
    requires Enabled(Repaired, s, step) && n in s.nodes && OnlyAppends(s, step, n)
    ensures s.nodes[n].log <= Perform(Repaired, s, step).nodes[n].log
  {
    StepLog(Repaired, s, step, n);
    hide Perform;
  }

  lemma StepNodeKeeps(s: System, step: Step, n: NodeId, term: int, len: int)
    requires ElectionInv(s) && LogInv(s) && SafeInv(s) && Enabled(Repaired, s, step) && n in s.nodes
    requires Owed(s, n, term, len)
    ensures var s' := Perform(Repaired, s, step); Anchor(s', term, len) && Keeps(s', s'.nodes[n].log, term, len)
  {
    hide Perform, ElectionInv, LogInv, Keeps, LogsGrow, Torn, LeaderSafe, VoteSafe;
    var s' := Perform(Repaired, s, step);
    StepLogsGrow(s, step);
    StepVotesGrow(Repaired, s, step);
    if OnlyAppends(s, step, n) {
      assert NodeSafe(s, n) && Keeps(s, s.nodes[n].log, term, len);
      OnlyAppended(s, step, n);
      KeepsStays(s, s', s.nodes[n].log, s'.nodes[n].log, term, len);
    } else {
      if step.AnswerAppend? {
        AcceptedKeeps(s, step.m, term, len);
      } else {
        CrashedKeeps(s, step.m, step.lines, step.upto, term, len);
        CrashedNode(s, step.m, step.lines, step.upto);
      }
      KeepsStays(s, s', s'.nodes[n].log, s'.nodes[n].log, term, len);
    }
  }

  lemma StepNodeSafe(s: System, step: Step, n: NodeId)
    requires ElectionInv(s) && LogInv(s) && SafeInv(s) && Enabled(Repaired, s, step) && n in s.nodes
    ensures NodeSafe(Perform(Repaired, s, step), n)
  {
    var s' := Perform(Repaired, s, step);
    forall t, k | Owed(s', n, t, k) ensures Keeps(s', s'.nodes[n].log, t, k) {
      if Owed(s, n, t, k) { StepNodeKeeps(s, step, n, t, k); } else { NewlyOwedKept(s, step, n, t, k); }
    }
  }

  lemma StepLeaderSafe(s: System, step: Step, later: int)
    requires ElectionInv(s) && LogInv(s) && SafeInv(s) && Enabled(Repaired, s, step)
    requires later in Perform(Repaired, s, step).hist.leaderLogs
    ensures LeaderSafe(Perform(Repaired, s, step), later)
  {
    var s' := Perform(Repaired, s, step);
    forall t, k | t < later && Anchor(s', t, k) ensures Keeps(s', s'.hist.leaderLogs[later], t, k) {
      StepLeaderKeeps(s, step, later, t, k);
    }
  }

  /** A debt for a term the node has left is an old debt. */
  lemma OldDebt(s: System, step: Step, p: NodeId, term: int, len: int)
    requires ElectionInv(s) && LogInv(s) && Enabled(Repaired, s, step) && p in s.nodes
    requires Owed(Perform(Repaired, s, step), p, term, len)
    requires term < Perform(Repaired, s, step).nodes[p].currentTerm
    ensures Owed(s, p, term, len)
  {
    if !Owed(s, p, term, len) {
      NewDebtor(s, step, p, term, len);
      if step.AnswerAppend? { AcceptedNode(s, step.m); }
    }
  }

  /** A vote is granted only to a log that keeps what the voter acknowledged. */
  lemma GrantKeeps(s: System, p: NodeId, c: NodeId, req: VoteRequest, term: int, len: int)
    requires LogInv(s) && SafeInv(s) && p in s.nodes && c in s.nodes
    requires UpToDate(req, s.nodes[p]) && req == VoteRequestOf(s.nodes[c], c)
    requires Owed(s, p, term, len)
    ensures Keeps(s, s.nodes[c].log, term, len)
  {
    hide Blocked, Grounded, Bounded, VoteSafe, LeaderSafe, AckOk, AppendMessageOk, ElectionLogOk, LeaderLogsOk;
    assert NodeLogOk(s, p) && NodeLogOk(s, c) && NodeSafe(s, p);
    assert Keeps(s, s.nodes[p].log, term, len);
    hide NodeSafe, NodeLogOk;
    if !Blocked(s, term, len) {
      RecentLogKeeps(s, s.nodes[c].log, s.nodes[p].log, term, len);
    }
  }

  /** Before the step the candidate's log already kept it: the vote is old, its own, or just granted. */
  lemma VoterKept(s: System, s': System, step: Step, c: NodeId, p: NodeId, term: int, len: int)
    requires LogInv(s) && SafeInv(s) && c in s.nodes && p in s.nodes
    requires CastStep(s, s', CastBy(s, step)) && Steady(s, s', step, c)
    requires VotesOk(s, p) && (step.AnswerVote? ==> MessageOk(s, step.m))
    requires s'.nodes[c].identity == CANDIDATE && Voted(s'.nodes[p], s'.nodes[c].currentTerm, c)
    requires term < s'.nodes[c].currentTerm && Owed(s, p, term, len)
    ensures Keeps(s, s.nodes[c].log, term, len)
  {
    if Voted(s.nodes[p], s'.nodes[c].currentTerm, c) {
      assert VoteSafe(s, c, p);
    } else {
      assert SameVotes(s, s', p) || CastBy(s, step) == Vote(p, s'.nodes[c].currentTerm, c);
      hide CastStep, LogInv;
      if step.AnswerVote? {
        hide SafeInv, Keeps, Owed;
        GrantKeeps(s, p, c, step.m.vreq, term, len);
      } else {
        assert NodeSafe(s, p);
      }
    }
  }

  lemma StepVoterKept(s: System, step: Step, c: NodeId, p: NodeId, term: int, len: int)
    requires ElectionInv(s) && LogInv(s) && SafeInv(s) && Enabled(Repaired, s, step) && c in s.nodes && p in s.nodes
    requires var s' := Perform(Repaired, s, step);
      && s'.nodes[c].identity == CANDIDATE && Voted(s'.nodes[p], s'.nodes[c].currentTerm, c)
      && term < s'.nodes[c].currentTerm && Owed(s', p, term, len)
    ensures var s' := Perform(Repaired, s, step); Anchor(s', term, len) && Keeps(s', s'.nodes[c].log, term, len)
  {
    var s' := Perform(Repaired, s, step);
    CandidateSteady(Repaired, s, step, c);
    StepCasts(Repaired, s, step);
    StepLogsGrow(s, step);
    StepVotesGrow(Repaired, s, step);
    StepVotesOk(Repaired, s, step, p);
    OldDebt(s, step, p, term, len);
    assert VotesOk(s, p);
    if step.AnswerVote? { assert MessageOk(s, step.m); }
    hide Perform, ElectionInv, LogInv, SafeInv, Enabled, LogsGrow, VotesGrow, CastStep, Keeps;
    VoterKept(s, s', step, c, p, term, len);
    KeepsStays(s, s', s.nodes[c].log, s'.nodes[c].log, term, len);
  }

  lemma StepVoteSafe(s: System, step: Step, c: NodeId, p: NodeId)
    requires ElectionInv(s) && LogInv(s) && SafeInv(s) && Enabled(Repaired, s, step) && c in s.nodes && p in s.nodes
    ensures VoteSafe(Perform(Repaired, s, step), c, p)
  {
    hide Perform, ElectionInv, LogInv, SafeInv, Enabled, Keeps;
    var s' := Perform(Repaired, s, step);
    StepVotesGrow(Repaired, s, step);
    if s'.nodes[c].identity == CANDIDATE && Voted(s'.nodes[p], s'.nodes[c].currentTerm, c) {
      forall t, k | t < s'.nodes[c].currentTerm && Owed(s', p, t, k) ensures Keeps(s', s'.nodes[c].log, t, k) {
        StepVoterKept(s, step, c, p, t, k);
      }
    }
  }

  lemma StepKeepsSafe(s: System, step: Step)
    requires ElectionInv(s) && LogInv(s) && SafeInv(s) && Enabled(Repaired, s, step)
    ensures SafeInv(Perform(Repaired, s, step))
  {
    hide Perform, Enabled, ElectionInv, LogInv, NodeSafe, LeaderSafe, VoteSafe;
    var s' := Perform(Repaired, s, step);
    StepVotesGrow(Repaired, s, step);
    forall n | n in s'.nodes ensures NodeSafe(s', n) { StepNodeSafe(s, step, n); }
    forall t | t in s'.hist.leaderLogs ensures LeaderSafe(s', t) { StepLeaderSafe(s, step, t); }
    forall c, p | c in s'.nodes && p in s'.nodes ensures VoteSafe(s', c, p) { StepVoteSafe(s, step, c, p); }
  }

  /** Leader Completeness: a chosen prefix is in every later leader's log, from its election on. */
  lemma ChosenKept(s: System, term: int, len: int, later: int)
    requires SafeInv(s) && Chosen(s, term, len)
    requires later in s.hist.leaderLogs && term <= later
    ensures Prefix(s, term, len) <= s.hist.leaderLogs[later]
  {
    NotBoth(s, term, len);
    hide Blocked;
    if term < later {
      assert LeaderSafe(s, later);
      assert Keeps(s, s.hist.leaderLogs[later], term, len);
    }
  }

  lemma ChosenAtElection(s: System, term: int, len: int, e: Election)
    requires LogInv(s) && SafeInv(s) && Chosen(s, term, len)
    requires e in s.hist.elected && term < e.term
    ensures Prefix(s, term, len) <= e.log
  {
    assert ElectionLogOk(s.hist, e);
    ChosenKept(s, term, len, e.term);
    assert Prefix(s, term, len)[len - 1] == s.hist.leaderLogs[e.term][len - 1];
  }

  lemma PrefixStays(s: System, s': System, term: int, len: int)
    requires Anchor(s, term, len) && LogsGrow(s, s')
    ensures Anchor(s', term, len) && Prefix(s', term, len) == Prefix(s, term, len)
  {}
}
