/** Commit and apply with the repaired handlers: State Machine Safety. */
module Commitment {
  import opened RaftTypes
  import opened RaftNode
  import opened RaftSystem
  import opened Quorum
  import opened Elections
  import opened LogMatching
  import opened Replication
  import opened Completeness

  /** The prefix is part of one a majority acknowledged in a term up to the bound (or only the sentinel). */
  ghost predicate Settled(s: System, l: seq<Entry>, bound: int) {
    l <= [SENTINEL] || exists t, k :: t <= bound && Chosen(s, t, k) && l <= Prefix(s, t, k)
  }

  /** The acks a put counted came from distinct nodes that hold its entry, its own node included. */
  predicate PutOk(s: System, n: NodeId, id: PutId, put: Put) {
    && n in s.nodes
    && id.term <= s.nodes[n].currentTerm
    && Owed(s, n, id.term, id.len)
    && n !in put.waiting
    && put.count <= |Holders(s, id.term, id.len) - put.waiting|
  }

  /** A node commits only what is settled. */
  ghost predicate CommitOk(s: System, a: Node) {
    && 0 <= a.commitIndex < |a.log|
    && 0 <= a.lastApplied
    && Settled(s, a.log[..a.commitIndex + 1], a.currentTerm)
  }

  ghost predicate LeaderCommitOk(s: System, req: AppendRequest) {
    && req.term in s.hist.leaderLogs
    && 0 <= req.leaderCommit < |s.hist.leaderLogs[req.term]|
    && Settled(s, s.hist.leaderLogs[req.term][..req.leaderCommit + 1], req.term)
  }

  ghost predicate ExecutedOk(s: System, x: Executed) {
    exists l: seq<Entry>, bound :: Settled(s, l, bound) && 0 <= x.index < |l| && l[x.index] == x.entry
  }

  ghost predicate CommitInv(s: System) {
    && (forall n | n in s.nodes :: CommitOk(s, s.nodes[n]))
    && (forall n, id | n in s.nodes && id in s.nodes[n].puts :: PutOk(s, n, id, s.nodes[n].puts[id]))
    && (forall m | m in s.net && m.AppendAsk? :: LeaderCommitOk(s, m.areq))
    && (forall x | x in s.hist.executed :: ExecutedOk(s, x))
  }

  // Settled prefixes

  lemma SettledStays(s: System, s': System, l: seq<Entry>, bound: int, bound': int)
    requires Settled(s, l, bound) && bound <= bound' && LogsGrow(s, s') && VotesGrow(s, s')
    ensures Settled(s', l, bound')
  {
    if !(l <= [SENTINEL]) {
      var t, k :| t <= bound && Chosen(s, t, k) && l <= Prefix(s, t, k);
      ChosenStays(s, s', t, k);
      assert Prefix(s', t, k) == Prefix(s, t, k);
    }
  }

  lemma SettledLater(s: System, l: seq<Entry>, bound: int, bound': int)
    requires Settled(s, l, bound) && bound <= bound'
    ensures Settled(s, l, bound')
  {}

  lemma SettledPrefix(s: System, l: seq<Entry>, l': seq<Entry>, bound: int)
    requires Settled(s, l, bound) && l' <= l
    ensures Settled(s, l', bound)
  {
    if !(l <= [SENTINEL]) {
      var t, k :| t <= bound && Chosen(s, t, k) && l <= Prefix(s, t, k);
      assert l' <= Prefix(s, t, k);
    }
  }

  /** What is settled by a term is part of that term's leader log, and of every later one. */
  lemma SettledInLeaderLog(s: System, l: seq<Entry>, bound: int, later: int)
    requires SafeInv(s) && LeaderLogsOk(s.hist.leaderLogs)
    requires Settled(s, l, bound) && bound <= later && later in s.hist.leaderLogs
    ensures l <= s.hist.leaderLogs[later]
  {
    if l <= [SENTINEL] {
      assert Grounded(s.hist.leaderLogs, s.hist.leaderLogs[later]);
    } else {
      var t, k :| t <= bound && Chosen(s, t, k) && l <= Prefix(s, t, k);
      ChosenKept(s, t, k, later);
    }
  }

  /** A settled prefix starts with the sentinel, or is part of one a majority acknowledged. */
  lemma SettledFirst(s: System, a: seq<Entry>, bound: int)
    requires LeaderLogsOk(s.hist.leaderLogs) && Settled(s, a, bound) && a != []
    ensures a[0] == SENTINEL
  {
    if !(a <= [SENTINEL]) {
      var t, k :| t <= bound && Chosen(s, t, k) && a <= Prefix(s, t, k);
      assert Grounded(s.hist.leaderLogs, s.hist.leaderLogs[t]);
    }
  }

  lemma ChosenAgree(s: System, t: int, k: int, u: int, m: int, i: nat)
    requires SafeInv(s) && Chosen(s, t, k) && Chosen(s, u, m) && i < k && i < m
    ensures Prefix(s, t, k)[i] == Prefix(s, u, m)[i]
  {
    var later := if t <= u then u else t;
    assert later in s.hist.leaderLogs;
    ChosenKept(s, t, k, later);
    ChosenKept(s, u, m, later);
  }

  /** Two settled prefixes agree wherever both reach. */
  lemma SettledAgree(s: System, a: seq<Entry>, b: seq<Entry>, i: nat, ba: int, bb: int)
    requires SafeInv(s) && LeaderLogsOk(s.hist.leaderLogs)
    requires Settled(s, a, ba) && Settled(s, b, bb) && i < |a| && i < |b|
    ensures a[i] == b[i]
  {
    hide SafeInv, LeaderLogsOk;
    if !(a <= [SENTINEL]) && !(b <= [SENTINEL]) {
      var t, k :| t <= ba && Chosen(s, t, k) && a <= Prefix(s, t, k);
      var u, m :| u <= bb && Chosen(s, u, m) && b <= Prefix(s, u, m);
      ChosenAgree(s, t, k, u, m, i);
    } else {
      SettledFirst(s, a, ba);
      SettledFirst(s, b, bb);
    }
  }

  /** State Machine Safety within one state: one entry per index, whoever executed it and whenever. */
  lemma ExecutedAgree(s: System, x: Executed, y: Executed)
    requires SafeInv(s) && LogInv(s) && CommitInv(s)
    requires x in s.hist.executed && y in s.hist.executed && x.index == y.index
    ensures x.entry == y.entry
  {
    assert ExecutedOk(s, x) && ExecutedOk(s, y);
    hide CommitInv, SafeInv;
    var a: seq<Entry>, ba :| Settled(s, a, ba) && 0 <= x.index < |a| && a[x.index] == x.entry;
    var b: seq<Entry>, bb :| Settled(s, b, bb) && 0 <= y.index < |b| && b[y.index] == y.entry;
    SettledAgree(s, a, b, x.index, ba, bb);
  }

  // Commit indices

  /** A put with its majority has chosen its entry. */
  lemma MajorityChooses(s: System, n: NodeId, id: PutId)
    requires n in s.nodes && id in s.nodes[n].puts && PutOk(s, n, id, s.nodes[n].puts[id])
    requires ReceivedMajority(s.nodes[n].puts[id].count, |s.nodes|)
    ensures Chosen(s, id.term, id.len)
  {
    var put := s.nodes[n].puts[id];
    var holders := Holders(s, id.term, id.len);
    Smaller(holders - put.waiting, holders);
    Smaller({n}, holders);
    assert |s.nodes.Keys| == |s.nodes|;
  }

  lemma ChosenInLog(s: System, n: NodeId, term: int, len: int)
    requires SafeInv(s) && n in s.nodes && Chosen(s, term, len) && Owed(s, n, term, len)
    ensures len <= |s.nodes[n].log| && s.nodes[n].log[..len] == Prefix(s, term, len)
  {
    NotBoth(s, term, len);
    assert NodeSafe(s, n);
    hide Blocked;
    assert Keeps(s, s.nodes[n].log, term, len);
  }

  /** The node still holds the entry of its put when the majority is in, whatever it has become meanwhile. */
  lemma PutSettled(s: System, n: NodeId, id: PutId)
    requires SafeInv(s) && n in s.nodes && id in s.nodes[n].puts && PutOk(s, n, id, s.nodes[n].puts[id])
    requires ReceivedMajority(s.nodes[n].puts[id].count, |s.nodes|)
    ensures 1 <= id.len <= |s.nodes[n].log| && Settled(s, s.nodes[n].log[..id.len], s.nodes[n].currentTerm)
  {
    MajorityChooses(s, n, id);
    ChosenInLog(s, n, id.term, id.len);
  }

  /** Accepting a request keeps what was committed, and what it newly commits is settled. */
  lemma MergedSettled(s: System, l: seq<Entry>, commit: nat, bound: int, req: AppendRequest, next: int, len: int)
    requires SafeInv(s) && LeaderLogsOk(s.hist.leaderLogs) && LeaderCommitOk(s, req) && RequestOk(s, next, len, req)
    requires commit < |l| && Settled(s, l[..commit + 1], bound) && bound <= req.term
    ensures var l' := Merged(l, s.hist.leaderLogs[req.term], Covered(req));
      var limit := CommitLimit(Repaired, req);
      && commit < |l'| && l'[..commit + 1] == l[..commit + 1]
      && 0 <= limit < |l'| && Settled(s, l'[..limit + 1], req.term)
  {
    var x := s.hist.leaderLogs[req.term];
    var l' := Merged(l, x, Covered(req));
    var limit := CommitLimit(Repaired, req);
    SettledInLeaderLog(s, l[..commit + 1], bound, req.term);
    hide SafeInv, LeaderLogsOk;
    assert x[..Covered(req)] <= l';
    assert l'[..limit + 1] == x[..limit + 1];
    SettledPrefix(s, x[..req.leaderCommit + 1], x[..limit + 1], req.term);
  }

  predicate CommitIdle(a: Node, b: Node) {
    b.commitIndex == a.commitIndex && b.lastApplied == a.lastApplied && b.currentTerm >= a.currentTerm
  }

  lemma ActorCommitIdle(v: Variant, s: System, step: Step)
    requires Enabled(v, s, step) && !step.Deliver? && !step.CommitPut? && !step.Restart?
    requires !step.CrashInAppend? && !step.CrashInCommit?
    requires step.AnswerAppend? ==> !Accepts(s.nodes[step.m.to], step.m.areq)
    ensures CommitIdle(s.nodes[Actor(v, s, step)], NodeAfter(v, s, step))
  {
    hide OnAppendEntries, OnAppendReply, OnReqVote, OnVoteReply;
    match step
    case AnswerVote(m) => ReqVoteEffect(s.nodes[m.to], m.vreq);
    case CountVote(m) => VoteReplyEffect(s.nodes[m.vreq.candidate], m.from, m.vreq, m.vreply);
    case AnswerAppend(m) => AppendEffect(v, s.nodes[m.to], m.areq);
    case UseAppendAnswer(m) =>
      AppendReplyEffect(v, s.nodes[m.areq.leader], m.from, m.next, m.len, m.purpose, m.areq, m.areply);
    case _ =>
  }

  lemma CommitStays(s: System, s': System, a: Node, b: Node)
    requires LogsGrow(s, s') && VotesGrow(s, s') && CommitOk(s, a)
    requires a.log <= b.log && CommitIdle(a, b)
    ensures CommitOk(s', b)
  {
    assert b.log[..b.commitIndex + 1] == a.log[..a.commitIndex + 1];
    SettledStays(s, s', a.log[..a.commitIndex + 1], a.currentTerm, b.currentTerm);
  }

  /** The commit fields of a receiver after it accepted a request. */
  lemma AcceptedCommitIndex(s: System, m: Message)
    requires Enabled(Repaired, s, AnswerAppend(m)) && Accepts(s.nodes[m.to], m.areq)
    ensures Perform(Repaired, s, AnswerAppend(m)).nodes.Keys == s.nodes.Keys
    ensures var a, b := s.nodes[m.to], Perform(Repaired, s, AnswerAppend(m)).nodes[m.to];
      && b.commitIndex == (
          if CommitLimit(Repaired, m.areq) > a.commitIndex then CommitLimit(Repaired, m.areq) else a.commitIndex)
      && (b.lastApplied == a.lastApplied || b.lastApplied == b.commitIndex)
  {
    AppendEffect(Repaired, s.nodes[m.to], m.areq);
    hide OnAppendEntries, CommitLimit, InsertLog;
  }

  lemma MergedCommit(s: System, a: Node, b: Node, req: AppendRequest, next: int, len: int)
    requires SafeInv(s) && LeaderLogsOk(s.hist.leaderLogs) && LeaderCommitOk(s, req) && RequestOk(s, next, len, req)
    requires CommitOk(s, a) && a.currentTerm <= req.term == b.currentTerm
    requires b.log == Merged(a.log, s.hist.leaderLogs[req.term], Covered(req))
    requires b.commitIndex == a.commitIndex || b.commitIndex == CommitLimit(Repaired, req)
    requires b.lastApplied == a.lastApplied || b.lastApplied == b.commitIndex
    ensures CommitOk(s, b)
  {
    hide SafeInv, LeaderLogsOk, LeaderCommitOk, Merged, CommitLimit, Settled;
    MergedSettled(s, a.log, a.commitIndex, a.currentTerm, req, next, len);
    hide RequestOk;
    if b.commitIndex == a.commitIndex {
      SettledLater(s, a.log[..a.commitIndex + 1], a.currentTerm, b.currentTerm);
    }
  }

  lemma AcceptedCommit(s: System, m: Message)
    requires ElectionInv(s) && LogInv(s) && SafeInv(s) && CommitInv(s)
    requires Enabled(Repaired, s, AnswerAppend(m)) && Accepts(s.nodes[m.to], m.areq)
    ensures CommitOk(s, Perform(Repaired, s, AnswerAppend(m)).nodes[m.to])
  {
    hide Perform, ElectionInv, SafeInv, RequestOk, NodeLogOk, AppendMessageOk, ElectionLogOk, AckOk, PutOk, ExecutedOk,
      LeaderLogsOk, LeaderCommitOk, Merged, CommitLimit, CommitOk;
    assert CommitOk(s, s.nodes[m.to]) && LeaderCommitOk(s, m.areq) && LeaderLogsOk(s.hist.leaderLogs);
    AcceptedNode(s, m);
    AcceptedCommitIndex(s, m);
    var a, b := s.nodes[m.to], Perform(Repaired, s, AnswerAppend(m)).nodes[m.to];
    MergedCommit(s, a, b, m.areq, m.next, m.len);
  }

  lemma PutCommit(s: System, n: NodeId, id: PutId)
    requires SafeInv(s) && CommitInv(s) && Enabled(Repaired, s, CommitPut(n, id))
    ensures CommitOk(s, FinishPut(s.nodes[n], id))
  {
    hide SafeInv, FinishPut, PutOk, ExecutedOk, LeaderCommitOk, Settled;
    assert PutOk(s, n, id, s.nodes[n].puts[id]) && CommitOk(s, s.nodes[n]);
    PutSettled(s, n, id);
    FinishEffect(s.nodes[n], id);
  }

  lemma RestartCommit(s: System, b: Node)
    requires Grounded(s.hist.leaderLogs, b.log) && b.commitIndex == 0 && b.lastApplied == 0
    ensures CommitOk(s, b)
  {
    assert b.log[..1] == [SENTINEL];
  }

  lemma CrashCommit(s: System, m: Message, lines: nat, upto: int)
    requires LogInv(s) && Enabled(Repaired, s, CrashInAppend(m, lines, upto))
    ensures CommitOk(s, Torn(Repaired, s.nodes[m.to], m.areq, lines, upto))
  {
    var b := Torn(Repaired, s.nodes[m.to], m.areq, lines, upto);
    assert b.commitIndex == 0 && b.lastApplied == 0;
    TornStepNodeLog(s, m, lines, upto);
    CrashedNode(s, m, lines, upto);
    StepRecords(Repaired, s, CrashInAppend(m, lines, upto));
    hide Torn, Perform, LogInv;
    RestartCommit(s, b);
  }

  /** The step neither truncates the log of `n` nor moves its commit index. */
  predicate LeavesCommit(v: Variant, s: System, step: Step, n: NodeId)
    requires Enabled(v, s, step) && n in s.nodes
  {
    !step.Deliver? && n == Actor(v, s, step) ==>
      && !step.CommitPut? && !step.Restart? && !step.CrashInAppend? && !step.CrashInCommit?
      && (step.AnswerAppend? ==> !Accepts(s.nodes[step.m.to], step.m.areq))
  }

  lemma StepCommitIdle(v: Variant, s: System, step: Step, n: NodeId)
    requires Enabled(v, s, step) && n in s.nodes && LeavesCommit(v, s, step, n)
    ensures var a, b := s.nodes[n], Perform(v, s, step).nodes[n]; a.log <= b.log && CommitIdle(a, b)
  {
    hide NodeAfter, Sent, HistoryAfter;
    StepLog(v, s, step, n);
    if !step.Deliver? && n == Actor(v, s, step) {
      ActorCommitIdle(v, s, step);
    }
  }

  lemma MovedCommit(s: System, step: Step, n: NodeId)
    requires ElectionInv(s) && LogInv(s) && SafeInv(s) && CommitInv(s) && Enabled(Repaired, s, step) && n in s.nodes
    requires !LeavesCommit(Repaired, s, step, n)
    ensures CommitOk(s, Perform(Repaired, s, step).nodes[n])
  {
    hide HistoryAfter, Sent, OnAppendEntries, FinishPut, CommitOk, ElectionInv, SafeInv, CommitInv;
    if step.AnswerAppend? {
      AcceptedCommit(s, step.m);
    } else if step.CommitPut? {
      PutCommit(s, n, step.id);
    } else if step.Restart? || step.CrashInCommit? {
      assert NodeLogOk(s, n);
      RestartCommit(s, Perform(Repaired, s, step).nodes[n]);
    } else if step.CrashInAppend? {
      CrashCommit(s, step.m, step.lines, step.upto);
      CrashedNode(s, step.m, step.lines, step.upto);
    }
  }

  lemma StepCommitOk(s: System, step: Step, n: NodeId)
    requires ElectionInv(s) && LogInv(s) && SafeInv(s) && CommitInv(s) && Enabled(Repaired, s, step) && n in s.nodes
    ensures CommitOk(Perform(Repaired, s, step), Perform(Repaired, s, step).nodes[n])
  {
    var s' := Perform(Repaired, s, step);
    hide Perform, ElectionInv, LogInv, SafeInv, LogsGrow, CommitOk, PutOk, ExecutedOk, LeaderCommitOk;
    StepLogsGrow(s, step);
    StepVotesGrow(Repaired, s, step);
    if LeavesCommit(Repaired, s, step, n) {
      StepCommitIdle(Repaired, s, step, n);
      CommitStays(s, s', s.nodes[n], s'.nodes[n]);
    } else {
      MovedCommit(s, step, n);
      CommitStays(s, s', s'.nodes[n], s'.nodes[n]);
    }
  }

  // Puts waiting for their majority

  lemma PutStays(s: System, s': System, n: NodeId, id: PutId, put: Put)
    requires LogsGrow(s, s') && VotesGrow(s, s') && PutOk(s, n, id, put)
    ensures PutOk(s', n, id, put)
  {
    Smaller(Holders(s, id.term, id.len) - put.waiting, Holders(s', id.term, id.len) - put.waiting);
  }

  lemma NewPut(s: System, s': System, n: NodeId, id: PutId)
    requires VotesGrow(s, s') && n in s.nodes && id.term <= s'.nodes[n].currentTerm && Owed(s', n, id.term, id.len)
    ensures PutOk(s', n, id, Put(1, s.nodes.Keys - {n}))
  {
    Smaller({n}, Holders(s', id.term, id.len) - (s.nodes.Keys - {n}));
  }

  lemma CountedPut(s: System, s': System, n: NodeId, id: PutId, put: Put, from: NodeId)
    requires LogsGrow(s, s') && VotesGrow(s, s') && PutOk(s, n, id, put)
    requires from in s.nodes && from in put.waiting && Held(s.hist, from, id.term) >= id.len
    ensures PutOk(s', n, id, Put(put.count + 1, put.waiting - {from}))
  {
    Counted(Holders(s, id.term, id.len), Holders(s', id.term, id.len), put.waiting, from);
  }

  lemma ActorPuts(v: Variant, s: System, step: Step)
    requires Enabled(v, s, step) && !step.Deliver?
    ensures var n := Actor(v, s, step); var a, b := s.nodes[n], NodeAfter(v, s, step);
      b.puts == match step
        case ClientPut(_, _, _) => a.puts[PutId(a.currentTerm, |a.log| + 1) := Put(1, s.nodes.Keys - {n})]
        case UseAppendAnswer(m) => OnAppendReply(v, a, m.from, m.next, m.len, m.purpose, m.areq, m.areply).puts
        case CommitPut(_, id) => a.puts - {id}
        case Restart(_, _, _) => map[]
        case CrashInAppend(_, _, _) => map[]
        case CrashInCommit(_, _, _) => map[]
        case _ => a.puts
  {
    hide OnAppendEntries, OnAppendReply, OnReqVote, OnVoteReply, FinishPut, Torn, LinesToWrite, CrashPoint;
    match step
    case CrashInAppend(m, lines, upto) => TornEffect(v, s.nodes[m.to], m.areq, lines, upto);
    case AnswerVote(m) => ReqVoteEffect(s.nodes[m.to], m.vreq);
    case CountVote(m) => VoteReplyEffect(s.nodes[m.vreq.candidate], m.from, m.vreq, m.vreply);
    case AnswerAppend(m) => AppendEffect(v, s.nodes[m.to], m.areq);
    case CommitPut(p, id) => FinishEffect(s.nodes[p], id);
    case _ =>
  }

  /** A step changes the puts of the node that takes it, and no others. */
  lemma StepPuts(v: Variant, s: System, step: Step, n: NodeId)
    requires Enabled(v, s, step) && n in s.nodes
    ensures Perform(v, s, step).nodes.Keys == s.nodes.Keys
    ensures Perform(v, s, step).nodes[n].puts ==
      if step.Deliver? || n != Actor(v, s, step) then s.nodes[n].puts else NodeAfter(v, s, step).puts
  {
    hide NodeAfter, Sent, HistoryAfter;
  }

  lemma ClientPutOwed(s: System, step: Step)
    requires ElectionInv(s) && LogInv(s) && Enabled(Repaired, s, step) && step.ClientPut?
    ensures Owed(Perform(Repaired, s, step), step.n, s.nodes[step.n].currentTerm, |s.nodes[step.n].log| + 1)
  {
    hide Perform, ElectionInv, LogInv;
    StepRecords(Repaired, s, step);
    PutterLog(s, step);
  }

  lemma ClientPutOk(s: System, step: Step)
    requires ElectionInv(s) && LogInv(s) && Enabled(Repaired, s, step) && step.ClientPut?
    ensures var a := s.nodes[step.n];
      PutOk(Perform(Repaired, s, step), step.n, PutId(a.currentTerm, |a.log| + 1), Put(1, s.nodes.Keys - {step.n}))
  {
    hide Perform, LogInv, ElectionInv, PutOk, Owed;
    StepVotesGrow(Repaired, s, step);
    ClientPutOwed(s, step);
    var a := s.nodes[step.n];
    assert BallotGrows(a, Perform(Repaired, s, step).nodes[step.n]);
    hide Enabled, VotesGrow;
    NewPut(s, Perform(Repaired, s, step), step.n, PutId(a.currentTerm, |a.log| + 1));
  }

  lemma AnsweredPutOk(s: System, s': System, m: Message, n: NodeId, id: PutId)
    requires LogsGrow(s, s') && VotesGrow(s, s') && n in s.nodes && id in s.nodes[n].puts && m.AppendAnswer?
    requires PutOk(s, n, id, s.nodes[n].puts[id]) && AppendMessageOk(s, m)
    requires m.purpose == ForPut(id) && id.term == m.areq.term
    requires m.areply.success && m.from in s.nodes[n].puts[id].waiting
    ensures PutOk(s', n, id, Put(s.nodes[n].puts[id].count + 1, s.nodes[n].puts[id].waiting - {m.from}))
  {
    hide LogsGrow, VotesGrow, PutOk;
    CountedPut(s, s', n, id, s.nodes[n].puts[id], m.from);
  }

  /** Where a put record comes from: it was there, it is the put just made, or it counts the answer just used. */
  lemma StepPutCases(s: System, step: Step, n: NodeId, id: PutId)
    requires Enabled(Repaired, s, step) && n in s.nodes && id in Perform(Repaired, s, step).nodes[n].puts
    ensures Perform(Repaired, s, step).nodes.Keys == s.nodes.Keys
    ensures var a, put := s.nodes[n], Perform(Repaired, s, step).nodes[n].puts[id];
      || (id in a.puts && put == a.puts[id])
      || (step.ClientPut? && step.n == n && id == PutId(a.currentTerm, |a.log| + 1)
          && put == Put(1, s.nodes.Keys - {n}))
      || (step.UseAppendAnswer? && step.m.purpose == ForPut(id) && id.term == step.m.areq.term && step.m.areply.success
          && id in a.puts && step.m.from in a.puts[id].waiting
          && put == Put(a.puts[id].count + 1, a.puts[id].waiting - {step.m.from}))
  {
    hide Perform, NodeAfter, OnAppendReply;
    StepPuts(Repaired, s, step, n);
    if !step.Deliver? && n == Actor(Repaired, s, step) { ActorPuts(Repaired, s, step); }
    if step.UseAppendAnswer? {
      var m := step.m;
      AnswerPuts(Repaired, s.nodes[n], m.from, m.next, m.len, m.purpose, m.areq, m.areply);
    }
  }

  lemma StepPutOk(s: System, step: Step, n: NodeId, id: PutId)
    requires ElectionInv(s) && LogInv(s) && CommitInv(s) && Enabled(Repaired, s, step) && n in s.nodes
    requires id in Perform(Repaired, s, step).nodes[n].puts
    ensures PutOk(Perform(Repaired, s, step), n, id, Perform(Repaired, s, step).nodes[n].puts[id])
  {
    hide Perform, ElectionInv, CommitOk, PutOk, ExecutedOk, LeaderCommitOk, NodeLogOk, AckOk, ElectionLogOk,
      LeaderLogsOk, AppendMessageOk;
    var a := s.nodes[n];
    assert id in a.puts ==> PutOk(s, n, id, a.puts[id]);
    assert step.UseAppendAnswer? ==> AppendMessageOk(s, step.m);
    hide *;
    StepPutCases(s, step, n, id);
    StepLogsGrow(s, step);
    StepVotesGrow(Repaired, s, step);
    if id in a.puts && Perform(Repaired, s, step).nodes[n].puts[id] == a.puts[id] {
      PutStays(s, Perform(Repaired, s, step), n, id, a.puts[id]);
    } else if step.ClientPut? {
      ClientPutOk(s, step);
    } else {
      AnsweredPutOk(s, Perform(Repaired, s, step), step.m, n, id);
    }
  }

  // Commit indices in requests

  lemma LeaderCommitStays(s: System, s': System, req: AppendRequest)
    requires LogsGrow(s, s') && VotesGrow(s, s') && LeaderCommitOk(s, req)
    ensures LeaderCommitOk(s', req)
  {
    var c := req.leaderCommit;
    assert s'.hist.leaderLogs[req.term][..c + 1] == s.hist.leaderLogs[req.term][..c + 1];
    SettledStays(s, s', s.hist.leaderLogs[req.term][..c + 1], req.term, req.term);
  }

  lemma NewLeaderCommit(s: System, step: Step, m: Message)
    requires LogInv(s) && CommitInv(s) && Enabled(Repaired, s, step)
    requires m in Sent(Repaired, s, step) && m.AppendAsk?
    ensures LeaderCommitOk(s, m.areq)
  {
    hide OnAppendEntries, OnReqVote, EntriesBetween, PutOk, ExecutedOk, LeaderCommitOk, Settled, AckOk, ElectionLogOk,
      LeaderLogsOk, AppendMessageOk, Grounded, Bounded, NextIndexOk;
    assert step.AskAppend? && NodeLogOk(s, step.n) && CommitOk(s, s.nodes[step.n]);
    hide LogInv, CommitInv;
    AskedCommit(s, s.nodes[step.n], m.areq);
  }

  lemma StepLeaderCommit(s: System, step: Step, m: Message)
    requires ElectionInv(s) && LogInv(s) && CommitInv(s) && Enabled(Repaired, s, step)
    requires m in Perform(Repaired, s, step).net && m.AppendAsk?
    ensures LeaderCommitOk(Perform(Repaired, s, step), m.areq)
  {
    hide NodeAfter, HistoryAfter, Sent, LogsGrow, LeaderCommitOk, ElectionInv, LogInv, CommitOk, PutOk, ExecutedOk;
    StepLogsGrow(s, step);
    StepVotesGrow(Repaired, s, step);
    if m !in s.net { NewLeaderCommit(s, step, m); }
    hide CommitInv;
    LeaderCommitStays(s, Perform(Repaired, s, step), m.areq);
  }

  lemma AskedCommit(s: System, a: Node, req: AppendRequest)
    requires CommitOk(s, a) && a.currentTerm in s.hist.leaderLogs && s.hist.leaderLogs[a.currentTerm] == a.log
    requires req.term == a.currentTerm && req.leaderCommit == a.commitIndex
    ensures LeaderCommitOk(s, req)
  {}

  // Executed commands

  lemma ExecutedStays(s: System, s': System, x: Executed)
    requires LogsGrow(s, s') && VotesGrow(s, s') && ExecutedOk(s, x)
    ensures ExecutedOk(s', x)
  {
    var l: seq<Entry>, bound :| Settled(s, l, bound) && 0 <= x.index < |l| && l[x.index] == x.entry;
    hide Settled, LogsGrow, VotesGrow;
    SettledStays(s, s', l, bound, bound);
  }

  /** The window a step executes, if any. */
  datatype Window = Nothing | Window(id: NodeId, term: int, log: seq<Entry>, start: int, end: int)

  function WindowOf(v: Variant, s: System, step: Step): Window
    requires Enabled(v, s, step)
  {
    match step
    case AnswerAppend(m) =>
      var a, b := s.nodes[m.to], NodeAfter(v, s, step);
      if AdvancesCommit(v, a, m.areq) then Window(m.to, b.currentTerm, b.log, a.lastApplied, b.commitIndex) else Nothing
    case CommitPut(n, id) => Window(n, s.nodes[n].currentTerm, s.nodes[n].log, s.nodes[n].lastApplied + 1, id.len - 1)
    case CrashInAppend(m, _, upto) =>
      var a := s.nodes[m.to];
      var inserted := InsertLog(v, a.log, m.areq.prevIndex + 1, m.areq.entries);
      if upto < a.lastApplied then Nothing
      else Window(m.to, NodeAfter(v, s, step).currentTerm, inserted, a.lastApplied, upto)
    case CrashInCommit(n, _, upto) =>
      Window(n, s.nodes[n].currentTerm, s.nodes[n].log, s.nodes[n].lastApplied + 1, upto)
    case _ => Nothing
  }

  lemma StepExecutes(v: Variant, s: System, step: Step)
    requires Enabled(v, s, step)
    ensures Perform(v, s, step).hist.executed == s.hist.executed +
      match WindowOf(v, s, step)
      case Nothing => {}
      case Window(id, _, log, start, end) => ExecutedBetween(id, log, start, end)
  {
    hide NodeAfter, Sent;
  }

  ghost predicate WindowOk(s: System, w: Window) {
    w.Window? ==> 0 <= w.start && w.end < |w.log| && (w.end >= 0 ==> Settled(s, w.log[..w.end + 1], w.term))
  }

  /** A window inside a settled prefix executes settled commands. */
  lemma WindowSettled(s: System, w: Window, x: Executed)
    requires WindowOk(s, w) && w.Window? && x in ExecutedBetween(w.id, w.log, w.start, w.end)
    ensures ExecutedOk(s, x)
  {
    hide Settled;
    assert w.log[..w.end + 1][x.index] == x.entry;
  }

  lemma CommitWindow(s: System, id: NodeId, a: Node, start: int)
    requires CommitOk(s, a) && 0 <= start
    ensures WindowOk(s, Window(id, a.currentTerm, a.log, start, a.commitIndex))
  {}

  lemma AcceptWindowOk(s: System, m: Message)
    requires ElectionInv(s) && LogInv(s) && SafeInv(s) && CommitInv(s) && Enabled(Repaired, s, AnswerAppend(m))
    requires Accepts(s.nodes[m.to], m.areq)
    ensures var b := NodeAfter(Repaired, s, AnswerAppend(m));
      WindowOk(s, Window(m.to, b.currentTerm, b.log, s.nodes[m.to].lastApplied, b.commitIndex))
  {
    hide NodeAfter, Sent, HistoryAfter, ElectionInv, LogInv, SafeInv, PutOk, ExecutedOk, LeaderCommitOk, Settled;
    assert CommitOk(s, s.nodes[m.to]);
    AcceptedCommit(s, m);
    CommitWindow(s, m.to, NodeAfter(Repaired, s, AnswerAppend(m)), s.nodes[m.to].lastApplied);
  }

  lemma PutWindowOk(s: System, n: NodeId, id: PutId)
    requires SafeInv(s) && CommitInv(s) && Enabled(Repaired, s, CommitPut(n, id))
    ensures WindowOk(s, WindowOf(Repaired, s, CommitPut(n, id)))
  {
    hide SafeInv, ExecutedOk, LeaderCommitOk, Settled, PutOk;
    assert CommitOk(s, s.nodes[n]) && PutOk(s, n, id, s.nodes[n].puts[id]);
    PutSettled(s, n, id);
  }

  /** What a receiver executed before it crashed is part of what it would have executed. */
  lemma CrashWindowOk(s: System, m: Message, lines: nat, upto: int)
    requires ElectionInv(s) && LogInv(s) && SafeInv(s) && CommitInv(s)
    requires Enabled(Repaired, s, CrashInAppend(m, lines, upto))
    ensures WindowOk(s, WindowOf(Repaired, s, CrashInAppend(m, lines, upto)))
  {
    hide Torn, ElectionInv, LogInv, SafeInv, PutOk, ExecutedOk, LeaderCommitOk, Settled, OnAppendEntries, InsertLog,
      LinesToWrite, CommitLimit, Perform, Accepts;
    var a, b := s.nodes[m.to], OnAppendEntries(Repaired, s.nodes[m.to], m.areq).0;
    if upto >= a.lastApplied {
      assert CommitOk(s, a) && Accepts(a, m.areq) && AdvancesCommit(Repaired, a, m.areq);
      assert upto <= CommitLimit(Repaired, m.areq);
      AcceptedCommit(s, m);
      AcceptedPerform(s, m);
      hide CommitInv, CrashPoint;
      AppendEffect(Repaired, a, m.areq);
      TornEffect(Repaired, a, m.areq, lines, upto);
      SettledPrefix(s, b.log[..b.commitIndex + 1], b.log[..upto + 1], b.currentTerm);
    }
  }

  lemma AcceptedPerform(s: System, m: Message)
    requires Enabled(Repaired, s, AnswerAppend(m))
    ensures Perform(Repaired, s, AnswerAppend(m)).nodes ==
      s.nodes[m.to := OnAppendEntries(Repaired, s.nodes[m.to], m.areq).0]
  {
    hide OnAppendEntries, HistoryAfter, Sent;
  }

  lemma CrashPutWindowOk(s: System, n: NodeId, id: PutId, upto: int)
    requires SafeInv(s) && CommitInv(s) && Enabled(Repaired, s, CrashInCommit(n, id, upto))
    ensures WindowOk(s, WindowOf(Repaired, s, CrashInCommit(n, id, upto)))
  {
    hide SafeInv, ExecutedOk, LeaderCommitOk, Settled, PutOk;
    var a := s.nodes[n];
    assert CommitOk(s, a) && PutOk(s, n, id, a.puts[id]);
    hide CommitInv;
    PutSettled(s, n, id);
    SettledPrefix(s, a.log[..id.len], a.log[..upto + 1], a.currentTerm);
  }

  lemma StepWindowOk(s: System, step: Step)
    requires ElectionInv(s) && LogInv(s) && SafeInv(s) && CommitInv(s) && Enabled(Repaired, s, step)
    ensures WindowOk(s, WindowOf(Repaired, s, step))
  {
    hide NodeAfter, ElectionInv, LogInv, SafeInv, CommitInv;
    if step.AnswerAppend? && Accepts(s.nodes[step.m.to], step.m.areq) {
      AcceptWindowOk(s, step.m);
    } else if step.CommitPut? {
      PutWindowOk(s, step.n, step.id);
    } else if step.CrashInAppend? {
      CrashWindowOk(s, step.m, step.lines, step.upto);
    } else if step.CrashInCommit? {
      CrashPutWindowOk(s, step.n, step.id, step.upto);
    }
  }

  lemma StepExecutedOk(s: System, step: Step, x: Executed)
    requires ElectionInv(s) && LogInv(s) && SafeInv(s) && CommitInv(s) && Enabled(Repaired, s, step)
    requires x in Perform(Repaired, s, step).hist.executed
    ensures ExecutedOk(Perform(Repaired, s, step), x)
  {
    hide Perform, Enabled, ElectionInv, LogInv, SafeInv, CommitOk, PutOk, LeaderCommitOk, ExecutedOk, WindowOf, Settled,
      ExecutedBetween;
    StepExecutes(Repaired, s, step);
    if x !in s.hist.executed {
      StepWindowOk(s, step);
      var w := WindowOf(Repaired, s, step);
      WindowSettled(s, w, x);
    }
    StepLogsGrow(s, step);
    StepVotesGrow(Repaired, s, step);
    ExecutedStays(s, Perform(Repaired, s, step), x);
  }

  lemma StepKeepsCommit(s: System, step: Step)
    requires ElectionInv(s) && LogInv(s) && SafeInv(s) && CommitInv(s) && Enabled(Repaired, s, step)
    ensures CommitInv(Perform(Repaired, s, step))
  {
    hide Perform, Enabled, ElectionInv, LogInv, SafeInv, CommitOk, PutOk, LeaderCommitOk, ExecutedOk;
    var s' := Perform(Repaired, s, step);
    StepVotesGrow(Repaired, s, step);
    forall n | n in s'.nodes ensures CommitOk(s', s'.nodes[n]) { StepCommitOk(s, step, n); }
    forall n, id | n in s'.nodes && id in s'.nodes[n].puts ensures PutOk(s', n, id, s'.nodes[n].puts[id]) {
      StepPutOk(s, step, n, id);
    }
    forall m | m in s'.net && m.AppendAsk? ensures LeaderCommitOk(s', m.areq) { StepLeaderCommit(s, step, m); }
    forall x | x in s'.hist.executed ensures ExecutedOk(s', x) { StepExecutedOk(s, step, x); }
  }
}
