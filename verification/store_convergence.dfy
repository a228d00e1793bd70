/** The key-value stores converge, although windows overlap and a restart replays the log over a surviving store. */
module StoreConvergence {
  import opened RaftTypes
  import opened ApplyLog
  import opened RaftNode
  import opened RaftSystem
  import opened Elections
  import opened LogMatching
  import opened Replication
  import opened Completeness
  import opened Commitment

  /**
   The store holds nothing but writes of the log up to `r`, and exactly the last writes of the log up to `last`.
   The sentinel's key "NULL" is left out: only followers ever write it.
   */
  ghost predicate Fits(store: Store, log: seq<Entry>, last: int, r: int) {
    && (forall key | key in store && key != "NULL" :: LastWrite(log, 1, r, key) != -1)
    && (forall key | key != "NULL" && LastWrite(log, 1, last, key) != -1 ::
        key in store && store[key] == ValueAt(log, LastWrite(log, 1, last, key)))
  }

  /** For every key but the sentinel's, the last write up to `end` is in the window or was up to `last`. */
  lemma WindowLastWrite(log: seq<Entry>, last: nat, start: nat, end: int, key: string)
    requires start <= last + 1 && last <= end && log != [] && log[0] == SENTINEL && key != "NULL"
    ensures LastWrite(log, 1, end, key) ==
      if LastWrite(log, start, end, key) != -1 then LastWrite(log, start, end, key) else LastWrite(log, 1, last, key)
  {
    if start == 0 {
      LastWriteSplit(log, 0, 1, end, key);
      LastWriteSplit(log, 0, 1, last, key);
      WiderWrite(log, 0, last, end, key);
    } else {
      LastWriteSplit(log, 1, start, end, key);
      LastWriteSplit(log, 1, start, last, key);
      WiderWrite(log, start, last, end, key);
    }
  }

  lemma WiderWrite(log: seq<Entry>, start: nat, end: int, wider: int, key: string)
    requires end <= wider
    ensures LastWrite(log, start, end, key) != -1 ==> LastWrite(log, start, wider, key) != -1
  {}

  /** Executing the next window, wherever it ends, makes the store fit up to that end. */
  lemma FitsWindow(store: Store, log: seq<Entry>, last: nat, r: int, start: nat, end: int)
    requires Fits(store, log, last, r) && last <= r && log != [] && log[0] == SENTINEL
    requires start <= last + 1 && last <= end
    ensures Fits(Applied(store, log, start, end), log, end, if end > r then end else r)
  {
    hide Applied, LastWrite;
    var store', r' := Applied(store, log, start, end), if end > r then end else r;
    forall key | key != "NULL"
      ensures key in store' ==> LastWrite(log, 1, r', key) != -1
      ensures LastWrite(log, 1, end, key) != -1 ==>
        key in store' && store'[key] == ValueAt(log, LastWrite(log, 1, end, key))
    {
      AppliedLookup(store, log, start, end, key);
      WindowLastWrite(log, last, start, end, key);
      WiderWrite(log, 1, r, r', key);
      WiderWrite(log, 1, end, r', key);
    }
  }

  lemma {:induction false} LastWritePrefix(log: seq<Entry>, log': seq<Entry>, start: nat, end: int, key: string)
    requires end < |log| && end < |log'| && (end >= 0 ==> log[..end + 1] == log'[..end + 1])
    ensures LastWrite(log, start, end, key) == LastWrite(log', start, end, key)
    ensures var w := LastWrite(log, start, end, key); w != -1 ==> ValueAt(log, w) == ValueAt(log', w)
    decreases end - start
  {
    if start <= end {
      assert log[end] == log[..end + 1][end] == log'[end];
      assert log[..end] == log[..end + 1][..end] == log'[..end];
      LastWritePrefix(log, log', start, end - 1, key);
    }
  }

  lemma FitsPrefix(store: Store, log: seq<Entry>, log': seq<Entry>, last: nat, r: int)
    requires Fits(store, log, last, r) && last <= r < |log| && r < |log'| && log[..r + 1] == log'[..r + 1]
    ensures Fits(store, log', last, r)
  {
    assert log[..last + 1] == log[..r + 1][..last + 1] == log'[..last + 1];
    forall key ensures LastWrite(log, 1, r, key) == LastWrite(log', 1, r, key)
      ensures LastWrite(log, 1, last, key) == LastWrite(log', 1, last, key)
      ensures var w := LastWrite(log, 1, last, key); w != -1 ==> ValueAt(log, w) == ValueAt(log', w)
    {
      LastWritePrefix(log, log', 1, r, key);
      LastWritePrefix(log, log', 1, last, key);
    }
  }

  /** Once caught up with all it ever executed, the store is the log's, sentinel key aside. */
  lemma CaughtUp(store: Store, log: seq<Entry>, r: int)
    requires Fits(store, log, r, r)
    ensures SameBut(store, Applied(map[], log, 1, r), "NULL")
  {
    var y := Applied(map[], log, 1, r);
    forall key | key != "NULL" ensures key in store <==> key in y
      ensures key in store ==> store[key] == y[key]
    {
      AppliedLookup(map[], log, 1, r, key);
      hide Applied, LastWrite;
    }
    assert (store - {"NULL"}).Keys == (y - {"NULL"}).Keys;
  }

  // Over the cluster, with the repaired handlers

  ghost predicate StoreOk(s: System, a: Node, r: int) {
    && 0 <= a.lastApplied <= r < |a.log|
    && Settled(s, a.log[..r + 1], a.currentTerm)
    && Fits(a.store, a.log, a.lastApplied, r)
  }

  ghost predicate StoreInv(s: System) {
    forall n | n in s.nodes :: StoreOk(s, s.nodes[n], Reached(s.hist, n))
  }

  /** The node executes nothing and keeps its log, but for entries added at the end. */
  predicate StoreIdle(a: Node, b: Node) {
    && b.store == a.store && a.log <= b.log && a.currentTerm <= b.currentTerm
    && (b.lastApplied == a.lastApplied || b.lastApplied == 0)
  }

  /** The step executes commands on `n`, or changes its log other than at the end. */
  predicate Disturbs(v: Variant, s: System, step: Step, n: NodeId)
    requires Enabled(v, s, step) && n in s.nodes
  {
    match step
    case AnswerAppend(m) => m.to == n && Accepts(s.nodes[n], m.areq)
    case CommitPut(p, _) => p == n
    case CrashInAppend(m, _, _) => m.to == n
    case CrashInCommit(p, _, _) => p == n
    case _ => false
  }

  lemma ActorStoreIdle(s: System, step: Step)
    requires Enabled(Repaired, s, step) && !step.Deliver? && !Disturbs(Repaired, s, step, Actor(Repaired, s, step))
    ensures StoreIdle(s.nodes[Actor(Repaired, s, step)], NodeAfter(Repaired, s, step))
  {
    hide OnAppendEntries, OnAppendReply, OnReqVote, OnVoteReply;
    match step
    case AnswerVote(m) => ReqVoteEffect(s.nodes[m.to], m.vreq);
    case CountVote(m) => VoteReplyEffect(s.nodes[m.vreq.candidate], m.from, m.vreq, m.vreply);
    case AnswerAppend(m) => AppendEffect(Repaired, s.nodes[m.to], m.areq); RejectStore(Repaired, s.nodes[m.to], m.areq);
    case UseAppendAnswer(m) =>
      AppendReplyEffect(Repaired, s.nodes[m.areq.leader], m.from, m.next, m.len, m.purpose, m.areq, m.areply);
    case _ =>
  }

  lemma RejectStore(v: Variant, n: Node, req: AppendRequest)
    requires !Accepts(n, req)
    ensures OnAppendEntries(v, n, req).0.store == n.store
  {
    RecogniseEffect(v, n, req.term);
    hide Recognise;
  }

  lemma StepReached(v: Variant, s: System, step: Step)
    requires Enabled(v, s, step)
    ensures Perform(v, s, step).hist.reached == (
      match step
      case AnswerAppend(m) => Reach(s.hist, m.to, NodeAfter(v, s, step).lastApplied)
      case CommitPut(n, _) => Reach(s.hist, n, NodeAfter(v, s, step).lastApplied)
      case CrashInAppend(m, _, upto) => Reach(s.hist, m.to, upto)
      case CrashInCommit(n, _, upto) => Reach(s.hist, n, upto)
      case _ => s.hist.reached)
  {
    hide NodeAfter, Sent, ExecutedBetween, Reach;
  }

  lemma IdleStore(s: System, s': System, a: Node, b: Node, r: int)
    requires StoreOk(s, a, r) && StoreIdle(a, b) && LogsGrow(s, s') && VotesGrow(s, s')
    ensures StoreOk(s', b, r)
  {
    hide LogsGrow, VotesGrow, Settled;
    assert a.log[..r + 1] == b.log[..r + 1];
    FitsPrefix(a.store, a.log, b.log, a.lastApplied, r);
    SettledStays(s, s', a.log[..r + 1], a.currentTerm, b.currentTerm);
  }

  lemma StepIdleStore(s: System, step: Step, n: NodeId)
    requires ElectionInv(s) && LogInv(s) && StoreInv(s) && Enabled(Repaired, s, step) && n in s.nodes
    requires !Disturbs(Repaired, s, step, n)
    ensures var s' := Perform(Repaired, s, step);
      n in s'.nodes && StoreOk(s', s'.nodes[n], Reached(s'.hist, n))
  {
    hide NodeAfter, Sent, HistoryAfter, ElectionInv, LogInv, StoreOk, LogsGrow;
    var s' := Perform(Repaired, s, step);
    assert StoreOk(s, s.nodes[n], Reached(s.hist, n));
    if !step.Deliver? && n == Actor(Repaired, s, step) { ActorStoreIdle(s, step); }
    assert StoreIdle(s.nodes[n], s'.nodes[n]);
    ReachedIdle(s, step, n);
    StepLogsGrow(s, step);
    StepVotesGrow(Repaired, s, step);
    hide *;
    IdleStore(s, s', s.nodes[n], s'.nodes[n], Reached(s.hist, n));
  }

  lemma ReachedIdle(s: System, step: Step, n: NodeId)
    requires Enabled(Repaired, s, step) && n in s.nodes && !Disturbs(Repaired, s, step, n)
    requires StoreOk(s, s.nodes[n], Reached(s.hist, n))
    ensures Reached(Perform(Repaired, s, step).hist, n) == Reached(s.hist, n)
  {
    StepReached(Repaired, s, step);
    if step.AnswerAppend? && step.m.to == n { ActorStoreIdle(s, step); }
    hide Perform, NodeAfter, Fits, Settled;
  }

  /** Executing one more window, in a log that still holds all that was ever executed. */
  lemma ExecutedStore(s: System, a: Node, b: Node, r: int, start: nat, end: int)
    requires StoreOk(s, a, r) && a.log != [] && a.log[0] == SENTINEL
    requires r < |b.log| && b.log[..r + 1] == a.log[..r + 1]
    requires Settled(s, b.log[..r + 1], b.currentTerm)
    requires end < |b.log| && (end >= 0 ==> Settled(s, b.log[..end + 1], b.currentTerm))
    requires start == a.lastApplied || start == a.lastApplied + 1
    requires b.store == Applied(a.store, b.log, start, end)
    requires b.lastApplied == if start <= end then end else a.lastApplied
    ensures StoreOk(s, b, if b.lastApplied > r then b.lastApplied else r)
  {
    hide Settled, Fits;
    assert b.log[0] == b.log[..r + 1][0] == a.log[..r + 1][0];
    FitsPrefix(a.store, a.log, b.log, a.lastApplied, r);
    if start <= end {
      FitsWindow(a.store, b.log, a.lastApplied, r, start, end);
    }
  }

  lemma UnexecutedStore(s: System, a: Node, b: Node, r: int)
    requires StoreOk(s, a, r) && r < |b.log| && b.log[..r + 1] == a.log[..r + 1]
    requires Settled(s, b.log[..r + 1], b.currentTerm)
    requires b.store == a.store && b.lastApplied == a.lastApplied
    ensures StoreOk(s, b, r)
  {
    hide Settled, Fits;
    FitsPrefix(a.store, a.log, b.log, a.lastApplied, r);
  }

  /** What the receiver had ever executed stays in its log when it accepts a request. */
  lemma AcceptedReach(s: System, m: Message)
    requires ElectionInv(s) && LogInv(s) && SafeInv(s) && CommitInv(s) && StoreInv(s)
    requires Enabled(Repaired, s, AnswerAppend(m)) && Accepts(s.nodes[m.to], m.areq)
    ensures var a, b, r := s.nodes[m.to], NodeAfter(Repaired, s, AnswerAppend(m)), Reached(s.hist, m.to);
      && 0 <= r < |a.log| && r < |b.log| && b.log[..r + 1] == a.log[..r + 1]
      && Settled(s, b.log[..r + 1], b.currentTerm)
      && StoreOk(s, a, r) && CommitOk(s, b) && a.log[0] == SENTINEL
  {
    hide NodeAfter, Sent, HistoryAfter, ElectionInv, SafeInv, RequestOk, NodeLogOk, AppendMessageOk, ElectionLogOk,
      AckOk,
      PutOk, ExecutedOk, LeaderLogsOk, LeaderCommitOk, Merged, CommitLimit, CommitOk, Settled, Fits;
    var a, b, r := s.nodes[m.to], NodeAfter(Repaired, s, AnswerAppend(m)), Reached(s.hist, m.to);
    assert StoreOk(s, a, r) && LeaderCommitOk(s, m.areq) && LeaderLogsOk(s.hist.leaderLogs) && NodeLogOk(s, m.to);
    SentinelFirst(s, m.to);
    AcceptedCommit(s, m);
    AcceptedNode(s, m);
    MergedSettled(s, a.log, r, a.currentTerm, m.areq, m.next, m.len);
    SettledLater(s, a.log[..r + 1], a.currentTerm, b.currentTerm);
  }

  lemma SentinelFirst(s: System, n: NodeId)
    requires n in s.nodes && NodeLogOk(s, n)
    ensures s.nodes[n].log != [] && s.nodes[n].log[0] == SENTINEL
  {}

  /** Whether or not the request moved the commit index, the store fits the new log. */
  lemma MergedStore(s: System, a: Node, b: Node, r: int, moved: bool, limit: int)
    requires StoreOk(s, a, r) && a.log != [] && a.log[0] == SENTINEL && CommitOk(s, b)
    requires r < |b.log| && b.log[..r + 1] == a.log[..r + 1] && Settled(s, b.log[..r + 1], b.currentTerm)
    requires moved ==> b.commitIndex == limit && b.store == Applied(a.store, b.log, a.lastApplied, limit)
    requires moved ==> b.lastApplied == if a.lastApplied <= limit then limit else a.lastApplied
    requires !moved ==> b.store == a.store && b.lastApplied == a.lastApplied
    ensures StoreOk(s, b, if b.lastApplied > r then b.lastApplied else r)
  {
    hide Settled, Fits, Applied;
    if moved {
      ExecutedStore(s, a, b, r, a.lastApplied, limit);
    } else {
      UnexecutedStore(s, a, b, r);
    }
  }

  lemma AcceptedStore(s: System, m: Message)
    requires ElectionInv(s) && LogInv(s) && SafeInv(s) && CommitInv(s) && StoreInv(s)
    requires Enabled(Repaired, s, AnswerAppend(m)) && Accepts(s.nodes[m.to], m.areq)
    ensures var b, r := NodeAfter(Repaired, s, AnswerAppend(m)), Reached(s.hist, m.to);
      StoreOk(s, b, if b.lastApplied > r then b.lastApplied else r)
  {
    hide OnAppendEntries, ElectionInv, LogInv, SafeInv, CommitInv, StoreInv, StoreOk, CommitOk, Settled, Applied,
      CommitLimit, InsertLog, Accepts;
    var a, b, r := s.nodes[m.to], NodeAfter(Repaired, s, AnswerAppend(m)), Reached(s.hist, m.to);
    var limit := CommitLimit(Repaired, m.areq);
    AcceptedReach(s, m);
    AcceptExecutes(Repaired, a, m.areq);
    if limit > a.commitIndex { AcceptedIndex(a, m.areq); }
    assert b == OnAppendEntries(Repaired, a, m.areq).0;
    hide *;
    MergedStore(s, a, b, r, limit > a.commitIndex, limit);
  }

  lemma AcceptedIndex(n: Node, req: AppendRequest)
    requires Accepts(n, req) && CommitLimit(Repaired, req) > n.commitIndex
    ensures OnAppendEntries(Repaired, n, req).0.commitIndex == CommitLimit(Repaired, req)
  {
    AppendEffect(Repaired, n, req);
    hide OnAppendEntries, InsertLog, CommitLimit;
  }

  lemma PutStore(s: System, n: NodeId, id: PutId)
    requires LogInv(s) && SafeInv(s) && CommitInv(s) && StoreInv(s) && Enabled(Repaired, s, CommitPut(n, id))
    ensures var b, r := FinishPut(s.nodes[n], id), Reached(s.hist, n);
      StoreOk(s, b, if b.lastApplied > r then b.lastApplied else r)
  {
    hide SafeInv, PutOk, ExecutedOk, LeaderCommitOk, CommitOk, Settled, Fits, NodeLogOk;
    var a, b, r := s.nodes[n], FinishPut(s.nodes[n], id), Reached(s.hist, n);
    assert PutOk(s, n, id, a.puts[id]) && StoreOk(s, a, r) && NodeLogOk(s, n);
    SentinelFirst(s, n);
    PutSettled(s, n, id);
    hide LogInv, CommitInv, StoreInv;
    ExecutedStore(s, a, b, r, a.lastApplied + 1, id.len - 1);
  }

  /** A crash inside an insertion keeps all that was ever executed, because the leader's log holds it too. */
  lemma TornStore(s: System, a: Node, b: Node, r: int, x: seq<Entry>)
    requires StoreOk(s, a, r) && TornBetween(a.log, x, b.log) && a.log[..r + 1] <= x
    requires a.currentTerm <= b.currentTerm && b.store == a.store && b.lastApplied == 0
    ensures StoreOk(s, b, r)
  {
    hide Settled;
    assert Agree(a.log, x, r + 1);
    assert Agree(a.log, b.log, r + 1);
    hide TornBetween;
    FitsPrefix(a.store, a.log, b.log, a.lastApplied, r);
    SettledLater(s, a.log[..r + 1], a.currentTerm, b.currentTerm);
  }

  lemma TornBeforeExecution(s: System, m: Message, lines: nat, upto: int)
    requires LogInv(s) && SafeInv(s) && StoreInv(s) && Enabled(Repaired, s, CrashInAppend(m, lines, upto))
    requires upto == s.nodes[m.to].lastApplied - 1
    ensures StoreOk(s, Torn(Repaired, s.nodes[m.to], m.areq, lines, upto), Reached(s.hist, m.to))
  {
    hide SafeInv, TornBetween, Settled, Fits, NodeLogOk, AckOk, AppendMessageOk, ElectionLogOk, LeaderLogsOk, TornLog,
      LinesToWrite, ElectedTerm, CrashPoint, InsertLog;
    var a, r := s.nodes[m.to], Reached(s.hist, m.to);
    var b := Torn(Repaired, a, m.areq, lines, upto);
    TornEffect(Repaired, a, m.areq, lines, upto);
    assert b.store == a.store;
    hide Torn, Applied;
    TornNode(s, m, lines, upto);
    assert StoreOk(s, a, r) && LeaderLogsOk(s.hist.leaderLogs);
    hide LogInv, StoreInv, Enabled;
    SettledInLeaderLog(s, a.log[..r + 1], a.currentTerm, m.areq.term);
    hide StoreOk;
    TornStore(s, a, b, r, s.hist.leaderLogs[m.areq.term]);
  }

  /** A restart forgets how far the store was executed, not what is in it. */
  lemma RestartStore(s: System, a: Node, b: Node, r: int)
    requires StoreOk(s, a, r) && b.store == a.store && b.log == a.log && b.currentTerm == a.currentTerm
    requires b.lastApplied == 0
    ensures StoreOk(s, b, r)
  {
    hide Settled;
  }

  /** A crash between two commands leaves the store as far as the first of them, and it fits. */
  lemma TornInExecution(s: System, m: Message, lines: nat, upto: int)
    requires ElectionInv(s) && LogInv(s) && SafeInv(s) && CommitInv(s) && StoreInv(s)
    requires Enabled(Repaired, s, CrashInAppend(m, lines, upto)) && upto >= s.nodes[m.to].lastApplied
    ensures var b, r := Torn(Repaired, s.nodes[m.to], m.areq, lines, upto), Reached(s.hist, m.to);
      StoreOk(s, b, if upto > r then upto else r)
  {
    hide ElectionInv, LogInv, SafeInv, StoreInv, StoreOk, Settled, Torn, OnAppendEntries, CommitLimit, Applied,
      CrashPoint, PutOk, ExecutedOk, LeaderCommitOk;
    var a, r := s.nodes[m.to], Reached(s.hist, m.to);
    assert CommitOk(s, a);
    hide CommitInv;
    var whole, b := OnAppendEntries(Repaired, a, m.areq).0, Torn(Repaired, a, m.areq, lines, upto);
    CrashedInExecution(a, m.areq, lines, upto);
    AcceptedReach(s, m);
    var done := whole.(store := b.store, lastApplied := upto);
    ExecutedSettled(s, whole, upto);
    ExecutedStore(s, a, done, r, a.lastApplied, upto);
    RestartStore(s, done, b, if upto > r then upto else r);
  }

  /** A node that crashed while executing, against what it would have become. */
  lemma CrashedInExecution(a: Node, req: AppendRequest, lines: nat, upto: int)
    requires CrashPoint(Repaired, a, req, lines, upto) && upto >= a.lastApplied
    ensures Accepts(a, req)
    ensures var whole, b := OnAppendEntries(Repaired, a, req).0, Torn(Repaired, a, req, lines, upto);
      && b.log == whole.log && b.currentTerm == whole.currentTerm && b.lastApplied == 0
      && b.store == Applied(a.store, whole.log, a.lastApplied, upto)
      && upto <= whole.commitIndex
  {
    TornWhole(a.log, req.prevIndex + 1, req.entries);
    TornEffect(Repaired, a, req, lines, upto);
    AppendEffect(Repaired, a, req);
    hide Torn, TornLog, OnAppendEntries, LinesToWrite, CommitLimit, Applied, InsertRepaired;
  }

  lemma ExecutedSettled(s: System, b: Node, upto: int)
    requires CommitOk(s, b) && 0 <= upto <= b.commitIndex
    ensures upto < |b.log| && Settled(s, b.log[..upto + 1], b.currentTerm)
  {
    hide Settled;
    SettledPrefix(s, b.log[..b.commitIndex + 1], b.log[..upto + 1], b.currentTerm);
  }

  lemma CrashStore(s: System, m: Message, lines: nat, upto: int)
    requires ElectionInv(s) && LogInv(s) && SafeInv(s) && CommitInv(s) && StoreInv(s)
    requires Enabled(Repaired, s, CrashInAppend(m, lines, upto))
    ensures var b, r := Torn(Repaired, s.nodes[m.to], m.areq, lines, upto), Reached(s.hist, m.to);
      StoreOk(s, b, if upto > r then upto else r)
  {
    if upto >= s.nodes[m.to].lastApplied {
      TornInExecution(s, m, lines, upto);
    } else {
      assert StoreOk(s, s.nodes[m.to], Reached(s.hist, m.to));
      TornBeforeExecution(s, m, lines, upto);
    }
  }

  /** The commands a put had executed before the crash, over a log that holds them all. */
  lemma HalfExecuted(s: System, a: Node, b: Node, r: int, upto: int)
    requires StoreOk(s, a, r) && a.log != [] && a.log[0] == SENTINEL && a.lastApplied <= upto < |a.log|
    requires Settled(s, a.log[..upto + 1], a.currentTerm)
    requires b == HalfCommitted(a, upto)
    ensures StoreOk(s, b, if upto > r then upto else r)
  {
    hide Settled, Fits, Applied;
    var done := a.(store := b.store, lastApplied := upto);
    if a.lastApplied < upto {
      ExecutedStore(s, a, done, r, a.lastApplied + 1, upto);
    } else {
      NoneApplied(a.store, a.log, a.lastApplied + 1, upto);
    }
    hide StoreOk;
    RestartStore(s, done, b, if upto > r then upto else r);
  }

  lemma CrashPutStore(s: System, n: NodeId, id: PutId, upto: int)
    requires LogInv(s) && SafeInv(s) && CommitInv(s) && StoreInv(s)
    requires Enabled(Repaired, s, CrashInCommit(n, id, upto))
    ensures var b, r := HalfCommitted(s.nodes[n], upto), Reached(s.hist, n);
      StoreOk(s, b, if upto > r then upto else r)
  {
    hide SafeInv, PutOk, ExecutedOk, LeaderCommitOk, CommitOk, Settled, NodeLogOk, AckOk, AppendMessageOk,
      ElectionLogOk, LeaderLogsOk, ElectedTerm, Fits, HalfCommitted;
    var a := s.nodes[n];
    assert PutOk(s, n, id, a.puts[id]) && StoreOk(s, a, Reached(s.hist, n)) && NodeLogOk(s, n);
    assert 0 <= a.lastApplied <= upto;
    hide LogInv, CommitInv, StoreInv, StoreOk;
    SentinelFirst(s, n);
    PutSettled(s, n, id);
    SettledPrefix(s, a.log[..id.len], a.log[..upto + 1], a.currentTerm);
    HalfExecuted(s, a, HalfCommitted(a, upto), Reached(s.hist, n), upto);
  }

  lemma NoneApplied(store: Store, log: seq<Entry>, start: int, end: int)
    requires end < start
    ensures Applied(store, log, start, end) == store
  {}

  lemma StoreStays(s: System, s': System, a: Node, r: int)
    requires StoreOk(s, a, r) && LogsGrow(s, s') && VotesGrow(s, s')
    ensures StoreOk(s', a, r)
  {
    hide LogsGrow, VotesGrow, Settled, Fits;
    SettledStays(s, s', a.log[..r + 1], a.currentTerm, a.currentTerm);
  }

  lemma StepDisturbedStore(s: System, step: Step, n: NodeId)
    requires ElectionInv(s) && LogInv(s) && SafeInv(s) && CommitInv(s) && StoreInv(s) && Enabled(Repaired, s, step)
    requires n in s.nodes && Disturbs(Repaired, s, step, n)
    ensures var s' := Perform(Repaired, s, step);
      n in s'.nodes && StoreOk(s', s'.nodes[n], Reached(s'.hist, n))
  {
    hide Sent, HistoryAfter, OnAppendEntries, FinishPut, Torn, HalfCommitted, ElectionInv, LogInv, SafeInv, CommitInv,
      StoreInv, StoreOk,
      LogsGrow;
    var s' := Perform(Repaired, s, step);
    if step.AnswerAppend? {
      AcceptedStore(s, step.m);
    } else if step.CommitPut? {
      PutStore(s, n, step.id);
    } else if step.CrashInAppend? {
      CrashStore(s, step.m, step.lines, step.upto);
    } else {
      CrashPutStore(s, n, step.id, step.upto);
    }
    StepReached(Repaired, s, step);
    StepLogsGrow(s, step);
    StepVotesGrow(Repaired, s, step);
    StoreStays(s, s', s'.nodes[n], Reached(s'.hist, n));
  }

  /** A step that takes a node to a new highest index executes the command there. */
  lemma StepReachesExecuted(s: System, step: Step, n: NodeId)
    requires StoreInv(s) && Enabled(Repaired, s, step) && n in s.nodes
    ensures var h, h' := s.hist, Perform(Repaired, s, step).hist;
      && h.executed <= h'.executed
      && (Reached(h', n) == Reached(h, n) || exists e :: Executed(n, Reached(h', n), e) in h'.executed)
  {
    hide Perform, OnAppendEntries, FinishPut, InsertLog, Settled, Fits, CommitLimit;
    assert StoreOk(s, s.nodes[n], Reached(s.hist, n));
    hide StoreInv;
    StepReached(Repaired, s, step);
    StepExecutes(Repaired, s, step);
    if step.AnswerAppend? && step.m.to == n {
      AppendEffect(Repaired, s.nodes[n], step.m.areq);
    } else if step.CommitPut? && step.n == n {
      FinishEffect(s.nodes[n], step.id);
    }
    var h' := Perform(Repaired, s, step).hist;
    if Reached(h', n) != Reached(s.hist, n) {
      var w := WindowOf(Repaired, s, step);
      assert w.Window? && w.id == n && w.start <= Reached(h', n) <= w.end;
      assert Executed(n, Reached(h', n), EntryAt(w.log, Reached(h', n))) in h'.executed;
    }
  }

  lemma StepKeepsStores(s: System, step: Step)
    requires ElectionInv(s) && LogInv(s) && SafeInv(s) && CommitInv(s) && StoreInv(s) && Enabled(Repaired, s, step)
    ensures StoreInv(Perform(Repaired, s, step))
  {
    hide Perform, ElectionInv, LogInv, SafeInv, CommitInv, StoreOk;
    var s' := Perform(Repaired, s, step);
    StepVotesGrow(Repaired, s, step);
    forall n | n in s'.nodes ensures StoreOk(s', s'.nodes[n], Reached(s'.hist, n)) {
      if Disturbs(Repaired, s, step, n) { StepDisturbedStore(s, step, n); } else { StepIdleStore(s, step, n); }
    }
  }
}
