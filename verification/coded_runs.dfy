/**
 Runs of the handlers as coded with P1: exactly which steps need none of the other repairs, and what follows for runs
 made of them. A step in which an insertion throws, as without P1, is none of them.
 */
module CodedRuns {
  import opened RaftTypes
  import opened ApplyLog
  import opened RaftNode
  import opened RaftSystem
  import opened LogMatching
  import opened Replication
  import opened RaftTheorems
  import opened Repairs

  /** The receiver's log already holds the entries of the request, right after the checked index. */
  predicate HoldsEntries(log: seq<Entry>, req: AppendRequest) {
    0 <= req.prevIndex < |log| && req.entries <= log[req.prevIndex + 1..]
  }

  /**
   The guards a receiver could check: the term is not newer (R1); if the request is accepted, the entries are there
   already or nothing lies beyond them (R2), and the leader's commit index is covered, or old news (R4).
   */
  predicate HandledAlike(n: Node, req: AppendRequest) {
    && req.term <= n.currentTerm
    && (Accepts(n, req) ==>
      && (HoldsEntries(n.log, req) || |n.log| <= Covered(req))
      && (req.leaderCommit <= n.commitIndex || req.leaderCommit < Covered(req)))
  }

  /**
   The guards for a crash inside a receiver: the term is not newer; the insertion cuts where its entries begin, none
   of which the log holds already; and the commands executed are within what the request covers.
   */
  predicate TornAlike(n: Node, req: AppendRequest, upto: int) {
    var start := req.prevIndex + 1;
    && req.term <= n.currentTerm
    && Kept(n.log, start, req.entries) == 0 && (req.entries != [] || start == |n.log|)
    && (upto < n.lastApplied || (AdvancesCommit(Repaired, n, req) && upto <= CommitLimit(Repaired, req)))
  }

  /** The maps already say so. */
  predicate IndicesAre(n: Node, peer: NodeId, next: int, matched: int) {
    peer in n.nextIndex && n.nextIndex[peer] == next && peer in n.matchIndex && n.matchIndex[peer] == matched
  }

  /**
   The guards a leader could check on an answer: its request is of the current term, or moves no index; if it is an
   ack that a put will count, the request is of the put's term (R5). A rejection in the current term always moves the
   match index where the repaired retry would not (R3).
   */
  predicate UsedAlike(n: Node, from: NodeId, next: int, len: int, purpose: Purpose,
                      req: AppendRequest, reply: AppendReply)
  {
    || req.term < reply.term
    || (reply.success
        && (req.term == n.currentTerm || IndicesAre(n, from, len, len - 1))
        && (CountsAck(AsCoded, n, from, purpose, req.term) ==> purpose.id.term == req.term))
    || (!reply.success && req.term != n.currentTerm && IndicesAre(n, from, next - 1, -1))
  }

  /** No repair matters in this step: besides the above, the retry neither moves back nor starts elsewhere (R3). */
  predicate Benign(s: System, step: Step)
    requires Enabled(AsCoded, s, step)
  {
    match step
    case AskAppend(n, p, next, _, _) => next == s.nodes[n].nextIndex[p] && s.nodes[n].matchIndex[p] == next - 1
    case AnswerAppend(m) => HandledAlike(s.nodes[m.to], m.areq)
    case ThrowInInsert(_) => false
    case CrashInAppend(m, lines, upto) => TornAlike(s.nodes[m.to], m.areq, upto)
    case Restart(n, _, recovered) => recovered == s.nodes[n].log
    case UseAppendAnswer(m) => UsedAlike(s.nodes[m.areq.leader], m.from, m.next, m.len, m.purpose, m.areq, m.areply)
    case _ => true
  }

  /** The step is the same with the repaired handlers: allowed there too, with the same new state and messages. */
  predicate SameStep(s: System, step: Step)
    requires Enabled(AsCoded, s, step)
  {
    && Enabled(Repaired, s, step)
    && (!step.Deliver? ==> NodeAfter(AsCoded, s, step) == NodeAfter(Repaired, s, step))
    && Sent(AsCoded, s, step) == Sent(Repaired, s, step)
  }

  // Receivers

  /** Given equal insertions, the two receivers differ exactly in the term or in a commit index not covered. */
  lemma ReceiversDiffer(n: Node, req: AppendRequest)
    requires var start := req.prevIndex + 1; Accepts(n, req) ==>
      (InsertCoded(n.log, start, req.entries) == InsertRepaired(n.log, start, req.entries) <==>
        HoldsEntries(n.log, req) || |n.log| <= Covered(req))
    ensures OnAppendEntries(AsCoded, n, req) == OnAppendEntries(Repaired, n, req) <==> HandledAlike(n, req)
  {
    AppendEffect(AsCoded, n, req);
    AppendEffect(Repaired, n, req);
    if req.term <= n.currentTerm {
      hide InsertCoded, InsertRepaired, Applied;
    } else {
      hide OnAppendEntries;
    }
  }

  /** A receiver handles a request alike exactly when the guards hold. */
  lemma ReceiverAlike(s: System, m: Message)
    requires LogInv(s) && Enabled(AsCoded, s, AnswerAppend(m))
    ensures OnAppendEntries(AsCoded, s.nodes[m.to], m.areq) == OnAppendEntries(Repaired, s.nodes[m.to], m.areq) <==>
      HandledAlike(s.nodes[m.to], m.areq)
  {
    var n, req, tl := s.nodes[m.to], m.areq, s.hist.leaderLogs;
    assert NodeLogOk(s, m.to) && AppendMessageOk(s, m);
    if Accepts(n, req) {
      var x := tl[req.term];
      CheckIsSound(tl, n.log, x, req.prevIndex);
      OverwritingIsRight(tl, n.log, x, m.next, Covered(req));
      SameStretch(n.log, x, m.next, Covered(req));
    }
    hide *;
    ReceiversDiffer(n, req);
  }

  lemma SameStretch(l: seq<Entry>, x: seq<Entry>, start: nat, k: nat)
    requires start <= k <= |x| && start <= |l| && l[..start] == x[..start]
    ensures x[..k] <= l <==> x[start..k] <= l[start..]
  {
    if x[start..k] <= l[start..] {
      assert forall i | start <= i < k :: x[i] == x[start..k][i - start] == l[start..][i - start] == l[i];
      assert forall i | 0 <= i < start :: x[i] == x[..start][i] == l[..start][i] == l[i];
    }
  }

  // Steps

  lemma IndicesMoved(n: Node, peer: NodeId, next: int, matched: int)
    ensures WithIndices(n, peer, next, matched) == n <==> IndicesAre(n, peer, next, matched)
  {
    var b := WithIndices(n, peer, next, matched);
    assert b.nextIndex[peer] == next && b.matchIndex[peer] == matched;
    if IndicesAre(n, peer, next, matched) {
      assert n.nextIndex[peer := next] == n.nextIndex && n.matchIndex[peer := matched] == n.matchIndex;
    }
  }

  lemma OneAckMatters(n: Node, from: NodeId, id: PutId)
    requires id in n.puts
    ensures PutsCounted(n, from, id) != n.puts
  {
    assert PutsCounted(n, from, id)[id].count != n.puts[id].count;
  }

  /** The two leaders use an answer alike exactly when the guards hold; at next index 1 no rejection comes. */
  lemma AnswerUsedAlike(n: Node, from: NodeId, next: int, len: int, purpose: Purpose,
                        req: AppendRequest, reply: AppendReply)
    requires !reply.success && reply.term <= req.term ==> next >= 2
    ensures var a := OnAppendReply(AsCoded, n, from, next, len, purpose, req, reply);
      var b := OnAppendReply(Repaired, n, from, next, len, purpose, req, reply);
      a == b <==> UsedAlike(n, from, next, len, purpose, req, reply)
  {
    IndicesMoved(n, from, len, len - 1);
    IndicesMoved(n, from, next - 1, -1);
    assert WithIndices(n, from, next - 1, -1).matchIndex[from] == -1;
    assert WithIndices(n, from, next - 1, next - 2).matchIndex[from] == next - 2;
    if purpose.ForPut? && purpose.id in n.puts { OneAckMatters(n, from, purpose.id); }
  }

  lemma RequestsAlike(n: Node, me: NodeId, p: NodeId, next: int, len: int)
    requires p in n.matchIndex
    ensures PrepareAppend(AsCoded, n, me, p, next, len) == PrepareAppend(Repaired, n, me, p, next, len) <==>
      n.matchIndex[p] == next - 1
  {
    hide EntriesBetween;
  }

  lemma UseBenign(s: System, m: Message)
    requires LogInv(s) && Enabled(AsCoded, s, UseAppendAnswer(m))
    ensures SameStep(s, UseAppendAnswer(m)) <==> Benign(s, UseAppendAnswer(m))
  {
    assert AppendMessageOk(s, m);
    AnswerUsedAlike(s.nodes[m.areq.leader], m.from, m.next, m.len, m.purpose, m.areq, m.areply);
    hide LogInv, OnAppendReply;
  }

  lemma AskBenign(s: System, step: Step)
    requires Enabled(AsCoded, s, step) && step.AskAppend?
    ensures SameStep(s, step) <==> Benign(s, step)
  {
    RequestsAlike(s.nodes[step.n], step.n, step.p, step.nextIndex, step.length);
    hide PrepareAppend;
  }

  lemma AnswerBenign(s: System, m: Message)
    requires LogInv(s) && Enabled(AsCoded, s, AnswerAppend(m))
    ensures SameStep(s, AnswerAppend(m)) <==> Benign(s, AnswerAppend(m))
  {
    ReceiverAlike(s, m);
    hide LogInv, OnAppendEntries, HandledAlike;
  }

  /** Cut where the entries begin, the two torn logs are equal exactly when no entry was there already. */
  lemma TornLogsAlike(log: seq<Entry>, start: nat, es: seq<Entry>, lines: nat)
    requires start <= |log| && lines <= LinesToWrite(AsCoded, log, start, es)
    requires lines <= LinesToWrite(Repaired, log, start, es)
    ensures TornLog(AsCoded, log, start, es, lines) == TornLog(Repaired, log, start, es, lines) <==>
      Kept(log, start, es) == 0 && (es != [] || start == |log|)
  {
    var k := Kept(log, start, es);
    var a, b := TornLog(AsCoded, log, start, es, lines), TornLog(Repaired, log, start, es, lines);
    assert |a| == start + lines;
    if k == |es| {
      assert b == log;
    } else {
      assert |b| == start + k + lines;
    }
  }

  /** Executing within what the request covers is the same over either insertion. */
  lemma ExecutedAlike(id: NodeId, n: Node, req: AppendRequest, upto: int)
    requires 0 <= req.prevIndex < |n.log| && Kept(n.log, req.prevIndex + 1, req.entries) == 0
    requires req.entries != [] || req.prevIndex + 1 == |n.log|
    requires upto < n.lastApplied || upto < Covered(req)
    ensures var a := InsertLog(AsCoded, n.log, req.prevIndex + 1, req.entries);
      var b := InsertLog(Repaired, n.log, req.prevIndex + 1, req.entries);
      && Applied(n.store, a, n.lastApplied, upto) == Applied(n.store, b, n.lastApplied, upto)
      && ExecutedBetween(id, a, n.lastApplied, upto) == ExecutedBetween(id, b, n.lastApplied, upto)
  {
    var start := req.prevIndex + 1;
    var a, b := InsertLog(AsCoded, n.log, start, req.entries), InsertLog(Repaired, n.log, start, req.entries);
    InsertAfterKept(n.log, start, req.entries);
    assert b == n.log[..start] + req.entries;
    hide InsertRepaired;
    assert a[..Covered(req)] == b;
    forall i | n.lastApplied <= i <= upto ensures EntryAt(a, i) == EntryAt(b, i) {
      if 0 <= i { assert a[..Covered(req)][i] == b[i]; }
    }
    AppliedAlike(n.store, a, b, n.lastApplied, upto);
  }

  lemma {:induction false} AppliedAlike(store: Store, a: seq<Entry>, b: seq<Entry>, start: int, end: int)
    requires forall i | start <= i <= end :: EntryAt(a, i) == EntryAt(b, i)
    ensures Applied(store, a, start, end) == Applied(store, b, start, end)
    decreases end - start
  {
    if start <= end {
      assert EntryAt(a, end) == EntryAt(b, end);
      AppliedAlike(store, a, b, start, end - 1);
    }
  }

  /** Given the receiver holds the checked index, the two crashed receivers are the same exactly under the guards. */
  lemma CrashedAlike(id: NodeId, n: Node, req: AppendRequest, lines: nat, upto: int)
    requires CrashPoint(AsCoded, n, req, lines, upto) && 0 <= req.prevIndex < |n.log|
    ensures CrashPoint(Repaired, n, req, lines, upto)
        && Torn(AsCoded, n, req, lines, upto) == Torn(Repaired, n, req, lines, upto)
      <==> TornAlike(n, req, upto)
    ensures TornAlike(n, req, upto) ==>
      ExecutedBetween(id, InsertLog(AsCoded, n.log, req.prevIndex + 1, req.entries), n.lastApplied, upto) ==
      ExecutedBetween(id, InsertLog(Repaired, n.log, req.prevIndex + 1, req.entries), n.lastApplied, upto)
  {
    hide TornLog, InsertLog, Applied, ExecutedBetween;
    if lines <= LinesToWrite(Repaired, n.log, req.prevIndex + 1, req.entries) {
      TornLogsAlike(n.log, req.prevIndex + 1, req.entries, lines);
    }
    if CrashPoint(Repaired, n, req, lines, upto) {
      TornEffect(AsCoded, n, req, lines, upto);
      TornEffect(Repaired, n, req, lines, upto);
    }
    if TornAlike(n, req, upto) { ExecutedAlike(id, n, req, upto); }
  }

  /** A receiver whose check passes holds the checked index. */
  lemma CheckedIndexHeld(s: System, m: Message)
    requires LogInv(s) && m in s.net && m.AppendAsk? && m.to in s.nodes && Accepts(s.nodes[m.to], m.areq)
    ensures 0 <= m.areq.prevIndex < |s.nodes[m.to].log|
  {
    hide Grounded, LeaderLogsOk, ElectionLogOk, AckOk, ElectedTerm;
    var tl := s.hist.leaderLogs;
    assert NodeLogOk(s, m.to) && AppendMessageOk(s, m) && LeaderLogsOk(tl);
    NodeGrounded(s, m.to);
    LeaderGrounded(tl, m.areq.term);
    CheckIsSound(tl, s.nodes[m.to].log, tl[m.areq.term], m.areq.prevIndex);
  }

  lemma CrashBenign(s: System, step: Step)
    requires LogInv(s) && Enabled(AsCoded, s, step) && step.CrashInAppend?
    ensures SameStep(s, step) <==> Benign(s, step)
  {
    hide LogInv, Torn, TornAlike, InsertLog, ExecutedBetween, LinesToWrite, CommitLimit;
    CheckedIndexHeld(s, step.m);
    CrashedAlike(step.m.to, s.nodes[step.m.to], step.m.areq, step.lines, step.upto);
    hide CrashPoint;
  }

  lemma CrashSameState(s: System, step: Step)
    requires LogInv(s) && Enabled(AsCoded, s, step) && step.CrashInAppend? && SameStep(s, step)
    ensures Perform(AsCoded, s, step) == Perform(Repaired, s, step)
  {
    hide LogInv, Torn, TornAlike, InsertLog, ExecutedBetween, LinesToWrite, CommitLimit, Reach;
    CrashBenign(s, step);
    CheckedIndexHeld(s, step.m);
    CrashedAlike(step.m.to, s.nodes[step.m.to], step.m.areq, step.lines, step.upto);
    hide CrashPoint;
  }

  lemma OtherBenign(s: System, step: Step)
    requires Enabled(AsCoded, s, step) && !step.AnswerAppend? && !step.UseAppendAnswer? && !step.AskAppend?
    requires !step.CrashInAppend?
    ensures SameStep(s, step) <==> Benign(s, step)
  {
    hide OnReqVote, OnVoteReply, StartElection, BecomeLeader, AppendPut, FinishPut, VoteRequestOf, WinsElection;
  }

  /** In any state repaired runs reach, a step as coded needs no repair exactly when its guards hold. */
  lemma BenignExactly(s: System, step: Step)
    requires LogInv(s) && Enabled(AsCoded, s, step)
    ensures SameStep(s, step) <==> Benign(s, step)
  {
    hide LogInv, SameStep, Benign, Enabled;
    if step.AnswerAppend? {
      AnswerBenign(s, step.m);
    } else if step.UseAppendAnswer? {
      UseBenign(s, step.m);
    } else if step.AskAppend? {
      AskBenign(s, step);
    } else if step.CrashInAppend? {
      CrashBenign(s, step);
    } else {
      OtherBenign(s, step);
    }
  }

  lemma AdvanceShows(v: Variant, n: Node, req: AppendRequest)
    ensures AdvancesCommit(v, n, req) <==> OnAppendEntries(v, n, req).0.commitIndex > n.commitIndex
  {
    AppendEffect(v, n, req);
    hide OnAppendEntries, InsertLog, CommitLimit;
  }

  lemma SameStepSameState(s: System, step: Step)
    requires Enabled(AsCoded, s, step) && SameStep(s, step) && !step.CrashInAppend?
    ensures Perform(AsCoded, s, step) == Perform(Repaired, s, step)
  {
    if step.AnswerAppend? {
      AdvanceShows(AsCoded, s.nodes[step.m.to], step.m.areq);
      AdvanceShows(Repaired, s.nodes[step.m.to], step.m.areq);
      hide OnAppendEntries, AdvancesCommit, Sent;
    } else {
      hide NodeAfter, Sent;
    }
  }

  // Runs

  ghost predicate BenignNext(s: System, s': System) {
    exists step: Step :: Enabled(AsCoded, s, step) && Benign(s, step) && s' == Perform(AsCoded, s, step)
  }

  /** A run as coded, with P1, in which every step meets its guards. */
  ghost predicate BenignRun(run: seq<System>) {
    && |run| > 0 && Init(run[0])
    && forall i :: 0 <= i < |run| - 1 ==> BenignNext(run[i], run[i + 1])
  }

  lemma BenignNextIsRepaired(s: System, s': System)
    requires LogInv(s) && BenignNext(s, s')
    ensures Next(Repaired, s, s')
  {
    var step: Step :| Enabled(AsCoded, s, step) && Benign(s, step) && s' == Perform(AsCoded, s, step);
    BenignExactly(s, step);
    if step.CrashInAppend? { CrashSameState(s, step); } else { SameStepSameState(s, step); }
    hide LogInv, Perform, Benign, Enabled;
  }

  /** Such a run is a run of the repaired handlers, so every guarantee proved of those holds of it. */
  lemma {:induction false} BenignRunsNeedNoRepair(run: seq<System>)
    requires BenignRun(run)
    ensures RaftSystem.Run(Repaired, run)
    decreases |run|
  {
    hide Next, BenignNext, Init;
    var k := |run| - 1;
    if k > 0 {
      var front := run[..k];
      forall i | 0 <= i < |front| - 1 ensures BenignNext(front[i], front[i + 1]) {
        assert BenignNext(run[i], run[i + 1]);
      }
      BenignRunsNeedNoRepair(front);
      LogInvOfRun(front, k - 1);
      BenignNextIsRepaired(run[k - 1], run[k - 1 + 1]);
      forall i | 0 <= i < k ensures Next(Repaired, run[i], run[i + 1]) {
        if i < k - 1 { assert Next(Repaired, front[i], front[i + 1]); }
      }
    }
  }

  lemma LogInvOfRun(run: seq<System>, i: nat)
    requires RaftSystem.Run(Repaired, run) && i < |run|
    ensures LogInv(run[i])
  {
    RunInv(Repaired, run, i);
  }
}
