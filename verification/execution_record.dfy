/**
 The record of executed commands against what the handlers did, as coded and repaired: a command is recorded exactly
 when its node put it into its store, and a store holds nothing else.
 */
module ExecutionRecord {
  import opened RaftTypes
  import opened ApplyLog
  import opened RaftNode
  import opened RaftSystem
  import opened HandlerLaws
  import opened Elections
  import opened Commitment

  predicate AppliedFromZero(s: System) {
    forall n | n in s.nodes :: s.nodes[n].lastApplied >= 0
  }

  predicate Crashes(step: Step) {
    step.CrashInAppend? || step.CrashInCommit?
  }

  /** A step executes its window: the store gets it, and unless the node crashed its applied index reaches the end. */
  lemma WindowDone(v: Variant, s: System, step: Step)
    requires Enabled(v, s, step) && WindowOf(v, s, step).Window? && AppliedFromZero(s)
    ensures var w := WindowOf(v, s, step);
      && w.id in s.nodes && w.start >= 0 && !step.Deliver? && Actor(v, s, step) == w.id
      && var a, b := s.nodes[w.id], NodeAfter(v, s, step);
      && StoreAfter(a.store, w.log, w.start, w.end, b.store)
      && a.lastApplied <= w.start <= a.lastApplied + 1
      && (!Crashes(step) ==> b.log == w.log && b.lastApplied == if w.start <= w.end then w.end else a.lastApplied)
      && (Crashes(step) ==> b.lastApplied == 0)
  {
    var n := Actor(v, s, step);
    var a := s.nodes[n];
    hide OnAppendEntries, FinishPut, Torn, HalfCommitted, InsertLog, InsertCoded, InsertRepaired,
      LinesToWrite, StoreAfter;
    match step
    case AnswerAppend(m) =>
      AppendEffect(v, a, m.areq);
      AppendAnswerLaw(v, a, m.areq);
      AppendEffectLaw(v, a, m.areq);
    case CommitPut(_, id) => CommitLaw(a, id);
    case CrashInAppend(m, lines, upto) =>
      TornLaw(v, a, m.areq, lines, upto);
      AppendEffect(v, a, m.areq);
    case CrashInCommit(_, id, upto) => HalfCommittedLaw(a, upto);
    case _ =>
  }

  /** A step without a window executes nothing. */
  lemma NothingDone(v: Variant, s: System, step: Step)
    requires Enabled(v, s, step) && !step.Deliver? && WindowOf(v, s, step).Nothing? && AppliedFromZero(s)
    ensures var a, b := s.nodes[Actor(v, s, step)], NodeAfter(v, s, step);
      b.store == a.store && (b.lastApplied == a.lastApplied || b.lastApplied == 0)
  {
    var a := s.nodes[Actor(v, s, step)];
    hide OnAppendEntries, OnAppendReply, OnReqVote, OnVoteReply, Torn, InsertLog, LinesToWrite, StoreAfter, Recognise;
    match step
    case AnswerVote(m) => ReqVoteEffect(a, m.vreq);
    case CountVote(m) => VoteReplyEffect(a, m.from, m.vreq, m.vreply);
    case AnswerAppend(m) =>
      AppendEffect(v, a, m.areq);
      AppendAnswerLaw(v, a, m.areq);
      AppendStoreLaw(v, a, m.areq);
    case UseAppendAnswer(m) => AppendReplyEffect(v, a, m.from, m.next, m.len, m.purpose, m.areq, m.areply);
    case CrashInAppend(m, lines, upto) => TornEffect(v, a, m.areq, lines, upto);
    case ThrowInInsert(m) => RecogniseEffect(v, a, m.areq.term);
    case _ =>
  }

  /** A key written in a window has its last write no earlier than there. */
  lemma WrittenFrom(log: seq<Entry>, start: nat, i: int, end: int)
    requires start <= i <= end
    ensures var key := KeyAt(log, i);
      LastWrite(log, i, end, key) != -1 && LastWrite(log, start, end, key) == LastWrite(log, i, end, key)
  {
    LastWriteSplit(log, start, i, end, KeyAt(log, i));
  }

  /**
   What a step newly records of a node that does not crash in it, that node has: the command is in its log at that
   index, its applied index has got there, and its store holds the command's key as last written since.
   */
  lemma RecordedIsStored(v: Variant, s: System, step: Step, x: Executed)
    requires Enabled(v, s, step) && !Crashes(step) && AppliedFromZero(s)
    requires x in Perform(v, s, step).hist.executed && x !in s.hist.executed
    ensures x.id in s.nodes && x.id in Perform(v, s, step).nodes && 0 <= s.nodes[x.id].lastApplied <= x.index
    ensures var b := Perform(v, s, step).nodes[x.id];
      var last := LastWrite(b.log, x.index, b.lastApplied, x.entry.key);
      && x.index <= b.lastApplied && x.entry == EntryAt(b.log, x.index)
      && last != -1 && x.entry.key in b.store && b.store[x.entry.key] == ValueAt(b.log, last)
  {
    hide Perform, NodeAfter, StoreAfter, LastWrite;
    StepExecutes(v, s, step);
    StepMoves(v, s, step);
    WindowDone(v, s, step);
    var w := WindowOf(v, s, step);
    hide WindowOf, Enabled;
    WrittenFrom(w.log, w.start, x.index, w.end);
    KeyOf(s.nodes[w.id].store, w.log, w.start, w.end, NodeAfter(v, s, step).store, x.entry.key);
  }

  lemma KeyOf(before: Store, log: seq<Entry>, start: nat, end: int, after: Store, key: string)
    requires StoreAfter(before, log, start, end, after)
    ensures KeyAfter(before, log, start, end, after, key)
  {}

  /** Every key a node stores, it stores because it executed the command. */
  ghost predicate StoreRecorded(s: System, n: NodeId)
    requires n in s.nodes
  {
    forall key | key in s.nodes[n].store ::
      exists x :: x in s.hist.executed && x.id == n && x.entry.key == key && x.entry.value == s.nodes[n].store[key]
  }

  ghost predicate Did(h: History, n: NodeId, i: int) {
    exists e :: Executed(n, i, e) in h.executed
  }

  /** Every index a node has applied since it started, it executed. */
  ghost predicate AppliedRecorded(s: System, n: NodeId)
    requires n in s.nodes
  {
    forall i | 1 <= i <= s.nodes[n].lastApplied :: Did(s.hist, n, i)
  }

  ghost predicate RecordInv(s: System) {
    AppliedFromZero(s) && forall n | n in s.nodes :: StoreRecorded(s, n) && AppliedRecorded(s, n)
  }

  lemma IdleRecorded(s: System, s': System, n: NodeId)
    requires n in s.nodes && n in s'.nodes && StoreRecorded(s, n) && AppliedRecorded(s, n)
    requires s.hist.executed <= s'.hist.executed && s'.nodes[n].store == s.nodes[n].store
    requires s'.nodes[n].lastApplied == s.nodes[n].lastApplied || s'.nodes[n].lastApplied == 0
    ensures StoreRecorded(s', n) && AppliedRecorded(s', n)
  {
    forall i | 1 <= i <= s'.nodes[n].lastApplied ensures Did(s'.hist, n, i) {
      assert Did(s.hist, n, i);
      var e :| Executed(n, i, e) in s.hist.executed;
      assert Executed(n, i, e) in s'.hist.executed;
    }
  }

  /** A node that executed a window, all of which was recorded. */
  lemma WindowRecorded(s: System, s': System, n: NodeId, log: seq<Entry>, start: nat, end: int)
    requires n in s.nodes && n in s'.nodes && StoreRecorded(s, n) && AppliedRecorded(s, n)
    requires s'.hist.executed == s.hist.executed + ExecutedBetween(n, log, start, end)
    requires StoreAfter(s.nodes[n].store, log, start, end, s'.nodes[n].store) && start <= s.nodes[n].lastApplied + 1
    requires s'.nodes[n].lastApplied == s.nodes[n].lastApplied || s'.nodes[n].lastApplied == 0
      || s'.nodes[n].lastApplied == end
    ensures StoreRecorded(s', n) && AppliedRecorded(s', n)
  {
    hide LastWrite;
    var a, b := s.nodes[n], s'.nodes[n];
    forall key | key in b.store
      ensures exists x :: x in s'.hist.executed && x.id == n && x.entry.key == key && x.entry.value == b.store[key]
    {
      KeyOf(a.store, log, start, end, b.store, key);
      var w := LastWrite(log, start, end, key);
      if w == -1 {
        var x :| x in s.hist.executed && x.id == n && x.entry.key == key && x.entry.value == a.store[key];
        assert x in s'.hist.executed;
      } else {
        assert Executed(n, w, EntryAt(log, w)) in s'.hist.executed;
      }
    }
    forall i | 1 <= i <= b.lastApplied ensures Did(s'.hist, n, i) {
      if i <= a.lastApplied {
        assert Did(s.hist, n, i);
        var e :| Executed(n, i, e) in s.hist.executed;
        assert Executed(n, i, e) in s'.hist.executed;
      } else {
        assert Executed(n, i, EntryAt(log, i)) in s'.hist.executed;
      }
    }
  }

  lemma StepRecord(v: Variant, s: System, step: Step, n: NodeId)
    requires Enabled(v, s, step) && RecordInv(s) && n in s.nodes
    ensures var s' := Perform(v, s, step);
      n in s'.nodes && s'.nodes[n].lastApplied >= 0 && StoreRecorded(s', n) && AppliedRecorded(s', n)
  {
    hide Perform, NodeAfter, StoreAfter, StoreRecorded, AppliedRecorded, ExecutedBetween;
    var s' := Perform(v, s, step);
    var w := WindowOf(v, s, step);
    StepExecutes(v, s, step);
    StepMoves(v, s, step);
    if step.Deliver? || n != Actor(v, s, step) {
      IdleRecorded(s, s', n);
    } else if w.Nothing? {
      NothingDone(v, s, step);
      IdleRecorded(s, s', n);
    } else {
      WindowDone(v, s, step);
      WindowRecorded(s, s', n, w.log, w.start, w.end);
    }
  }

  lemma StepKeepsRecord(v: Variant, s: System, step: Step)
    requires Enabled(v, s, step) && RecordInv(s)
    ensures RecordInv(Perform(v, s, step))
  {
    hide Perform, NodeAfter, StoreRecorded, AppliedRecorded;
    StepMoves(v, s, step);
    forall n | n in Perform(v, s, step).nodes
      ensures Perform(v, s, step).nodes[n].lastApplied >= 0
      ensures StoreRecorded(Perform(v, s, step), n) && AppliedRecorded(Perform(v, s, step), n)
    {
      StepRecord(v, s, step, n);
    }
  }

  // Over runs

  lemma {:induction false} RunRecord(v: Variant, run: seq<System>, i: nat)
    requires Run(v, run) && i < |run|
    ensures RecordInv(run[i])
  {
    if i > 0 {
      RunRecord(v, run, i - 1);
      assert Next(v, run[i - 1], run[i - 1 + 1]);
      hide RecordInv, Perform, Enabled, Init;
      var step: Step :| Enabled(v, run[i - 1], step) && run[i] == Perform(v, run[i - 1], step);
      StepKeepsRecord(v, run[i - 1], step);
    }
  }

  /** A command newly recorded in a step of a run is in the store of its node, unless the node crashed in that step. */
  lemma ExecutedMeansStored(v: Variant, run: seq<System>, i: nat, step: Step, x: Executed)
    requires Run(v, run) && i + 1 < |run| && x in run[i + 1].hist.executed && x !in run[i].hist.executed
    requires Enabled(v, run[i], step) && run[i + 1] == Perform(v, run[i], step) && !Crashes(step)
    ensures x.id in run[i].nodes && x.id in run[i + 1].nodes && 0 <= run[i].nodes[x.id].lastApplied <= x.index
    ensures var b := run[i + 1].nodes[x.id];
      var last := LastWrite(b.log, x.index, b.lastApplied, x.entry.key);
      && x.index <= b.lastApplied && x.entry == EntryAt(b.log, x.index)
      && last != -1 && x.entry.key in b.store && b.store[x.entry.key] == ValueAt(b.log, last)
  {
    RunRecord(v, run, i);
    hide Run, Perform, Enabled;
    RecordedIsStored(v, run[i], step, x);
  }

  /** Whatever a node's store holds, some command it executed put there, over crashes and restarts. */
  lemma StoredMeansExecuted(v: Variant, run: seq<System>, i: nat, n: NodeId, key: string)
    requires Run(v, run) && i < |run| && n in run[i].nodes && key in run[i].nodes[n].store
    ensures exists x ::
      x in run[i].hist.executed && x.id == n && x.entry.key == key && x.entry.value == run[i].nodes[n].store[key]
  {
    RunRecord(v, run, i);
    hide Run;
    assert StoreRecorded(run[i], n);
  }

  /** Whatever index a node has applied, it executed a command there. */
  lemma AppliedMeansExecuted(v: Variant, run: seq<System>, i: nat, n: NodeId, k: int)
    requires Run(v, run) && i < |run| && n in run[i].nodes && 1 <= k <= run[i].nodes[n].lastApplied
    ensures exists e :: Executed(n, k, e) in run[i].hist.executed
  {
    RunRecord(v, run, i);
    hide Run;
    assert AppliedRecorded(run[i], n) && Did(run[i].hist, n, k);
  }
}
