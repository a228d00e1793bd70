/**
 A cluster of Raft nodes exchanging messages that may be lost, delayed, duplicated and reordered, together with
 the load balancer's leader pointer. The node list is fixed and each handler is one step.
 */
module RaftSystem {
  import opened RaftTypes
  import opened RaftNode
  import opened LeaderPointer

  /** Requests and answers; an answer carries the request (and the locals) of the thread waiting for it. */
  datatype Message =
    | VoteAsk(to: NodeId, vreq: VoteRequest)
    | VoteAnswer(from: NodeId, vreq: VoteRequest, vreply: VoteReply)
    | AppendAsk(to: NodeId, next: int, len: int, purpose: Purpose, areq: AppendRequest)
    | AppendAnswer(from: NodeId, next: int, len: int, purpose: Purpose, areq: AppendRequest, areply: AppendReply)
    | Announce(ann: Announcement)

  /** An elected node, its term, and its log when it was elected. */
  datatype Election = Election(term: int, leader: NodeId, log: seq<Entry>)

  /** Node `id` executed `entry` as the command at `index`. */
  datatype Executed = Executed(id: NodeId, index: int, entry: Entry)

  /** What happened so far. No handler reads it. */
  datatype History = History(
    elected: set<Election>,
    ballots: map<(NodeId, int), seq<Entry>>,   // the voter's log when it voted in a term
    leaderLogs: map<int, seq<Entry>>,          // the log of the leader of each term
    acked: map<(NodeId, int), int>,            // how much of a term's leader log a node has confirmed
    executed: set<Executed>,
    reached: map<NodeId, int>)                 // the highest index a node ever executed

  datatype System = System(nodes: map<NodeId, Node>, net: set<Message>, hist: History, lb: Pointer)

  datatype Step =
    | Timeout(n: NodeId)
    | AskVote(n: NodeId, p: NodeId)
    | AnswerVote(m: Message)
    | CountVote(m: Message)
    | Win(n: NodeId)
    | ClientPut(n: NodeId, key: string, value: string)
    | AskAppend(n: NodeId, p: NodeId, nextIndex: int, length: int, purpose: Purpose)
    | AnswerAppend(m: Message)
    | UseAppendAnswer(m: Message)
    | CommitPut(n: NodeId, id: PutId)
    | Restart(n: NodeId, term: int, recovered: seq<Entry>)
    | ThrowInInsert(m: Message)
    | CrashInAppend(m: Message, lines: nat, upto: int)
    | CrashInCommit(n: NodeId, id: PutId, upto: int)
    | Deliver(m: Message)

  function EntryAt(log: seq<Entry>, i: int): Entry {
    Entry(TermAt(log, i), KeyAt(log, i), ValueAt(log, i))
  }

  function ExecutedBetween(id: NodeId, log: seq<Entry>, start: int, end: int): set<Executed> {
    set i | start <= i <= end :: Executed(id, i, EntryAt(log, i))
  }

  function Held(h: History, p: NodeId, term: int): int {
    if (p, term) in h.acked then h.acked[(p, term)] else 0
  }

  function Confirm(h: History, p: NodeId, term: int, len: int): map<(NodeId, int), int> {
    h.acked[(p, term) := if len > Held(h, p, term) then len else Held(h, p, term)]
  }

  function Reached(h: History, n: NodeId): int {
    if n in h.reached then h.reached[n] else 0
  }

  function Reach(h: History, n: NodeId, applied: int): map<NodeId, int> {
    h.reached[n := if applied > Reached(h, n) then applied else Reached(h, n)]
  }

  predicate Init(s: System) {
    && "" !in s.nodes
    && (forall p | p in s.nodes :: s.nodes[p] == FreshNode())
    && s.net == {}
    && s.hist == History({}, map[], map[0 := [SENTINEL]], map[], {}, map[])
    && s.lb == Pointer(0, "")
  }

  /** A put's thread for that peer has not got its ack yet. */
  predicate ThreadOf(n: Node, peer: NodeId, id: PutId) {
    id in n.puts && peer in n.puts[id].waiting
  }

  /**
   Which steps are possible. A crash may come right after a handler wrote a newer term, so a restart may find one; it
   may come inside an insertion, or between two commands that are executed. A restart recovers what the log file
   holds: once repaired the log itself; as coded anything, since file and memory may have parted. As coded an
   insertion before the end of the log may also throw, as it does without P1 (`StateHelper.InsertUnpatched`): the
   receiver has recognised the request by then, and answers nothing.
   */
  predicate Enabled(v: Variant, s: System, step: Step) {
    match step
    case Timeout(n) => n in s.nodes && s.nodes[n].identity != LEADER
    case AskVote(n, p) => n in s.nodes && s.nodes[n].identity == CANDIDATE && p in s.nodes[n].awaiting
    case AnswerVote(m) => m in s.net && m.VoteAsk? && m.to in s.nodes
    case CountVote(m) => m in s.net && m.VoteAnswer? && m.vreq.candidate in s.nodes
    case Win(n) => n in s.nodes && WinsElection(s.nodes[n], |s.nodes|)
    case ClientPut(n, _, _) => n in s.nodes && s.nodes[n].identity == LEADER
    case AskAppend(n, p, next, len, purpose) =>
      && n in s.nodes && p in s.nodes && p != n && s.nodes[n].identity == LEADER
      && 1 <= len <= |s.nodes[n].log|
      && p in s.nodes[n].matchIndex && p in s.nodes[n].nextIndex
      && (v.Repaired? ==> next == s.nodes[n].nextIndex[p])
      && (purpose.ForPut? ==> ThreadOf(s.nodes[n], p, purpose.id) && len == purpose.id.len)
    case AnswerAppend(m) => m in s.net && m.AppendAsk? && m.to in s.nodes
    case UseAppendAnswer(m) => m in s.net && m.AppendAnswer? && m.areq.leader in s.nodes
    case CommitPut(n, id) =>
      n in s.nodes && id in s.nodes[n].puts && ReceivedMajority(s.nodes[n].puts[id].count, |s.nodes|)
    case Restart(n, term, recovered) =>
      && n in s.nodes && term >= s.nodes[n].currentTerm
      && (v.Repaired? ==> recovered == s.nodes[n].log)
    case ThrowInInsert(m) =>
      && v.AsCoded? && m in s.net && m.AppendAsk? && m.to in s.nodes && Accepts(s.nodes[m.to], m.areq)
      && 0 <= m.areq.prevIndex + 1 < |s.nodes[m.to].log|
    case CrashInAppend(m, lines, upto) =>
      && m in s.net && m.AppendAsk? && m.to in s.nodes && CrashPoint(v, s.nodes[m.to], m.areq, lines, upto)
    case CrashInCommit(n, id, upto) =>
      && n in s.nodes && id in s.nodes[n].puts && ReceivedMajority(s.nodes[n].puts[id].count, |s.nodes|)
      && s.nodes[n].lastApplied <= upto < id.len
    case Deliver(m) => m in s.net && m.Announce?
  }

  /** The node that takes the step. */
  function Actor(v: Variant, s: System, step: Step): (n: NodeId)
    requires Enabled(v, s, step) && !step.Deliver?
    ensures n in s.nodes
  {
    match step
    case AnswerVote(m) => m.to
    case CountVote(m) => m.vreq.candidate
    case AnswerAppend(m) => m.to
    case UseAppendAnswer(m) => m.areq.leader
    case Timeout(n) => n
    case AskVote(n, _) => n
    case Win(n) => n
    case ClientPut(n, _, _) => n
    case AskAppend(n, _, _, _, _) => n
    case CommitPut(n, _) => n
    case Restart(n, _, _) => n
    case ThrowInInsert(m) => m.to
    case CrashInAppend(m, _, _) => m.to
    case CrashInCommit(n, _, _) => n
  }

  function NodeAfter(v: Variant, s: System, step: Step): Node
    requires Enabled(v, s, step) && !step.Deliver?
  {
    var a := s.nodes[Actor(v, s, step)];
    match step
    case Timeout(n) => StartElection(a, n, s.nodes.Keys)
    case AnswerVote(m) => OnReqVote(a, m.vreq).0
    case CountVote(m) => OnVoteReply(a, m.from, m.vreq, m.vreply)
    case Win(n) => BecomeLeader(a, s.nodes.Keys)
    case ClientPut(n, key, value) => AppendPut(a, n, s.nodes.Keys, key, value)
    case AnswerAppend(m) => OnAppendEntries(v, a, m.areq).0
    case UseAppendAnswer(m) => OnAppendReply(v, a, m.from, m.next, m.len, m.purpose, m.areq, m.areply)
    case CommitPut(n, id) => FinishPut(a, id)
    case Restart(n, term, recovered) => Restarted(a).(currentTerm := term, log := recovered)
    case ThrowInInsert(m) => Recognise(v, a, m.areq.term)
    case CrashInAppend(m, lines, upto) => Torn(v, a, m.areq, lines, upto)
    case CrashInCommit(n, id, upto) => HalfCommitted(a, upto)
    case _ => a
  }

  function Sent(v: Variant, s: System, step: Step): set<Message>
    requires Enabled(v, s, step)
  {
    match step
    case AskVote(n, p) => {VoteAsk(p, VoteRequestOf(s.nodes[n], n))}
    case AnswerVote(m) => {VoteAnswer(m.to, m.vreq, OnReqVote(s.nodes[m.to], m.vreq).1)}
    case Win(n) => {Announce(Announcement(s.nodes[n].currentTerm, n))}
    case AskAppend(n, p, next, len, purpose) =>
      {AppendAsk(p, next, len, purpose, PrepareAppend(v, s.nodes[n], n, p, next, len))}
    case AnswerAppend(m) =>
      {AppendAnswer(m.to, m.next, m.len, m.purpose, m.areq, OnAppendEntries(v, s.nodes[m.to], m.areq).1)}
    case _ => {}
  }

  /** The part of the leader's log that a request shows to its receiver. */
  function Covered(req: AppendRequest): int {
    req.prevIndex + 1 + |req.entries|
  }

  function HistoryAfter(v: Variant, s: System, step: Step): History
    requires Enabled(v, s, step)
  {
    var h := s.hist;
    match step
    case Timeout(n) =>
      h.(ballots := h.ballots[(n, s.nodes[n].currentTerm + 1) := s.nodes[n].log])
    case AnswerVote(m) =>
      if Grants(s.nodes[m.to], m.vreq) then h.(ballots := h.ballots[(m.to, m.vreq.term) := s.nodes[m.to].log]) else h
    case Win(n) =>
      var a := s.nodes[n];
      h.(elected := h.elected + {Election(a.currentTerm, n, a.log)},
         leaderLogs := h.leaderLogs[a.currentTerm := a.log])
    case ClientPut(n, _, _) =>
      var b := NodeAfter(v, s, step);
      h.(leaderLogs := h.leaderLogs[b.currentTerm := b.log], acked := Confirm(h, n, b.currentTerm, |b.log|))
    case AnswerAppend(m) =>
      var a := s.nodes[m.to];
      var b := NodeAfter(v, s, step);
      h.(acked := if Accepts(a, m.areq) then Confirm(h, m.to, m.areq.term, Covered(m.areq)) else h.acked,
         reached := Reach(h, m.to, b.lastApplied),
         executed := h.executed +
           if AdvancesCommit(v, a, m.areq) then ExecutedBetween(m.to, b.log, a.lastApplied, b.commitIndex) else {})
    case CommitPut(n, id) =>
      var a := s.nodes[n];
      h.(executed := h.executed + ExecutedBetween(n, a.log, a.lastApplied + 1, id.len - 1),
         reached := Reach(h, n, NodeAfter(v, s, step).lastApplied))
    case CrashInAppend(m, lines, upto) =>
      var a := s.nodes[m.to];
      var inserted := InsertLog(v, a.log, m.areq.prevIndex + 1, m.areq.entries);
      h.(executed := h.executed + ExecutedBetween(m.to, inserted, a.lastApplied, upto),
         reached := Reach(h, m.to, upto))
    case CrashInCommit(n, id, upto) =>
      var a := s.nodes[n];
      h.(executed := h.executed + ExecutedBetween(n, a.log, a.lastApplied + 1, upto),
         reached := Reach(h, n, upto))
    case _ => h
  }

  function Perform(v: Variant, s: System, step: Step): System
    requires Enabled(v, s, step)
  {
    System(
      if step.Deliver? then s.nodes else s.nodes[Actor(v, s, step) := NodeAfter(v, s, step)],
      s.net + Sent(v, s, step),
      HistoryAfter(v, s, step),
      if step.Deliver? then OnAnnouncement(s.lb, step.m.ann) else s.lb)
  }

  ghost predicate Next(v: Variant, s: System, s': System) {
    exists step: Step :: Enabled(v, s, step) && s' == Perform(v, s, step)
  }

  /** A finite run from an initial state; its length is arbitrary. */
  ghost predicate Run(v: Variant, run: seq<System>) {
    && |run| > 0
    && Init(run[0])
    && forall i :: 0 <= i < |run| - 1 ==> Next(v, run[i], run[i + 1])
  }
}
