/** Replication with the repaired handlers: Log Matching and what every message and acknowledgement means. */
module Replication {
  import opened RaftTypes
  import opened RaftNode
  import opened RaftSystem
  import opened Elections
  import opened LogMatching

  predicate ElectedTerm(h: History, term: int) {
    exists e :: e in h.elected && e.term == term
  }

  /** A leader only appends to the log it was elected with, and only entries of its own term. */
  predicate ElectionLogOk(h: History, e: Election) {
    && e.term in h.leaderLogs
    && e.log <= h.leaderLogs[e.term]
    && forall i | |e.log| <= i < |h.leaderLogs[e.term]| :: h.leaderLogs[e.term][i].term == e.term
  }

  predicate NextIndexOk(s: System, n: NodeId, p: NodeId)
    requires n in s.nodes
  {
    var a := s.nodes[n];
    p in a.nextIndex && p in a.matchIndex && 1 <= a.nextIndex[p] <= |a.log|
  }

  /** Every log is grounded; a leader's log is its term's leader log, and it knows every peer's next index. */
  predicate NodeLogOk(s: System, n: NodeId)
    requires n in s.nodes
  {
    var a := s.nodes[n];
    && Grounded(s.hist.leaderLogs, a.log)
    && Bounded(a.log, a.currentTerm)
    && (a.identity == LEADER ==>
      && a.currentTerm in s.hist.leaderLogs && s.hist.leaderLogs[a.currentTerm] == a.log
      && forall p | p in s.nodes :: NextIndexOk(s, n, p))
  }

  predicate AckOk(s: System, p: NodeId, term: int) {
    && p in s.nodes
    && term in s.hist.leaderLogs
    && 0 <= Held(s.hist, p, term) <= |s.hist.leaderLogs[term]|
    && term <= s.nodes[p].currentTerm
  }

  /** A request shows a stretch of the leader log of its term, and the entry before it. */
  predicate RequestOk(s: System, next: int, len: int, req: AppendRequest) {
    && ElectedAs(s.hist, req.term, req.leader)
    && req.leader in s.nodes
    && req.term <= s.nodes[req.leader].currentTerm
    && req.term in s.hist.leaderLogs
    && var x := s.hist.leaderLogs[req.term];
    && 0 <= req.prevIndex && next == req.prevIndex + 1
    && 1 <= len <= Covered(req) <= |x|
    && req.prevTerm == x[req.prevIndex].term
    && req.entries == x[next..Covered(req)]
  }

  predicate AppendMessageOk(s: System, m: Message) {
    match m
    case AppendAsk(to, next, len, purpose, req) =>
      to in s.nodes && to != req.leader && RequestOk(s, next, len, req) && (purpose.ForPut? ==> purpose.id.len == len)
    case AppendAnswer(p, next, len, purpose, req, reply) =>
      && p in s.nodes
      && (purpose.ForPut? ==> purpose.id.len == len)
      && RequestOk(s, next, len, req)
      && (reply.success ==> Held(s.hist, p, req.term) >= Covered(req))
      && (!reply.success && reply.term <= req.term ==> next >= 2)
    case _ => true
  }

  predicate LogInv(s: System) {
    && LeaderLogsOk(s.hist.leaderLogs)
    && (forall t | t in s.hist.leaderLogs :: t == 0 || ElectedTerm(s.hist, t))
    && (forall e | e in s.hist.elected :: ElectionLogOk(s.hist, e))
    && (forall n | n in s.nodes :: NodeLogOk(s, n))
    && (forall k | k in s.hist.acked :: AckOk(s, k.0, k.1))
    && (forall m | m in s.net :: AppendMessageOk(s, m))
  }

  /** Leader logs only grow, acknowledgements too, and a node acknowledges nothing for a term it has left. */
  ghost predicate LogsGrow(s: System, s': System) {
    && LeaderLogsGrow(s.hist.leaderLogs, s'.hist.leaderLogs)
    && (forall p, t :: Held(s.hist, p, t) <= Held(s'.hist, p, t))
    && (forall p, t | p in s.nodes && s.nodes[p].currentTerm > t :: Held(s'.hist, p, t) == Held(s.hist, p, t))
  }

  // What a step does to the logs and to the history

  function Appended(a: Node, key: string, value: string): seq<Entry> {
    a.log + [Entry(a.currentTerm, key, value)]
  }

  /** What a step writes into a leader log, and what it acknowledges. */
  datatype Write = NoWrite | Write(term: int, log: seq<Entry>)
  datatype Ack = NoAck | Ack(p: NodeId, term: int, len: int)

  function WriteBy(s: System, step: Step): Write {
    match step
    case Win(n) => if n in s.nodes then Write(s.nodes[n].currentTerm, s.nodes[n].log) else NoWrite
    case ClientPut(n, key, value) =>
      if n in s.nodes then Write(s.nodes[n].currentTerm, Appended(s.nodes[n], key, value)) else NoWrite
    case _ => NoWrite
  }

  function AckBy(s: System, step: Step): Ack {
    match step
    case ClientPut(n, _, _) => if n in s.nodes then Ack(n, s.nodes[n].currentTerm, |s.nodes[n].log| + 1) else NoAck
    case AnswerAppend(m) =>
      if m.AppendAsk? && m.to in s.nodes && Accepts(s.nodes[m.to], m.areq)
      then Ack(m.to, m.areq.term, Covered(m.areq)) else NoAck
    case _ => NoAck
  }

  predicate Recorded(h: History, h': History, w: Write, k: Ack) {
    && h'.leaderLogs == (if w.Write? then h.leaderLogs[w.term := w.log] else h.leaderLogs)
    && h'.acked == (if k.Ack? then Confirm(h, k.p, k.term, k.len) else h.acked)
  }

  lemma StepRecords(v: Variant, s: System, step: Step)
    requires Enabled(v, s, step)
    ensures Recorded(s.hist, Perform(v, s, step).hist, WriteBy(s, step), AckBy(s, step))
  {
    hide Sent, OnAppendEntries, Confirm;
  }

  lemma ActorLog(v: Variant, s: System, step: Step)
    requires Enabled(v, s, step) && !step.Deliver?
    ensures var a, b := s.nodes[Actor(v, s, step)], NodeAfter(v, s, step);
      b.log == match step
        case ClientPut(_, key, value) => Appended(a, key, value)
        case AnswerAppend(m) =>
          if Accepts(a, m.areq) then InsertLog(v, a.log, m.areq.prevIndex + 1, m.areq.entries) else a.log
        case Restart(_, _, recovered) => recovered
        case CrashInAppend(m, lines, _) => TornLog(v, a.log, m.areq.prevIndex + 1, m.areq.entries, lines)
        case _ => a.log
  {
    hide OnAppendEntries, OnAppendReply, OnReqVote, OnVoteReply, InsertLog, Torn, TornLog, LinesToWrite, CrashPoint;
    match step
    case CrashInAppend(m, lines, upto) => TornEffect(v, s.nodes[m.to], m.areq, lines, upto);
    case AnswerVote(m) => ReqVoteEffect(s.nodes[m.to], m.vreq);
    case CountVote(m) => VoteReplyEffect(s.nodes[m.vreq.candidate], m.from, m.vreq, m.vreply);
    case AnswerAppend(m) => AppendEffect(v, s.nodes[m.to], m.areq);
    case UseAppendAnswer(m) =>
      AppendReplyEffect(v, s.nodes[m.areq.leader], m.from, m.next, m.len, m.purpose, m.areq, m.areply);
    case _ =>
  }

  lemma StepLog(v: Variant, s: System, step: Step, n: NodeId)
    requires Enabled(v, s, step) && n in s.nodes
    ensures n in Perform(v, s, step).nodes
    ensures var a, b := s.nodes[n], Perform(v, s, step).nodes[n];
      b.log == match step
        case ClientPut(p, key, value) => if p == n then Appended(a, key, value) else a.log
        case AnswerAppend(m) =>
          if m.to == n && Accepts(a, m.areq) then InsertLog(v, a.log, m.areq.prevIndex + 1, m.areq.entries) else a.log
        case Restart(p, _, recovered) => if p == n then recovered else a.log
        case CrashInAppend(m, lines, _) =>
          if m.to == n then TornLog(v, a.log, m.areq.prevIndex + 1, m.areq.entries, lines) else a.log
        case _ => a.log
  {
    hide Perform, NodeAfter, InsertLog, TornLog, LinesToWrite, CrashPoint, Accepts;
    StepMoves(v, s, step);
    if !step.Deliver? { ActorLog(v, s, step); }
  }

  /** A node that wins is the first of its term. */
  lemma WinIsFresh(v: Variant, s: System, n: NodeId)
    requires ElectionInv(s) && LogInv(s) && Enabled(v, s, Win(n))
    ensures s.nodes[n].currentTerm !in s.hist.leaderLogs
  {
    hide NodeAfter, NodeLogOk, AckOk, AppendMessageOk, LeaderLogsOk, ElectionLogOk;
    var term := s.nodes[n].currentTerm;
    StepKeepsElections(v, s, Win(n));
    StepElects(v, s, Win(n));
    WinElection(v, s, n);
    hide Perform;
    assert CandidacyOk(s, n) && VotesOk(s, n);
    if term in s.hist.leaderLogs && ElectedTerm(s.hist, term) {
      var e :| e in s.hist.elected && e.term == term;
      OneElectionPerTerm(Perform(v, s, Win(n)), e, Election(term, n, s.nodes[n].log));
    }
  }

  lemma RecordsGrow(s: System, s': System, w: Write, k: Ack)
    requires Recorded(s.hist, s'.hist, w, k)
    requires w.Write? && w.term in s.hist.leaderLogs ==> s.hist.leaderLogs[w.term] <= w.log
    requires k.Ack? ==> k.p in s.nodes && s.nodes[k.p].currentTerm <= k.term
    ensures LogsGrow(s, s')
  {}

  /** Writing into a term that has a leader log adds one entry of that term to it. */
  predicate Extends(h: History, w: Write) {
    w.Write? && w.term in h.leaderLogs ==>
      && h.leaderLogs[w.term] <= w.log
      && forall i | |h.leaderLogs[w.term]| <= i < |w.log| :: w.log[i].term == w.term
  }

  lemma StepWriteExtends(s: System, step: Step)
    requires ElectionInv(s) && LogInv(s) && Enabled(Repaired, s, step)
    ensures Extends(s.hist, WriteBy(s, step))
  {
    hide ElectionInv, Grounded, Bounded, NextIndexOk, AckOk, AppendMessageOk, ElectionLogOk, LeaderLogsOk, ElectedTerm;
    if step.Win? {
      WinIsFresh(Repaired, s, step.n);
    } else if step.ClientPut? {
      assert NodeLogOk(s, step.n);
    }
  }

  lemma StepLogsGrow(s: System, step: Step)
    requires ElectionInv(s) && LogInv(s) && Enabled(Repaired, s, step)
    ensures LogsGrow(s, Perform(Repaired, s, step))
  {
    StepRecords(Repaired, s, step);
    StepWriteExtends(s, step);
    hide ElectionInv, LogInv, Perform;
    RecordsGrow(s, Perform(Repaired, s, step), WriteBy(s, step), AckBy(s, step));
  }

  // The leader logs after a step

  lemma StepLeaderLogsOk(s: System, step: Step)
    requires ElectionInv(s) && LogInv(s) && Enabled(Repaired, s, step)
    ensures var tl := Perform(Repaired, s, step).hist.leaderLogs;
      LeaderLogsOk(tl) && (WriteBy(s, step).Write? ==> Grounded(tl, WriteBy(s, step).log))
  {
    hide Perform, Grounded, Bounded, NextIndexOk, AckOk, AppendMessageOk, ElectionLogOk, MessageOk, ElectionOk;
    StepRecords(Repaired, s, step);
    var tl := s.hist.leaderLogs;
    match step
    case Win(n) =>
      WinIsFresh(Repaired, s, n);
      assert NodeLogOk(s, n) && CandidacyOk(s, n) && VotesOk(s, n);
      hide LeaderLogsOk;
      WonLeaderLog(tl, s.nodes[n].currentTerm, s.nodes[n].log);
    case ClientPut(n, key, value) =>
      assert NodeLogOk(s, n) && CandidacyOk(s, n) && VotesOk(s, n);
      ExtendedLeaderLog(tl, s.nodes[n].currentTerm, Entry(s.nodes[n].currentTerm, key, value));
    case _ =>
  }

  lemma RecordedElectionLog(h: History, h': History, w: Write, k: Ack, e: Election)
    requires Recorded(h, h', w, k) && Extends(h, w) && ElectionLogOk(h, e)
    ensures ElectionLogOk(h', e)
  {}

  lemma StepElectionLogs(s: System, step: Step, e: Election)
    requires ElectionInv(s) && LogInv(s) && Enabled(Repaired, s, step)
    requires e in Perform(Repaired, s, step).hist.elected
    ensures ElectionLogOk(Perform(Repaired, s, step).hist, e)
  {
    StepRecords(Repaired, s, step);
    StepElects(Repaired, s, step);
    StepWriteExtends(s, step);
    hide Perform, ElectionInv, Enabled;
    if e in s.hist.elected {
      RecordedElectionLog(s.hist, Perform(Repaired, s, step).hist, WriteBy(s, step), AckBy(s, step), e);
    }
  }

  lemma StepElectedTerms(s: System, step: Step, t: int)
    requires LogInv(s) && Enabled(Repaired, s, step) && t in Perform(Repaired, s, step).hist.leaderLogs
    ensures t == 0 || ElectedTerm(Perform(Repaired, s, step).hist, t)
  {
    StepRecords(Repaired, s, step);
    StepElects(Repaired, s, step);
    if step.ClientPut? { assert NodeLogOk(s, step.n); }
    hide Perform, NodeLogOk, AckOk, AppendMessageOk, ElectionLogOk, LeaderLogsOk, Grounded, Bounded;
    var h, h' := s.hist, Perform(Repaired, s, step).hist;
    if t !in h.leaderLogs {
      assert step.Win? && Election(t, step.n, s.nodes[step.n].log) in h'.elected;
    } else if t != 0 {
      assert ElectedTerm(h, t);
      var e :| e in h.elected && e.term == t;
      assert e in h'.elected;
    }
  }

  /** No step writes into the leader log of another node that is leading. */
  lemma OthersLeaderLog(s: System, step: Step, n: NodeId)
    requires ElectionInv(s) && LogInv(s) && Enabled(Repaired, s, step) && n in s.nodes
    requires s.nodes[n].identity == LEADER && (step.Deliver? || n != Actor(Repaired, s, step))
    ensures WriteBy(s, step).Write? ==> WriteBy(s, step).term != s.nodes[n].currentTerm
  {
    assert NodeLogOk(s, n);
    if step.Win? {
      WinIsFresh(Repaired, s, step.n);
    } else if step.ClientPut? && s.nodes[step.n].currentTerm == s.nodes[n].currentTerm {
      assert CandidacyOk(s, step.n);
      LeadersDiffer(s, n, step.n);
    }
  }

  /** At most one node was elected in a term, so two nodes do not hold office in the same one. */
  lemma LeadersDiffer(s: System, a: NodeId, b: NodeId)
    requires ElectionInv(s) && a in s.nodes && b in s.nodes
    requires s.nodes[a].identity == LEADER && ElectedAs(s.hist, s.nodes[a].currentTerm, b)
    ensures a == b
  {
    assert CandidacyOk(s, a);
    var term := s.nodes[a].currentTerm;
    var e :| e in s.hist.elected && e.term == term && e.leader == a;
    var f :| f in s.hist.elected && f.term == term && f.leader == b;
    OneElectionPerTerm(s, e, f);
  }

  // The nodes' logs after a step

  predicate LogIdle(a: Node, b: Node) {
    && b.log == a.log && b.currentTerm >= a.currentTerm
    && (b.identity == LEADER ==>
      && a.identity == LEADER && b.currentTerm == a.currentTerm
      && b.nextIndex == a.nextIndex && b.matchIndex == a.matchIndex)
  }

  lemma ActorIdle(s: System, step: Step)
    requires Enabled(Repaired, s, step) && !step.Deliver?
    requires !step.Win? && !step.ClientPut? && !step.UseAppendAnswer? && !step.CrashInAppend?
    requires step.AnswerAppend? ==> !Accepts(s.nodes[step.m.to], step.m.areq)
    ensures LogIdle(s.nodes[Actor(Repaired, s, step)], NodeAfter(Repaired, s, step))
  {
    hide OnAppendEntries, OnReqVote, OnVoteReply;
    match step
    case AnswerVote(m) => ReqVoteEffect(s.nodes[m.to], m.vreq);
    case CountVote(m) => VoteReplyEffect(s.nodes[m.vreq.candidate], m.from, m.vreq, m.vreply);
    case AnswerAppend(m) => AppendEffect(Repaired, s.nodes[m.to], m.areq);
    case _ =>
  }

  lemma IdleNodeLog(s: System, s': System, n: NodeId)
    requires n in s.nodes && s'.nodes.Keys == s.nodes.Keys && NodeLogOk(s, n) && LogIdle(s.nodes[n], s'.nodes[n])
    requires LeaderLogsGrow(s.hist.leaderLogs, s'.hist.leaderLogs)
    requires s.nodes[n].identity == LEADER ==>
      var t := s.nodes[n].currentTerm; t in s.hist.leaderLogs ==> s'.hist.leaderLogs[t] == s.hist.leaderLogs[t]
    ensures NodeLogOk(s', n)
  {
    GroundedGrows(s.hist.leaderLogs, s'.hist.leaderLogs, s.nodes[n].log);
    hide Grounded;
    forall p | p in s'.nodes && s'.nodes[n].identity == LEADER ensures NextIndexOk(s', n, p) {
      assert NextIndexOk(s, n, p);
    }
  }

  lemma WonNodeLog(s: System, s': System, n: NodeId)
    requires n in s.nodes && s'.nodes.Keys == s.nodes.Keys && NodeLogOk(s, n)
    requires s'.nodes[n] == BecomeLeader(s.nodes[n], s.nodes.Keys)
    requires s'.hist.leaderLogs == s.hist.leaderLogs[s.nodes[n].currentTerm := s.nodes[n].log]
    requires s.nodes[n].currentTerm !in s.hist.leaderLogs
    ensures NodeLogOk(s', n)
  {
    GroundedGrows(s.hist.leaderLogs, s'.hist.leaderLogs, s.nodes[n].log);
  }

  lemma PutNodeLog(s: System, s': System, n: NodeId, key: string, value: string)
    requires n in s.nodes && s'.nodes.Keys == s.nodes.Keys && NodeLogOk(s, n) && s.nodes[n].identity == LEADER
    requires s'.nodes[n] == AppendPut(s.nodes[n], n, s.nodes.Keys, key, value)
    requires s'.hist.leaderLogs == s.hist.leaderLogs[s.nodes[n].currentTerm := s'.nodes[n].log]
    requires Grounded(s'.hist.leaderLogs, s'.nodes[n].log)
    ensures NodeLogOk(s', n)
  {
    hide Grounded;
    forall p | p in s'.nodes ensures NextIndexOk(s', n, p) {
      assert NextIndexOk(s, n, p);
    }
  }

  /** A follower's log after it accepts a request: unchanged if it held the stretch, else the leader's prefix. */
  function Merged(log: seq<Entry>, x: seq<Entry>, k: int): seq<Entry>
    requires 0 <= k <= |x|
  {
    if x[..k] <= log then log else x[..k]
  }

  lemma AcceptedLog(s: System, m: Message)
    requires LogInv(s) && Enabled(Repaired, s, AnswerAppend(m)) && Accepts(s.nodes[m.to], m.areq)
    ensures RequestOk(s, m.next, m.len, m.areq)
    ensures var l, x := s.nodes[m.to].log, s.hist.leaderLogs[m.areq.term];
      && InsertRepaired(l, m.areq.prevIndex + 1, m.areq.entries) == Merged(l, x, Covered(m.areq))
      && m.next <= |l| && l[..m.next] == x[..m.next]
  {
    hide Perform, InsertRepaired;
    assert NodeLogOk(s, m.to) && AppendMessageOk(s, m);
    var tl := s.hist.leaderLogs;
    var l, x := s.nodes[m.to].log, tl[m.areq.term];
    CheckIsSound(tl, l, x, m.areq.prevIndex);
    InsertStretch(tl, l, x, m.next, Covered(m.areq));
  }

  /** A leader never accepts a request of its own term: it would come from another leader of that term. */
  lemma LeaderAcceptsNothing(s: System, m: Message)
    requires ElectionInv(s) && LogInv(s) && Enabled(Repaired, s, AnswerAppend(m))
    requires s.nodes[m.to].identity == LEADER
    ensures m.areq.term != s.nodes[m.to].currentTerm
  {
    assert AppendMessageOk(s, m);
    if m.areq.term == s.nodes[m.to].currentTerm {
      LeadersDiffer(s, m.to, m.areq.leader);
    }
  }

  lemma AcceptedEffect(s: System, m: Message)
    requires Enabled(Repaired, s, AnswerAppend(m)) && Accepts(s.nodes[m.to], m.areq)
    ensures var a, b := s.nodes[m.to], Perform(Repaired, s, AnswerAppend(m)).nodes[m.to];
      && b.log == InsertRepaired(a.log, m.areq.prevIndex + 1, m.areq.entries)
      && b.currentTerm == m.areq.term
      && (b.identity == LEADER ==> a.identity == LEADER && a.currentTerm == m.areq.term)
  {
    AppendEffect(Repaired, s.nodes[m.to], m.areq);
    hide OnAppendEntries, InsertRepaired, HistoryAfter, Sent;
  }

  /** The receiver after it accepted a request. */
  lemma AcceptedNode(s: System, m: Message)
    requires ElectionInv(s) && LogInv(s) && Enabled(Repaired, s, AnswerAppend(m)) && Accepts(s.nodes[m.to], m.areq)
    ensures RequestOk(s, m.next, m.len, m.areq)
    ensures var a, x := s.nodes[m.to], s.hist.leaderLogs[m.areq.term];
      var b := Perform(Repaired, s, AnswerAppend(m)).nodes[m.to];
      && b.log == Merged(a.log, x, Covered(m.areq))
      && b.currentTerm == m.areq.term
      && b.identity != LEADER
  {
    hide Perform, ElectionInv, LogInv, InsertRepaired, Merged, Accepts;
    AcceptedEffect(s, m);
    AcceptedLog(s, m);
    if s.nodes[m.to].identity == LEADER { LeaderAcceptsNothing(s, m); }
  }

  /** The log lies between the receiver's and the leader log the request shows. */
  ghost predicate TornFits(s: System, m: Message, torn: seq<Entry>) {
    && m.AppendAsk? && m.to in s.nodes && RequestOk(s, m.next, m.len, m.areq)
    && TornBetween(s.nodes[m.to].log, s.hist.leaderLogs[m.areq.term], torn)
  }

  lemma TornRequest(s: System, m: Message, lines: nat, upto: int)
    requires LogInv(s) && Enabled(Repaired, s, CrashInAppend(m, lines, upto))
    ensures TornFits(s, m, TornLog(Repaired, s.nodes[m.to].log, m.areq.prevIndex + 1, m.areq.entries, lines))
  {
    hide TornBetween, TornLog, Kept, NodeLogOk, ElectionLogOk, AckOk, ElectedTerm, Grounded, LeaderLogsOk;
    var tl := s.hist.leaderLogs;
    var l, x := s.nodes[m.to].log, tl[m.areq.term];
    assert NodeLogOk(s, m.to) && AppendMessageOk(s, m) && LeaderLogsOk(tl);
    NodeGrounded(s, m.to);
    LeaderGrounded(tl, m.areq.term);
    hide LogInv;
    CheckIsSound(tl, l, x, m.areq.prevIndex);
    TornStretch(tl, l, x, m.next, Covered(m.areq), lines);
  }

  lemma NodeGrounded(s: System, n: NodeId)
    requires n in s.nodes && NodeLogOk(s, n)
    ensures Grounded(s.hist.leaderLogs, s.nodes[n].log)
  {}

  lemma LeaderGrounded(tl: LeaderLogs, term: int)
    requires LeaderLogsOk(tl) && term in tl
    ensures Grounded(tl, tl[term]) && Bounded(tl[term], term)
  {}

  /** A node that crashed inside an insertion it had accepted. */
  ghost predicate CrashFits(s: System, m: Message, lines: nat, upto: int)
    requires Enabled(Repaired, s, CrashInAppend(m, lines, upto))
  {
    var a, b := s.nodes[m.to], Torn(Repaired, s.nodes[m.to], m.areq, lines, upto);
    && a.currentTerm <= b.currentTerm == m.areq.term && b.identity == FOLLOWER
    && TornFits(s, m, b.log)
  }

  lemma TornNode(s: System, m: Message, lines: nat, upto: int)
    requires LogInv(s) && Enabled(Repaired, s, CrashInAppend(m, lines, upto))
    ensures CrashFits(s, m, lines, upto)
  {
    hide TornFits, TornLog, Kept, LogInv;
    TornRequest(s, m, lines, upto);
  }

  lemma TornNodeLog(s: System, s': System, n: NodeId, x: seq<Entry>)
    requires n in s.nodes && n in s'.nodes && NodeLogOk(s, n) && s'.hist.leaderLogs == s.hist.leaderLogs
    requires Grounded(s.hist.leaderLogs, x) && TornBetween(s.nodes[n].log, x, s'.nodes[n].log)
    requires Bounded(x, s'.nodes[n].currentTerm) && s.nodes[n].currentTerm <= s'.nodes[n].currentTerm
    requires s'.nodes[n].identity != LEADER
    ensures NodeLogOk(s', n)
  {
    var torn := s'.nodes[n].log;
    if torn != s.nodes[n].log {
      GroundedPrefix(s.hist.leaderLogs, x, |torn|);
      assert torn == x[..|torn|];
    }
  }

  lemma CrashedNode(s: System, m: Message, lines: nat, upto: int)
    requires Enabled(Repaired, s, CrashInAppend(m, lines, upto))
    ensures Perform(Repaired, s, CrashInAppend(m, lines, upto)).nodes ==
      s.nodes[m.to := Torn(Repaired, s.nodes[m.to], m.areq, lines, upto)]
  {
    hide Torn, Sent, HistoryAfter;
  }

  lemma TornStepNodeLog(s: System, m: Message, lines: nat, upto: int)
    requires LogInv(s) && Enabled(Repaired, s, CrashInAppend(m, lines, upto))
    ensures NodeLogOk(Perform(Repaired, s, CrashInAppend(m, lines, upto)), m.to)
  {
    hide Perform, Torn, TornBetween, NodeLogOk, LeaderLogsOk, Kept;
    var s' := Perform(Repaired, s, CrashInAppend(m, lines, upto));
    TornNode(s, m, lines, upto);
    StepRecords(Repaired, s, CrashInAppend(m, lines, upto));
    CrashedNode(s, m, lines, upto);
    assert NodeLogOk(s, m.to) && LeaderLogsOk(s.hist.leaderLogs);
    LeaderGrounded(s.hist.leaderLogs, m.areq.term);
    hide LogInv, Grounded, Bounded, Enabled;
    TornNodeLog(s, s', m.to, s.hist.leaderLogs[m.areq.term]);
  }

  lemma MergedNodeLog(s: System, s': System, n: NodeId, x: seq<Entry>, k: nat)
    requires n in s.nodes && n in s'.nodes && NodeLogOk(s, n)
    requires s'.hist.leaderLogs == s.hist.leaderLogs && Grounded(s.hist.leaderLogs, x)
    requires 0 < k <= |x| && s'.nodes[n].log == Merged(s.nodes[n].log, x, k)
    requires Bounded(x, s'.nodes[n].currentTerm) && s.nodes[n].currentTerm <= s'.nodes[n].currentTerm
    requires s'.nodes[n].identity != LEADER
    ensures NodeLogOk(s', n)
  {
    GroundedPrefix(s.hist.leaderLogs, x, k);
  }

  lemma AcceptedNodeLog(s: System, m: Message)
    requires ElectionInv(s) && LogInv(s) && Enabled(Repaired, s, AnswerAppend(m)) && Accepts(s.nodes[m.to], m.areq)
    ensures NodeLogOk(Perform(Repaired, s, AnswerAppend(m)), m.to)
  {
    StepRecords(Repaired, s, AnswerAppend(m));
    AcceptedNode(s, m);
    hide Perform, ElectionInv;
    assert NodeLogOk(s, m.to);
    MergedNodeLog(s, Perform(Repaired, s, AnswerAppend(m)), m.to, s.hist.leaderLogs[m.areq.term], Covered(m.areq));
  }

  lemma AnsweredNextIndex(n: Node, from: NodeId, next: int, len: int, purpose: Purpose,
                          req: AppendRequest, reply: AppendReply)
    ensures var b := OnAppendReply(Repaired, n, from, next, len, purpose, req, reply);
      && b.log == n.log && b.currentTerm == n.currentTerm && (b.identity == LEADER ==> n.identity == LEADER)
      && (b.identity == LEADER && b.nextIndex != n.nextIndex ==>
            && req.term == n.currentTerm
            && b.nextIndex == n.nextIndex[from := if reply.success then len else next - 1]
            && (!reply.success ==> reply.term <= req.term))
      && n.matchIndex.Keys <= b.matchIndex.Keys
  {}

  lemma AnsweredNodeLog(s: System, s': System, m: Message)
    requires m.AppendAnswer? && m.areq.leader in s.nodes && s'.nodes.Keys == s.nodes.Keys
    requires NodeLogOk(s, m.areq.leader) && AppendMessageOk(s, m) && s'.hist.leaderLogs == s.hist.leaderLogs
    requires s'.nodes[m.areq.leader] ==
      OnAppendReply(Repaired, s.nodes[m.areq.leader], m.from, m.next, m.len, m.purpose, m.areq, m.areply)
    ensures NodeLogOk(s', m.areq.leader)
  {
    var n := m.areq.leader;
    AnsweredNextIndex(s.nodes[n], m.from, m.next, m.len, m.purpose, m.areq, m.areply);
    hide Grounded, Bounded, OnAppendReply, Held, ElectedAs;
    forall p | p in s'.nodes && s'.nodes[n].identity == LEADER ensures NextIndexOk(s', n, p) {
      assert NextIndexOk(s, n, p);
    }
  }

  lemma WonStepNodeLog(s: System, n: NodeId)
    requires ElectionInv(s) && LogInv(s) && Enabled(Repaired, s, Win(n))
    ensures NodeLogOk(Perform(Repaired, s, Win(n)), n)
  {
    hide BecomeLeader, Sent;
    WinIsFresh(Repaired, s, n);
    assert NodeLogOk(s, n);
    hide LogInv, ElectionInv;
    WonNodeLog(s, Perform(Repaired, s, Win(n)), n);
  }

  lemma PutStepNodeLog(s: System, n: NodeId, key: string, value: string)
    requires ElectionInv(s) && LogInv(s) && Enabled(Repaired, s, ClientPut(n, key, value))
    ensures NodeLogOk(Perform(Repaired, s, ClientPut(n, key, value)), n)
  {
    var step := ClientPut(n, key, value);
    StepRecords(Repaired, s, step);
    StepLeaderLogsOk(s, step);
    assert NodeLogOk(s, n);
    hide LogInv, ElectionInv, Sent, HistoryAfter;
    PutNodeLog(s, Perform(Repaired, s, step), n, key, value);
  }

  lemma AnsweredStepNodeLog(s: System, m: Message)
    requires LogInv(s) && Enabled(Repaired, s, UseAppendAnswer(m))
    ensures NodeLogOk(Perform(Repaired, s, UseAppendAnswer(m)), m.areq.leader)
  {
    hide OnAppendReply;
    assert NodeLogOk(s, m.areq.leader) && AppendMessageOk(s, m);
    hide LogInv;
    AnsweredNodeLog(s, Perform(Repaired, s, UseAppendAnswer(m)), m);
  }

  /** The step does not append to, win with, or rewind the log of `n`. */
  predicate LeavesLog(s: System, step: Step, n: NodeId)
    requires Enabled(Repaired, s, step) && n in s.nodes
  {
    !step.Deliver? && n == Actor(Repaired, s, step) ==>
      && !step.Win? && !step.ClientPut? && !step.UseAppendAnswer? && !step.CrashInAppend?
      && (step.AnswerAppend? ==> !Accepts(s.nodes[step.m.to], step.m.areq))
  }

  lemma StepIdle(s: System, step: Step, n: NodeId)
    requires Enabled(Repaired, s, step) && n in s.nodes && LeavesLog(s, step, n)
    ensures LogIdle(s.nodes[n], Perform(Repaired, s, step).nodes[n])
  {
    hide NodeAfter, Sent, HistoryAfter;
    if !step.Deliver? && n == Actor(Repaired, s, step) {
      ActorIdle(s, step);
    }
  }

  lemma LeaderLogKept(s: System, step: Step, n: NodeId)
    requires ElectionInv(s) && LogInv(s) && Enabled(Repaired, s, step) && n in s.nodes
    requires LeavesLog(s, step, n) && s.nodes[n].identity == LEADER
    ensures var tl, tl' := s.hist.leaderLogs, Perform(Repaired, s, step).hist.leaderLogs;
      var t := s.nodes[n].currentTerm;
      t in tl ==> t in tl' && tl'[t] == tl[t]
  {
    if step.Deliver? || n != Actor(Repaired, s, step) {
      OthersLeaderLog(s, step, n);
    } else {
      assert WriteBy(s, step).NoWrite?;
    }
    hide *;
    StepRecords(Repaired, s, step);
    var h' := Perform(Repaired, s, step).hist;
    LeaderLogUnwritten(s.hist, h', WriteBy(s, step), AckBy(s, step), s.nodes[n].currentTerm);
  }

  lemma LeaderLogUnwritten(h: History, h': History, w: Write, k: Ack, t: int)
    requires Recorded(h, h', w, k) && (w.Write? ==> w.term != t)
    ensures t in h.leaderLogs ==> t in h'.leaderLogs && h'.leaderLogs[t] == h.leaderLogs[t]
  {}

  lemma IdleStepNodeLog(s: System, step: Step, n: NodeId)
    requires ElectionInv(s) && LogInv(s) && Enabled(Repaired, s, step) && n in s.nodes
    requires LeavesLog(s, step, n)
    ensures NodeLogOk(Perform(Repaired, s, step), n)
  {
    hide Perform, LeavesLog, Enabled, ElectionInv, NodeLogOk, LogIdle;
    assert NodeLogOk(s, n);
    StepLogsGrow(s, step);
    StepVotesGrow(Repaired, s, step);
    StepIdle(s, step, n);
    if s.nodes[n].identity == LEADER { LeaderLogKept(s, step, n); }
    hide LogInv, LeaderLogsGrow;
    IdleNodeLog(s, Perform(Repaired, s, step), n);
  }

  lemma StepNodeLog(s: System, step: Step, n: NodeId)
    requires ElectionInv(s) && LogInv(s) && Enabled(Repaired, s, step) && n in s.nodes
    ensures NodeLogOk(Perform(Repaired, s, step), n)
  {
    hide Perform, NodeLogOk, LogInv, ElectionInv;
    match step
    case Win(p) => if p == n { WonStepNodeLog(s, n); } else { IdleStepNodeLog(s, step, n); }
    case ClientPut(p, key, value) =>
      if p == n { PutStepNodeLog(s, n, key, value); } else { IdleStepNodeLog(s, step, n); }
    case UseAppendAnswer(m) =>
      if m.areq.leader == n { AnsweredStepNodeLog(s, m); } else { IdleStepNodeLog(s, step, n); }
    case AnswerAppend(m) =>
      if m.to == n && Accepts(s.nodes[n], m.areq) { AcceptedNodeLog(s, m); } else { IdleStepNodeLog(s, step, n); }
    case CrashInAppend(m, lines, upto) =>
      if m.to == n { TornStepNodeLog(s, m, lines, upto); } else { IdleStepNodeLog(s, step, n); }
    case _ => IdleStepNodeLog(s, step, n);
  }

  // Acknowledgements and messages after a step

  lemma RecordedAck(s: System, s': System, w: Write, k: Ack, p: NodeId, term: int)
    requires Recorded(s.hist, s'.hist, w, k) && LogsGrow(s, s') && VotesGrow(s, s')
    requires (p, term) in s'.hist.acked && ((p, term) in s.hist.acked ==> AckOk(s, p, term))
    requires k.Ack? ==>
      && k.p in s.nodes && k.term in s'.hist.leaderLogs && 0 <= k.len <= |s'.hist.leaderLogs[k.term]|
      && k.term <= s'.nodes[k.p].currentTerm
    ensures AckOk(s', p, term)
  {}

  lemma StepAckBound(s: System, step: Step)
    requires ElectionInv(s) && LogInv(s) && Enabled(Repaired, s, step)
    ensures var k, s' := AckBy(s, step), Perform(Repaired, s, step);
      k.Ack? ==>
        && k.p in s.nodes && k.term in s'.hist.leaderLogs && 0 <= k.len <= |s'.hist.leaderLogs[k.term]|
        && k.term <= s'.nodes[k.p].currentTerm
  {
    StepRecords(Repaired, s, step);
    StepVotesGrow(Repaired, s, step);
    if step.AnswerAppend? && Accepts(s.nodes[step.m.to], step.m.areq) {
      AcceptedNode(s, step.m);
    }
    hide Perform, LogInv, ElectionInv;
  }

  lemma StepAckOk(s: System, step: Step, p: NodeId, term: int)
    requires ElectionInv(s) && LogInv(s) && Enabled(Repaired, s, step)
    requires (p, term) in Perform(Repaired, s, step).hist.acked
    ensures AckOk(Perform(Repaired, s, step), p, term)
  {
    StepRecords(Repaired, s, step);
    StepLogsGrow(s, step);
    StepVotesGrow(Repaired, s, step);
    StepAckBound(s, step);
    if (p, term) in s.hist.acked { assert AckOk(s, p, term); }
    hide *;
    RecordedAck(s, Perform(Repaired, s, step), WriteBy(s, step), AckBy(s, step), p, term);
  }

  lemma RequestStays(s: System, s': System, next: int, len: int, req: AppendRequest)
    requires RequestOk(s, next, len, req) && LogsGrow(s, s') && VotesGrow(s, s')
    ensures RequestOk(s', next, len, req)
  {
    var x, x' := s.hist.leaderLogs[req.term], s'.hist.leaderLogs[req.term];
    assert x'[next..Covered(req)] == x[next..Covered(req)];
    var e :| e in s.hist.elected && e.term == req.term && e.leader == req.leader;
    assert e in s'.hist.elected;
  }

  lemma AppendMessageStays(s: System, s': System, m: Message)
    requires AppendMessageOk(s, m) && LogsGrow(s, s') && VotesGrow(s, s')
    ensures AppendMessageOk(s', m)
  {
    match m
    case AppendAsk(_, next, len, _, req) => RequestStays(s, s', next, len, req);
    case AppendAnswer(_, next, len, _, req, _) => RequestStays(s, s', next, len, req);
    case _ =>
  }

  /** What a leader sends is a stretch of its own log. */
  lemma NewRequest(s: System, n: NodeId, p: NodeId, next: int, len: int)
    requires n in s.nodes && ElectedAs(s.hist, s.nodes[n].currentTerm, n)
    requires var a := s.nodes[n];
      && a.currentTerm in s.hist.leaderLogs && s.hist.leaderLogs[a.currentTerm] == a.log
      && 1 <= next <= |a.log| && 1 <= len <= |a.log|
    ensures var req := PrepareAppend(Repaired, s.nodes[n], n, p, next, len);
      req.leader == n && RequestOk(s, next, len, req)
  {
    hide EntriesBetween;
  }

  /** A rejection without a newer term moves the leader back, and it can: index 0 always matches. */
  lemma RejectedRequest(s: System, m: Message)
    requires LogInv(s) && Enabled(Repaired, s, AnswerAppend(m))
    requires !Accepts(s.nodes[m.to], m.areq) && s.nodes[m.to].currentTerm <= m.areq.term
    ensures m.next >= 2
  {
    assert NodeLogOk(s, m.to) && AppendMessageOk(s, m);
    var tl := s.hist.leaderLogs;
    CheckIsSound(tl, s.nodes[m.to].log, tl[m.areq.term], m.areq.prevIndex);
  }

  lemma NewAnswer(s: System, m: Message)
    requires ElectionInv(s) && LogInv(s) && Enabled(Repaired, s, AnswerAppend(m))
    ensures var reply := OnAppendEntries(Repaired, s.nodes[m.to], m.areq).1;
      var answer := AppendAnswer(m.to, m.next, m.len, m.purpose, m.areq, reply);
      AppendMessageOk(Perform(Repaired, s, AnswerAppend(m)), answer)
  {
    var step := AnswerAppend(m);
    var s' := Perform(Repaired, s, step);
    StepRecords(Repaired, s, step);
    StepLogsGrow(s, step);
    StepVotesGrow(Repaired, s, step);
    AppendEffect(Repaired, s.nodes[m.to], m.areq);
    assert AppendMessageOk(s, m);
    AppendMessageStays(s, s', m);
    if !Accepts(s.nodes[m.to], m.areq) && s.nodes[m.to].currentTerm <= m.areq.term { RejectedRequest(s, m); }
    hide Perform, OnAppendEntries, LogInv, ElectionInv, RequestOk, LogsGrow, VotesGrow;
  }

  lemma NewAsk(s: System, step: Step)
    requires ElectionInv(s) && LogInv(s) && Enabled(Repaired, s, step) && step.AskAppend?
    ensures forall m | m in Sent(Repaired, s, step) :: AppendMessageOk(s, m)
  {
    hide PrepareAppend, RequestOk;
    assert NodeLogOk(s, step.n) && NextIndexOk(s, step.n, step.p) && CandidacyOk(s, step.n);
    hide LogInv, ElectionInv, Grounded, Bounded;
    NewRequest(s, step.n, step.p, step.nextIndex, step.length);
  }

  lemma NetGrows(s: System, step: Step)
    requires Enabled(Repaired, s, step)
    ensures Perform(Repaired, s, step).net == s.net + Sent(Repaired, s, step)
  {
    hide NodeAfter, Sent, HistoryAfter;
  }

  lemma NewMessageOk(s: System, step: Step, m: Message)
    requires ElectionInv(s) && LogInv(s) && Enabled(Repaired, s, step) && m in Sent(Repaired, s, step)
    ensures AppendMessageOk(Perform(Repaired, s, step), m)
  {
    hide Perform, OnAppendEntries, OnReqVote, PrepareAppend, VoteRequestOf, ElectionInv, LogInv, LogsGrow, VotesGrow,
      RequestOk;
    if step.AnswerAppend? {
      NewAnswer(s, step.m);
    } else if step.AskAppend? {
      NewAsk(s, step);
      StepLogsGrow(s, step);
      StepVotesGrow(Repaired, s, step);
      AppendMessageStays(s, Perform(Repaired, s, step), m);
    }
  }

  lemma StepMessageOk(s: System, step: Step, m: Message)
    requires ElectionInv(s) && LogInv(s) && Enabled(Repaired, s, step) && m in Perform(Repaired, s, step).net
    ensures AppendMessageOk(Perform(Repaired, s, step), m)
  {
    hide Perform, Sent, ElectionInv, LogsGrow, VotesGrow, NodeLogOk, AckOk, AppendMessageOk, ElectionLogOk;
    NetGrows(s, step);
    StepLogsGrow(s, step);
    StepVotesGrow(Repaired, s, step);
    if m in s.net {
      assert AppendMessageOk(s, m);
      hide LogInv;
      AppendMessageStays(s, Perform(Repaired, s, step), m);
    } else {
      hide LogInv;
      NewMessageOk(s, step, m);
    }
  }

  lemma StepKeepsLogs(s: System, step: Step)
    requires ElectionInv(s) && LogInv(s) && Enabled(Repaired, s, step)
    ensures LogInv(Perform(Repaired, s, step)) && LogsGrow(s, Perform(Repaired, s, step))
  {
    hide Perform, Enabled, ElectionInv, NodeLogOk, AckOk, AppendMessageOk, ElectionLogOk, LeaderLogsOk, ElectedTerm;
    var s' := Perform(Repaired, s, step);
    StepLogsGrow(s, step);
    StepLeaderLogsOk(s, step);
    StepVotesGrow(Repaired, s, step);
    forall t | t in s'.hist.leaderLogs ensures t == 0 || ElectedTerm(s'.hist, t) { StepElectedTerms(s, step, t); }
    forall e | e in s'.hist.elected ensures ElectionLogOk(s'.hist, e) { StepElectionLogs(s, step, e); }
    forall n | n in s'.nodes ensures NodeLogOk(s', n) { StepNodeLog(s, step, n); }
    forall k | k in s'.hist.acked ensures AckOk(s', k.0, k.1) { StepAckOk(s, step, k.0, k.1); }
    forall m | m in s'.net ensures AppendMessageOk(s', m) { StepMessageOk(s, step, m); }
  }
}
