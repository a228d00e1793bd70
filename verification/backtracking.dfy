/** One exchange of the AppendEntries retry loop, as facts about the two nodes' states. */
module Backtracking {
  import opened RaftTypes
  import opened RaftNode
  import opened LogMatching

  /**
   One exchange once repaired, with a follower whose term is not ahead: it succeeds exactly when the logs agree up to
   `next`; then they agree up to `len`, otherwise the follower's log is untouched and there is room to move back.
   */
  lemma RepairedRound(tl: LeaderLogs, a: Node, me: NodeId, f: Node, peer: NodeId, next: int, len: int)
    requires LeaderLogsOk(tl) && Grounded(tl, a.log) && Grounded(tl, f.log)
    requires 1 <= next <= |a.log| && 1 <= len <= |a.log| && f.currentTerm <= a.currentTerm
    ensures var (g, reply) := OnAppendEntries(Repaired, f, PrepareAppend(Repaired, a, me, peer, next, len));
      && g.currentTerm == reply.term == a.currentTerm
      && (reply.success <==> Agree(a.log, f.log, next))
      && (reply.success ==> Agree(a.log, g.log, len) && (g.log == f.log || g.log <= a.log))
      && (!reply.success ==> g.log == f.log && next >= 2)
  {
    hide OnAppendEntries, Grounded, LeaderLogsOk, CommitLimit, InsertRepaired, EntriesBetween;
    var req := PrepareAppend(Repaired, a, me, peer, next, len);
    RepairedCheck(tl, a, me, f, peer, next, len);
    AppendEffect(Repaired, f, req);
    assert req.term == a.currentTerm && req.prevIndex + 1 == next && req.entries == EntriesBetween(a.log, next, len);
    hide Accepts, PrepareAppend, Agree;
    if Agree(a.log, f.log, next) {
      InsertAgreed(tl, a.log, f.log, next, len);
      AgreeLess(a.log, OnAppendEntries(Repaired, f, req).0.log, if len <= next then next else len, len);
    } else {
      SharedSentinel(tl, a.log, f.log);
    }
  }

  lemma RepairedCheck(tl: LeaderLogs, a: Node, me: NodeId, f: Node, peer: NodeId, next: int, len: int)
    requires LeaderLogsOk(tl) && Grounded(tl, a.log) && Grounded(tl, f.log)
    requires 1 <= next <= |a.log| && f.currentTerm <= a.currentTerm
    ensures Accepts(f, PrepareAppend(Repaired, a, me, peer, next, len)) <==> Agree(a.log, f.log, next)
  {
    hide Grounded, LeaderLogsOk, EntriesBetween;
    CheckIsSound(tl, f.log, a.log, next - 1);
  }

  lemma AgreeLess(a: seq<Entry>, b: seq<Entry>, k: int, less: int)
    requires Agree(a, b, k) && 0 <= less <= k
    ensures Agree(a, b, less)
  {
    assert a[..less] == a[..k][..less] == b[..k][..less] == b[..less];
  }

  /** Inserting what a leader's log has up to `len`, if anything, into a log that agrees with it up to `next`. */
  lemma InsertAgreed(tl: LeaderLogs, x: seq<Entry>, l: seq<Entry>, next: int, len: int)
    requires Grounded(tl, x) && Grounded(tl, l) && Agree(x, l, next) && len <= |x|
    ensures var g := InsertRepaired(l, next, EntriesBetween(x, next, len));
      Agree(x, g, if len <= next then next else len) && (g == l || g <= x)
  {
    hide Grounded, InsertRepaired;
    if next <= len {
      InsertStretch(tl, l, x, next, len);
    } else {
      InsertNothing(l, next);
    }
  }

  lemma InsertNothing(l: seq<Entry>, start: int)
    ensures InsertRepaired(l, start, []) == l
  {}

  lemma SharedSentinel(tl: LeaderLogs, a: seq<Entry>, b: seq<Entry>)
    requires Grounded(tl, a) && Grounded(tl, b)
    ensures Agree(a, b, 1)
  {}

  /** One exchange as coded: the log changes only by the in-place insertion right after the checked index. */
  lemma CodedRound(a: Node, me: NodeId, f: Node, peer: NodeId, next: int, len: int)
    requires peer in a.matchIndex && f.currentTerm <= a.currentTerm
    ensures var prev := a.matchIndex[peer];
      var (g, reply) := OnAppendEntries(AsCoded, f, PrepareAppend(AsCoded, a, me, peer, next, len));
      && g.currentTerm == reply.term == f.currentTerm
      && (reply.success <==> TermAt(a.log, prev) == TermAt(f.log, prev))
      && g.log == if reply.success then InsertCoded(f.log, prev + 1, EntriesBetween(a.log, next, len)) else f.log
  {
    hide OnAppendEntries, InsertCoded, EntriesBetween, CommitLimit;
    AppendEffect(AsCoded, f, PrepareAppend(AsCoded, a, me, peer, next, len));
  }

  /** A follower that is ahead in term rejects, and tells so. */
  lemma AheadRound(v: Variant, f: Node, req: AppendRequest)
    requires req.term < f.currentTerm
    ensures OnAppendEntries(v, f, req) == (f, AppendReply(f.currentTerm, false))
  {}

  // The whole loop: `a` and `f` are leader and follower when it starts, `b` and `g` what they have become

  ghost predicate Ready(v: Variant, tl: LeaderLogs, a: Node, f: Node, peer: NodeId, len: int) {
    && a.identity == LEADER && peer in a.nextIndex && peer in a.matchIndex
    && (v.Repaired? ==>
      && LeaderLogsOk(tl) && Grounded(tl, a.log) && Grounded(tl, f.log)
      && 1 <= a.nextIndex[peer] <= |a.log| && 1 <= len <= |a.log|)
  }

  /** Only the index of that peer may have changed. */
  predicate OnlyAt(was: map<NodeId, int>, now: map<NodeId, int>, peer: NodeId) {
    peer in now && now == was[peer := now[peer]]
  }

  /** Some rejections so far, and another attempt to come. */
  ghost predicate Retrying(v: Variant, a: Node, f: Node, b: Node, g: Node, peer: NodeId, next: int, rejections: nat)
    requires peer in a.nextIndex && peer in a.matchIndex
  {
    && b.log == a.log && b.currentTerm == a.currentTerm && b.identity == LEADER && b.puts == a.puts && g.log == f.log
    && OnlyAt(a.nextIndex, b.nextIndex, peer) && OnlyAt(a.matchIndex, b.matchIndex, peer)
    && (if rejections == 0 then b == a && g == f else f.currentTerm <= a.currentTerm && g.currentTerm <= a.currentTerm)
    && (v.Repaired? ==> MovedBack(a, f, peer, next, rejections))
    && (v.AsCoded? ==> next == a.nextIndex[peer] && rejections <= 1 && (rejections == 1 ==> FellBack(a, f, b, peer)))
  }

  lemma ReadyRetrying(v: Variant, tl: LeaderLogs, a: Node, f: Node, peer: NodeId, len: int)
    requires Ready(v, tl, a, f, peer, len)
    ensures peer in a.nextIndex && peer in a.matchIndex && Retrying(v, a, f, a, f, peer, a.nextIndex[peer], 0)
  {}

  lemma RetryingFacts(v: Variant, a: Node, f: Node, b: Node, g: Node, peer: NodeId, next: int, rejections: nat)
    requires peer in a.nextIndex && peer in a.matchIndex && Retrying(v, a, f, b, g, peer, next, rejections)
    ensures peer in b.matchIndex
    ensures if v.Repaired? then 1 <= next else rejections <= 1
  {
    hide Agree;
  }

  predicate MovedBack(a: Node, f: Node, peer: NodeId, next: int, rejections: nat)
    requires peer in a.nextIndex
  {
    && next == a.nextIndex[peer] - rejections && 1 <= next
    && (rejections > 0 ==> !Agree(a.log, f.log, next + 1))
  }

  predicate FellBack(a: Node, f: Node, b: Node, peer: NodeId)
    requires peer in a.matchIndex && peer in b.matchIndex
  {
    b.matchIndex[peer] == -1 && TermAt(a.log, a.matchIndex[peer]) != TermAt(f.log, a.matchIndex[peer])
  }

  /** The leader gave up because the follower's term is ahead. */
  predicate GaveUp(a: Node, f: Node, b: Node, g: Node) {
    f.currentTerm > a.currentTerm && b == a.(identity := FOLLOWER) && g == f
  }

  /** The leader has its ack: the indices of that peer moved, and the put of the thread, if any, counted it. */
  predicate Acked(v: Variant, a: Node, f: Node, b: Node, peer: NodeId, len: int, purpose: Purpose) {
    && f.currentTerm <= a.currentTerm
    && b.log == a.log && b.currentTerm == a.currentTerm && b.identity == LEADER
    && b.nextIndex == a.nextIndex[peer := len] && b.matchIndex == a.matchIndex[peer := len - 1]
    && b.puts == PutsAfterAck(v, a, peer, purpose)
  }

  function PutsAfterAck(v: Variant, a: Node, peer: NodeId, purpose: Purpose): map<PutId, Put> {
    if CountsAck(v, a, peer, purpose, a.currentTerm) then PutsCounted(a, peer, purpose.id) else a.puts
  }

  /**
   Once repaired, each rejection moved back by one until the logs agreed: at the first next index less the
   rejections, and not one further. In the end the follower holds the leader's first `len` entries.
   */
  predicate BackedOffExactly(a: Node, f: Node, g: Node, peer: NodeId, len: int, rejections: nat)
    requires peer in a.nextIndex
  {
    var first := a.nextIndex[peer];
    && rejections < first
    && Agree(a.log, f.log, first - rejections)
    && (rejections > 0 ==> !Agree(a.log, f.log, first - rejections + 1))
    && Agree(a.log, g.log, len) && (g.log == f.log || g.log <= a.log)
  }

  /**
   As coded the locals never move: after one rejection the match index is -1, a check every follower passes, and the
   same entries overwrite the follower's log from index 0.
   */
  predicate FellToTheStart(a: Node, f: Node, g: Node, peer: NodeId, len: int, rejections: nat)
    requires peer in a.nextIndex && peer in a.matchIndex
  {
    var prev := a.matchIndex[peer];
    var sent := EntriesBetween(a.log, a.nextIndex[peer], len);
    if TermAt(a.log, prev) == TermAt(f.log, prev)
    then rejections == 0 && g.log == InsertCoded(f.log, prev + 1, sent)
    else rejections == 1 && g.log == InsertCoded(f.log, 0, sent)
  }

  ghost predicate Finished(v: Variant, a: Node, f: Node, b: Node, g: Node, peer: NodeId, len: int,
                           purpose: Purpose, rejections: nat, acked: bool)
    requires peer in a.nextIndex && peer in a.matchIndex
  {
    if acked then
      && Acked(v, a, f, b, peer, len, purpose)
      && if v.Repaired? then BackedOffExactly(a, f, g, peer, len, rejections)
         else FellToTheStart(a, f, g, peer, len, rejections)
    else rejections == 0 && GaveUp(a, f, b, g)
  }

  /** What the leader makes of an answer in its own term. */
  lemma AnswerOutcome(v: Variant, b: Node, peer: NodeId, next: int, len: int, purpose: Purpose,
                      req: AppendRequest, reply: AppendReply)
    requires req.term == b.currentTerm
    ensures var c := OnAppendReply(v, b, peer, next, len, purpose, req, reply);
      if reply.term > b.currentTerm then c == b.(identity := FOLLOWER)
      else
        && c.log == b.log && c.currentTerm == b.currentTerm && c.identity == b.identity
        && c.nextIndex == b.nextIndex[peer := if reply.success then len else next - 1]
        && c.matchIndex == b.matchIndex[peer := if reply.success then len - 1 else BackedOffMatch(v, next)]
        && c.puts == if reply.success then PutsAfterAck(v, b, peer, purpose) else b.puts
  {}

  /** The index the next round starts from: the local never moves as coded (R3). */
  function NextTried(v: Variant, next: int): int {
    if v.Repaired? then next - 1 else next
  }

  /** After a round with that answer the loop is over or goes on, as the answer says. */
  ghost predicate RoundDone(v: Variant, a: Node, f: Node, b: Node, g: Node, peer: NodeId, next: int, len: int,
                            purpose: Purpose, rejections: nat, reply: AppendReply)
    requires peer in a.nextIndex && peer in a.matchIndex
  {
    if reply.success || reply.term > b.currentTerm then
      Finished(v, a, f, b, g, peer, len, purpose, rejections, reply.success)
    else Retrying(v, a, f, b, g, peer, NextTried(v, next), rejections + 1)
  }

  lemma RepairedSuccess(a: Node, f: Node, b: Node, g: Node, b': Node, g': Node,
                        peer: NodeId, next: int, len: int, purpose: Purpose, rejections: nat)
    requires peer in a.nextIndex && peer in a.matchIndex && Retrying(Repaired, a, f, b, g, peer, next, rejections)
    requires g.currentTerm <= b.currentTerm && Agree(b.log, g.log, next)
    requires Agree(b.log, g'.log, len) && (g'.log == g.log || g'.log <= b.log)
    requires b'.log == b.log && b'.currentTerm == b.currentTerm && b'.identity == b.identity
    requires b'.nextIndex == b.nextIndex[peer := len] && b'.matchIndex == b.matchIndex[peer := len - 1]
    requires b'.puts == PutsAfterAck(Repaired, b, peer, purpose)
    ensures Finished(Repaired, a, f, b', g', peer, len, purpose, rejections, true)
  {
    hide Agree;
  }

  lemma RepairedRejection(a: Node, f: Node, b: Node, g: Node, b': Node, g': Node,
                          peer: NodeId, next: int, rejections: nat)
    requires peer in a.nextIndex && peer in a.matchIndex && Retrying(Repaired, a, f, b, g, peer, next, rejections)
    requires g.currentTerm <= b.currentTerm && !Agree(b.log, g.log, next) && g'.log == g.log && next >= 2
    requires g'.currentTerm == b.currentTerm
    requires b'.log == b.log && b'.currentTerm == b.currentTerm && b'.identity == b.identity
    requires b'.nextIndex == b.nextIndex[peer := next - 1] && b'.matchIndex == b.matchIndex[peer := next - 2]
    requires b'.puts == b.puts
    ensures Retrying(Repaired, a, f, b', g', peer, next - 1, rejections + 1)
  {
    hide Agree;
  }

  lemma RepairedRoundDone(tl: LeaderLogs, me: NodeId, a: Node, f: Node, b: Node, g: Node,
                          peer: NodeId, next: int, len: int, purpose: Purpose, rejections: nat)
    requires Ready(Repaired, tl, a, f, peer, len) && Retrying(Repaired, a, f, b, g, peer, next, rejections)
    requires g.currentTerm <= b.currentTerm
    ensures var req := PrepareAppend(Repaired, b, me, peer, next, len);
      var (g', reply) := OnAppendEntries(Repaired, g, req);
      var b' := OnAppendReply(Repaired, b, peer, next, len, purpose, req, reply);
      RoundDone(Repaired, a, f, b', g', peer, next, len, purpose, rejections, reply)
  {
    hide OnAppendEntries, OnAppendReply, Agree, EntriesBetween, Grounded, LeaderLogsOk;
    var req := PrepareAppend(Repaired, b, me, peer, next, len);
    var (g', reply) := OnAppendEntries(Repaired, g, req);
    RepairedRound(tl, b, me, g, peer, next, len);
    AnswerOutcome(Repaired, b, peer, next, len, purpose, req, reply);
    var b' := OnAppendReply(Repaired, b, peer, next, len, purpose, req, reply);
    hide Retrying, Ready, Finished, PrepareAppend;
    if reply.success {
      RepairedSuccess(a, f, b, g, b', g', peer, next, len, purpose, rejections);
    } else {
      RepairedRejection(a, f, b, g, b', g', peer, next, rejections);
    }
  }

  /** After a rejection the check reads out of range on both sides, so it passes. */
  lemma CodedRetryPasses(a: Node, f: Node, b: Node, g: Node, peer: NodeId, next: int, rejections: nat)
    requires peer in a.nextIndex && peer in a.matchIndex && Retrying(AsCoded, a, f, b, g, peer, next, rejections)
    ensures peer in b.matchIndex && rejections <= 1
    ensures rejections == 0 ==> b.matchIndex[peer] == a.matchIndex[peer] && b.log == a.log && g.log == f.log
    ensures rejections == 1 ==> TermAt(b.log, b.matchIndex[peer]) == TermAt(g.log, b.matchIndex[peer])
  {}

  lemma CodedSuccess(a: Node, f: Node, b: Node, g: Node, b': Node, g': Node,
                     peer: NodeId, next: int, len: int, purpose: Purpose, rejections: nat)
    requires peer in a.nextIndex && peer in a.matchIndex && Retrying(AsCoded, a, f, b, g, peer, next, rejections)
    requires peer in b.matchIndex && g.currentTerm <= b.currentTerm
    requires TermAt(b.log, b.matchIndex[peer]) == TermAt(g.log, b.matchIndex[peer])
    requires g'.log == InsertCoded(g.log, b.matchIndex[peer] + 1, EntriesBetween(b.log, next, len))
    requires b'.log == b.log && b'.currentTerm == b.currentTerm && b'.identity == b.identity
    requires b'.nextIndex == b.nextIndex[peer := len] && b'.matchIndex == b.matchIndex[peer := len - 1]
    requires b'.puts == PutsAfterAck(AsCoded, b, peer, purpose)
    ensures Finished(AsCoded, a, f, b', g', peer, len, purpose, rejections, true)
  {
    hide InsertCoded, EntriesBetween, TermAt;
  }

  lemma CodedRejection(a: Node, f: Node, b: Node, g: Node, b': Node, g': Node,
                       peer: NodeId, next: int, rejections: nat)
    requires peer in a.nextIndex && peer in a.matchIndex && Retrying(AsCoded, a, f, b, g, peer, next, rejections)
    requires peer in b.matchIndex && g.currentTerm <= b.currentTerm && rejections == 0
    requires TermAt(b.log, b.matchIndex[peer]) != TermAt(g.log, b.matchIndex[peer])
    requires g'.log == g.log && g'.currentTerm <= b.currentTerm
    requires b'.log == b.log && b'.currentTerm == b.currentTerm && b'.identity == b.identity
    requires b'.nextIndex == b.nextIndex[peer := next - 1] && b'.matchIndex == b.matchIndex[peer := -1]
    requires b'.puts == b.puts
    ensures Retrying(AsCoded, a, f, b', g', peer, next, rejections + 1)
  {
    hide TermAt;
  }

  lemma CodedRoundDone(me: NodeId, a: Node, f: Node, b: Node, g: Node,
                       peer: NodeId, next: int, len: int, purpose: Purpose, rejections: nat)
    requires peer in a.nextIndex && peer in a.matchIndex && Retrying(AsCoded, a, f, b, g, peer, next, rejections)
    requires g.currentTerm <= b.currentTerm
    ensures var req := PrepareAppend(AsCoded, b, me, peer, next, len);
      var (g', reply) := OnAppendEntries(AsCoded, g, req);
      var b' := OnAppendReply(AsCoded, b, peer, next, len, purpose, req, reply);
      RoundDone(AsCoded, a, f, b', g', peer, next, len, purpose, rejections, reply)
  {
    hide OnAppendEntries, OnAppendReply, InsertCoded, EntriesBetween, TermAt;
    var req := PrepareAppend(AsCoded, b, me, peer, next, len);
    var (g', reply) := OnAppendEntries(AsCoded, g, req);
    CodedRound(b, me, g, peer, next, len);
    AnswerOutcome(AsCoded, b, peer, next, len, purpose, req, reply);
    var b' := OnAppendReply(AsCoded, b, peer, next, len, purpose, req, reply);
    CodedRetryPasses(a, f, b, g, peer, next, rejections);
    hide Retrying, Finished, PrepareAppend;
    if reply.success {
      CodedSuccess(a, f, b, g, b', g', peer, next, len, purpose, rejections);
    } else {
      CodedRejection(a, f, b, g, b', g', peer, next, rejections);
    }
  }

  lemma AheadRoundDone(v: Variant, me: NodeId, a: Node, f: Node, b: Node, g: Node,
                       peer: NodeId, next: int, len: int, purpose: Purpose, rejections: nat)
    requires peer in a.nextIndex && peer in a.matchIndex && Retrying(v, a, f, b, g, peer, next, rejections)
    requires g.currentTerm > b.currentTerm
    ensures var req := PrepareAppend(v, b, me, peer, next, len);
      var (g', reply) := OnAppendEntries(v, g, req);
      var b' := OnAppendReply(v, b, peer, next, len, purpose, req, reply);
      RoundDone(v, a, f, b', g', peer, next, len, purpose, rejections, reply)
  {
    var req := PrepareAppend(v, b, me, peer, next, len);
    AheadRound(v, g, req);
    AnswerOutcome(v, b, peer, next, len, purpose, req, OnAppendEntries(v, g, req).1);
    hide OnAppendEntries, OnAppendReply, MovedBack, FellBack;
  }

  /** One more round either succeeds, gives up, or moves on with the retry. */
  lemma Round(v: Variant, tl: LeaderLogs, me: NodeId, a: Node, f: Node, b: Node, g: Node,
              peer: NodeId, next: int, len: int, purpose: Purpose, rejections: nat)
    requires Ready(v, tl, a, f, peer, len) && Retrying(v, a, f, b, g, peer, next, rejections)
    ensures var req := PrepareAppend(v, b, me, peer, next, len);
      var (g', reply) := OnAppendEntries(v, g, req);
      var b' := OnAppendReply(v, b, peer, next, len, purpose, req, reply);
      RoundDone(v, a, f, b', g', peer, next, len, purpose, rejections, reply)
  {
    hide OnAppendEntries, OnAppendReply, PrepareAppend, RoundDone, Retrying;
    if g.currentTerm > b.currentTerm {
      AheadRoundDone(v, me, a, f, b, g, peer, next, len, purpose, rejections);
    } else if v.Repaired? {
      RepairedRoundDone(tl, me, a, f, b, g, peer, next, len, purpose, rejections);
    } else {
      CodedRoundDone(me, a, f, b, g, peer, next, len, purpose, rejections);
    }
  }
}
