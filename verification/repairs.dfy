/** When the handlers as coded already do what the repaired ones do, and what happens when they do not. */
module Repairs {
  import opened RaftTypes
  import opened RaftNode
  import opened LogMatching
  import opened Backtracking

  /**
   R1: the two receivers recognise a request alike exactly when its term is not newer. Otherwise, as coded, a receiver
   that accepts an entry of that term has a log ahead of its own term; and if it leads, it goes on leading.
   */
  lemma NewerTermIsIgnored(n: Node, req: AppendRequest)
    ensures Recognise(AsCoded, n, req.term) == Recognise(Repaired, n, req.term) <==> req.term <= n.currentTerm
    ensures Accepts(n, req) && req.term > n.currentTerm && 0 <= req.prevIndex < |n.log| ==>
      var g := OnAppendEntries(AsCoded, n, req).0;
      && (n.identity == LEADER ==> g.identity == LEADER)
      && forall i | 0 <= i < |req.entries| && req.entries[i].term == req.term ::
          req.prevIndex + 1 + i < |g.log| && g.log[req.prevIndex + 1 + i].term > g.currentTerm
  {
    RecogniseEffect(AsCoded, n, req.term);
    AcceptEffect(AsCoded, n, req);
    hide AdvanceTo;
  }

  lemma OverwrittenStretch(l: seq<Entry>, x: seq<Entry>, start: nat, k: nat)
    requires start <= k <= |x| && start <= |l| && l[..start] == x[..start]
    ensures InsertCoded(l, start, x[start..k]) == x[..k] + if k < |l| then l[k..] else []
  {
    assert l[..start] + x[start..k] == x[..k];
  }

  lemma TailMatters(l: seq<Entry>, y: seq<Entry>)
    ensures y + (if |y| < |l| then l[|y|..] else []) == (if y <= l then l else y) <==> y <= l || |l| <= |y|
  {
    if |y| < |l| {
      assert y <= l ==> y + l[|y|..] == l;
      assert |y + l[|y|..]| == |l|;
    }
  }

  /**
   R2: over a stretch of a leader's log that follows an agreed prefix, overwriting in place is the repaired insertion
   exactly when nothing conflicts or no old entry lies beyond the stretch.
   */
  lemma OverwritingIsRight(tl: LeaderLogs, l: seq<Entry>, x: seq<Entry>, start: nat, k: nat)
    requires Grounded(tl, l) && Grounded(tl, x) && start <= k <= |x| && start <= |l| && l[..start] == x[..start]
    ensures InsertCoded(l, start, x[start..k]) == InsertRepaired(l, start, x[start..k]) <==>
      x[..k] <= l || |l| <= k
  {
    hide Grounded, InsertRepaired, InsertCoded;
    InsertStretch(tl, l, x, start, k);
    OverwrittenStretch(l, x, start, k);
    TailMatters(l, x[..k]);
  }

  /** R2: an entry that supersedes an older one keeps, as coded, the older entry behind it: terms fall along the log. */
  lemma OldTailStays(l: seq<Entry>, start: nat, e: Entry)
    requires start + 1 < |l| && l[start].term != e.term && l[start + 1].term < e.term
    ensures var log := InsertCoded(l, start, [e]);
      |log| == |l| && log[start] == e && log[start + 1] == l[start + 1] && log[start].term > log[start + 1].term
    ensures InsertRepaired(l, start, [e]) == l[..start] + [e]
  {}

  /**
   R3: whenever the retry loop as coded ends well although the first check failed, it has replaced the follower's
   sentinel by the entry it set out to send.
   */
  lemma SentinelLost(a: Node, f: Node, b: Node, g: Node, peer: NodeId, len: int, purpose: Purpose, rejections: nat)
    requires peer in a.nextIndex && peer in a.matchIndex && 1 <= a.nextIndex[peer] < len <= |a.log|
    requires Finished(AsCoded, a, f, b, g, peer, len, purpose, rejections, true)
    requires TermAt(a.log, a.matchIndex[peer]) != TermAt(f.log, a.matchIndex[peer])
    ensures rejections == 1 && |g.log| > 0 && g.log[0] == a.log[a.nextIndex[peer]]
  {}

  /**
   R3: started with the match index one before the next index, the retry loop as coded delivers what it reports
   exactly when its first check passes: then the follower holds the leader's first `len` entries, otherwise it does not.
   */
  lemma RetryDeliversExactly(tl: LeaderLogs, a: Node, f: Node, b: Node, g: Node, peer: NodeId, len: int,
                             purpose: Purpose, rejections: nat)
    requires LeaderLogsOk(tl) && Grounded(tl, a.log) && Grounded(tl, f.log)
    requires peer in a.nextIndex && peer in a.matchIndex && a.matchIndex[peer] == a.nextIndex[peer] - 1
    requires 1 <= a.nextIndex[peer] <= len <= |a.log|
    requires Finished(AsCoded, a, f, b, g, peer, len, purpose, rejections, true)
    ensures var prev := a.matchIndex[peer];
      Agree(a.log, g.log, len) <==> TermAt(a.log, prev) == TermAt(f.log, prev)
  {
    var next := a.nextIndex[peer];
    assert EntriesBetween(a.log, next, len) == a.log[next..len];
    assert g.log == InsertCoded(f.log, if TermAt(a.log, next - 1) == TermAt(f.log, next - 1) then next else 0,
                                a.log[next..len]);
    hide *;
    CodedDelivery(tl, a.log, f.log, next, len);
  }

  /** Overwriting from the checked index delivers the stretch; overwriting from index 0 never does. */
  lemma CodedDelivery(tl: LeaderLogs, x: seq<Entry>, l: seq<Entry>, next: nat, len: nat)
    requires LeaderLogsOk(tl) && Grounded(tl, x) && Grounded(tl, l) && 1 <= next <= len <= |x|
    ensures var passes := TermAt(x, next - 1) == TermAt(l, next - 1);
      Agree(x, InsertCoded(l, if passes then next else 0, x[next..len]), len) <==> passes
  {
    hide Grounded, LeaderLogsOk;
    CheckIsSound(tl, l, x, next - 1);
    if TermAt(x, next - 1) == TermAt(l, next - 1) {
      OverwrittenStretch(l, x, next, len);
    } else if next == len {
      OverwrittenNothing(l);
    } else {
      SentinelOnly(tl, x, next);
      SentinelOnly(tl, x, 0);
      hide Agree;
      DifferAtTheStart(x, InsertCoded(l, 0, x[next..len]), len);
    }
  }

  lemma OverwrittenNothing(l: seq<Entry>)
    ensures InsertCoded(l, 0, []) == l
  {}

  lemma DifferAtTheStart(x: seq<Entry>, l: seq<Entry>, k: nat)
    requires |x| > 0 && |l| > 0 && x[0] != l[0] && k > 0
    ensures !Agree(x, l, k)
  {
    if k <= |x| && k <= |l| {
      assert x[..k][0] != l[..k][0];
    }
  }

  /** R4: the commit limits agree exactly when the leader's index lies within what the request covers. */
  lemma LimitsAgree(req: AppendRequest)
    ensures CommitLimit(AsCoded, req) == CommitLimit(Repaired, req) <==>
      req.leaderCommit <= req.prevIndex + |req.entries|
  {}

  /** R4: as coded a commit index past the end of the log is adopted, and the empty command is executed. */
  lemma ExecutesPastTheEnd(n: Node, req: AppendRequest)
    requires Accepts(n, req) && req.leaderCommit > n.commitIndex && n.lastApplied <= req.leaderCommit
    ensures var g := OnAppendEntries(AsCoded, n, req).0;
      g.commitIndex == req.leaderCommit &&
      (req.leaderCommit >= |g.log| ==> "" in g.store && g.store[""] == "")
  {
    AcceptExecutes(AsCoded, n, req);
    AppendEffect(AsCoded, n, req);
    hide OnAppendEntries, InsertLog;
  }

  /** `GetMajorityCount`, which no quorum test uses. */
  function MajorityCount(size: nat): nat {
    if size % 2 == 0 then size / 2 else size / 2 + 1
  }

  /** It is a majority exactly for odd sizes, whereas the quorum tests in use ask for a majority at any size. */
  lemma MajorityCountFailsForEvenSizes(size: nat, count: nat)
    ensures 2 * MajorityCount(size) > size <==> size % 2 == 1
    ensures size != 1 ==> (ReceivedMajority(count, size) <==> 2 * count > size)
  {}
}
