/**
 What each handler of a node answers and leaves behind, field by field, over the log and the request alone: when a vote
 must be granted, what a commit must execute, what a request must carry.
 */
module HandlerLaws {
  import opened RaftTypes
  import opened ApplyLog
  import opened RaftNode

  // Elections

  /** A candidacy: the next term, one vote, its own, and every other peer still to be heard of. */
  lemma CandidacyLaw(n: Node, me: NodeId, peers: set<NodeId>)
    ensures var b := StartElection(n, me, peers);
      && b.currentTerm == n.currentTerm + 1 && b.identity == CANDIDATE && b.votesGained == 1
      && (forall p :: p in b.awaiting <==> p in peers && p != me)
      && b.votedFor.Keys == n.votedFor.Keys + {n.currentTerm + 1}
      && (forall t | t in n.votedFor :: b.votedFor[t] == n.votedFor[t])
      && (n.currentTerm + 1 !in n.votedFor ==> b.votedFor[n.currentTerm + 1] == me)
      && b == n.(currentTerm := b.currentTerm, identity := b.identity, votesGained := b.votesGained,
                 awaiting := b.awaiting, votedFor := b.votedFor)
  {}

  /** A request for votes tells the candidate's term and where its log ends. */
  lemma VoteRequestLaw(n: Node, me: NodeId)
    ensures var req := VoteRequestOf(n, me);
      && req.term == n.currentTerm && req.candidate == me && req.lastIndex == |n.log| - 1
      && req.lastTerm == (if n.log == [] then 0 else n.log[|n.log| - 1].term)
  {}

  /**
   A vote is granted exactly when the request is not stale, the voter has no vote in that term, and the candidate's log
   ends in a newer term, or in the same term and no earlier. Either way a newer term is adopted and answered.
   */
  lemma VoteLaw(n: Node, req: VoteRequest)
    ensures var (b, reply) := OnReqVote(n, req);
      var lastTerm := if n.log == [] then 0 else n.log[|n.log| - 1].term;
      && (reply.granted <==>
            && req.term >= n.currentTerm && req.term !in n.votedFor
            && (req.lastTerm > lastTerm || (req.lastTerm == lastTerm && req.lastIndex >= |n.log| - 1)))
      && reply.term == b.currentTerm == (if req.term > n.currentTerm then req.term else n.currentTerm)
      && b.identity == (if req.term > n.currentTerm then FOLLOWER else n.identity)
      && b.votedFor == (if reply.granted then n.votedFor[req.term := req.candidate] else n.votedFor)
      && b == n.(currentTerm := b.currentTerm, identity := b.identity, votedFor := b.votedFor)
  {}

  /**
   Of any two nodes one would vote for the other, in a term neither has voted in and both have reached at most; both
   would exactly when their logs end alike.
   */
  lemma OneWouldVote(m: Node, me: NodeId, n: Node, other: NodeId, term: int)
    requires m.log != [] && n.log != [] && m.currentTerm <= term && n.currentTerm <= term
    requires term !in m.votedFor && term !in n.votedFor
    ensures var there := OnReqVote(n, VoteRequestOf(m, me).(term := term)).1.granted;
      var back := OnReqVote(m, VoteRequestOf(n, other).(term := term)).1.granted;
      && (there || back)
      && (there && back <==> m.log[|m.log| - 1].term == n.log[|n.log| - 1].term && |m.log| == |n.log|)
  {
    VoteLaw(n, VoteRequestOf(m, me).(term := term));
    VoteLaw(m, VoteRequestOf(n, other).(term := term));
    hide OnReqVote;
  }

  /** A denial with a newer term makes a follower; a grant counts exactly once, and only in its term. */
  lemma VoteAnswerLaw(n: Node, from: NodeId, req: VoteRequest, reply: VoteReply)
    ensures var b := OnVoteReply(n, from, req, reply);
      var counts := reply.granted && from in n.awaiting && req.term == n.currentTerm;
      && b.identity == (if !reply.granted && reply.term > n.currentTerm then FOLLOWER else n.identity)
      && b.votesGained == (if counts then n.votesGained + 1 else n.votesGained)
      && (forall p :: p in b.awaiting <==> p in n.awaiting && !(counts && p == from))
      && b == n.(identity := b.identity, votesGained := b.votesGained, awaiting := b.awaiting)
  {}

  /** A candidate wins with more than half of the cluster's votes, and not with fewer. */
  lemma WinLaw(n: Node, size: nat)
    ensures WinsElection(n, size) <==> 2 * n.votesGained > size && n.identity == CANDIDATE
  {}

  /** Taking office: every peer's next index is the log's length, its match index one less. */
  lemma OfficeLaw(n: Node, peers: set<NodeId>)
    ensures var b := BecomeLeader(n, peers);
      && b.identity == LEADER
      && b.nextIndex.Keys == n.nextIndex.Keys + peers && b.matchIndex.Keys == n.matchIndex.Keys + peers
      && (forall p | p in peers :: b.nextIndex[p] == |n.log| && b.matchIndex[p] == |n.log| - 1)
      && (forall p | p in n.nextIndex && p !in peers :: b.nextIndex[p] == n.nextIndex[p])
      && (forall p | p in n.matchIndex && p !in peers :: b.matchIndex[p] == n.matchIndex[p])
      && b == n.(identity := LEADER, nextIndex := b.nextIndex, matchIndex := b.matchIndex)
  {}

  // Puts

  /** A put appends its command in the leader's term, with one ack and every other peer waiting. */
  lemma PutLaw(n: Node, me: NodeId, peers: set<NodeId>, key: string, value: string)
    ensures var b := AppendPut(n, me, peers, key, value);
      var id := PutId(n.currentTerm, |n.log| + 1);
      && |b.log| == |n.log| + 1 && (forall i | 0 <= i < |n.log| :: b.log[i] == n.log[i])
      && b.log[|n.log|] == Entry(n.currentTerm, key, value)
      && b.puts.Keys == n.puts.Keys + {id} && b.puts[id] == Put(1, peers - {me})
      && (forall i | i in n.puts && i != id :: b.puts[i] == n.puts[i])
      && b == n.(log := b.log, puts := b.puts)
  {}

  /** More than half of the cluster, or a cluster of one. */
  lemma MajorityLaw(count: nat, size: nat)
    ensures ReceivedMajority(count, size) <==> size == 1 || 2 * count > size
  {}

  /** What a key holds after a window of the log: its last write there, or what it held before. */
  predicate KeyAfter(before: Store, log: seq<Entry>, start: nat, end: int, after: Store, key: string) {
    var w := LastWrite(log, start, end, key);
    if w == -1 then (key in after <==> key in before) && (key in after ==> after[key] == before[key])
    else key in after && after[key] == ValueAt(log, w)
  }

  ghost predicate StoreAfter(before: Store, log: seq<Entry>, start: nat, end: int, after: Store) {
    forall key :: KeyAfter(before, log, start, end, after, key)
  }

  lemma AppliedIsAfter(before: Store, log: seq<Entry>, start: nat, end: int)
    ensures StoreAfter(before, log, start, end, Applied(before, log, start, end))
  {
    forall key ensures KeyAfter(before, log, start, end, Applied(before, log, start, end), key) {
      AppliedLookup(before, log, start, end, key);
      hide Applied, LastWrite;
    }
  }

  /** The last command of a window is in the store afterwards. */
  lemma LastCommandStored(before: Store, log: seq<Entry>, start: nat, end: int, after: Store)
    requires StoreAfter(before, log, start, end, after) && start <= end < |log|
    ensures log[end].key in after && after[log[end].key] == log[end].value
  {
    assert LastWrite(log, start, end, log[end].key) == end;
    assert KeyAfter(before, log, start, end, after, log[end].key);
  }

  /**
   A put that commits moves the commit index to its own entry and executes every command after the applied index up to
   it; so its own command is in the leader's store, unless the leader had gone beyond it already.
   */
  lemma CommitLaw(n: Node, id: PutId)
    requires n.lastApplied >= -1
    ensures var b := FinishPut(n, id);
      && b.commitIndex == id.len - 1
      && b.lastApplied == (if n.lastApplied < id.len - 1 then id.len - 1 else n.lastApplied)
      && StoreAfter(n.store, n.log, n.lastApplied + 1, id.len - 1, b.store)
      && (forall i :: i in b.puts <==> i in n.puts && i != id) && (forall i | i in b.puts :: b.puts[i] == n.puts[i])
      && b == n.(commitIndex := b.commitIndex, lastApplied := b.lastApplied, store := b.store, puts := b.puts)
    ensures n.lastApplied < id.len - 1 < |n.log| ==>
      var e, b := n.log[id.len - 1], FinishPut(n, id); e.key in b.store && b.store[e.key] == e.value
  {
    hide Applied, StoreAfter;
    AppliedIsAfter(n.store, n.log, n.lastApplied + 1, id.len - 1);
    if n.lastApplied < id.len - 1 < |n.log| {
      LastCommandStored(n.store, n.log, n.lastApplied + 1, id.len - 1, FinishPut(n, id).store);
    }
  }

  // Replication

  lemma {:induction false} EntriesAt(log: seq<Entry>, next: int, len: int)
    ensures var es := EntriesBetween(log, next, len);
      && |es| == (if next < len then len - next else 0)
      && forall i | 0 <= i < |es| :: es[i] ==
          if 0 <= next + i < |log| then log[next + i] else Entry(0, "", "")
    decreases len - next
  {
    if next < len {
      EntriesAt(log, next + 1, len);
    }
  }

  /** A request carries the leader's term and commit index, the entry before it, and the entries from next to len. */
  lemma RequestLaw(v: Variant, n: Node, me: NodeId, peer: NodeId, next: int, len: int)
    requires v.AsCoded? ==> peer in n.matchIndex
    ensures var req := PrepareAppend(v, n, me, peer, next, len);
      && req.term == n.currentTerm && req.leader == me && req.leaderCommit == n.commitIndex
      && req.prevIndex == (if v.AsCoded? then n.matchIndex[peer] else next - 1)
      && req.prevTerm == (if 0 <= req.prevIndex < |n.log| then n.log[req.prevIndex].term else 0)
      && |req.entries| == (if next < len then len - next else 0)
      && forall i | 0 <= i < |req.entries| :: req.entries[i] ==
          if 0 <= next + i < |n.log| then n.log[next + i] else Entry(0, "", "")
  {
    EntriesAt(n.log, next, len);
    hide EntriesBetween;
  }

  /** Overwriting in place: the entries where they belong, everything else as it was. */
  lemma OverwriteLaw(log: seq<Entry>, start: int, es: seq<Entry>)
    requires 0 <= start <= |log|
    ensures var b := InsertCoded(log, start, es);
      && |b| == (if start + |es| > |log| then start + |es| else |log|)
      && forall i | 0 <= i < |b| :: b[i] == if start <= i < start + |es| then es[i - start] else log[i]
  {}

  /** The entry is in the log already, as far as its term tells. */
  predicate Holds(log: seq<Entry>, start: int, es: seq<Entry>, i: int) {
    0 <= i < |es| && 0 <= start + i < |log| && log[start + i].term == es[i].term
  }

  /** The repaired insertion: from the first entry not held on, the request's entries and nothing behind them. */
  lemma {:induction false} RepairedInsertLaw(log: seq<Entry>, start: int, es: seq<Entry>, k: nat)
    requires 0 <= start && start + k <= |log| && k <= |es| && forall i | 0 <= i < k :: Holds(log, start, es, i)
    requires k < |es| ==> !Holds(log, start, es, k)
    ensures InsertRepaired(log, start, es) == if k == |es| then log else log[..start + k] + es[k..]
    decreases |es|
  {
    if es != [] {
      if k == 0 {
        assert es[0..] == es;
      } else {
        assert Holds(log, start, es, 0);
        var next, rest := start + 1, es[1..];
        forall i | 0 <= i < k - 1 ensures Holds(log, next, rest, i) {
          assert Holds(log, start, es, i + 1);
        }
        RepairedInsertLaw(log, next, rest, k - 1);
      }
    }
  }

  /** How far a request lets a receiver commit. */
  lemma LimitLaw(v: Variant, req: AppendRequest)
    ensures var covered := req.prevIndex + |req.entries|;
      CommitLimit(v, req) == if v.AsCoded? || req.leaderCommit <= covered then req.leaderCommit else covered
  {}

  /** A request that is not stale: once repaired a newer term is adopted; a candidate, or a newer term, follows. */
  lemma RecogniseLaw(v: Variant, n: Node, term: int)
    ensures var b := Recognise(v, n, term);
      var newer := v.Repaired? && term > n.currentTerm;
      && b.currentTerm == (if newer then term else n.currentTerm)
      && b.identity == (if newer || n.identity == CANDIDATE then FOLLOWER else n.identity)
      && b == n.(currentTerm := b.currentTerm, identity := b.identity)
  {}

  /** An accepted request: the applied index follows the commit index, if that moved to or past it. */
  lemma AcceptLaw(v: Variant, n: Node, req: AppendRequest)
    ensures var a, b := Recognise(v, n, req.term), Accept(v, n, req);
      var limit := CommitLimit(v, req);
      && b == a.(log := b.log, commitIndex := b.commitIndex, lastApplied := b.lastApplied, store := b.store)
      && b.commitIndex == (if limit > n.commitIndex then limit else n.commitIndex)
      && b.lastApplied == (if limit > n.commitIndex && n.lastApplied <= limit then limit else n.lastApplied)
  {
    var a := Recognise(v, n, req.term);
    RecogniseEffect(v, n, req.term);
    AdvanceEffect(a.(log := InsertLog(v, n.log, req.prevIndex + 1, req.entries)), CommitLimit(v, req));
    hide Recognise, AdvanceTo, InsertLog, CommitLimit;
  }

  /** What a receiver answers, and its term, identity and indices afterwards. */
  lemma AppendAnswerLaw(v: Variant, n: Node, req: AppendRequest)
    ensures var (b, reply) := OnAppendEntries(v, n, req);
      var here := if 0 <= req.prevIndex < |n.log| then n.log[req.prevIndex].term else 0;
      var stale, newer := req.term < n.currentTerm, v.Repaired? && req.term > n.currentTerm;
      var limit := if v.AsCoded? || req.leaderCommit <= req.prevIndex + |req.entries| then req.leaderCommit
                   else req.prevIndex + |req.entries|;
      && (reply.success <==> !stale && here == req.prevTerm)
      && reply.term == b.currentTerm == (if newer then req.term else n.currentTerm)
      && b.identity == (if newer || (!stale && n.identity == CANDIDATE) then FOLLOWER else n.identity)
      && b.commitIndex == (if reply.success && limit > n.commitIndex then limit else n.commitIndex)
      && b.lastApplied == (if reply.success && limit > n.commitIndex && n.lastApplied <= limit then limit
                           else n.lastApplied)
      && b == n.(currentTerm := b.currentTerm, identity := b.identity, log := b.log, store := b.store,
                 commitIndex := b.commitIndex, lastApplied := b.lastApplied)
  {
    hide Recognise, Accept, CommitLimit;
    RecogniseLaw(v, n, req.term);
    LimitLaw(v, req);
    if Accepts(n, req) { AcceptLaw(v, n, req); }
  }

  /** What a receiver does to its log and its store. */
  lemma AppendEffectLaw(v: Variant, n: Node, req: AppendRequest)
    requires n.lastApplied >= 0
    ensures var (b, reply) := OnAppendEntries(v, n, req);
      && b.log == (if !reply.success then n.log
                   else if v.AsCoded? then InsertCoded(n.log, req.prevIndex + 1, req.entries)
                   else InsertRepaired(n.log, req.prevIndex + 1, req.entries))
      && if reply.success && b.commitIndex > n.commitIndex
         then StoreAfter(n.store, b.log, n.lastApplied, b.commitIndex, b.store) else b.store == n.store
  {
    AppendAnswerLaw(v, n, req);
    var b := OnAppendEntries(v, n, req).0;
    if Accepts(n, req) {
      AcceptExecutes(v, n, req);
      AppliedIsAfter(n.store, b.log, n.lastApplied, b.commitIndex);
    }
    AppendEffect(v, n, req);
    hide OnAppendEntries, InsertCoded, InsertRepaired, Applied, StoreAfter;
    if !Accepts(n, req) { RejectKeepsStore(v, n, req); }
  }

  lemma AppendStoreLaw(v: Variant, n: Node, req: AppendRequest)
    ensures var (b, reply) := OnAppendEntries(v, n, req);
      && (b.commitIndex > n.commitIndex && n.lastApplied >= 0 ==>
          StoreAfter(n.store, b.log, n.lastApplied, b.commitIndex, b.store))
      && (b.commitIndex <= n.commitIndex ==> b.store == n.store)
  {
    if n.lastApplied >= 0 { AppendEffectLaw(v, n, req); }
    if Accepts(n, req) { AcceptExecutes(v, n, req); } else { RejectKeepsStore(v, n, req); }
    AppendEffect(v, n, req);
    hide OnAppendEntries, InsertLog, Applied, StoreAfter;
  }

  lemma RejectKeepsStore(v: Variant, n: Node, req: AppendRequest)
    requires !Accepts(n, req)
    ensures OnAppendEntries(v, n, req).0.store == n.store
  {
    hide Accept;
  }

  /**
   A leader's commit index spreads: after an exchange the follower accepted, its commit index is at least the leader's
   when the request was built; once repaired, capped at the last index the request covers.
   */
  lemma CommitSpreads(v: Variant, a: Node, me: NodeId, f: Node, peer: NodeId, next: int, len: int)
    requires v.AsCoded? ==> peer in a.matchIndex
    ensures var (g, reply) := OnAppendEntries(v, f, PrepareAppend(v, a, me, peer, next, len));
      var covered := if next < len then len - 1 else next - 1;
      var spread := if v.AsCoded? || a.commitIndex <= covered then a.commitIndex else covered;
      reply.success ==> g.commitIndex == if spread > f.commitIndex then spread else f.commitIndex
  {
    RequestLaw(v, a, me, peer, next, len);
    AppendAnswerLaw(v, f, PrepareAppend(v, a, me, peer, next, len));
    hide OnAppendEntries, PrepareAppend;
  }

  /** What a leader makes of an answer: its identity, the two indices of that peer, and the put that counts it. */
  lemma AckLaw(v: Variant, n: Node, from: NodeId, next: int, len: int, purpose: Purpose,
               req: AppendRequest, reply: AppendReply)
    ensures var b := OnAppendReply(v, n, from, next, len, purpose, req, reply);
      var moves := req.term >= reply.term && (v.AsCoded? || req.term == n.currentTerm);
      var counts := req.term >= reply.term && reply.success && purpose.ForPut? && purpose.id in n.puts
        && from in n.puts[purpose.id].waiting && (v.AsCoded? || purpose.id.term == req.term);
      && b.identity == (if reply.term > req.term then FOLLOWER else n.identity)
      && b.nextIndex == (if !moves then n.nextIndex else n.nextIndex[from := if reply.success then len else next - 1])
      && b.matchIndex == (if !moves then n.matchIndex
                          else n.matchIndex[from := if reply.success then len - 1
                                                    else if v.AsCoded? then -1 else next - 2])
      && b.puts == (if !counts then n.puts
                    else n.puts[purpose.id := Put(n.puts[purpose.id].count + 1, n.puts[purpose.id].waiting - {from})])
      && b == n.(identity := b.identity, nextIndex := b.nextIndex, matchIndex := b.matchIndex, puts := b.puts)
  {}

  // Restarts

  /** A restart keeps term, votes, log and store; the rest starts over. */
  lemma RestartLaw(n: Node)
    ensures var b := Restarted(n);
      && b.currentTerm == n.currentTerm && b.votedFor == n.votedFor && b.log == n.log && b.store == n.store
      && b.identity == FOLLOWER && b.commitIndex == 0 && b.lastApplied == 0
      && b.nextIndex == map[] && b.matchIndex == map[] && b.votesGained == 0 && b.awaiting == {} && b.puts == map[]
  {}

  /** A crash between two commands keeps those executed before it, in the store and nowhere else. */
  lemma HalfCommittedLaw(n: Node, upto: int)
    requires n.lastApplied >= -1
    ensures var b := HalfCommitted(n, upto);
      StoreAfter(n.store, n.log, n.lastApplied + 1, upto, b.store) && b == Restarted(n).(store := b.store)
  {
    AppliedIsAfter(n.store, n.log, n.lastApplied + 1, upto);
    hide Applied, StoreAfter;
  }

  lemma TornLaw(v: Variant, n: Node, req: AppendRequest, lines: nat, upto: int)
    requires CrashPoint(v, n, req, lines, upto) && n.lastApplied >= 0
    ensures var b := Torn(v, n, req, lines, upto); var whole := OnAppendEntries(v, n, req).0;
      && StoreAfter(n.store, whole.log, n.lastApplied, upto, b.store)
      && b.currentTerm == whole.currentTerm
      && b == Restarted(n).(currentTerm := b.currentTerm, log := b.log, store := b.store)
  {
    AppendEffect(v, n, req);
    TornEffect(v, n, req, lines, upto);
    AppliedIsAfter(n.store, InsertLog(v, n.log, req.prevIndex + 1, req.entries), n.lastApplied, upto);
    TornFrame(v, n, req, lines, upto);
    hide OnAppendEntries, Torn, InsertLog, Applied, StoreAfter, LinesToWrite, TornLog, CommitLimit;
  }

  lemma TornFrame(v: Variant, n: Node, req: AppendRequest, lines: nat, upto: int)
    requires CrashPoint(v, n, req, lines, upto)
    ensures var b := Torn(v, n, req, lines, upto);
      b == Restarted(n).(currentTerm := b.currentTerm, log := b.log, store := b.store)
  {
    hide TornLog, InsertLog, Applied, CrashPoint;
  }
}
