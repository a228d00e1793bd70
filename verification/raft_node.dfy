/**
 The Raft handlers of one node, as functions from a node state to the next one.
 Class `RaftServer` implements them over its mutable state; `RaftSystem` runs them over a cluster.
 */
module RaftNode {
  import opened RaftTypes
  import opened ApplyLog

  datatype VoteRequest = VoteRequest(term: int, candidate: NodeId, lastIndex: int, lastTerm: int)
  datatype VoteReply = VoteReply(term: int, granted: bool)
  datatype AppendRequest = AppendRequest(term: int, leader: NodeId, prevIndex: int, prevTerm: int,
                                         entries: seq<Entry>, leaderCommit: int)
  datatype AppendReply = AppendReply(term: int, success: bool)

  /** A client put waiting for its majority: acks so far, and the peers whose thread has not acked. */
  datatype Put = Put(count: nat, waiting: set<NodeId>)

  /** The term a put appended in, and the log length right after it. */
  datatype PutId = PutId(term: int, len: int)

  /** What a broadcast thread replicates for: nobody, or a put whose counter it holds. */
  datatype Purpose = Heartbeat | ForPut(id: PutId)

  datatype Node = Node(
    // durable: the two files and LevelDB
    currentTerm: int,
    votedFor: map<int, NodeId>,
    log: seq<Entry>,
    store: Store,
    // lost in a crash
    identity: Identity,
    commitIndex: int,
    lastApplied: int,
    nextIndex: map<NodeId, int>,
    matchIndex: map<NodeId, int>,
    votesGained: nat,
    awaiting: set<NodeId>,
    puts: map<PutId, Put>)

  function FreshNode(): Node {
    Node(0, map[], [SENTINEL], map[], FOLLOWER, 0, 0, map[], map[], 0, {}, map[])
  }

  /** What a node is after a crash and `StateHelper::Init`. */
  function Restarted(n: Node): Node {
    Node(n.currentTerm, n.votedFor, n.log, n.store, FOLLOWER, 0, 0, map[], map[], 0, {}, map[])
  }

  predicate Voted(n: Node, term: int, candidate: NodeId) {
    term in n.votedFor && n.votedFor[term] == candidate
  }

  function LastIndex(n: Node): int {
    |n.log| - 1
  }

  function LastTerm(n: Node): int {
    TermAt(n.log, LastIndex(n))
  }

  // Elections

  function StartElection(n: Node, me: NodeId, peers: set<NodeId>): Node {
    var term := n.currentTerm + 1;
    n.(identity := CANDIDATE, currentTerm := term, votesGained := 1, awaiting := peers - {me},
       votedFor := if term in n.votedFor then n.votedFor else n.votedFor[term := me])
  }

  function VoteRequestOf(n: Node, me: NodeId): VoteRequest {
    VoteRequest(n.currentTerm, me, LastIndex(n), LastTerm(n))
  }

  /** Lexicographic order on (last term, last index). */
  predicate AtLeastAsRecent(term: int, index: int, otherTerm: int, otherIndex: int) {
    term > otherTerm || (term == otherTerm && index >= otherIndex)
  }

  /** The candidate's last entry is at least as recent as the voter's. */
  predicate UpToDate(req: VoteRequest, voter: Node) {
    AtLeastAsRecent(req.lastTerm, req.lastIndex, LastTerm(voter), LastIndex(voter))
  }

  function ObserveTerm(n: Node, term: int): Node {
    if term > n.currentTerm then n.(currentTerm := term, identity := FOLLOWER) else n
  }

  predicate Grants(n: Node, req: VoteRequest) {
    req.term >= n.currentTerm && req.term !in n.votedFor && UpToDate(req, n)
  }

  function OnReqVote(n: Node, req: VoteRequest): (Node, VoteReply) {
    if req.term < n.currentTerm then (n, VoteReply(n.currentTerm, false))
    else
      var a := ObserveTerm(n, req.term);
      if req.term !in a.votedFor && UpToDate(req, a) then
        (a.(votedFor := a.votedFor[req.term := req.candidate]), VoteReply(a.currentTerm, true))
      else (a, VoteReply(a.currentTerm, false))
  }

  /** A vote thread returns. A granted vote is counted once, and only in the term it was asked for. */
  function OnVoteReply(n: Node, from: NodeId, req: VoteRequest, reply: VoteReply): Node {
    if reply.granted then
      if from in n.awaiting && req.term == n.currentTerm then
        n.(votesGained := n.votesGained + 1, awaiting := n.awaiting - {from})
      else n
    else if reply.term > n.currentTerm then n.(identity := FOLLOWER)
    else n
  }

  predicate WinsElection(n: Node, size: nat) {
    n.votesGained > size / 2 && n.identity == CANDIDATE
  }

  function BecomeLeader(n: Node, peers: set<NodeId>): Node {
    n.(identity := LEADER,
       nextIndex := n.nextIndex + map p | p in peers :: |n.log|,
       matchIndex := n.matchIndex + map p | p in peers :: |n.log| - 1)
  }

  // Replication

  function AppendPut(n: Node, me: NodeId, peers: set<NodeId>, key: string, value: string): Node {
    var log := n.log + [Entry(n.currentTerm, key, value)];
    n.(log := log, puts := n.puts[PutId(n.currentTerm, |log|) := Put(1, peers - {me})])
  }

  /** The entries of `next..len` as the getters read them. */
  function EntriesBetween(log: seq<Entry>, next: int, len: int): (es: seq<Entry>)
    ensures 0 <= next && len <= |log| ==> es == if next <= len then log[next..len] else []
    decreases len - next
  {
    if next >= len then []
    else [Entry(TermAt(log, next), KeyAt(log, next), ValueAt(log, next))] + EntriesBetween(log, next + 1, len)
  }

  /** The index a request is checked against: matchIndex as coded, next - 1 once repaired (R3). */
  function PrevIndex(v: Variant, n: Node, peer: NodeId, next: int): int
    requires v.AsCoded? ==> peer in n.matchIndex
  {
    if v.AsCoded? then n.matchIndex[peer] else next - 1
  }

  function PrepareAppend(v: Variant, n: Node, me: NodeId, peer: NodeId, next: int, len: int): AppendRequest
    requires v.AsCoded? ==> peer in n.matchIndex
  {
    var prev := PrevIndex(v, n, peer, next);
    AppendRequest(n.currentTerm, me, prev, TermAt(n.log, prev), EntriesBetween(n.log, next, len), n.commitIndex)
  }

  /** What `StateHelper::Insert` leaves in memory if it does not throw: overwritten in place, the old tail kept. */
  function InsertCoded(log: seq<Entry>, start: int, es: seq<Entry>): seq<Entry> {
    if start < 0 || start > |log| then log
    else log[..start] + es + (if start + |es| < |log| then log[start + |es|..] else [])
  }

  /** The repaired insertion (R2): the old suffix is dropped exactly when an entry conflicts. */
  function InsertRepaired(log: seq<Entry>, start: int, es: seq<Entry>): seq<Entry>
    decreases |es|
  {
    if start < 0 || start > |log| || es == [] then log
    else if start == |log| then log + es
    else if log[start].term != es[0].term then log[..start] + es
    else InsertRepaired(log, start + 1, es[1..])
  }

  /** How many of the entries the repaired insertion finds in the log already. */
  function Kept(log: seq<Entry>, start: int, es: seq<Entry>): (k: nat)
    ensures k <= |es| && (0 <= start <= |log| ==> start + k <= |log|)
    decreases |es|
  {
    if 0 <= start < |log| && es != [] && log[start].term == es[0].term then 1 + Kept(log, start + 1, es[1..]) else 0
  }

  /** How many lines an insertion writes: as coded all entries, once repaired those behind the kept ones. */
  function LinesToWrite(v: Variant, log: seq<Entry>, start: int, es: seq<Entry>): nat {
    if v.AsCoded? then |es| else |es| - Kept(log, start, es)
  }

  /** What the file holds of an insertion that stopped after its cut and that many lines. */
  function TornLog(v: Variant, log: seq<Entry>, start: int, es: seq<Entry>, lines: nat): seq<Entry>
    requires lines <= LinesToWrite(v, log, start, es)
  {
    var k := if v.AsCoded? then 0 else Kept(log, start, es);
    if start < 0 || start > |log| || (v.Repaired? && k == |es|) then log else log[..start + k] + es[k..k + lines]
  }

  function InsertLog(v: Variant, log: seq<Entry>, start: int, es: seq<Entry>): seq<Entry> {
    if v.AsCoded? then InsertCoded(log, start, es) else InsertRepaired(log, start, es)
  }

  /** A request that is not stale: a candidate steps down; once repaired (R1) a newer term is adopted. */
  function Recognise(v: Variant, n: Node, term: int): Node {
    if v.Repaired? && term > n.currentTerm then n.(currentTerm := term, identity := FOLLOWER)
    else if n.identity == CANDIDATE then n.(identity := FOLLOWER)
    else n
  }

  predicate Accepts(n: Node, req: AppendRequest) {
    req.term >= n.currentTerm && TermAt(n.log, req.prevIndex) == req.prevTerm
  }

  /** How far a follower may commit; once repaired (R4), not past what the request covers. */
  function CommitLimit(v: Variant, req: AppendRequest): int {
    if v.AsCoded? then req.leaderCommit else Min(req.leaderCommit, req.prevIndex + |req.entries|)
  }

  predicate AdvancesCommit(v: Variant, n: Node, req: AppendRequest) {
    Accepts(n, req) && CommitLimit(v, req) > n.commitIndex
  }

  function Execute(n: Node, start: int, end: int): Node {
    n.(store := Applied(n.store, n.log, start, end), lastApplied := if start <= end then end else n.lastApplied)
  }

  /** A commit index received from the leader counts only if it moves this node forward. */
  function AdvanceTo(n: Node, limit: int): Node {
    if limit > n.commitIndex then Execute(n.(commitIndex := limit), n.lastApplied, limit) else n
  }

  /** A request that passed the consistency check: insert the entries, then execute what became committed. */
  function Accept(v: Variant, n: Node, req: AppendRequest): Node {
    var inserted := InsertLog(v, n.log, req.prevIndex + 1, req.entries);
    AdvanceTo(Recognise(v, n, req.term).(log := inserted), CommitLimit(v, req))
  }

  function OnAppendEntries(v: Variant, n: Node, req: AppendRequest): (Node, AppendReply) {
    if req.term < n.currentTerm then (n, AppendReply(n.currentTerm, false))
    else if TermAt(n.log, req.prevIndex) != req.prevTerm then
      (Recognise(v, n, req.term), AppendReply(Recognise(v, n, req.term).currentTerm, false))
    else (Accept(v, n, req), AppendReply(Recognise(v, n, req.term).currentTerm, true))
  }

  /** The match index after a rejection: -1 as coded (the local is never set), next - 2 once repaired (R3). */
  function BackedOffMatch(v: Variant, next: int): int {
    if v.AsCoded? then -1 else next - 2
  }

  function WithIndices(n: Node, peer: NodeId, next: int, matched: int): Node {
    n.(nextIndex := n.nextIndex[peer := next], matchIndex := n.matchIndex[peer := matched])
  }

  /** The ack reaches a put that still waits for this peer; once repaired (R5), only a put of the request's term. */
  predicate CountsAck(v: Variant, n: Node, from: NodeId, purpose: Purpose, term: int) {
    && purpose.ForPut? && purpose.id in n.puts && from in n.puts[purpose.id].waiting
    && (v.Repaired? ==> purpose.id.term == term)
  }

  /** One more ack for the put, and one peer less to wait for. */
  function PutsCounted(n: Node, from: NodeId, id: PutId): map<PutId, Put>
    requires id in n.puts
  {
    n.puts[id := Put(n.puts[id].count + 1, n.puts[id].waiting - {from})]
  }

  /** An AppendEntries thread gets its answer. Once repaired (R5) it moves the indices only in the request's term. */
  function OnAppendReply(v: Variant, n: Node, from: NodeId, next: int, len: int, purpose: Purpose,
                         req: AppendRequest, reply: AppendReply): Node
  {
    var moves := v.AsCoded? || req.term == n.currentTerm;
    if req.term < reply.term then n.(identity := FOLLOWER)
    else if !reply.success then
      if moves then WithIndices(n, from, next - 1, BackedOffMatch(v, next)) else n
    else
      var a := if moves then WithIndices(n, from, len, len - 1) else n;
      if CountsAck(v, a, from, purpose, req.term) then a.(puts := PutsCounted(a, from, purpose.id)) else a
  }

  /** `ReceivedMajority`: the leader is alone, or more than half of the cluster acked. */
  predicate ReceivedMajority(count: nat, size: nat) {
    size == 1 || count > size / 2
  }

  /** The end of `PutToDB`: commit up to the put's own entry and execute what was not yet applied. */
  function FinishPut(n: Node, id: PutId): Node {
    Execute(n.(commitIndex := id.len - 1, puts := n.puts - {id}), n.lastApplied + 1, id.len - 1)
  }

  /**
   Where a handler that accepts a request may crash: after the cut and some lines, or, with all lines written, after
   some of the commands it executes. `upto` is the last command executed; none was if it is below `lastApplied`.
   */
  predicate CrashPoint(v: Variant, n: Node, req: AppendRequest, lines: nat, upto: int) {
    && Accepts(n, req)
    && lines <= LinesToWrite(v, n.log, req.prevIndex + 1, req.entries)
    && (upto == n.lastApplied - 1 ||
        (lines == LinesToWrite(v, n.log, req.prevIndex + 1, req.entries)
         && AdvancesCommit(v, n, req) && n.lastApplied <= upto <= CommitLimit(v, req)))
  }

  /** The node after that crash and a restart: the file survives as it is, and so do the commands executed. */
  function Torn(v: Variant, n: Node, req: AppendRequest, lines: nat, upto: int): Node
    requires CrashPoint(v, n, req, lines, upto)
  {
    var inserted := InsertLog(v, n.log, req.prevIndex + 1, req.entries);
    Restarted(Recognise(v, n, req.term)).(
      log := TornLog(v, n.log, req.prevIndex + 1, req.entries, lines),
      store := Applied(n.store, inserted, n.lastApplied, upto))
  }

  /** A node that crashed while it executed the commands of a put that has its majority. */
  function HalfCommitted(n: Node, upto: int): Node {
    Restarted(n).(store := Applied(n.store, n.log, n.lastApplied + 1, upto))
  }

  // What each composite handler leaves alone

  lemma RecogniseEffect(v: Variant, n: Node, term: int)
    ensures var b := Recognise(v, n, term);
      && b == n.(currentTerm := b.currentTerm, identity := b.identity)
      && b.currentTerm == (if v.Repaired? && term > n.currentTerm then term else n.currentTerm)
      && b.identity != CANDIDATE
      && (b.identity == LEADER ==> n.identity == LEADER && b.currentTerm == n.currentTerm)
  {}

  lemma AdvanceEffect(n: Node, limit: int)
    ensures var b := AdvanceTo(n, limit);
      && b == n.(commitIndex := b.commitIndex, lastApplied := b.lastApplied, store := b.store)
      && b.commitIndex == (if limit > n.commitIndex then limit else n.commitIndex)
      && b.lastApplied == (if limit > n.commitIndex && n.lastApplied <= limit then limit else n.lastApplied)
  {}

  lemma AcceptEffect(v: Variant, n: Node, req: AppendRequest)
    ensures var a, b := Recognise(v, n, req.term), Accept(v, n, req);
      && b == a.(log := InsertLog(v, n.log, req.prevIndex + 1, req.entries),
                 commitIndex := b.commitIndex, lastApplied := b.lastApplied, store := b.store)
      && b.commitIndex == (if CommitLimit(v, req) > n.commitIndex then CommitLimit(v, req) else n.commitIndex)
      && (b.lastApplied == n.lastApplied ||
          (CommitLimit(v, req) > n.commitIndex && b.lastApplied == b.commitIndex))
  {
    var a := Recognise(v, n, req.term);
    RecogniseEffect(v, n, req.term);
    AdvanceEffect(a.(log := InsertLog(v, n.log, req.prevIndex + 1, req.entries)), CommitLimit(v, req));
  }

  lemma AppendReplyEffect(v: Variant, n: Node, from: NodeId, next: int, len: int, purpose: Purpose,
                          req: AppendRequest, reply: AppendReply)
    ensures var b := OnAppendReply(v, n, from, next, len, purpose, req, reply);
      && b == n.(identity := b.identity, nextIndex := b.nextIndex, matchIndex := b.matchIndex, puts := b.puts)
      && (b.identity == n.identity || b.identity == FOLLOWER)
  {}

  lemma ReqVoteEffect(n: Node, req: VoteRequest)
    ensures var (b, reply) := OnReqVote(n, req);
      && b == n.(currentTerm := b.currentTerm, identity := b.identity, votedFor := b.votedFor)
      && b.currentTerm == (if req.term > n.currentTerm then req.term else n.currentTerm)
      && b.identity == (if req.term > n.currentTerm then FOLLOWER else n.identity)
      && b.votedFor == (if Grants(n, req) then n.votedFor[req.term := req.candidate] else n.votedFor)
      && reply.granted == Grants(n, req)
  {}

  lemma VoteReplyEffect(n: Node, from: NodeId, req: VoteRequest, reply: VoteReply)
    ensures var b := OnVoteReply(n, from, req, reply);
      && b == n.(identity := b.identity, votesGained := b.votesGained, awaiting := b.awaiting)
      && (b.identity == n.identity || b.identity == FOLLOWER)
      && (if b.votesGained == n.votesGained then b.awaiting == n.awaiting else
          && reply.granted && from in n.awaiting && req.term == n.currentTerm
          && b.votesGained == n.votesGained + 1 && b.awaiting == n.awaiting - {from})
  {}

  lemma AppendEffect(v: Variant, n: Node, req: AppendRequest)
    ensures var (b, reply) := OnAppendEntries(v, n, req);
      && b == n.(currentTerm := b.currentTerm, identity := b.identity, log := b.log, store := b.store,
                 commitIndex := b.commitIndex, lastApplied := b.lastApplied)
      && b.currentTerm == (if v.Repaired? && req.term > n.currentTerm then req.term else n.currentTerm)
      && reply == AppendReply(b.currentTerm, Accepts(n, req))
      && b.log == (if Accepts(n, req) then InsertLog(v, n.log, req.prevIndex + 1, req.entries) else n.log)
      && (b.identity == CANDIDATE ==> b == n)
      && (b.identity == LEADER ==> n.identity == LEADER && b.currentTerm == n.currentTerm)
      && b.commitIndex == (if AdvancesCommit(v, n, req) then CommitLimit(v, req) else n.commitIndex)
      && (b.lastApplied == n.lastApplied || (AdvancesCommit(v, n, req) && b.lastApplied == b.commitIndex))
  {
    AcceptEffect(v, n, req);
    RecogniseEffect(v, n, req.term);
    hide Accept, Recognise;
    if req.term < n.currentTerm {
    } else if TermAt(n.log, req.prevIndex) != req.prevTerm {
    } else {
    }
  }

  lemma TornEffect(v: Variant, n: Node, req: AppendRequest, lines: nat, upto: int)
    requires CrashPoint(v, n, req, lines, upto)
    ensures var b := Torn(v, n, req, lines, upto);
      && b.currentTerm == (if v.Repaired? && req.term > n.currentTerm then req.term else n.currentTerm)
      && b.votedFor == n.votedFor && b.puts == map[]
      && b.identity == FOLLOWER && b.commitIndex == 0 && b.lastApplied == 0
      && b.log == TornLog(v, n.log, req.prevIndex + 1, req.entries, lines)
      && b.store == Applied(n.store, InsertLog(v, n.log, req.prevIndex + 1, req.entries), n.lastApplied, upto)
  {
    hide TornLog, LinesToWrite, InsertLog, Applied, CrashPoint;
  }

  /** The repaired insertion skips what is kept and replaces everything behind it by the rest, if there is a rest. */
  lemma {:induction false} InsertAfterKept(log: seq<Entry>, start: int, es: seq<Entry>)
    ensures var k := Kept(log, start, es);
      InsertRepaired(log, start, es) ==
        if start < 0 || start > |log| || k == |es| then log else log[..start + k] + es[k..]
    decreases |es|
  {
    if 0 <= start < |log| && es != [] && log[start].term == es[0].term {
      InsertAfterKept(log, start + 1, es[1..]);
    }
  }

  /** With all its lines written, a repaired insertion is complete. */
  lemma TornWhole(log: seq<Entry>, start: int, es: seq<Entry>)
    ensures TornLog(Repaired, log, start, es, LinesToWrite(Repaired, log, start, es)) == InsertRepaired(log, start, es)
  {
    InsertAfterKept(log, start, es);
    hide InsertRepaired, Kept;
  }

  lemma FinishEffect(n: Node, id: PutId)
    ensures var b := FinishPut(n, id);
      && b == n.(commitIndex := id.len - 1, puts := n.puts - {id}, store := b.store, lastApplied := b.lastApplied)
      && (b.lastApplied == n.lastApplied || b.lastApplied == id.len - 1)
  {}

  /** An answer counts for at most one put, and only once per peer. */
  lemma AnswerPuts(v: Variant, n: Node, from: NodeId, next: int, len: int, purpose: Purpose,
                   req: AppendRequest, reply: AppendReply)
    ensures var b := OnAppendReply(v, n, from, next, len, purpose, req, reply);
      b.puts == n.puts ||
      (reply.success && CountsAck(v, n, from, purpose, req.term) && b.puts == PutsCounted(n, from, purpose.id))
  {}

  /** What accepting a request executes: from the last applied index up to the new commit index, if that moved. */
  lemma AcceptExecutes(v: Variant, n: Node, req: AppendRequest)
    requires Accepts(n, req)
    ensures var b := OnAppendEntries(v, n, req).0;
      if CommitLimit(v, req) > n.commitIndex then
        && b.store == Applied(n.store, b.log, n.lastApplied, CommitLimit(v, req))
        && b.lastApplied == (if n.lastApplied <= CommitLimit(v, req) then CommitLimit(v, req) else n.lastApplied)
      else b.store == n.store && b.lastApplied == n.lastApplied
  {
    RecogniseEffect(v, n, req.term);
    hide Recognise, InsertLog, CommitLimit, Applied;
  }
}
