/** One node's server (`RaftServer` and `PutToDB`): each method does to the mutable state what `RaftNode` specifies. */
module RaftServerNode {
  import opened RaftTypes
  import opened ApplyLog
  import opened RaftNode
  import opened HandlerLaws
  import opened LeaderPointer
  import opened LogMatching
  import opened Text
  import opened ReplicatedLogFile
  import opened TermVoteFile
  import opened StateStore
  import opened Backtracking

  class RaftServer {
    const ip: NodeId
    const state: StateHelper
    var store: Store
    var votesGained: nat
    var awaiting: set<NodeId>
    var puts: map<PutId, Put>

    /** Starts serving over recovered state and a surviving store. */
    constructor (ip: NodeId, state: StateHelper, store: Store)
      ensures this.ip == ip && this.state == state && this.store == store
      ensures votesGained == 0 && awaiting == {} && puts == map[]
    {
      this.ip, this.state, this.store := ip, state, store;
      votesGained, awaiting, puts := 0, {}, map[];
    }

    /** The two servers share nothing. */
    predicate Apart(other: RaftServer) {
      && this != other && state.pVotes != other.state.pVotes && state.vVotes != other.state.vVotes
      && state.pLog != other.state.pLog && state.vLog != other.state.vLog && state.vState != other.state.vState
    }

    /** The node this server is. */
    function Abs(): Node
      reads this, state.vVotes, state.vLog, state.vState
    {
      var m := state.vState;
      Node(state.vVotes.currentTerm, state.vVotes.votedFor, state.Log(), store,
           m.identity, m.commitIndex, m.lastAppliedIndex, m.nextIndex, m.matchIndex, votesGained, awaiting, puts)
    }

    /** A crash now loses nothing that must last. */
    predicate Durable()
      reads state.pVotes, state.vVotes, state.pLog, state.vLog
    {
      Plain(ip) && ip != "" && state.LogDurable() && state.VotesDurable()
    }

    // Starting

    /** A node that never ran before: both files are empty and so is its store. */
    static method FirstStart(ip: NodeId) returns (server: RaftServer)
      requires Plain(ip) && ip != ""
      ensures fresh(server) && server.ip == ip && server.Abs() == FreshNode() && server.Durable()
      ensures var n := server.Abs();
        && n.currentTerm == 0 && n.votedFor == map[] && n.log == [SENTINEL] && n.store == map[]
        && n.identity == FOLLOWER && n.commitIndex == 0 && n.lastApplied == 0
    {
      hide Records, Image;
      var state := new StateHelper("", "");
      TermVoteFile.ParseEmpty();
      ReplicatedLogFile.ParseEmpty();
      var ok := state.Init();
      server := new RaftServer(ip, state, map[]);
    }

    /** A crash and a restart: the files and the store survive, the rest is rebuilt or forgotten. */
    static method Restart(before: RaftServer) returns (server: RaftServer)
      requires before.Durable() && before.Abs().log != []
      ensures fresh(server) && server.ip == before.ip
      ensures server.Abs() == Restarted(before.Abs()) && server.Durable()
      ensures var n, b := before.Abs(), server.Abs();
        && b.currentTerm == n.currentTerm && b.votedFor == n.votedFor && b.log == n.log && b.store == n.store
        && b.identity == FOLLOWER && b.commitIndex == 0 && b.lastApplied == 0
        && b.nextIndex == map[] && b.matchIndex == map[] && b.votesGained == 0 && b.awaiting == {} && b.puts == map[]
    {
      hide Entries, StateHelper.VotesDurable, StateHelper.LogDurable;
      var state, ok := StateHelper.Restart(before.state);
      server := new RaftServer(before.ip, state, before.store);
    }

    /**
     A crash inside the repaired insertion of a request, after its cut and that many whole lines: `logFile` is what
     it had written by then, and a newer term was recorded before.
     */
    static method CrashInInsert(before: RaftServer, req: AppendRequest, lines: nat, logFile: string)
      returns (server: RaftServer)
      requires before.Durable() && PlainEntries(req.entries) && req.prevIndex >= 0 && before.Abs().log != []
      requires CrashPoint(Repaired, before.Abs(), req, lines, before.Abs().lastApplied - 1)
      requires logFile == Image(TornLog(Repaired, before.Abs().log, req.prevIndex + 1, req.entries, lines))
      modifies before.state.pVotes, before.state.vVotes, before.state.vState`identity
      ensures fresh(server) && server.ip == before.ip && server.Durable()
      ensures server.Abs() == Torn(Repaired, old(before.Abs()), req, lines, old(before.Abs()).lastApplied - 1)
    {
      hide Entries, Image, ParseVotes, Replay, LinesToWrite, InsertLog;
      ghost var n := before.Abs();
      ghost var torn := TornLog(Repaired, n.log, req.prevIndex + 1, req.entries, lines);
      PlainTorn(n.log, req.prevIndex + 1, req.entries, lines);
      RecogniseEffect(Repaired, n, req.term);
      before.RecogniseTerm(Repaired, req.term);
      hide Recognise, TornLog, StateHelper.LogDurable, CrashPoint;
      var state := StateHelper.Recover(before.state.pVotes.file, logFile, torn);
      server := new RaftServer(before.ip, state, before.store);
    }

    /** A crash while a request's commands are executed: all its lines are written, the commands up to `upto` done. */
    static method CrashInExecution(before: RaftServer, req: AppendRequest, upto: int) returns (server: RaftServer)
      requires before.Durable() && PlainEntries(req.entries) && req.prevIndex >= 0 && before.Abs().log != []
      requires upto >= before.Abs().lastApplied
      requires var n := before.Abs();
        CrashPoint(Repaired, n, req, LinesToWrite(Repaired, n.log, req.prevIndex + 1, req.entries), upto)
      modifies before`store, before.state.pVotes, before.state.vVotes, before.state.pLog, before.state.vLog,
        before.state.vState
      ensures fresh(server) && server.ip == before.ip && server.Durable()
      ensures var n := old(before.Abs());
        server.Abs() == Torn(Repaired, n, req, LinesToWrite(Repaired, n.log, req.prevIndex + 1, req.entries), upto)
    {
      hide Entries, LinesToWrite, Applied, Image, StateHelper.VotesDurable;
      ghost var n := before.Abs();
      ghost var lines := LinesToWrite(Repaired, n.log, req.prevIndex + 1, req.entries);
      PlainTorn(n.log, req.prevIndex + 1, req.entries, lines);
      TornWhole(n.log, req.prevIndex + 1, req.entries);
      RecogniseEffect(Repaired, n, req.term);
      hide Recognise, TornLog, CrashPoint, InsertRepaired, StateHelper.LogDurable;
      before.RecogniseTerm(Repaired, req.term);
      before.InsertEntries(Repaired, req.prevIndex + 1, req.entries);
      before.ExecuteCommands(before.state.vState.lastAppliedIndex, upto);
      server := Restart(before);
    }

    /** A crash while `PutToDB` executes its commands, those up to `upto` done. */
    static method CrashInCommit(before: RaftServer, upto: int) returns (server: RaftServer)
      requires before.Durable() && before.Abs().log != []
      modifies before`store, before.state.vState
      ensures fresh(server) && server.ip == before.ip && server.Durable()
      ensures server.Abs() == HalfCommitted(old(before.Abs()), upto)
    {
      hide Entries, Applied, StateHelper.VotesDurable, StateHelper.LogDurable;
      before.ExecuteCommands(before.state.vState.lastAppliedIndex + 1, upto);
      server := Restart(before);
    }

    // Elections

    /** The election timer fires: any node that does not lead becomes a candidate. */
    method AlarmCallback(peers: set<NodeId>)
      requires Durable()
      modifies this, state.pVotes, state.vVotes, state.vState
      ensures old(state.vState.identity) == LEADER ==> Abs() == old(Abs())
      ensures old(state.vState.identity) != LEADER ==>
        Abs() == StartElection(old(Abs()), ip, peers) && state.vState.identity == CANDIDATE
      ensures Durable()
    {
      if state.vState.identity != LEADER {
        RunForElection(peers);
      }
    }

    /** `becomeCandidate` and the start of `runForElection`. */
    method RunForElection(peers: set<NodeId>)
      requires Durable()
      modifies this, state.pVotes, state.vVotes, state.vState
      ensures Abs() == StartElection(old(Abs()), ip, peers)
      ensures state.vVotes.currentTerm == old(state.vVotes.currentTerm) + 1
      ensures state.vState.identity == CANDIDATE && votesGained == 1 && awaiting == peers - {ip}
      ensures var votes, term := old(state.vVotes.votedFor), state.vVotes.currentTerm;
        state.vVotes.votedFor == if term in votes then votes else votes[term := ip]
      ensures Durable()
    {
      hide StateHelper.VotesDurable, StateHelper.LogDurable, Entries;
      state.vState.identity := CANDIDATE;
      var ok := state.AddCurrentTerm(state.vVotes.currentTerm + 1);
      votesGained := 1;
      state.AddVotedFor(state.vVotes.currentTerm, ip);
      awaiting := peers - {ip};
    }

    /** What `requestVote` asks. */
    method PrepareVoteRequest() returns (req: VoteRequest)
      ensures req == VoteRequestOf(Abs(), ip)
      ensures req.term == state.vVotes.currentTerm && req.candidate == ip && req.lastIndex == |state.vLog.log| - 1
      ensures req.lastTerm ==
        if state.vLog.log == [] then 0 else state.vLog.log[|state.vLog.log| - 1].entry.term
    {
      var lastIndex := state.vLog.GetLength() - 1;
      req := VoteRequest(state.vVotes.currentTerm, ip, lastIndex, state.vLog.GetTerm(lastIndex));
    }

    method ReqVote(req: VoteRequest) returns (reply: VoteReply)
      requires Durable() && Plain(req.candidate) && req.candidate != ""
      modifies state.pVotes, state.vVotes, state.vState
      ensures (Abs(), reply) == OnReqVote(old(Abs()), req)
      ensures var log, votes, term := state.vLog.log, old(state.vVotes.votedFor), old(state.vVotes.currentTerm);
        var lastTerm := if log == [] then 0 else log[|log| - 1].entry.term;
        reply.granted <==>
          && req.term >= term && req.term !in votes
          && (req.lastTerm > lastTerm || (req.lastTerm == lastTerm && req.lastIndex >= |log| - 1))
      ensures reply.term == state.vVotes.currentTerm ==
        if req.term > old(state.vVotes.currentTerm) then req.term else old(state.vVotes.currentTerm)
      ensures state.vState.identity ==
        if req.term > old(state.vVotes.currentTerm) then FOLLOWER else old(state.vState.identity)
      ensures state.vVotes.votedFor ==
        if reply.granted then old(state.vVotes.votedFor)[req.term := req.candidate] else old(state.vVotes.votedFor)
      ensures Durable()
    {
      hide StateHelper.VotesDurable, StateHelper.LogDurable, Entries, Plain;
      VotesAreNamed();
      var myCurrentTerm := state.vVotes.currentTerm;
      var myLastLogIndex := state.vLog.GetLength() - 1;
      if req.term < myCurrentTerm {
        return VoteReply(myCurrentTerm, false);
      }
      if req.term > state.vVotes.currentTerm {
        var ok := state.AddCurrentTerm(req.term);
        myCurrentTerm := state.vVotes.currentTerm;
        BecomeFollower();
      }
      if state.vVotes.GetVotedFor(req.term) != "" {
        return VoteReply(myCurrentTerm, false);
      }
      if req.lastTerm > state.vLog.GetTerm(myLastLogIndex) {
        state.AddVotedFor(req.term, req.candidate);
        return VoteReply(myCurrentTerm, true);
      } else if req.lastTerm == state.vLog.GetTerm(myLastLogIndex) && req.lastIndex >= myLastLogIndex {
        state.AddVotedFor(req.term, req.candidate);
        return VoteReply(myCurrentTerm, true);
      }
      reply := VoteReply(myCurrentTerm, false);
    }

    /** No recorded vote is empty, so the empty answer of `GetVotedFor` means no vote. */
    lemma VotesAreNamed()
      requires state.VotesDurable()
      ensures forall t | t in state.vVotes.votedFor :: state.vVotes.votedFor[t] != ""
    {
      ReplayNames(ParseVotes(state.pVotes.file));
    }

    method BecomeFollower()
      modifies state.vState`identity
      ensures state.vState.identity == FOLLOWER
    {
      state.vState.identity := FOLLOWER;
    }

    /** The rest of `requestVote` and of its thread, once the answer is there. */
    method UseVoteReply(from: NodeId, req: VoteRequest, reply: VoteReply)
      modifies this, state.vState
      ensures Abs() == OnVoteReply(old(Abs()), from, req, reply)
      ensures state.vState.identity ==
        if !reply.granted && reply.term > state.vVotes.currentTerm then FOLLOWER else old(state.vState.identity)
      ensures var counts := reply.granted && from in old(awaiting) && req.term == state.vVotes.currentTerm;
        && votesGained == (if counts then old(votesGained) + 1 else old(votesGained))
        && awaiting == (if counts then old(awaiting) - {from} else old(awaiting))
    {
      hide Entries;
      if reply.granted {
        if from in awaiting && req.term == state.vVotes.currentTerm {
          votesGained := votesGained + 1;
          awaiting := awaiting - {from};
        }
      } else if reply.term > state.vVotes.currentTerm {
        BecomeFollower();
      }
    }

    /** The end of `runForElection`. A winner becomes leader and announces its term and address to the load balancer. */
    method FinishElection(peers: set<NodeId>) returns (won: bool, ann: Announcement)
      modifies state.vState
      ensures won == WinsElection(old(Abs()), |peers|)
      ensures won <==> 2 * votesGained > |peers| && old(state.vState.identity) == CANDIDATE
      ensures won ==> state.vState.identity == LEADER && forall p | p in peers ::
        && p in state.vState.nextIndex && state.vState.nextIndex[p] == |state.vLog.log|
        && p in state.vState.matchIndex && state.vState.matchIndex[p] == |state.vLog.log| - 1
      ensures !won ==> state.vState.identity == old(state.vState.identity)
      ensures Abs() == if won then BecomeLeader(old(Abs()), peers) else old(Abs())
      ensures won ==> ann == Announcement(old(Abs()).currentTerm, ip)
    {
      hide Entries;
      won := votesGained > |peers| / 2 && state.vState.identity == CANDIDATE;
      ann := Announcement(state.vVotes.currentTerm, ip);
      if won {
        state.vState.identity := LEADER;
        SetNextIndexToLeaderLastIndex(peers);
        SetMatchIndexToLeaderLastIndex(peers);
      }
    }

    method SetNextIndexToLeaderLastIndex(peers: set<NodeId>)
      modifies state.vState`nextIndex
      ensures state.vState.nextIndex == old(state.vState.nextIndex) + map p | p in peers :: |state.vLog.log|
    {
      var rest := peers;
      while rest != {}
        invariant rest <= peers
        invariant state.vState.nextIndex ==
          old(state.vState.nextIndex) + map p | p in peers - rest :: |state.vLog.log|
      {
        var p :| p in rest;
        state.vState.SetNextIndex(p, state.vLog.GetLength());
        rest := rest - {p};
      }
    }

    method SetMatchIndexToLeaderLastIndex(peers: set<NodeId>)
      modifies state.vState`matchIndex
      ensures state.vState.matchIndex == old(state.vState.matchIndex) + map p | p in peers :: |state.vLog.log| - 1
    {
      var rest := peers;
      while rest != {}
        invariant rest <= peers
        invariant state.vState.matchIndex ==
          old(state.vState.matchIndex) + map p | p in peers - rest :: |state.vLog.log| - 1
      {
        var p :| p in rest;
        state.vState.SetMatchIndex(p, state.vLog.GetLength() - 1);
        rest := rest - {p};
      }
    }

    // Puts

    /** `PutToDB` up to its broadcast; the result is the length captured for it. */
    method StartPut(peers: set<NodeId>, key: string, value: string) returns (len: nat)
      requires Durable() && Plain(key) && Plain(value)
      modifies this, state.pLog, state.vLog
      ensures Abs() == AppendPut(old(Abs()), ip, peers, key, value) && len == |Abs().log|
      ensures state.Log() == old(state.Log()) + [Entry(state.vVotes.currentTerm, key, value)]
      ensures puts == old(puts)[PutId(state.vVotes.currentTerm, |state.vLog.log|) := Put(1, peers - {ip})]
      ensures Durable()
    {
      hide StateHelper.VotesDurable, StateHelper.LogDurable, Image, CreateLogEntry, Entries;
      state.Append(Entry(state.vVotes.currentTerm, key, value));
      len := state.vLog.GetLength();
      puts := puts[PutId(state.vVotes.currentTerm, len) := Put(1, peers - {ip})];
    }

    /** `PutToDB` after its majority. */
    method CommitPut(id: PutId)
      modifies this, state.vState
      ensures Abs() == FinishPut(old(Abs()), id)
      ensures state.vState.commitIndex == id.len - 1 && puts == old(puts) - {id}
      ensures var applied := old(state.vState.lastAppliedIndex);
        && state.vState.lastAppliedIndex == (if applied < id.len - 1 then id.len - 1 else applied)
        && (applied >= -1 ==> StoreAfter(old(store), state.Log(), applied + 1, id.len - 1, store))
      ensures -1 <= old(state.vState.lastAppliedIndex) < id.len - 1 < |state.vLog.log| ==>
        var e := state.vLog.log[id.len - 1].entry; e.key in store && store[e.key] == e.value
    {
      hide Entries, Applied, StoreAfter;
      if state.vState.lastAppliedIndex >= -1 { CommitLaw(Abs(), id); }
      state.vState.commitIndex := id.len - 1;
      puts := puts - {id};
      ExecuteCommands(state.vState.lastAppliedIndex + 1, state.vState.commitIndex);
    }

    /** Puts every command of the window into the store, in order; the applied index follows. */
    method ExecuteCommands(start: int, end: int)
      modifies this`store, state.vState`lastAppliedIndex
      ensures store == Applied(old(store), state.Log(), start, end)
      ensures state.vState.lastAppliedIndex == if start <= end then end else old(state.vState.lastAppliedIndex)
    {
      hide Entries;
      var i := start;
      while i <= end
        invariant start <= i && (i <= end + 1 || i == start)
        invariant store == Applied(old(store), state.Log(), start, i - 1)
        invariant state.vState.lastAppliedIndex == if start < i then i - 1 else old(state.vState.lastAppliedIndex)
      {
        store := store[state.vLog.GetKey(i) := state.vLog.GetValue(i)];
        state.vState.lastAppliedIndex := i;
        i := i + 1;
      }
    }

    // Replication

    /** The entries of `next..len`, read one by one. */
    method CollectEntries(next: int, len: int) returns (es: seq<Entry>)
      ensures es == EntriesBetween(state.Log(), next, len)
    {
      hide Entries, EntriesBetween, TermAt, KeyAt, ValueAt;
      es := [];
      var i := next;
      while i < len
        invariant es + EntriesBetween(state.Log(), i, len) == EntriesBetween(state.Log(), next, len)
      {
        FirstBetween(state.Log(), i, len);
        es := es + [Entry(state.vLog.GetTerm(i), state.vLog.GetKey(i), state.vLog.GetValue(i))];
        i := i + 1;
      }
      NoneBetween(state.Log(), i, len);
    }

    /** The request for a peer; `ok` is false where asking for an unknown peer throws. */
    method PrepareRequest(v: Variant, peer: NodeId, next: int, len: int) returns (ok: bool, req: AppendRequest)
      ensures ok <==> v.Repaired? || peer in state.vState.matchIndex
      ensures ok ==> req == PrepareAppend(v, Abs(), ip, peer, next, len)
      ensures ok ==> req.term == state.vVotes.currentTerm && req.leader == ip
      ensures ok ==> req.leaderCommit == state.vState.commitIndex
      ensures ok ==> req.prevIndex == if v.AsCoded? then state.vState.matchIndex[peer] else next - 1
      ensures ok ==> req.prevTerm == TermHeld(req.prevIndex)
      ensures ok ==> |req.entries| == if next < len then len - next else 0
      ensures ok ==> forall i | 0 <= i < |req.entries| :: req.entries[i] == EntryHeld(next + i)
    {
      hide Entries, EntriesBetween, TermAt, KeyAt, ValueAt;
      var prev := next - 1;
      ok := true;
      if v.AsCoded? {
        ok, prev := state.vState.GetMatchIndex(peer);
      }
      var es := CollectEntries(next, len);
      req := AppendRequest(state.vVotes.currentTerm, ip, prev, state.vLog.GetTerm(prev), es, state.vState.commitIndex);
      if ok { RequestLaw(v, Abs(), ip, peer, next, len); }
    }

    /** The term the in-memory log holds at an index, 0 where it holds none. */
    function TermHeld(i: int): (term: int)
      reads state.vLog
      ensures term == TermAt(state.Log(), i)
    {
      if 0 <= i < |state.vLog.log| then state.vLog.log[i].entry.term else 0
    }

    function EntryHeld(i: int): Entry
      reads state.vLog
    {
      if 0 <= i < |state.vLog.log| then state.vLog.log[i].entry else Entry(0, "", "")
    }

    /** What a request that is not stale does to term and identity. */
    method RecogniseTerm(v: Variant, term: int)
      requires Durable()
      modifies state.pVotes, state.vVotes, state.vState`identity
      ensures Abs() == Recognise(v, old(Abs()), term) && Durable()
    {
      hide StateHelper.VotesDurable, StateHelper.LogDurable, Entries;
      if v.Repaired? && term > state.vVotes.currentTerm {
        var ok := state.AddCurrentTerm(term);
        BecomeFollower();
      }
      if state.vState.identity == CANDIDATE {
        BecomeFollower();
      }
    }

    /** `Insert`, as coded with P1 or repaired. */
    method InsertEntries(v: Variant, start: int, es: seq<Entry>)
      requires Durable() && PlainEntries(es)
      modifies state.pLog, state.vLog
      ensures Abs() == old(Abs()).(log := InsertLog(v, old(Abs()).log, start, es))
      ensures v.Repaired? ==> Durable()
      ensures v.AsCoded? ==> (Durable() <==> !(0 <= start && start + |es| < |old(Abs()).log|))
    {
      hide StateHelper.VotesDurable, StateHelper.LogDurable, Image, Entries, Plain, PlainEntry, InsertCoded,
        InsertRepaired;
      if v.AsCoded? {
        var ok, _ := state.Insert(start, es);
      } else {
        var _ := state.InsertAgreeing(start, es);
      }
    }

    /** A commit index from the leader counts only if it moves this node forward. */
    method AdvanceCommit(limit: int)
      modifies this`store, state.vState
      ensures Abs() == AdvanceTo(old(Abs()), limit)
    {
      hide Entries, Applied;
      if limit > state.vState.commitIndex {
        state.vState.commitIndex := limit;
        ExecuteCommands(state.vState.lastAppliedIndex, limit);
      }
    }

    /** The body of `AppendEntries`. */
    method ReceiveEntries(v: Variant, req: AppendRequest) returns (reply: AppendReply)
      requires Durable() && PlainEntries(req.entries)
      modifies this`store, state.pVotes, state.vVotes, state.pLog, state.vLog, state.vState
      ensures (Abs(), reply) == OnAppendEntries(v, old(Abs()), req)
      ensures v.Repaired? || !reply.success ==> Durable()
      ensures v.AsCoded? && reply.success ==>
        (Durable() <==> !(0 <= req.prevIndex + 1 && req.prevIndex + 1 + |req.entries| < |old(Abs()).log|))
    {
      ghost var n := Abs();
      RecogniseEffect(v, n, req.term);
      hide Durable, Recognise, AdvanceTo, InsertLog, CommitLimit, Entries, PlainEntries;
      if req.term < state.vVotes.currentTerm {
        return AppendReply(state.vVotes.currentTerm, false);
      }
      RecogniseTerm(v, req.term);
      var myTerm := state.vVotes.currentTerm;
      if state.vLog.GetTerm(req.prevIndex) != req.prevTerm {
        return AppendReply(myTerm, false);
      }
      InsertEntries(v, req.prevIndex + 1, req.entries);
      AdvanceCommit(CommitLimit(v, req));
      reply := AppendReply(myTerm, true);
    }

    method AppendEntries(v: Variant, req: AppendRequest) returns (reply: AppendReply)
      requires Durable() && PlainEntries(req.entries)
      modifies this`store, state.pVotes, state.vVotes, state.pLog, state.vLog, state.vState
      ensures (Abs(), reply) == OnAppendEntries(v, old(Abs()), req)
      ensures var log, prev, term := old(state.vLog.log), req.prevIndex, old(state.vVotes.currentTerm);
        && (reply.success <==>
              req.term >= term && req.prevTerm == if 0 <= prev < |log| then log[prev].entry.term else 0)
        && reply.term == state.vVotes.currentTerm == (if v.Repaired? && req.term > term then req.term else term)
      ensures var was, term := old(state.vState.identity), old(state.vVotes.currentTerm);
        state.vState.identity ==
          if (v.Repaired? && req.term > term) || (req.term >= term && was == CANDIDATE) then FOLLOWER else was
      ensures var was, covered := old(state.vState.commitIndex), req.prevIndex + |req.entries|;
        var limit := if v.AsCoded? || req.leaderCommit <= covered then req.leaderCommit else covered;
        state.vState.commitIndex == if reply.success && limit > was then limit else was
      ensures var was, commit := old(state.vState.lastAppliedIndex), state.vState.commitIndex;
        var moved := commit > old(state.vState.commitIndex);
        && state.vState.lastAppliedIndex == (if moved && was <= commit then commit else was)
        && (moved && was >= 0 ==> StoreAfter(old(store), state.Log(), was, commit, store))
        && (!moved ==> store == old(store))
      ensures v.Repaired? || !reply.success ==> Durable()
      ensures v.AsCoded? && reply.success ==>
        (Durable() <==> !(0 <= req.prevIndex + 1 && req.prevIndex + 1 + |req.entries| < |old(Abs()).log|))
    {
      ghost var n := Abs();
      AppendAnswerLaw(v, n, req);
      AppendStoreLaw(v, n, req);
      hide Durable, Entries, PlainEntries, StoreAfter, OnAppendEntries;
      reply := ReceiveEntries(v, req);
    }

    /** What a thread of `invokeAppendEntries` does with one answer. */
    method UseAppendReply(v: Variant, from: NodeId, next: int, len: int, purpose: Purpose,
                          req: AppendRequest, reply: AppendReply)
      modifies this`puts, state.vState
      ensures Abs() == OnAppendReply(v, old(Abs()), from, next, len, purpose, req, reply)
      ensures state.vState.identity == if reply.term > req.term then FOLLOWER else old(state.vState.identity)
      ensures var m, was := state.vState, old(state.vState.nextIndex);
        var moves := req.term >= reply.term && (v.AsCoded? || req.term == state.vVotes.currentTerm);
        && m.nextIndex == (if !moves then was else was[from := if reply.success then len else next - 1])
        && m.matchIndex == (if !moves then old(m.matchIndex)
                            else old(m.matchIndex)[from := if reply.success then len - 1
                                                           else if v.AsCoded? then -1 else next - 2])
      ensures var was := old(puts);
        var counts := req.term >= reply.term && reply.success && purpose.ForPut? && purpose.id in was
          && from in was[purpose.id].waiting && (v.AsCoded? || purpose.id.term == req.term);
        puts == if !counts then was
                else was[purpose.id := Put(was[purpose.id].count + 1, was[purpose.id].waiting - {from})]
    {
      hide Entries;
      var moves := v.AsCoded? || req.term == state.vVotes.currentTerm;
      if req.term >= reply.term && !reply.success {
        if moves {
          state.vState.SetNextIndex(from, next - 1);
          state.vState.SetMatchIndex(from, BackedOffMatch(v, next));
        }
      } else if req.term < reply.term {
        BecomeFollower();
      } else {
        if moves {
          state.vState.SetMatchIndex(from, len - 1);
          state.vState.SetNextIndex(from, len);
        }
        if purpose.ForPut? && purpose.id in puts && from in puts[purpose.id].waiting &&
           (v.AsCoded? || purpose.id.term == req.term)
        {
          puts := puts[purpose.id := Put(puts[purpose.id].count + 1, puts[purpose.id].waiting - {from})];
        }
      }
    }

    /** The follower handles a request and this leader its answer. */
    method Exchange(v: Variant, follower: RaftServer, next: int, len: int, purpose: Purpose, req: AppendRequest)
      returns (reply: AppendReply)
      requires Durable() && follower.Durable() && Apart(follower) && PlainEntries(req.entries)
      modifies this`puts, state.vState, follower`store, follower.state.pVotes, follower.state.vVotes,
        follower.state.pLog, follower.state.vLog, follower.state.vState
      ensures (follower.Abs(), reply) == OnAppendEntries(v, old(follower.Abs()), req)
      ensures Abs() == OnAppendReply(v, old(Abs()), follower.ip, next, len, purpose, req, reply)
      ensures Durable() && (v.Repaired? || !reply.success ==> follower.Durable())
    {
      hide Abs, Durable, PlainEntries, OnAppendEntries, OnAppendReply;
      reply := follower.AppendEntries(v, req);
      UseAppendReply(v, follower.ip, next, len, purpose, req, reply);
    }

    /** One round of the retry loop: prepare the request, then exchange it. */
    method TryAppend(v: Variant, follower: RaftServer, next: int, len: int, purpose: Purpose)
      returns (reply: AppendReply)
      requires Durable() && follower.Durable() && Apart(follower)
      requires v.AsCoded? ==> follower.ip in state.vState.matchIndex
      modifies this`puts, state.vState, follower`store, follower.state.pVotes, follower.state.vVotes,
        follower.state.pLog, follower.state.vLog, follower.state.vState
      ensures var req := PrepareAppend(v, old(Abs()), ip, follower.ip, next, len);
        && (follower.Abs(), reply) == OnAppendEntries(v, old(follower.Abs()), req)
        && Abs() == OnAppendReply(v, old(Abs()), follower.ip, next, len, purpose, req, reply)
      ensures Durable() && (v.Repaired? || !reply.success ==> follower.Durable())
    {
      assert PlainEntries(state.Log());
      PlainBetween(state.Log(), next, len);
      hide Durable, Apart, PlainEntries, OnAppendEntries, OnAppendReply, EntriesBetween, Entries;
      var _, req := PrepareRequest(v, follower.ip, next, len);
      hide Abs;
      reply := Exchange(v, follower, next, len, purpose, req);
    }

    /** How far the retry loop that started from `a` and `f` has come: another attempt is due, or it is over. */
    ghost predicate Underway(v: Variant, follower: RaftServer, len: int, purpose: Purpose, a: Node, f: Node,
                             next: int, rejections: nat, again: bool, acked: bool)
      requires follower.ip in a.nextIndex && follower.ip in a.matchIndex
      reads this, state.pVotes, state.vVotes, state.pLog, state.vLog, state.vState, follower, follower.state.pVotes,
        follower.state.vVotes, follower.state.pLog, follower.state.vLog, follower.state.vState
    {
      && Durable() && (again || v.Repaired? || !acked ==> follower.Durable())
      && if again then Retrying(v, a, f, Abs(), follower.Abs(), follower.ip, next, rejections)
         else Finished(v, a, f, Abs(), follower.Abs(), follower.ip, len, purpose, rejections, acked)
    }

    /** After a round with that answer, the loop goes on or is over, as the answer says. */
    lemma RoundConcludes(v: Variant, follower: RaftServer, len: int, purpose: Purpose, a: Node, f: Node,
                         next: int, rejections: nat, reply: AppendReply)
      requires follower.ip in a.nextIndex && follower.ip in a.matchIndex
      requires RoundDone(v, a, f, Abs(), follower.Abs(), follower.ip, next, len, purpose, rejections, reply)
      requires Durable() && (v.Repaired? || !reply.success ==> follower.Durable())
      ensures var again := !reply.success && state.vVotes.currentTerm >= reply.term;
        Underway(v, follower, len, purpose, a, f, if again then NextTried(v, next) else next,
                 if again then rejections + 1 else rejections, again, reply.success)
    {
      hide Retrying, Finished, Durable, NextTried, Entries;
    }

    /** Before a round: what the loop needs to make it, and what its outcome will mean. */
    lemma RoundBegins(v: Variant, follower: RaftServer, len: int, purpose: Purpose, tl: LeaderLogs, a: Node, f: Node,
                      next: int, rejections: nat)
      requires Ready(v, tl, a, f, follower.ip, len)
      requires Underway(v, follower, len, purpose, a, f, next, rejections, true, false)
      ensures Durable() && follower.Durable() && follower.ip in state.vState.matchIndex
      ensures if v.Repaired? then 1 <= next else rejections <= 1
      ensures var req := PrepareAppend(v, Abs(), ip, follower.ip, next, len);
        var (g, reply) := OnAppendEntries(v, follower.Abs(), req);
        var b := OnAppendReply(v, Abs(), follower.ip, next, len, purpose, req, reply);
        RoundDone(v, a, f, b, g, follower.ip, next, len, purpose, rejections, reply)
    {
      assert follower.ip in a.nextIndex && follower.ip in a.matchIndex;
      hide Ready, Retrying, RoundDone, Durable, OnAppendEntries, OnAppendReply, PrepareAppend, Entries;
      RetryingFacts(v, a, f, Abs(), follower.Abs(), follower.ip, next, rejections);
      Round(v, tl, ip, a, f, Abs(), follower.Abs(), follower.ip, next, len, purpose, rejections);
    }

    /** One round of the retry loop. */
    method RetryOnce(v: Variant, follower: RaftServer, len: int, purpose: Purpose, ghost tl: LeaderLogs,
                     ghost a: Node, ghost f: Node, next: int, rejections: nat)
      returns (again: bool, acked: bool, next': int, rejections': nat)
      requires Apart(follower) && Ready(v, tl, a, f, follower.ip, len)
      requires Underway(v, follower, len, purpose, a, f, next, rejections, true, false)
      modifies this`puts, state.vState, follower`store, follower.state.pVotes, follower.state.vVotes,
        follower.state.pLog, follower.state.vLog, follower.state.vState
      ensures Underway(v, follower, len, purpose, a, f, next', rejections', again, acked)
      ensures if v.Repaired? then 1 <= next else rejections <= 1
      ensures again ==> !acked && rejections' == rejections + 1 && (v.Repaired? ==> next' < next)
    {
      assert follower.ip in a.nextIndex && follower.ip in a.matchIndex;
      hide Abs, Ready, RoundDone, Underway, Durable, Apart, OnAppendEntries, OnAppendReply, PrepareAppend;
      RoundBegins(v, follower, len, purpose, tl, a, f, next, rejections);
      var reply := TryAppend(v, follower, next, len, purpose);
      RoundConcludes(v, follower, len, purpose, a, f, next, rejections, reply);
      acked := reply.success;
      again := !reply.success && state.vVotes.currentTerm >= reply.term;
      next', rejections' := next, rejections;
      if again {
        next', rejections' := NextTried(v, next), rejections + 1;
      }
    }

    /** The rest of the retry loop, from an attempt with that next index on. */
    method RetryUntilDone(v: Variant, follower: RaftServer, len: int, purpose: Purpose, ghost tl: LeaderLogs,
                          ghost a: Node, ghost f: Node, first: int)
      returns (rejections: nat, acked: bool, ghost last: int)
      requires Apart(follower) && Ready(v, tl, a, f, follower.ip, len)
      requires Underway(v, follower, len, purpose, a, f, first, 0, true, false)
      modifies this`puts, state.vState, follower`store, follower.state.pVotes, follower.state.vVotes,
        follower.state.pLog, follower.state.vLog, follower.state.vState
      ensures Underway(v, follower, len, purpose, a, f, last, rejections, false, acked)
    {
      assert follower.ip in a.nextIndex && follower.ip in a.matchIndex;
      var next, again := first, true;
      rejections, acked := 0, false;
      hide Apart, Ready, Underway;
      while again
        invariant Underway(v, follower, len, purpose, a, f, next, rejections, again, acked) && (again ==> !acked)
        decreases again, if v.Repaired? then next else 1 - rejections
      {
        again, acked, next, rejections := RetryOnce(v, follower, len, purpose, tl, a, f, next, rejections);
      }
      last := next;
    }

    /**
     The retry loop of `invokeAppendEntries`, every request answered and no other thread in between; `Finished` says
     how it ends. It does end: once repaired (R3) after fewer rejections than the first next index.
     */
    method InvokeAppendEntries(v: Variant, follower: RaftServer, len: int, purpose: Purpose, ghost tl: LeaderLogs)
      returns (rejections: nat, acked: bool)
      requires Durable() && follower.Durable() && Apart(follower)
      requires Ready(v, tl, Abs(), follower.Abs(), follower.ip, len)
      modifies this`puts, state.vState, follower`store, follower.state.pVotes, follower.state.vVotes,
        follower.state.pLog, follower.state.vLog, follower.state.vState
      ensures Finished(v, old(Abs()), old(follower.Abs()), Abs(), follower.Abs(), follower.ip, len, purpose,
                       rejections, acked)
      ensures Durable() && (v.Repaired? || !acked ==> follower.Durable())
    {
      ghost var a, f := Abs(), follower.Abs();
      ReadyRetrying(v, tl, a, f, follower.ip, len);
      hide Durable, Apart, Ready, Retrying, Finished, Entries;
      var _, first := state.vState.GetNextIndex(follower.ip);
      ghost var last;
      rejections, acked, last := RetryUntilDone(v, follower, len, purpose, tl, a, f, first);
    }
  }

  lemma {:induction false} ReplayNames(entries: seq<VoteEntry>)
    ensures var t := Replay(entries); t.Tally? ==> forall term | term in t.votes :: t.votes[term] != ""
  {
    if entries != [] {
      ReplayNames(entries[..|entries| - 1]);
    }
  }

  lemma PlainTorn(log: seq<Entry>, start: nat, es: seq<Entry>, lines: nat)
    requires PlainEntries(log) && PlainEntries(es) && log != [] && start > 0
    requires lines <= LinesToWrite(Repaired, log, start, es)
    ensures var torn := TornLog(Repaired, log, start, es, lines); PlainEntries(torn) && torn != []
  {
    hide PlainEntry;
  }

  lemma FirstBetween(log: seq<Entry>, next: int, len: int)
    requires next < len
    ensures EntriesBetween(log, next, len) ==
      [Entry(TermAt(log, next), KeyAt(log, next), ValueAt(log, next))] + EntriesBetween(log, next + 1, len)
  {}

  lemma NoneBetween(log: seq<Entry>, next: int, len: int)
    requires next >= len
    ensures EntriesBetween(log, next, len) == []
  {}

  lemma {:induction false} PlainBetween(log: seq<Entry>, next: int, len: int)
    requires PlainEntries(log)
    ensures PlainEntries(EntriesBetween(log, next, len))
    decreases len - next
  {
    if next < len {
      PlainBetween(log, next + 1, len);
    }
  }
}
