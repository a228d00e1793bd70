/**
 Replication under one leader that stays, with the handlers as coded and P1: no more is needed if all logs agreed
 when it took office, no term moves on, and exchanges with a follower do not interleave with each other.
 */
module StableLeader {
  import opened RaftTypes
  import opened ApplyLog
  import opened RaftNode
  import opened Quorum

  datatype Cluster = Cluster(leader: NodeId, nodes: map<NodeId, Node>)

  /** `len` is a log length captured for a broadcast; it may be older than the leader's log by the time it is used. */
  datatype Move =
    | ClientPut(key: string, value: string)
    | Exchange(p: NodeId, len: int, purpose: Purpose)
    | LoseAnswer(p: NodeId, len: int)
    | CommitPut(id: PutId)

  /** All logs agree, nobody is ahead in term, and the leader has just set its index maps. */
  predicate Start(c: Cluster) {
    && c.leader in c.nodes
    && var a := c.nodes[c.leader];
    && a.identity == LEADER && a.log != [] && a.puts == map[]
    && forall p | p in c.nodes ::
      && c.nodes[p].log == a.log && c.nodes[p].currentTerm <= a.currentTerm
      && p in a.nextIndex && p in a.matchIndex && a.nextIndex[p] == |a.log| && a.matchIndex[p] == |a.log| - 1
  }

  lemma OfficeTaken(a: Node, peers: set<NodeId>)
    ensures var b := BecomeLeader(a, peers);
      && b.identity == LEADER && b.log == a.log && b.puts == a.puts && b.currentTerm == a.currentTerm
      && forall p | p in peers ::
          p in b.nextIndex && p in b.matchIndex && b.nextIndex[p] == |a.log| && b.matchIndex[p] == |a.log| - 1
  {}

  /** A winner whose log every node shares, in a term nobody is past, takes office in such a state. */
  lemma TakesOffice(c: Cluster)
    requires c.leader in c.nodes && c.nodes[c.leader].log != [] && c.nodes[c.leader].puts == map[]
    requires forall p | p in c.nodes ::
      c.nodes[p].log == c.nodes[c.leader].log && c.nodes[p].currentTerm <= c.nodes[c.leader].currentTerm
    ensures Start(c.(nodes := c.nodes[c.leader := BecomeLeader(c.nodes[c.leader], c.nodes.Keys)]))
  {
    hide BecomeLeader;
    OfficeTaken(c.nodes[c.leader], c.nodes.Keys);
  }

  predicate Peer(c: Cluster, p: NodeId) {
    c.leader in c.nodes && p in c.nodes && p != c.leader
    && p in c.nodes[c.leader].nextIndex && p in c.nodes[c.leader].matchIndex
  }

  predicate Allowed(c: Cluster, move: Move) {
    && c.leader in c.nodes
    && var a := c.nodes[c.leader];
    match move
    case ClientPut(_, _) => true
    case Exchange(p, len, purpose) =>
      && Peer(c, p) && 1 <= len <= |a.log|
      && (purpose.ForPut? ==> len == purpose.id.len)
    case LoseAnswer(p, len) => Peer(c, p) && 1 <= len <= |a.log|
    case CommitPut(id) => id in a.puts && ReceivedMajority(a.puts[id].count, |c.nodes|)
  }

  function RequestTo(c: Cluster, p: NodeId, len: int): AppendRequest
    requires Peer(c, p)
  {
    var a := c.nodes[c.leader];
    PrepareAppend(AsCoded, a, c.leader, p, a.nextIndex[p], len)
  }

  function After(c: Cluster, move: Move): Cluster
    requires Allowed(c, move)
  {
    var a := c.nodes[c.leader];
    match move
    case ClientPut(key, value) => c.(nodes := c.nodes[c.leader := AppendPut(a, c.leader, c.nodes.Keys, key, value)])
    case CommitPut(id) => c.(nodes := c.nodes[c.leader := FinishPut(a, id)])
    case LoseAnswer(p, len) => c.(nodes := c.nodes[p := OnAppendEntries(AsCoded, c.nodes[p], RequestTo(c, p, len)).0])
    case Exchange(p, len, purpose) =>
      var req := RequestTo(c, p, len);
      var (g, reply) := OnAppendEntries(AsCoded, c.nodes[p], req);
      c.(nodes := c.nodes[p := g][c.leader := OnAppendReply(AsCoded, a, p, a.nextIndex[p], len, purpose, req, reply)])
  }

  ghost predicate Run(run: seq<Cluster>) {
    && |run| > 0 && Start(run[0])
    && forall i :: 0 <= i < |run| - 1 ==> Moves(run[i], run[i + 1])
  }

  ghost predicate Moves(c: Cluster, c': Cluster) {
    exists move: Move :: Allowed(c, move) && c' == After(c, move)
  }

  /** The follower holds a prefix of the leader's log, at least up to its next index, which is one past its match. */
  predicate FollowerOk(a: Node, f: Node, p: NodeId) {
    && f.log <= a.log && f.currentTerm <= a.currentTerm
    && p in a.nextIndex && p in a.matchIndex
    && a.nextIndex[p] == a.matchIndex[p] + 1
    && 1 <= a.nextIndex[p] <= |f.log|
  }

  /** The nodes that hold the leader's first `len` entries, the leader included. */
  function Holding(c: Cluster, len: int): set<NodeId>
    requires c.leader in c.nodes
  {
    set p | p in c.nodes && 0 <= len <= |c.nodes[p].log| && len <= |c.nodes[c.leader].log| &&
      c.nodes[p].log[..len] == c.nodes[c.leader].log[..len]
  }

  /** Every ack a put counted came from a node that holds the leader's log through the put's entry. */
  predicate AcksMeanEntries(c: Cluster, id: PutId)
    requires c.leader in c.nodes && id in c.nodes[c.leader].puts
  {
    var put := c.nodes[c.leader].puts[id];
    && 1 <= id.len <= |c.nodes[c.leader].log|
    && c.leader !in put.waiting
    && put.count <= |Holding(c, id.len) - put.waiting|
  }

  ghost predicate StableInv(c: Cluster) {
    && c.leader in c.nodes
    && var a := c.nodes[c.leader];
    && a.identity == LEADER
    && (forall p | p in c.nodes && p != c.leader :: FollowerOk(a, c.nodes[p], p))
    && (forall id | id in a.puts :: AcksMeanEntries(c, id))
  }

  /** No log shrinks or changes: each is a prefix of what it becomes. */
  ghost predicate LogsExtend(c: Cluster, c': Cluster) {
    && c'.leader == c.leader && c'.nodes.Keys == c.nodes.Keys
    && forall p | p in c.nodes :: c.nodes[p].log <= c'.nodes[p].log
  }

  /** Overwriting in place with a stretch of the leader's log extends a prefix of that log, or leaves it alone. */
  lemma InsertIntoPrefix(l: seq<Entry>, x: seq<Entry>, next: nat, len: nat)
    requires l <= x && next <= |l| && len <= |x|
    ensures InsertCoded(l, next, EntriesBetween(x, next, len)) == if len <= |l| then l else x[..len]
  {
    hide EntriesBetween;
    if next <= len {
      assert x[next..len] == EntriesBetween(x, next, len);
      assert forall i | 0 <= i < |l| :: l[i] == x[i];
    }
  }

  /** The follower always accepts, and keeps a prefix of the leader's log that is no shorter and reaches `len`. */
  lemma FollowerAccepts(a: Node, f: Node, me: NodeId, p: NodeId, len: int)
    requires FollowerOk(a, f, p) && 1 <= len <= |a.log|
    ensures var (g, reply) := OnAppendEntries(AsCoded, f, PrepareAppend(AsCoded, a, me, p, a.nextIndex[p], len));
      && reply.success && reply.term <= a.currentTerm
      && f.log <= g.log <= a.log && len <= |g.log| && g.currentTerm == f.currentTerm
  {
    hide OnAppendEntries, InsertCoded, EntriesBetween, CommitLimit;
    var next := a.nextIndex[p];
    var req := PrepareAppend(AsCoded, a, me, p, next, len);
    assert f.log[next - 1] == a.log[next - 1] && Accepts(f, req);
    hide TermAt, Accepts;
    AppendEffect(AsCoded, f, req);
    InsertIntoPrefix(f.log, a.log, next, len);
  }

  /** Exchanges leave the leader's log, term and identity alone; puts extend its log; commits change neither. */
  lemma StepLeader(c: Cluster, move: Move)
    requires StableInv(c) && Allowed(c, move)
    ensures var c' := After(c, move); var a, b := c.nodes[c.leader], c'.nodes[c.leader];
      && c'.leader == c.leader && c'.nodes.Keys == c.nodes.Keys
      && a.log <= b.log && b.currentTerm == a.currentTerm && b.identity == LEADER
      && if move.Exchange? then
          && b.nextIndex == a.nextIndex[move.p := move.len] && b.matchIndex == a.matchIndex[move.p := move.len - 1]
         else b.nextIndex == a.nextIndex && b.matchIndex == a.matchIndex
  {
    hide OnAppendEntries, OnAppendReply, PrepareAppend, AcksMeanEntries, FollowerOk, Applied;
    if move.Exchange? {
      var a := c.nodes[c.leader];
      assert FollowerOk(a, c.nodes[move.p], move.p);
      FollowerAccepts(a, c.nodes[move.p], c.leader, move.p, move.len);
      var reply := OnAppendEntries(AsCoded, c.nodes[move.p], RequestTo(c, move.p, move.len)).1;
      AnswerAccepted(c, move.p, move.len, move.purpose, reply);
    }
  }

  /** What the leader makes of an acceptance. */
  lemma AnswerAccepted(c: Cluster, p: NodeId, len: int, purpose: Purpose, reply: AppendReply)
    requires Peer(c, p) && reply.success && reply.term <= c.nodes[c.leader].currentTerm
    ensures var a, req := c.nodes[c.leader], RequestTo(c, p, len);
      var b := OnAppendReply(AsCoded, a, p, a.nextIndex[p], len, purpose, req, reply);
      && b == a.(nextIndex := a.nextIndex[p := len], matchIndex := a.matchIndex[p := len - 1], puts := b.puts)
      && b.puts == (if CountsAck(AsCoded, a, p, purpose, req.term) then PutsCounted(a, p, purpose.id) else a.puts)
  {
    hide EntriesBetween;
  }

  /** A move leaves alone every follower it is not about. */
  lemma OtherFollower(c: Cluster, move: Move, p: NodeId)
    requires Allowed(c, move) && p in c.nodes && p != c.leader
    requires (move.Exchange? || move.LoseAnswer?) ==> move.p != p
    ensures p in After(c, move).nodes && After(c, move).nodes[p] == c.nodes[p]
  {
    hide OnAppendEntries, OnAppendReply, PrepareAppend, AppendPut, FinishPut;
  }

  lemma AskedFollower(c: Cluster, move: Move)
    requires Allowed(c, move) && (move.Exchange? || move.LoseAnswer?)
    ensures move.p in After(c, move).nodes
    ensures After(c, move).nodes[move.p] == OnAppendEntries(AsCoded, c.nodes[move.p], RequestTo(c, move.p, move.len)).0
  {
    hide OnAppendEntries, OnAppendReply, PrepareAppend;
  }

  lemma StepFollower(c: Cluster, move: Move, p: NodeId)
    requires StableInv(c) && Allowed(c, move) && p in c.nodes && p != c.leader
    ensures var c' := After(c, move); p in c'.nodes && c.leader in c'.nodes
    ensures var c' := After(c, move);
      FollowerOk(c'.nodes[c.leader], c'.nodes[p], p) && c.nodes[p].log <= c'.nodes[p].log
    ensures move.Exchange? && move.p == p ==> move.len <= |After(c, move).nodes[p].log|
  {
    var a := c.nodes[c.leader];
    assert FollowerOk(a, c.nodes[p], p);
    hide After;
    StepLeader(c, move);
    hide StableInv;
    if (move.Exchange? || move.LoseAnswer?) && move.p == p {
      AskedFollower(c, move);
      FollowerAccepts(a, c.nodes[p], c.leader, p, move.len);
      hide OnAppendEntries;
    } else {
      OtherFollower(c, move, p);
    }
  }

  lemma StepExtends(c: Cluster, move: Move)
    requires StableInv(c) && Allowed(c, move)
    ensures LogsExtend(c, After(c, move))
  {
    hide After, StableInv, Allowed;
    StepLeader(c, move);
    forall p | p in c.nodes ensures p in After(c, move).nodes && c.nodes[p].log <= After(c, move).nodes[p].log {
      if p != c.leader { StepFollower(c, move, p); }
    }
  }

  /** Whoever holds the first `len` entries keeps them. */
  lemma HoldingGrows(c: Cluster, c': Cluster, len: int)
    requires LogsExtend(c, c') && c.leader in c.nodes
    ensures Holding(c, len) <= Holding(c', len)
  {}

  lemma AcksStay(c: Cluster, c': Cluster, id: PutId)
    requires LogsExtend(c, c') && c.leader in c.nodes && id in c.nodes[c.leader].puts && AcksMeanEntries(c, id)
    requires id in c'.nodes[c.leader].puts && c'.nodes[c.leader].puts[id] == c.nodes[c.leader].puts[id]
    ensures AcksMeanEntries(c', id)
  {
    var waiting := c.nodes[c.leader].puts[id].waiting;
    HoldingGrows(c, c', id.len);
    hide Holding;
    Smaller(Holding(c, id.len) - waiting, Holding(c', id.len) - waiting);
  }

  lemma NewPutAcks(c: Cluster, key: string, value: string)
    requires StableInv(c)
    ensures var a := c.nodes[c.leader]; var c' := After(c, ClientPut(key, value));
      var id := PutId(a.currentTerm, |a.log| + 1);
      && c'.nodes[c.leader].puts == a.puts[id := Put(1, c.nodes.Keys - {c.leader})]
      && AcksMeanEntries(c', id)
  {
    hide FollowerOk;
    var a := c.nodes[c.leader];
    var c' := After(c, ClientPut(key, value));
    Smaller({c.leader}, Holding(c', |a.log| + 1) - (c.nodes.Keys - {c.leader}));
  }

  lemma CountedAck(c: Cluster, c': Cluster, id: PutId, p: NodeId)
    requires LogsExtend(c, c') && c.leader in c.nodes && id in c.nodes[c.leader].puts && AcksMeanEntries(c, id)
    requires id in c'.nodes[c.leader].puts && p in Holding(c', id.len)
    requires var put := c.nodes[c.leader].puts[id];
      p in put.waiting && c'.nodes[c.leader].puts[id] == Put(put.count + 1, put.waiting - {p})
    ensures AcksMeanEntries(c', id)
  {
    HoldingGrows(c, c', id.len);
    hide Holding;
    Counted(Holding(c, id.len), Holding(c', id.len), c.nodes[c.leader].puts[id].waiting, p);
  }

  lemma StepAcks(c: Cluster, move: Move, id: PutId)
    requires StableInv(c) && Allowed(c, move)
    ensures After(c, move).leader == c.leader && c.leader in After(c, move).nodes
    ensures id in After(c, move).nodes[c.leader].puts ==> AcksMeanEntries(After(c, move), id)
  {
    hide OnAppendEntries, OnAppendReply, PrepareAppend, AcksMeanEntries, FollowerOk, Applied, LogsExtend, Holding;
    var a, c' := c.nodes[c.leader], After(c, move);
    StepExtends(c, move);
    StepLeader(c, move);
    if id in c'.nodes[c.leader].puts {
      assert id in a.puts ==> AcksMeanEntries(c, id);
      if move.ClientPut? {
        NewPutAcks(c, move.key, move.value);
        if id != PutId(a.currentTerm, |a.log| + 1) { AcksStay(c, c', id); }
      } else if move.Exchange? {
        FollowerAccepts(a, c.nodes[move.p], c.leader, move.p, move.len);
        var reply := OnAppendEntries(AsCoded, c.nodes[move.p], RequestTo(c, move.p, move.len)).1;
        AnswerAccepted(c, move.p, move.len, move.purpose, reply);
        StepFollower(c, move, move.p);
        hide StableInv, Allowed, After, RequestTo;
        if c'.nodes[c.leader].puts[id] == a.puts[id] {
          AcksStay(c, c', id);
        } else {
          NowHolding(c', move.p, move.len);
          CountedAck(c, c', id, move.p);
        }
      } else {
        AcksStay(c, c', id);
      }
    }
  }

  lemma NowHolding(c: Cluster, p: NodeId, len: int)
    requires c.leader in c.nodes && p in c.nodes && FollowerOk(c.nodes[c.leader], c.nodes[p], p)
    requires 0 <= len <= |c.nodes[p].log|
    ensures p in Holding(c, len)
  {}

  lemma StepKeepsStable(c: Cluster, move: Move)
    requires StableInv(c) && Allowed(c, move)
    ensures StableInv(After(c, move)) && LogsExtend(c, After(c, move))
  {
    var c' := After(c, move);
    hide After, Allowed, FollowerOk, AcksMeanEntries;
    StepLeader(c, move);
    StepExtends(c, move);
    forall p | p in c'.nodes && p != c.leader ensures FollowerOk(c'.nodes[c.leader], c'.nodes[p], p) {
      StepFollower(c, move, p);
    }
    forall id | id in c'.nodes[c.leader].puts ensures AcksMeanEntries(c', id) {
      StepAcks(c, move, id);
    }
  }

  lemma ExtendsTransitive(a: Cluster, b: Cluster, c: Cluster)
    requires LogsExtend(a, b) && LogsExtend(b, c)
    ensures LogsExtend(a, c)
  {}

  lemma MovesKeep(c: Cluster, c': Cluster)
    requires StableInv(c) && Moves(c, c')
    ensures StableInv(c') && LogsExtend(c, c')
  {
    var move: Move :| Allowed(c, move) && c' == After(c, move);
    hide StableInv, LogsExtend, After, Allowed;
    StepKeepsStable(c, move);
  }

  lemma {:induction false} RunStable(run: seq<Cluster>, i: nat)
    requires Run(run) && i < |run|
    ensures StableInv(run[i])
  {
    if i > 0 {
      RunStable(run, i - 1);
      assert Moves(run[i - 1], run[i - 1 + 1]);
      MovesKeep(run[i - 1], run[i]);
    }
  }

  lemma {:induction false} RunExtends(run: seq<Cluster>, i: nat, j: nat)
    requires Run(run) && i <= j < |run|
    ensures LogsExtend(run[i], run[j])
    decreases j
  {
    hide StableInv, Moves, Start;
    if i < j {
      hide LogsExtend;
      assert Moves(run[j - 1], run[j - 1 + 1]);
      hide Run;
      RunExtends(run, i, j - 1);
      RunStable(run, j - 1);
      MovesKeep(run[j - 1], run[j]);
      ExtendsTransitive(run[i], run[j - 1], run[j]);
    }
  }

  /**
   Stable-leader replication, as coded with P1: in every state of a run each follower's log is a prefix of the leader's
   that never shrank, the index maps stay one apart, and a follower answering an exchange of length `len` holds that
   much.
   */
  lemma FollowersTrackTheLeader(run: seq<Cluster>, i: nat, j: nat, p: NodeId)
    requires Run(run) && i <= j < |run| && p in run[i].nodes && p != run[i].leader
    ensures run[j].leader == run[i].leader && run[j].leader in run[j].nodes && p in run[j].nodes
    ensures var a, f := run[j].nodes[run[j].leader], run[j].nodes[p];
      && run[i].nodes[p].log <= f.log <= a.log
      && p in a.nextIndex && p in a.matchIndex
      && 1 <= a.nextIndex[p] == a.matchIndex[p] + 1 <= |f.log|
  {
    RunStable(run, j);
    RunExtends(run, i, j);
    hide Run;
    assert FollowerOk(run[j].nodes[run[j].leader], run[j].nodes[p], p);
  }

  /** An exchange always succeeds, and afterwards the follower holds the leader's first `len` entries. */
  lemma ExchangeDelivers(run: seq<Cluster>, i: nat, p: NodeId, len: int, purpose: Purpose)
    requires Run(run) && i < |run| && Allowed(run[i], Exchange(p, len, purpose))
    ensures var c' := After(run[i], Exchange(p, len, purpose));
      c'.leader == run[i].leader && c'.leader in c'.nodes && p in Holding(c', len)
  {
    RunStable(run, i);
    hide Run;
    StepLeader(run[i], Exchange(p, len, purpose));
    StepFollower(run[i], Exchange(p, len, purpose), p);
    hide After;
    NowHolding(After(run[i], Exchange(p, len, purpose)), p, len);
  }

  /** An exchange keeps the match index from falling exactly when its captured length is not behind it. */
  lemma MatchIndexFallsExactly(c: Cluster, p: NodeId, len: int, purpose: Purpose)
    requires StableInv(c) && Allowed(c, Exchange(p, len, purpose))
    ensures var c' := After(c, Exchange(p, len, purpose));
      && c'.leader == c.leader && Peer(c', p)
      && c'.nodes[c.leader].matchIndex[p] == len - 1
      && (c'.nodes[c.leader].matchIndex[p] >= c.nodes[c.leader].matchIndex[p] <==>
          len - 1 >= c.nodes[c.leader].matchIndex[p])
  {
    StepLeader(c, Exchange(p, len, purpose));
    hide After, StableInv;
  }

  /** A leader's match index is not monotone: a broadcast with the shortest captured length lowers any it can. */
  lemma MatchIndexFalls(run: seq<Cluster>, i: nat, p: NodeId)
    requires Run(run) && i < |run| && Peer(run[i], p) && run[i].nodes[run[i].leader].matchIndex[p] >= 1
    ensures Allowed(run[i], Exchange(p, 1, Heartbeat))
    ensures var c' := After(run[i], Exchange(p, 1, Heartbeat));
      && c'.leader == run[i].leader && Peer(c', p)
      && c'.nodes[c'.leader].matchIndex[p] < run[i].nodes[run[i].leader].matchIndex[p]
  {
    RunStable(run, i);
    hide Run;
    assert FollowerOk(run[i].nodes[run[i].leader], run[i].nodes[p], p);
    StepLeader(run[i], Exchange(p, 1, Heartbeat));
    hide After, StableInv;
  }

  lemma MajorityAcked(c: Cluster, id: PutId)
    requires c.leader in c.nodes && id in c.nodes[c.leader].puts && AcksMeanEntries(c, id)
    requires ReceivedMajority(c.nodes[c.leader].puts[id].count, |c.nodes|)
    ensures Majority(Holding(c, id.len), c.nodes.Keys)
  {
    var holding, waiting := Holding(c, id.len), c.nodes[c.leader].puts[id].waiting;
    assert c.leader in holding && holding <= c.nodes.Keys && |c.nodes.Keys| == |c.nodes|;
    hide Holding;
    Smaller(holding - waiting, holding);
    Smaller({c.leader}, holding);
  }

  /** Once a put has its majority, a majority of the nodes holds the leader's log through its entry, from then on. */
  lemma MajorityHolds(run: seq<Cluster>, i: nat, j: nat, id: PutId)
    requires Run(run) && i <= j < |run| && run[i].leader in run[i].nodes
    requires id in run[i].nodes[run[i].leader].puts
    requires ReceivedMajority(run[i].nodes[run[i].leader].puts[id].count, |run[i].nodes|)
    ensures run[j].leader in run[j].nodes && Majority(Holding(run[j], id.len), run[j].nodes.Keys)
  {
    RunStable(run, i);
    RunStable(run, j);
    RunExtends(run, i, j);
    assert AcksMeanEntries(run[i], id);
    hide Run, StableInv, AcksMeanEntries;
    MajorityAcked(run[i], id);
    HoldingGrows(run[i], run[j], id.len);
    assert Holding(run[j], id.len) <= run[j].nodes.Keys;
    Grows(Holding(run[i], id.len), Holding(run[j], id.len), run[j].nodes.Keys);
  }
}
