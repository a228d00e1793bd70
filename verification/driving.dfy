/** Building runs a few steps at a time: what each exchange does to the nodes, whatever the nodes are. */
module Driving {
  import opened RaftTypes
  import opened RaftNode
  import opened RaftSystem
  import opened LeaderPointer

  function Last(run: seq<System>): System
    requires |run| > 0
  {
    run[|run| - 1]
  }

  ghost predicate Ongoing(v: Variant, run: seq<System>) {
    |run| > 0 && Run(v, run)
  }

  /** The first run goes on as the second, and no message or history of executed commands is lost. */
  ghost predicate Extends(v: Variant, run: seq<System>, longer: seq<System>) {
    && |run| > 0 && Ongoing(v, longer) && run <= longer
    && Last(run).net <= Last(longer).net && Last(run).hist.executed <= Last(longer).hist.executed
  }

  lemma Extend(v: Variant, run: seq<System>, step: Step) returns (longer: seq<System>)
    requires Ongoing(v, run) && Enabled(v, Last(run), step)
    ensures Ongoing(v, longer) && longer == run + [Perform(v, Last(run), step)]
  {
    hide Perform, Init, Enabled;
    longer := run + [Perform(v, Last(run), step)];
    forall i | 0 <= i < |longer| - 1 ensures Next(v, longer[i], longer[i + 1]) {
      if i < |run| - 1 { assert Next(v, run[i], run[i + 1]); }
    }
  }

  lemma Performed(v: Variant, s: System, step: Step)
    requires Enabled(v, s, step) && !step.Deliver?
    ensures var s' := Perform(v, s, step);
      && s'.nodes == s.nodes[Actor(v, s, step) := NodeAfter(v, s, step)]
      && s'.net == s.net + Sent(v, s, step)
      && s.hist.executed <= s'.hist.executed
  {
    hide NodeAfter, Sent, ExecutedBetween;
  }

  /** One step of a run by a node. */
  lemma Take(v: Variant, run: seq<System>, step: Step, n: NodeId, b: Node) returns (longer: seq<System>)
    requires Ongoing(v, run) && Enabled(v, Last(run), step) && !step.Deliver?
    requires Actor(v, Last(run), step) == n && NodeAfter(v, Last(run), step) == b
    ensures Extends(v, run, longer) && |longer| == |run| + 1 && Last(longer) == Perform(v, Last(run), step)
    ensures Last(longer).nodes == Last(run).nodes[n := b]
    ensures Last(longer).net == Last(run).net + Sent(v, Last(run), step)
  {
    hide Perform, Enabled, Actor, NodeAfter, Sent;
    longer := Extend(v, run, step);
    Performed(v, Last(run), step);
  }

  lemma TakeTimeout(v: Variant, run: seq<System>, n: NodeId) returns (longer: seq<System>)
    requires Ongoing(v, run) && n in Last(run).nodes && Last(run).nodes[n].identity != LEADER
    ensures Extends(v, run, longer)
    ensures var s := Last(run); Last(longer).nodes == s.nodes[n := StartElection(s.nodes[n], n, s.nodes.Keys)]
  {
    hide Run, StartElection, Perform;
    longer := Take(v, run, Timeout(n), n, StartElection(Last(run).nodes[n], n, Last(run).nodes.Keys));
  }

  /** A vote request reaches its receiver. */
  lemma TakeVoteRequest(v: Variant, run: seq<System>, n: NodeId, p: NodeId) returns (longer: seq<System>)
    requires Ongoing(v, run) && n in Last(run).nodes && p in Last(run).nodes && n != p
    requires Last(run).nodes[n].identity == CANDIDATE && p in Last(run).nodes[n].awaiting
    ensures Extends(v, run, longer)
    ensures var s := Last(run); var req := VoteRequestOf(s.nodes[n], n); var (b, reply) := OnReqVote(s.nodes[p], req);
      Last(longer).nodes == s.nodes[p := b] && VoteAnswer(p, req, reply) in Last(longer).net
  {
    hide Run, OnReqVote, VoteRequestOf, Perform;
    var s := Last(run);
    var req := VoteRequestOf(s.nodes[n], n);
    longer := Take(v, run, AskVote(n, p), n, s.nodes[n]);
    assert Last(longer).nodes == s.nodes;
    longer := Take(v, longer, AnswerVote(VoteAsk(p, req)), p, OnReqVote(s.nodes[p], req).0);
  }

  /** A candidate uses an answer to its request. */
  lemma TakeCount(v: Variant, run: seq<System>, m: Message) returns (longer: seq<System>)
    requires Ongoing(v, run) && m in Last(run).net && m.VoteAnswer? && m.vreq.candidate in Last(run).nodes
    ensures Extends(v, run, longer)
    ensures var s, n := Last(run), m.vreq.candidate;
      Last(longer).nodes == s.nodes[n := OnVoteReply(s.nodes[n], m.from, m.vreq, m.vreply)]
  {
    hide Run, OnVoteReply, Perform;
    var n := m.vreq.candidate;
    longer := Take(v, run, CountVote(m), n, OnVoteReply(Last(run).nodes[n], m.from, m.vreq, m.vreply));
  }

  lemma TakeWin(v: Variant, run: seq<System>, n: NodeId) returns (longer: seq<System>)
    requires Ongoing(v, run) && n in Last(run).nodes && WinsElection(Last(run).nodes[n], |Last(run).nodes|)
    ensures Extends(v, run, longer)
    ensures var s := Last(run); Last(longer).nodes == s.nodes[n := BecomeLeader(s.nodes[n], s.nodes.Keys)]
  {
    hide Run, BecomeLeader, Perform;
    longer := Take(v, run, Win(n), n, BecomeLeader(Last(run).nodes[n], Last(run).nodes.Keys));
  }

  lemma TakePut(v: Variant, run: seq<System>, n: NodeId, key: string, value: string) returns (longer: seq<System>)
    requires Ongoing(v, run) && n in Last(run).nodes && Last(run).nodes[n].identity == LEADER
    ensures Extends(v, run, longer)
    ensures var s := Last(run);
      Last(longer).nodes == s.nodes[n := AppendPut(s.nodes[n], n, s.nodes.Keys, key, value)]
  {
    hide Run, AppendPut, Perform;
    var b := AppendPut(Last(run).nodes[n], n, Last(run).nodes.Keys, key, value);
    longer := Take(v, run, ClientPut(n, key, value), n, b);
  }

  /** A thread of a leader can ask the peer for that length. */
  predicate CanSend(v: Variant, a: Node, p: NodeId, next: int, len: int, purpose: Purpose) {
    && a.identity == LEADER && 1 <= len <= |a.log| && p in a.nextIndex && p in a.matchIndex
    && (v.Repaired? ==> next == a.nextIndex[p])
    && (purpose.ForPut? ==> ThreadOf(a, p, purpose.id) && len == purpose.id.len)
  }

  /** A leader sends a request, and its receiver answers it. */
  lemma TakeAppend(v: Variant, run: seq<System>, n: NodeId, p: NodeId, next: int, len: int, purpose: Purpose)
    returns (longer: seq<System>)
    requires Ongoing(v, run) && n in Last(run).nodes && p in Last(run).nodes && n != p
    requires CanSend(v, Last(run).nodes[n], p, next, len, purpose)
    ensures Extends(v, run, longer)
    ensures var s := Last(run); var req := PrepareAppend(v, s.nodes[n], n, p, next, len);
      var (b, reply) := OnAppendEntries(v, s.nodes[p], req);
      && Last(longer).nodes == s.nodes[p := b]
      && AppendAnswer(p, next, len, purpose, req, reply) in Last(longer).net
      && (AdvancesCommit(v, s.nodes[p], req) ==>
          ExecutedBetween(p, b.log, s.nodes[p].lastApplied, b.commitIndex) <= Last(longer).hist.executed)
  {
    hide Run, OnAppendEntries, PrepareAppend, Perform;
    var s := Last(run);
    var req := PrepareAppend(v, s.nodes[n], n, p, next, len);
    longer := Take(v, run, AskAppend(n, p, next, len, purpose), n, s.nodes[n]);
    assert Last(longer).nodes == s.nodes;
    var ask := AppendAsk(p, next, len, purpose, req);
    if AdvancesCommit(v, s.nodes[p], req) { AnswerExecutes(v, Last(longer), ask); }
    longer := Take(v, longer, AnswerAppend(ask), p, OnAppendEntries(v, s.nodes[p], req).0);
  }

  lemma AnswerExecutes(v: Variant, s: System, m: Message)
    requires Enabled(v, s, AnswerAppend(m)) && AdvancesCommit(v, s.nodes[m.to], m.areq)
    ensures var a, b := s.nodes[m.to], OnAppendEntries(v, s.nodes[m.to], m.areq).0;
      ExecutedBetween(m.to, b.log, a.lastApplied, b.commitIndex) <= Perform(v, s, AnswerAppend(m)).hist.executed
  {
    hide OnAppendEntries, ExecutedBetween, Sent;
  }

  /** A leader uses an answer to one of its requests. */
  lemma TakeAnswer(v: Variant, run: seq<System>, m: Message) returns (longer: seq<System>)
    requires Ongoing(v, run) && m in Last(run).net && m.AppendAnswer? && m.areq.leader in Last(run).nodes
    ensures Extends(v, run, longer) && |longer| == |run| + 1
    ensures Last(longer) == Perform(v, Last(run), UseAppendAnswer(m))
    ensures var s, n := Last(run), m.areq.leader;
      Last(longer).nodes ==
        s.nodes[n := OnAppendReply(v, s.nodes[n], m.from, m.next, m.len, m.purpose, m.areq, m.areply)]
  {
    hide Run, OnAppendReply, Perform;
    var n := m.areq.leader;
    var b := OnAppendReply(v, Last(run).nodes[n], m.from, m.next, m.len, m.purpose, m.areq, m.areply);
    longer := Take(v, run, UseAppendAnswer(m), n, b);
  }

  /** A put commits: its commands are executed and remembered. */
  lemma TakeCommit(v: Variant, run: seq<System>, n: NodeId, id: PutId) returns (longer: seq<System>)
    requires Ongoing(v, run) && n in Last(run).nodes && id in Last(run).nodes[n].puts
    requires ReceivedMajority(Last(run).nodes[n].puts[id].count, |Last(run).nodes|)
    ensures Extends(v, run, longer) && |longer| == |run| + 1
    ensures Last(longer).nodes == Last(run).nodes[n := FinishPut(Last(run).nodes[n], id)]
    ensures var a := Last(run).nodes[n];
      ExecutedBetween(n, a.log, a.lastApplied + 1, id.len - 1) <= Last(longer).hist.executed
  {
    hide Run, FinishPut, ExecutedBetween;
    longer := Take(v, run, CommitPut(n, id), n, FinishPut(Last(run).nodes[n], id));
  }

  // Three nodes

  /** The names of the three nodes. */
  datatype Trio = Trio(a: NodeId, b: NodeId, c: NodeId) {
    predicate Distinct() {
      a != b && a != c && b != c && a != "" && b != "" && c != ""
    }

    function All(): set<NodeId> {
      {a, b, c}
    }
  }

  datatype Three = Three(a: Node, b: Node, c: Node) {
    function At(t: Trio, n: NodeId): Node {
      if n == t.a then a else if n == t.b then b else c
    }

    function With(t: Trio, n: NodeId, m: Node): Three {
      if n == t.a then Three(m, b, c) else if n == t.b then Three(a, m, c) else Three(a, b, m)
    }
  }

  predicate Nodes(t: Trio, s: System, x: Three) {
    s.nodes.Keys == t.All() && forall n | n in t.All() :: s.nodes[n] == x.At(t, n)
  }

  /** A run that goes on from `first` and ends with these nodes. */
  ghost predicate Reaches(v: Variant, t: Trio, first: seq<System>, run: seq<System>, x: Three) {
    t.Distinct() && Extends(v, first, run) && Nodes(t, Last(run), x)
  }

  lemma Onward(v: Variant, first: seq<System>, run: seq<System>, longer: seq<System>)
    requires Extends(v, first, run) && Extends(v, run, longer)
    ensures Extends(v, first, longer)
  {}

  lemma Moved(v: Variant, t: Trio, first: seq<System>, run: seq<System>, longer: seq<System>, x: Three,
              n: NodeId, m: Node)
    requires Reaches(v, t, first, run, x) && Extends(v, run, longer) && n in t.All()
    requires Last(longer).nodes == Last(run).nodes[n := m]
    ensures Reaches(v, t, first, longer, x.With(t, n, m))
  {
    Onward(v, first, run, longer);
    hide Extends;
  }

  lemma ThreeNodes(v: Variant, t: Trio, first: seq<System>, run: seq<System>, x: Three)
    requires Reaches(v, t, first, run, x)
    ensures Ongoing(v, run) && Last(run).nodes.Keys == t.All() && |Last(run).nodes| == 3
    ensures forall n | n in t.All() :: Last(run).nodes[n] == x.At(t, n)
  {
    assert |Last(run).nodes| == |Last(run).nodes.Keys| && |t.All()| == 3;
  }

  /** What such a run is, seen from outside. */
  lemma ReachedRun(v: Variant, t: Trio, first: seq<System>, run: seq<System>, x: Three)
    requires Reaches(v, t, first, run, x)
    ensures |run| > 0 && Run(v, run) && 0 < |first| <= |run| && run[|first| - 1] == Last(first)
    ensures t.a in Last(run).nodes && t.b in Last(run).nodes && t.c in Last(run).nodes
    ensures Last(run).nodes[t.a] == x.a && Last(run).nodes[t.b] == x.b && Last(run).nodes[t.c] == x.c
    ensures Last(run).nodes.Keys == t.All() && |Last(run).nodes| == 3
    ensures Reaches(v, t, run, run, x)
  {
    ThreeNodes(v, t, first, run, x);
    hide Run;
  }

  lemma Begin(v: Variant, t: Trio) returns (run: seq<System>)
    requires t.Distinct()
    ensures Reaches(v, t, run, run, Three(FreshNode(), FreshNode(), FreshNode()))
  {
    var s := System(map[t.a := FreshNode(), t.b := FreshNode(), t.c := FreshNode()], {},
                    History({}, map[], map[0 := [SENTINEL]], map[], {}, map[]), Pointer(0, ""));
    run := [s];
  }

  lemma Timeouts(v: Variant, t: Trio, first: seq<System>, run: seq<System>, x: Three, n: NodeId)
    returns (longer: seq<System>)
    requires Reaches(v, t, first, run, x) && n in t.All() && x.At(t, n).identity != LEADER
    ensures Reaches(v, t, first, longer, x.With(t, n, StartElection(x.At(t, n), n, t.All())))
  {
    ThreeNodes(v, t, first, run, x);
    hide Reaches, Ongoing, Extends, StartElection;
    longer := TakeTimeout(v, run, n);
    Moved(v, t, first, run, longer, x, n, StartElection(x.At(t, n), n, t.All()));
  }

  lemma VoteRequests(v: Variant, t: Trio, first: seq<System>, run: seq<System>, x: Three, n: NodeId, p: NodeId)
    returns (longer: seq<System>)
    requires Reaches(v, t, first, run, x) && n in t.All() && p in t.All() && n != p
    requires x.At(t, n).identity == CANDIDATE && p in x.At(t, n).awaiting
    ensures Reaches(v, t, first, longer, x.With(t, p, OnReqVote(x.At(t, p), VoteRequestOf(x.At(t, n), n)).0))
  {
    ThreeNodes(v, t, first, run, x);
    hide Reaches, Ongoing, Extends, OnReqVote, VoteRequestOf;
    longer := TakeVoteRequest(v, run, n, p);
    Moved(v, t, first, run, longer, x, p, OnReqVote(x.At(t, p), VoteRequestOf(x.At(t, n), n)).0);
  }

  lemma Votes(v: Variant, t: Trio, first: seq<System>, run: seq<System>, x: Three, n: NodeId, p: NodeId)
    returns (longer: seq<System>)
    requires Reaches(v, t, first, run, x) && n in t.All() && p in t.All() && n != p
    requires x.At(t, n).identity == CANDIDATE && p in x.At(t, n).awaiting
    ensures var req := VoteRequestOf(x.At(t, n), n); var (b, reply) := OnReqVote(x.At(t, p), req);
      Reaches(v, t, first, longer, x.With(t, p, b).With(t, n, OnVoteReply(x.At(t, n), p, req, reply)))
  {
    var req := VoteRequestOf(x.At(t, n), n);
    assert req.candidate == n;
    ThreeNodes(v, t, first, run, x);
    hide Reaches, Ongoing, Extends, OnReqVote, OnVoteReply, VoteRequestOf;
    var (b, reply) := OnReqVote(x.At(t, p), req);
    var asked := TakeVoteRequest(v, run, n, p);
    Moved(v, t, first, run, asked, x, p, b);
    ThreeNodes(v, t, first, asked, x.With(t, p, b));
    longer := TakeCount(v, asked, VoteAnswer(p, req, reply));
    Moved(v, t, first, asked, longer, x.With(t, p, b), n, OnVoteReply(x.At(t, n), p, req, reply));
  }

  lemma Wins(v: Variant, t: Trio, first: seq<System>, run: seq<System>, x: Three, n: NodeId)
    returns (longer: seq<System>)
    requires Reaches(v, t, first, run, x) && n in t.All() && WinsElection(x.At(t, n), 3)
    ensures Reaches(v, t, first, longer, x.With(t, n, BecomeLeader(x.At(t, n), t.All())))
  {
    ThreeNodes(v, t, first, run, x);
    hide Reaches, Ongoing, Extends, BecomeLeader, WinsElection;
    longer := TakeWin(v, run, n);
    Moved(v, t, first, run, longer, x, n, BecomeLeader(x.At(t, n), t.All()));
  }

  lemma Puts(v: Variant, t: Trio, first: seq<System>, run: seq<System>, x: Three, n: NodeId, key: string, value: string)
    returns (longer: seq<System>)
    requires Reaches(v, t, first, run, x) && n in t.All() && x.At(t, n).identity == LEADER
    ensures Reaches(v, t, first, longer, x.With(t, n, AppendPut(x.At(t, n), n, t.All(), key, value)))
  {
    ThreeNodes(v, t, first, run, x);
    hide Reaches, Ongoing, Extends, AppendPut;
    longer := TakePut(v, run, n, key, value);
    Moved(v, t, first, run, longer, x, n, AppendPut(x.At(t, n), n, t.All(), key, value));
  }

  lemma Appends(v: Variant, t: Trio, first: seq<System>, run: seq<System>, x: Three, n: NodeId, p: NodeId,
                next: int, len: int, purpose: Purpose) returns (longer: seq<System>)
    requires Reaches(v, t, first, run, x) && n in t.All() && p in t.All() && n != p
    requires CanSend(v, x.At(t, n), p, next, len, purpose)
    ensures var a, b := x.At(t, n), x.At(t, p); var req := PrepareAppend(v, a, n, p, next, len);
      var (b', reply) := OnAppendEntries(v, b, req);
      && Reaches(v, t, first, longer, x.With(t, p, b'))
      && AppendAnswer(p, next, len, purpose, req, reply) in Last(longer).net
      && Last(run).hist.executed <= Last(longer).hist.executed
      && (AdvancesCommit(v, b, req) ==>
          ExecutedBetween(p, b'.log, b.lastApplied, b'.commitIndex) <= Last(longer).hist.executed)
  {
    ThreeNodes(v, t, first, run, x);
    hide Reaches, Ongoing, CanSend, PrepareAppend, OnAppendEntries, AdvancesCommit, ExecutedBetween;
    assert v.AsCoded? ==> p in x.At(t, n).matchIndex by { SenderKnows(v, x.At(t, n), p, next, len, purpose); }
    longer := TakeAppend(v, run, n, p, next, len, purpose);
    hide Extends;
    var req := PrepareAppend(v, x.At(t, n), n, p, next, len);
    Moved(v, t, first, run, longer, x, p, OnAppendEntries(v, x.At(t, p), req).0);
  }

  lemma SenderKnows(v: Variant, a: Node, p: NodeId, next: int, len: int, purpose: Purpose)
    requires CanSend(v, a, p, next, len, purpose)
    ensures p in a.matchIndex
  {}

  lemma Restarts(v: Variant, t: Trio, first: seq<System>, run: seq<System>, x: Three, n: NodeId)
    returns (longer: seq<System>)
    requires Reaches(v, t, first, run, x) && n in t.All()
    ensures Reaches(v, t, first, longer, x.With(t, n, Restarted(x.At(t, n))))
  {
    ThreeNodes(v, t, first, run, x);
    hide Reaches, Ongoing, Extends;
    var a := x.At(t, n);
    longer := Take(v, run, Restart(n, a.currentTerm, a.log), n, Restarted(a));
    Moved(v, t, first, run, longer, x, n, Restarted(a));
  }

  /** A node uses an answer to one of its requests. */
  lemma Uses(v: Variant, t: Trio, first: seq<System>, run: seq<System>, x: Three, m: Message)
    returns (longer: seq<System>)
    requires Reaches(v, t, first, run, x) && run != [] && m in Last(run).net
    requires m.AppendAnswer? && m.areq.leader in t.All()
    ensures var a := x.At(t, m.areq.leader);
      var b := OnAppendReply(v, a, m.from, m.next, m.len, m.purpose, m.areq, m.areply);
      Reaches(v, t, first, longer, x.With(t, m.areq.leader, b))
  {
    ThreeNodes(v, t, first, run, x);
    hide Reaches, Ongoing, Extends, OnAppendReply;
    longer := TakeAnswer(v, run, m);
    var b := OnAppendReply(v, x.At(t, m.areq.leader), m.from, m.next, m.len, m.purpose, m.areq, m.areply);
    Moved(v, t, first, run, longer, x, m.areq.leader, b);
  }
}
