/** Puts of one leader overlap: the commit index follows whichever finishes last, as coded and repaired. */
module OverlappingPuts {
  import opened RaftTypes
  import opened RaftNode
  import opened LeaderPointer
  import opened RaftSystem
  import opened Driving

  /** Finishing a put keeps the commit index from falling exactly when no later put finished before it. */
  lemma CommitFallsExactly(n: Node, id: PutId)
    ensures FinishPut(n, id).commitIndex >= n.commitIndex <==> id.len - 1 >= n.commitIndex
  {}

  function Candidate(n: NodeId): Node { StartElection(FreshNode(), n, {n}) }
  function Leader(n: NodeId): Node { BecomeLeader(Candidate(n), {n}) }
  function First(n: NodeId): Node { AppendPut(Leader(n), n, {n}, "k", "v") }
  function Both(n: NodeId): Node { AppendPut(First(n), n, {n}, "k", "w") }
  function Later(n: NodeId): Node { FinishPut(Both(n), PutId(1, 3)) }
  function Earlier(n: NodeId): Node { FinishPut(Later(n), PutId(1, 2)) }

  lemma Facts(n: NodeId)
    ensures FreshNode().identity == FOLLOWER && WinsElection(Candidate(n), 1)
    ensures Leader(n).identity == LEADER && First(n).identity == LEADER
    ensures PutId(1, 3) in Both(n).puts && PutId(1, 2) in Later(n).puts
    ensures Later(n).commitIndex == 2 && Earlier(n).commitIndex == 1
  {
    assert |First(n).log| == 2;
  }

  predicate Alone(n: NodeId, s: System, a: Node) {
    s.nodes == map[n := a]
  }

  lemma AloneSize(n: NodeId, s: System, a: Node)
    requires Alone(n, s, a)
    ensures s.nodes.Keys == {n} && |s.nodes| == 1 && n in s.nodes && s.nodes[n] == a
    ensures forall b: Node :: s.nodes[n := b] == map[n := b]
  {
    assert |s.nodes| == |s.nodes.Keys|;
  }

  /** A single node puts twice. */
  lemma PutBoth(v: Variant, n: NodeId) returns (run: seq<System>)
    requires n != ""
    ensures Ongoing(v, run) && Alone(n, Last(run), Both(n))
  {
    Facts(n);
    var history := History({}, map[], map[0 := [SENTINEL]], map[], {}, map[]);
    run := [System(map[n := FreshNode()], {}, history, Pointer(0, ""))];
    assert Ongoing(v, run);
    hide Run, StartElection, BecomeLeader, AppendPut, WinsElection, FinishPut;
    AloneSize(n, Last(run), FreshNode());
    run := TakeTimeout(v, run, n);
    AloneSize(n, Last(run), Candidate(n));
    run := TakeWin(v, run, n);
    AloneSize(n, Last(run), Leader(n));
    run := TakePut(v, run, n, "k", "v");
    AloneSize(n, Last(run), First(n));
    run := TakePut(v, run, n, "k", "w");
  }

  /** A leader's commit index is not monotone: here it falls from one state of a run to the next. */
  lemma CommitIndexFalls(v: Variant, n: NodeId) returns (run: seq<System>, i: nat)
    requires n != ""
    ensures Run(v, run) && i + 1 < |run| && n in run[i].nodes && n in run[i + 1].nodes
    ensures run[i + 1].nodes[n].commitIndex < run[i].nodes[n].commitIndex
  {
    Facts(n);
    hide Run, FinishPut, Both;
    run := PutBoth(v, n);
    AloneSize(n, Last(run), Both(n));
    run := TakeCommit(v, run, n, PutId(1, 3));
    AloneSize(n, Last(run), Later(n));
    i := |run| - 1;
    run := TakeCommit(v, run, n, PutId(1, 2));
  }
}
