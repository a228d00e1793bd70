/**
 A run of the code as written (with P1) of three nodes in which the retry after a rejection destroys the follower's
 log and counts as an ack: a leader restarts, leads again with a longer log than its follower, and is rejected (R3).
 */
module RejectedRetry {
  import opened RaftTypes
  import opened RaftNode
  import opened RaftSystem
  import opened RaftTheorems
  import opened Driving
  import opened Witness
  import opened LaterLeader

  const SECOND := Entry(2, "k", "u")

  // The nodes along the run

  function Standing(t: Trio): Node { StartElection(Restarted(Putting(t)), t.a, t.All()) }
  function SecondBallot(t: Trio): VoteRequest { VoteRequest(2, t.a, 1, 1) }
  function Backing(t: Trio): Node { Voter(t).(currentTerm := 2, votedFor := map[1 := t.a, 2 := t.a]) }
  function Backed(t: Trio): Node { Standing(t).(votesGained := 2, awaiting := {t.c}) }
  function Regaining(t: Trio): Node { BecomeLeader(Backed(t), t.All()) }
  function Adding(t: Trio): Node { AppendPut(Regaining(t), t.a, t.All(), "k", "u") }
  function Rejectable(t: Trio): AppendRequest { AppendRequest(2, t.a, 1, 1, [SECOND], 0) }
  function Rejected(t: Trio): Node {
    Adding(t).(nextIndex := Adding(t).nextIndex[t.b := 1], matchIndex := Adding(t).matchIndex[t.b := -1])
  }
  function FromTheStart(t: Trio): AppendRequest { AppendRequest(2, t.a, -1, 0, [SECOND], 0) }
  function Destroyed(t: Trio): Node { Backing(t).(log := [SECOND]) }
  function Misled(t: Trio): Node {
    OnAppendReply(AsCoded, Rejected(t), t.b, 2, 3, ForPut(PutId(2, 3)), FromTheStart(t), AppendReply(2, true))
  }

  lemma Regain(t: Trio)
    requires t.Distinct()
    ensures Putting(t).log == [SENTINEL, COMMAND]
    ensures Standing(t).identity == CANDIDATE && t.b in Standing(t).awaiting
    ensures VoteRequestOf(Standing(t), t.a) == SecondBallot(t)
    ensures OnReqVote(Voter(t), SecondBallot(t)) == (Backing(t), VoteReply(2, true))
    ensures OnVoteReply(Standing(t), t.b, SecondBallot(t), VoteReply(2, true)) == Backed(t)
    ensures WinsElection(Backed(t), 3) && Regaining(t).identity == LEADER
  {
    FirstPut(t);
    assert Voter(t).votedFor[2 := t.a] == map[1 := t.a, 2 := t.a];
    assert t.All() - {t.a} - {t.b} == {t.c};
  }

  lemma Added(t: Trio)
    requires t.Distinct()
    ensures Adding(t).log == [SENTINEL, COMMAND, SECOND] && Adding(t).identity == LEADER
    ensures Adding(t).currentTerm == 2 && Adding(t).commitIndex == 0
    ensures Adding(t).puts == map[PutId(2, 3) := Put(1, {t.b, t.c})]
    ensures t.b in Adding(t).nextIndex && t.b in Adding(t).matchIndex && Adding(t).matchIndex[t.b] == 1
  {
    FirstPut(t);
    assert t.All() - {t.a} == {t.b, t.c};
    assert [SENTINEL, COMMAND] + [SECOND] == [SENTINEL, COMMAND, SECOND];
  }

  lemma Rejecting(t: Trio)
    requires t.Distinct()
    ensures CanSend(AsCoded, Adding(t), t.b, 2, 3, ForPut(PutId(2, 3)))
    ensures PrepareAppend(AsCoded, Adding(t), t.a, t.b, 2, 3) == Rejectable(t)
    ensures OnAppendEntries(AsCoded, Backing(t), Rejectable(t)) == (Backing(t), AppendReply(2, false))
    ensures OnAppendReply(AsCoded, Adding(t), t.b, 2, 3, ForPut(PutId(2, 3)), Rejectable(t), AppendReply(2, false))
      == Rejected(t)
    ensures Rejectable(t).leader == t.a && FromTheStart(t).leader == t.a
  {
    Added(t);
    hide Adding;
  }

  lemma Destroying(t: Trio)
    requires t.Distinct()
    ensures CanSend(AsCoded, Rejected(t), t.b, 2, 3, ForPut(PutId(2, 3)))
    ensures PrepareAppend(AsCoded, Rejected(t), t.a, t.b, 2, 3) == FromTheStart(t)
    ensures OnAppendEntries(AsCoded, Backing(t), FromTheStart(t)) == (Destroyed(t), AppendReply(2, true))
    ensures Misled(t).log == [SENTINEL, COMMAND, SECOND]
    ensures PutId(2, 3) in Misled(t).puts && ReceivedMajority(Misled(t).puts[PutId(2, 3)].count, 3)
  {
    Added(t);
    hide Adding;
    assert InsertCoded([SENTINEL], 0, [SECOND]) == [SECOND];
  }

  /** `a` restarts, leads term 2 and puts again. */
  lemma LeadLonger(t: Trio, first: seq<System>, run: seq<System>) returns (longer: seq<System>)
    requires Reaches(AsCoded, t, first, run, Three(Putting(t), Voter(t), FreshNode()))
    ensures Reaches(AsCoded, t, first, longer, Three(Adding(t), Backing(t), FreshNode()))
  {
    Regain(t);
    hide Reaches, Putting, Voter, Backing, Backed, FreshNode, SecondBallot, StartElection, OnReqVote, OnVoteReply,
      VoteRequestOf, BecomeLeader, AppendPut, WinsElection;
    var c := FreshNode();
    longer := Restarts(AsCoded, t, first, run, Three(Putting(t), Voter(t), c), t.a);
    longer := Timeouts(AsCoded, t, first, longer, Three(Restarted(Putting(t)), Voter(t), c), t.a);
    longer := Votes(AsCoded, t, first, longer, Three(Standing(t), Voter(t), c), t.a, t.b);
    longer := Wins(AsCoded, t, first, longer, Three(Backed(t), Backing(t), c), t.a);
    longer := Puts(AsCoded, t, first, longer, Three(Regaining(t), Backing(t), c), t.a, "k", "u");
  }

  lemma Retry(t: Trio, first: seq<System>, run: seq<System>, c: Node) returns (longer: seq<System>)
    requires Reaches(AsCoded, t, first, run, Three(Adding(t), Backing(t), c))
    ensures Reaches(AsCoded, t, first, longer, Three(Misled(t), Destroyed(t), c))
  {
    Rejecting(t);
    Destroying(t);
    hide Reaches, Adding, Backing, Rejected, Destroyed, Rejectable, FromTheStart, OnAppendEntries, OnAppendReply,
      PrepareAppend, CanSend;
    var put := ForPut(PutId(2, 3));
    longer := Appends(AsCoded, t, first, run, Three(Adding(t), Backing(t), c), t.a, t.b, 2, 3, put);
    var no := AppendAnswer(t.b, 2, 3, put, Rejectable(t), AppendReply(2, false));
    longer := Uses(AsCoded, t, first, longer, Three(Adding(t), Backing(t), c), no);
    longer := Appends(AsCoded, t, first, longer, Three(Rejected(t), Backing(t), c), t.a, t.b, 2, 3, put);
    var yes := AppendAnswer(t.b, 2, 3, put, FromTheStart(t), AppendReply(2, true));
    longer := Uses(AsCoded, t, first, longer, Three(Rejected(t), Destroyed(t), c), yes);
  }

  /**
   A rejection loses the follower's log and an acknowledged put: the put has its majority, but of the three logs only
   the leader's holds what it put before, and the follower that acked has not even the sentinel left.
   */
  lemma SentinelLostInARun(t: Trio) returns (run: seq<System>)
    requires t.Distinct()
    ensures |run| > 0 && Run(AsCoded, run) && Last(run).nodes.Keys == t.All()
    ensures HasMajority(Last(run), t.a, PutId(2, 3))
    ensures var nodes := Last(run).nodes;
      && nodes[t.a].log == [SENTINEL, COMMAND, SECOND]
      && nodes[t.b].log == [SECOND] && nodes[t.c].log == [SENTINEL]
  {
    Destroying(t);
    assert FreshNode().log == [SENTINEL] && Destroyed(t).log == [SECOND];
    var first;
    first, run := PutOnly(AsCoded, t);
    hide Reaches, Putting, Voter, Adding, Backing, FreshNode, Misled, Destroyed, Run, OnAppendEntries, PrepareAppend,
      CanSend;
    run := LeadLonger(t, first, run);
    run := Retry(t, first, run, FreshNode());
    ReachedRun(AsCoded, t, first, run, Three(Misled(t), Destroyed(t), FreshNode()));
  }
}
