/**
 Runs of three nodes in which the first is elected and puts a command. The put reaches its majority; and, as coded,
 two nodes execute different commands at one index, because the commit index that travels with a request is not
 capped at what the request covers (R4).
 */
module Witness {
  import opened RaftTypes
  import opened ApplyLog
  import opened RaftNode
  import opened RaftSystem
  import opened RaftTheorems
  import opened Driving

  const COMMAND := Entry(1, "k", "v")

  // The nodes along the run

  function Asking(t: Trio): Node { StartElection(FreshNode(), t.a, t.All()) }
  function Ballot(t: Trio): VoteRequest { VoteRequest(1, t.a, 0, 0) }
  function Voter(t: Trio): Node { FreshNode().(currentTerm := 1, votedFor := map[1 := t.a]) }
  function Elected(t: Trio): Node { Asking(t).(votesGained := 2, awaiting := {t.c}) }
  function Leading(t: Trio): Node { BecomeLeader(Elected(t), t.All()) }
  function Putting(t: Trio): Node { AppendPut(Leading(t), t.a, t.All(), "k", "v") }
  function PutRequest(t: Trio): AppendRequest { AppendRequest(1, t.a, 0, 0, [COMMAND], 0) }
  function Holder(t: Trio): Node { Voter(t).(log := [SENTINEL, COMMAND]) }
  function Acked(t: Trio): Node {
    Putting(t).(nextIndex := Putting(t).nextIndex[t.b := 2], matchIndex := Putting(t).matchIndex[t.b := 1],
               puts := map[PutId(1, 2) := Put(2, {t.c})])
  }
  function Committed(t: Trio): Node { FinishPut(Acked(t), PutId(1, 2)) }
  function EarlyRequest(t: Trio): AppendRequest { AppendRequest(1, t.a, 0, 0, [], 1) }
  function Overrun(): Node {
    FreshNode().(commitIndex := 1, lastApplied := 1, store := map["NULL" := "NULL", "" := ""])
  }

  lemma Voting(t: Trio)
    requires t.Distinct()
    ensures FreshNode().identity == FOLLOWER
    ensures Asking(t).identity == CANDIDATE && t.b in Asking(t).awaiting
    ensures VoteRequestOf(Asking(t), t.a) == Ballot(t)
    ensures OnReqVote(FreshNode(), Ballot(t)) == (Voter(t), VoteReply(1, true))
    ensures OnVoteReply(Asking(t), t.b, Ballot(t), VoteReply(1, true)) == Elected(t)
    ensures WinsElection(Elected(t), 3)
  {}

  lemma Replicating(v: Variant, t: Trio)
    requires t.Distinct()
    ensures Leading(t).identity == LEADER && CanSend(v, Putting(t), t.b, 1, 2, ForPut(PutId(1, 2)))
    ensures PrepareAppend(v, Putting(t), t.a, t.b, 1, 2) == PutRequest(t) && PutRequest(t).leader == t.a
    ensures OnAppendEntries(v, Voter(t), PutRequest(t)) == (Holder(t), AppendReply(1, true))
  {
    assert [SENTINEL] + [COMMAND] == [SENTINEL, COMMAND];
    assert InsertCoded([SENTINEL], 1, [COMMAND]) == InsertRepaired([SENTINEL], 1, [COMMAND]) == [SENTINEL, COMMAND];
    hide InsertCoded, InsertRepaired;
  }

  lemma Acknowledged(v: Variant, t: Trio)
    requires t.Distinct()
    ensures var id := PutId(1, 2);
      && OnAppendReply(v, Putting(t), t.b, 1, 2, ForPut(id), PutRequest(t), AppendReply(1, true)) == Acked(t)
      && id in Acked(t).puts && ReceivedMajority(Acked(t).puts[id].count, 3)
      && EntryAt(Acked(t).log, 1) == COMMAND && Acked(t).lastApplied == 0
  {
    var id := PutId(1, 2);
    assert t.All() - {t.a} == {t.b, t.c};
    assert Putting(t).puts == map[id := Put(1, {t.b, t.c})];
    assert {t.b, t.c} - {t.b} == {t.c};
    assert Putting(t).puts[id := Put(2, {t.c})] == map[id := Put(2, {t.c})];
  }

  lemma Overrunning(t: Trio)
    requires t.Distinct()
    ensures CanSend(AsCoded, Committed(t), t.c, 1, 1, Heartbeat)
    ensures PrepareAppend(AsCoded, Committed(t), t.a, t.c, 1, 1) == EarlyRequest(t)
    ensures OnAppendEntries(AsCoded, FreshNode(), EarlyRequest(t)) == (Overrun(), AppendReply(0, true))
    ensures AdvancesCommit(AsCoded, FreshNode(), EarlyRequest(t)) && FreshNode().lastApplied == 0
    ensures Overrun().commitIndex == 1 && EntryAt(Overrun().log, 1) == Entry(0, "", "")
  {
    assert InsertCoded([SENTINEL], 1, []) == [SENTINEL];
    assert Applied(map[], [SENTINEL], 0, 0) == map["NULL" := "NULL"];
    assert Applied(map[], [SENTINEL], 0, 1) == map["NULL" := "NULL", "" := ""];
  }

  // The runs

  /** `a` times out, gets the vote of `b`, and leads term 1. */
  lemma Elect(v: Variant, t: Trio) returns (first: seq<System>, run: seq<System>)
    requires t.Distinct()
    ensures Reaches(v, t, first, run, Three(Leading(t), Voter(t), FreshNode()))
  {
    Voting(t);
    hide Reaches, Asking, Elected, Voter, FreshNode, OnReqVote, OnVoteReply, VoteRequestOf, WinsElection;
    first := Begin(v, t);
    run := Timeouts(v, t, first, first, Three(FreshNode(), FreshNode(), FreshNode()), t.a);
    assert StartElection(FreshNode(), t.a, t.All()) == Asking(t) by { AskingIs(t); }
    run := Votes(v, t, first, run, Three(Asking(t), FreshNode(), FreshNode()), t.a, t.b);
    run := Wins(v, t, first, run, Three(Elected(t), Voter(t), FreshNode()), t.a);
  }

  lemma AskingIs(t: Trio)
    ensures Asking(t) == StartElection(FreshNode(), t.a, t.All())
  {}

  /** It puts a command and appends it to `b`. */
  lemma PutAndAppend(v: Variant, t: Trio) returns (first: seq<System>, run: seq<System>)
    requires t.Distinct()
    ensures Reaches(v, t, first, run, Three(Putting(t), Holder(t), FreshNode()))
    ensures run != []
    ensures AppendAnswer(t.b, 1, 2, ForPut(PutId(1, 2)), PutRequest(t), AppendReply(1, true)) in Last(run).net
  {
    Replicating(v, t);
    hide Leading, Voter, Holder, FreshNode, PutRequest, OnAppendEntries, AppendPut, CanSend;
    first, run := Elect(v, t);
    hide Reaches;
    run := Puts(v, t, first, run, Three(Leading(t), Voter(t), FreshNode()), t.a, "k", "v");
    hide Putting, PrepareAppend;
    run := Appends(v, t, first, run, Three(Putting(t), Voter(t), FreshNode()), t.a, t.b, 1, 2, ForPut(PutId(1, 2)));
  }

  /** A put can reach its majority, as coded and repaired: the guarantees about it are not about nothing. */
  lemma PutReachesItsMajority(v: Variant, t: Trio) returns (first: seq<System>, run: seq<System>)
    requires t.Distinct()
    ensures Reaches(v, t, first, run, Three(Acked(t), Holder(t), FreshNode()))
    ensures HasMajority(Last(run), t.a, PutId(1, 2))
  {
    Replicating(v, t);
    Acknowledged(v, t);
    hide Putting, Acked, Holder, FreshNode, PutRequest, OnAppendReply, Reaches, Ongoing;
    var x := Three(Putting(t), Holder(t), FreshNode());
    var answered;
    first, answered := PutAndAppend(v, t);
    ThreeNodes(v, t, first, answered, x);
    var m := AppendAnswer(t.b, 1, 2, ForPut(PutId(1, 2)), PutRequest(t), AppendReply(1, true));
    run := TakeAnswer(v, answered, m);
    Moved(v, t, first, answered, run, x, t.a, Acked(t));
    ThreeNodes(v, t, first, run, Three(Acked(t), Holder(t), FreshNode()));
  }

  lemma Commit(v: Variant, t: Trio) returns (first: seq<System>, run: seq<System>)
    requires t.Distinct()
    ensures Reaches(v, t, first, run, Three(Committed(t), Holder(t), FreshNode()))
    ensures run != [] && Executed(t.a, 1, COMMAND) in Last(run).hist.executed
  {
    Acknowledged(v, t);
    hide Acked, Holder, FreshNode, FinishPut, OnAppendReply, Reaches, Ongoing;
    var x := Three(Acked(t), Holder(t), FreshNode());
    var acked;
    first, acked := PutReachesItsMajority(v, t);
    ThreeNodes(v, t, first, acked, x);
    run := TakeCommit(v, acked, t.a, PutId(1, 2));
    Moved(v, t, first, acked, run, x, t.a, Committed(t));
  }

  /** State Machine Safety fails of the code as written: here two nodes execute different commands at index 1. */
  lemma StateMachineSafetyFailsAsCoded(t: Trio) returns (run: seq<System>, x: Executed, y: Executed)
    requires t.Distinct()
    ensures |run| > 0 && Run(AsCoded, run)
    ensures x in Last(run).hist.executed && y in Last(run).hist.executed
    ensures x.index == y.index && x.entry != y.entry
  {
    Overrunning(t);
    hide Committed, Holder, FreshNode, EarlyRequest, Overrun, OnAppendEntries, PrepareAppend, CanSend,
      AdvancesCommit, Run;
    x, y := Executed(t.a, 1, COMMAND), Executed(t.c, 1, Entry(0, "", ""));
    var first;
    first, run := Commit(AsCoded, t);
    run := Appends(AsCoded, t, first, run, Three(Committed(t), Holder(t), FreshNode()), t.a, t.c, 1, 1, Heartbeat);
  }
}
