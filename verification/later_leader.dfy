/**
 Runs of three nodes in which the first leads term 1 and puts, and the third is elected in term 2 without those
 entries. They show what the code loses even with P1: Log Matching (R2), and a put counted in a later term (R5).
 */
module LaterLeader {
  import opened RaftTypes
  import opened RaftNode
  import opened RaftSystem
  import opened RaftTheorems
  import opened Driving
  import opened Witness

  const OTHER := Entry(1, "k", "u")
  const NEWER := Entry(2, "k", "w")

  // The nodes along the runs

  function Canvassing(t: Trio): Node { StartElection(StartElection(FreshNode(), t.c, t.All()), t.c, t.All()) }
  function LaterBallot(t: Trio): VoteRequest { VoteRequest(2, t.c, 0, 0) }
  function Turned(t: Trio): Node { Voter(t).(currentTerm := 2, votedFor := map[1 := t.a, 2 := t.c]) }
  function Chosen(t: Trio): Node { Canvassing(t).(votesGained := 2, awaiting := {t.a}) }
  function Succeeding(t: Trio): Node { BecomeLeader(Chosen(t), t.All()) }
  function Superseding(t: Trio): Node { AppendPut(Succeeding(t), t.c, t.All(), "k", "w") }
  function LaterRequest(t: Trio): AppendRequest { AppendRequest(2, t.c, 0, 0, [NEWER], 0) }

  lemma Canvass(t: Trio)
    requires t.Distinct()
    ensures FreshNode().identity == FOLLOWER
    ensures StartElection(FreshNode(), t.c, t.All()).identity == CANDIDATE
    ensures Canvassing(t).identity == CANDIDATE && t.b in Canvassing(t).awaiting
    ensures VoteRequestOf(Canvassing(t), t.c) == LaterBallot(t)
    ensures OnReqVote(Voter(t), LaterBallot(t)) == (Turned(t), VoteReply(2, true))
    ensures OnVoteReply(Canvassing(t), t.b, LaterBallot(t), VoteReply(2, true)) == Chosen(t)
    ensures WinsElection(Chosen(t), 3) && Succeeding(t).identity == LEADER
  {
    assert Voter(t).votedFor[2 := t.c] == map[1 := t.a, 2 := t.c];
    assert t.All() - {t.c} - {t.b} == {t.a};
  }

  /** `c` times out twice and `b` votes for it. */
  lemma AskForTermTwo(v: Variant, t: Trio, first: seq<System>, run: seq<System>, a: Node)
    returns (longer: seq<System>)
    requires Reaches(v, t, first, run, Three(a, Voter(t), FreshNode()))
    ensures Reaches(v, t, first, longer, Three(a, Turned(t), Chosen(t)))
  {
    Canvass(t);
    var once := StartElection(FreshNode(), t.c, t.All());
    hide Reaches, Turned, Chosen, Voter, FreshNode, OnReqVote, OnVoteReply, VoteRequestOf, LaterBallot, StartElection;
    longer := Timeouts(v, t, first, run, Three(a, Voter(t), FreshNode()), t.c);
    longer := Timeouts(v, t, first, longer, Three(a, Voter(t), once), t.c);
    longer := Votes(v, t, first, longer, Three(a, Voter(t), Canvassing(t)), t.c, t.b);
  }

  /** `c` wins term 2 and puts. */
  lemma LeadTermTwo(v: Variant, t: Trio, first: seq<System>, run: seq<System>, a: Node, b: Node)
    returns (longer: seq<System>)
    requires Reaches(v, t, first, run, Three(a, b, Chosen(t)))
    ensures Reaches(v, t, first, longer, Three(a, b, Superseding(t)))
  {
    Canvass(t);
    hide Reaches, Chosen, BecomeLeader, AppendPut, WinsElection;
    longer := Wins(v, t, first, run, Three(a, b, Chosen(t)), t.c);
    longer := Puts(v, t, first, longer, Three(a, b, Succeeding(t)), t.c, "k", "w");
  }

  lemma LaterAppend(v: Variant, t: Trio)
    requires t.Distinct()
    ensures CanSend(v, Superseding(t), t.a, 1, 2, Heartbeat) && CanSend(v, Superseding(t), t.b, 1, 2, Heartbeat)
    ensures PrepareAppend(v, Superseding(t), t.c, t.a, 1, 2) == LaterRequest(t)
    ensures PrepareAppend(v, Superseding(t), t.c, t.b, 1, 2) == LaterRequest(t)
  {}

  // Log Matching, as coded

  function PuttingTwice(t: Trio): Node { AppendPut(Putting(t), t.a, t.All(), "k", "u") }
  function Mixed(t: Trio): Node { PuttingTwice(t).(log := [SENTINEL, NEWER, OTHER]) }

  lemma Mixing(t: Trio)
    requires t.Distinct()
    ensures Leading(t).identity == LEADER && Putting(t).identity == LEADER
    ensures PuttingTwice(t).log == [SENTINEL, COMMAND, OTHER]
    ensures OnAppendEntries(AsCoded, PuttingTwice(t), LaterRequest(t)) == (Mixed(t), AppendReply(1, true))
    ensures Mixed(t).identity == LEADER && Mixed(t).currentTerm == 1
  {
    assert [SENTINEL] + [COMMAND] == [SENTINEL, COMMAND];
    assert [SENTINEL, COMMAND] + [OTHER] == [SENTINEL, COMMAND, OTHER];
    assert InsertCoded([SENTINEL, COMMAND, OTHER], 1, [NEWER]) == [SENTINEL, NEWER, OTHER];
  }

  lemma PutTwice(v: Variant, t: Trio) returns (first: seq<System>, run: seq<System>)
    requires t.Distinct()
    ensures Reaches(v, t, first, run, Three(PuttingTwice(t), Voter(t), FreshNode()))
  {
    Mixing(t);
    hide Reaches, Leading, Voter, FreshNode, AppendPut;
    first, run := PutOnly(v, t);
    run := Puts(v, t, first, run, Three(Putting(t), Voter(t), FreshNode()), t.a, "k", "u");
  }

  /** `c` supersedes what `a` put, and `a` overwrites only its first entry. */
  lemma MixLogs(t: Trio, run: seq<System>) returns (longer: seq<System>)
    requires Reaches(AsCoded, t, run, run, Three(PuttingTwice(t), Voter(t), FreshNode()))
    ensures Reaches(AsCoded, t, run, longer, Three(Mixed(t), Turned(t), Superseding(t)))
  {
    Mixing(t);
    LaterAppend(AsCoded, t);
    hide Reaches, PuttingTwice, Mixed, Turned, Superseding, LaterRequest, OnAppendEntries, PrepareAppend, CanSend;
    longer := AskForTermTwo(AsCoded, t, run, run, PuttingTwice(t));
    longer := LeadTermTwo(AsCoded, t, run, longer, PuttingTwice(t), Turned(t));
    var x := Three(PuttingTwice(t), Turned(t), Superseding(t));
    longer := Appends(AsCoded, t, run, longer, x, t.c, t.a, 1, 2, Heartbeat);
  }

  /**
   As coded with P1, Log Matching fails between two moments of one node: at index 2 the terms are equal, the logs up to
   it are not. In the end terms fall along its log, and it still leads term 1 with an entry of term 2.
   */
  lemma LogMatchingFailsAsCoded(t: Trio) returns (run: seq<System>, i: nat)
    requires t.Distinct()
    ensures |run| > 0 && Run(AsCoded, run) && i < |run| && t.a in run[i].nodes && t.a in Last(run).nodes
    ensures var earlier, later := run[i].nodes[t.a], Last(run).nodes[t.a];
      && |earlier.log| == |later.log| == 3
      && earlier.log[2].term == later.log[2].term && earlier.log[..3] != later.log[..3]
      && later.log[1].term > later.log[2].term
      && later.identity == LEADER && later.log[1].term > later.currentTerm
  {
    hide Reaches, PuttingTwice, Mixed, Turned, Superseding, Voter, FreshNode, Run;
    var first, twice := PutTwice(AsCoded, t);
    ReachedRun(AsCoded, t, first, twice, Three(PuttingTwice(t), Voter(t), FreshNode()));
    run := MixLogs(t, twice);
    ReachedRun(AsCoded, t, twice, run, Three(Mixed(t), Turned(t), Superseding(t)));
    i := |twice| - 1;
    assert run[i].nodes[t.a] == PuttingTwice(t) && Last(run).nodes[t.a] == Mixed(t);
    hide Last;
    MixedDiffers(t);
  }

  lemma MixedDiffers(t: Trio)
    requires t.Distinct()
    ensures PuttingTwice(t).log == [SENTINEL, COMMAND, OTHER] && Mixed(t).log == [SENTINEL, NEWER, OTHER]
    ensures PuttingTwice(t).log[..3] != Mixed(t).log[..3]
    ensures Mixed(t).identity == LEADER && Mixed(t).currentTerm == 1
  {
    Mixing(t);
    hide PuttingTwice;
    assert [SENTINEL, COMMAND, OTHER][..3][1] != [SENTINEL, NEWER, OTHER][..3][1];
  }

  // A put counted in a later term

  function Deposed(t: Trio): Node { Putting(t).(currentTerm := 2, identity := FOLLOWER) }
  function Rewritten(t: Trio): Node { Deposed(t).(log := [SENTINEL, NEWER]) }
  function Following(t: Trio): Node { Turned(t).(log := [SENTINEL, NEWER]) }
  function Returning(t: Trio): Node { StartElection(Rewritten(t), t.a, t.All()) }
  function LastBallot(t: Trio): VoteRequest { VoteRequest(3, t.a, 1, 2) }
  function Supporting(t: Trio): Node {
    Following(t).(currentTerm := 3, votedFor := map[1 := t.a, 2 := t.c, 3 := t.a])
  }
  function Reelected(t: Trio): Node { Returning(t).(votesGained := 2, awaiting := {t.c}) }
  function LeadingAgain(t: Trio): Node { BecomeLeader(Reelected(t), t.All()) }
  function LastRequest(t: Trio): AppendRequest { AppendRequest(3, t.a, 1, 2, [], 0) }

  lemma Deposing(v: Variant, t: Trio)
    requires t.Distinct()
    ensures Leading(t).identity == LEADER && Putting(t).log == [SENTINEL, COMMAND]
    ensures Chosen(t).identity == CANDIDATE && t.a in Chosen(t).awaiting
    ensures OnReqVote(Putting(t), VoteRequestOf(Chosen(t), t.c)).0 == Deposed(t)
    ensures OnAppendEntries(v, Deposed(t), LaterRequest(t)).0 == Rewritten(t)
    ensures OnAppendEntries(v, Turned(t), LaterRequest(t)).0 == Following(t)
  {
    assert Putting(t).log == [SENTINEL, COMMAND];
    assert [SENTINEL] + [NEWER] == [SENTINEL, NEWER];
    assert InsertCoded([SENTINEL, COMMAND], 1, [NEWER]) == [SENTINEL, NEWER];
    assert InsertRepaired([SENTINEL, COMMAND], 1, [NEWER]) == [SENTINEL, NEWER];
    assert InsertCoded([SENTINEL], 1, [NEWER]) == InsertRepaired([SENTINEL], 1, [NEWER]) == [SENTINEL, NEWER];
    hide InsertCoded, InsertRepaired;
  }

  lemma Reelecting(t: Trio)
    requires t.Distinct()
    ensures Rewritten(t).identity == FOLLOWER
    ensures Returning(t).identity == CANDIDATE && t.b in Returning(t).awaiting
    ensures VoteRequestOf(Returning(t), t.a) == LastBallot(t)
    ensures OnReqVote(Following(t), LastBallot(t)) == (Supporting(t), VoteReply(3, true))
    ensures OnVoteReply(Returning(t), t.b, LastBallot(t), VoteReply(3, true)) == Reelected(t)
    ensures WinsElection(Reelected(t), 3)
  {
    assert Following(t).votedFor[3 := t.a] == map[1 := t.a, 2 := t.c, 3 := t.a];
    assert t.All() - {t.a} - {t.b} == {t.c};
  }

  lemma StillCounting(v: Variant, t: Trio)
    requires t.Distinct()
    ensures CanSend(v, LeadingAgain(t), t.b, 2, 2, ForPut(PutId(1, 2)))
    ensures PrepareAppend(v, LeadingAgain(t), t.a, t.b, 2, 2) == LastRequest(t)
    ensures OnAppendEntries(v, Supporting(t), LastRequest(t)) == (Supporting(t), AppendReply(3, true))
  {
    assert LeadingAgain(t).puts == Putting(t).puts;
    assert InsertCoded([SENTINEL, NEWER], 2, []) == [SENTINEL, NEWER];
    hide InsertCoded;
  }

  /** `a` steps down for term 2, loses its entry to the one of `c`, and so does not differ from `b`. */
  lemma LoseTheEntry(v: Variant, t: Trio, first: seq<System>, run: seq<System>) returns (longer: seq<System>)
    requires Reaches(v, t, first, run, Three(Putting(t), Voter(t), FreshNode()))
    ensures Reaches(v, t, first, longer, Three(Rewritten(t), Following(t), Superseding(t)))
  {
    Deposing(v, t);
    LaterAppend(v, t);
    hide Reaches, Putting, Deposed, Rewritten, Turned, Following, Chosen, Superseding, LaterRequest, OnReqVote,
      OnAppendEntries, VoteRequestOf, PrepareAppend, CanSend;
    longer := AskForTermTwo(v, t, first, run, Putting(t));
    longer := VoteRequests(v, t, first, longer, Three(Putting(t), Turned(t), Chosen(t)), t.c, t.a);
    longer := LeadTermTwo(v, t, first, longer, Deposed(t), Turned(t));
    var c := Superseding(t);
    longer := Appends(v, t, first, longer, Three(Deposed(t), Turned(t), c), t.c, t.a, 1, 2, Heartbeat);
    longer := Appends(v, t, first, longer, Three(Rewritten(t), Turned(t), c), t.c, t.b, 1, 2, Heartbeat);
  }

  /** `a` is elected again, in term 3. */
  lemma LeadAgain(v: Variant, t: Trio, first: seq<System>, run: seq<System>, c: Node) returns (longer: seq<System>)
    requires Reaches(v, t, first, run, Three(Rewritten(t), Following(t), c))
    ensures Reaches(v, t, first, longer, Three(LeadingAgain(t), Supporting(t), c))
  {
    Reelecting(t);
    hide Reaches, Rewritten, Following, Supporting, Reelected, LastBallot, StartElection, OnReqVote, OnVoteReply,
      VoteRequestOf, BecomeLeader, WinsElection;
    longer := Timeouts(v, t, first, run, Three(Rewritten(t), Following(t), c), t.a);
    longer := Votes(v, t, first, longer, Three(Returning(t), Following(t), c), t.a, t.b);
    longer := Wins(v, t, first, longer, Three(Reelected(t), Supporting(t), c), t.a);
  }

  /** The thread of the old put reaches `b` in term 3. */
  lemma SendForTheOldPut(v: Variant, t: Trio, first: seq<System>, run: seq<System>) returns (longer: seq<System>)
    requires Reaches(v, t, first, run, Three(Putting(t), Voter(t), FreshNode()))
    ensures Reaches(v, t, first, longer, Three(LeadingAgain(t), Supporting(t), Superseding(t))) && longer != []
    ensures AppendAnswer(t.b, 2, 2, ForPut(PutId(1, 2)), LastRequest(t), AppendReply(3, true)) in Last(longer).net
  {
    StillCounting(v, t);
    hide LeadingAgain, Supporting, Superseding, LastRequest, OnAppendEntries, PrepareAppend, CanSend, Putting, Voter,
      FreshNode;
    longer := LoseTheEntry(v, t, first, run);
    longer := LeadAgain(v, t, first, longer, Superseding(t));
    var x := Three(LeadingAgain(t), Supporting(t), Superseding(t));
    longer := Appends(v, t, first, longer, x, t.a, t.b, 2, 2, ForPut(PutId(1, 2)));
  }

  /** What `a` becomes when it uses the last answer as coded. */
  function Deceived(t: Trio): Node {
    OnAppendReply(AsCoded, LeadingAgain(t), t.b, 2, 2, ForPut(PutId(1, 2)), LastRequest(t), AppendReply(3, true))
  }

  lemma FirstPut(t: Trio)
    requires t.Distinct()
    ensures Putting(t).log == [SENTINEL, COMMAND]
    ensures PutId(1, 2) in Putting(t).puts && Putting(t).puts[PutId(1, 2)] == Put(1, t.All() - {t.a})
  {}

  lemma Deceiving(t: Trio)
    requires t.Distinct()
    ensures var id := PutId(1, 2); id in Deceived(t).puts && ReceivedMajority(Deceived(t).puts[id].count, 3)
    ensures Deceived(t).log == [SENTINEL, NEWER]
  {
    FirstPut(t);
    hide Putting;
    assert LeadingAgain(t).puts == Putting(t).puts && LeadingAgain(t).log == [SENTINEL, NEWER];
    hide LeadingAgain;
  }

  lemma OnlyNewer(t: Trio)
    requires t.Distinct()
    ensures Supporting(t).log == [SENTINEL, NEWER] && Superseding(t).log == [SENTINEL, NEWER]
  {
    assert [SENTINEL] + [NEWER] == [SENTINEL, NEWER];
  }

  /**
   Without R5 an acknowledged put is lost, even if every step before is one of the repaired handlers (as coded, with
   P1): its thread, slow to reach `b`, does so after its node was deposed and elected again in term 3. The answer to
   a request of term 3, used as coded, gives the put of term 1 its majority, and no node holds the put's entry.
   */
  lemma OldPutCountedInLaterTerm(v: Variant, t: Trio) returns (run: seq<System>, i: nat, m: Message)
    requires t.Distinct()
    ensures |run| > 0 && Run(v, run) && i < |run| && Enabled(AsCoded, Last(run), UseAppendAnswer(m))
    ensures t.a in run[i].nodes && PutId(1, 2) in run[i].nodes[t.a].puts
    ensures run[i].nodes[t.a].log == [SENTINEL, COMMAND]
    ensures var s := Perform(AsCoded, Last(run), UseAppendAnswer(m));
      HasMajority(s, t.a, PutId(1, 2)) && forall p | p in s.nodes :: COMMAND !in s.nodes[p].log
  {
    hide Reaches, Putting, Voter, FreshNode, LeadingAgain, Supporting, Superseding, LastRequest, Run, Perform;
    var first, put := PutOnly(v, t);
    ReachedRun(v, t, first, put, Three(Putting(t), Voter(t), FreshNode()));
    run := SendForTheOldPut(v, t, put, put);
    ReachedRun(v, t, put, run, Three(LeadingAgain(t), Supporting(t), Superseding(t)));
    i := |put| - 1;
    m := AppendAnswer(t.b, 2, 2, ForPut(PutId(1, 2)), LastRequest(t), AppendReply(3, true));
    FirstPut(t);
    assert LastRequest(t).leader == t.a by { LastLeader(t); }
    UseOldAnswer(t, Last(run), m);
  }

  lemma UseOldAnswer(t: Trio, s: System, m: Message)
    requires t.Distinct() && s.nodes.Keys == t.All() && m in s.net
    requires m == AppendAnswer(t.b, 2, 2, ForPut(PutId(1, 2)), LastRequest(t), AppendReply(3, true))
    requires s.nodes[t.a] == LeadingAgain(t) && s.nodes[t.b] == Supporting(t) && s.nodes[t.c] == Superseding(t)
    ensures Enabled(AsCoded, s, UseAppendAnswer(m))
    ensures var s' := Perform(AsCoded, s, UseAppendAnswer(m));
      HasMajority(s', t.a, PutId(1, 2)) && forall p | p in s'.nodes :: COMMAND !in s'.nodes[p].log
  {
    hide LeadingAgain, Supporting, Superseding, LastRequest, Deceived, Perform, Enabled, Last;
    UsedNodes(t, s, m);
    Deceiving(t);
    OnlyNewer(t);
    LostEverywhere(t, Perform(AsCoded, s, UseAppendAnswer(m)));
  }

  lemma LastLeader(t: Trio)
    ensures LastRequest(t).leader == t.a
  {}

  lemma UsedNodes(t: Trio, s: System, m: Message)
    requires t.Distinct() && s.nodes.Keys == t.All() && m in s.net
    requires m == AppendAnswer(t.b, 2, 2, ForPut(PutId(1, 2)), LastRequest(t), AppendReply(3, true))
    requires s.nodes[t.a] == LeadingAgain(t)
    ensures Enabled(AsCoded, s, UseAppendAnswer(m))
    ensures Perform(AsCoded, s, UseAppendAnswer(m)).nodes == s.nodes[t.a := Deceived(t)]
  {
    LastLeader(t);
    hide LeadingAgain, LastRequest, OnAppendReply, Perform;
    Performed(AsCoded, s, UseAppendAnswer(m));
  }

  lemma LostEverywhere(t: Trio, s: System)
    requires t.Distinct() && s.nodes.Keys == t.All()
    requires forall p | p in t.All() :: s.nodes[p].log == [SENTINEL, NEWER]
    requires PutId(1, 2) in s.nodes[t.a].puts && ReceivedMajority(s.nodes[t.a].puts[PutId(1, 2)].count, 3)
    ensures HasMajority(s, t.a, PutId(1, 2)) && forall p | p in s.nodes :: COMMAND !in s.nodes[p].log
  {
    assert |s.nodes| == |s.nodes.Keys| && |t.All()| == 3;
  }

  lemma PutOnly(v: Variant, t: Trio) returns (first: seq<System>, run: seq<System>)
    requires t.Distinct()
    ensures Reaches(v, t, first, run, Three(Putting(t), Voter(t), FreshNode()))
  {
    Mixing(t);
    hide Reaches, Leading, Voter, FreshNode, AppendPut;
    first, run := Elect(v, t);
    run := Puts(v, t, first, run, Three(Leading(t), Voter(t), FreshNode()), t.a, "k", "v");
  }
}
