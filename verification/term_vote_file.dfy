/** The term-vote file: lines of `term,ip`, an empty ip recording only the term (`PersistentTermVote`). */
module TermVoteFile {
  import opened RaftTypes
  import opened Text

  datatype VoteEntry = VoteEntry(term: int, votedFor: NodeId)

  function VoteText(term: int, ip: NodeId): string {
    ToString(term) + "," + ip
  }

  function CreateVoteEntry(term: int, ip: NodeId): string {
    VoteText(term, ip) + "\n"
  }

  function ParseVote(line: string): VoteEntry {
    var termEnd := Find(line, ',', 0);
    var term := Atoi(Substr(line, 0, termEnd));
    var votedEnd := Find(line, ',', termEnd + 1);
    VoteEntry(term, Substr(line, termEnd + 1, votedEnd - termEnd - 1))
  }

  function ParseVotes(file: string): seq<VoteEntry> {
    var lines := Lines(file);
    seq(|lines|, i requires 0 <= i < |lines| => ParseVote(lines[i]))
  }

  /** What the entries add up to: the highest term (at least 0) and the vote of each term. */
  datatype Tally = Revote | Tally(term: int, votes: map<int, NodeId>)

  /** `StateHelper::Init` over the entries; a second vote in one term makes it throw. */
  function Replay(entries: seq<VoteEntry>): Tally {
    if entries == [] then Tally(0, map[]) else Cast(Replay(entries[..|entries| - 1]), entries[|entries| - 1])
  }

  function Cast(t: Tally, e: VoteEntry): Tally {
    if t.Revote? || (e.votedFor != "" && e.term in t.votes) then Revote
    else Tally(if e.term > t.term then e.term else t.term,
               if e.votedFor != "" then t.votes[e.term := e.votedFor] else t.votes)
  }

  /** Two entries vote in one term. */
  ghost predicate VotesTwice(entries: seq<VoteEntry>) {
    exists i, j :: 0 <= i < j < |entries| && entries[i].votedFor != "" && entries[j].votedFor != ""
      && entries[i].term == entries[j].term
  }

  /** The highest term of the entries, at least 0, and exactly the votes they name. */
  ghost predicate TalliesOf(entries: seq<VoteEntry>, term: int, votes: map<int, NodeId>) {
    && term >= 0 && (forall e | e in entries :: e.term <= term)
    && (term != 0 ==> exists e :: e in entries && e.term == term)
    && (forall e | e in entries && e.votedFor != "" :: e.term in votes && votes[e.term] == e.votedFor)
    && (forall t | t in votes :: votes[t] != "" && VoteEntry(t, votes[t]) in entries)
  }

  lemma TallyNext(front: seq<VoteEntry>, e: VoteEntry, term: int, votes: map<int, NodeId>)
    requires TalliesOf(front, term, votes) && (e.votedFor != "" ==> e.term !in votes)
    ensures TalliesOf(front + [e], if e.term > term then e.term else term,
                      if e.votedFor != "" then votes[e.term := e.votedFor] else votes)
  {
    var now := front + [e];
    assert e in now && forall x | x in front :: x in now;
  }

  lemma TwiceNext(front: seq<VoteEntry>, e: VoteEntry, term: int, votes: map<int, NodeId>)
    requires TalliesOf(front, term, votes) && !VotesTwice(front)
    ensures VotesTwice(front + [e]) <==> e.votedFor != "" && e.term in votes
  {
    var now, k := front + [e], |front|;
    if e.votedFor != "" && e.term in votes {
      var i :| 0 <= i < k && front[i] == VoteEntry(e.term, votes[e.term]);
      assert now[i] == front[i] && now[k] == e;
    }
  }

  lemma TwiceStays(front: seq<VoteEntry>, e: VoteEntry)
    requires VotesTwice(front)
    ensures VotesTwice(front + [e])
  {
    var i, j :| 0 <= i < j < |front| && front[i].votedFor != "" && front[j].votedFor != ""
      && front[i].term == front[j].term;
    assert (front + [e])[i] == front[i] && (front + [e])[j] == front[j];
  }

  /**
   What a replay yields, by the entries alone: the highest term and exactly the votes they name; and it stops exactly
   when two entries vote in one term.
   */
  lemma {:induction false} ReplayLaw(entries: seq<VoteEntry>)
    ensures Replay(entries).Revote? <==> VotesTwice(entries)
    ensures var t := Replay(entries); t.Tally? ==> TalliesOf(entries, t.term, t.votes)
  {
    if entries != [] {
      hide VotesTwice, TalliesOf;
      var front, e := entries[..|entries| - 1], entries[|entries| - 1];
      ReplayLaw(front);
      assert entries == front + [e];
      var t := Replay(front);
      if t.Revote? {
        TwiceStays(front, e);
      } else {
        TwiceNext(front, e, t.term, t.votes);
        if !Replay(entries).Revote? { TallyNext(front, e, t.term, t.votes); }
      }
    }
  }

  /** The line of a vote, character by character. */
  lemma VoteLineExample()
    ensures CreateVoteEntry(12, "ip") == "12,ip\n" && CreateVoteEntry(3, "") == "3,\n"
  {
    assert Digits(12) == Digits(1) + [DigitChar(2)] == "12";
  }

  /** A printed vote parses back. */
  lemma VoteRoundTrip(term: int, ip: NodeId)
    requires Plain(ip)
    ensures ParseVote(VoteText(term, ip)) == VoteEntry(term, ip)
    ensures Lacks(VoteText(term, ip), '\n')
  {
    PrintedIsPlain(term);
    AtoiToString(term);
    var line := VoteText(term, ip);
    var i := |ToString(term)|;
    assert line[0..i] == ToString(term) && line[i + 1..] == ip;
    FieldEnd(line, 0, i);
    LastField(line, i + 1);
    hide ToString, Find;
  }

  /** Appending an entry to whole lines casts that entry, nothing else. */
  lemma ReplayAppend(file: string, term: int, ip: NodeId)
    requires Plain(ip) && WholeLines(file)
    ensures WholeLines(file + CreateVoteEntry(term, ip))
    ensures ParseVotes(file + CreateVoteEntry(term, ip)) == ParseVotes(file) + [VoteEntry(term, ip)]
    ensures Replay(ParseVotes(file + CreateVoteEntry(term, ip))) == Cast(Replay(ParseVotes(file)), VoteEntry(term, ip))
  {
    VoteRoundTrip(term, ip);
    hide ParseVote, Lines, Lacks, Cast, VoteText;
    LinesAppend(file, VoteText(term, ip));
  }

  lemma ParseEmpty()
    ensures ParseVotes("") == []
  {}

  lemma ParseFirst(file: string)
    requires file != ""
    ensures ParseVotes(file) == [ParseVote(FirstLine(file))] + ParseVotes(AfterFirstLine(file))
  {
    hide ParseVote, FirstLine, AfterFirstLine;
  }

  /** The open vote file; every write goes to its end. */
  class PersistentTermVote {
    var file: string

    constructor (contents: string)
      ensures file == contents
    {
      file := contents;
    }

    method WriteToLog(term: int, ip: NodeId)
      modifies this
      ensures file == old(file) + CreateVoteEntry(term, ip)
    {
      file := file + CreateVoteEntry(term, ip);
    }

    method AddTerm(term: int)
      modifies this
      ensures file == old(file) + CreateVoteEntry(term, "")
    {
      WriteToLog(term, "");
    }

    method AddVotedFor(term: int, ip: NodeId)
      modifies this
      ensures file == old(file) + CreateVoteEntry(term, ip)
    {
      WriteToLog(term, ip);
    }

    method ParseLog() returns (ret: seq<VoteEntry>)
      ensures ret == ParseVotes(file)
    {
      hide ParseVote, FirstLine, AfterFirstLine, ParseVotes;
      ret := [];
      var rest := file;
      ParseEmpty();
      while rest != ""
        invariant ret + ParseVotes(rest) == ParseVotes(file)
        decreases |rest|
      {
        ParseFirst(rest);
        ret := ret + [ParseVote(FirstLine(rest))];
        rest := AfterFirstLine(rest);
      }
    }
  }
}
