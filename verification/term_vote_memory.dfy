/** The in-memory term and votes (`VolatileTermVote`). A result `false` stands for the source's throw. */
module TermVoteMemory {
  import opened RaftTypes

  class VolatileTermVote {
    var votedFor: map<int, NodeId>
    var currentTerm: int

    constructor ()
      ensures votedFor == map[] && currentTerm == 0
    {
      votedFor, currentTerm := map[], 0;
    }

    /** The term never falls: lowering it throws. */
    method UpdateCurrentTerm(term: int) returns (ok: bool)
      modifies this`currentTerm
      ensures ok <==> term >= old(currentTerm)
      ensures currentTerm == if ok then term else old(currentTerm)
    {
      ok := currentTerm <= term;
      if ok {
        currentTerm := term;
      }
    }

    /** A vote is write-once: voting again in a term throws. */
    method AddVotedFor(term: int, ip: NodeId) returns (ok: bool)
      modifies this`votedFor
      ensures ok <==> term !in old(votedFor)
      ensures votedFor == if ok then old(votedFor)[term := ip] else old(votedFor)
    {
      ok := term !in votedFor;
      if ok {
        votedFor := votedFor[term := ip];
      }
    }

    function GetVotedFor(term: int): NodeId
      reads this
    {
      if term in votedFor then votedFor[term] else ""
    }

    predicate HasVoted(term: int)
      reads this
    {
      term in votedFor
    }
  }
}
