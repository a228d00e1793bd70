/** State a node keeps only in memory (`VolatileState`). */
module StateMemory {
  import opened RaftTypes

  class VolatileState {
    var commitIndex: int
    var lastAppliedIndex: int
    var identity: Identity
    var nextIndex: map<NodeId, int>
    var matchIndex: map<NodeId, int>

    constructor ()
      ensures commitIndex == -1 && lastAppliedIndex == -1 && identity == FOLLOWER
      ensures nextIndex == map[] && matchIndex == map[]
    {
      commitIndex, lastAppliedIndex, identity := -1, -1, FOLLOWER;
      nextIndex, matchIndex := map[], map[];
    }

    method SetNextIndex(id: NodeId, value: int)
      modifies this`nextIndex
      ensures nextIndex == old(nextIndex)[id := value]
    {
      nextIndex := nextIndex[id := value];
    }

    method SetMatchIndex(id: NodeId, value: int)
      modifies this`matchIndex
      ensures matchIndex == old(matchIndex)[id := value]
    {
      matchIndex := matchIndex[id := value];
    }

    /** Asking for an unknown peer throws. */
    method GetNextIndex(id: NodeId) returns (ok: bool, value: int)
      ensures ok <==> id in nextIndex
      ensures ok ==> value == nextIndex[id]
    {
      ok := id in nextIndex;
      value := if ok then nextIndex[id] else 0;
    }

    method GetMatchIndex(id: NodeId) returns (ok: bool, value: int)
      ensures ok <==> id in matchIndex
      ensures ok ==> value == matchIndex[id]
    {
      ok := id in matchIndex;
      value := if ok then matchIndex[id] else 0;
    }
  }
}
