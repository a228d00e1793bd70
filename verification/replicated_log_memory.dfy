/** The in-memory log and its guarded getters (`VolatileReplicatedLog`). */
module ReplicatedLogMemory {
  import opened RaftTypes
  import opened ReplicatedLogFile

  class VolatileReplicatedLog {
    var log: seq<Record>

    constructor ()
      ensures log == []
    {
      log := [];
    }

    method Append(e: Entry, offset: int)
      modifies this
      ensures log == old(log) + [Record(e, offset)]
    {
      log := log + [Record(e, offset)];
    }

    /** Overwrites in place or pushes back; past the end the source throws and nothing changes. */
    method Insert(index: nat, e: Entry, offset: int) returns (ok: bool)
      modifies this
      ensures ok <==> index <= |old(log)|
      ensures log == if index > |old(log)| then old(log)
                     else if index == |old(log)| then old(log) + [Record(e, offset)]
                     else old(log)[index := Record(e, offset)]
    {
      ok := index <= |log|;
      if index == |log| {
        log := log + [Record(e, offset)];
      } else if index < |log| {
        log := log[index := Record(e, offset)];
      }
    }

    /** Drops the entries from `index` on (repair R2). */
    method Truncate(index: nat)
      requires index <= |log|
      modifies this
      ensures log == old(log)[..index]
    {
      log := log[..index];
    }

    function GetOffset(index: int): int
      reads this
    {
      if 0 <= index < |log| then log[index].offset else -1
    }

    function GetTerm(index: int): (term: int)
      reads this
      ensures term == TermAt(Entries(log), index)
      ensures term == if 0 <= index < |log| then log[index].entry.term else 0
    {
      if 0 <= index < |log| then log[index].entry.term else 0
    }

    function GetKey(index: int): (key: string)
      reads this
      ensures key == KeyAt(Entries(log), index)
      ensures key == if 0 <= index < |log| then log[index].entry.key else ""
    {
      if 0 <= index < |log| then log[index].entry.key else ""
    }

    function GetValue(index: int): (value: string)
      reads this
      ensures value == ValueAt(Entries(log), index)
      ensures value == if 0 <= index < |log| then log[index].entry.value else ""
    {
      if 0 <= index < |log| then log[index].entry.value else ""
    }

    function GetLength(): nat
      reads this
    {
      |log|
    }
  }
}
