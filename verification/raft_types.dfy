/** Values shared by the storage classes and by the Raft handlers. */
module RaftTypes {
  /** A node is named by the address other nodes use for it. */
  type NodeId = string

  /** A replicated command, as the Raft messages carry it. */
  datatype Entry = Entry(term: int, key: string, value: string)

  /** The first entry of every log, appended the first time a node starts. */
  const SENTINEL := Entry(0, "NULL", "NULL")

  datatype Identity = LEADER | FOLLOWER | CANDIDATE

  /**
   `AsCoded` follows the source branch by branch, with P1 wherever an insertion does not throw; `Repaired` applies P1
   and the repairs R1 to R5. README.md lists them.
   */
  datatype Variant = AsCoded | Repaired

  // The guarded getters of the in-memory log: out of range they answer 0 and "".

  function TermAt(log: seq<Entry>, i: int): int {
    if 0 <= i < |log| then log[i].term else 0
  }

  function KeyAt(log: seq<Entry>, i: int): string {
    if 0 <= i < |log| then log[i].key else ""
  }

  function ValueAt(log: seq<Entry>, i: int): string {
    if 0 <= i < |log| then log[i].value else ""
  }

  function Min(a: int, b: int): int {
    if a <= b then a else b
  }
}
