/** Any sequence of writes followed by a crash: what is recovered is what the writes add up to. */
module DurableRuns {
  import opened RaftTypes
  import opened RaftNode
  import opened Text
  import opened ReplicatedLogFile
  import opened StateStore

  /** What must outlive a crash. */
  datatype Durable = Durable(term: int, votes: map<int, NodeId>, log: seq<Entry>)

  datatype Write =
    | NewTerm(term: int)
    | CastVote(term: int, ip: NodeId)
    | AddEntry(entry: Entry)
    | InsertEntries(start: int, entries: seq<Entry>)

  /** Terms only rise, votes are write-once, and an insertion does to the log what `Insert` does, coded or repaired. */
  function Written(v: Variant, k: Durable, w: Write): Durable {
    match w
    case NewTerm(term) => if term >= k.term then k.(term := term) else k
    case CastVote(term, ip) => if term in k.votes then k else k.(votes := k.votes[term := ip])
    case AddEntry(e) => k.(log := k.log + [e])
    case InsertEntries(start, es) => k.(log := InsertLog(v, k.log, start, es))
  }

  function AllWritten(v: Variant, k: Durable, ws: seq<Write>): Durable {
    if ws == [] then k else Written(v, AllWritten(v, k, ws[..|ws| - 1]), ws[|ws| - 1])
  }

  /**
   The fields can be stored, and a vote is for a term the node has reached or already voted in. As coded with P1 an
   insertion must reach the end of the log: exactly then it leaves file and memory alike.
   */
  predicate Storable(v: Variant, k: Durable, w: Write) {
    match w
    case NewTerm(_) => true
    case CastVote(term, ip) => Plain(ip) && ip != "" && (term <= k.term || term in k.votes)
    case AddEntry(e) => PlainEntry(e)
    case InsertEntries(start, es) =>
      PlainEntries(es) && (v.AsCoded? ==> start < 0 || start + |es| >= |k.log|)
  }

  function KeptBy(h: StateHelper): Durable
    reads h.vVotes, h.vLog
  {
    Durable(h.vVotes.currentTerm, h.vVotes.votedFor, h.Log())
  }

  lemma InsertKeepsSome(v: Variant, log: seq<Entry>, start: int, es: seq<Entry>)
    ensures log != [] ==> InsertLog(v, log, start, es) != []
  {
    InsertAfterKept(log, start, es);
    hide InsertRepaired;
  }

  method Perform(v: Variant, h: StateHelper, w: Write)
    requires h.LogDurable() && h.VotesDurable() && h.Log() != [] && Storable(v, KeptBy(h), w)
    modifies h.pVotes, h.vVotes, h.pLog, h.vLog
    ensures h.LogDurable() && h.VotesDurable() && h.Log() != [] && KeptBy(h) == Written(v, old(KeptBy(h)), w)
  {
    hide StateHelper.LogDurable, StateHelper.VotesDurable, Entries, Image, Plain, CreateLogEntry, InsertRepaired,
      InsertCoded;
    match w {
      case NewTerm(term) => var ok := h.AddCurrentTerm(term);
      case CastVote(term, ip) => h.AddVotedFor(term, ip);
      case AddEntry(e) => h.Append(e);
      case InsertEntries(start, es) =>
        InsertKeepsSome(v, h.Log(), start, es);
        if v.AsCoded? {
          var ok, _ := h.Insert(start, es);
        } else {
          var _ := h.InsertAgreeing(start, es);
        }
    }
  }

  /** After any writes that can be stored, a crash and a restart recover exactly what they add up to. */
  method WriteThenCrash(v: Variant, h: StateHelper, ws: seq<Write>) returns (after: StateHelper)
    requires h.LogDurable() && h.VotesDurable() && h.Log() != []
    requires forall i :: 0 <= i < |ws| ==> Storable(v, AllWritten(v, KeptBy(h), ws[..i]), ws[i])
    modifies h.pVotes, h.vVotes, h.pLog, h.vLog
    ensures fresh(after.Repr()) && after.LogDurable() && after.VotesDurable()
    ensures KeptBy(after) == AllWritten(v, old(KeptBy(h)), ws)
  {
    hide StateHelper.LogDurable, StateHelper.VotesDurable, Entries, Written, Storable;
    ghost var k := KeptBy(h);
    assert ws[..0] == [];
    for i := 0 to |ws|
      invariant h.LogDurable() && h.VotesDurable() && h.Log() != []
      invariant KeptBy(h) == AllWritten(v, k, ws[..i])
    {
      assert ws[..i + 1][..i] == ws[..i];
      Perform(v, h, ws[i]);
    }
    assert ws[..|ws|] == ws;
    var ok;
    after, ok := StateHelper.Restart(h);
  }
}
