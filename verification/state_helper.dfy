/** Durable state and its in-memory mirrors (`StateHelper`). */
module StateStore {
  import opened RaftTypes
  import opened RaftNode
  import opened Text
  import opened ReplicatedLogFile
  import opened ReplicatedLogMemory
  import opened TermVoteFile
  import opened TermVoteMemory
  import opened StateMemory

  class StateHelper {
    const pVotes: PersistentTermVote
    const vVotes: VolatileTermVote
    const pLog: PersistentReplicatedLog
    const vLog: VolatileReplicatedLog
    const vState: VolatileState

    /** Opens the two files and creates empty mirrors; `Init` fills them. */
    constructor (voteFile: string, logFile: string)
      ensures fresh(Repr())
      ensures pVotes.file == voteFile && pLog.file == logFile
      ensures vVotes.votedFor == map[] && vVotes.currentTerm == 0 && vLog.log == []
      ensures vState.identity == FOLLOWER && vState.nextIndex == map[] && vState.matchIndex == map[]
    {
      pVotes := new PersistentTermVote(voteFile);
      vVotes := new VolatileTermVote();
      pLog := new PersistentReplicatedLog(logFile);
      vLog := new VolatileReplicatedLog();
      vState := new VolatileState();
    }

    ghost function Repr(): set<object> {
      {this, pVotes, vVotes, pLog, vLog, vState}
    }

    function Log(): (log: seq<Entry>)
      reads vLog
      ensures |log| == |vLog.log|
      ensures forall i | 0 <= i < |log| :: log[i] == vLog.log[i].entry
    {
      Entries(vLog.log)
    }

    /** The log file is the image of the in-memory log, and every in-memory offset is where its line starts. */
    predicate LogDurable()
      reads pLog, vLog
    {
      PlainEntries(Log()) && pLog.file == Image(Log()) && vLog.log == Records(Log())
    }

    /** Replaying the vote file gives the in-memory term and votes. */
    predicate VotesDurable()
      reads pVotes, vVotes
    {
      WholeLines(pVotes.file) && Replay(ParseVotes(pVotes.file)) == Tally(vVotes.currentTerm, vVotes.votedFor)
    }

    // Term and votes

    /** Records a vote unless the term has one. It survives a crash exactly when its term is not ahead. */
    method AddVotedFor(term: int, ip: NodeId)
      modifies pVotes, vVotes
      ensures vVotes.currentTerm == old(vVotes.currentTerm)
      ensures vVotes.votedFor ==
        if term in old(vVotes.votedFor) then old(vVotes.votedFor) else old(vVotes.votedFor)[term := ip]
      ensures old(VotesDurable()) && Plain(ip) && ip != "" ==>
        (VotesDurable() <==> term in old(vVotes.votedFor) || term <= vVotes.currentTerm)
    {
      hide WholeLines, Replay, ParseVotes, Plain;
      if !vVotes.HasVoted(term) {
        if Plain(ip) && VotesDurable() {
          ReplayAppend(pVotes.file, term, ip);
        }
        pVotes.AddVotedFor(term, ip);
        var ok := vVotes.AddVotedFor(term, ip);
      }
    }

    /** Adopts a term unless it would fall; then the source throws before it writes. */
    method AddCurrentTerm(term: int) returns (ok: bool)
      modifies pVotes, vVotes
      ensures ok <==> term >= old(vVotes.currentTerm)
      ensures vVotes.votedFor == old(vVotes.votedFor)
      ensures vVotes.currentTerm == if ok then term else old(vVotes.currentTerm)
      ensures old(VotesDurable()) ==> VotesDurable()
    {
      hide WholeLines, Replay, ParseVotes;
      ok := vVotes.UpdateCurrentTerm(term);
      if ok {
        if WholeLines(pVotes.file) {
          ReplayAppend(pVotes.file, term, "");
        }
        pVotes.AddTerm(term);
      }
    }

    // The replicated log

    /** Adds an entry at the end of both copies. */
    method Append(e: Entry)
      modifies pLog, vLog
      ensures vLog.log == old(vLog.log) + [Record(e, |old(pLog.file)|)]
      ensures pLog.file == old(pLog.file) + CreateLogEntry(e, |old(pLog.file)|)
      ensures Log() == old(Log()) + [e]
      ensures old(LogDurable()) && PlainEntry(e) ==> LogDurable()
    {
      hide CreateLogEntry, Image, PlainEntry;
      ghost var log := Log();
      var offset := pLog.GetEndOfFileOffset();
      pLog.Append(e, offset);
      vLog.Append(e, offset);
      ImageExtend(log, e);
      assert Log() == log + [e];
    }

    /** Appends several entries; `images` lists the file before the first write and after each. */
    method AppendAll(es: seq<Entry>) returns (ghost images: seq<string>)
      requires LogDurable() && PlainEntries(es)
      modifies pLog, vLog
      ensures LogDurable() && Log() == old(Log()) + es
      ensures |images| == |es| + 1 && forall j | 0 <= j <= |es| :: images[j] == Image(old(Log()) + es[..j])
    {
      hide LogDurable, Image, PlainEntry;
      ghost var log := Log();
      assert log + es[..0] == log;
      DurableImage();
      images := [pLog.file];
      for i := 0 to |es|
        invariant LogDurable() && Log() == log + es[..i]
        invariant |images| == i + 1 && forall j | 0 <= j <= i :: images[j] == Image(log + es[..j])
      {
        Append(es[i]);
        assert log + es[..i + 1] == log + es[..i] + [es[i]];
        DurableImage();
        images := images + [pLog.file];
      }
      assert es[..|es|] == es;
    }

    lemma DurableImage()
      requires LogDurable()
      ensures pLog.file == Image(Log())
    {}

    /** One round of the loop of `Insert`: write a line at `offset`, put the record at `index`, read the cursor. */
    method OverwriteNext(index: nat, e: Entry, offset: nat,
                         ghost log: seq<Entry>, ghost start: nat, ghost done: seq<Entry>)
      returns (ok: bool, next: nat)
      requires start < |log| && index == start + |done| && offset == |pLog.file|
      requires pLog.file == Image(log[..start] + done) && vLog.log == Overwritten(log, start, done)
      modifies pLog, vLog
      ensures ok && next == |pLog.file|
      ensures pLog.file == Image(log[..start] + (done + [e])) && vLog.log == Overwritten(log, start, done + [e])
    {
      hide Image, Overwritten, CreateLogEntry, Records;
      OverwriteOne(log, start, done, e);
      pLog.Insert(offset, e);
      ok := vLog.Insert(index, e, offset);
      next := pLog.cursor;
    }

    /** The loop of `Insert`: the file, cut at `start`, regrows while the mirror is overwritten in place. */
    method OverwriteAll(start: nat, es: seq<Entry>, ghost log: seq<Entry>) returns (ok: bool, ghost images: seq<string>)
      requires start < |log| && vLog.log == Records(log) && pLog.file == Image(log[..start])
      modifies pLog, vLog
      ensures ok
      ensures vLog.log == Overwritten(log, start, es)
      ensures pLog.file == Image(log[..start] + es)
      ensures |images| == |es| + 1 && forall j | 0 <= j <= |es| :: images[j] == Image(log[..start] + es[..j])
    {
      hide Image, Records, Overwritten;
      OverwriteNone(log, start);
      ok, images := true, [pLog.file];
      var offset, index := |pLog.file|, start;
      assert es[..0] == [] && log[..start] + [] == log[..start];
      for i := 0 to |es|
        invariant ok && index == start + i
        invariant pLog.file == Image(log[..start] + es[..i]) && offset == |pLog.file|
        invariant vLog.log == Overwritten(log, start, es[..i])
        invariant |images| == i + 1 && forall j | 0 <= j <= i :: images[j] == Image(log[..start] + es[..j])
      {
        assert es[..i + 1] == es[..i] + [es[i]];
        ok, offset := OverwriteNext(index, es[i], offset, log, start, es[..i]);
        index := index + 1;
        images := images + [pLog.file];
      }
      assert es[..|es|] == es;
    }

    /**
     `Insert` as coded, on this node's own file (P1): the file is cut at the first inserted entry and never gets the
     old tail back, while in memory the old tail stays. So the copies agree exactly when there is no such tail.
     `ok` is false when the in-memory insertion throws, which never happens. `images` lists the file after the cut
     and after each line written: what a crash at that point would leave.
     */
    method Insert(start: int, es: seq<Entry>) returns (ok: bool, ghost images: seq<string>)
      requires LogDurable() && PlainEntries(es)
      modifies pLog, vLog
      ensures ok
      ensures Log() == InsertCoded(old(Log()), start, es)
      ensures pLog.file == if 0 <= start <= |old(Log())| then Image(old(Log())[..start] + es) else old(pLog.file)
      ensures LogDurable() <==> !(0 <= start && start + |es| < |old(Log())|)
      ensures 0 <= start <= |old(Log())| ==> |images| == |es| + 1
      ensures 0 <= start <= |old(Log())| ==>
        forall j | 0 <= j < |images| && j <= |es| :: images[j] == Image(old(Log())[..start] + es[..j])
    {
      ghost var log := Log();
      hide Image, Records, Overwritten, PlainEntries;
      ok, images := true, [];
      if start == vLog.GetLength() {
        assert log[..start] == log;
        images := AppendAll(es);
        return;
      }
      var offset := vLog.GetOffset(start);
      if 0 <= start < |log| {
        ImagePrefix(log, start);
      }
      if offset == -1 {
        return;
      }
      pLog.Truncate(offset);
      ok, images := OverwriteAll(start, es, log);
      OverwrittenLog(log, start, es);
      OverwrittenDurable(log, start, es);
    }

    /**
     `Insert` exactly as written, without P1: it cuts the file at the bare path, which is not this node's. With no file
     there it throws just where it would have cut, and neither copy has changed. With one there, this node's own file
     is overwritten in place and keeps whatever bytes lie behind.
     */
    method InsertUnpatched(start: int, es: seq<Entry>, bareFileExists: bool) returns (ok: bool)
      requires LogDurable() && PlainEntries(es)
      modifies pLog, vLog
      ensures ok <==> bareFileExists || !(0 <= start < |old(Log())|)
      ensures !ok ==> Log() == old(Log()) && pLog.file == old(pLog.file) && LogDurable()
      ensures ok ==> Log() == InsertCoded(old(Log()), start, es)
      ensures ok && !(0 <= start < |old(Log())|) ==> LogDurable()
      ensures ok && 0 <= start < |old(Log())| ==>
        pLog.file == Overlaid(old(pLog.file), Image(old(Log())[..start] + es))
    {
      ghost var log := Log();
      hide Image, Records, Overwritten, PlainEntries;
      ok := true;
      if start == vLog.GetLength() {
        assert log[..start] == log;
        var _ := AppendAll(es);
        return;
      }
      var offset := vLog.GetOffset(start);
      if 0 <= start < |log| {
        ImagePrefix(log, start);
      }
      if offset == -1 {
        return;
      }
      if !bareFileExists {
        ok := false;
        return;
      }
      OverlayAll(start, es, log);
      OverwrittenLog(log, start, es);
    }

    /** The loop of `Insert` over a file that was not cut. */
    method OverlayAll(start: nat, es: seq<Entry>, ghost log: seq<Entry>)
      requires start < |log| && vLog.log == Records(log) && pLog.file == Image(log)
      modifies pLog, vLog
      ensures vLog.log == Overwritten(log, start, es)
      ensures pLog.file == Overlaid(Image(log), Image(log[..start] + es))
    {
      hide Image, Records, Overwritten, CreateLogEntry;
      OverwriteNone(log, start);
      ImagePrefix(log, start);
      OverlaidPrefix(Image(log), Image(log[..start]));
      var offset, index := vLog.GetOffset(start), start;
      assert es[..0] == [] && log[..start] + [] == log[..start];
      for i := 0 to |es|
        invariant index == start + i && offset == |Image(log[..start] + es[..i])|
        invariant pLog.file == Overlaid(Image(log), Image(log[..start] + es[..i]))
        invariant vLog.log == Overwritten(log, start, es[..i])
      {
        assert es[..i + 1] == es[..i] + [es[i]];
        OverwriteOne(log, start, es[..i], es[i]);
        OverlaidNext(Image(log), Image(log[..start] + es[..i]), CreateLogEntry(es[i], offset));
        pLog.Insert(offset, es[i]);
        var ok := vLog.Insert(index, es[i], offset);
        offset := pLog.cursor;
        index := index + 1;
      }
      assert es[..|es|] == es;
    }

    /** Cuts both copies before `index` (R2). */
    method CutAt(index: nat)
      requires LogDurable() && index < |Log()|
      modifies pLog, vLog
      ensures LogDurable() && Log() == old(Log())[..index]
    {
      ghost var log := Log();
      hide Image, Records, PlainEntry;
      ImagePrefix(log, index);
      var offset := vLog.GetOffset(index);
      pLog.Truncate(offset);
      vLog.Truncate(index);
      EntriesOfRecords(log[..index]);
      assert pLog.file == Image(log[..index]) && vLog.log == Records(log[..index]);
    }

    /** How many of the entries the log holds already: the scan the repaired `Insert` starts with. */
    method CountKept(start: nat, es: seq<Entry>) returns (kept: nat)
      requires start <= |Log()|
      ensures kept == Kept(Log(), start, es)
    {
      hide Entries;
      ghost var log := Log();
      kept := 0;
      assert es[0..] == es;
      while kept < |es| && start + kept < vLog.GetLength() && vLog.GetTerm(start + kept) == es[kept].term
        invariant kept <= |es| && start + kept <= |log|
        invariant Kept(log, start, es) == kept + Kept(log, start + kept, es[kept..])
      {
        assert es[kept..][1..] == es[kept + 1..];
        kept := kept + 1;
      }
    }

    /**
     `Insert` once repaired (R2): entries already held are skipped, and only at the first conflict are both copies
     cut; so they always agree. `images` lists what a crash after the cut and after each line would leave.
     */
    method InsertAgreeing(start: int, es: seq<Entry>) returns (ghost images: seq<string>)
      requires LogDurable() && PlainEntries(es)
      modifies pLog, vLog
      ensures LogDurable() && Log() == InsertRepaired(old(Log()), start, es)
      ensures images == [] ==> pLog.file == old(pLog.file)
      ensures forall j: nat | j < |images| ::
        && j <= LinesToWrite(Repaired, old(Log()), start, es)
        && images[j] == Image(TornLog(Repaired, old(Log()), start, es, j))
    {
      hide LogDurable, Image, PlainEntry, Kept, InsertRepaired, Entries;
      ghost var log := Log();
      images := [];
      InsertAfterKept(log, start, es);
      if start < 0 || vLog.GetLength() < start {
        return;
      }
      var i := CountKept(start, es);
      if i == |es| {
        return;
      }
      if start + i < vLog.GetLength() {
        CutAt(start + i);
      } else {
        assert log[..start + i] == log;
      }
      images := AppendAll(es[i..]);
      assert forall j | 0 <= j <= |es| - i :: es[i..][..j] == es[i..i + j];
      assert i == |es| - LinesToWrite(Repaired, log, start, es);
      assert forall j: nat | j <= |es| - i :: TornLog(Repaired, log, start, es, j) == log[..start + i] + es[i..i + j];
    }

    // Recovery

    /** The first half of `Init`: replays the votes, then adopts the highest term. */
    method RecoverVotes() returns (ok: bool)
      requires vVotes.votedFor == map[] && vVotes.currentTerm == 0
      modifies vVotes
      ensures ok <==> !Replay(ParseVotes(pVotes.file)).Revote?
      ensures ok ==> Tally(vVotes.currentTerm, vVotes.votedFor) == Replay(ParseVotes(pVotes.file))
    {
      hide ParseVotes;
      var entries := pVotes.ParseLog();
      var currentTerm := 0;
      for i := 0 to |entries|
        invariant vVotes.currentTerm == 0 <= currentTerm
        invariant Replay(entries[..i]) == Tally(currentTerm, vVotes.votedFor)
      {
        var e := entries[i];
        ReplayNext(entries, i);
        if e.votedFor != "" {
          ok := vVotes.AddVotedFor(e.term, e.votedFor);
          if !ok {
            RevoteStays(entries, i + 1);
            return;
          }
        }
        if e.term > currentTerm {
          currentTerm := e.term;
        }
      }
      assert entries[..|entries|] == entries;
      ok := vVotes.UpdateCurrentTerm(currentTerm);
    }

    /** The second half of `Init`: the mirror gets the parsed records; an empty log gets the sentinel. */
    method RecoverLog()
      requires vLog.log == []
      modifies pLog, vLog, vState`commitIndex, vState`lastAppliedIndex
      ensures ParseFile(old(pLog.file)) != [] ==> vLog.log == ParseFile(old(pLog.file)) && pLog.file == old(pLog.file)
      ensures ParseFile(old(pLog.file)) == [] ==> pLog.file == Image([SENTINEL]) && vLog.log == Records([SENTINEL])
      ensures vState.commitIndex == 0 && vState.lastAppliedIndex == 0
    {
      hide ParseFile;
      var entries := pLog.ParseLog();
      for i := 0 to |entries|
        invariant vLog.log == entries[..i] && pLog.file == old(pLog.file)
      {
        vLog.Append(entries[i].entry, entries[i].offset);
      }
      assert entries[..|entries|] == entries;
      vState.commitIndex := 0;
      vState.lastAppliedIndex := 0;
      if vLog.GetLength() == 0 {
        NothingParsed(pLog.file);
        ImageExtend([], SENTINEL);
        assert [] + [SENTINEL] == [SENTINEL];
        Append(SENTINEL);
      }
    }

    /** Fills the mirrors from the files; `ok` is false when a second vote in one term makes it throw. */
    method Init() returns (ok: bool)
      requires vVotes.votedFor == map[] && vVotes.currentTerm == 0 && vLog.log == []
      modifies pLog, vLog, vVotes, vState`commitIndex, vState`lastAppliedIndex
      ensures ok <==> !Replay(ParseVotes(pVotes.file)).Revote?
      ensures ok ==> Tally(vVotes.currentTerm, vVotes.votedFor) == Replay(ParseVotes(pVotes.file))
      ensures ok && ParseFile(old(pLog.file)) != [] ==>
        vLog.log == ParseFile(old(pLog.file)) && pLog.file == old(pLog.file)
      ensures ok && ParseFile(old(pLog.file)) == [] ==> Log() == [SENTINEL] && LogDurable()
      ensures ok ==> vState.commitIndex == 0 && vState.lastAppliedIndex == 0
    {
      hide ParseFile, ParseVotes, Replay, Image, Records;
      ok := RecoverVotes();
      if ok {
        RecoverLog();
        EntriesOfRecords([SENTINEL]);
      }
    }

    /**
     A crash and a restart: memory is lost, the two files are opened again and `Init` runs. From durable state the
     recovered term, votes and log are those from before the crash, and nothing throws.
     */
    static method Restart(before: StateHelper) returns (after: StateHelper, ok: bool)
      requires before.LogDurable() && before.VotesDurable() && before.Log() != []
      ensures fresh(after.Repr()) && ok && after.LogDurable() && after.VotesDurable()
      ensures after.Log() == before.Log()
      ensures after.vVotes.currentTerm == before.vVotes.currentTerm
      ensures after.vVotes.votedFor == before.vVotes.votedFor
      ensures after.vState.commitIndex == 0 && after.vState.lastAppliedIndex == 0
      ensures after.vState.identity == FOLLOWER
      ensures after.vState.nextIndex == map[] && after.vState.matchIndex == map[]
    {
      hide ParseFile, ParseVotes, Replay, Image, Records, WholeLines, Entries, PlainEntries;
      ImageRoundTrip(before.Log());
      after := new StateHelper(before.pVotes.file, before.pLog.file);
      ok := after.Init();
      assert after.vLog.log == before.vLog.log;
    }

    /**
     Opens a vote file without a second vote and the image of a log: that log comes back, offsets included, or the
     sentinel if it is empty. Every image `Insert` passes through is of this kind, so a crash after its cut and `j`
     whole lines recovers exactly the old entries before `start` and the first `j` new ones.
     */
    static method Recover(voteFile: string, logFile: string, ghost log: seq<Entry>) returns (after: StateHelper)
      requires WholeLines(voteFile) && !Replay(ParseVotes(voteFile)).Revote?
      requires PlainEntries(log) && logFile == Image(log)
      ensures fresh(after.Repr()) && after.LogDurable() && after.VotesDurable()
      ensures Tally(after.vVotes.currentTerm, after.vVotes.votedFor) == Replay(ParseVotes(voteFile))
      ensures after.Log() == if log == [] then [SENTINEL] else log
      ensures after.vState.commitIndex == 0 && after.vState.lastAppliedIndex == 0
      ensures after.vState.identity == FOLLOWER
      ensures after.vState.nextIndex == map[] && after.vState.matchIndex == map[]
    {
      hide ParseFile, ParseVotes, Replay, Image, Records, WholeLines, Entries, PlainEntries;
      ImageRoundTrip(log);
      assert Records(log) == [] <==> log == [];
      after := new StateHelper(voteFile, logFile);
      var ok := after.Init();
      if log != [] {
        EntriesOfRecords(log);
      }
    }
  }

  /** Bytes written over the beginning of a file, with what lay behind them. */
  function Overlaid(file: string, head: string): string {
    head + if |head| < |file| then file[|head|..] else ""
  }

  lemma OverlaidPrefix(file: string, head: string)
    requires head <= file
    ensures Overlaid(file, head) == file
  {}

  lemma OverlaidNext(file: string, head: string, line: string)
    ensures Pwrite(Overlaid(file, head), |head|, line) == Overlaid(file, head + line)
  {
    var over := Overlaid(file, head);
    assert over[..|head|] == head;
    if |head| + |line| < |over| {
      assert over[|head| + |line|..] == file[|head| + |line|..];
    }
  }

  /** The records after the entries `done` were put over those from `start` on. */
  ghost function Overwritten(log: seq<Entry>, start: nat, done: seq<Entry>): seq<Record>
    requires start < |log|
  {
    Records(log[..start] + done) + (if start + |done| < |log| then Records(log)[start + |done|..] else [])
  }

  /** Overwriting or pushing one more record, with the offset where its line starts. */
  lemma OverwriteOne(log: seq<Entry>, start: nat, done: seq<Entry>, e: Entry)
    requires start < |log|
    ensures var ov, file, index := Overwritten(log, start, done), Image(log[..start] + done), start + |done|;
      && index <= |ov|
      && Overwritten(log, start, done + [e]) ==
          (if index < |ov| then ov[index := Record(e, |file|)] else ov + [Record(e, |file|)])
      && Image(log[..start] + (done + [e])) == file + CreateLogEntry(e, |file|)
  {
    hide Image, CreateLogEntry, Records;
    var front := log[..start] + done;
    assert log[..start] + (done + [e]) == front + [e];
    ImageExtend(front, e);
  }

  lemma OverwrittenLog(log: seq<Entry>, start: nat, es: seq<Entry>)
    requires start < |log|
    ensures Entries(Overwritten(log, start, es)) == InsertCoded(log, start, es)
  {
    hide Records, Image;
  }

  /** The overwritten copies agree exactly when nothing of the old tail is left in memory. */
  lemma OverwrittenDurable(log: seq<Entry>, start: nat, es: seq<Entry>)
    requires start < |log| && PlainEntries(log) && PlainEntries(es)
    ensures var records := Overwritten(log, start, es); var l := Entries(records);
      PlainEntries(l) && Image(log[..start] + es) == Image(l) && records == Records(l) <==> start + |es| >= |log|
  {
    hide Records, Image, PlainEntry;
    OverwrittenLog(log, start, es);
    var l := InsertCoded(log, start, es);
    if start + |es| < |log| {
      ImageGrows(log[..start] + es, log[start + |es|..]);
    } else {
      assert l == log[..start] + es;
      assert forall i | 0 <= i < |l| :: PlainEntry(l[i]);
    }
  }

  lemma RecordsPrefix(log: seq<Entry>, k: nat)
    requires k <= |log|
    ensures Records(log[..k]) == Records(log)[..k]
  {
    ImagePrefix(log, k);
  }

  lemma OverwriteNone(log: seq<Entry>, start: nat)
    requires start < |log|
    ensures Overwritten(log, start, []) == Records(log)
  {
    hide Image, Records;
    RecordsPrefix(log, start);
    assert log[..start] + [] == log[..start];
    var r := Records(log);
    assert r[..start] + r[start..] == r;
  }

  lemma ReplayNext(entries: seq<VoteEntry>, i: nat)
    requires i < |entries|
    ensures Replay(entries[..i + 1]) == Cast(Replay(entries[..i]), entries[i])
  {
    var front := entries[..i + 1];
    assert front[..|front| - 1] == entries[..i];
  }

  lemma {:induction false} RevoteStays(entries: seq<VoteEntry>, i: nat)
    requires i <= |entries| && Replay(entries[..i]).Revote?
    ensures Replay(entries).Revote?
    decreases |entries| - i
  {
    if i == |entries| {
      assert entries[..i] == entries;
    } else {
      ReplayNext(entries, i);
      RevoteStays(entries, i + 1);
    }
  }

  /** The file of an insertion stopped after `j` whole lines parses to the old head and the first `j` new entries. */
  lemma StoppedInsertion(log: seq<Entry>, start: nat, es: seq<Entry>, j: nat)
    requires start <= |log| && j <= |es| && PlainEntries(log) && PlainEntries(es)
    ensures Entries(ParseFile(Image(log[..start] + es[..j]))) == log[..start] + es[..j]
    ensures WholeLines(Image(log[..start] + es[..j]))
  {
    hide PlainEntry, ParseFile, Image, WholeLines, Records;
    ImageRoundTrip(log[..start] + es[..j]);
    EntriesOfRecords(log[..start] + es[..j]);
  }

  lemma NothingParsed(file: string)
    requires ParseFile(file) == []
    ensures file == ""
  {
    if file != "" {
      ReplicatedLogFile.ParseFirst(file);
    }
  }
}
