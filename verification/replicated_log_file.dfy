/** The replicated-log file: lines of `term,key,value,offset` (`PersistentReplicatedLog`). */
module ReplicatedLogFile {
  import opened RaftTypes
  import opened Text

  /** An entry with the byte position its line has, or claims to have, in the file. */
  datatype Record = Record(entry: Entry, offset: int)

  function CreateLogEntry(e: Entry, offset: int): string {
    ToString(e.term) + "," + e.key + "," + e.value + "," + ToString(offset) + "\n"
  }

  /** One line as ParseLog reads it. Missing commas leave fields empty or overlong, as in the source. */
  function ParseLine(line: string): Record {
    var termEnd := Find(line, ',', 0);
    var term := Atoi(Substr(line, 0, termEnd));
    var keyEnd := Find(line, ',', termEnd + 1);
    var key := Substr(line, termEnd + 1, keyEnd - termEnd - 1);
    var valueEnd := Find(line, ',', keyEnd + 1);
    var value := Substr(line, keyEnd + 1, valueEnd - keyEnd - 1);
    var offsetEnd := Find(line, ',', valueEnd + 1);
    var offset := Atoi(Substr(line, valueEnd + 1, offsetEnd - valueEnd - 1));
    Record(Entry(term, key, value), offset)
  }

  function ParseLines(lines: seq<string>): seq<Record> {
    seq(|lines|, i requires 0 <= i < |lines| => ParseLine(lines[i]))
  }

  function ParseFile(file: string): seq<Record> {
    ParseLines(Lines(file))
  }

  predicate PlainEntry(e: Entry) {
    Plain(e.key) && Plain(e.value)
  }

  predicate PlainEntries(log: seq<Entry>) {
    forall i | 0 <= i < |log| :: PlainEntry(log[i])
  }

  /** The file a log is written to: its lines one after another, each naming the position where it starts. */
  function Image(log: seq<Entry>): string {
    if log == [] then ""
    else
      var file := Image(log[..|log| - 1]);
      file + CreateLogEntry(log[|log| - 1], |file|)
  }

  /** The records of a log: every entry with the length of the lines before it. */
  function Records(log: seq<Entry>): (r: seq<Record>)
    ensures |r| == |log|
    ensures forall i | 0 <= i < |log| :: r[i].entry == log[i]
  {
    if log == [] then []
    else Records(log[..|log| - 1]) + [Record(log[|log| - 1], |Image(log[..|log| - 1])|)]
  }

  function Entries(records: seq<Record>): seq<Entry> {
    seq(|records|, i requires 0 <= i < |records| => records[i].entry)
  }

  /** The text of a line, without its newline. */
  function LineText(e: Entry, offset: int): string {
    ToString(e.term) + "," + e.key + "," + e.value + "," + ToString(offset)
  }

  /** The commas of a line are at those places, with those fields between them. */
  predicate FieldsAt(line: string, i: nat, j: nat, k: nat, a: string, b: string, c: string, d: string) {
    && Find(line, ',', 0) == i && Find(line, ',', i + 1) == j && Find(line, ',', j + 1) == k
    && Find(line, ',', k + 1) == -1
    && Substr(line, 0, i) == a && Substr(line, i + 1, j - i - 1) == b && Substr(line, j + 1, k - j - 1) == c
    && Substr(line, k + 1, -1 - k - 1) == d
  }

  lemma Commas(a: string, b: string, c: string, d: string, line: string)
    requires Lacks(a, ',') && Lacks(b, ',') && Lacks(c, ',') && Lacks(d, ',')
    requires line == a + "," + b + "," + c + "," + d
    ensures var i := |a|; var j := i + 1 + |b|; FieldsAt(line, i, j, j + 1 + |c|, a, b, c, d)
  {
    hide Find;
    var i := |a|;
    var j := i + 1 + |b|;
    var k := j + 1 + |c|;
    assert line[0..i] == a && line[i + 1..j] == b && line[j + 1..k] == c && line[k + 1..] == d;
    FieldEnd(line, 0, i);
    FieldEnd(line, i + 1, j);
    FieldEnd(line, j + 1, k);
    LastField(line, k + 1);
  }

  lemma ParseLineAt(line: string, i: nat, j: nat, k: nat, a: string, b: string, c: string, d: string)
    requires FieldsAt(line, i, j, k, a, b, c, d)
    ensures ParseLine(line) == Record(Entry(Atoi(a), b, c), Atoi(d))
  {
    hide Find, Substr, Atoi;
  }

  lemma ParseFields(a: string, b: string, c: string, d: string, line: string)
    requires Lacks(a, ',') && Lacks(b, ',') && Lacks(c, ',') && Lacks(d, ',')
    requires line == a + "," + b + "," + c + "," + d
    ensures ParseLine(line) == Record(Entry(Atoi(a), b, c), Atoi(d))
  {
    hide *;
    Commas(a, b, c, d, line);
    ParseLineAt(line, |a|, |a| + 1 + |b|, |a| + 1 + |b| + 1 + |c|, a, b, c, d);
  }

  lemma LogLineExample()
    ensures CreateLogEntry(Entry(1, "k", "v"), 14) == "1,k,v,14\n"
    ensures CreateLogEntry(Entry(0, "NULL", "NULL"), 0) == "0,NULL,NULL,0\n"
  {
    assert Digits(14) == Digits(1) + [DigitChar(4)] == "14";
    assert Digits(0) == "0" && Digits(1) == "1";
    hide Digits;
  }

  /** The file of a log with the sentinel and one entry, character by character. */
  lemma LogFileExample()
    ensures Image([Entry(0, "NULL", "NULL"), Entry(1, "k", "v")]) == "0,NULL,NULL,0\n1,k,v,14\n"
  {
    LogLineExample();
    hide CreateLogEntry;
    var first, second := Entry(0, "NULL", "NULL"), Entry(1, "k", "v");
    assert Image([]) == "";
    hide Image;
    ImageExtend([], first);
    ImageExtend([first], second);
    assert [] + [first] == [first] && [first] + [second] == [first, second];
  }

  /** A line without commas is taken for every field at once, as in the source. */
  lemma LineWithoutCommas(line: string)
    requires Lacks(line, ',')
    ensures ParseLine(line) == Record(Entry(Atoi(line), line, line), Atoi(line))
  {
    assert Find(line, ',', 0) == -1 && line[0..] == line;
    hide Find, Atoi;
  }

  /** A printed line parses back to its record: no comma or sign is mistaken. */
  lemma LineRoundTrip(e: Entry, offset: int)
    requires PlainEntry(e)
    ensures ParseLine(LineText(e, offset)) == Record(e, offset)
  {
    PrintedIsPlain(e.term);
    PrintedIsPlain(offset);
    AtoiToString(e.term);
    AtoiToString(offset);
    hide ToString, Atoi, Lacks, ParseLine;
    ParseFields(ToString(e.term), e.key, e.value, ToString(offset), LineText(e, offset));
  }

  lemma LineHasNoNewline(e: Entry, offset: int)
    requires PlainEntry(e)
    ensures Lacks(LineText(e, offset), '\n')
    ensures CreateLogEntry(e, offset) == LineText(e, offset) + "\n"
  {
    PrintedIsPlain(e.term);
    PrintedIsPlain(offset);
    hide ToString;
  }

  /** Appending an entry's line to whole lines appends its record. */
  lemma ParseAppend(file: string, e: Entry, offset: int)
    requires PlainEntry(e) && WholeLines(file)
    ensures ParseFile(file + CreateLogEntry(e, offset)) == ParseFile(file) + [Record(e, offset)]
    ensures WholeLines(file + CreateLogEntry(e, offset))
  {
    LineHasNoNewline(e, offset);
    LineRoundTrip(e, offset);
    hide CreateLogEntry, LineText, ParseLine, PlainEntry, Lacks, Lines;
    LinesAppend(file, LineText(e, offset));
  }

  /** The round trip: parsing the image of a log gives exactly its records, offsets included. */
  lemma {:induction false} ImageRoundTrip(log: seq<Entry>)
    requires PlainEntries(log)
    ensures ParseFile(Image(log)) == Records(log) && WholeLines(Image(log))
  {
    if log != [] {
      var front := log[..|log| - 1];
      ImageRoundTrip(front);
      ParseAppend(Image(front), log[|log| - 1], |Image(front)|);
    }
  }

  // Prefixes of images

  lemma {:induction false} ImagePrefix(log: seq<Entry>, k: nat)
    requires k <= |log|
    ensures Image(log[..k]) <= Image(log)
    ensures Records(log[..k]) == Records(log)[..k]
    ensures k < |log| ==> Records(log)[k].offset == |Image(log[..k])| && Image(log[..k]) < Image(log)
  {
    if k == |log| {
      assert log[..k] == log;
    } else {
      var front := log[..|log| - 1];
      assert front[..k] == log[..k];
      ImagePrefix(front, k);
      assert |CreateLogEntry(log[|log| - 1], |Image(front)|)| > 0;
    }
  }

  lemma ImageExtend(log: seq<Entry>, e: Entry)
    ensures Image(log + [e]) == Image(log) + CreateLogEntry(e, |Image(log)|)
    ensures Records(log + [e]) == Records(log) + [Record(e, |Image(log)|)]
  {
    assert (log + [e])[..|log|] == log;
  }

  lemma LineNotEmpty(e: Entry, offset: int)
    ensures |CreateLogEntry(e, offset)| > 0
  {}

  /** More entries make a longer file. */
  lemma {:induction false} ImageGrows(log: seq<Entry>, more: seq<Entry>)
    ensures |Image(log + more)| >= |Image(log)| + |more|
  {
    hide Image, CreateLogEntry;
    if more == [] {
      assert log + more == log;
    } else {
      var front, e := more[..|more| - 1], more[|more| - 1];
      ImageGrows(log, front);
      ImageExtend(log + front, e);
      LineNotEmpty(e, |Image(log + front)|);
      assert log + more == (log + front) + [e];
    }
  }

  lemma EntriesOfRecords(log: seq<Entry>)
    ensures Entries(Records(log)) == log
  {}

  lemma ParseEmpty()
    ensures ParseFile("") == []
  {}

  lemma ParseFirst(file: string)
    requires file != ""
    ensures ParseFile(file) == [ParseLine(FirstLine(file))] + ParseFile(AfterFirstLine(file))
  {
    hide ParseLine, FirstLine, AfterFirstLine;
  }

  /** Bytes written at a position: they replace what is there, and a gap reads as zeros (`pwrite`). */
  function Pwrite(file: string, offset: nat, data: string): string {
    if offset <= |file| then
      file[..offset] + data + (if offset + |data| < |file| then file[offset + |data|..] else "")
    else file + seq(offset - |file|, _ => '\0') + data
  }

  /** The open log file and its cursor. */
  class PersistentReplicatedLog {
    var file: string
    var cursor: nat

    /** Opens a file with whatever it holds; the cursor is at its start. */
    constructor (contents: string)
      ensures file == contents && cursor == 0
    {
      file, cursor := contents, 0;
    }

    method GoToEndOfFile()
      modifies this`cursor
      ensures cursor == |file|
    {
      cursor := |file|;
    }

    method GoToOffset(offset: nat)
      modifies this`cursor
      ensures cursor == offset
    {
      cursor := offset;
    }

    method GetEndOfFileOffset() returns (offset: nat)
      modifies this`cursor
      ensures offset == |file| && cursor == |file|
    {
      cursor := |file|;
      offset := cursor;
    }

    /** Positioned write of one line; the cursor then moves on by the bytes written. */
    method WriteToLog(e: Entry, offset: nat)
      modifies this
      ensures file == Pwrite(old(file), offset, CreateLogEntry(e, offset))
      ensures cursor == old(cursor) + |CreateLogEntry(e, offset)|
    {
      var line := CreateLogEntry(e, offset);
      file := Pwrite(file, offset, line);
      cursor := cursor + |line|;
    }

    method Append(e: Entry, offset: nat)
      modifies this
      ensures file == Pwrite(old(file), offset, CreateLogEntry(e, offset))
      ensures offset == |old(file)| ==> file == old(file) + CreateLogEntry(e, offset) && cursor == |file|
    {
      GoToEndOfFile();
      WriteToLog(e, offset);
    }

    method Insert(offset: nat, e: Entry)
      modifies this
      ensures file == Pwrite(old(file), offset, CreateLogEntry(e, offset))
      ensures cursor == offset + |CreateLogEntry(e, offset)|
      ensures offset == |old(file)| ==> file == old(file) + CreateLogEntry(e, offset) && cursor == |file|
    {
      GoToOffset(offset);
      WriteToLog(e, offset);
    }

    /** `truncate` on this node's own file (P1); growing it would fill with zeros. */
    method Truncate(offset: nat)
      modifies this`file
      ensures offset <= |old(file)| ==> file == old(file)[..offset]
      ensures offset > |old(file)| ==> file == old(file) + seq(offset - |old(file)|, _ => '\0')
    {
      file := if offset <= |file| then file[..offset] else file + seq(offset - |file|, _ => '\0');
    }

    /** Reads the file line by line; its result is the records of the lines, in order. */
    method ParseLog() returns (ret: seq<Record>)
      ensures ret == ParseFile(file)
    {
      hide ParseLine, FirstLine, AfterFirstLine, ParseFile;
      ret := [];
      var rest := file;
      ParseEmpty();
      while rest != ""
        invariant ret + ParseFile(rest) == ParseFile(file)
        decreases |rest|
      {
        ParseFirst(rest);
        ret := ret + [ParseLine(FirstLine(rest))];
        rest := AfterFirstLine(rest);
      }
    }
  }
}
