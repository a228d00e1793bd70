/** The C++ text routines the two files are written and parsed with. */
module Text {
  function DigitChar(d: nat): (c: char)
    requires d < 10
    ensures IsDigit(c) && DigitValue(c) == d
  {
    ('0' as int + d) as char
  }

  predicate IsDigit(c: char) {
    '0' <= c <= '9'
  }

  function DigitValue(c: char): nat
    requires IsDigit(c)
  {
    c as int - '0' as int
  }

  function Digits(n: nat): (s: string)
    ensures |s| > 0 && forall i | 0 <= i < |s| :: IsDigit(s[i])
  {
    if n < 10 then [DigitChar(n)] else Digits(n / 10) + [DigitChar(n % 10)]
  }

  /** `std::to_string` of an int. */
  function ToString(i: int): string {
    if i < 0 then "-" + Digits(-i) else Digits(i)
  }

  predicate IsSpace(c: char) {
    c == ' ' || '\t' <= c <= '\r'
  }

  /** The value of the leading digits, with `acc` in front of them. */
  function ReadDigits(s: string, acc: nat): nat {
    if s == "" || !IsDigit(s[0]) then acc else ReadDigits(s[1..], 10 * acc + DigitValue(s[0]))
  }

  /** `atoi`: white space, an optional sign, then digits up to the first other character (no overflow). */
  function Atoi(s: string): int {
    if s == "" then 0
    else if IsSpace(s[0]) then Atoi(s[1..])
    else if s[0] == '-' then 0 - ReadDigits(s[1..], 0)
    else if s[0] == '+' then ReadDigits(s[1..], 0)
    else ReadDigits(s, 0)
  }

  lemma {:induction false} ReadDigitsAppend(s: string, c: char, acc: nat)
    requires (forall i | 0 <= i < |s| :: IsDigit(s[i])) && IsDigit(c)
    ensures ReadDigits(s + [c], acc) == 10 * ReadDigits(s, acc) + DigitValue(c)
  {
    if s == "" {
      assert ReadDigits([c][1..], 10 * acc + DigitValue(c)) == 10 * acc + DigitValue(c);
    } else {
      assert (s + [c])[1..] == s[1..] + [c];
      ReadDigitsAppend(s[1..], c, 10 * acc + DigitValue(s[0]));
    }
  }

  lemma {:induction false} ReadPrintedDigits(n: nat)
    ensures ReadDigits(Digits(n), 0) == n
  {
    if n < 10 {
      assert Digits(n)[1..] == "";
    } else {
      ReadPrintedDigits(n / 10);
      ReadDigitsAppend(Digits(n / 10), DigitChar(n % 10), 0);
    }
  }

  /** Printing an int and reading it back gives the int. */
  lemma AtoiToString(i: int)
    ensures Atoi(ToString(i)) == i
  {
    if i < 0 {
      ReadPrintedDigits(-i);
      assert ToString(i)[1..] == Digits(-i);
    } else {
      ReadPrintedDigits(i);
      assert IsDigit(Digits(i)[0]);
    }
  }

  lemma {:induction false} ReadDigitsStop(s: string, more: string, acc: nat)
    requires (forall i | 0 <= i < |s| :: IsDigit(s[i])) && (more == "" || !IsDigit(more[0]))
    ensures ReadDigits(s + more, acc) == ReadDigits(s, acc)
  {
    if s == "" {
      assert s + more == more;
    } else {
      assert (s + more)[1..] == s[1..] + more;
      ReadDigitsStop(s[1..], more, 10 * acc + DigitValue(s[0]));
    }
  }

  lemma DigitFirst(s: string)
    requires s != "" && IsDigit(s[0])
    ensures Atoi(s) == ReadDigits(s, 0)
  {
    hide ReadDigits;
  }

  lemma MinusFirst(s: string)
    ensures Atoi("-" + s) == 0 - ReadDigits(s, 0)
  {
    assert ("-" + s)[1..] == s;
    hide ReadDigits;
  }

  lemma AtoiOfDigits(n: nat, more: string)
    requires more == "" || !IsDigit(more[0])
    ensures Atoi(Digits(n) + more) == n && Atoi("-" + Digits(n) + more) == 0 - n
  {
    hide Atoi, ReadDigits;
    ReadPrintedDigits(n);
    ReadDigitsStop(Digits(n), more, 0);
    hide Digits;
    var s := Digits(n) + more;
    assert s[0] == Digits(n)[0];
    DigitFirst(s);
    MinusFirst(s);
    assert "-" + Digits(n) + more == "-" + s;
  }

  /** Reading stops at the first character that is not a digit. */
  lemma AtoiStops(i: int, more: string)
    requires more == "" || !IsDigit(more[0])
    ensures Atoi(ToString(i) + more) == i
  {
    AtoiOfDigits(if i < 0 then -i else i, more);
    hide Digits, Atoi;
  }

  /** The first `c` at or after `from`, or -1 (`std::string::find`, its result read as an int). */
  function Find(s: string, c: char, from: nat): (i: int)
    ensures i == -1 || (from <= i < |s| && s[i] == c)
    ensures forall k | from <= k < (if i == -1 then |s| else i) :: s[k] != c
    decreases |s| - from
  {
    if from >= |s| then -1 else if s[from] == c then from else Find(s, c, from + 1)
  }

  /** `std::string::substr`; a negative count is a huge unsigned one and takes the rest. */
  function Substr(s: string, start: nat, count: int): string
    requires start <= |s|
  {
    if 0 <= count <= |s| - start then s[start..start + count] else s[start..]
  }

  predicate Lacks(s: string, c: char) {
    forall i | 0 <= i < |s| :: s[i] != c
  }

  /** Text that can be a field of a line. */
  predicate Plain(s: string) {
    Lacks(s, ',') && Lacks(s, '\n')
  }

  lemma PrintedIsPlain(i: int)
    ensures Plain(ToString(i))
  {
    var n := if i < 0 then -i else i;
    assert forall k | 0 <= k < |Digits(n)| :: IsDigit(Digits(n)[k]);
  }

  // Lines, as getline reads them

  function FirstLine(file: string): string {
    var i := Find(file, '\n', 0);
    if i == -1 then file else file[..i]
  }

  function AfterFirstLine(file: string): (rest: string)
    ensures |file| > 0 ==> |rest| < |file|
  {
    var i := Find(file, '\n', 0);
    if i == -1 then "" else file[i + 1..]
  }

  lemma LineFirst(line: string, rest: string)
    requires Lacks(line, '\n')
    ensures FirstLine(line + "\n" + rest) == line
    ensures AfterFirstLine(line + "\n" + rest) == rest
  {
    var file := line + "\n" + rest;
    var i := Find(file, '\n', 0);
    assert file[|line|] == '\n';
    assert i == |line|;
  }

  /** All lines of a file, in order; a last line without a newline counts. */
  function Lines(file: string): seq<string>
    decreases |file|
  {
    if file == "" then [] else [FirstLine(file)] + Lines(AfterFirstLine(file))
  }

  /** The file is empty or ends with a newline. */
  predicate WholeLines(file: string) {
    file == "" || file[|file| - 1] == '\n'
  }

  lemma SplitFirst(file: string)
    requires file != "" && WholeLines(file)
    ensures file == FirstLine(file) + "\n" + AfterFirstLine(file)
    ensures Lacks(FirstLine(file), '\n') && WholeLines(AfterFirstLine(file))
  {
    var i := Find(file, '\n', 0);
    assert i != -1;
  }

  lemma LinesCons(line: string, rest: string)
    requires Lacks(line, '\n')
    ensures Lines(line + "\n" + rest) == [line] + Lines(rest)
  {
    LineFirst(line, rest);
    hide FirstLine, AfterFirstLine, Lacks;
    assert line + "\n" + rest != "";
  }

  /** Writing a line after whole lines adds that line and leaves whole lines. */
  lemma {:induction false} LinesAppend(file: string, text: string)
    requires WholeLines(file) && Lacks(text, '\n')
    ensures Lines(file + (text + "\n")) == Lines(file) + [text] && WholeLines(file + (text + "\n"))
    decreases |file|
  {
    hide Lacks, FirstLine, AfterFirstLine;
    if file == "" {
      LinesCons(text, "");
      assert file + (text + "\n") == text + "\n" + "";
    } else {
      SplitFirst(file);
      var first, rest := FirstLine(file), AfterFirstLine(file);
      LinesAppend(rest, text);
      LinesCons(first, rest);
      LinesCons(first, rest + (text + "\n"));
      hide Lines;
      assert file + (text + "\n") == first + "\n" + (rest + (text + "\n"));
    }
  }

  lemma OneLine(text: string)
    requires Lacks(text, '\n') && text != ""
    ensures Lines(text) == [text]
  {
    assert FirstLine(text) == text && AfterFirstLine(text) == "";
    hide FirstLine, AfterFirstLine;
    assert Lines("") == [];
  }

  /** A last line that was not finished is read like any other. */
  lemma {:induction false} UnfinishedLine(file: string, text: string)
    requires WholeLines(file) && Lacks(text, '\n') && text != ""
    ensures Lines(file + text) == Lines(file) + [text]
    decreases |file|
  {
    hide Lacks, FirstLine, AfterFirstLine;
    if file == "" {
      OneLine(text);
      assert file + text == text;
    } else {
      SplitFirst(file);
      var first, rest := FirstLine(file), AfterFirstLine(file);
      UnfinishedLine(rest, text);
      LinesCons(first, rest);
      LinesCons(first, rest + text);
      hide Lines, WholeLines;
      assert file + text == first + "\n" + (rest + text);
    }
  }

  /** A field that lacks commas ends at the first comma after its start. */
  lemma FieldEnd(line: string, start: nat, end: nat)
    requires start <= end < |line| && line[end] == ',' && Lacks(line[start..end], ',')
    ensures Find(line, ',', start) == end
  {
    assert forall k | start <= k < end :: line[k] == line[start..end][k - start];
  }

  /** The last field has no comma after it. */
  lemma LastField(line: string, start: nat)
    requires start <= |line| && Lacks(line[start..], ',')
    ensures Find(line, ',', start) == -1
  {
    assert forall k | start <= k < |line| :: line[k] == line[start..][k - start];
  }
}
