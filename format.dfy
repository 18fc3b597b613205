/** The chat text `formatSearchRes` builds from a search result: at most
    five numbered blocks, each a title line and a link line. */
module DriveFormat {
  import opened Wrappers
  import opened DriveResponse

  /** Only the first five results are shown. */
  const MaxShown := 5

  function Min(a: nat, b: nat): nat
  {
    if a <= b then a else b
  }

  /** How a template literal renders a field: a missing one as "undefined". */
  function Render(field: Option<string>): string
  {
    match field
    case Some(s) => s
    case None => "undefined"
  }

  predicate IsDigit(ch: char)
  {
    '0' <= ch <= '9'
  }

  /** The decimal numeral of n, as `${n}` writes it. */
  function Decimal(n: nat): (s: string)
    ensures |s| > 0
    ensures forall i :: 0 <= i < |s| ==> IsDigit(s[i])
    ensures n < 10 ==> s == [('0' as int + n) as char]
  {
    var last := [(48 + n % 10) as char];
    if n < 10 then last else Decimal(n / 10) + last
  }

  /** The number a string of decimal digits denotes. */
  function DigitsValue(s: string): int
    requires forall i :: 0 <= i < |s| ==> IsDigit(s[i])
  {
    if s == [] then 0
    else DigitsValue(s[..|s| - 1]) * 10 + (s[|s| - 1] as int - '0' as int)
  }

  /** The numeral denotes n: block numbers are written as the numbers they are. */
  lemma {:induction false} DecimalValue(n: nat)
    ensures DigitsValue(Decimal(n)) == n
  {
    var s := Decimal(n);
    if n >= 10 {
      DecimalValue(n / 10);
      assert s[..|s| - 1] == Decimal(n / 10);
    }
  }

  /** The block for result number n (1-based): `<n>.) <title> \n<link>\n`. */
  function Block(n: nat, file: DriveFile): string
  {
    Decimal(n) + ".) " + Render(file.title) + " \n" + Render(file.alternateLink) + "\n"
  }

  /** The blocks of the first k results, numbered 1..k in input order. */
  function Blocks(results: seq<DriveFile>, k: nat): string
    requires k <= |results|
  {
    if k == 0 then "" else Blocks(results, k - 1) + Block(k, results[k - 1])
  }

  /** The text formatSearchRes returns. */
  function Formatted(results: seq<DriveFile>): string
  {
    Blocks(results, Min(MaxShown, |results|))
  }

  /** formatSearchRes: appends one block per result while fewer than five
      have been appended. */
  method FormatSearchRes(results: seq<DriveFile>) returns (res: string)
    ensures res == Formatted(results)
  {
    res := "";
    var i := 0;
    while i < MaxShown && i < |results|
      invariant i <= Min(MaxShown, |results|)
      invariant res == Blocks(results, i)
    {
      res := res + Block(i + 1, results[i]);
      i := i + 1;
    }
  }

  // ---------------------------------------------------------------------
  // What the text means: its lines, read back.

  predicate NewlineFree(s: string)
  {
    '\n' !in s
  }

  /** Index of the first newline in s, or |s| if there is none. */
  function NewlineIndex(s: string): (i: nat)
    ensures i <= |s|
    ensures NewlineFree(s[..i])
    ensures i < |s| ==> s[i] == '\n'
  {
    if s == [] then 0
    else if s[0] == '\n' then 0
    else
      var j := NewlineIndex(s[1..]);
      assert s[..j + 1] == [s[0]] + s[1..][..j];
      j + 1
  }

  /** The lines of s, each without its terminating newline; a last line
      without a newline is kept too. */
  function Lines(s: string): seq<string>
    decreases |s|
  {
    if s == [] then []
    else
      var i := NewlineIndex(s);
      if i == |s| then [s] else [s[..i]] + Lines(s[i + 1..])
  }

  lemma {:induction false} NewlineIndexAfter(line: string, rest: string)
    requires NewlineFree(line)
    ensures NewlineIndex(line + "\n" + rest) == |line|
  {
    if line != [] {
      assert (line + "\n" + rest)[1..] == line[1..] + "\n" + rest;
      NewlineIndexAfter(line[1..], rest);
    }
  }

  lemma LinesCons(line: string, rest: string)
    requires NewlineFree(line)
    ensures Lines(line + "\n" + rest) == [line] + Lines(rest)
  {
    var s := line + "\n" + rest;
    NewlineIndexAfter(line, rest);
    assert s[..|line|] == line;
    assert s[|line| + 1..] == rest;
  }

  lemma {:induction false} TerminatedHasNewline(a: string)
    requires a != [] && a[|a| - 1] == '\n'
    ensures NewlineIndex(a) < |a|
  {
    if a[0] != '\n' {
      TerminatedHasNewline(a[1..]);
    }
  }

  /** Text that ends in a newline splits into its lines independently of
      what follows it. */
  lemma {:induction false} LinesAppend(a: string, b: string)
    requires a == [] || a[|a| - 1] == '\n'
    ensures Lines(a + b) == Lines(a) + Lines(b)
    decreases |a|
  {
    if a != [] {
      var i := NewlineIndex(a);
      TerminatedHasNewline(a);
      var line, rest := a[..i], a[i + 1..];
      assert a == line + "\n" + rest;
      assert rest == [] || rest[|rest| - 1] == a[|a| - 1];
      LinesAppend(rest, b);
      LinesAppendStep(line, rest, b);
    } else {
      assert a + b == b;
    }
  }

  lemma LinesAppendStep(line: string, rest: string, b: string)
    requires NewlineFree(line)
    requires Lines(rest + b) == Lines(rest) + Lines(b)
    ensures Lines(line + "\n" + rest + b) == Lines(line + "\n" + rest) + Lines(b)
  {
    var ys, zs := Lines(rest), Lines(b);
    assert [line] + (ys + zs) == ([line] + ys) + zs;
    assert line + "\n" + rest + b == line + "\n" + (rest + b);
    LinesCons(line, rest);
    LinesCons(line, rest + b);
  }

  /** The first line of a block: number, title and the trailing space. */
  function TitleLine(n: nat, file: DriveFile): string
  {
    Decimal(n) + ".) " + Render(file.title) + " "
  }

  predicate ShowsOnOneLine(file: DriveFile)
  {
    NewlineFree(Render(file.title)) && NewlineFree(Render(file.alternateLink))
  }

  lemma BlockLines(n: nat, file: DriveFile)
    requires ShowsOnOneLine(file)
    ensures Lines(Block(n, file)) == [TitleLine(n, file), Render(file.alternateLink)]
  {
    var link := Render(file.alternateLink);
    assert Block(n, file) == TitleLine(n, file) + "\n" + (link + "\n" + "");
    assert NewlineFree(TitleLine(n, file)) by {
      var d := Decimal(n);
      assert TitleLine(n, file) == d + ".) " + Render(file.title) + " ";
    }
    LinesCons(TitleLine(n, file), link + "\n" + "");
    LinesCons(link, "");
  }

  /** lines is the title line and the link line of each of the first k
      results, in order. */
  predicate ShowsResults(lines: seq<string>, results: seq<DriveFile>, k: nat)
    requires k <= |results|
  {
    && |lines| == 2 * k
    && forall i :: 0 <= i < k ==>
         lines[2 * i] == TitleLine(i + 1, results[i]) &&
         lines[2 * i + 1] == Render(results[i].alternateLink)
  }

  lemma ShowsOneMore(lines: seq<string>, results: seq<DriveFile>, k: nat)
    requires 0 < k <= |results|
    requires ShowsResults(lines, results, k - 1)
    ensures ShowsResults(lines + [TitleLine(k, results[k - 1]), Render(results[k - 1].alternateLink)], results, k)
  {
  }

  lemma {:induction false} BlocksTerminated(results: seq<DriveFile>, k: nat)
    requires 0 < k <= |results|
    ensures Blocks(results, k)[|Blocks(results, k)| - 1] == '\n'
  {
    var last := Block(k, results[k - 1]);
    assert last == (Decimal(k) + ".) " + Render(results[k - 1].title) + " \n" + Render(results[k - 1].alternateLink)) + "\n";
  }

  lemma {:induction false} BlocksLines(results: seq<DriveFile>, k: nat)
    requires k <= |results|
    requires forall i :: 0 <= i < k ==> ShowsOnOneLine(results[i])
    ensures ShowsResults(Lines(Blocks(results, k)), results, k)
  {
    if k > 0 {
      var prefix, last := Blocks(results, k - 1), Block(k, results[k - 1]);
      assert Blocks(results, k) == prefix + last;
      if k > 1 {
        BlocksTerminated(results, k - 1);
      }
      BlocksLines(results, k - 1);
      BlockLines(k, results[k - 1]);
      LinesAppend(prefix, last);
      ShowsOneMore(Lines(prefix), results, k);
    }
  }

  /** The formatted text is exactly min(5, |results|) blocks: line 2i holds
      number i+1 and the title of result i, line 2i+1 its link, in input
      order, provided no shown title or link itself holds a newline. */
  lemma FormattedLines(results: seq<DriveFile>)
    requires forall i :: 0 <= i < Min(MaxShown, |results|) ==> ShowsOnOneLine(results[i])
    ensures ShowsResults(Lines(Formatted(results)), results, Min(MaxShown, |results|))
  {
    BlocksLines(results, Min(MaxShown, |results|));
  }

  lemma {:induction false} BlocksOfPrefix(results: seq<DriveFile>, extra: seq<DriveFile>, k: nat)
    requires k <= |results|
    ensures Blocks(results + extra, k) == Blocks(results, k)
  {
    if k > 0 {
      BlocksOfPrefix(results, extra, k - 1);
      assert (results + extra)[k - 1] == results[k - 1];
    }
  }

  /** Results after the fifth never reach the text. */
  lemma FormattedDropsTail(results: seq<DriveFile>, extra: seq<DriveFile>)
    requires |results| >= MaxShown
    ensures Formatted(results + extra) == Formatted(results)
  {
    BlocksOfPrefix(results, extra, MaxShown);
  }

  /** The text is empty exactly when there are no results. */
  lemma FormattedEmptyIff(results: seq<DriveFile>)
    ensures Formatted(results) == "" <==> results == []
  {
    if results != [] {
      var k := Min(MaxShown, |results|);
      assert Formatted(results) == Blocks(results, k - 1) + Block(k, results[k - 1]);
    }
  }
}
