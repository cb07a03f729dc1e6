/** From physical Dockerfile lines to logical lines: dropping comments and joining continued rows. */
module LogicalLines {
  import opened Basics
  import opened Strings

  /** `rowLine` */
  datatype Row = Row(lineNum: nat, content: string)

  datatype Line = Line(begin: nat, end: nat, command: string, raw: string)

  // ---------- physical lines ----------

  /** The longest line a `bufio.Scanner` delivers. */
  const MAX_LINE := 65535

  /** The lines of a text, each up to its newline or the end of the text. */
  function Physical(data: string): (lines: seq<string>)
    ensures forall i :: 0 <= i < |lines| ==> '\n' !in lines[i]
    decreases |data|
  {
    if data == "" then []
    else
      var n := IndexOf(data, '\n');
      [data[..n]] + if n < |data| then Physical(data[n + 1..]) else []
  }

  /** How many lines are in front of the first over-long one. */
  function ShortLen(lines: seq<string>): (k: nat)
    ensures k <= |lines| && (forall i :: 0 <= i < k ==> |lines[i]| <= MAX_LINE) && (k < |lines| ==> |lines[k]| > MAX_LINE)
  {
    if lines == [] || |lines[0]| > MAX_LINE then 0 else 1 + ShortLen(lines[1..])
  }

  /** A line without the carriage return at its end. */
  function DropCR(line: string): string {
    if line != "" && line[|line| - 1] == '\r' then line[..|line| - 1] else line
  }

  function DropAll(lines: seq<string>): (r: seq<string>)
    ensures |r| == |lines| && forall i :: 0 <= i < |r| ==> r[i] == DropCR(lines[i])
  {
    seq(|lines|, i requires 0 <= i < |lines| => DropCR(lines[i]))
  }

  /** What the scanner delivers: it ends, without an error that the code looks at, at the first over-long line. */
  function Tokens(data: string): seq<string> { Delivered(Physical(data)) }

  /** The lines up to the first over-long one. */
  function Delivered(lines: seq<string>): seq<string> { DropAll(lines[..ShortLen(lines)]) }

  lemma {:induction false} DeliveredStep(line: string, rest: seq<string>)
    ensures Delivered([line] + rest) == if |line| > MAX_LINE then [] else [DropCR(line)] + Delivered(rest)
  {
    hide DropCR;
    var lines := [line] + rest;
    assert lines[1..] == rest;
    if |line| <= MAX_LINE {
      var k := ShortLen(rest);
      assert lines[..k + 1] == [line] + rest[..k];
    }
  }

  lemma {:induction false} TokensStep(data: string)
    requires data != ""
    ensures
      var n := IndexOf(data, '\n');
      var rest := if n < |data| then data[n + 1..] else "";
      Tokens(data) == if n > MAX_LINE then [] else [DropCR(data[..n])] + Tokens(rest)
  {
    hide Delivered, DropCR, IndexOf;
    var n := IndexOf(data, '\n');
    var rest := if n < |data| then data[n + 1..] else "";
    assert Physical(data) == [data[..n]] + Physical(rest);
    DeliveredStep(data[..n], Physical(rest));
  }

  // ---------- effective rows ----------

  /** A comment, `^(\s*|)#.*$`: white space, then `#`. Here a vertical tab is no white space. */
  predicate IsComment(s: string) {
    s != "" && (s[0] == '#' || (IsSpace(s[0]) && s[0] != 11 as char && IsComment(s[1..])))
  }

  /** A comment is any text behind a number sign with nothing but white space in front of that. */
  lemma {:induction false} CommentIff(s: string)
    ensures IsComment(s) <==> exists a, b :: Blank(a) && 11 as char !in a && s == a + "#" + b
  {
    if s != "" {
      var rest := s[1..];
      CommentIff(rest);
      if IsComment(s) {
        if s[0] == '#' {
          assert s == "" + "#" + rest;
        } else {
          var a, b :| Blank(a) && 11 as char !in a && rest == a + "#" + b;
          assert s == ([s[0]] + a) + "#" + b;
        }
      }
      if a, b :| Blank(a) && 11 as char !in a && s == a + "#" + b {
        if a != "" {
          assert s[0] == a[0] && a[0] in a;
          assert rest == a[1..] + "#" + b;
        }
      }
    }
  }

  predicate Effective(s: string) { !IsComment(s) && TrimSpace(s) != "" }

  lemma {:induction false} TrimmedAway(s: string)
    ensures TrimSpace(s) == "" <==> Blank(s)
  {
    if Blank(s) {
      assert s == s + "";
      TrimLeftOf(s, "");
    }
    if TrimSpace(s) == "" {
      TrimLeftFirm(s);
      AllTrimmed(TrimLeft(s));
      LeftTrimmed(s);
    }
  }

  lemma {:induction false} AllTrimmed(s: string)
    requires TrimRight(s) == ""
    ensures Blank(s)
  {
    if s != "" { AllTrimmed(s[..|s| - 1]); }
  }

  lemma {:induction false} LeftTrimmed(s: string)
    requires TrimLeft(s) == "" || Blank(TrimLeft(s))
    ensures Blank(s)
  {
    if s != "" && IsSpace(s[0]) { LeftTrimmed(s[1..]); }
  }

  /** The lines that count: not blank, and no comment. */
  lemma {:induction false} EffectiveIff(s: string)
    ensures Effective(s) <==> !Blank(s) && !exists a, b :: Blank(a) && 11 as char !in a && s == a + "#" + b
  {
    TrimmedAway(s);
    CommentIff(s);
    hide TrimSpace, IsComment, Blank;
  }

  /** The effective lines among those given, with their line numbers. */
  function Rows(text: seq<string>): seq<Row> {
    if text == [] then []
    else
      var s := text[|text| - 1];
      Rows(text[..|text| - 1]) + if Effective(s) then [Row(|text|, s)] else []
  }

  /** `preProcess`: the scanner's loop over the lines of a text. */
  method PreProcess(data: string) returns (rows: seq<Row>)
    ensures rows == Rows(Tokens(data))
  {
    hide Effective, Tokens, DropCR, IndexOf, Rows;
    rows := [];
    var lineNum, start := 1, 0;
    ghost var done: seq<string> := [];
    NoRows();
    assert data[0..] == data && [] + Tokens(data) == Tokens(data);
    while start < |data|
      invariant start <= |data| && lineNum == |done| + 1 && rows == Rows(done)
      invariant done + Tokens(data[start..]) == Tokens(data)
      decreases |data| - start
    {
      ghost var left := data[start..];
      TokensStep(left);
      var n := IndexOf(data[start..], '\n');
      if n > MAX_LINE { break; }
      var token := DropCR(data[start..start + n]);
      assert left[..n] == data[start..start + n];
      RowsMore(done, token);
      if Effective(token) {
        rows := rows + [Row(lineNum, token)];
      }
      ghost var rest := if n < |left| then left[n + 1..] else "";
      OneMore(done, token, Tokens(rest));
      done := done + [token];
      lineNum := lineNum + 1;
      start := if start + n < |data| then start + n + 1 else |data|;
      assert data[start..] == rest;
    }
    TokensEnd(data, start);
    assert done + [] == done;
  }

  lemma {:induction false} NoRows()
    ensures Rows([]) == []
  {
  }

  lemma {:induction false} RowsMore(done: seq<string>, token: string)
    ensures Rows(done + [token]) == if Effective(token) then Rows(done) + [Row(|done| + 1, token)] else Rows(done)
  {
    hide Effective;
    assert (done + [token])[..|done|] == done;
  }

  lemma {:induction false} OneMore(done: seq<string>, token: string, rest: seq<string>)
    ensures done + ([token] + rest) == done + [token] + rest
  {
  }

  lemma {:induction false} TokensEnd(data: string, start: nat)
    requires start <= |data|
    ensures start == |data| ==> Tokens(data[start..]) == []
  {
    if start == |data| { assert data[start..] == "" && Physical("") == []; }
  }

  lemma {:induction false} RowIff(text: seq<string>, n: nat, s: string)
    ensures Row(n, s) in Rows(text) <==> 1 <= n <= |text| && text[n - 1] == s && Effective(s)
  {
    hide Effective;
    if text != [] {
      RowIff(text[..|text| - 1], n, s);
    }
  }

  lemma {:induction false} RowsSorted(text: seq<string>)
    ensures forall k :: 0 <= k < |Rows(text)| ==> 1 <= Rows(text)[k].lineNum <= |text|
    ensures forall j, k :: 0 <= j < k < |Rows(text)| ==> Rows(text)[j].lineNum < Rows(text)[k].lineNum
  {
    hide Effective;
    if text != [] {
      RowsSorted(text[..|text| - 1]);
    }
  }

  /** The rows are in the order of the lines, and are exactly the effective ones under their own numbers. */
  lemma {:induction false} RowsOf(text: seq<string>)
    ensures forall k :: 0 <= k < |Rows(text)| ==> 1 <= Rows(text)[k].lineNum <= |text|
    ensures forall j, k :: 0 <= j < k < |Rows(text)| ==> Rows(text)[j].lineNum < Rows(text)[k].lineNum
    ensures forall n: nat, s :: Row(n, s) in Rows(text) <==> 1 <= n <= |text| && text[n - 1] == s && Effective(s)
  {
    hide Effective, Rows;
    RowsSorted(text);
    forall n: nat, s ensures Row(n, s) in Rows(text) <==> 1 <= n <= |text| && text[n - 1] == s && Effective(s) {
      RowIff(text, n, s);
    }
  }

  lemma {:induction false} RowsPrefix(text: seq<string>, k: nat)
    requires k <= |text|
    ensures Rows(text[..k]) <= Rows(text)
    ensures Rows(text[..k]) == Rows(text) <==> forall n :: k <= n < |text| ==> !Effective(text[n])
    decreases |text|
  {
    hide Effective;
    if k == |text| {
      assert text[..k] == text;
    } else {
      var init := text[..|text| - 1];
      RowsPrefix(init, k);
      assert init[..k] == text[..k];
      assert forall n :: k <= n < |text| ==> n == |text| - 1 || text[n] == init[n];
    }
  }

  /**
  What is lost before any parsing: the rows are all effective lines of the text if and only if none of these is the first
  over-long line or behind it.
  */
  lemma {:induction false} AllRowsIff(data: string)
    ensures Rows(Tokens(data)) <= Rows(DropAll(Physical(data)))
    ensures Rows(Tokens(data)) == Rows(DropAll(Physical(data))) <==>
      forall n :: ShortLen(Physical(data)) <= n < |Physical(data)| ==> !Effective(DropCR(Physical(data)[n]))
  {
    hide Rows, Effective, Physical, ShortLen, DropCR;
    var lines := Physical(data);
    var all, k := DropAll(lines), ShortLen(lines);
    assert DropAll(lines[..k]) == all[..k];
    RowsPrefix(all, k);
  }

  /** An over-long line leaves no trace, nor does anything behind it: the scanner stops at the lines in front. */
  lemma {:induction false} LongLineLost(front: string, long: string, rest: string)
    requires front != "" ==> front[|front| - 1] == '\n'
    requires '\n' !in long && |long| > MAX_LINE && (rest != "" ==> rest[0] == '\n')
    ensures Tokens(front + long + rest) == Tokens(front)
    decreases |front|
  {
    hide Tokens, DropCR, IndexOf;
    var data := front + long + rest;
    TokensStep(data);
    if front == "" {
      FirstNewline(data, |long|);
      assert Tokens("") == [] by { NoTokens(); }
    } else {
      var n := IndexOf(front, '\n');
      FirstNewline(data, n);
      assert data[..n] == front[..n] && data[n + 1..] == front[n + 1..] + long + rest;
      TokensStep(front);
      LongLineLost(front[n + 1..], long, rest);
    }
  }

  lemma {:induction false} NoTokens()
    ensures Tokens("") == []
  {
  }

  lemma {:induction false} FirstNewline(s: string, n: nat)
    requires n <= |s| && '\n' !in s[..n] && (n < |s| ==> s[n] == '\n')
    ensures IndexOf(s, '\n') == n
  {
  }

  lemma {:induction false} NewlineAt(a: string, b: string)
    requires '\n' !in a
    ensures IndexOf(a + "\n" + b, '\n') == |a|
  {
    var s := a + "\n" + b;
    if a == "" {
      assert s[0] == '\n';
    } else {
      assert s[1..] == a[1..] + "\n" + b;
      NewlineAt(a[1..], b);
    }
  }

  // ---------- joining continued rows ----------

  function Trimmed(r: Row): string { TrimSpace(r.content) }

  /** The row ends in the escape character. */
  predicate Continues(r: Row, esc: char) {
    var t := Trimmed(r); t != "" && t[|t| - 1] == esc
  }

  /** What a row contributes to its logical line. */
  function Piece(r: Row, esc: char): string {
    if Continues(r, esc) then Trimmed(r)[..|Trimmed(r)| - 1] else Trimmed(r)
  }

  /** The number of rows in the block that starts the given rows. */
  function BlockLen(rows: seq<Row>, esc: char): (n: nat)
    requires rows != []
    ensures 0 < n <= |rows|
  {
    if Continues(rows[0], esc) && |rows| > 1 then 1 + BlockLen(rows[1..], esc) else 1
  }

  function Text(rows: seq<Row>, esc: char): string {
    if rows == [] then "" else Text(rows[..|rows| - 1], esc) + Piece(rows[|rows| - 1], esc)
  }

  /** The logical line of one block with the given text; Err when it has no argument. */
  function LineOf(begin: nat, end: nat, logic: string): Result<Line> {
    var n := IndexOf(logic, ' ');
    if n == |logic| || TrimSpace(logic[n + 1..]) == "" then Err
    else Ok(Line(begin, end, ToUpper(logic[..n]), TrimSpace(logic[n + 1..])))
  }

  function MakeLine(block: seq<Row>, esc: char): Result<Line>
    requires block != []
  {
    LineOf(block[0].lineNum, block[|block| - 1].lineNum, Text(block, esc))
  }

  /** The logical lines of the given rows. */
  function Lines(rows: seq<Row>, esc: char): Result<seq<Line>>
    decreases |rows|
  {
    if rows == [] then Ok([])
    else
      var n := BlockLen(rows, esc);
      var line :- MakeLine(rows[..n], esc);
      var rest :- Lines(rows[n..], esc);
      Ok([line] + rest)
  }

  /** `format` */
  method Format(rows: seq<Row>, esc: char) returns (r: Result<seq<Line>>)
    ensures r == Lines(rows, esc)
  {
    hide BlockLen, MakeLine, LineOf;
    var lines: seq<Line> := [];
    var i := 0;
    assert rows[0..] == rows;
    OntoEnds([], Lines(rows, esc));
    while i < |rows|
      invariant 0 <= i <= |rows|
      invariant Onto(lines, Lines(rows[i..], esc)) == Lines(rows, esc)
    {
      var next, logicLine := JoinBlock(rows, esc, i);
      var line := LineOf(rows[i].lineNum, rows[next - 1].lineNum, logicLine);
      MakeLineAt(rows, esc, i, next);
      assert rows[i..][..next - i] == rows[i..next] && rows[i..][next - i..] == rows[next..];
      if line.Err? {
        return Err;
      }
      OntoOne(lines, line.value, Lines(rows[next..], esc));
      lines := lines + [line.value];
      i := next;
    }
    OntoEnds(lines, Ok([]));
    r := Ok(lines);
  }

  lemma {:induction false} MakeLineAt(rows: seq<Row>, esc: char, i: nat, j: nat)
    requires i < j <= |rows|
    ensures MakeLine(rows[i..j], esc) == LineOf(rows[i].lineNum, rows[j - 1].lineNum, Text(rows[i..j], esc))
  {
  }

  /** The inner loop of `format`: join rows while they end in the escape character. */
  method JoinBlock(rows: seq<Row>, esc: char, start: nat) returns (next: nat, logicLine: string)
    requires start < |rows|
    ensures next == start + BlockLen(rows[start..], esc) <= |rows|
    ensures logicLine == Text(rows[start..next], esc)
  {
    hide TrimSpace, Text;
    var i := start;
    NoText(esc);
    assert rows[start..start] == [];
    logicLine := "";
    var trimLine := TrimSpace(rows[i].content);
    while |trimLine| != 0 && trimLine[|trimLine| - 1] == esc
      invariant start <= i < |rows| && trimLine == Trimmed(rows[i])
      invariant logicLine == Text(rows[start..i], esc)
      invariant start + BlockLen(rows[start..], esc) == i + BlockLen(rows[i..], esc)
      decreases |rows| - i
    {
      TextMore(rows, esc, start, i);
      assert rows[i..][1..] == rows[i + 1..];
      logicLine := logicLine + trimLine[..|trimLine| - 1];
      i := i + 1;
      if i == |rows| {
        return i, logicLine;
      }
      trimLine := TrimSpace(rows[i].content);
    }
    TextMore(rows, esc, start, i);
    logicLine := logicLine + trimLine;
    next := i + 1;
  }

  lemma {:induction false} NoText(esc: char)
    ensures Text([], esc) == ""
  {
  }

  lemma {:induction false} TextMore(rows: seq<Row>, esc: char, i: nat, j: nat)
    requires i <= j < |rows|
    ensures Text(rows[i..j + 1], esc) == Text(rows[i..j], esc) + Piece(rows[j], esc)
  {
    var b := rows[i..j + 1];
    assert b[..|b| - 1] == rows[i..j] && b[|b| - 1] == rows[j];
  }

  // ---------- conservation ----------

  function Flatten(blocks: seq<seq<Row>>): seq<Row> {
    if blocks == [] then [] else blocks[0] + Flatten(blocks[1..])
  }

  /** A block goes on exactly while its rows end in the escape character; the end of the file also ends a block. */
  predicate IsBlock(block: seq<Row>, esc: char, last: bool) {
    && block != []
    && (forall i :: 0 <= i < |block| - 1 ==> Continues(block[i], esc))
    && (!last ==> !Continues(block[|block| - 1], esc))
  }

  /** The blocks put together are the rows: contiguous, in order, none empty, nothing left over. */
  predicate IsSplit(rows: seq<Row>, esc: char, blocks: seq<seq<Row>>)
    decreases |blocks|
  {
    Flatten(blocks) == rows && forall k :: 0 <= k < |blocks| ==> IsBlock(blocks[k], esc, k == |blocks| - 1)
  }

  function Blocks(rows: seq<Row>, esc: char): seq<seq<Row>>
    decreases |rows|
  {
    if rows == [] then [] else [rows[..BlockLen(rows, esc)]] + Blocks(rows[BlockLen(rows, esc)..], esc)
  }

  lemma {:induction false} BlockLenIs(rows: seq<Row>, esc: char)
    requires rows != []
    ensures var n := BlockLen(rows, esc); IsBlock(rows[..n], esc, n == |rows|)
  {
    if Continues(rows[0], esc) && |rows| > 1 {
      BlockLenIs(rows[1..], esc);
      var n := BlockLen(rows[1..], esc);
      assert rows[..n + 1] == [rows[0]] + rows[1..][..n];
    }
  }

  lemma {:induction false} BlocksSplit(rows: seq<Row>, esc: char)
    ensures IsSplit(rows, esc, Blocks(rows, esc))
    ensures rows != [] ==> Blocks(rows, esc) != []
    decreases |rows|
  {
    hide BlockLen, IsBlock;
    if rows != [] {
      var n := BlockLen(rows, esc);
      var rest := Blocks(rows[n..], esc);
      BlocksSplit(rows[n..], esc);
      BlockLenIs(rows, esc);
      var all := [rows[..n]] + rest;
      assert all[1..] == rest;
      forall k | 0 <= k < |all| ensures IsBlock(all[k], esc, k == |all| - 1) {
        if k > 0 {
          assert all[k] == rest[k - 1];
        }
      }
    }
  }

  /** One logical line per block, with the block's first and last line numbers. */
  lemma {:induction false} LinesPerBlock(rows: seq<Row>, esc: char)
    requires Lines(rows, esc).Ok?
    ensures var blocks, lines := Blocks(rows, esc), Lines(rows, esc).value;
      && |lines| == |blocks|
      && forall k :: 0 <= k < |blocks| ==> blocks[k] != [] && MakeLine(blocks[k], esc) == Ok(lines[k])
    decreases |rows|
  {
    hide BlockLen, MakeLine;
    if rows != [] {
      var n := BlockLen(rows, esc);
      LinesPerBlock(rows[n..], esc);
    }
  }

  /** On success the rows are split into blocks, one per logical line, with the right begin and end numbers. */
  lemma {:induction false} RowsConserved(rows: seq<Row>, esc: char)
    requires Lines(rows, esc).Ok?
    ensures var blocks, lines := Blocks(rows, esc), Lines(rows, esc).value;
      && IsSplit(rows, esc, blocks) && |lines| == |blocks|
      && forall k :: 0 <= k < |blocks| ==>
           && blocks[k] != [] && MakeLine(blocks[k], esc) == Ok(lines[k])
           && lines[k].begin == blocks[k][0].lineNum && lines[k].end == blocks[k][|blocks[k]| - 1].lineNum
  {
    hide Blocks, Lines, IsSplit;
    BlocksSplit(rows, esc);
    LinesPerBlock(rows, esc);
  }

  /** There is only one way to split the rows. */
  lemma {:induction false} SplitUnique(rows: seq<Row>, esc: char, a: seq<seq<Row>>, b: seq<seq<Row>>)
    requires IsSplit(rows, esc, a) && IsSplit(rows, esc, b)
    ensures a == b
    decreases |a|
  {
    if a == [] || b == [] {
      SomeRow(esc, a);
      SomeRow(esc, b);
    } else {
      var ra, rb := Flatten(a[1..]), Flatten(b[1..]);
      NotShorter(esc, a, b);
      NotShorter(esc, b, a);
      assert a[0] == rows[..|a[0]|] && b[0] == rows[..|b[0]|];
      assert ra == rows[|a[0]|..] && rb == rows[|b[0]|..];
      TailSplit(esc, a);
      TailSplit(esc, b);
      SplitUnique(ra, esc, a[1..], b[1..]);
      assert a == [a[0]] + a[1..] && b == [b[0]] + b[1..];
    }
  }

  lemma {:induction false} TailSplit(esc: char, a: seq<seq<Row>>)
    requires a != [] && IsSplit(Flatten(a), esc, a)
    ensures IsSplit(Flatten(a[1..]), esc, a[1..])
  {
    var r := a[1..];
    forall k | 0 <= k < |r| ensures IsBlock(r[k], esc, k == |r| - 1) {
      assert r[k] == a[k + 1];
    }
  }

  lemma {:induction false} SomeRow(esc: char, a: seq<seq<Row>>)
    requires IsSplit(Flatten(a), esc, a)
    ensures a != [] ==> Flatten(a) != []
  {
    if a != [] {
      assert IsBlock(a[0], esc, 0 == |a| - 1);
    }
  }

  lemma {:induction false} NotShorter(esc: char, a: seq<seq<Row>>, b: seq<seq<Row>>)
    requires a != [] && b != [] && Flatten(a) == Flatten(b)
    requires IsSplit(Flatten(a), esc, a) && IsSplit(Flatten(b), esc, b)
    ensures |a[0]| >= |b[0]|
  {
    var rows := Flatten(a);
    assert a[0] == rows[..|a[0]|] && b[0] == rows[..|b[0]|];
    assert IsBlock(a[0], esc, 0 == |a| - 1) && IsBlock(b[0], esc, 0 == |b| - 1);
    if |a| == 1 {
      assert rows == a[0];
    }
  }

  // ---------- the text of a line ----------

  lemma {:induction false} TextKeepsOut(block: seq<Row>, esc: char, c: char)
    requires forall i :: 0 <= i < |block| ==> c !in block[i].content
    ensures c !in Text(block, esc)
  {
    if block != [] {
      var last := block[|block| - 1];
      TrimSpaceKeepsOut(last.content, c);
      hide TrimSpace;
      assert c !in Piece(last, esc);
      hide Piece;
      TextKeepsOut(block[..|block| - 1], esc, c);
    }
  }

  lemma {:induction false} RawKeepsOut(begin: nat, end: nat, logic: string, c: char)
    requires LineOf(begin, end, logic).Ok? && c !in logic
    ensures Firm(LineOf(begin, end, logic).value.raw) && c !in LineOf(begin, end, logic).value.raw
  {
    var rest := logic[IndexOf(logic, ' ') + 1..];
    TrimSpaceFirm(rest);
    TrimSpaceKeepsOut(rest, c);
  }

  lemma {:induction false} RowIn(blocks: seq<seq<Row>>, k: nat, i: nat)
    requires k < |blocks| && i < |blocks[k]|
    ensures blocks[k][i] in Flatten(blocks)
  {
    if k > 0 { RowIn(blocks[1..], k - 1, i); }
  }

  /** The text of every line read from a Dockerfile is trimmed, not empty, and in one piece. */
  lemma {:induction false} LineTexts(data: string, esc: char)
    requires Lines(Rows(Tokens(data)), esc).Ok?
    ensures forall k :: 0 <= k < |Lines(Rows(Tokens(data)), esc).value| ==>
      var raw := Lines(Rows(Tokens(data)), esc).value[k].raw; Firm(raw) && '\n' !in raw
  {
    hide Rows, Lines, Effective, IsBlock, Text, LineOf, Firm, Tokens, Blocks;
    var rows: seq<Row> := Rows(Tokens(data));
    var blocks: seq<seq<Row>> := Blocks(rows, esc);
    RowsConserved(rows, esc);
    RowsOf(Tokens(data));
    TokensOneLine(data);
    forall k | 0 <= k < |blocks|
      ensures Firm(Lines(rows, esc).value[k].raw) && '\n' !in Lines(rows, esc).value[k].raw
    {
      forall i | 0 <= i < |blocks[k]| ensures '\n' !in blocks[k][i].content {
        RowIn(blocks, k, i);
        var r := blocks[k][i];
        assert r == Row(r.lineNum, r.content) && r in rows;
      }
      TextKeepsOut(blocks[k], esc, '\n');
      RawKeepsOut(blocks[k][0].lineNum, blocks[k][|blocks[k]| - 1].lineNum, Text(blocks[k], esc), '\n');
    }
  }

  lemma {:induction false} TokensOneLine(data: string)
    ensures forall i :: 0 <= i < |Tokens(data)| ==> '\n' !in Tokens(data)[i]
  {
    hide ShortLen;
    assert forall i :: 0 <= i < |Physical(data)| ==> '\n' !in Physical(data)[i];
  }
}
