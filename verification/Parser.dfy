/** The whole parser: from the text of a Dockerfile to heading ARGs and pages. */
module Parser {
  import opened Basics
  import LogicalLines
  import opened Stages

  /** The instruction parsers: the arguments of a logical line, if its command is known and its text accepted. */
  type Handlers = LogicalLines.Line -> Result<seq<string>>

  function Handle(l: LogicalLines.Line, handlers: Handlers): Result<Instruction> {
    var cells :- handlers(l);
    Ok(Instruction(l.command, cells, l.begin, l.end))
  }

  /** The parsers of FROM and ARG find as many arguments as they should. */
  ghost predicate Sound(handlers: Handlers) {
    forall l :: Handle(l, handlers).Ok? ==> Parsed(Handle(l, handlers).value)
  }

  /** One instruction per logical line. */
  predicate Handled(lines: seq<LogicalLines.Line>, handlers: Handlers, instructions: seq<Instruction>) {
    |instructions| == |lines| && forall i :: 0 <= i < |lines| ==> HandledAs(lines[i], handlers, instructions[i])
  }

  /** The instruction has the arguments that its parser found, under the command and the numbers of its line. */
  predicate HandledAs(l: LogicalLines.Line, handlers: Handlers, i: Instruction) {
    handlers(l) == Ok(i.cells) && i.command == l.command && i.begin == l.begin && i.end == l.end
  }

  /** Step 4 of `Parse`. */
  method HandleAll(lines: seq<LogicalLines.Line>, handlers: Handlers) returns (r: Result<seq<Instruction>>)
    ensures r.Ok? <==> forall i :: 0 <= i < |lines| ==> Handle(lines[i], handlers).Ok?
    ensures r.Ok? ==> Handled(lines, handlers, r.value)
  {
    var done: seq<Instruction> := [];
    for n := 0 to |lines|
      invariant |done| == n && forall i :: 0 <= i < n ==> Handle(lines[i], handlers) == Ok(done[i])
    {
      var next := Handle(lines[n], handlers);
      if next.Err? { return Err; }
      done := done + [next.value];
    }
    r := Ok(done);
  }

  /** The rows that the scanner finds in a text. */
  function RowsIn(data: string): seq<LogicalLines.Row> { LogicalLines.Rows(LogicalLines.Tokens(data)) }

  /** The instructions come from the blocks of rows of the text, one from each, with its command and line numbers. */
  ghost predicate FromText(data: string, esc: char, instructions: seq<Instruction>) {
    var rows := RowsIn(data);
    var blocks := LogicalLines.Blocks(rows, esc);
    && LogicalLines.IsSplit(rows, esc, blocks) && |instructions| == |blocks|
    && forall k :: 0 <= k < |blocks| ==>
         && blocks[k] != [] && LogicalLines.MakeLine(blocks[k], esc).Ok?
         && instructions[k].command == LogicalLines.MakeLine(blocks[k], esc).value.command
         && instructions[k].begin == blocks[k][0].lineNum
         && instructions[k].end == blocks[k][|blocks[k]| - 1].lineNum
  }

  lemma {:induction false} HandledFromText(data: string, esc: char, handlers: Handlers, instructions: seq<Instruction>)
    requires LogicalLines.Lines(RowsIn(data), esc).Ok?
    requires Handled(LogicalLines.Lines(RowsIn(data), esc).value, handlers, instructions)
    ensures FromText(data, esc, instructions)
  {
    hide LogicalLines.Lines, RowsIn, LogicalLines.Blocks, LogicalLines.IsSplit, LogicalLines.MakeLine;
    LogicalLines.RowsConserved(RowsIn(data), esc);
  }

  /** Every effective line of the text is among the rows: none is over-long or behind an over-long line. */
  ghost predicate Complete(data: string) {
    RowsIn(data) == LogicalLines.Rows(LogicalLines.DropAll(LogicalLines.Physical(data)))
  }

  /** A parsed file: its instructions come from its text in order, and are heading ARGs followed by pages. */
  ghost predicate FileOf(data: string, esc: char, args: seq<string>, pages: seq<Page>, instructions: seq<Instruction>) {
    && FromText(data, esc, instructions) && HeadingOf(instructions, args)
    && instructions == instructions[..|args|] + Concat(pages)
    && pages != [] && StagePages(pages) && CommitMarks(pages)
  }

  /** What makes the parser accept a text: every step of it does. */
  ghost predicate Accepts(data: string, esc: char, handlers: Handlers, instructions: seq<Instruction>) {
    && LogicalLines.Lines(RowsIn(data), esc).Ok?
    && Handled(LogicalLines.Lines(RowsIn(data), esc).value, handlers, instructions)
    && AllParsed(instructions) && PagesOk(instructions)
  }

  /**
  `Parse` of a Dockerfile, and when it succeeds. The instructions of the rows that the scanner found are neither lost nor
  moved on the way to the pages; together with `Complete` this holds for the whole text.
  */
  method Parse(data: string, esc: char, handlers: Handlers) returns (r: Result<(seq<string>, seq<Page>)>)
    requires Sound(handlers)
    ensures r.Ok? <==> exists instructions :: Accepts(data, esc, handlers, instructions)
    ensures r.Ok? ==> exists instructions ::
      Accepts(data, esc, handlers, instructions) && FileOf(data, esc, r.value.0, r.value.1, instructions)
  {
    hide LogicalLines.Lines, RowsIn, StagePages, CommitMarks, Concat, FromText, PagesOk;
    var rows := LogicalLines.PreProcess(data);
    assert rows == RowsIn(data) by { RowsInIs(data); }
    var lines := LogicalLines.Format(rows, esc);
    if lines.Err? { return Err; }
    var handled := HandleAll(lines.value, handlers);
    if handled.Err? {
      NotHandled(lines.value, handlers);
      return Err;
    }
    var instructions := handled.value;
    HandledFromText(data, esc, handlers, instructions);
    assert forall i :: 0 <= i < |instructions| ==>
      Handle(lines.value[i], handlers) == Ok(instructions[i]) && Parsed(instructions[i]);
    forall other | Handled(lines.value, handlers, other) ensures other == instructions {
      HandledOnce(lines.value, handlers, other, instructions);
    }
    r := ParsePages(instructions);
    assert r.Ok? ==> Accepts(data, esc, handlers, instructions);
    assert r.Ok? ==> FileOf(data, esc, r.value.0, r.value.1, instructions);
  }

  lemma {:induction false} RowsInIs(data: string)
    ensures RowsIn(data) == LogicalLines.Rows(LogicalLines.Tokens(data))
  {
  }

  lemma {:induction false} NotHandled(lines: seq<LogicalLines.Line>, handlers: Handlers)
    requires exists i :: 0 <= i < |lines| && Handle(lines[i], handlers).Err?
    ensures forall instructions :: !Handled(lines, handlers, instructions)
  {
  }

  lemma {:induction false} HandledOnce(lines: seq<LogicalLines.Line>, handlers: Handlers, a: seq<Instruction>, b: seq<Instruction>)
    requires Handled(lines, handlers, a) && Handled(lines, handlers, b)
    ensures a == b
  {
    assert forall i :: 0 <= i < |lines| ==> Handle(lines[i], handlers) == Ok(a[i]) == Ok(b[i]);
  }

  /** When nothing of the text is lost: exactly when no effective line is over-long or behind an over-long line. */
  lemma {:induction false} CompleteIff(data: string)
    ensures
      var lines := LogicalLines.Physical(data);
      Complete(data) <==>
      forall n :: LogicalLines.ShortLen(lines) <= n < |lines| ==> !LogicalLines.Effective(LogicalLines.DropCR(lines[n]))
  {
    hide LogicalLines.Rows, LogicalLines.Tokens;
    LogicalLines.AllRowsIff(data);
  }

  /** A file with an over-long line is parsed as the part in front of it, and nothing reports it. */
  lemma {:induction false} LongLineIgnored(front: string, long: string, rest: string, esc: char, handlers: Handlers,
                                           args: seq<string>, pages: seq<Page>, instructions: seq<Instruction>)
    requires front != "" ==> front[|front| - 1] == '\n'
    requires '\n' !in long && |long| > LogicalLines.MAX_LINE && (rest != "" ==> rest[0] == '\n')
    ensures Accepts(front + long + rest, esc, handlers, instructions) <==> Accepts(front, esc, handlers, instructions)
    ensures FileOf(front + long + rest, esc, args, pages, instructions) <==> FileOf(front, esc, args, pages, instructions)
  {
    LogicalLines.LongLineLost(front, long, rest);
    var data := front + long + rest;
    assert RowsIn(data) == RowsIn(front);
    hide *;
    SameRows(data, front, esc, handlers, args, pages, instructions);
  }

  lemma {:induction false} SameRows(a: string, b: string, esc: char, handlers: Handlers, args: seq<string>, pages: seq<Page>,
                                    instructions: seq<Instruction>)
    requires RowsIn(a) == RowsIn(b)
    ensures Accepts(a, esc, handlers, instructions) <==> Accepts(b, esc, handlers, instructions)
    ensures FileOf(a, esc, args, pages, instructions) <==> FileOf(b, esc, args, pages, instructions)
  {
    hide RowsIn, LogicalLines.Lines, Handled, AllParsed, PagesOk, LogicalLines.Blocks, LogicalLines.IsSplit,
         LogicalLines.MakeLine, HeadingOf, Concat, StagePages, CommitMarks;
    assert FromText(a, esc, instructions) <==> FromText(b, esc, instructions);
    hide FromText;
  }
}
