/**
Writing logical lines over several rows and reading them back: each row may be indented and followed by white space, and
all but the last of a line end in the escape character.
*/
module Joining {
  import opened Basics
  import opened Strings
  import opened LogicalLines

  /** A row as it is written: a piece of the text with white space around it. */
  datatype Segment = Segment(num: nat, lead: string, piece: string, trail: string)

  /** A logical line as it is written: the rows that go on, the row that ends it, and what they say when put together. */
  datatype Stanza = Stanza(more: seq<Segment>, last: Segment, command: string, gap: string, arg: string, tail: string)

  function Row1(g: Segment, end: string): Row { Row(g.num, g.lead + g.piece + end + g.trail) }

  /** The rows of a line; at the end of a file the last row may end in the escape character as well. */
  function Print(st: Stanza, esc: char, dangling: bool): (rows: seq<Row>)
    ensures |rows| == |st.more| + 1
  {
    seq(|st.more|, i requires 0 <= i < |st.more| => Row1(st.more[i], [esc])) + [Row1(st.last, if dangling then [esc] else "")]
  }

  function Pieces(more: seq<Segment>): string {
    if more == [] then "" else more[0].piece + Pieces(more[1..])
  }

  /** Nothing but white space around the piece, which starts without any. */
  predicate Clean(g: Segment) { Blank(g.lead) && Blank(g.trail) && (g.piece == "" || !IsSpace(g.piece[0])) }

  predicate Clear(st: Stanza, esc: char, dangling: bool) {
    && !IsSpace(esc) && Clean(st.last) && (forall i :: 0 <= i < |st.more| ==> Clean(st.more[i]))
    && (!dangling && st.last.piece != "" ==>
          !IsSpace(st.last.piece[|st.last.piece| - 1]) && st.last.piece[|st.last.piece| - 1] != esc)
  }

  /** The pieces put together are a command, a space and an argument, with more white space around that if need be. */
  predicate Says(st: Stanza) {
    && Pieces(st.more) + st.last.piece == st.command + " " + st.gap + st.arg + st.tail
    && ' ' !in st.command && Blank(st.gap) && Firm(st.arg) && Blank(st.tail)
  }

  function FirstNum(st: Stanza): nat { if st.more == [] then st.last.num else st.more[0].num }

  function LineAs(st: Stanza): Line { Line(FirstNum(st), st.last.num, ToUpper(st.command), st.arg) }

  // ---------- one row ----------

  lemma {:induction false} TrimmedAs(lead: string, text: string, trail: string)
    requires Blank(lead) && Blank(trail) && (text == "" || Firm(text))
    ensures TrimSpace(lead + text + trail) == text
  {
    if text == "" {
      assert lead + text + trail == (lead + trail) + "";
      TrimLeftOf(lead + trail, "");
    } else {
      assert lead + text + trail == lead + (text + trail);
      TrimLeftOf(lead, text + trail);
      TrimRightOf(text, trail);
    }
  }

  lemma {:induction false} GoesOnAs(g: Segment, esc: char)
    requires Clean(g) && !IsSpace(esc)
    ensures Continues(Row1(g, [esc]), esc) && Piece(Row1(g, [esc]), esc) == g.piece
  {
    var text := g.piece + [esc];
    assert text[0] == if g.piece == "" then esc else g.piece[0];
    assert g.lead + g.piece + [esc] + g.trail == g.lead + text + g.trail;
    TrimmedAs(g.lead, text, g.trail);
    assert text[..|text| - 1] == g.piece;
  }

  lemma {:induction false} EndsAs(g: Segment, esc: char)
    requires Clean(g) && (g.piece == "" || (!IsSpace(g.piece[|g.piece| - 1]) && g.piece[|g.piece| - 1] != esc))
    ensures !Continues(Row1(g, ""), esc) && Piece(Row1(g, ""), esc) == g.piece
  {
    assert g.lead + g.piece + "" + g.trail == g.lead + g.piece + g.trail;
    TrimmedAs(g.lead, g.piece, g.trail);
  }

  // ---------- one line ----------

  lemma {:induction false} RowsClear(st: Stanza, esc: char, dangling: bool)
    requires Clear(st, esc, dangling)
    ensures var rows := Print(st, esc, dangling);
      && (forall i :: 0 <= i < |st.more| ==> Continues(rows[i], esc) && Piece(rows[i], esc) == st.more[i].piece)
      && Piece(rows[|st.more|], esc) == st.last.piece && (Continues(rows[|st.more|], esc) <==> dangling)
  {
    hide Continues, Piece;
    forall i | 0 <= i < |st.more|
      ensures Continues(Print(st, esc, dangling)[i], esc) && Piece(Print(st, esc, dangling)[i], esc) == st.more[i].piece
    {
      GoesOnAs(st.more[i], esc);
    }
    if dangling { GoesOnAs(st.last, esc); } else { EndsAs(st.last, esc); }
  }

  lemma {:induction false} BlockIs(rows: seq<Row>, esc: char, n: nat)
    requires n < |rows| && (forall i :: 0 <= i < n ==> Continues(rows[i], esc))
    requires !Continues(rows[n], esc) || n == |rows| - 1
    ensures BlockLen(rows, esc) == n + 1
  {
    hide Continues;
    if n > 0 { BlockIs(rows[1..], esc, n - 1); }
  }

  lemma {:induction false} TextFront(rows: seq<Row>, esc: char)
    requires rows != []
    ensures Text(rows, esc) == Piece(rows[0], esc) + Text(rows[1..], esc)
  {
    hide Piece;
    if |rows| > 1 {
      var init := rows[..|rows| - 1];
      TextFront(init, esc);
      assert init[1..] == rows[1..][..|rows| - 2];
      assert rows[1..][|rows| - 2] == rows[|rows| - 1];
    } else {
      assert rows[..0] == [] && rows[1..] == [];
    }
  }

  lemma {:induction false} TextIs(rows: seq<Row>, esc: char, more: seq<Segment>, last: string)
    requires |rows| == |more| + 1 && (forall i :: 0 <= i < |more| ==> Piece(rows[i], esc) == more[i].piece)
    requires Piece(rows[|more|], esc) == last
    ensures Text(rows, esc) == Pieces(more) + last
    decreases |more|
  {
    hide Piece;
    TextFront(rows, esc);
    if more == [] {
      assert rows[1..] == [];
    } else {
      TextIs(rows[1..], esc, more[1..], last);
      assert more[0].piece + (Pieces(more[1..]) + last) == Pieces(more) + last;
    }
  }

  lemma {:induction false} SpaceAt(a: string, b: string)
    requires ' ' !in a
    ensures IndexOf(a + " " + b, ' ') == |a|
  {
    var s := a + " " + b;
    assert s[|a|] == ' ' && s[..|a|] == a;
  }

  lemma {:induction false} LineSays(st: Stanza)
    requires Says(st)
    ensures LineOf(FirstNum(st), st.last.num, Pieces(st.more) + st.last.piece) == Ok(LineAs(st))
  {
    var text := Pieces(st.more) + st.last.piece;
    var rest := st.gap + st.arg + st.tail;
    assert text == st.command + " " + rest;
    SpaceAt(st.command, rest);
    assert text[..|st.command|] == st.command && text[|st.command| + 1..] == rest;
    TrimmedAs(st.gap, st.arg, st.tail);
  }

  lemma {:induction false} StanzaLine(st: Stanza, esc: char, dangling: bool)
    requires Clear(st, esc, dangling)
    ensures MakeLine(Print(st, esc, dangling), esc) == LineOf(FirstNum(st), st.last.num, Pieces(st.more) + st.last.piece)
  {
    hide LineOf, Continues, Piece;
    RowsClear(st, esc, dangling);
    TextIs(Print(st, esc, dangling), esc, st.more, st.last.piece);
  }

  // ---------- a file ----------

  /** The rows of a file, line after line. */
  function PrintAll(file: seq<Stanza>, esc: char, dangling: bool): seq<Row> {
    if file == [] then [] else Print(file[0], esc, dangling && |file| == 1) + PrintAll(file[1..], esc, dangling)
  }

  predicate AllClear(file: seq<Stanza>, esc: char, dangling: bool) {
    forall i :: 0 <= i < |file| ==> Clear(file[i], esc, dangling && i == |file| - 1)
  }

  lemma {:induction false} FirstBlock(file: seq<Stanza>, esc: char, dangling: bool)
    requires file != [] && AllClear(file, esc, dangling)
    ensures var rows := PrintAll(file, esc, dangling);
      && rows != [] && BlockLen(rows, esc) == |file[0].more| + 1
      && rows[..|file[0].more| + 1] == Print(file[0], esc, dangling && |file| == 1)
      && rows[|file[0].more| + 1..] == PrintAll(file[1..], esc, dangling)
  {
    hide Continues, Piece, Print;
    var end := dangling && |file| == 1;
    assert Clear(file[0], esc, end);
    RowsClear(file[0], esc, end);
    BlockIs(PrintAll(file, esc, dangling), esc, |file[0].more|);
  }

  /**
  Every file is read back line by line, however its lines are spread over rows: each gives one logical line with its
  command, its argument and the numbers of its first and last row.
  */
  lemma {:induction false} JoinedBack(file: seq<Stanza>, esc: char, dangling: bool)
    requires AllClear(file, esc, dangling) && forall i :: 0 <= i < |file| ==> Says(file[i])
    ensures Lines(PrintAll(file, esc, dangling), esc).Ok?
    ensures var lines := Lines(PrintAll(file, esc, dangling), esc).value;
      |lines| == |file| && forall i :: 0 <= i < |file| ==> lines[i] == LineAs(file[i])
    decreases |file|
  {
    hide BlockLen, MakeLine, LineOf, Says, LineAs, Print, Clear;
    if file != [] {
      FirstBlock(file, esc, dangling);
      assert Clear(file[0], esc, dangling && |file| == 1);
      StanzaLine(file[0], esc, dangling && |file| == 1);
      LineSays(file[0]);
      var rest := file[1..];
      assert forall i :: 0 <= i < |rest| ==> rest[i] == file[i + 1];
      JoinedBack(rest, esc, dangling);
    }
  }

  /** The other lines are errors: those whose pieces have no space in them, or nothing but white space behind the first. */
  lemma {:induction false} NothingSaid(st: Stanza, esc: char, dangling: bool, front: string, behind: string)
    requires Clear(st, esc, dangling) && ' ' !in front && Blank(behind)
    requires Pieces(st.more) + st.last.piece == front || Pieces(st.more) + st.last.piece == front + " " + behind
    ensures Lines(Print(st, esc, dangling), esc).Err?
  {
    var text := Pieces(st.more) + st.last.piece;
    if text == front {
      assert IndexOf(text, ' ') == |text|;
    } else {
      SpaceAt(front, behind);
      assert text[|front| + 1..] == behind == behind + "" + "";
      TrimmedAs(behind, "", "");
    }
    assert LineOf(FirstNum(st), st.last.num, text).Err?;
    hide LineOf, BlockLen, MakeLine, Print;
    assert PrintAll([st], esc, dangling) == Print(st, esc, dangling);
    FirstBlock([st], esc, dangling);
    StanzaLine(st, esc, dangling);
  }

  // ---------- a text ----------

  /** Lines, each with its newline; `crlf` says which have a carriage return in front of it. */
  function Ended(lines: seq<string>, crlf: seq<bool>): string
    requires |crlf| == |lines|
  {
    if lines == [] then "" else lines[0] + (if crlf[0] then "\r\n" else "\n") + Ended(lines[1..], crlf[1..])
  }

  lemma {:induction false} LineFirst(s: string, cr: bool, rest: string)
    requires '\n' !in s && |s| < MAX_LINE && (s != "" ==> s[|s| - 1] != '\r')
    ensures Tokens(s + (if cr then "\r\n" else "\n") + rest) == [s] + Tokens(rest)
  {
    hide Tokens, IndexOf;
    var line := if cr then s + "\r" else s;
    var data := s + (if cr then "\r\n" else "\n") + rest;
    assert data == line + "\n" + rest;
    NewlineAt(line, rest);
    TokensStep(data);
    assert data[..|line|] == line && data[|line| + 1..] == rest;
    if cr { assert line[..|line| - 1] == s; }
    assert DropCR(line) == s;
  }

  /** The scanner delivers the lines of a text, with either kind of line end. */
  lemma {:induction false} LinesBack(lines: seq<string>, crlf: seq<bool>)
    requires |crlf| == |lines| && forall i :: 0 <= i < |lines| ==> '\n' !in lines[i] && |lines[i]| < MAX_LINE
    requires forall i :: 0 <= i < |lines| && lines[i] != "" ==> lines[i][|lines[i]| - 1] != '\r'
    ensures Tokens(Ended(lines, crlf)) == lines
    decreases |lines|
  {
    hide Tokens;
    if lines == [] {
      NoTokens();
    } else {
      LineFirst(lines[0], crlf[0], Ended(lines[1..], crlf[1..]));
      LinesBack(lines[1..], crlf[1..]);
    }
  }

  /** From text to logical lines: if the effective lines of a text are the rows of a file, that file is what is read. */
  lemma {:induction false} TextBack(text: seq<string>, crlf: seq<bool>, file: seq<Stanza>, esc: char, dangling: bool)
    requires |crlf| == |text| && forall i :: 0 <= i < |text| ==> '\n' !in text[i] && |text[i]| < MAX_LINE
    requires forall i :: 0 <= i < |text| && text[i] != "" ==> text[i][|text[i]| - 1] != '\r'
    requires Rows(text) == PrintAll(file, esc, dangling)
    requires AllClear(file, esc, dangling) && forall i :: 0 <= i < |file| ==> Says(file[i])
    ensures Lines(Rows(Tokens(Ended(text, crlf))), esc).Ok?
    ensures var lines := Lines(Rows(Tokens(Ended(text, crlf))), esc).value;
      |lines| == |file| && forall i :: 0 <= i < |file| ==> lines[i] == LineAs(file[i])
  {
    hide Tokens, Rows, Lines, Says, LineAs, Clear;
    LinesBack(text, crlf);
    JoinedBack(file, esc, dangling);
  }
}
