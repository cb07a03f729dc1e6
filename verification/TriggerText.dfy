/**
The triggers of an image as text: written one per line, and read again like a Dockerfile.
*/
module TriggerText {
  import opened Basics
  import opened Strings
  import opened LogicalLines

  const ESCAPE := '\\'

  /** The text that is made of an image's triggers. */
  function Written(items: seq<string>): string {
    if items == [] then "" else items[0] + "\n" + Written(items[1..])
  }

  /** The rows that the scanner finds in it. */
  function Read(items: seq<string>): seq<Row> { Rows(Tokens(Written(items))) }

  // ---------- triggers written and read again ----------

  /** A trigger as a line of its own: the command in its first field, and the rest. */
  function OwnLine(item: string, n: nat): Line {
    Line(n, n, ToUpper(item[..WordEnd(item)]), TrimSpace(item[WordEnd(item)..]))
  }

  function OwnLines(items: seq<string>): seq<Line> {
    seq(|items|, i requires 0 <= i < |items| => OwnLine(items[i], i + 1))
  }

  /**
  The text is no comment, its first field is followed by a space, it does not end in the escape character, and it is one
  line that the scanner delivers.
  */
  predicate OneLiner(item: string) {
    && Firm(item) && Effective(item) && item[|item| - 1] != ESCAPE
    && WordEnd(item) < |item| && item[WordEnd(item)] == ' '
    && '\n' !in item && |item| <= MAX_LINE
  }

  predicate OneLiners(items: seq<string>) { forall i :: 0 <= i < |items| ==> OneLiner(items[i]) }

  predicate AllFirm(items: seq<string>) { forall i :: 0 <= i < |items| ==> Firm(items[i]) }

  lemma {:induction false} FirstSpace(s: string, n: nat)
    requires n < |s| && s[n] == ' ' && ' ' !in s[..n]
    ensures IndexOf(s, ' ') == n
  {
    var m := IndexOf(s, ' ');
    assert forall i :: 0 <= i < n ==> s[i] in s[..n];
    assert forall i :: 0 <= i < m ==> s[i] in s[..m];
  }

  lemma {:induction false} LineOfCut(n: nat, text: string, e: nat)
    requires e < |text| && text[e] == ' ' && ' ' !in text[..e] && TrimSpace(text[e + 1..]) != ""
    ensures LineOf(n, n, text) == Ok(Line(n, n, ToUpper(text[..e]), TrimSpace(text[e + 1..])))
  {
    hide TrimSpace, ToUpper;
    FirstSpace(text, e);
  }

  /** The arguments of a firm text, with or without the space in front of them. */
  lemma {:induction false} ArgumentsOf(item: string, e: nat)
    requires Firm(item) && e < |item| && item[e] == ' '
    ensures TrimSpace(item[e..]) == TrimSpace(item[e + 1..]) != ""
  {
    assert item[e..][1..] == item[e + 1..];
    TrimSpaceFirm(item[e + 1..]);
  }

  lemma {:induction false} OneLinerStops(r: Row)
    requires OneLiner(r.content)
    ensures !Continues(r, ESCAPE)
    ensures var e := WordEnd(r.content); Firm(r.content) && e < |r.content| && r.content[e] == ' ' && ' ' !in r.content[..e]
  {
    TrimSpaceFirm(r.content);
  }

  lemma {:induction false} OneLinerLine(r: Row)
    requires OneLiner(r.content)
    ensures !Continues(r, ESCAPE) && MakeLine([r], ESCAPE) == Ok(OwnLine(r.content, r.lineNum))
  {
    var item := r.content;
    var e := WordEnd(item);
    OneLinerStops(r);
    hide OneLiner, Firm, Continues, Piece, Text, LineOf, TrimSpace, ToUpper, WordEnd;
    PieceOf(item, r.lineNum);
    TextOfOne(r);
    ArgumentsOf(item, e);
    LineOfCut(r.lineNum, item, e);
  }

  lemma {:induction false} OneLinerLines(rows: seq<Row>)
    requires forall i :: 0 <= i < |rows| ==> OneLiner(rows[i].content)
    ensures Lines(rows, ESCAPE).Ok? && |Lines(rows, ESCAPE).value| == |rows|
    ensures forall i :: 0 <= i < |rows| ==> Lines(rows, ESCAPE).value[i] == OwnLine(rows[i].content, rows[i].lineNum)
  {
    hide OneLiner, MakeLine, OwnLine, Continues;
    if rows != [] {
      OneLinerLine(rows[0]);
      assert rows[..1] == [rows[0]];
      OneLinerLines(rows[1..]);
    }
  }

  /** There are at most as many rows as items; if there are as many, they are the items. */
  lemma {:induction false} RowsOfItems(items: seq<string>)
    ensures |Rows(items)| <= |items|
    ensures |Rows(items)| == |items| <==> forall i :: 0 <= i < |items| ==> Effective(items[i])
    ensures |Rows(items)| == |items| ==> forall i :: 0 <= i < |items| ==> Rows(items)[i] == Row(i + 1, items[i])
  {
    hide Effective;
    if items != [] {
      var init := items[..|items| - 1];
      RowsOfItems(init);
      assert forall i :: 0 <= i < |init| ==> init[i] == items[i];
    }
  }

  lemma {:induction false} OneLinerEffective(item: string)
    requires OneLiner(item)
    ensures Effective(item)
  {
    hide Effective;
  }

  lemma {:induction false} OneLinerShort(item: string)
    requires OneLiner(item)
    ensures Firm(item) && '\n' !in item && |item| <= MAX_LINE
  {
  }

  lemma {:induction false} WrittenStep(item: string, rest: string)
    requires Firm(item) && '\n' !in item
    ensures Tokens(item + "\n" + rest) == if |item| > MAX_LINE then [] else [item] + Tokens(rest)
  {
    hide Tokens;
    var data := item + "\n" + rest;
    NewlineAt(item, rest);
    TokensStep(data);
    assert data[..|item|] == item && data[|item| + 1..] == rest;
  }

  /** Items without newlines are read up to the first that is too long. */
  lemma {:induction false} TokensWritten(items: seq<string>)
    requires AllFirm(items) && forall i :: 0 <= i < |items| ==> '\n' !in items[i]
    ensures Tokens(Written(items)) == items[..ShortLen(items)]
  {
    hide Tokens, Firm;
    if items == [] {
      assert Written(items) == "";
      NoTokens();
    } else {
      WrittenStep(items[0], Written(items[1..]));
      TokensWritten(items[1..]);
      if |items[0]| <= MAX_LINE {
        var k := ShortLen(items[1..]);
        assert items[..k + 1] == [items[0]] + items[1..][..k];
      }
    }
  }

  lemma {:induction false} ReadBack(items: seq<string>)
    requires OneLiners(items)
    ensures Lines(Read(items), ESCAPE) == Ok(OwnLines(items))
  {
    hide OneLiner, Effective, Rows, Lines, OwnLine, Firm, Tokens, ShortLen;
    forall i | 0 <= i < |items| ensures Effective(items[i]) && Firm(items[i]) && '\n' !in items[i] && |items[i]| <= MAX_LINE {
      OneLinerEffective(items[i]);
      OneLinerShort(items[i]);
    }
    TokensWritten(items);
    assert items[..ShortLen(items)] == items;
    RowsOfItems(items);
    OneLinerLines(Rows(items));
    assert Lines(Rows(items), ESCAPE).value == OwnLines(items);
  }

  // ---------- and only these ----------

  lemma {:induction false} FlattenLonger(blocks: seq<seq<Row>>)
    requires forall k :: 0 <= k < |blocks| ==> blocks[k] != []
    ensures |Flatten(blocks)| >= |blocks|
  {
    if blocks != [] { FlattenLonger(blocks[1..]); }
  }

  /** As many blocks as rows: every block is one row. */
  lemma {:induction false} SingleBlocks(blocks: seq<seq<Row>>)
    requires (forall k :: 0 <= k < |blocks| ==> blocks[k] != []) && |Flatten(blocks)| <= |blocks|
    ensures |Flatten(blocks)| == |blocks|
    ensures forall k :: 0 <= k < |blocks| ==> blocks[k] == [Flatten(blocks)[k]]
  {
    FlattenLonger(blocks);
    if blocks != [] {
      FlattenLonger(blocks[1..]);
      SingleBlocks(blocks[1..]);
      forall k | 0 <= k < |blocks| ensures blocks[k] == [Flatten(blocks)[k]] {
        if k > 0 { assert blocks[k] == blocks[1..][k - 1]; }
      }
    }
  }

  lemma {:induction false} TrimLeftMore(y: string, c: char)
    requires !IsSpace(c)
    ensures TrimLeft(y + [c]) == TrimLeft(y) + [c]
  {
    if y == "" {
      assert y + [c] == [c];
    } else {
      assert (y + [c])[1..] == y[1..] + [c];
      TrimLeftMore(y[1..], c);
    }
  }

  lemma {:induction false} TrimLonger(y: string, z: string)
    requires z != "" && !IsSpace(z[|z| - 1])
    ensures |TrimSpace(y + z)| > |TrimSpace(y)|
  {
    var u := y + z[..|z| - 1];
    assert y + z == u + [z[|z| - 1]];
    TrimLeftMore(u, z[|z| - 1]);
    TrimLeftPrefix(y, z[..|z| - 1]);
    TrimRightFirm(TrimLeft(y));
  }

  lemma {:induction false} TrimLeftPrefix(y: string, z: string)
    ensures |TrimLeft(y)| <= |TrimLeft(y + z)|
  {
    if y == "" {
      assert y + z == z;
    } else {
      assert (y + z)[1..] == y[1..] + z;
      TrimLeftPrefix(y[1..], z);
    }
  }

  /** Command and arguments of the line that a block makes. */
  lemma {:induction false} LineParts(block: seq<Row>)
    requires block != [] && MakeLine(block, ESCAPE).Ok?
    ensures
      var text := Text(block, ESCAPE);
      var m := IndexOf(text, ' ');
      && m < |text| && MakeLine(block, ESCAPE).value.command == ToUpper(text[..m])
      && MakeLine(block, ESCAPE).value.raw == TrimSpace(text[m + 1..])
  {
    hide Text, IndexOf, ToUpper, TrimSpace;
  }

  lemma {:induction false} TextOfOne(r: Row)
    ensures Text([r], ESCAPE) == Piece(r, ESCAPE)
  {
    hide Piece;
    assert [r][..0] == [] && Text([r], ESCAPE) == "" + Piece(r, ESCAPE);
  }

  lemma {:induction false} PieceOf(item: string, n: nat)
    requires Firm(item)
    ensures Piece(Row(n, item), ESCAPE) == if item[|item| - 1] == ESCAPE then item[..|item| - 1] else item
  {
    TrimSpaceFirm(item);
    hide TrimSpace;
  }

  /** The row of a token makes the line that is the item's own, but for line numbers. */
  predicate ReadsOwn(token: string, item: string) {
    var text, e := Piece(Row(0, token), ESCAPE), WordEnd(item);
    e < |text| && text[e] == ' ' && TrimSpace(text[e + 1..]) == TrimSpace(item[e..])
  }

  lemma {:induction false} OwnParts(token: string, item: string, n: nat)
    requires MakeLine([Row(n, token)], ESCAPE) == Ok(OwnLine(item, n))
    ensures ReadsOwn(token, item)
  {
    assert Piece(Row(n, token), ESCAPE) == Piece(Row(0, token), ESCAPE);
    hide Piece, TrimSpace, Text, WordEnd, MakeLine, ToUpper;
    TextOfOne(Row(n, token));
    LineParts([Row(n, token)]);
    var text := Piece(Row(n, token), ESCAPE);
    assert |ToUpper(text[..IndexOf(text, ' ')])| == |ToUpper(item[..WordEnd(item)])|;
  }

  /** A front part of a firm text has other arguments than the whole. */
  lemma {:induction false} OwnCut(item: string, text: string, m: nat)
    requires Firm(item) && text <= item && m < |text| && text[m] == ' '
    requires TrimSpace(text[m + 1..]) == TrimSpace(item[m..])
    ensures text == item
  {
    hide TrimSpace;
    var z := item[|text|..];
    assert item == text + z && item[m + 1..] == text[m + 1..] + z;
    ArgumentsOf(item, m);
    if z != "" {
      assert z[|z| - 1] == item[|item| - 1];
      TrimLonger(text[m + 1..], z);
    }
  }

  lemma {:induction false} PiecePrefix(token: string)
    requires token != "" && !IsSpace(token[0])
    ensures Piece(Row(0, token), ESCAPE) <= token
  {
    TrimRightFirm(token);
  }

  /** The first token of an item that reads as its own is the whole item. */
  lemma {:induction false} TokenIsItem(item: string, rest: string)
    requires Firm(item) && Tokens(item + "\n" + rest) != [] && ReadsOwn(Tokens(item + "\n" + rest)[0], item)
    ensures '\n' !in item && |item| <= MAX_LINE && item[|item| - 1] != ESCAPE
    ensures WordEnd(item) < |item| && item[WordEnd(item)] == ' '
    ensures Tokens(item + "\n" + rest) == [item] + Tokens(rest)
  {
    hide Tokens, TrimSpace, WordEnd, Piece;
    var data := item + "\n" + rest;
    var n := IndexOf(data, '\n');
    TokensStep(data);
    NewlineIn(item, rest);
    var token := DropCR(item[..n]);
    assert data[..n] == item[..n];
    assert token <= item && token != "" && token[0] == item[0];
    PiecePrefix(token);
    var text := Piece(Row(0, token), ESCAPE);
    OwnCut(item, text, WordEnd(item));
    assert token == item && n == |item|;
    PieceOf(item, 0);
    hide *;
    WrittenStep(item, rest);
  }

  lemma {:induction false} NewlineIn(item: string, rest: string)
    requires Firm(item)
    ensures var n := IndexOf(item + "\n" + rest, '\n'); 0 < n <= |item| && '\n' !in item[..n]
  {
    var data := item + "\n" + rest;
    var n := IndexOf(data, '\n');
    assert data[|item|] == '\n' && data[0] == item[0];
    assert forall i :: 0 <= i < n ==> data[i] in data[..n];
    assert item[..n] == data[..n];
  }

  /** If all first tokens read as the items' own, they are the items. */
  lemma {:induction false} TokensAreItems(items: seq<string>)
    requires AllFirm(items) && |Tokens(Written(items))| >= |items|
    requires forall k :: 0 <= k < |items| ==> ReadsOwn(Tokens(Written(items))[k], items[k])
    ensures forall k :: 0 <= k < |items| ==>
      && Tokens(Written(items))[k] == items[k]
      && '\n' !in items[k] && |items[k]| <= MAX_LINE && items[k][|items[k]| - 1] != ESCAPE
      && WordEnd(items[k]) < |items[k]| && items[k][WordEnd(items[k])] == ' '
  {
    hide Tokens, ReadsOwn, WordEnd, Firm;
    if items != [] {
      var rest := items[1..];
      TokenIsItem(items[0], Written(rest));
      var tokens := Tokens(Written(items));
      assert tokens == [items[0]] + Tokens(Written(rest));
      forall k | 0 <= k < |rest| ensures ReadsOwn(Tokens(Written(rest))[k], rest[k]) {
        assert ReadsOwn(tokens[k + 1], items[k + 1]);
      }
      TokensAreItems(rest);
      forall k | 0 <= k < |items|
        ensures && tokens[k] == items[k]
                && '\n' !in items[k] && |items[k]| <= MAX_LINE && items[k][|items[k]| - 1] != ESCAPE
                && WordEnd(items[k]) < |items[k]| && items[k][WordEnd(items[k])] == ' '
      {
        if k > 0 { assert items[k] == rest[k - 1]; }
      }
    }
  }

  lemma {:induction false} NumbersGrow(rows: seq<Row>, i: nat)
    requires (forall k :: 0 <= k < |rows| ==> rows[k].lineNum >= 1) && i < |rows|
    requires forall j, k :: 0 <= j < k < |rows| ==> rows[j].lineNum < rows[k].lineNum
    ensures rows[i].lineNum >= i + 1
  {
    if i > 0 { NumbersGrow(rows, i - 1); }
  }

  lemma {:induction false} FlattenLast(blocks: seq<seq<Row>>)
    requires blocks != [] && forall k :: 0 <= k < |blocks| ==> blocks[k] != []
    ensures Flatten(blocks) != []
    ensures var last := blocks[|blocks| - 1]; Flatten(blocks)[|Flatten(blocks)| - 1] == last[|last| - 1]
  {
    if |blocks| == 1 {
      assert Flatten(blocks[1..]) == [];
    } else {
      FlattenLast(blocks[1..]);
      assert blocks[1..][|blocks| - 2] == blocks[|blocks| - 1];
    }
  }

  /** Blocks that are numbered one by one are single rows. */
  lemma {:induction false} NumberedBlocks(rows: seq<Row>, blocks: seq<seq<Row>>)
    requires Flatten(blocks) == rows && (forall k :: 0 <= k < |rows| ==> rows[k].lineNum >= 1)
    requires forall j, k :: 0 <= j < k < |rows| ==> rows[j].lineNum < rows[k].lineNum
    requires forall k :: 0 <= k < |blocks| ==>
      blocks[k] != [] && blocks[k][0].lineNum == k + 1 && blocks[k][|blocks[k]| - 1].lineNum == k + 1
    ensures |rows| == |blocks|
    ensures forall k :: 0 <= k < |blocks| ==> blocks[k] == [Row(k + 1, rows[k].content)] && Row(k + 1, rows[k].content) in rows
  {
    if blocks != [] {
      FlattenLast(blocks);
      NumbersGrow(rows, |rows| - 1);
      SingleBlocks(blocks);
    }
  }

  /** Lines that are numbered one by one come from single rows, the first tokens. */
  lemma {:induction false} NumberedLines(tokens: seq<string>, lines: seq<Line>)
    requires Lines(Rows(tokens), ESCAPE) == Ok(lines)
    requires forall k :: 0 <= k < |lines| ==> lines[k].begin == k + 1 == lines[k].end
    ensures |tokens| >= |lines|
    ensures forall k :: 0 <= k < |lines| ==>
      Effective(tokens[k]) && MakeLine([Row(k + 1, tokens[k])], ESCAPE) == Ok(lines[k])
  {
    hide Rows, Lines, Effective, MakeLine, IsBlock, Blocks, Flatten;
    var rows := Rows(tokens);
    var blocks := Blocks(rows, ESCAPE);
    RowsConserved(rows, ESCAPE);
    RowsOf(tokens);
    assert Flatten(blocks) == rows;
    hide IsSplit;
    NumberedBlocks(rows, blocks);
    if lines != [] {
      assert Row(|lines|, rows[|lines| - 1].content) in rows;
    }
    forall k | 0 <= k < |lines|
      ensures k < |tokens| && Effective(tokens[k]) && MakeLine([Row(k + 1, tokens[k])], ESCAPE) == Ok(lines[k])
    {
      assert blocks[k] == [Row(k + 1, rows[k].content)];
    }
  }

  lemma {:induction false} OwnNumbers(items: seq<string>)
    ensures |OwnLines(items)| == |items|
    ensures forall k :: 0 <= k < |items| ==>
      && OwnLines(items)[k] == OwnLine(items[k], k + 1)
      && OwnLines(items)[k].begin == k + 1 == OwnLines(items)[k].end
  {
    hide TrimSpace, ToUpper, WordEnd;
  }

  lemma {:induction false} OwnRows(items: seq<string>)
    requires Lines(Read(items), ESCAPE) == Ok(OwnLines(items))
    ensures |Tokens(Written(items))| >= |items|
    ensures forall k :: 0 <= k < |items| ==>
      var token := Tokens(Written(items))[k];
      Effective(token) && MakeLine([Row(k + 1, token)], ESCAPE) == Ok(OwnLine(items[k], k + 1))
  {
    hide Lines, Rows, Tokens, Effective, MakeLine, OwnLine, OwnLines;
    OwnNumbers(items);
    NumberedLines(Tokens(Written(items)), OwnLines(items));
  }

  /**
  Which triggers survive. Written one per line and read as a Dockerfile again, triggers give one line each, with their
  own commands and arguments, if and only if every one of them is a one-liner.
  */
  lemma {:induction false} ReadBackIff(items: seq<string>)
    requires AllFirm(items)
    ensures Lines(Read(items), ESCAPE) == Ok(OwnLines(items)) <==> OneLiners(items)
  {
    hide Read, Lines, OwnLine, Effective, MakeLine, Firm, Tokens, WordEnd, ReadsOwn;
    if OneLiners(items) { ReadBack(items); }
    if Lines(Read(items), ESCAPE) == Ok(OwnLines(items)) {
      OwnRows(items);
      forall k | 0 <= k < |items| ensures ReadsOwn(Tokens(Written(items))[k], items[k]) {
        OwnParts(Tokens(Written(items))[k], items[k], k + 1);
      }
      TokensAreItems(items);
    }
  }
}
