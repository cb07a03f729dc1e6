/**
ONBUILD: how a trigger is checked when it is declared, how the triggers of a base image are put in front of the lines
of a stage, and which triggers the image that the stage commits carries in turn.
*/
module OnBuild {
  import opened Basics
  import opened Strings
  import opened LogicalLines
  import opened TriggerText

  const ONBUILD := "ONBUILD"

  // ---------- declaring a trigger ----------

  /** `strings.Fields` */
  function Fields(s: string): (r: seq<string>)
    ensures forall f :: f in r ==> f != ""
  {
    FieldsFrom(s, "")
  }

  /** The fields of word + s, where word is the field being read. */
  function FieldsFrom(s: string, word: string): (r: seq<string>)
    ensures forall f :: f in r ==> f != ""
    ensures word != "" ==> r != []
    decreases |s|
  {
    if s == "" then (if word == "" then [] else [word])
    else if IsSpace(s[0]) then (if word == "" then [] else [word]) + FieldsFrom(s[1..], "")
    else FieldsFrom(s[1..], word + [s[0]])
  }

  /** Words, each with the white space behind it. */
  function Spread(words: seq<string>, gaps: seq<string>): string
    requires |gaps| == |words|
  {
    if words == [] then "" else words[0] + gaps[0] + Spread(words[1..], gaps[1..])
  }

  lemma {:induction false} FieldsSkip(gap: string, s: string)
    requires Blank(gap)
    ensures FieldsFrom(gap + s, "") == FieldsFrom(s, "")
  {
    if gap == "" {
      assert gap + s == s;
    } else {
      assert (gap + s)[1..] == gap[1..] + s;
      FieldsSkip(gap[1..], s);
    }
  }

  lemma {:induction false} FieldsWord(word: string, w: string, s: string)
    requires (forall i :: 0 <= i < |w| ==> !IsSpace(w[i])) && word + w != "" && (s == "" || IsSpace(s[0]))
    ensures FieldsFrom(w + s, word) == [word + w] + FieldsFrom(s, "")
    decreases |w|
  {
    if w == "" {
      assert w + s == s && word + w == word;
      if s != "" { assert FieldsFrom(s, word) == [word] + FieldsFrom(s[1..], ""); }
    } else {
      assert (w + s)[1..] == w[1..] + s;
      assert word + [w[0]] + w[1..] == word + w;
      FieldsWord(word + [w[0]], w[1..], s);
    }
  }

  /** The fields of a text are its words, whatever white space is around them. */
  lemma {:induction false} FieldsOf(lead: string, words: seq<string>, gaps: seq<string>)
    requires |gaps| == |words| && Blank(lead) && (forall i :: 0 <= i < |gaps| ==> Blank(gaps[i]))
    requires forall i :: 0 <= i < |words| ==> words[i] != "" && forall j :: 0 <= j < |words[i]| ==> !IsSpace(words[i][j])
    requires forall i :: 0 <= i < |words| - 1 ==> gaps[i] != ""
    ensures Fields(lead + Spread(words, gaps)) == words
    decreases |words|
  {
    var text := Spread(words, gaps);
    FieldsSkip(lead, text);
    if words != [] {
      var rest := Spread(words[1..], gaps[1..]);
      assert text == words[0] + (gaps[0] + rest);
      if |words| == 1 { assert rest == ""; }
      assert gaps[0] + rest == "" || IsSpace((gaps[0] + rest)[0]);
      FieldsWord("", words[0], gaps[0] + rest);
      assert "" + words[0] == words[0];
      FieldsOf(gaps[0], words[1..], gaps[1..]);
    }
  }

  predicate Forbidden(cmd: string) { cmd == ONBUILD || cmd == "FROM" || cmd == "MAINTAINER" }

  /** A parsed line in memory. */
  class LineCell {
    var command: string
    var raw: string
    var cells: seq<string>
  }

  /**
  `parseOnBuild`. `handlers` stands for the parsers of the other instructions: the arguments they find, if they know
  the command and accept its text. The trigger is parsed in place of the line and the line restored, also on errors.
  */
  method ParseOnBuild(line: LineCell, handlers: map<string, string -> Option<seq<string>>>) returns (ok: bool)
    requires line.command == ONBUILD
    modifies line
    ensures line.command == ONBUILD && line.raw == old(line.raw)
    ensures
      var fields := Fields(line.raw);
      && ok == (&& fields != [] && !Forbidden(ToUpper(fields[0])) && ToUpper(fields[0]) in handlers
                && handlers[ToUpper(fields[0])](Join(fields[1..], ' ')).Some?)
      && (ok ==> line.cells == old(line.cells) + [ToUpper(fields[0])]
                               + handlers[ToUpper(fields[0])](Join(fields[1..], ' ')).value)
  {
    hide *;
    var flags := line.raw;
    var fields := Fields(flags);
    if |fields| < 1 { return false; }
    var cmd := ToUpper(fields[0]);
    if Forbidden(cmd) { return false; }
    line.cells := line.cells + [cmd];
    if cmd !in handlers { return false; }
    line.raw := Join(fields[1..], ' ');
    line.command := fields[0];
    var sub := handlers[cmd](line.raw);
    if sub.Some? { line.cells := line.cells + sub.value; }
    line.raw := flags;
    line.command := ONBUILD;
    ok := sub.Some?;
  }

  // ---------- firing the triggers ----------

  /** What the instruction parsers accept, and what the one page of an ONBUILD playbook may hold. */
  predicate Accepted(lines: seq<Line>, accepts: Line -> bool) {
    lines != [] && forall i :: 0 <= i < |lines| ==> accepts(lines[i]) && lines[i].command != "FROM"
  }

  /** The triggers of an image, written one per physical line, read as a Dockerfile again. */
  function Reparse(items: seq<string>, accepts: Line -> bool): Result<seq<Line>> {
    var lines :- Lines(Read(items), ESCAPE);
    if Accepted(lines, accepts) then Ok(lines) else Err
  }

  /** The lines of a stage after the triggers of its base image, if it has any, are inserted. */
  function Fire(items: seq<string>, lines: seq<Line>, accepts: Line -> bool): Result<seq<Line>>
    requires lines != []
  {
    if items == [] then Ok(lines)
    else
      var triggers :- Reparse(items, accepts);
      Ok([lines[0]] + triggers + lines[1..])
  }

  /** A slice: the first n elements of an array. */
  datatype Slice = Slice(a: array<Line>, n: nat)

  ghost predicate ValidSlice(s: Slice) { s.n <= s.a.Length }

  ghost function Contents(s: Slice): seq<Line>
    requires ValidSlice(s)
    reads s.a
  {
    s.a[..s.n]
  }

  /** `append`: in place while the array has room, otherwise in a new array. */
  method Append(s: Slice, xs: seq<Line>) returns (r: Slice)
    requires ValidSlice(s)
    modifies s.a
    ensures ValidSlice(r) && (fresh(r.a) || r.a == s.a)
    ensures Contents(r) == old(Contents(s)) + xs
  {
    var total := s.n + |xs|;
    var a := s.a;
    if total > a.Length {
      a := new Line[2 * total];
      forall i | 0 <= i < s.n { a[i] := s.a[i]; }
    }
    forall i | 0 <= i < |xs| { a[s.n + i] := xs[i]; }
    r := Slice(a, total);
    assert a[..s.n] == old(Contents(s));
    assert a[s.n..total] == xs;
    assert a[..total] == a[..s.n] + a[s.n..total];
  }

  /** What a stage has of its base image's configuration, and its lines. */
  class Stage {
    var onBuild: seq<string>
    var lines: Slice

    constructor (onBuild0: seq<string>, lines0: Slice)
      ensures onBuild == onBuild0 && lines == lines0
    {
      onBuild, lines := onBuild0, lines0;
    }

    /**
    `updateStageBuilder`, the ONBUILD part. The first append may overwrite the lines behind FROM in place; the rest of
    the lines was copied before, so the outcome is the same for every capacity.
    */
    method UpdateStageBuilder(accepts: Line -> bool) returns (ok: bool)
      requires ValidSlice(lines) && lines.n > 0
      modifies this, lines.a
      ensures ValidSlice(lines)
      ensures ok <==> Fire(old(onBuild), old(Contents(lines)), accepts).Ok?
      ensures ok ==> onBuild == [] && Fire(old(onBuild), old(Contents(lines)), accepts) == Ok(Contents(lines))
    {
      hide Lines, Rows, Accepted;
      if |onBuild| == 0 { return true; }
      ghost var before := Contents(lines);
      var rows := PreProcess(Written(onBuild));
      onBuild := [];
      var triggers := Format(rows, ESCAPE);
      if triggers.Err? || !Accepted(triggers.value, accepts) { return false; }
      var rear := lines.a[1..lines.n];
      assert rear == before[1..];
      assert lines.a[..1] == [before[0]];
      var front := Append(Slice(lines.a, 1), triggers.value);
      lines := Append(front, rear);
      ok := true;
    }

    /** `executeOnbuild` */
    method ExecuteOnbuild(raw: string)
      modifies this
      ensures onBuild == old(onBuild) + [raw] && lines == old(lines)
    {
      onBuild := onBuild + [raw];
    }
  }

  // ---------- when triggers fire in order ----------

  /**
  The lines of a stage become its FROM line, the triggers in order, then the rest, if and only if the triggers are
  one-liners that the instruction parsers accept.
  */
  lemma {:induction false} FiresInOrderIff(items: seq<string>, lines: seq<Line>, accepts: Line -> bool)
    requires AllFirm(items) && lines != []
    ensures Fire(items, lines, accepts) == Ok([lines[0]] + OwnLines(items) + lines[1..])
       <==> OneLiners(items) && (items == [] || Accepted(OwnLines(items), accepts))
  {
    hide Rows, Lines, Accepted, OneLiners, OwnLine;
    ReadBackIff(items);
    if items == [] {
      assert [lines[0]] + OwnLines(items) + lines[1..] == lines;
      assert OneLiners(items) by { NoItems(); }
    } else if Fire(items, lines, accepts).Ok? {
      var got := Reparse(items, accepts).value;
      SamePart([lines[0]], got, OwnLines(items), lines[1..]);
    }
  }

  lemma {:induction false} NoItems()
    ensures OneLiners([])
  {
  }

  lemma {:induction false} SamePart(a: seq<Line>, b: seq<Line>, c: seq<Line>, d: seq<Line>)
    ensures a + b + d == a + c + d <==> b == c
  {
    if a + b + d == a + c + d {
      assert |b| == |c|;
      assert b == (a + b + d)[|a|..|a| + |b|] && c == (a + c + d)[|a|..|a| + |c|];
    }
  }

  lemma {:induction false} OneRow(item: string)
    requires Effective(item)
    ensures Rows([item]) == [Row(1, item)]
  {
    hide Effective;
    assert [item][..0] == [] && Rows([]) == [];
  }

  lemma {:induction false} LinesOfOne(r: Row)
    ensures Lines([r], ESCAPE).Ok? ==> MakeLine([r], ESCAPE).Ok?
  {
    hide MakeLine, Continues;
    assert BlockLen([r], ESCAPE) == 1 && [r][..1] == [r];
  }

  lemma {:induction false} NoSpaceLine(r: Row)
    requires ' ' !in Piece(r, ESCAPE)
    ensures MakeLine([r], ESCAPE).Err?
  {
    hide Piece, TrimSpace, ToUpper, Text;
    TextOfOne(r);
    var text := Piece(r, ESCAPE);
    assert forall i :: 0 <= i < |text| ==> text[i] in text;
  }

  /** A declared trigger that breaks the child build: a command without a space behind it, such as `RUN` alone. */
  lemma {:induction false} NoSpaceFails(item: string, accepts: Line -> bool)
    requires Firm(item) && Effective(item) && '\n' !in item && |item| <= MAX_LINE && ' ' !in item
    ensures Reparse([item], accepts).Err?
  {
    TrimSpaceFirm(item);
    assert forall i :: 0 <= i < |Piece(Row(1, item), ESCAPE)| ==> Piece(Row(1, item), ESCAPE)[i] == item[i];
    hide Lines, MakeLine, Piece, Effective, TrimSpace, Rows, Tokens, ShortLen;
    TokensWritten([item]);
    assert [item][..ShortLen([item])] == [item];
    OneRow(item);
    LinesOfOne(Row(1, item));
    NoSpaceLine(Row(1, item));
  }

  lemma {:induction false} TwoRows(a: string, b: string)
    requires Effective(a) && Effective(b)
    ensures Rows([a, b]) == [Row(1, a), Row(2, b)]
  {
    OneRow(a);
    hide Effective;
    assert [a, b][..1] == [a];
  }

  lemma {:induction false} LinesOfTwo(r: Row, q: Row)
    requires Continues(r, ESCAPE)
    ensures Lines([r, q], ESCAPE).Ok? ==> |Lines([r, q], ESCAPE).value| == 1
  {
    hide MakeLine, Continues;
    assert [r, q][1..] == [q] && BlockLen([q], ESCAPE) == 1 && BlockLen([r, q], ESCAPE) == 2;
    assert [r, q][2..] == [] && Lines([], ESCAPE) == Ok([]);
  }

  /** Two declared triggers that become one line: the first ends in a backslash. */
  lemma {:induction false} BackslashMerges(a: string, b: string, accepts: Line -> bool)
    requires Firm(a) && Effective(a) && '\n' !in a && |a| <= MAX_LINE && a[|a| - 1] == ESCAPE
    requires Firm(b) && Effective(b) && '\n' !in b && |b| <= MAX_LINE
    ensures Reparse([a, b], accepts).Ok? ==> |Reparse([a, b], accepts).value| == 1
  {
    TrimSpaceFirm(a);
    assert Continues(Row(1, a), ESCAPE);
    hide Lines, Effective, TrimSpace, Rows, Continues, Tokens, ShortLen;
    TokensWritten([a, b]);
    assert [a, b][..ShortLen([a, b])] == [a, b];
    TwoRows(a, b);
    LinesOfTwo(Row(1, a), Row(2, b));
  }

  /** A declared trigger that is lost without a trace: it is too long for the scanner, as is all behind it. */
  lemma {:induction false} LongTriggerLost(a: string, b: string, lines: seq<Line>, accepts: Line -> bool)
    requires OneLiner(a) && Firm(b) && '\n' !in b && |b| > MAX_LINE && lines != [] && Accepted(OwnLines([a]), accepts)
    ensures Fire([a, b], lines, accepts) == Ok([lines[0]] + OwnLines([a]) + lines[1..])
  {
    OneLinerShort(a);
    hide Lines, Rows, Tokens, OneLiner, Accepted, OwnLine, ShortLen, Firm, OwnLines;
    TokensWritten([a, b]);
    TokensWritten([a]);
    assert ShortLen([a, b]) == 1 && [a, b][..1] == [a] && ShortLen([a]) == 1 && [a][..1] == [a];
    ReadBack([a]);
  }

  /** A trigger of a foreign image with a newline in it is two triggers. */
  lemma {:induction false} NewlineSplits(a: string, b: string, accepts: Line -> bool)
    ensures Reparse([a + "\n" + b], accepts) == Reparse([a, b], accepts)
  {
    hide Lines, Rows, Tokens, Accepted;
    var one := a + "\n" + b;
    assert [one][1..] == [] && Written([one]) == one + "\n" + "";
    assert [a, b][1..] == [b] && [b][1..] == [] && Written([b]) == b + "\n" + "";
    assert Written([a, b]) == a + "\n" + Written([b]);
    assert Written([one]) == Written([a, b]);
  }

  // ---------- triggers fire once ----------

  /** The texts of the ONBUILD lines, in order. */
  function Own(lines: seq<Line>): seq<string> {
    if lines == [] then []
    else
      var l := lines[|lines| - 1];
      Own(lines[..|lines| - 1]) + if l.command == ONBUILD then [l.raw] else []
  }

  /** Carry out the lines of a stage: every ONBUILD line adds its text to the configuration. */
  method ExecuteStage(lines: seq<Line>, stage: Stage)
    requires stage.onBuild == []
    modifies stage
    ensures stage.onBuild == Own(lines)
  {
    for n := 0 to |lines|
      invariant stage.onBuild == Own(lines[..n])
    {
      assert lines[..n + 1][..n] == lines[..n];
      if lines[n].command == ONBUILD {
        stage.ExecuteOnbuild(lines[n].raw);
      }
    }
    assert lines[..|lines|] == lines;
  }

  lemma {:induction false} OwnAppend(a: seq<Line>, b: seq<Line>)
    ensures Own(a + b) == Own(a) + Own(b)
  {
    if b == [] {
      assert a + b == a;
    } else {
      OwnAppend(a, b[..|b| - 1]);
      assert (a + b)[..|a + b| - 1] == a + b[..|b| - 1];
    }
  }

  lemma {:induction false} OwnNone(lines: seq<Line>)
    ensures Own(lines) == [] <==> forall i :: 0 <= i < |lines| ==> lines[i].command != ONBUILD
  {
    if lines != [] { OwnNone(lines[..|lines| - 1]); }
  }

  /** The triggers of the image that a stage commits: its configuration is cleared before its lines are carried out. */
  function Carried(items: seq<string>, lines: seq<Line>, accepts: Line -> bool): Result<seq<string>>
    requires lines != []
  {
    var fired :- Fire(items, lines, accepts);
    Ok(Own(fired))
  }

  /** The image carries its own triggers only, if and only if none of the inherited ones reads as an ONBUILD line. */
  lemma {:induction false} OwnTriggersIff(items: seq<string>, lines: seq<Line>, accepts: Line -> bool)
    requires lines != [] && items != [] && Reparse(items, accepts).Ok?
    ensures Carried(items, lines, accepts) == Ok(Own(lines)) <==>
            forall i :: 0 <= i < |Reparse(items, accepts).value| ==> Reparse(items, accepts).value[i].command != ONBUILD
  {
    hide Reparse, Own;
    var triggers := Reparse(items, accepts).value;
    OwnAppend([lines[0]] + triggers, lines[1..]);
    OwnAppend([lines[0]], triggers);
    OwnAppend([lines[0]], lines[1..]);
    assert [lines[0]] + lines[1..] == lines;
    OwnNone(triggers);
    var a, b, c := Own([lines[0]]), Own(triggers), Own(lines[1..]);
    assert |a + b + c| == |a + c| + |b|;
    if b == [] { assert a + b + c == a + c; }
  }

  /** What `parseOnBuild` demands of a trigger's command. */
  predicate Checked(raw: string) { Fields(raw) != [] && !Forbidden(ToUpper(Fields(raw)[0])) }

  /** A line of this command may come from a trigger: it starts no stage, declares no trigger and names no maintainer. */
  predicate MayFire(command: string) { command != "ONBUILD" && command != "FROM" && command != "MAINTAINER" }

  lemma {:induction false} FirstField(s: string, word: string, m: nat)
    requires m <= |s| && (forall i :: 0 <= i < m ==> !IsSpace(s[i])) && (m < |s| ==> IsSpace(s[m]))
    requires word + s[..m] != ""
    ensures FieldsFrom(s, word) != [] && FieldsFrom(s, word)[0] == word + s[..m]
    decreases m
  {
    if m == 0 {
      assert word + s[..m] == word;
    } else {
      assert s[..m] == [s[0]] + s[1..][..m - 1];
      assert word + [s[0]] + s[1..][..m - 1] == word + s[..m];
      FirstField(s[1..], word + [s[0]], m - 1);
    }
  }

  lemma {:induction false} SpacedCommand(w: string, i: nat)
    requires i < |w| && IsSpace(w[i])
    ensures MayFire(ToUpper(w))
  {
    assert ToUpper(w)[i] == w[i];
  }

  /** Instruction names have no backslash in them. */
  predicate Names(names: set<string>) { forall n :: n in names ==> ESCAPE !in n }

  /** A trigger in an image: the text of a line, and accepted by `parseOnBuild`. */
  predicate Trigger(raw: string, names: set<string>) {
    Firm(raw) && '\n' !in raw && Checked(raw) && ToUpper(Fields(raw)[0]) in names
  }

  predicate Triggers(items: seq<string>, names: set<string>) {
    forall i :: 0 <= i < |items| ==> Trigger(items[i], names)
  }

  lemma {:induction false} TriggerWord(raw: string, names: set<string>)
    requires Firm(raw) && (Trigger(raw, names) ==> Names(names))
    ensures Fields(raw) != [] && Fields(raw)[0] == raw[..WordEnd(raw)] && WordEnd(raw) > 0
    ensures Trigger(raw, names) ==> MayFire(ToUpper(raw[..WordEnd(raw)])) && ESCAPE !in raw[..WordEnd(raw)]
  {
    var e := WordEnd(raw);
    FirstField(raw, "", e);
    assert "" + raw[..e] == raw[..e];
    UpperEscape(raw[..e]);
  }

  lemma {:induction false} UpperEscape(w: string)
    ensures ESCAPE !in ToUpper(w) ==> ESCAPE !in w
  {
    assert forall i :: 0 <= i < |w| ==> ToUpper(w)[i] == UpperChar(w[i]) && ToUpper(w)[i] in ToUpper(w);
  }

  lemma {:induction false} TextStarts(block: seq<Row>)
    requires block != []
    ensures Piece(block[0], ESCAPE) <= Text(block, ESCAPE)
  {
    hide Piece;
    if |block| == 1 {
      assert block[..0] == [];
      assert Text(block, ESCAPE) == "" + Piece(block[0], ESCAPE);
    } else {
      TextStarts(block[..|block| - 1]);
    }
  }

  /** A block that starts with a trigger makes no line of a forbidden command, whatever other rows it has. */
  lemma {:induction false} BlockCommand(block: seq<Row>, last: bool, names: set<string>)
    requires IsBlock(block, ESCAPE, last) && MakeLine(block, ESCAPE).Ok?
    requires Names(names) && Trigger(block[0].content, names)
    ensures MayFire(MakeLine(block, ESCAPE).value.command)
  {
    var item, text := block[0].content, Text(block, ESCAPE);
    TriggerWord(item, names);
    assert Firm(item);
    hide Trigger, Text, MakeLine, Fields;
    LineParts(block);
    TriggerInText(block, last);
    var e, m := WordEnd(item), IndexOf(text, ' ');
    hide *;
    SameCommand(item, text, e, m);
  }

  lemma {:induction false} SameCommand(item: string, text: string, e: nat, m: nat)
    requires e <= |item| && (forall i :: 0 <= i < e ==> !IsSpace(item[i])) && (e < |item| ==> IsSpace(item[e]))
    requires e <= |text| && text[..e] == item[..e] && (e < |text| ==> e < |item| && text[e] == item[e])
    requires m < |text| && text[m] == ' ' && ' ' !in text[..m] && MayFire(ToUpper(item[..e]))
    ensures MayFire(ToUpper(text[..m]))
  {
    assert forall i :: 0 <= i < e ==> text[i] == text[..e][i] == item[..e][i] == item[i];
    hide ToUpper, MayFire;
    if e < m {
      SpacedCommand(text[..m], e);
    }
  }

  /** The first field of a block's first row, and the white space behind it, are at the front of the block's text. */
  lemma {:induction false} TriggerInText(block: seq<Row>, last: bool)
    requires IsBlock(block, ESCAPE, last) && Firm(block[0].content)
    requires ESCAPE !in block[0].content[..WordEnd(block[0].content)]
    ensures
      var item, text := block[0].content, Text(block, ESCAPE);
      var e := WordEnd(item);
      e <= |text| && text[..e] == item[..e] && (e < |text| ==> e < |item| && text[e] == item[e])
  {
    hide Piece, Text, TrimSpace, WordEnd, Continues;
    var item := block[0].content;
    var e := WordEnd(item);
    ContinuesIff(block[0]);
    PieceOf(item, block[0].lineNum);
    if item[|item| - 1] == ESCAPE {
      TextStarts(block);
      EndsBefore(item, e);
      FrontOf(item, Piece(block[0], ESCAPE), Text(block, ESCAPE), e);
    } else {
      assert block == [block[0]];
      TextOfOne(block[0]);
    }
  }

  lemma {:induction false} ContinuesIff(r: Row)
    requires Firm(r.content)
    ensures Continues(r, ESCAPE) <==> r.content[|r.content| - 1] == ESCAPE
  {
    TrimSpaceFirm(r.content);
    hide TrimSpace;
  }

  lemma {:induction false} FrontOf(item: string, piece: string, text: string, e: nat)
    requires item != "" && piece == item[..|item| - 1] && piece <= text && e < |item| - 1
    ensures e < |text| && text[..e] == item[..e] && text[e] == item[e]
  {
    assert forall i :: 0 <= i < |piece| ==> text[i] == piece[i] == item[i];
  }

  lemma {:induction false} EndsBefore(item: string, e: nat)
    requires e <= |item| && ESCAPE !in item[..e] && item != "" && item[|item| - 1] == ESCAPE
    requires e < |item| ==> IsSpace(item[e])
    ensures e < |item| - 1
  {
    assert forall i :: 0 <= i < e ==> item[i] in item[..e];
  }

  lemma {:induction false} TriggerRows(text: seq<string>, names: set<string>)
    requires Names(names) && Triggers(text, names) && Lines(Rows(text), ESCAPE).Ok?
    ensures forall k :: 0 <= k < |Lines(Rows(text), ESCAPE).value| ==> MayFire(Lines(Rows(text), ESCAPE).value[k].command)
  {
    hide MayFire, Rows, Lines, Trigger, Names, MakeLine, IsBlock, Effective;
    var rows := Rows(text);
    var blocks := Blocks(rows, ESCAPE);
    RowsConserved(rows, ESCAPE);
    RowsOf(text);
    hide Blocks;
    forall k | 0 <= k < |blocks| ensures MayFire(Lines(rows, ESCAPE).value[k].command) {
      RowIn(blocks, k, 0);
      var r := blocks[k][0];
      assert r == Row(r.lineNum, r.content) && r in rows;
      BlockCommand(blocks[k], k == |blocks| - 1, names);
    }
  }

  lemma {:induction false} TriggersFirm(items: seq<string>, names: set<string>)
    requires Triggers(items, names)
    ensures AllFirm(items) && forall i :: 0 <= i < |items| ==> '\n' !in items[i]
  {
    forall i | 0 <= i < |items| ensures Firm(items[i]) && '\n' !in items[i] { assert Trigger(items[i], names); }
  }

  /**
  However the triggers of an image are read again, in one line each or not, none reads as an ONBUILD line, nor as one that
  starts a stage.
  */
  lemma {:induction false} NeverOnbuild(items: seq<string>, accepts: Line -> bool, names: set<string>)
    requires Names(names) && Triggers(items, names) && Reparse(items, accepts).Ok?
    ensures forall k :: 0 <= k < |Reparse(items, accepts).value| ==> MayFire(Reparse(items, accepts).value[k].command)
  {
    hide MayFire, Rows, Lines, Accepted, Trigger, Names, Tokens, ShortLen, AllFirm;
    TriggersFirm(items, names);
    TokensWritten(items);
    TriggerRows(items[..ShortLen(items)], names);
  }

  // ---------- chains of builds ----------

  /** A stage of a parsed Dockerfile. */
  predicate DeclaredStage(lines: seq<Line>, names: set<string>) {
    && lines != [] && lines[0].command == "FROM"
    && forall i :: 0 <= i < |lines| && lines[i].command == ONBUILD ==> Trigger(lines[i].raw, names)
  }

  lemma {:induction false} OwnTriggers(lines: seq<Line>, names: set<string>)
    requires forall i :: 0 <= i < |lines| && lines[i].command == ONBUILD ==> Trigger(lines[i].raw, names)
    ensures Triggers(Own(lines), names)
  {
    hide Trigger;
    if lines != [] { OwnTriggers(lines[..|lines| - 1], names); }
  }

  lemma {:induction false} CarriedOwn(items: seq<string>, lines: seq<Line>, accepts: Line -> bool, names: set<string>)
    requires Names(names) && Triggers(items, names) && DeclaredStage(lines, names) && Carried(items, lines, accepts).Ok?
    ensures Carried(items, lines, accepts).value == Own(lines) && Triggers(Own(lines), names)
  {
    hide Trigger, Own, Reparse, Names;
    OwnTriggers(lines, names);
    if items != [] {
      NeverOnbuild(items, accepts, names);
      OwnTriggersIff(items, lines, accepts);
    }
  }

  /** The triggers after building image upon image, each on the one before. */
  function Chain(items: seq<string>, files: seq<seq<Line>>, accepts: Line -> bool): Result<seq<string>>
    requires forall i :: 0 <= i < |files| ==> files[i] != []
  {
    if files == [] then Ok(items)
    else
      var before :- Chain(items, files[..|files| - 1], accepts);
      Carried(before, files[|files| - 1], accepts)
  }

  /**
  Triggers fire once: after any number of builds, on an image with any accepted triggers, the image carries the triggers
  of the last Dockerfile and no others.
  */
  lemma {:induction false} FireOnce(items: seq<string>, files: seq<seq<Line>>, accepts: Line -> bool, names: set<string>)
    requires Names(names) && Triggers(items, names)
    requires forall i :: 0 <= i < |files| ==> files[i] != [] && DeclaredStage(files[i], names)
    requires Chain(items, files, accepts).Ok?
    ensures Triggers(Chain(items, files, accepts).value, names)
    ensures files != [] ==> Chain(items, files, accepts).value == Own(files[|files| - 1])
  {
    hide Triggers, Carried, Own, Names;
    if files != [] {
      var init := files[..|files| - 1];
      FireOnce(items, init, accepts, names);
      CarriedOwn(Chain(items, init, accepts).value, files[|files| - 1], accepts, names);
    }
  }

  // ---------- images from elsewhere ----------

  /** The parsers accept an ONBUILD line only if its text is one that `parseOnBuild` accepts. */
  ghost predicate ChecksOnbuild(accepts: Line -> bool, names: set<string>) {
    forall l: Line :: l.command == ONBUILD && accepts(l) ==> Checked(l.raw) && ToUpper(Fields(l.raw)[0]) in names
  }

  /** Whatever triggers an image has, those of an image built on it are in order. */
  lemma {:induction false} CarriedTriggers(items: seq<string>, lines: seq<Line>, accepts: Line -> bool, names: set<string>)
    requires ChecksOnbuild(accepts, names) && DeclaredStage(lines, names) && Carried(items, lines, accepts).Ok?
    ensures Triggers(Carried(items, lines, accepts).value, names)
  {
    hide Reparse, Own, Trigger, ChecksOnbuild;
    var fired := Fire(items, lines, accepts).value;
    if items != [] {
      ReparseTriggers(items, accepts, names);
      var triggers := Reparse(items, accepts).value;
      assert fired == [lines[0]] + triggers + lines[1..];
      forall i | 0 <= i < |fired| && fired[i].command == ONBUILD ensures Trigger(fired[i].raw, names) {
        if 1 <= i < 1 + |triggers| {
          assert fired[i] == triggers[i - 1];
        } else {
          assert fired[i] == lines[if i == 0 then 0 else i - |triggers|];
        }
      }
    }
    OwnTriggers(fired, names);
  }

  lemma {:induction false} ReparseTriggers(items: seq<string>, accepts: Line -> bool, names: set<string>)
    requires ChecksOnbuild(accepts, names) && Reparse(items, accepts).Ok?
    ensures forall k :: 0 <= k < |Reparse(items, accepts).value| && Reparse(items, accepts).value[k].command == ONBUILD ==>
      Trigger(Reparse(items, accepts).value[k].raw, names)
  {
    hide Rows, Lines, Tokens, Checked, Firm, Written;
    LineTexts(Written(items), ESCAPE);
  }

  lemma {:induction false} ChainFirst(items: seq<string>, files: seq<seq<Line>>, accepts: Line -> bool)
    requires files != [] && (forall i :: 0 <= i < |files| ==> files[i] != []) && Chain(items, files, accepts).Ok?
    ensures Carried(items, files[0], accepts).Ok?
    ensures Chain(items, files, accepts) == Chain(Carried(items, files[0], accepts).value, files[1..], accepts)
  {
    hide Carried;
    if |files| == 1 {
      assert files[..0] == [] && Chain(items, [], accepts) == Ok(items);
    } else {
      var init := files[..|files| - 1];
      ChainFirst(items, init, accepts);
      assert init[1..] == files[1..][..|files| - 2];
    }
  }

  /**
  From any image: what its triggers leave behind is gone after the second build. From then on an image carries the triggers
  of its own Dockerfile and no others.
  */
  lemma {:induction false} FireOnceFromAny(items: seq<string>, files: seq<seq<Line>>, accepts: Line -> bool, names: set<string>)
    requires Names(names) && ChecksOnbuild(accepts, names) && |files| >= 2
    requires forall i :: 0 <= i < |files| ==> files[i] != [] && DeclaredStage(files[i], names)
    requires Chain(items, files, accepts).Ok?
    ensures Chain(items, files, accepts).value == Own(files[|files| - 1])
  {
    hide Carried, Own, Names, ChecksOnbuild, Triggers;
    ChainFirst(items, files, accepts);
    CarriedTriggers(items, files[0], accepts, names);
    FireOnce(Carried(items, files[0], accepts).value, files[1..], accepts, names);
  }

  lemma {:induction false} SecondCarried(a: string, b: string, c: string, from: Line, accepts: Line -> bool)
    requires OneLiner(a) && OneLiner(b) && Accepted(OwnLines([a, b]), accepts)
    requires from.command != ONBUILD && OwnLine(a, 1).command != ONBUILD
    requires OwnLine(b, 2).command == ONBUILD && OwnLine(b, 2).raw == c
    ensures Carried([a + "\n" + b], [from], accepts) == Ok([c])
  {
    hide OneLiner, Lines, Rows, Tokens, Accepted, OwnLine, Read, Own;
    NewlineSplits(a, b, accepts);
    ReadBack([a, b]);
    var x, y := OwnLine(a, 1), OwnLine(b, 2);
    assert OwnLines([a, b]) == [x, y];
    assert Reparse([a, b], accepts) == Ok([x, y]);
    hide Reparse;
    assert [from] + [x, y] + [from][1..] == [from, x] + [y];
    OwnAppend([from, x], [y]);
    OwnNone([from, x]);
    OwnOne(y);
    assert [] + [c] == [c];
  }

  lemma {:induction false} OwnOne(l: Line)
    requires l.command == ONBUILD
    ensures Own([l]) == [l.raw]
  {
    assert [l][..0] == [] && Own([]) == [];
  }

  /** Why one build is not enough there: an ONBUILD behind a newline is carried on. */
  lemma {:induction false} NewlineCarries(a: string, b: string, c: string, from: Line, accepts: Line -> bool)
    requires Firm(c) && b == ONBUILD + " " + c && OneLiner(a) && OneLiner(b) && Accepted(OwnLines([a, b]), accepts)
    requires from.command != ONBUILD && OwnLine(a, 1).command != ONBUILD
    ensures Carried([a + "\n" + b], [from], accepts) == Ok([c])
  {
    hide OneLiner, Accepted, OwnLine, Carried;
    OnbuildLine(c);
    SecondCarried(a, b, c, from, accepts);
  }

  lemma {:induction false} OnbuildLine(c: string)
    requires Firm(c)
    ensures OwnLine(ONBUILD + " " + c, 2).command == ONBUILD && OwnLine(ONBUILD + " " + c, 2).raw == c
  {
    var b := ONBUILD + " " + c;
    var e := WordEnd(b);
    assert forall i :: 0 <= i < 7 ==> b[i] == ONBUILD[i] && !IsSpace(b[i]);
    assert b[7] == ' ';
    assert e == 7;
    assert b[..7] == ONBUILD && ToUpper(ONBUILD) == ONBUILD;
    assert b[7..][1..] == c && TrimSpace(b[7..]) == TrimSpace(c);
    TrimSpaceFirm(c);
  }
}
