/**
Stages as the parser makes them: the ARGs in front of the first FROM, the pages a Dockerfile is cut into, and which of
these are marked for commit.
*/
module Stages {
  import opened Basics
  import opened Decimal

  const FROM := "FROM"
  const ARG := "ARG"

  /** A logical line after its instruction parser: the text is replaced by its arguments, the cells. */
  datatype Instruction = Instruction(command: string, cells: seq<string>, begin: nat, end: nat)

  datatype Page = Page(name: string, begin: nat, end: nat, lines: seq<Instruction>, needCommit: bool)

  /** What the per-instruction parsers guarantee: FROM has one or three arguments, ARG at least one. */
  predicate Parsed(l: Instruction) {
    && (l.command == FROM ==> |l.cells| == 1 || |l.cells| == 3)
    && (l.command == ARG ==> |l.cells| >= 1)
  }

  predicate AllParsed(lines: seq<Instruction>) { forall i :: 0 <= i < |lines| ==> Parsed(lines[i]) }

  // ---------- heading ARGs ----------

  /** The number of lines in front of the first FROM. */
  function HeadLen(lines: seq<Instruction>): (n: nat)
    ensures n <= |lines| && (forall i :: 0 <= i < n ==> lines[i].command != FROM) && (n < |lines| ==> lines[n].command == FROM)
  {
    if lines == [] || lines[0].command == FROM then 0 else 1 + HeadLen(lines[1..])
  }

  /** Nothing but ARGs in front of the first FROM. */
  predicate HeadingOk(lines: seq<Instruction>) {
    forall i :: 0 <= i < HeadLen(lines) ==> lines[i].command == ARG
  }

  /** `args` are the first arguments of the lines in front of the first FROM, all of them ARGs. */
  predicate HeadingOf(lines: seq<Instruction>, args: seq<string>) {
    && |args| == HeadLen(lines)
    && forall i :: 0 <= i < |args| ==>
         lines[i].command == ARG && |lines[i].cells| > 0 && args[i] == lines[i].cells[0]
  }

  /** `truncHeadingArgs`: the ARGs in front of the first FROM, and the lines from there on. */
  method TruncHeadingArgs(lines: seq<Instruction>, onbuild: bool) returns (r: Result<(seq<string>, seq<Instruction>)>)
    requires AllParsed(lines)
    ensures onbuild ==> r == Ok(([], lines))
    ensures !onbuild ==> (r.Ok? <==> HeadingOk(lines))
    ensures !onbuild && r.Ok? ==> HeadingOf(lines, r.value.0) && r.value.1 == lines[HeadLen(lines)..]
  {
    if onbuild { return Ok(([], lines)); }
    var args: seq<string> := [];
    var num := 0;
    while num < |lines| && lines[num].command != FROM
      invariant 0 <= num <= HeadLen(lines) && |args| == num
      invariant forall i :: 0 <= i < num ==> lines[i].command == ARG && args[i] == lines[i].cells[0]
    {
      if lines[num].command != ARG { return Err; }
      args := args + [lines[num].cells[0]];
      num := num + 1;
    }
    r := Ok((args, lines[num..]));
  }

  // ---------- pages ----------

  predicate AlphaNum(c: char) { 'a' <= c <= 'z' || 'A' <= c <= 'Z' || '0' <= c <= '9' }

  /** `^[a-zA-Z0-9][a-zA-Z0-9-_\\.]{0,63}$` */
  predicate ValidName(s: string) {
    && 1 <= |s| <= 64 && AlphaNum(s[0])
    && forall i :: 1 <= i < |s| ==> AlphaNum(s[i]) || s[i] == '-' || s[i] == '_' || s[i] == '\\' || s[i] == '.'
  }

  /** The name of the page that a FROM line opens as page number i. */
  function PageName(l: Instruction, i: nat): string {
    if |l.cells| == 3 then l.cells[2] else Itoa(i)
  }

  /** The pages so far; the last one is the current page. The map leads from a name to the last page of that name. */
  datatype Book = Book(pages: seq<Page>, pageMap: map<string, nat>)

  predicate ValidBook(b: Book) { forall n :: n in b.pageMap ==> b.pageMap[n] < |b.pages| }

  function AddLine(pages: seq<Page>, l: Instruction): (r: seq<Page>)
    requires pages != []
    ensures |r| == |pages|
  {
    var last := pages[|pages| - 1];
    pages[|pages| - 1 := last.(end := l.end, lines := last.lines + [l])]
  }

  /** Open a page for a FROM line and mark the page it builds on, if that page has more than its FROM line. */
  function OpenPage(b: Book, l: Instruction): (r: Book)
    requires ValidBook(b) && l.command == FROM && Parsed(l)
    ensures ValidBook(r) && |r.pages| == |b.pages| + 1
  {
    var i := |b.pages|;
    var name := PageName(l, i);
    var pages := b.pages + [Page(name, l.begin, l.end, [], false)];
    var pageMap := b.pageMap[name := i];
    var base := l.cells[0];
    if base in pageMap && |pages[pageMap[base]].lines| > 1
    then Book(pages[pageMap[base] := pages[pageMap[base]].(needCommit := true)], pageMap)
    else Book(pages, pageMap)
  }

  /** One turn of the loop of `constructPages`. */
  function Turn(b: Book, l: Instruction, onbuild: bool): (r: Result<Book>)
    requires ValidBook(b) && Parsed(l) && (onbuild || b.pages != [] || l.command == FROM)
    ensures r.Ok? ==> ValidBook(r.value) && r.value.pages != []
  {
    if l.command == FROM then
      if onbuild || !ValidName(PageName(l, |b.pages|)) then Err
      else var o := OpenPage(b, l); Ok(o.(pages := AddLine(o.pages, l)))
    else
      var b1 := if onbuild && b.pages == [] then b.(pages := [Page("", l.begin, l.end, [], false)]) else b;
      Ok(b1.(pages := AddLine(b1.pages, l)))
  }

  /** All lines, one after the other. Apart from ONBUILD triggers the first line is a FROM line. */
  function Turns(lines: seq<Instruction>, onbuild: bool): (r: Result<Book>)
    requires AllParsed(lines) && (onbuild || (lines != [] ==> lines[0].command == FROM))
    ensures r.Ok? ==> ValidBook(r.value) && (lines != [] ==> r.value.pages != [])
  {
    if lines == [] then Ok(Book([], map[]))
    else
      var b :- Turns(lines[..|lines| - 1], onbuild);
      Turn(b, lines[|lines| - 1], onbuild)
  }

  function MarkLast(pages: seq<Page>): (r: seq<Page>)
    requires pages != []
    ensures |r| == |pages|
  {
    var last := pages[|pages| - 1];
    if |last.lines| > 1 then pages[|pages| - 1 := last.(needCommit := true)] else pages
  }

  /** The pages `constructPages` returns. */
  function Pages(lines: seq<Instruction>, onbuild: bool): Result<seq<Page>>
    requires AllParsed(lines) && (onbuild || (lines != [] ==> lines[0].command == FROM))
  {
    if lines == [] then Err
    else
      var b :- Turns(lines, onbuild);
      Ok(MarkLast(b.pages))
  }

  /** `constructPages`. The current page is the last one and exists whenever it is used. */
  method ConstructPages(lines: seq<Instruction>, onbuild: bool) returns (r: Result<seq<Page>>)
    requires AllParsed(lines) && (onbuild || (lines != [] ==> lines[0].command == FROM))
    ensures r == Pages(lines, onbuild)
  {
    hide Turn, ValidBook;
    if |lines| == 0 { return Err; }
    NoPages();
    var b := Book([], map[]);
    for n := 0 to |lines|
      invariant ValidBook(b) && (n > 0 ==> b.pages != [])
      invariant Turns(lines[..n], onbuild) == Ok(b)
    {
      var l := lines[n];
      assert lines[..n + 1][..n] == lines[..n];
      var turn := TakeTurn(b, l, onbuild);
      if turn.Err? {
        TurnsFail(lines, onbuild, n + 1);
        return Err;
      }
      b := turn.value;
    }
    assert lines[..|lines|] == lines;
    r := Ok(MarkLast(b.pages));
  }

  lemma {:induction false} NoPages()
    ensures ValidBook(Book([], map[]))
  {
  }

  /** The body of that loop. */
  method TakeTurn(b: Book, l: Instruction, onbuild: bool) returns (r: Result<Book>)
    requires ValidBook(b) && Parsed(l) && (onbuild || b.pages != [] || l.command == FROM)
    ensures r == Turn(b, l, onbuild)
  {
    var pages, pageMap := b.pages, b.pageMap;
    if onbuild && |pages| == 0 {
      pages := [Page("", l.begin, l.end, [], false)];
    }
    if l.command == FROM {
      if onbuild { return Err; }
      var name := PageName(l, |pages|);
      if !ValidName(name) { return Err; }
      pageMap := pageMap[name := |pages|];
      pages := pages + [Page(name, l.begin, l.end, [], false)];
      if l.cells[0] in pageMap && |pages[pageMap[l.cells[0]]].lines| > 1 {
        var from := pageMap[l.cells[0]];
        pages := pages[from := pages[from].(needCommit := true)];
      }
    }
    pages := AddLine(pages, l);
    r := Ok(Book(pages, pageMap));
  }

  lemma {:induction false} TurnsFail(lines: seq<Instruction>, onbuild: bool, n: nat)
    requires AllParsed(lines) && (onbuild || (lines != [] ==> lines[0].command == FROM))
    requires n <= |lines| && Turns(lines[..n], onbuild).Err?
    ensures Turns(lines, onbuild).Err?
    decreases |lines|
  {
    if n < |lines| {
      var init := lines[..|lines| - 1];
      assert init[..n] == lines[..n];
      TurnsFail(init, onbuild, n);
    } else {
      assert lines[..n] == lines;
    }
  }

  // ---------- what the pages are ----------

  /** All lines of the pages, in order. */
  function Concat(pages: seq<Page>): seq<Instruction> {
    if pages == [] then [] else Concat(pages[..|pages| - 1]) + pages[|pages| - 1].lines
  }

  lemma {:induction false} ConcatSame(p: seq<Page>, q: seq<Page>)
    requires |p| == |q| && forall i :: 0 <= i < |p| ==> p[i].lines == q[i].lines
    ensures Concat(p) == Concat(q)
  {
    if p != [] { ConcatSame(p[..|p| - 1], q[..|q| - 1]); }
  }

  lemma {:induction false} ConcatAddLine(pages: seq<Page>, l: Instruction)
    requires pages != []
    ensures Concat(AddLine(pages, l)) == Concat(pages) + [l]
  {
    assert AddLine(pages, l)[..|pages| - 1] == pages[..|pages| - 1];
  }

  lemma {:induction false} ConcatTurn(b: Book, l: Instruction, onbuild: bool)
    requires ValidBook(b) && Parsed(l) && (onbuild || b.pages != [] || l.command == FROM)
    requires Turn(b, l, onbuild).Ok?
    ensures Concat(Turn(b, l, onbuild).value.pages) == Concat(b.pages) + [l]
  {
    hide PageName, OpenPage, AddLine;
    if l.command == FROM {
      ConcatFrom(b, l);
    } else if b.pages == [] {
      ConcatAddLine([Page("", l.begin, l.end, [], false)], l);
    } else {
      ConcatAddLine(b.pages, l);
    }
  }

  lemma {:induction false} ConcatFrom(b: Book, l: Instruction)
    requires ValidBook(b) && l.command == FROM && Parsed(l)
    ensures Concat(AddLine(OpenPage(b, l).pages, l)) == Concat(b.pages) + [l]
  {
    FromExtends(b, l);
    var p, q := b.pages, AddLine(OpenPage(b, l).pages, l);
    hide OpenPage, AddLine, PageName;
    var init := q[..|p|];
    assert q[..|q| - 1] == init && q[|p|].lines == [l];
    assert forall k :: 0 <= k < |p| ==> init[k].lines == q[k].(needCommit := p[k].needCommit).lines == p[k].lines;
    ConcatSame(init, p);
  }

  lemma {:induction false} ConcatTurns(lines: seq<Instruction>, onbuild: bool)
    requires AllParsed(lines) && (onbuild || (lines != [] ==> lines[0].command == FROM))
    requires Turns(lines, onbuild).Ok?
    ensures Concat(Turns(lines, onbuild).value.pages) == lines
  {
    hide Turn;
    if lines == [] {
    } else {
      var init := lines[..|lines| - 1];
      ConcatTurns(init, onbuild);
      ConcatTurn(Turns(init, onbuild).value, lines[|lines| - 1], onbuild);
    }
  }

  /** A stage: one FROM line, the first, which also names it. */
  predicate StagePage(p: Page, i: nat) {
    && p.lines != [] && p.lines[0].command == FROM && Parsed(p.lines[0])
    && (forall k :: 1 <= k < |p.lines| ==> p.lines[k].command != FROM)
    && p.name == PageName(p.lines[0], i)
    && p.begin == p.lines[0].begin && p.end == p.lines[|p.lines| - 1].end
  }

  predicate StagePages(pages: seq<Page>) { forall i :: 0 <= i < |pages| ==> StagePage(pages[i], i) }

  /** The image or stage named in the FROM line of page j. */
  function Base(pages: seq<Page>, j: nat): string
    requires StagePages(pages) && j < |pages|
  {
    pages[j].lines[0].cells[0]
  }

  /** Page i is the last of the first j pages to bear the name. */
  predicate LastNamed(pages: seq<Page>, name: string, j: nat, i: nat)
    requires j <= |pages|
  {
    && i < j && pages[i].name == name
    && forall k :: i < k < j ==> pages[k].name != name
  }

  /** The FROM line of page j names page i; a page's own name is already in scope in its FROM line. */
  predicate Names(pages: seq<Page>, j: nat, i: nat)
    requires StagePages(pages) && j < |pages|
  {
    LastNamed(pages, Base(pages, j), j + 1, i)
  }

  /** A later page is built on page i, as the parser sees it. */
  predicate Referenced(pages: seq<Page>, i: nat)
    requires StagePages(pages)
  {
    exists j :: i < j < |pages| && Names(pages, j, i)
  }

  predicate MapOk(pages: seq<Page>, pageMap: map<string, nat>) {
    && (forall n :: n in pageMap ==> LastNamed(pages, n, |pages|, pageMap[n]))
    && (forall i :: 0 <= i < |pages| ==> pages[i].name in pageMap)
  }

  predicate MarksOk(pages: seq<Page>)
    requires StagePages(pages)
  {
    forall i :: 0 <= i < |pages| ==> (pages[i].needCommit <==> |pages[i].lines| > 1 && Referenced(pages, i))
  }

  ghost predicate BookInv(b: Book) {
    StagePages(b.pages) && MapOk(b.pages, b.pageMap) && MarksOk(b.pages)
  }

  lemma {:induction false} LinePages(pages: seq<Page>, l: Instruction)
    requires pages != [] && StagePages(pages) && l.command != FROM
    ensures StagePages(AddLine(pages, l))
  {
  }

  /** The first pages have the same names and FROM lines. */
  predicate SameHeads(p: seq<Page>, q: seq<Page>, n: nat)
    requires StagePages(p) && StagePages(q) && n <= |p| && n <= |q|
  {
    forall k :: 0 <= k < n ==> p[k].name == q[k].name && p[k].lines[0] == q[k].lines[0]
  }

  lemma {:induction false} SameNames(p: seq<Page>, q: seq<Page>, n: nat, j: nat, i: nat)
    requires StagePages(p) && StagePages(q) && n <= |p| && n <= |q| && SameHeads(p, q, n) && j < n
    ensures Names(p, j, i) <==> Names(q, j, i)
  {
    hide StagePage;
    var base := Base(p, j);
    assert base == Base(q, j);
    assert forall k :: 0 <= k <= j ==> p[k].name == q[k].name;
  }

  lemma {:induction false} SameReferences(p: seq<Page>, q: seq<Page>, i: nat)
    requires StagePages(p) && StagePages(q) && |p| == |q| && SameHeads(p, q, |p|)
    ensures Referenced(p, i) <==> Referenced(q, i)
  {
    hide Names, StagePages, SameHeads;
    forall j | i < j < |p| ensures Names(p, j, i) <==> Names(q, j, i) {
      SameNames(p, q, |p|, j, i);
    }
  }

  lemma {:induction false} LastUnreferenced(pages: seq<Page>)
    requires StagePages(pages) && pages != []
    ensures !Referenced(pages, |pages| - 1)
  {
  }

  lemma {:induction false} LineMarks(pages: seq<Page>, l: Instruction)
    requires pages != [] && StagePages(pages) && MarksOk(pages) && l.command != FROM
    requires StagePages(AddLine(pages, l))
    ensures MarksOk(AddLine(pages, l))
  {
    var more := AddLine(pages, l);
    assert SameHeads(pages, more, |pages|);
    LastUnreferenced(pages);
    hide StagePages, SameHeads, Referenced;
    forall i | 0 <= i < |pages| ensures Referenced(more, i) <==> Referenced(pages, i) {
      SameReferences(pages, more, i);
    }
  }

  lemma {:induction false} LineInv(b: Book, l: Instruction)
    requires b.pages != [] && BookInv(b) && l.command != FROM
    ensures BookInv(b.(pages := AddLine(b.pages, l)))
  {
    hide StagePages, MarksOk;
    LinePages(b.pages, l);
    LineMarks(b.pages, l);
  }

  /** The pages after a FROM line, apart from the marks. */
  predicate Extended(p: seq<Page>, q: seq<Page>, l: Instruction) {
    && |q| == |p| + 1
    && (forall k :: 0 <= k < |p| ==> q[k].(needCommit := p[k].needCommit) == p[k])
    && q[|p|] == Page(PageName(l, |p|), l.begin, l.end, [l], false)
  }

  lemma {:induction false} FromExtends(b: Book, l: Instruction)
    requires ValidBook(b) && l.command == FROM && Parsed(l)
    ensures Extended(b.pages, AddLine(OpenPage(b, l).pages, l), l)
    ensures
      var q, m := AddLine(OpenPage(b, l).pages, l), OpenPage(b, l).pageMap;
      && m == b.pageMap[PageName(l, |b.pages|) := |b.pages|]
      && forall i :: 0 <= i < |b.pages| ==> (q[i].needCommit <==>
          b.pages[i].needCommit || (|b.pages[i].lines| > 1 && l.cells[0] in m && m[l.cells[0]] == i))
  {
    hide PageName;
  }

  lemma {:induction false} FromPages(p: seq<Page>, q: seq<Page>, l: Instruction)
    requires StagePages(p) && Extended(p, q, l) && l.command == FROM && Parsed(l)
    ensures StagePages(q) && SameHeads(p, q, |p|)
  {
    hide PageName;
  }

  lemma {:induction false} FromMap(p: seq<Page>, q: seq<Page>, l: Instruction, m: map<string, nat>)
    requires MapOk(p, m) && Extended(p, q, l)
    ensures MapOk(q, m[PageName(l, |p|) := |p|])
  {
    hide PageName;
    var more := m[PageName(l, |p|) := |p|];
    forall n | n in more ensures LastNamed(q, n, |q|, more[n]) {
      if n != PageName(l, |p|) {
        assert LastNamed(p, n, |p|, m[n]);
        assert forall k :: m[n] < k < |p| ==> q[k].name == p[k].name;
      }
    }
  }

  /** The map names the page that a FROM line is built on. */
  lemma {:induction false} MapNames(pages: seq<Page>, m: map<string, nat>, name: string, i: nat)
    requires MapOk(pages, m)
    ensures LastNamed(pages, name, |pages|, i) <==> name in m && m[name] == i
  {
    if LastNamed(pages, name, |pages|, i) {
      assert LastNamed(pages, name, |pages|, m[name]);
    }
  }

  lemma {:induction false} FromReferences(p: seq<Page>, q: seq<Page>, i: nat)
    requires StagePages(p) && StagePages(q) && |q| == |p| + 1 && SameHeads(p, q, |p|)
    requires i < |p|
    ensures Referenced(q, i) <==> Referenced(p, i) || Names(q, |p|, i)
  {
    hide Names, StagePages, SameHeads;
    forall j | i < j < |p| ensures Names(p, j, i) <==> Names(q, j, i) {
      SameNames(p, q, |p|, j, i);
    }
    if Referenced(q, i) {
      var j :| i < j < |q| && Names(q, j, i);
      assert j == |p| || Names(p, j, i);
    }
    if Referenced(p, i) {
      var j :| i < j < |p| && Names(p, j, i);
      assert Names(q, j, i);
    }
  }

  lemma {:induction false} FromInv(b: Book, l: Instruction)
    requires ValidBook(b) && BookInv(b) && l.command == FROM && Parsed(l)
    ensures BookInv(OpenPage(b, l).(pages := AddLine(OpenPage(b, l).pages, l)))
  {
    hide OpenPage, AddLine, StagePages, SameHeads, MapOk, LastNamed, Referenced, PageName;
    FromExtends(b, l);
    var q, m := AddLine(OpenPage(b, l).pages, l), OpenPage(b, l).pageMap;
    FromPages(b.pages, q, l);
    FromMap(b.pages, q, l, b.pageMap);
    forall i | 0 <= i < |b.pages|
      ensures Referenced(q, i) <==> Referenced(b.pages, i) || (l.cells[0] in m && m[l.cells[0]] == i)
    {
      FromReferences(b.pages, q, i);
      MapNames(q, m, l.cells[0], i);
    }
  }

  lemma {:induction false} TurnsInv(lines: seq<Instruction>)
    requires AllParsed(lines) && (lines != [] ==> lines[0].command == FROM)
    requires Turns(lines, false).Ok?
    ensures BookInv(Turns(lines, false).value)
  {
    hide OpenPage, AddLine, BookInv;
    if lines == [] {
      EmptyInv();
    } else {
      var init, l := lines[..|lines| - 1], lines[|lines| - 1];
      TurnsInv(init);
      var b := Turns(init, false).value;
      if l.command == FROM { FromInv(b, l); } else { LineInv(b, l); }
    }
  }

  lemma {:induction false} EmptyInv()
    ensures BookInv(Book([], map[]))
  {
  }

  /** A page is to be committed exactly if it does more than name its base and someone wants its image. */
  predicate CommitMarks(pages: seq<Page>)
    requires StagePages(pages)
  {
    forall i :: 0 <= i < |pages| ==>
      (pages[i].needCommit <==> |pages[i].lines| > 1 && (i == |pages| - 1 || Referenced(pages, i)))
  }

  lemma {:induction false} LastMarked(pages: seq<Page>)
    requires pages != [] && StagePages(pages) && MarksOk(pages)
    ensures StagePages(MarkLast(pages)) && CommitMarks(MarkLast(pages))
  {
    MarkLastKeeps(pages);
    hide StagePages, Referenced, SameHeads;
    var marked := MarkLast(pages);
    forall i | 0 <= i < |pages| ensures Referenced(marked, i) <==> Referenced(pages, i) {
      SameReferences(pages, marked, i);
    }
  }

  lemma {:induction false} MarkLastKeeps(pages: seq<Page>)
    requires pages != [] && StagePages(pages)
    ensures Concat(MarkLast(pages)) == Concat(pages)
    ensures StagePages(MarkLast(pages)) && SameHeads(pages, MarkLast(pages), |pages|)
  {
    ConcatSame(pages, MarkLast(pages));
    hide Concat;
  }

  /**
  The pages are the file: laid end to end they are the lines, each is a FROM line and what follows it up to the next
  FROM line, and the marks say which stages are committed.
  */
  lemma {:induction false} PagesPartition(lines: seq<Instruction>)
    requires AllParsed(lines) && (lines != [] ==> lines[0].command == FROM)
    requires Pages(lines, false).Ok?
    ensures var pages := Pages(lines, false).value;
      pages != [] && Concat(pages) == lines && StagePages(pages) && CommitMarks(pages)
  {
    hide Turns, StagePages, MarksOk, MapOk, CommitMarks, MarkLast, Concat;
    TurnsInv(lines);
    ConcatTurns(lines, false);
    var pages := Turns(lines, false).value.pages;
    MarkLastKeeps(pages);
    LastMarked(pages);
  }

  /** The last steps of `Parse` accept the instructions. */
  predicate PagesOk(lines: seq<Instruction>)
    requires AllParsed(lines)
  {
    HeadingOk(lines) && Pages(lines[HeadLen(lines)..], false).Ok?
  }

  /**
  The end of `Parse`: a Dockerfile is its heading ARGs followed by its pages, nothing lost and nothing moved. It is
  accepted exactly if the heading is in order and the pages can be made.
  */
  method ParsePages(lines: seq<Instruction>) returns (r: Result<(seq<string>, seq<Page>)>)
    requires AllParsed(lines)
    ensures r.Ok? <==> PagesOk(lines)
    ensures r.Ok? ==>
      var (args, pages) := r.value;
      && HeadingOf(lines, args) && Pages(lines[HeadLen(lines)..], false) == Ok(pages)
      && lines == lines[..|args|] + Concat(pages)
      && pages != [] && StagePages(pages) && CommitMarks(pages)
  {
    hide Turns, Pages, StagePages, CommitMarks, Concat, HeadLen;
    var head := TruncHeadingArgs(lines, false);
    if head.Err? { return Err; }
    var (args, rest) := head.value;
    var pages := ConstructPages(rest, false);
    if pages.Err? { return Err; }
    PagesPartition(rest);
    assert lines == lines[..|args|] + rest;
    r := Ok((args, pages.value));
  }

  /** When pages can be made: there is a FROM line, and every name that FROM lines give is a valid page name. */
  lemma {:induction false} PagesOkIff(lines: seq<Instruction>)
    requires AllParsed(lines) && (lines != [] ==> lines[0].command == FROM)
    ensures Pages(lines, false).Ok? <==> lines != [] && NamesOk(lines)
  {
    TurnsOkIff(lines);
  }

  /** Every FROM line, the i-th of them, opens a page with a valid name. */
  predicate NamesOk(lines: seq<Instruction>) {
    forall n :: 0 <= n < |lines| && lines[n].command == FROM ==> ValidName(PageName(lines[n], Froms(lines[..n])))
  }

  /** The number of FROM lines. */
  function Froms(lines: seq<Instruction>): nat {
    if lines == [] then 0 else Froms(lines[..|lines| - 1]) + if lines[|lines| - 1].command == FROM then 1 else 0
  }

  lemma {:induction false} TurnsOkIff(lines: seq<Instruction>)
    requires AllParsed(lines) && (lines != [] ==> lines[0].command == FROM)
    ensures Turns(lines, false).Ok? <==> NamesOk(lines)
    ensures Turns(lines, false).Ok? ==> |Turns(lines, false).value.pages| == Froms(lines)
  {
    hide ValidName, PageName;
    if lines != [] {
      var init, l := lines[..|lines| - 1], lines[|lines| - 1];
      TurnsOkIff(init);
      assert forall n :: 0 <= n < |init| ==> init[n] == lines[n] && init[..n] == lines[..n];
      NamesOneMore(lines);
    }
  }

  lemma {:induction false} NamesOneMore(lines: seq<Instruction>)
    requires lines != []
    ensures
      var init, l := lines[..|lines| - 1], lines[|lines| - 1];
      NamesOk(lines) <==> NamesOk(init) && (l.command == FROM ==> ValidName(PageName(l, Froms(init))))
  {
    hide ValidName, PageName, Froms;
    var init := lines[..|lines| - 1];
    assert forall n :: 0 <= n < |init| ==> init[n] == lines[n] && init[..n] == lines[..n];
    assert lines[..|init|] == init;
    if NamesOk(lines) {
      forall n | 0 <= n < |init| && init[n].command == FROM ensures ValidName(PageName(init[n], Froms(init[..n]))) {
        assert lines[n].command == FROM;
      }
    }
  }

  lemma {:induction false} ItoaLength(n: nat, k: nat)
    requires k > 0 && n < Pow10(k)
    ensures |Itoa(n)| <= k
  {
    if n >= 10 {
      assert k > 1;
      ItoaLength(n / 10, k - 1);
    }
  }

  /** The number of a page that has no name of its own is a valid one. */
  lemma {:induction false} NumberIsName(i: nat)
    requires i < Pow10(64)
    ensures ValidName(Itoa(i))
  {
    ItoaLength(i, 64);
    assert forall k :: 0 <= k < |Itoa(i)| ==> Digit(Itoa(i)[k]);
  }

  lemma {:induction false} FromsAtMost(lines: seq<Instruction>)
    ensures Froms(lines) <= |lines|
  {
    if lines != [] { FromsAtMost(lines[..|lines| - 1]); }
  }

  /** So only the names behind AS can be refused. */
  lemma {:induction false} AliasesDecide(lines: seq<Instruction>)
    requires AllParsed(lines) && (lines != [] ==> lines[0].command == FROM) && |lines| <= Pow10(64)
    ensures Pages(lines, false).Ok? <==>
      lines != [] && forall n :: 0 <= n < |lines| && lines[n].command == FROM && |lines[n].cells| == 3 ==> ValidName(lines[n].cells[2])
  {
    PagesOkIff(lines);
    hide ValidName, Pages, Froms, Pow10;
    forall n | 0 <= n < |lines| && lines[n].command == FROM
      ensures ValidName(PageName(lines[n], Froms(lines[..n]))) <==> |lines[n].cells| == 3 ==> ValidName(lines[n].cells[2])
    {
      FromsAtMost(lines[..n]);
      NumberIsName(Froms(lines[..n]));
    }
  }

  /** Triggers make a page if and only if there are some and none of them is a FROM line. */
  lemma {:induction false} OnbuildOkIff(lines: seq<Instruction>)
    requires AllParsed(lines)
    ensures Turns(lines, true).Ok? <==> forall n :: 0 <= n < |lines| ==> lines[n].command != FROM
    ensures Pages(lines, true).Ok? <==> lines != [] && forall n :: 0 <= n < |lines| ==> lines[n].command != FROM
  {
    if lines != [] {
      var init := lines[..|lines| - 1];
      OnbuildOkIff(init);
      assert forall n :: 0 <= n < |lines| ==> n == |init| || lines[n] == init[n];
    }
  }

  /** The triggers of an image make one page that holds them all. */
  lemma {:induction false} OnbuildTurns(lines: seq<Instruction>)
    requires AllParsed(lines) && Turns(lines, true).Ok? && lines != []
    ensures |Turns(lines, true).value.pages| == 1
  {
    var init := lines[..|lines| - 1];
    if init != [] {
      OnbuildTurns(init);
    }
  }

  lemma {:induction false} OnbuildOnePage(lines: seq<Instruction>)
    requires AllParsed(lines) && Pages(lines, true).Ok?
    ensures |Pages(lines, true).value| == 1 && Pages(lines, true).value[0].lines == lines
  {
    ConcatTurns(lines, true);
    OnbuildTurns(lines);
    var pages := Turns(lines, true).value.pages;
    assert pages[..0] == [];
    assert Concat(pages) == [] + pages[0].lines;
    hide Turns;
  }
}
