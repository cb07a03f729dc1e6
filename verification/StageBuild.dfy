/**
How the builder resolves the FROM line of each stage to an earlier stage, which image each stage then starts from, and
where COPY --from copies from. The parser decides which stages are committed; the builder decides which stages are
built on which. The two resolve names on their own.
*/
module StageBuild {
  import opened Basics
  import opened Decimal
  import opened Stages

  /** A stage builder: the image name FROM resolves to, and the earlier stage of that name, if there is one. */
  datatype Stage = Stage(image: string, from: Option<nat>)

  /** Stage i says `AS name`. */
  predicate Alias(pages: seq<Page>, i: nat, name: string)
    requires StagePages(pages) && i < |pages|
  {
    |pages[i].lines[0].cells| == 3 && pages[i].lines[0].cells[2] == name
  }

  /** Stage i is the last of the first j stages to say `AS name`. */
  predicate LastAlias(pages: seq<Page>, name: string, j: nat, i: nat)
    requires StagePages(pages) && j <= |pages|
  {
    && i < j && Alias(pages, i, name)
    && forall k :: i < k < j ==> !Alias(pages, k, name)
  }

  ghost predicate AliasMapOk(pages: seq<Page>, j: nat, aliases: map<string, nat>)
    requires StagePages(pages) && j <= |pages|
  {
    forall name :: if name in aliases then LastAlias(pages, name, j, aliases[name])
                   else forall k :: 0 <= k < j ==> !Alias(pages, k, name)
  }

  /** The stage builder of stage j: the image is the resolved base, the stage the last earlier one of that alias. */
  predicate StageOk(pages: seq<Page>, resolve: string -> Result<string>, j: nat, s: Stage)
    requires StagePages(pages) && j < |pages|
  {
    && resolve(Base(pages, j)) == Ok(s.image)
    && match s.from
       case Some(i) => LastAlias(pages, s.image, j, i)
       case None => forall k :: 0 <= k < j ==> !Alias(pages, k, s.image)
  }

  predicate StagesOk(pages: seq<Page>, resolve: string -> Result<string>, stages: seq<Stage>)
    requires StagePages(pages)
  {
    |stages| == |pages| && forall j :: 0 <= j < |stages| ==> StageOk(pages, resolve, j, stages[j])
  }

  /**
  `newStageBuilders` and `analyzeFrom`. `resolve` is the resolution of an image name with the heading ARGs, and fails also
  if no registry server can be read from the result. A stage's own alias is entered only after its FROM line is resolved.
  */
  method NewStageBuilders(pages: seq<Page>, resolve: string -> Result<string>)
    returns (r: Result<(seq<Stage>, map<string, nat>)>)
    requires StagePages(pages)
    ensures r.Ok? ==> StagesOk(pages, resolve, r.value.0) && AliasMapOk(pages, |pages|, r.value.1)
    ensures r.Err? <==> exists j :: 0 <= j < |pages| && resolve(Base(pages, j)).Err?
  {
    hide LastAlias, Alias;
    var stages: seq<Stage> := [];
    var aliases: map<string, nat> := map[];
    for j := 0 to |pages|
      invariant |stages| == j && AliasMapOk(pages, j, aliases)
      invariant forall k :: 0 <= k < j ==> StageOk(pages, resolve, k, stages[k])
    {
      assert StagePage(pages[j], j);
      var line := pages[j].lines[0];
      var image := resolve(line.cells[0]);
      if image.Err? {
        assert resolve(Base(pages, j)).Err?;
        return Err;
      }
      var from := if image.value in aliases then Some(aliases[image.value]) else None;
      stages := stages + [Stage(image.value, from)];
      AliasEntered(pages, j, aliases);
      if |line.cells| == 3 {
        aliases := aliases[line.cells[2] := j];
      }
    }
    assert forall j :: 0 <= j < |pages| ==> StageOk(pages, resolve, j, stages[j]) ==> resolve(Base(pages, j)).Ok?;
    r := Ok((stages, aliases));
  }

  lemma {:induction false} AliasEntered(pages: seq<Page>, j: nat, aliases: map<string, nat>)
    requires StagePages(pages) && j < |pages| && AliasMapOk(pages, j, aliases)
    ensures
      var cells := pages[j].lines[0].cells;
      AliasMapOk(pages, j + 1, if |cells| == 3 then aliases[cells[2] := j] else aliases)
  {
  }

  // ---------- the images ----------

  /** An image: the empty base, one from the store or a registry, or one committed by a stage. */
  datatype Image = Scratch | Pulled(name: string) | Committed(base: Image, lines: seq<Instruction>)

  const NO_BASE := "scratch"

  function Origin(name: string): Image { if name == NO_BASE then Scratch else Pulled(name) }

  /** What the stage's commit adds to its base: all lines but FROM. */
  function ImageOf(p: Page, base: Image): Image
    requires p.lines != []
  {
    Committed(base, p.lines[1..])
  }

  predicate Earlier(stages: seq<Stage>) {
    forall j :: 0 <= j < |stages| && stages[j].from.Some? ==> stages[j].from.value < j
  }

  /** The image a stage stands for: its base with its lines carried out. */
  function Final(pages: seq<Page>, stages: seq<Stage>, j: nat): Image
    requires StagePages(pages) && |stages| == |pages| && Earlier(stages) && j < |stages|
    decreases j, 1
  {
    var base := Wanted(pages, stages, j);
    if |pages[j].lines| > 1 then ImageOf(pages[j], base) else base
  }

  /** The image stage j is meant to start from: the final image of the stage its FROM line names. */
  function Wanted(pages: seq<Page>, stages: seq<Stage>, j: nat): Image
    requires StagePages(pages) && |stages| == |pages| && Earlier(stages) && j < |stages|
    decreases j, 0
  {
    if stages[j].from.Some? then Final(pages, stages, stages[j].from.value) else Origin(stages[j].image)
  }

  /** The image stage j starts from, given the images recorded for the stages before it. */
  function Start(stages: seq<Stage>, built: seq<Image>, j: nat): Image
    requires j < |stages| && j <= |built| && Earlier(stages)
  {
    if stages[j].from.Some? then built[stages[j].from.value] else Origin(stages[j].image)
  }

  /** Stage j is built: it has a base to start from, and its image is the commit if it is marked, else the base. */
  predicate Built(pages: seq<Page>, stages: seq<Stage>, built: seq<Image>, j: nat)
    requires StagePages(pages) && |stages| == |pages| && Earlier(stages) && j < |built| <= |stages|
  {
    var start := Start(stages, built, j);
    && (stages[j].from.Some? ==> start != Scratch)
    && built[j] == if pages[j].needCommit then ImageOf(pages[j], start) else start
  }

  predicate AllBuilt(pages: seq<Page>, stages: seq<Stage>, built: seq<Image>)
    requires StagePages(pages) && |stages| == |pages| && Earlier(stages) && |built| <= |stages|
  {
    forall j :: 0 <= j < |built| ==> Built(pages, stages, built, j)
  }

  /** The image stage j records: what it starts from, or a commit on it if the stage is marked. */
  function Recorded(pages: seq<Page>, stages: seq<Stage>, j: nat): Image
    requires StagePages(pages) && |stages| == |pages| && Earlier(stages) && j < |stages|
  {
    var start := if stages[j].from.Some? then Recorded(pages, stages, stages[j].from.value) else Origin(stages[j].image);
    if pages[j].needCommit then ImageOf(pages[j], start) else start
  }

  /** Stage j can start: it is not built on a stage that records no image. */
  predicate CanStart(pages: seq<Page>, stages: seq<Stage>, j: nat)
    requires StagePages(pages) && |stages| == |pages| && Earlier(stages) && j < |stages|
  {
    stages[j].from.Some? ==> Recorded(pages, stages, stages[j].from.value) != Scratch
  }

  /** The stage `getCopyContextDir` copies from, if it takes `from` for a stage rather than an image. */
  function CopySource(aliases: map<string, nat>, from: string, position: nat): (r: Option<nat>)
    ensures r.Some? ==> r.value < position
  {
    if from in aliases && aliases[from] < position then Some(aliases[from])
    else
      match Atoi(from)
      case Some(n) => if 0 <= n < position then Some(n) else None
      case None => None
  }

  /** What is at the mountpoint of stage j once it is built: all its lines on what it starts from, committed or not. */
  function Workspace(pages: seq<Page>, stages: seq<Stage>, j: nat): Image
    requires StagePages(pages) && |stages| == |pages| && Earlier(stages) && j < |stages|
  {
    var start := if stages[j].from.Some? then Recorded(pages, stages, stages[j].from.value) else Origin(stages[j].image);
    if |pages[j].lines| > 1 then ImageOf(pages[j], start) else start
  }

  /** What COPY --from in a stage reads: the workspace of an earlier stage, or an image from elsewhere. */
  function CopyRead(pages: seq<Page>, stages: seq<Stage>, aliases: map<string, nat>, from: string, j: nat): Option<Image>
    requires StagePages(pages) && |stages| == |pages| && Earlier(stages) && j < |stages|
  {
    match CopySource(aliases, from, j)
    case Some(i) => Some(Workspace(pages, stages, i))
    case None => None
  }

  /**
  The loop of `Build`, with `stageBuild`. A stage that is built on another finds that stage's image recorded already, and
  so does COPY --from, for each of the names in `copies`, with its mountpoint. An earlier stage that is nothing but
  `FROM scratch` records no image, and a stage built on it fails.
  */
  method Build(pages: seq<Page>, stages: seq<Stage>, aliases: map<string, nat>, copies: seq<seq<string>>)
    returns (r: Result<seq<Image>>, found: seq<seq<Option<Image>>>)
    requires StagePages(pages) && |stages| == |pages| == |copies| && Earlier(stages)
    ensures r.Ok? <==> forall j :: 0 <= j < |pages| ==> CanStart(pages, stages, j)
    ensures r.Ok? ==> |r.value| == |pages| && AllBuilt(pages, stages, r.value)
    ensures r.Ok? ==> forall j :: 0 <= j < |pages| ==> r.value[j] == Recorded(pages, stages, j)
    ensures r.Ok? ==> |found| == |pages| && forall j :: 0 <= j < |pages| ==> ReadsOk(pages, stages, aliases, j, copies[j], found[j])
  {
    hide CopyRead, Workspace, Recorded, ReadsOk;
    var built: seq<Image> := [];
    var mounts: seq<Image> := [];
    found := [];
    for j := 0 to |pages|
      invariant |built| == |mounts| == |found| == j && AllBuilt(pages, stages, built)
      invariant forall k :: 0 <= k < j ==> built[k] == Recorded(pages, stages, k) && CanStart(pages, stages, k)
      invariant forall k :: 0 <= k < j ==> mounts[k] == Workspace(pages, stages, k)
      invariant forall k :: 0 <= k < j ==> ReadsOk(pages, stages, aliases, k, copies[k], found[k])
    {
      var start := if stages[j].from.Some? then built[stages[j].from.value] else Origin(stages[j].image);
      if stages[j].from.Some? && start == Scratch {
        assert !CanStart(pages, stages, j);
        r := Err;
        return;
      }
      StageImages(pages, stages, j, start);
      var seen := ReadCopies(pages, stages, aliases, j, copies[j], mounts);
      found := found + [seen];
      mounts := mounts + [if |pages[j].lines| > 1 then ImageOf(pages[j], start) else start];
      var more := built + [if pages[j].needCommit then ImageOf(pages[j], start) else start];
      forall k | 0 <= k <= j ensures Built(pages, stages, more, k) {
        if k < j { assert Built(pages, stages, built, k); }
      }
      built := more;
    }
    r := Ok(built);
  }

  lemma {:induction false} StageImages(pages: seq<Page>, stages: seq<Stage>, j: nat, start: Image)
    requires StagePages(pages) && |stages| == |pages| && Earlier(stages) && j < |stages|
    requires start == if stages[j].from.Some? then Recorded(pages, stages, stages[j].from.value) else Origin(stages[j].image)
    ensures Recorded(pages, stages, j) == if pages[j].needCommit then ImageOf(pages[j], start) else start
    ensures Workspace(pages, stages, j) == if |pages[j].lines| > 1 then ImageOf(pages[j], start) else start
  {
    assert pages[j].lines != [];
  }

  predicate ReadsOk(pages: seq<Page>, stages: seq<Stage>, aliases: map<string, nat>, j: nat, froms: seq<string>,
                    found: seq<Option<Image>>)
    requires StagePages(pages) && |stages| == |pages| && Earlier(stages) && j < |stages|
  {
    |found| == |froms| && forall c :: 0 <= c < |froms| ==> found[c] == CopyRead(pages, stages, aliases, froms[c], j)
  }

  /** The COPY --from names of stage j, with the mountpoints of the stages finished so far. */
  method ReadCopies(pages: seq<Page>, stages: seq<Stage>, aliases: map<string, nat>, j: nat, froms: seq<string>,
                    mounts: seq<Image>)
    returns (found: seq<Option<Image>>)
    requires StagePages(pages) && |stages| == |pages| && Earlier(stages) && j < |stages|
    requires |mounts| == j && forall k :: 0 <= k < j ==> mounts[k] == Workspace(pages, stages, k)
    ensures ReadsOk(pages, stages, aliases, j, froms, found)
  {
    hide Workspace, CopySource, StagePages;
    found := [];
    for c := 0 to |froms|
      invariant |found| == c && forall k :: 0 <= k < c ==> found[k] == CopyRead(pages, stages, aliases, froms[k], j)
    {
      var source := CopySource(aliases, froms[c], j);
      found := found + [if source.Some? then Some(mounts[source.value]) else None];
    }
  }

  // ---------- when stages start from the right image ----------

  /** Stage j starts from the final image of the stage it is built on. */
  predicate StartsRight(pages: seq<Page>, stages: seq<Stage>, built: seq<Image>, j: nat)
    requires StagePages(pages) && |stages| == |pages| && Earlier(stages) && j < |stages| && j <= |built|
  {
    Start(stages, built, j) == Wanted(pages, stages, j)
  }

  /** Every stage with lines of its own that another stage is built on is committed. */
  predicate BasesMarked(pages: seq<Page>, stages: seq<Stage>)
    requires |stages| == |pages| && Earlier(stages)
  {
    forall j :: 0 <= j < |stages| && stages[j].from.Some? ==>
      var base := pages[stages[j].from.value]; |base.lines| > 1 ==> base.needCommit
  }

  lemma {:induction false} MarkedStart(pages: seq<Page>, stages: seq<Stage>, built: seq<Image>, j: nat)
    requires StagePages(pages) && |stages| == |pages| == |built| && Earlier(stages) && j < |stages|
    requires CommitMarks(pages) && AllBuilt(pages, stages, built) && BasesMarked(pages, stages)
    ensures StartsRight(pages, stages, built, j)
  {
    if stages[j].from.Some? {
      var i := stages[j].from.value;
      assert pages[i].lines != [];
      MarkedStart(pages, stages, built, i);
      assert Built(pages, stages, built, i);
    }
  }

  /** A commit is another image than its base. */
  lemma {:induction false} CommitDiffers(p: Page, base: Image)
    requires p.lines != []
    ensures ImageOf(p, base) != base
  {
  }

  lemma {:induction false} UnmarkedStart(pages: seq<Page>, stages: seq<Stage>, built: seq<Image>, j: nat)
    requires StagePages(pages) && |stages| == |pages| == |built| && Earlier(stages) && j < |stages|
    requires AllBuilt(pages, stages, built)
    requires stages[j].from.Some? && |pages[stages[j].from.value].lines| > 1
    requires !pages[stages[j].from.value].needCommit
    ensures var i := stages[j].from.value;
      !(StartsRight(pages, stages, built, i) && StartsRight(pages, stages, built, j))
  {
    var i := stages[j].from.value;
    assert pages[i].lines != [];
    assert Built(pages, stages, built, i);
    assert Final(pages, stages, i) == ImageOf(pages[i], Wanted(pages, stages, i));
    CommitDiffers(pages[i], Wanted(pages, stages, i));
  }

  /** Every stage with lines of its own that the builder uses as a base is named as a base in the parser's eyes too. */
  predicate BasesReferenced(pages: seq<Page>, stages: seq<Stage>)
    requires StagePages(pages) && |stages| == |pages| && Earlier(stages)
  {
    forall j :: 0 <= j < |stages| && stages[j].from.Some? ==>
      |pages[stages[j].from.value].lines| > 1 ==> Referenced(pages, stages[j].from.value)
  }

  lemma {:induction false} ReferencedIsMarked(pages: seq<Page>, stages: seq<Stage>)
    requires StagePages(pages) && |stages| == |pages| && Earlier(stages) && CommitMarks(pages)
    ensures BasesReferenced(pages, stages) <==> BasesMarked(pages, stages)
  {
    hide StagePages, Referenced;
  }

  /**
  Every stage starts from the right image if and only if the parser, too, sees a later page built on every base that
  has lines of its own. This holds whatever the FROM lines resolve to.
  */
  lemma {:induction false} StartsRightIff(pages: seq<Page>, stages: seq<Stage>, built: seq<Image>)
    requires StagePages(pages) && |stages| == |pages| == |built| && Earlier(stages)
    requires CommitMarks(pages) && AllBuilt(pages, stages, built)
    ensures (forall j :: 0 <= j < |pages| ==> StartsRight(pages, stages, built, j)) <==>
            BasesReferenced(pages, stages)
  {
    hide StagePages, CommitMarks, AllBuilt, StartsRight, BasesReferenced;
    ReferencedIsMarked(pages, stages);
    if BasesMarked(pages, stages) {
      forall j | 0 <= j < |pages| ensures StartsRight(pages, stages, built, j) {
        MarkedStart(pages, stages, built, j);
      }
    } else {
      var j :| 0 <= j < |stages| && stages[j].from.Some?
        && |pages[stages[j].from.value].lines| > 1 && !pages[stages[j].from.value].needCommit;
      UnmarkedStart(pages, stages, built, j);
    }
  }

  // ---------- when parser and builder agree ----------

  /** The FROM lines are written out: resolving them changes nothing. */
  predicate Literal(pages: seq<Page>, stages: seq<Stage>)
    requires StagePages(pages) && |stages| == |pages|
  {
    forall j :: 0 <= j < |pages| ==> stages[j].image == Base(pages, j)
  }

  /** A page after i, up to and including j, bears the name that the FROM line of j uses. */
  predicate Shadowed(pages: seq<Page>, j: nat, i: nat)
    requires StagePages(pages) && j < |pages|
  {
    exists k :: i < k <= j && pages[k].name == Base(pages, j)
  }

  /** Where the builder finds stage i, the parser finds page i too, if and only if no page in between shadows it. */
  lemma {:induction false} AgreeIff(pages: seq<Page>, resolve: string -> Result<string>, stages: seq<Stage>, j: nat)
    requires StagePages(pages) && StagesOk(pages, resolve, stages) && Literal(pages, stages)
    requires j < |pages| && stages[j].from.Some?
    ensures Names(pages, j, stages[j].from.value) <==> !Shadowed(pages, j, stages[j].from.value)
  {
    var i := stages[j].from.value;
    assert StageOk(pages, resolve, j, stages[j]);
    assert StagePage(pages[i], i);
    assert pages[i].name == Base(pages, j);
    hide StagePages;
  }

  lemma {:induction false} StagesEarlier(pages: seq<Page>, resolve: string -> Result<string>, stages: seq<Stage>)
    requires StagePages(pages) && StagesOk(pages, resolve, stages)
    ensures Earlier(stages)
  {
    forall j | 0 <= j < |stages| && stages[j].from.Some? ensures stages[j].from.value < j {
      assert StageOk(pages, resolve, j, stages[j]);
    }
  }

  predicate NoShadows(pages: seq<Page>, stages: seq<Stage>)
    requires StagePages(pages) && |stages| == |pages| && Earlier(stages)
  {
    forall j :: 0 <= j < |stages| && stages[j].from.Some? ==> !Shadowed(pages, j, stages[j].from.value)
  }

  lemma {:induction false} AgreedMarks(pages: seq<Page>, resolve: string -> Result<string>, stages: seq<Stage>)
    requires StagePages(pages) && CommitMarks(pages) && StagesOk(pages, resolve, stages) && Earlier(stages)
    requires Literal(pages, stages) && NoShadows(pages, stages)
    ensures BasesReferenced(pages, stages)
  {
    hide StagePages, Literal, Names, Shadowed;
    forall j | 0 <= j < |stages| && stages[j].from.Some?
      ensures Referenced(pages, stages[j].from.value)
    {
      AgreeIff(pages, resolve, stages, j);
    }
  }

  /** Page names are distinct. */
  predicate DistinctNames(pages: seq<Page>) {
    forall i, k :: 0 <= i < k < |pages| ==> pages[i].name != pages[k].name
  }

  lemma {:induction false} DistinctNoShadows(pages: seq<Page>, resolve: string -> Result<string>, stages: seq<Stage>)
    requires StagePages(pages) && StagesOk(pages, resolve, stages) && Earlier(stages)
    requires Literal(pages, stages) && DistinctNames(pages)
    ensures NoShadows(pages, stages)
  {
    forall j | 0 <= j < |stages| && stages[j].from.Some? ensures !Shadowed(pages, j, stages[j].from.value) {
      var i := stages[j].from.value;
      assert StageOk(pages, resolve, j, stages[j]);
      assert StagePage(pages[i], i);
      assert pages[i].name == Base(pages, j);
    }
  }

  /**
  The whole way from the file to the images: when the FROM lines are literal and no two pages share a name, every stage
  starts from the final image of the stage its FROM line names, and the last image is what the last stage stands for.
  */
  lemma {:induction false} BuildsOnFinalImages(lines: seq<Instruction>, resolve: string -> Result<string>,
                                               stages: seq<Stage>, built: seq<Image>)
    requires AllParsed(lines) && (lines != [] ==> lines[0].command == FROM) && Pages(lines, false).Ok?
    requires StagePages(Pages(lines, false).value)
    requires var pages := Pages(lines, false).value;
      && StagesOk(pages, resolve, stages) && Literal(pages, stages) && DistinctNames(pages)
      && |built| == |pages| && Earlier(stages) && AllBuilt(pages, stages, built)
    ensures var pages := Pages(lines, false).value;
      && (forall j :: 0 <= j < |pages| ==> StartsRight(pages, stages, built, j))
      && pages != [] && built[|pages| - 1] == Final(pages, stages, |pages| - 1)
  {
    hide Pages, StagePages, Literal, DistinctNames, AllBuilt, BasesMarked, CommitMarks, Concat;
    var pages := Pages(lines, false).value;
    PagesPartition(lines);
    DistinctNoShadows(pages, resolve, stages);
    AgreedMarks(pages, resolve, stages);
    StartsRightIff(pages, stages, built);
    LastImage(pages, stages, built);
  }

  lemma {:induction false} LastImage(pages: seq<Page>, stages: seq<Stage>, built: seq<Image>)
    requires pages != [] && StagePages(pages) && |stages| == |pages| == |built| && Earlier(stages)
    requires CommitMarks(pages) && AllBuilt(pages, stages, built)
    requires StartsRight(pages, stages, built, |pages| - 1)
    ensures built[|pages| - 1] == Final(pages, stages, |pages| - 1)
  {
    var j := |pages| - 1;
    assert Built(pages, stages, built, j);
    assert pages[j].lines != [];
  }

  /** The file `FROM image AS x`, RUN, `FROM x AS x`, RUN. */
  function ShadowFile(image: string, x: string, run: string): seq<Instruction> {
    [Instruction(FROM, [image, "AS", x], 1, 1), Instruction(run, [], 2, 2), Instruction(FROM, [x, "AS", x], 3, 3), Instruction(run, [], 4, 4)]
  }

  lemma {:induction false} OneTurn(lines: seq<Instruction>, l: Instruction, b: Book)
    requires AllParsed(lines) && Parsed(l) && (lines + [l])[0].command == FROM
    requires Turns(lines, false) == Ok(b) && (b.pages != [] || l.command == FROM)
    ensures Turns(lines + [l], false) == Turn(b, l, false)
  {
    hide Turn;
    assert (lines + [l])[..|lines|] == lines;
  }

  lemma {:induction false} LineTurn(init: seq<Page>, p: Page, m: map<string, nat>, l: Instruction)
    requires ValidBook(Book(init + [p], m)) && Parsed(l) && l.command != FROM
    ensures Turn(Book(init + [p], m), l, false)
         == Ok(Book(init + [p.(end := l.end, lines := p.lines + [l])], m))
  {
    assert AddLine(init + [p], l) == init + [p.(end := l.end, lines := p.lines + [l])];
  }

  /** A FROM line that names no earlier page. */
  lemma {:induction false} FromTurn(pages: seq<Page>, m: map<string, nat>, l: Instruction, name: string)
    requires ValidBook(Book(pages, m)) && Parsed(l) && l.command == FROM
    requires name == PageName(l, |pages|) && ValidName(name) && (l.cells[0] == name || l.cells[0] !in m)
    ensures Turn(Book(pages, m), l, false)
         == Ok(Book(pages + [Page(name, l.begin, l.end, [l], false)], m[name := |pages|]))
  {
    hide ValidName;
    var blank := Page(name, l.begin, l.end, [], false);
    assert OpenPage(Book(pages, m), l) == Book(pages + [blank], m[name := |pages|]);
    assert [] + [l] == [l];
    assert AddLine(pages + [blank], l) == pages + [Page(name, l.begin, l.end, [l], false)];
  }

  lemma {:induction false} ShadowPages(image: string, x: string, run: string)
    requires image != x && ValidName(x) && run != FROM && run != ARG
    ensures
      var f := ShadowFile(image, x, run);
      AllParsed(f) && Pages(f, false) == Ok([Page(x, 1, 2, f[..2], false), Page(x, 3, 4, f[2..], true)])
  {
    hide ValidName, Turn, Turns;
    var f := ShadowFile(image, x, run);
    assert AllParsed(f) && f[..2] == [f[0]] + [f[1]] && f[2..] == [f[2]] + [f[3]];
    var one, two := Page(x, 1, 1, [f[0]], false), Page(x, 3, 3, [f[2]], false);
    var one', two' := Page(x, 1, 2, f[..2], false), Page(x, 3, 4, f[2..], false);
    var m1, m2 := map[x := 0], map[x := 0][x := 1];
    NoTurns();
    FromTurn([], map[], f[0], x);
    assert [] + [f[0]] == [f[0]] && [] + [one] == [one] && map[][x := 0] == m1;
    OneTurn([], f[0], Book([], map[]));
    LineTurn([], one, m1, f[1]);
    assert [] + [one'] == [one'];
    OneTurn([f[0]], f[1], Book([one], m1));
    FromTurn([one'], m1, f[2], x);
    assert f[..2] + [f[2]] == f[..3];
    OneTurn(f[..2], f[2], Book([one'], m1));
    LineTurn([one'], two, m2, f[3]);
    assert f[..3] + [f[3]] == f;
    OneTurn(f[..3], f[3], Book([one'] + [two], m2));
    assert Turns(f, false) == Ok(Book([one'] + [two'], m2));
    assert MarkLast([one'] + [two']) == [one', two'.(needCommit := true)];
  }

  lemma {:induction false} NoTurns()
    ensures Turns([], false) == Ok(Book([], map[]))
  {
  }

  /**
  A shadow loses work: after `FROM x AS x` the parser takes x for the new page, so the first stage is not committed,
  and the builder starts the second stage from the base of the first instead of from its image.
  */
  lemma {:induction false} ShadowLosesWork(image: string, x: string, run: string)
    requires image != x && ValidName(x) && run != FROM && run != ARG
    ensures
      var f := ShadowFile(image, x, run);
      var pages := [Page(x, 1, 2, f[..2], false), Page(x, 3, 4, f[2..], true)];
      var stages := [Stage(image, None), Stage(x, Some(0))];
      var built := [Origin(image), Committed(Origin(image), f[3..])];
      && AllParsed(f) && Pages(f, false) == Ok(pages)
      && StagePages(pages) && StagesOk(pages, (s: string) => Ok(s), stages)
      && (image != NO_BASE ==> AllBuilt(pages, stages, built))
      && !StartsRight(pages, stages, built, 1)
  {
    ShadowPages(image, x, run);
    hide ValidName, Pages, Turns;
    var f := ShadowFile(image, x, run);
    assert f[2..][1..] == f[3..];
  }

  // ---------- COPY --from ----------

  /** Where the stage starts right, COPY --from reads its final image, whether it is committed or not. */
  lemma {:induction false} CopyReadsFinal(pages: seq<Page>, stages: seq<Stage>, built: seq<Image>, i: nat)
    requires StagePages(pages) && |stages| == |pages| == |built| && Earlier(stages) && i < |stages|
    requires StartsRight(pages, stages, built, i) && (forall k :: 0 <= k < |built| ==> built[k] == Recorded(pages, stages, k))
    ensures Workspace(pages, stages, i) == Final(pages, stages, i)
  {
    assert pages[i].lines != [];
  }

  /** With distinct names COPY --from finds every earlier stage, aliased or not, under its page name. */
  lemma {:induction false} CopyByName(pages: seq<Page>, aliases: map<string, nat>, i: nat, position: nat)
    requires StagePages(pages) && AliasMapOk(pages, |pages|, aliases) && DistinctNames(pages)
    requires i < position <= |pages| && i <= MAX_INT
    ensures CopySource(aliases, pages[i].name, position) == Some(i)
  {
    var name := pages[i].name;
    assert StagePage(pages[i], i);
    if name in aliases {
      var k := aliases[name];
      assert LastAlias(pages, name, |pages|, k);
      assert StagePage(pages[k], k);
      assert k == i;
    } else {
      assert !Alias(pages, i, name);
      AtoiItoa(i);
    }
  }

  /** It finds every earlier stage under its number as well, aliased or not, unless an earlier stage bears that as its name. */
  lemma {:induction false} CopyByNumber(aliases: map<string, nat>, i: nat, position: nat)
    requires i < position && i <= MAX_INT
    ensures CopySource(aliases, Itoa(i), position)
         == Some(if Itoa(i) in aliases && aliases[Itoa(i)] < position then aliases[Itoa(i)] else i)
  {
    AtoiItoa(i);
  }

  /** And nothing else is taken for a stage: neither a later alias nor a number that is no earlier stage. */
  lemma {:induction false} CopyFromImage(aliases: map<string, nat>, from: string, position: nat)
    ensures CopySource(aliases, from, position).None? <==>
      && (from in aliases ==> aliases[from] >= position)
      && forall i: nat :: i < position ==> Atoi(from) != Some(i)
  {
    hide Atoi;
    if Atoi(from).Some? && 0 <= Atoi(from).value < position {
      var i: nat := Atoi(from).value;
      assert Atoi(from) == Some(i);
    }
  }
}
