/**
Build arguments: which of them the ARGs in front of the first FROM consume, which are reserved, and which are left to
be reported as unused at the end of the build.
*/
module BuildArgs {
  import opened Basics
  import opened Strings
  import Resolver
  import opened Stages
  import opened Scoping

  const RESERVED := {"http_proxy", "https_proxy", "ftp_proxy", "no_proxy",
                     "HTTP_PROXY", "HTTPS_PROXY", "FTP_PROXY", "NO_PROXY"}

  function Lookup(m: Vars): string -> string { s => Get(m, s) }

  /** The values of the heading ARGs so far, and the build arguments they have not consumed. */
  datatype Heading = Heading(args: Vars, left: Vars)

  /** The key of a heading ARG, expanded with the heading ARGs before it. */
  function HeadingKey(h: Heading, arg: string): Result<string> {
    Resolver.Resolve(Split(arg, '=')[0], false, Lookup(h.args))
  }

  /** One turn of the first loop of `usedHeadingArgs`. */
  function AddHeading(h: Heading, arg: string): Result<Heading> {
    var k :- HeadingKey(h, arg);
    if k in h.left then Ok(Heading(h.args[k := h.left[k]], h.left - {k}))
    else if |Split(arg, '=')| < 2 then Ok(h)
    else
      var v :- Resolver.Resolve(Split(arg, '=')[1], false, Lookup(h.args));
      Ok(h.(args := h.args[k := v]))
  }

  function AfterHeading(buildArgs: Vars, heading: seq<string>): Result<Heading> {
    if heading == [] then Ok(Heading(map[], buildArgs))
    else
      var before :- AfterHeading(buildArgs, heading[..|heading| - 1]);
      AddHeading(before, heading[|heading| - 1])
  }

  /** The result of the heading analysis. */
  datatype Analysis = Analysis(headingArgs: Vars, reserved: Vars, unused: Vars)

  /** `usedHeadingArgs`: the second loop moves the reserved keys, in whatever order the map gives them. */
  method UsedHeadingArgs(buildArgs: Vars, heading: seq<string>) returns (r: Result<Analysis>)
    ensures r.Ok? <==> AfterHeading(buildArgs, heading).Ok?
    ensures r.Ok? ==>
      var h := AfterHeading(buildArgs, heading).value;
      && r.value.headingArgs == h.args
      && r.value.unused == h.left - RESERVED
      && r.value.reserved == h.left - (h.left.Keys - RESERVED)
  {
    hide Resolver.Resolve;
    var args: Vars, left := map[], buildArgs;
    for n := 0 to |heading|
      invariant AfterHeading(buildArgs, heading[..n]) == Ok(Heading(args, left))
    {
      assert heading[..n + 1][..n] == heading[..n];
      var kv := Split(heading[n], '=');
      var k := Resolver.ResolveParam(kv[0], false, Lookup(args));
      if k.Err? {
        HeadingFails(buildArgs, heading, n + 1);
        return Err;
      }
      if k.value in left {
        args := args[k.value := left[k.value]];
        left := left - {k.value};
      } else if |kv| >= 2 {
        var v := Resolver.ResolveParam(kv[1], false, Lookup(args));
        if v.Err? {
          HeadingFails(buildArgs, heading, n + 1);
          return Err;
        }
        args := args[k.value := v.value];
      }
    }
    assert heading[..|heading|] == heading;
    var unused, reserved := MoveKeys(left, RESERVED);
    r := Ok(Analysis(args, reserved, unused));
  }

  method MoveKeys(left: Vars, names: set<string>) returns (rest: Vars, moved: Vars)
    ensures rest == left - names && moved == left - (left.Keys - names)
  {
    rest, moved := left, map[];
    var keys := left.Keys;
    while keys != {}
      invariant keys <= left.Keys
      invariant forall k :: k in rest <==> k in left && (k in keys || k !in names)
      invariant forall k :: k in rest ==> rest[k] == left[k]
      invariant forall k :: k in moved <==> k in left && k !in keys && k in names
      invariant forall k :: k in moved ==> moved[k] == left[k]
      decreases |keys|
    {
      var k :| k in keys;
      keys := keys - {k};
      if k in names {
        moved := moved[k := left[k]];
        rest := rest - {k};
      }
    }
  }

  lemma {:induction false} HeadingFails(buildArgs: Vars, heading: seq<string>, n: nat)
    requires n <= |heading| && AfterHeading(buildArgs, heading[..n]).Err?
    ensures AfterHeading(buildArgs, heading).Err?
    decreases |heading|
  {
    hide AddHeading;
    if n < |heading| {
      assert heading[..|heading| - 1][..n] == heading[..n];
      HeadingFails(buildArgs, heading[..|heading| - 1], n);
    } else {
      assert heading[..n] == heading;
    }
  }

  /** The keys the heading ARGs name. */
  function HeadingKeys(buildArgs: Vars, heading: seq<string>): set<string> {
    if heading == [] then {}
    else
      var init := heading[..|heading| - 1];
      HeadingKeys(buildArgs, init)
      + match AfterHeading(buildArgs, init)
        case Err => {}
        case Ok(before) =>
          match HeadingKey(before, heading[|heading| - 1])
          case Ok(k) => {k}
          case Err => {}
  }

  /** The heading ARGs consume the build arguments they name; what is left has no value as a heading ARG. */
  lemma {:induction false} HeadingConsumes(buildArgs: Vars, heading: seq<string>)
    requires AfterHeading(buildArgs, heading).Ok?
    ensures var h := AfterHeading(buildArgs, heading).value;
      && h.left == buildArgs - HeadingKeys(buildArgs, heading)
      && h.args.Keys !! h.left.Keys
      && h.args.Keys <= HeadingKeys(buildArgs, heading)
      && HeadingKeys(buildArgs, heading) * buildArgs.Keys <= h.args.Keys
  {
    hide HeadingKey, Resolver.Resolve;
    if heading != [] {
      HeadingConsumes(buildArgs, heading[..|heading| - 1]);
    }
  }

  /** The build arguments are parted between heading ARGs, reserved names and the unused, and keep their values. */
  lemma {:induction false} BuildArgsParted(buildArgs: Vars, heading: seq<string>)
    requires AfterHeading(buildArgs, heading).Ok?
    ensures
      var h := AfterHeading(buildArgs, heading).value;
      var consumed := HeadingKeys(buildArgs, heading) * buildArgs.Keys;
      var unused, reserved := h.left - RESERVED, h.left - (h.left.Keys - RESERVED);
      && buildArgs.Keys == consumed + reserved.Keys + unused.Keys
      && consumed !! reserved.Keys && consumed !! unused.Keys && reserved.Keys !! unused.Keys
      && reserved.Keys <= RESERVED && consumed <= h.args.Keys
      && (forall k :: k in reserved ==> reserved[k] == buildArgs[k])
      && (forall k :: k in unused ==> unused[k] == buildArgs[k])
  {
    HeadingConsumes(buildArgs, heading);
    hide AfterHeading, HeadingKeys;
  }

  // ---------- FROM lines ----------

  /** Where the pair of characters c, d first occurs, or the length of s. */
  function PairAt(s: string, c: char, d: char): (n: nat)
    ensures n <= |s| && (n < |s| ==> n + 2 <= |s| && s[n] == c && s[n + 1] == d)
    ensures forall i :: 0 <= i < n && i + 1 < |s| ==> !(s[i] == c && s[i + 1] == d)
  {
    if |s| < 2 then |s| else if s[0] == c && s[1] == d then 0 else 1 + PairAt(s[1..], c, d)
  }

  /** The second field of `strings.Split(s, cd)`, which is there since the pair occurs. */
  function SecondField(s: string, c: char, d: char): string
    requires PairAt(s, c, d) < |s|
  {
    var rest := s[PairAt(s, c, d) + 2..];
    rest[..PairAt(rest, c, d)]
  }

  /** What `searchArg` returns: the value of a heading ARG, with the word of a modifier as the alternative. */
  function SearchValue(headingArgs: Vars, arg: string): string {
    var minus, plus := PairAt(arg, ':', '-'), PairAt(arg, ':', '+');
    if minus < |arg| then
      if arg[..minus] in headingArgs then headingArgs[arg[..minus]] else SecondField(arg, ':', '-')
    else if plus < |arg| then
      if arg[..plus] in headingArgs then SecondField(arg, ':', '+') else ""
    else Get(headingArgs, arg)
  }

  /** Which build arguments are unused after it. With `:-` it is the whole argument that is deleted. */
  function SearchUnused(headingArgs: Vars, unused: Vars, arg: string): Vars {
    var minus, plus := PairAt(arg, ':', '-'), PairAt(arg, ':', '+');
    if minus < |arg| then if arg[..minus] in headingArgs then unused - {arg} else unused
    else if plus == |arg| && arg in headingArgs then unused - {arg} else unused
  }

  method SearchArg(headingArgs: Vars, arg: string, unused: Table) returns (v: string)
    modifies unused
    ensures v == SearchValue(headingArgs, arg) && unused.m == SearchUnused(headingArgs, old(unused.m), arg)
  {
    var minus, plus := PairAt(arg, ':', '-'), PairAt(arg, ':', '+');
    if minus < |arg| {
      if arg[..minus] in headingArgs {
        unused.m := unused.m - {arg};
        return headingArgs[arg[..minus]];
      }
      return SecondField(arg, ':', '-');
    }
    if plus < |arg| {
      return if arg[..plus] in headingArgs then SecondField(arg, ':', '+') else "";
    }
    if arg in headingArgs {
      unused.m := unused.m - {arg};
      return headingArgs[arg];
    }
    return "";
  }

  function FromLookup(headingArgs: Vars): string -> string { s => SearchValue(headingArgs, s) }

  /** What resolving the image name of a FROM line asks for. */
  function FromAsked(headingArgs: Vars, name: string): seq<string> {
    Resolver.Asked(TrimSpace(name), true, FromLookup(headingArgs))
  }

  function AfterSearches(headingArgs: Vars, unused: Vars, asked: seq<string>): Vars {
    if asked == [] then unused
    else SearchUnused(headingArgs, AfterSearches(headingArgs, unused, asked[..|asked| - 1]), asked[|asked| - 1])
  }

  /** The unused arguments after the FROM lines of all stages. */
  function AfterFroms(headingArgs: Vars, unused: Vars, names: seq<string>): Vars {
    if names == [] then unused
    else
      var before := AfterFroms(headingArgs, unused, names[..|names| - 1]);
      AfterSearches(headingArgs, before, FromAsked(headingArgs, names[|names| - 1]))
  }

  /** A FROM name that `ResolveImageName` accepts: no escaped dollar, and it resolves strictly to a valid image name. */
  predicate FromOk(headingArgs: Vars, name: string, valid: string -> bool) {
    var trimmed := TrimSpace(name);
    var image := Resolver.Resolve(trimmed, true, FromLookup(headingArgs));
    PairAt(trimmed, '\\', '$') == |trimmed| && image.Ok? && valid(image.value)
  }

  /** The image name that an accepted FROM name resolves to. */
  function FromImage(headingArgs: Vars, name: string, valid: string -> bool): string
    requires FromOk(headingArgs, name, valid)
  {
    Resolver.Resolve(TrimSpace(name), true, FromLookup(headingArgs)).value
  }

  /** The searches of one scan. What the scanner asks for does not depend on the unused arguments, so they can follow it. */
  method SearchAll(headingArgs: Vars, asked: seq<string>, unused: Table)
    modifies unused
    ensures unused.m == AfterSearches(headingArgs, old(unused.m), asked)
  {
    hide SearchUnused, SearchValue;
    for i := 0 to |asked|
      invariant unused.m == AfterSearches(headingArgs, old(unused.m), asked[..i])
    {
      assert asked[..i + 1][..i] == asked[..i];
      var _ := SearchArg(headingArgs, asked[i], unused);
    }
    assert asked[..|asked|] == asked;
  }

  /** `ResolveImageName`; `valid` stands for the check of the result as an image name. */
  method ResolveFrom(headingArgs: Vars, name: string, valid: string -> bool, unused: Table) returns (r: Result<string>)
    modifies unused
    ensures r.Ok? <==> FromOk(headingArgs, name, valid)
    ensures r.Ok? ==> r.value == FromImage(headingArgs, name, valid)
    ensures r.Ok? ==> unused.m == AfterSearches(headingArgs, old(unused.m), FromAsked(headingArgs, name))
  {
    hide Resolver.Resolve, Resolver.Asked, AfterSearches, TrimSpace;
    var trimmed := TrimSpace(name);
    if PairAt(trimmed, '\\', '$') < |trimmed| { return Err; }
    var image, asked := Resolver.ResolveAsking(trimmed, true, FromLookup(headingArgs));
    if image.Err? || !valid(image.value) { return Err; }
    SearchAll(headingArgs, asked, unused);
    r := image;
  }

  /** The FROM lines of all stages. */
  method ResolveFroms(headingArgs: Vars, names: seq<string>, valid: string -> bool, unused: Table)
    returns (r: Result<seq<string>>)
    modifies unused
    ensures r.Ok? <==> forall i :: 0 <= i < |names| ==> FromOk(headingArgs, names[i], valid)
    ensures r.Ok? ==> |r.value| == |names| && unused.m == AfterFroms(headingArgs, old(unused.m), names)
    ensures r.Ok? ==> forall i :: 0 <= i < |names| ==> r.value[i] == FromImage(headingArgs, names[i], valid)
  {
    hide FromOk, FromImage, FromAsked, AfterSearches;
    var images: seq<string> := [];
    for n := 0 to |names|
      invariant |images| == n && unused.m == AfterFroms(headingArgs, old(unused.m), names[..n])
      invariant forall i :: 0 <= i < n ==> FromOk(headingArgs, names[i], valid)
      invariant forall i :: 0 <= i < n ==> images[i] == FromImage(headingArgs, names[i], valid)
    {
      assert names[..n + 1][..n] == names[..n];
      var image := ResolveFrom(headingArgs, names[n], valid, unused);
      if image.Err? { return Err; }
      images := images + [image.value];
    }
    assert names[..|names|] == names;
    r := Ok(images);
  }

  /** The argument has the form `name:-word`, and the name is a heading ARG. */
  predicate WithDefault(headingArgs: Vars, arg: string) {
    var minus := PairAt(arg, ':', '-');
    minus < |arg| && arg[..minus] in headingArgs
  }

  /** The arguments of this form that the FROM lines ask for. */
  function Defaulted(headingArgs: Vars, names: seq<string>): set<string> {
    set i, k | 0 <= i < |names| && k in FromAsked(headingArgs, names[i]) && WithDefault(headingArgs, k) :: k
  }

  lemma {:induction false} SearchesDelete(headingArgs: Vars, unused: Vars, asked: seq<string>)
    requires headingArgs.Keys !! unused.Keys
    ensures AfterSearches(headingArgs, unused, asked) == unused - set k | k in asked && WithDefault(headingArgs, k)
  {
    hide PairAt;
    if asked != [] {
      var init, last := asked[..|asked| - 1], asked[|asked| - 1];
      SearchesDelete(headingArgs, unused, init);
      assert asked == init + [last];
    }
  }

  /** FROM lines use up nothing but build arguments that are named like a parameter with its default. */
  lemma {:induction false} FromsDelete(headingArgs: Vars, unused: Vars, names: seq<string>)
    requires headingArgs.Keys !! unused.Keys
    ensures AfterFroms(headingArgs, unused, names) == unused - Defaulted(headingArgs, names)
  {
    hide FromAsked, WithDefault, AfterSearches;
    if names != [] {
      var init, last := names[..|names| - 1], names[|names| - 1];
      FromsDelete(headingArgs, unused, init);
      SearchesDelete(headingArgs, AfterFroms(headingArgs, unused, init), FromAsked(headingArgs, last));
      DefaultedMore(headingArgs, init, last);
      assert names == init + [last];
    }
  }

  lemma {:induction false} DefaultedMore(headingArgs: Vars, names: seq<string>, last: string)
    ensures Defaulted(headingArgs, names + [last])
         == Defaulted(headingArgs, names) + set k | k in FromAsked(headingArgs, last) && WithDefault(headingArgs, k)
  {
    hide FromAsked, WithDefault;
    var all := names + [last];
    forall k | k in FromAsked(headingArgs, last) && WithDefault(headingArgs, k) ensures k in Defaulted(headingArgs, all) {
      assert all[|names|] == last;
    }
    forall k | k in Defaulted(headingArgs, names) ensures k in Defaulted(headingArgs, all) {
      var i :| 0 <= i < |names| && k in FromAsked(headingArgs, names[i]) && WithDefault(headingArgs, k);
      assert all[i] == names[i];
    }
  }

  // ---------- the whole build ----------

  /** A stage as it is analysed: the environment of its base image and its lines. */
  datatype StageRun = StageRun(env: Vars, lines: seq<Instruction>)

  predicate AllParsedRuns(runs: seq<StageRun>) { forall i :: 0 <= i < |runs| ==> AllParsed(runs[i].lines) }

  /** The unused build arguments after some stages, each with its own arguments and environment. */
  function UnusedAfter(c: Context, reserved: Vars, unused: Vars, runs: seq<StageRun>): Result<Vars>
    requires AllParsedRuns(runs)
  {
    if runs == [] then Ok(unused)
    else
      var before :- UnusedAfter(c, reserved, unused, runs[..|runs| - 1]);
      var run := runs[|runs| - 1];
      var end :- After(c, Scope(reserved, run.env, before), run.lines);
      Ok(end.unused)
  }

  /** The keys that ARG lines declare in any of the stages. Which keys these are does not depend on what is unused. */
  function DeclaredIn(c: Context, reserved: Vars, runs: seq<StageRun>): set<string>
    requires AllParsedRuns(runs)
  {
    if runs == [] then {}
    else
      var run := runs[|runs| - 1];
      DeclaredIn(c, reserved, runs[..|runs| - 1]) + AllDeclared(c, Scope(reserved, run.env, map[]), run.lines)
  }

  lemma {:induction false} EnvIgnoresUnused(sc: Scope, u: Vars, cells: seq<string>)
    ensures match AfterEnv(sc, cells)
            case Ok(end) => AfterEnv(sc.(unused := u), cells) == Ok(end.(unused := u))
            case Err => AfterEnv(sc.(unused := u), cells).Err?
  {
    hide Resolver.Resolve;
    if cells != [] { EnvIgnoresUnused(sc, u, cells[..|cells| - 1]); }
  }

  /** Two scopes that differ in the unused arguments only. */
  predicate Alike(a: Result<Scope>, b: Result<Scope>) {
    match a
    case Ok(x) => b.Ok? && b.value.args == x.args && b.value.envs == x.envs
    case Err => b.Err?
  }

  lemma {:induction false} LineIgnoresUnused(c: Context, x: Scope, y: Scope, l: Instruction)
    requires Parsed(l) && x.args == y.args && x.envs == y.envs
    ensures Alike(AfterLine(c, x, l), AfterLine(c, y, l)) && Declared(c, x, l) == Declared(c, y, l)
  {
    hide Resolver.Resolve, AfterEnv, Get;
    if l.command == ENV {
      EnvIgnoresUnused(x, y.unused, l.cells);
      assert x.(unused := y.unused) == y;
    }
  }

  lemma {:induction false} IgnoresUnused(c: Context, x: Scope, y: Scope, lines: seq<Instruction>)
    requires AllParsed(lines) && x.args == y.args && x.envs == y.envs
    ensures Alike(After(c, x, lines), After(c, y, lines)) && AllDeclared(c, x, lines) == AllDeclared(c, y, lines)
  {
    hide AfterLine, Declared;
    if lines != [] {
      var init := lines[..|lines| - 1];
      IgnoresUnused(c, x, y, init);
      if After(c, x, init).Ok? {
        LineIgnoresUnused(c, After(c, x, init).value, After(c, y, init).value, lines[|lines| - 1]);
      }
    }
  }

  lemma {:induction false} StagesUse(c: Context, reserved: Vars, unused: Vars, runs: seq<StageRun>)
    requires AllParsedRuns(runs) && UnusedAfter(c, reserved, unused, runs).Ok? && unused.Keys <= c.buildArgs.Keys
    ensures UnusedAfter(c, reserved, unused, runs).value == unused - DeclaredIn(c, reserved, runs)
  {
    hide After, AllDeclared;
    if runs != [] {
      var init, run := runs[..|runs| - 1], runs[|runs| - 1];
      StagesUse(c, reserved, unused, init);
      var before := UnusedAfter(c, reserved, unused, init).value;
      OnlyDeclared(c, Scope(reserved, run.env, before), run.lines);
      IgnoresUnused(c, Scope(reserved, run.env, before), Scope(reserved, run.env, map[]), run.lines);
    }
  }

  /** The unused arguments of a whole build: after the heading, the FROM lines and the stages. */
  function UnusedAtEnd(h: Heading, buildArgs: Vars, froms: seq<string>, runs: seq<StageRun>): Result<Vars>
    requires AllParsedRuns(runs)
  {
    UnusedAfter(Context(buildArgs, h.args), h.left - (h.left.Keys - RESERVED),
                AfterFroms(h.args, h.left - RESERVED, froms), runs)
  }

  /** What a whole build uses: reserved names, keys of ARG lines, and what FROM lines ask for with a default. */
  function Used(h: Heading, buildArgs: Vars, heading: seq<string>, froms: seq<string>, runs: seq<StageRun>): set<string>
    requires AllParsedRuns(runs)
  {
    RESERVED + HeadingKeys(buildArgs, heading)
    + DeclaredIn(Context(buildArgs, h.args), h.left - (h.left.Keys - RESERVED), runs) + Defaulted(h.args, froms)
  }

  /**
  At the end of a build the unused build arguments are exactly those that are not reserved, that no ARG line, before the
  first FROM or in any stage, declared, and that no FROM line asked for as a heading ARG with its default.
  */
  lemma {:induction false} UnusedExactly(buildArgs: Vars, heading: seq<string>, froms: seq<string>, runs: seq<StageRun>)
    requires AllParsedRuns(runs) && AfterHeading(buildArgs, heading).Ok?
    requires UnusedAtEnd(AfterHeading(buildArgs, heading).value, buildArgs, froms, runs).Ok?
    ensures
      var h := AfterHeading(buildArgs, heading).value;
      UnusedAtEnd(h, buildArgs, froms, runs).value == buildArgs - Used(h, buildArgs, heading, froms, runs)
  {
    HeadingConsumes(buildArgs, heading);
    hide AfterHeading, HeadingKeys, UnusedAfter, DeclaredIn, Defaulted, AfterFroms;
    var h := AfterHeading(buildArgs, heading).value;
    FromsDelete(h.args, h.left - RESERVED, froms);
    StagesUse(Context(buildArgs, h.args), h.left - (h.left.Keys - RESERVED), AfterFroms(h.args, h.left - RESERVED, froms), runs);
  }

  /** For keys without `:-` the FROM lines make no difference. */
  lemma {:induction false} UnusedPlain(buildArgs: Vars, heading: seq<string>, froms: seq<string>, runs: seq<StageRun>, k: string)
    requires AllParsedRuns(runs) && AfterHeading(buildArgs, heading).Ok?
    requires UnusedAtEnd(AfterHeading(buildArgs, heading).value, buildArgs, froms, runs).Ok?
    requires PairAt(k, ':', '-') == |k|
    ensures
      var h := AfterHeading(buildArgs, heading).value;
      k in UnusedAtEnd(h, buildArgs, froms, runs).value <==>
      && k in buildArgs && k !in RESERVED && k !in HeadingKeys(buildArgs, heading)
      && k !in DeclaredIn(Context(buildArgs, h.args), h.left - (h.left.Keys - RESERVED), runs)
  {
    hide AfterHeading, HeadingKeys, UnusedAtEnd, DeclaredIn, FromAsked;
    UnusedExactly(buildArgs, heading, froms, runs);
  }

  // ---------- a build argument that goes missing ----------

  lemma {:induction false} PairAfter(n: string, c: char, d: char, w: string)
    requires c !in n
    ensures PairAt(n + [c, d] + w, c, d) == |n|
  {
    var s := n + [c, d] + w;
    if n != "" {
      assert s[1..] == n[1..] + [c, d] + w;
      PairAfter(n[1..], c, d, w);
      assert n[0] in n;
    }
  }

  /** The argument that `${n:-w}` asks for. */
  function DefaultArg(n: string, w: string): string { Resolver.ModArg(n, false, w) }

  /** `FROM ${n:-w}` asks for the argument as a whole. */
  lemma {:induction false} DefaultAsked(headingArgs: Vars, n: string, w: string)
    requires Resolver.Fits(Resolver.Modified(n, false, w), "")
    ensures DefaultArg(n, w) in FromAsked(headingArgs, "${" + DefaultArg(n, w) + "}")
  {
    var arg := DefaultArg(n, w);
    var cell := "${" + arg + "}";
    Resolver.AskedModified(n, false, w, true, FromLookup(headingArgs));
    TrimSpaceFirm(cell);
    hide Resolver.Asked, TrimSpace, DefaultArg;
  }

  lemma {:induction false} DefaultIsDefault(headingArgs: Vars, n: string, w: string)
    requires Resolver.IsName(n) && n in headingArgs
    ensures WithDefault(headingArgs, DefaultArg(n, w))
  {
    var arg := DefaultArg(n, w);
    assert forall i :: 0 <= i < |n| ==> n[i] != ':';
    assert arg == n + [':', '-'] + w;
    PairAfter(n, ':', '-', w);
    assert arg[..|n|] == n;
  }

  /**
  A build argument that is not reported although no ARG line declared it: its key is spelled like a parameter with a
  default, `--build-arg 'n:-w=v'`, and a FROM line uses that parameter. Nothing else is needed but that n is a heading ARG.
  */
  lemma {:induction false} DefaultGoesMissing(buildArgs: Vars, heading: seq<string>, n: string, w: string)
    requires Resolver.Fits(Resolver.Modified(n, false, w), "") && AfterHeading(buildArgs, heading).Ok?
    requires n in AfterHeading(buildArgs, heading).value.args
    ensures
      var h := AfterHeading(buildArgs, heading).value;
      var froms := ["${" + DefaultArg(n, w) + "}"];
      UnusedAtEnd(h, buildArgs, froms, []).Ok? && DefaultArg(n, w) !in UnusedAtEnd(h, buildArgs, froms, []).value
  {
    var h := AfterHeading(buildArgs, heading).value;
    hide AfterHeading, HeadingKeys, FromAsked, WithDefault, DefaultArg;
    var froms := ["${" + DefaultArg(n, w) + "}"];
    DefaultAsked(h.args, n, w);
    DefaultIsDefault(h.args, n, w);
    assert DefaultArg(n, w) in FromAsked(h.args, froms[0]);
    assert DefaultArg(n, w) in Defaulted(h.args, froms);
    UnusedExactly(buildArgs, heading, froms, []);
  }

  /** One heading line, `ARG n=`, next to that build argument. */
  lemma {:induction false} OneHeading(n: string, key: string, v: string)
    requires Resolver.IsName(n) && key != n
    ensures AfterHeading(map[key := v], [n + "="]) == Ok(Heading(map[n := ""], map[key := v]))
    ensures HeadingKeys(map[key := v], [n + "="]) == {n}
  {
    var b: Vars := map[key := v];
    var line := n + "=";
    assert forall i :: 0 <= i < |n| ==> n[i] != '=';
    assert line == n + ['='] + "";
    SplitFirst(n, '=', "");
    assert Split(line, '=') == [n, ""];
    assert [line][..0] == [];
    Resolver.NameItself(n, false, Lookup(map[]));
    Resolver.NameItself("", false, Lookup(map[]));
    assert HeadingKey(Heading(map[], b), line) == Ok(n);
    hide Resolver.Scan, Split;
    assert AfterHeading(b, []) == Ok(Heading(map[], b)) && HeadingKeys(b, []) == {};
    assert map[][n := ""] == map[n := ""];
  }

  /** The whole input: no ARG line declares the key, and still it is not unused. */
  lemma {:induction false} MissingInput(n: string, w: string, v: string)
    requires Resolver.Fits(Resolver.Modified(n, false, w), "")
    ensures
      var key := DefaultArg(n, w);
      var b, heading, froms := map[key := v], [n + "="], ["${" + key + "}"];
      && AfterHeading(b, heading).Ok? && key !in HeadingKeys(b, heading)
      && UnusedAtEnd(AfterHeading(b, heading).value, b, froms, []).Ok?
      && key !in UnusedAtEnd(AfterHeading(b, heading).value, b, froms, []).value
  {
    var key := DefaultArg(n, w);
    assert |key| > |n|;
    hide DefaultArg, UnusedAtEnd, AfterHeading, HeadingKeys;
    OneHeading(n, key, v);
    DefaultGoesMissing(map[key := v], [n + "="], n, w);
  }
}
