/**
ARG and ENV in a stage: which values each command sees, and which build arguments the build has used. The maps of a
stage are changed in place while its lines are analysed; each command keeps copies.
*/
module Scoping {
  import opened Basics
  import opened Strings
  import Resolver
  import opened Stages

  const ENV := "ENV"

  type Vars = map<string, string>

  /** `v, ok := m[s]` with "" for a missing key. */
  function Get(m: Vars, s: string): string { if s in m then m[s] else "" }

  /** What the builder knows before any stage: the build arguments and the values of the heading ARGs. */
  datatype Context = Context(buildArgs: Vars, headingArgs: Vars)

  /** The maps that change along a stage. */
  datatype Scope = Scope(args: Vars, envs: Vars, unused: Vars)

  function ArgLookup(buildArgs: Vars, args: Vars, envs: Vars): string -> string {
    s => if s in buildArgs then buildArgs[s] else if s in envs then envs[s] else Get(args, s)
  }

  function EnvLookup(args: Vars, envs: Vars): string -> string {
    s => if s in envs then envs[s] else Get(args, s)
  }

  /** The text of an ARG line after expansion, cut at every `=`. */
  function ArgFields(buildArgs: Vars, sc: Scope, l: Instruction): (r: Result<seq<string>>)
    requires l.command == ARG && Parsed(l)
    ensures r.Ok? ==> |r.value| > 0
  {
    var val :- Resolver.Resolve(l.cells[0], false, ArgLookup(buildArgs, sc.args, sc.envs));
    Ok(Split(val, '='))
  }

  /** What declaring ARG kv[0] with the default kv[1], if there is one, does. */
  function Declare(c: Context, sc: Scope, kv: seq<string>): Scope
    requires |kv| > 0
  {
    var k := kv[0];
    if k in c.buildArgs then sc.(args := sc.args[k := c.buildArgs[k]], unused := sc.unused - {k})
    else if |kv| >= 2 then sc.(args := sc.args[k := kv[1]])
    else if Get(sc.args, k) == "" && Get(c.headingArgs, k) != "" then sc.(args := sc.args[k := c.headingArgs[k]])
    else sc
  }

  /** `analyzeArg`. */
  function AfterArg(c: Context, sc: Scope, l: Instruction): Result<Scope>
    requires l.command == ARG && Parsed(l)
  {
    var kv :- ArgFields(c.buildArgs, sc, l);
    Ok(Declare(c, sc, kv))
  }

  /** One cell of an ENV line: `strings.SplitN(val, "=", 2)` must give two fields. */
  function AfterEnvCell(sc: Scope, cell: string): Result<Scope> {
    var val :- Resolver.Resolve(cell, false, EnvLookup(sc.args, sc.envs));
    var n := IndexOf(val, '=');
    if n == |val| then Err
    else Ok(sc.(envs := sc.envs[val[..n] := val[n + 1..]], args := sc.args - {val[..n]}))
  }

  /** `analyzeEnv`: cell by cell, each seeing those before it. */
  function AfterEnv(sc: Scope, cells: seq<string>): Result<Scope> {
    if cells == [] then Ok(sc)
    else
      var before :- AfterEnv(sc, cells[..|cells| - 1]);
      AfterEnvCell(before, cells[|cells| - 1])
  }

  function AfterLine(c: Context, sc: Scope, l: Instruction): Result<Scope>
    requires Parsed(l)
  {
    if l.command == ARG then AfterArg(c, sc, l)
    else if l.command == ENV then AfterEnv(sc, l.cells)
    else Ok(sc)
  }

  /** The scope after some lines of a stage. */
  function After(c: Context, sc: Scope, lines: seq<Instruction>): Result<Scope>
    requires AllParsed(lines)
  {
    if lines == [] then Ok(sc)
    else
      var before :- After(c, sc, lines[..|lines| - 1]);
      AfterLine(c, before, lines[|lines| - 1])
  }

  /**
  What the command of line n sees: the values before the line, except that an ARG line sees the arguments and an ENV
  line the environment after it. An ENV line still sees the arguments it takes over.
  */
  function Seen(c: Context, sc: Scope, lines: seq<Instruction>, n: nat): Result<(Vars, Vars)>
    requires AllParsed(lines) && n < |lines|
  {
    var before :- After(c, sc, lines[..n]);
    var after :- After(c, sc, lines[..n + 1]);
    Ok((if lines[n].command == ARG then after.args else before.args,
        if lines[n].command == ENV then after.envs else before.envs))
  }

  // ---------- the analysis in place ----------

  /** A map in memory, which can be changed through every reference to it. */
  class Table {
    var m: Vars

    constructor (m0: Vars)
      ensures m == m0
    {
      m := m0;
    }
  }

  datatype Command = Command(line: Instruction, args: Table, envs: Table)

  method CopyMap(t: Table) returns (r: Table)
    ensures fresh(r) && r.m == t.m
  {
    r := new Table(t.m);
  }

  method AnalyzeArg(c: Context, l: Instruction, stageArgs: Table, stageEnvs: Table, unused: Table) returns (r: Result<Table>)
    requires l.command == ARG && Parsed(l)
    requires stageArgs != stageEnvs && unused != stageArgs && unused != stageEnvs
    modifies stageArgs, unused
    ensures r.Ok? <==> AfterArg(c, old(Scope(stageArgs.m, stageEnvs.m, unused.m)), l).Ok?
    ensures r.Ok? ==>
      && AfterArg(c, old(Scope(stageArgs.m, stageEnvs.m, unused.m)), l)
         == Ok(Scope(stageArgs.m, stageEnvs.m, unused.m))
      && fresh(r.value) && r.value.m == stageArgs.m
  {
    hide Resolver.Resolve;
    ghost var sc := Scope(stageArgs.m, stageEnvs.m, unused.m);
    var val := Resolver.ResolveParam(l.cells[0], false, ArgLookup(c.buildArgs, stageArgs.m, stageEnvs.m));
    if val.Err? { return Err; }
    var kv := Split(val.value, '=');
    assert ArgFields(c.buildArgs, sc, l) == Ok(kv);
    if kv[0] in c.buildArgs {
      stageArgs.m := stageArgs.m[kv[0] := c.buildArgs[kv[0]]];
      unused.m := unused.m - {kv[0]};
    } else {
      if |kv| < 2 && Get(stageArgs.m, kv[0]) == "" && Get(c.headingArgs, kv[0]) != "" {
        stageArgs.m := stageArgs.m[kv[0] := c.headingArgs[kv[0]]];
      }
      if |kv| >= 2 {
        stageArgs.m := stageArgs.m[kv[0] := kv[1]];
      }
    }
    var copy := CopyMap(stageArgs);
    r := Ok(copy);
  }

  method AnalyzeEnv(l: Instruction, stageArgs: Table, stageEnvs: Table, ghost unused: Vars) returns (r: Result<Table>)
    requires stageArgs != stageEnvs
    modifies stageArgs, stageEnvs
    ensures r.Ok? <==> AfterEnv(old(Scope(stageArgs.m, stageEnvs.m, unused)), l.cells).Ok?
    ensures r.Ok? ==>
      && AfterEnv(old(Scope(stageArgs.m, stageEnvs.m, unused)), l.cells) == Ok(Scope(stageArgs.m, stageEnvs.m, unused))
      && fresh(r.value) && r.value.m == stageEnvs.m
  {
    hide AfterEnvCell;
    ghost var sc := Scope(stageArgs.m, stageEnvs.m, unused);
    for n := 0 to |l.cells|
      invariant AfterEnv(sc, l.cells[..n]) == Ok(Scope(stageArgs.m, stageEnvs.m, unused))
    {
      assert l.cells[..n + 1][..n] == l.cells[..n];
      var ok := AnalyzeEnvCell(l.cells[n], stageArgs, stageEnvs, unused);
      if !ok {
        EnvFails(sc, l.cells, n + 1);
        return Err;
      }
    }
    assert l.cells[..|l.cells|] == l.cells;
    var copy := CopyMap(stageEnvs);
    r := Ok(copy);
  }

  /** The body of that loop. */
  method AnalyzeEnvCell(cell: string, stageArgs: Table, stageEnvs: Table, ghost unused: Vars) returns (ok: bool)
    requires stageArgs != stageEnvs
    modifies stageArgs, stageEnvs
    ensures ok <==> AfterEnvCell(old(Scope(stageArgs.m, stageEnvs.m, unused)), cell).Ok?
    ensures ok ==>
      AfterEnvCell(old(Scope(stageArgs.m, stageEnvs.m, unused)), cell) == Ok(Scope(stageArgs.m, stageEnvs.m, unused))
  {
    hide Resolver.Resolve, IndexOf;
    var val := Resolver.ResolveParam(cell, false, EnvLookup(stageArgs.m, stageEnvs.m));
    if val.Err? || IndexOf(val.value, '=') == |val.value| { return false; }
    var cut := IndexOf(val.value, '=');
    stageEnvs.m := stageEnvs.m[val.value[..cut] := val.value[cut + 1..]];
    stageArgs.m := stageArgs.m - {val.value[..cut]};
    ok := true;
  }

  lemma {:induction false} EnvFails(sc: Scope, cells: seq<string>, n: nat)
    requires n <= |cells| && AfterEnv(sc, cells[..n]).Err?
    ensures AfterEnv(sc, cells).Err?
    decreases |cells|
  {
    hide AfterEnvCell;
    if n < |cells| {
      assert cells[..|cells| - 1][..n] == cells[..n];
      EnvFails(sc, cells[..|cells| - 1], n);
    } else {
      assert cells[..n] == cells;
    }
  }

  lemma {:induction false} AfterFails(c: Context, sc: Scope, lines: seq<Instruction>, n: nat)
    requires AllParsed(lines) && n <= |lines| && After(c, sc, lines[..n]).Err?
    ensures After(c, sc, lines).Err?
    decreases |lines|
  {
    hide AfterLine;
    if n < |lines| {
      assert lines[..|lines| - 1][..n] == lines[..n];
      AfterFails(c, sc, lines[..|lines| - 1], n);
    } else {
      assert lines[..n] == lines;
    }
  }

  /** Command k of a stage is the one of line k + 1 and holds, in tables of its own, what that line sees. */
  ghost predicate Holds(c: Context, sc: Scope, lines: seq<Instruction>, k: nat, cmd: Command)
    requires AllParsed(lines) && k + 1 < |lines|
    reads cmd.args, cmd.envs
  {
    cmd.line == lines[k + 1] && Seen(c, sc, lines, k + 1) == Ok((cmd.args.m, cmd.envs.m))
  }

  /**
  `analyzeStage`. The stage's environment table is the builder's own and is updated; the commands' tables are new, so
  that what a command holds at the end is what it saw when its line was analysed.
  */
  method AnalyzeStage(c: Context, reserved: Vars, lines: seq<Instruction>, env: Table, unused: Table)
    returns (r: Result<seq<Command>>)
    requires AllParsed(lines) && lines != [] && lines[0].command == FROM
    requires forall k :: 1 <= k < |lines| ==> lines[k].command != FROM
    requires env != unused
    modifies env, unused
    ensures r.Ok? <==> After(c, old(Scope(reserved, env.m, unused.m)), lines).Ok?
    ensures r.Ok? ==>
      && |r.value| == |lines| - 1
      && (forall k :: 0 <= k < |r.value| ==>
            && fresh(r.value[k].args) && fresh(r.value[k].envs)
            && Holds(c, old(Scope(reserved, env.m, unused.m)), lines, k, r.value[k]))
    ensures r.Ok? ==>
      var end := After(c, old(Scope(reserved, env.m, unused.m)), lines).value;
      end.envs == env.m && end.unused == unused.m
  {
    hide AfterLine;
    ghost var sc := Scope(reserved, env.m, unused.m);
    var stageArgs := new Table(reserved);
    var commands: seq<Command> := [];
    for n := 0 to |lines|
      invariant |commands| == if n == 0 then 0 else n - 1
      invariant After(c, sc, lines[..n]) == Ok(Scope(stageArgs.m, env.m, unused.m))
      invariant forall k :: 0 <= k < |commands| ==>
        && fresh(commands[k].args) && fresh(commands[k].envs)
        && commands[k].args != stageArgs && commands[k].envs != stageArgs
        && Holds(c, sc, lines, k, commands[k])
    {
      assert lines[..n + 1][..n] == lines[..n];
      var cmd := AnalyzeLine(c, lines[n], stageArgs, env, unused);
      if cmd.Err? {
        AfterFails(c, sc, lines, n + 1);
        return Err;
      }
      if lines[n].command != FROM {
        commands := commands + [cmd.value];
      }
    }
    assert lines[..|lines|] == lines;
    r := Ok(commands);
  }

  /** The body of that loop. */
  method AnalyzeLine(c: Context, l: Instruction, stageArgs: Table, env: Table, unused: Table) returns (r: Result<Command>)
    requires Parsed(l) && stageArgs != env && unused != stageArgs && unused != env
    modifies stageArgs, env, unused
    ensures r.Ok? <==> AfterLine(c, old(Scope(stageArgs.m, env.m, unused.m)), l).Ok?
    ensures r.Ok? ==>
      && AfterLine(c, old(Scope(stageArgs.m, env.m, unused.m)), l) == Ok(Scope(stageArgs.m, env.m, unused.m))
      && r.value.line == l && fresh(r.value.args) && fresh(r.value.envs)
      && r.value.args.m == (if l.command == ARG then stageArgs.m else old(stageArgs.m))
      && r.value.envs.m == (if l.command == ENV then env.m else old(env.m))
  {
    hide AfterArg, AfterEnv;
    var args := CopyMap(stageArgs);
    var envs := CopyMap(env);
    if l.command == ARG {
      var t := AnalyzeArg(c, l, stageArgs, env, unused);
      if t.Err? { return Err; }
      args := t.value;
    } else if l.command == ENV {
      var t := AnalyzeEnv(l, stageArgs, env, unused.m);
      if t.Err? { return Err; }
      envs := t.value;
    }
    r := Ok(Command(l, args, envs));
  }

  // ---------- what the scopes mean ----------

  /** The keys an ARG line declares in a scope: one, if its text can be expanded. */
  function Declared(c: Context, sc: Scope, l: Instruction): set<string>
    requires Parsed(l)
  {
    if l.command != ARG then {}
    else
      match ArgFields(c.buildArgs, sc, l)
      case Ok(kv) => {kv[0]}
      case Err => {}
  }

  /** The keys declared along some lines. */
  function AllDeclared(c: Context, sc: Scope, lines: seq<Instruction>): set<string>
    requires AllParsed(lines)
  {
    if lines == [] then {}
    else
      var init := lines[..|lines| - 1];
      AllDeclared(c, sc, init)
      + match After(c, sc, init)
        case Ok(before) => Declared(c, before, lines[|lines| - 1])
        case Err => {}
  }

  /** The keys an ENV line sets, cell by cell. */
  function EnvKeys(sc: Scope, cells: seq<string>): set<string> {
    if cells == [] then {}
    else
      var init, cell := cells[..|cells| - 1], cells[|cells| - 1];
      EnvKeys(sc, init)
      + match AfterEnv(sc, init)
        case Err => {}
        case Ok(before) =>
          match Resolver.Resolve(cell, false, EnvLookup(before.args, before.envs))
          case Ok(val) => {val[..IndexOf(val, '=')]}
          case Err => {}
  }

  /** An ENV line takes its keys, and no others, out of the arguments and into the environment. */
  lemma {:induction false} EnvTakesOver(sc: Scope, cells: seq<string>)
    requires AfterEnv(sc, cells).Ok?
    ensures var end := AfterEnv(sc, cells).value;
      && end.args == sc.args - EnvKeys(sc, cells)
      && end.envs.Keys == sc.envs.Keys + EnvKeys(sc, cells)
      && end.unused == sc.unused
      && forall k :: k in sc.envs && k !in EnvKeys(sc, cells) ==> end.envs[k] == sc.envs[k]
  {
    hide Resolver.Resolve;
    if cells != [] {
      EnvTakesOver(sc, cells[..|cells| - 1]);
    }
  }

  /** A line adds no argument but the one it declares, and uses up a build argument exactly by declaring it. */
  lemma {:induction false} LineDeclares(c: Context, sc: Scope, l: Instruction)
    requires Parsed(l) && AfterLine(c, sc, l).Ok? && sc.unused.Keys <= c.buildArgs.Keys
    ensures var end := AfterLine(c, sc, l).value;
      end.args.Keys <= sc.args.Keys + Declared(c, sc, l) && end.unused == sc.unused - Declared(c, sc, l)
  {
    hide ArgFields, AfterEnv, EnvKeys, Declare;
    if l.command == ENV {
      EnvTakesOver(sc, l.cells);
    } else if l.command == ARG {
      DeclareDeclares(c, sc, ArgFields(c.buildArgs, sc, l).value);
    }
  }

  lemma {:induction false} DeclareDeclares(c: Context, sc: Scope, kv: seq<string>)
    requires |kv| > 0 && sc.unused.Keys <= c.buildArgs.Keys
    ensures var end := Declare(c, sc, kv);
      end.args.Keys <= sc.args.Keys + {kv[0]} && end.unused == sc.unused - {kv[0]} && end.envs == sc.envs
  {
  }

  /**
  Arguments come from ARG lines only, so a key that an ENV line took over stays out until an ARG line declares it
  again; and the unused build arguments are those that no ARG line declared.
  */
  lemma {:induction false} OnlyDeclared(c: Context, sc: Scope, lines: seq<Instruction>)
    requires AllParsed(lines) && After(c, sc, lines).Ok? && sc.unused.Keys <= c.buildArgs.Keys
    ensures var end := After(c, sc, lines).value;
      && end.args.Keys <= sc.args.Keys + AllDeclared(c, sc, lines)
      && end.unused == sc.unused - AllDeclared(c, sc, lines)
  {
    hide AfterLine, Declared;
    if lines != [] {
      var init := lines[..|lines| - 1];
      OnlyDeclared(c, sc, init);
      LineDeclares(c, After(c, sc, init).value, lines[|lines| - 1]);
    }
  }

  lemma {:induction false} AfterMore(c: Context, sc: Scope, a: seq<Instruction>, b: seq<Instruction>)
    requires AllParsed(a) && AllParsed(b) && After(c, sc, a).Ok?
    ensures AllParsed(a + b) && After(c, sc, a + b) == After(c, After(c, sc, a).value, b)
  {
    hide AfterLine;
    if b == [] {
      assert a + b == a;
    } else {
      AfterMore(c, sc, a, b[..|b| - 1]);
      assert (a + b)[..|a + b| - 1] == a + b[..|b| - 1];
    }
  }

  /** Across a stage: what an ENV line sets is no argument at any later line, unless an ARG line in between says so. */
  lemma {:induction false} EnvHidesArg(c: Context, sc: Scope, pre: seq<Instruction>, l: Instruction, post: seq<Instruction>, k: string)
    requires AllParsed(pre + [l] + post) && l.command == ENV && sc.unused.Keys <= c.buildArgs.Keys
    requires After(c, sc, pre + [l] + post).Ok?
    ensures AllParsed(pre) && AllParsed(post) && After(c, sc, pre).Ok? && AfterLine(c, After(c, sc, pre).value, l).Ok?
    ensures var before := After(c, sc, pre).value;
      k in EnvKeys(before, l.cells) && k !in AllDeclared(c, AfterLine(c, before, l).value, post)
      ==> k !in After(c, sc, pre + [l] + post).value.args
  {
    var all := pre + [l] + post;
    forall i | 0 <= i < |pre| ensures Parsed(pre[i]) { assert pre[i] == all[i]; }
    forall i | 0 <= i < |post| ensures Parsed(post[i]) { assert post[i] == all[|pre| + 1 + i]; }
    assert Parsed(l) by { assert l == all[|pre|]; }
    assert all[..|pre| + 1] == pre + [l] && all[..|pre|] == pre && (pre + [l])[..|pre|] == pre;
    hide EnvKeys, AllDeclared, AfterEnv;
    if After(c, sc, pre).Err? { AfterFails(c, sc, all, |pre|); }
    if After(c, sc, pre + [l]).Err? { AfterFails(c, sc, all, |pre| + 1); }
    var before := After(c, sc, pre).value;
    OnlyDeclared(c, sc, pre);
    EnvTakesOver(before, l.cells);
    AfterMore(c, sc, pre + [l], post);
    OnlyDeclared(c, AfterLine(c, before, l).value, post);
  }

  /**
  A heading ARG is invisible in a stage until an ARG line there declares it: whatever value it has, the lines before
  see the same.
  */
  lemma {:induction false} HeadingInvisible(c: Context, d: Context, h: string, sc: Scope, lines: seq<Instruction>)
    requires AllParsed(lines) && c.buildArgs == d.buildArgs && c.headingArgs - {h} == d.headingArgs - {h}
    requires h !in AllDeclared(c, sc, lines)
    ensures After(c, sc, lines) == After(d, sc, lines)
  {
    hide AfterEnv, ArgFields;
    if lines != [] {
      var init, l := lines[..|lines| - 1], lines[|lines| - 1];
      HeadingInvisible(c, d, h, sc, init);
      if After(c, sc, init).Ok? && l.command == ARG {
        var before := After(c, sc, init).value;
        var kv := ArgFields(c.buildArgs, before, l);
        if kv.Ok? {
          assert kv.value[0] != h;
          SameHeading(c, d, h, kv.value[0]);
        }
      }
    }
  }

  lemma {:induction false} SameHeading(c: Context, d: Context, h: string, k: string)
    requires c.headingArgs - {h} == d.headingArgs - {h} && k != h
    ensures Get(c.headingArgs, k) == Get(d.headingArgs, k)
  {
    assert Get(c.headingArgs, k) == Get(c.headingArgs - {h}, k);
    assert Get(d.headingArgs, k) == Get(d.headingArgs - {h}, k);
  }
}
