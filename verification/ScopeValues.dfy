/**
Which value a key has at a line of a stage, told from the lines in front of it: the declarations and settings in order,
and who of them decides. The maps that the analysis changes along the way are proved to hold exactly these values.
*/
module ScopeValues {
  import opened Basics
  import opened Strings
  import Resolver
  import opened Stages
  import opened Scoping

  /** What a line does to a key: `ARG key`, `ARG key=value`, or a cell `key=value` of ENV. */
  datatype Binding = Arg(key: string, default: Option<string>) | Env(key: string, value: string)

  predicate Sets(b: Binding, k: string) { b.Env? && b.key == k }
  predicate Declares(b: Binding, k: string) { b.Arg? && b.key == k }
  predicate Gives(b: Binding, k: string) { Declares(b, k) && b.default.Some? }

  /** How many bindings there are up to the last ENV of the key, that one included. */
  function EnvEnd(bs: seq<Binding>, k: string): (n: nat)
    ensures n <= |bs| && (n > 0 ==> Sets(bs[n - 1], k)) && forall i :: n <= i < |bs| ==> !Sets(bs[i], k)
  {
    if bs == [] then 0 else if Sets(bs[|bs| - 1], k) then |bs| else EnvEnd(bs[..|bs| - 1], k)
  }

  /** The same for the last ARG that gives the key a default. */
  function GiveEnd(bs: seq<Binding>, k: string): (n: nat)
    ensures n <= |bs| && (n > 0 ==> Gives(bs[n - 1], k)) && forall i :: n <= i < |bs| ==> !Gives(bs[i], k)
  {
    if bs == [] then 0 else if Gives(bs[|bs| - 1], k) then |bs| else GiveEnd(bs[..|bs| - 1], k)
  }

  predicate DeclaredFrom(bs: seq<Binding>, n: nat, k: string) { exists i :: n <= i < |bs| && Declares(bs[i], k) }

  function Find(m: Vars, k: string): Option<string> { if k in m then Some(m[k]) else None }

  /** The environment: the last ENV of the key decides. */
  function EnvValue(sc: Scope, bs: seq<Binding>, k: string): Option<string> {
    var e := EnvEnd(bs, k);
    if e > 0 then Some(bs[e - 1].value) else Find(sc.envs, k)
  }

  /**
  The arguments. An ENV of the key takes it away, and only what is behind counts. A declared key has the value of the
  build argument, if there is one. Otherwise it has the default given last, or the value it started with; and where that
  is missing or empty, a declaration without a default behind it brings in the value of the heading ARG.
  */
  function ArgValue(c: Context, sc: Scope, bs: seq<Binding>, k: string): Option<string> {
    var e, g := EnvEnd(bs, k), GiveEnd(bs, k);
    var first := if e > 0 then None else Find(sc.args, k);
    if !DeclaredFrom(bs, e, k) then first
    else if k in c.buildArgs then Some(c.buildArgs[k])
    else
      var own := if g > e then bs[g - 1].default else first;
      if DeclaredFrom(bs, if g > e then g else e, k) && own in {None, Some("")} && Get(c.headingArgs, k) != ""
      then Some(c.headingArgs[k]) else own
  }

  /** What `$name` stands for in an ENV line, and in an ARG line. */
  function InEnv(c: Context, sc: Scope, bs: seq<Binding>, k: string): string {
    match EnvValue(sc, bs, k)
    case Some(v) => v
    case None => var v := ArgValue(c, sc, bs, k); if v.Some? then v.value else ""
  }

  function InArg(c: Context, sc: Scope, bs: seq<Binding>, k: string): string {
    if k in c.buildArgs then c.buildArgs[k] else InEnv(c, sc, bs, k)
  }

  function ArgBinding(text: string): Binding {
    var kv := Split(text, '=');
    Arg(kv[0], if |kv| >= 2 then Some(kv[1]) else None)
  }

  /** The bindings of the cells of an ENV line, each expanded with those in front of it. */
  function Cells(c: Context, sc: Scope, bs: seq<Binding>, cells: seq<string>): Result<seq<Binding>> {
    if cells == [] then Ok(bs)
    else
      var before :- Cells(c, sc, bs, cells[..|cells| - 1]);
      var text :- Resolver.Resolve(cells[|cells| - 1], false, k => InEnv(c, sc, before, k));
      var n := IndexOf(text, '=');
      if n == |text| then Err else Ok(before + [Env(text[..n], text[n + 1..])])
  }

  /** The bindings of the lines of a stage, in order. */
  function Trace(c: Context, sc: Scope, lines: seq<Instruction>): Result<seq<Binding>>
    requires AllParsed(lines)
  {
    if lines == [] then Ok([])
    else
      var bs :- Trace(c, sc, lines[..|lines| - 1]);
      var l := lines[|lines| - 1];
      if l.command == ARG then
        var text :- Resolver.Resolve(l.cells[0], false, k => InArg(c, sc, bs, k));
        Ok(bs + [ArgBinding(text)])
      else if l.command == ENV then Cells(c, sc, bs, l.cells)
      else Ok(bs)
  }

  /** The maps hold the values that the bindings give. */
  ghost predicate Holding(c: Context, sc: Scope, bs: seq<Binding>, now: Scope) {
    forall k :: Find(now.args, k) == ArgValue(c, sc, bs, k) && Find(now.envs, k) == EnvValue(sc, bs, k)
  }

  // ---------- one more binding ----------

  lemma {:induction false} EndsMore(bs: seq<Binding>, b: Binding, k: string)
    ensures EnvEnd(bs + [b], k) == if Sets(b, k) then |bs| + 1 else EnvEnd(bs, k)
    ensures GiveEnd(bs + [b], k) == if Gives(b, k) then |bs| + 1 else GiveEnd(bs, k)
  {
    assert (bs + [b])[..|bs|] == bs;
  }

  lemma {:induction false} DeclaredMore(bs: seq<Binding>, b: Binding, n: nat, k: string)
    requires n <= |bs|
    ensures DeclaredFrom(bs + [b], n, k) <==> DeclaredFrom(bs, n, k) || Declares(b, k)
    ensures !DeclaredFrom(bs + [b], |bs| + 1, k)
    ensures DeclaredFrom(bs, n, k) ==> exists i :: n <= i < |bs| && Declares(bs[i], k)
  {
    var more := bs + [b];
    assert forall i :: 0 <= i < |bs| ==> more[i] == bs[i];
    assert more[|bs|] == b;
  }

  /** A binding of another key changes nothing. */
  lemma {:induction false} OtherKey(c: Context, sc: Scope, bs: seq<Binding>, b: Binding, k: string)
    requires b.key != k
    ensures ArgValue(c, sc, bs + [b], k) == ArgValue(c, sc, bs, k) && EnvValue(sc, bs + [b], k) == EnvValue(sc, bs, k)
  {
    hide DeclaredFrom, EnvEnd, GiveEnd;
    EndsMore(bs, b, k);
    var e, g := EnvEnd(bs, k), GiveEnd(bs, k);
    DeclaredMore(bs, b, e, k);
    DeclaredMore(bs, b, if g > e then g else e, k);
  }

  lemma {:induction false} SetKey(c: Context, sc: Scope, bs: seq<Binding>, k: string, v: string)
    ensures ArgValue(c, sc, bs + [Env(k, v)], k) == None && EnvValue(sc, bs + [Env(k, v)], k) == Some(v)
  {
    hide EnvEnd, GiveEnd;
    EndsMore(bs, Env(k, v), k);
    DeclaredMore(bs, Env(k, v), |bs|, k);
  }

  /** A declaration: the build argument, else the default, else the heading value where there was none or an empty one. */
  lemma {:induction false} DeclareKey(c: Context, sc: Scope, bs: seq<Binding>, k: string, d: Option<string>)
    ensures EnvValue(sc, bs + [Arg(k, d)], k) == EnvValue(sc, bs, k)
    ensures var was := ArgValue(c, sc, bs, k);
      ArgValue(c, sc, bs + [Arg(k, d)], k)
      == if k in c.buildArgs then Some(c.buildArgs[k]) else if d.Some? then d
         else if was in {None, Some("")} && Get(c.headingArgs, k) != "" then Some(c.headingArgs[k]) else was
  {
    hide DeclaredFrom, EnvEnd, GiveEnd;
    var b := Arg(k, d);
    EndsMore(bs, b, k);
    var e, g := EnvEnd(bs, k), GiveEnd(bs, k);
    DeclaredMore(bs, b, e, k);
    DeclaredMore(bs, b, if g > e then g else e, k);
    if g > e { GivenIsDeclared(bs, e, g, k); }
    if DeclaredFrom(bs, if g > e then g else e, k) { DeclaredEarlier(bs, e, g, k); }
  }

  lemma {:induction false} GivenIsDeclared(bs: seq<Binding>, e: nat, g: nat, k: string)
    requires e < g <= |bs| && Gives(bs[g - 1], k)
    ensures DeclaredFrom(bs, e, k)
  {
  }

  lemma {:induction false} DeclaredEarlier(bs: seq<Binding>, e: nat, g: nat, k: string)
    requires DeclaredFrom(bs, if g > e then g else e, k)
    ensures DeclaredFrom(bs, e, k)
  {
  }

  // ---------- the maps along a stage ----------

  lemma {:induction false} HoldingArg(c: Context, sc: Scope, bs: seq<Binding>, now: Scope, kv: seq<string>)
    requires Holding(c, sc, bs, now) && |kv| > 0
    ensures Holding(c, sc, bs + [Arg(kv[0], if |kv| >= 2 then Some(kv[1]) else None)], Declare(c, now, kv))
  {
    hide ArgValue, EnvValue;
    var b := Arg(kv[0], if |kv| >= 2 then Some(kv[1]) else None);
    var end := Declare(c, now, kv);
    forall k ensures Find(end.args, k) == ArgValue(c, sc, bs + [b], k) && Find(end.envs, k) == EnvValue(sc, bs + [b], k) {
      assert Find(now.args, k) == ArgValue(c, sc, bs, k) && Find(now.envs, k) == EnvValue(sc, bs, k);
      if k == kv[0] { DeclareKey(c, sc, bs, k, b.default); } else { OtherKey(c, sc, bs, b, k); }
    }
  }

  lemma {:induction false} HoldingCell(c: Context, sc: Scope, bs: seq<Binding>, now: Scope, key: string, v: string)
    requires Holding(c, sc, bs, now)
    ensures Holding(c, sc, bs + [Env(key, v)], now.(envs := now.envs[key := v], args := now.args - {key}))
  {
    hide ArgValue, EnvValue;
    var b := Env(key, v);
    var end := now.(envs := now.envs[key := v], args := now.args - {key});
    forall k ensures Find(end.args, k) == ArgValue(c, sc, bs + [b], k) && Find(end.envs, k) == EnvValue(sc, bs + [b], k) {
      assert Find(now.args, k) == ArgValue(c, sc, bs, k) && Find(now.envs, k) == EnvValue(sc, bs, k);
      if k == key { SetKey(c, sc, bs, k, v); } else { OtherKey(c, sc, bs, b, k); }
    }
  }

  lemma {:induction false} SameLookups(c: Context, sc: Scope, bs: seq<Binding>, now: Scope)
    requires Holding(c, sc, bs, now)
    ensures forall k :: EnvLookup(now.args, now.envs)(k) == InEnv(c, sc, bs, k)
    ensures forall k :: ArgLookup(c.buildArgs, now.args, now.envs)(k) == InArg(c, sc, bs, k)
  {
    hide ArgValue, EnvValue;
    forall k: string
      ensures EnvLookup(now.args, now.envs)(k) == InEnv(c, sc, bs, k)
      ensures ArgLookup(c.buildArgs, now.args, now.envs)(k) == InArg(c, sc, bs, k)
    {
      assert Find(now.args, k) == ArgValue(c, sc, bs, k) && Find(now.envs, k) == EnvValue(sc, bs, k);
    }
  }

  lemma {:induction false} CellsAgree(c: Context, sc: Scope, bs: seq<Binding>, now: Scope, cells: seq<string>)
    requires Holding(c, sc, bs, now)
    ensures Cells(c, sc, bs, cells).Ok? <==> AfterEnv(now, cells).Ok?
    ensures Cells(c, sc, bs, cells).Ok? ==> Holding(c, sc, Cells(c, sc, bs, cells).value, AfterEnv(now, cells).value)
  {
    hide Holding, Resolver.Resolve, InEnv, EnvLookup;
    if cells != [] {
      var init, cell := cells[..|cells| - 1], cells[|cells| - 1];
      CellsAgree(c, sc, bs, now, init);
      if AfterEnv(now, init).Ok? {
        var before, mid := Cells(c, sc, bs, init).value, AfterEnv(now, init).value;
        SameLookups(c, sc, before, mid);
        Resolver.ResolveSame(cell, false, EnvLookup(mid.args, mid.envs), k => InEnv(c, sc, before, k));
        var text := Resolver.Resolve(cell, false, EnvLookup(mid.args, mid.envs));
        if text.Ok? {
          var n := IndexOf(text.value, '=');
          if n < |text.value| { HoldingCell(c, sc, before, mid, text.value[..n], text.value[n + 1..]); }
        }
      }
    }
  }

  lemma {:induction false} HoldingNothing(c: Context, sc: Scope)
    ensures Holding(c, sc, [], sc)
  {
  }

  /**
  At every line of a stage, the arguments and the environment are those that the lines in front of it give; and the
  analysis fails exactly where a text cannot be expanded or an ENV cell has no equals sign.
  */
  lemma {:induction false} ValuesDecided(c: Context, sc: Scope, lines: seq<Instruction>)
    requires AllParsed(lines)
    ensures Trace(c, sc, lines).Ok? <==> After(c, sc, lines).Ok?
    ensures Trace(c, sc, lines).Ok? ==> Holding(c, sc, Trace(c, sc, lines).value, After(c, sc, lines).value)
  {
    hide Holding, Resolver.Resolve, InArg, ArgLookup, Declare, AfterEnv, Cells;
    if lines == [] {
      HoldingNothing(c, sc);
    } else {
      var init, l := lines[..|lines| - 1], lines[|lines| - 1];
      ValuesDecided(c, sc, init);
      if After(c, sc, init).Ok? {
        var bs, now := Trace(c, sc, init).value, After(c, sc, init).value;
        if l.command == ARG {
          SameLookups(c, sc, bs, now);
          Resolver.ResolveSame(l.cells[0], false, ArgLookup(c.buildArgs, now.args, now.envs), k => InArg(c, sc, bs, k));
          var text := Resolver.Resolve(l.cells[0], false, ArgLookup(c.buildArgs, now.args, now.envs));
          if text.Ok? { HoldingArg(c, sc, bs, now, Split(text.value, '=')); }
        } else if l.command == ENV {
          CellsAgree(c, sc, bs, now, l.cells);
        }
      }
    }
  }

  /**
  What the command of a line sees: the values that the lines in front of it give. An ARG line also sees its own argument,
  an ENV line what it sets itself.
  */
  lemma {:induction false} CommandSees(c: Context, sc: Scope, lines: seq<Instruction>, n: nat)
    requires AllParsed(lines) && n < |lines| && Seen(c, sc, lines, n).Ok?
    ensures Trace(c, sc, lines[..n]).Ok? && Trace(c, sc, lines[..n + 1]).Ok?
    ensures
      var (args, envs) := Seen(c, sc, lines, n).value;
      var (a, e) := (if lines[n].command == ARG then n + 1 else n, if lines[n].command == ENV then n + 1 else n);
      && (forall k :: Find(args, k) == ArgValue(c, sc, Trace(c, sc, lines[..a]).value, k))
      && (forall k :: Find(envs, k) == EnvValue(sc, Trace(c, sc, lines[..e]).value, k))
  {
    hide ArgValue, EnvValue, Trace, After;
    ValuesDecided(c, sc, lines[..n]);
    ValuesDecided(c, sc, lines[..n + 1]);
  }
}
