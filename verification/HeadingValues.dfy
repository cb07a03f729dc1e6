/**
Which value a heading ARG has, told from the ARG lines in front of the first FROM, and what a parameter in a FROM line
stands for.
*/
module HeadingValues {
  import opened Basics
  import opened Strings
  import Resolver
  import opened Scoping
  import opened BuildArgs

  /** A heading ARG line: the key it names and the default it gives. The line that takes a build argument gives none. */
  datatype Naming = Naming(key: string, default: Option<string>)

  predicate NamedIn(ns: seq<Naming>, k: string) { exists i :: 0 <= i < |ns| && ns[i].key == k }

  /** How many lines there are up to the last that gives the key a default, that one included. */
  function GivenEnd(ns: seq<Naming>, k: string): (n: nat)
    ensures n <= |ns| && (n > 0 ==> ns[n - 1].key == k && ns[n - 1].default.Some?)
    ensures forall i :: n <= i < |ns| && ns[i].key == k ==> ns[i].default.None?
  {
    if ns == [] then 0
    else if ns[|ns| - 1].key == k && ns[|ns| - 1].default.Some? then |ns| else GivenEnd(ns[..|ns| - 1], k)
  }

  /** The default given last; without one, the build argument of a named key. */
  function HeadValue(buildArgs: Vars, ns: seq<Naming>, k: string): Option<string> {
    var g := GivenEnd(ns, k);
    if g > 0 then ns[g - 1].default
    else if NamedIn(ns, k) && k in buildArgs then Some(buildArgs[k]) else None
  }

  /** What `$name` stands for in a heading ARG. */
  function InHeading(buildArgs: Vars, ns: seq<Naming>, k: string): string {
    var v := HeadValue(buildArgs, ns, k);
    if v.Some? then v.value else ""
  }

  /** The lines in order. The first line to name a build argument takes it, and its own default is not looked at. */
  function Namings(buildArgs: Vars, heading: seq<string>): Result<seq<Naming>> {
    if heading == [] then Ok([])
    else
      var ns :- Namings(buildArgs, heading[..|heading| - 1]);
      var kv := Split(heading[|heading| - 1], '=');
      var key :- Resolver.Resolve(kv[0], false, k => InHeading(buildArgs, ns, k));
      if (key in buildArgs && !NamedIn(ns, key)) || |kv| < 2 then Ok(ns + [Naming(key, None)])
      else
        var v :- Resolver.Resolve(kv[1], false, k => InHeading(buildArgs, ns, k));
        Ok(ns + [Naming(key, Some(v))])
  }

  ghost predicate HoldingHead(buildArgs: Vars, ns: seq<Naming>, h: Heading) {
    && (forall k :: (if k in h.args then Some(h.args[k]) else None) == HeadValue(buildArgs, ns, k))
    && (forall k :: k in h.left <==> k in buildArgs && !NamedIn(ns, k))
    && (forall k :: k in h.left ==> h.left[k] == buildArgs[k])
  }

  lemma {:induction false} NamedMore(ns: seq<Naming>, n: Naming, k: string)
    ensures NamedIn(ns + [n], k) <==> NamedIn(ns, k) || n.key == k
    ensures GivenEnd(ns + [n], k) == if n.key == k && n.default.Some? then |ns| + 1 else GivenEnd(ns, k)
  {
    var more := ns + [n];
    assert more[..|ns|] == ns && more[|ns|] == n;
    assert forall i :: 0 <= i < |ns| ==> more[i] == ns[i];
  }

  lemma {:induction false} HeadMore(buildArgs: Vars, ns: seq<Naming>, n: Naming, k: string)
    ensures HeadValue(buildArgs, ns + [n], k)
         == if n.key != k then HeadValue(buildArgs, ns, k)
            else if n.default.Some? then n.default
            else if GivenEnd(ns, k) > 0 then HeadValue(buildArgs, ns, k)
            else if k in buildArgs then Some(buildArgs[k]) else None
  {
    hide NamedIn, GivenEnd;
    NamedMore(ns, n, k);
  }

  lemma {:induction false} HoldingGiven(buildArgs: Vars, ns: seq<Naming>, h: Heading, key: string, v: string)
    requires HoldingHead(buildArgs, ns, h) && key !in h.left
    ensures HoldingHead(buildArgs, ns + [Naming(key, Some(v))], h.(args := h.args[key := v]))
  {
    hide NamedIn, HeadValue;
    forall k: string ensures HeadValue(buildArgs, ns + [Naming(key, Some(v))], k)
                          == if k == key then Some(v) else HeadValue(buildArgs, ns, k) {
      HeadMore(buildArgs, ns, Naming(key, Some(v)), k);
    }
    forall k: string ensures NamedIn(ns + [Naming(key, Some(v))], k) <==> NamedIn(ns, k) || k == key {
      NamedMore(ns, Naming(key, Some(v)), k);
    }
  }

  lemma {:induction false} HoldingTaken(buildArgs: Vars, ns: seq<Naming>, h: Heading, key: string)
    requires HoldingHead(buildArgs, ns, h) && key in h.left
    ensures HoldingHead(buildArgs, ns + [Naming(key, None)], Heading(h.args[key := h.left[key]], h.left - {key}))
  {
    var n := Naming(key, None);
    assert GivenEnd(ns, key) == 0 by { NotGiven(ns, key); }
    hide NamedIn, HeadValue, GivenEnd;
    forall k: string ensures HeadValue(buildArgs, ns + [n], k)
                          == if k == key then Some(buildArgs[key]) else HeadValue(buildArgs, ns, k) {
      HeadMore(buildArgs, ns, n, k);
    }
    forall k: string ensures NamedIn(ns + [n], k) <==> NamedIn(ns, k) || k == key { NamedMore(ns, n, k); }
  }

  lemma {:induction false} NotGiven(ns: seq<Naming>, k: string)
    requires !NamedIn(ns, k)
    ensures GivenEnd(ns, k) == 0
  {
  }

  lemma {:induction false} HoldingPlain(buildArgs: Vars, ns: seq<Naming>, h: Heading, key: string)
    requires HoldingHead(buildArgs, ns, h) && key !in h.left
    ensures HoldingHead(buildArgs, ns + [Naming(key, None)], h)
  {
    var n := Naming(key, None);
    if GivenEnd(ns, key) == 0 && key in buildArgs { assert NamedIn(ns, key); }
    forall k: string ensures HeadValue(buildArgs, ns + [n], k) == HeadValue(buildArgs, ns, k) {
      HeadMore(buildArgs, ns, n, k);
    }
    hide NamedIn, HeadValue, GivenEnd;
    forall k: string ensures NamedIn(ns + [n], k) <==> NamedIn(ns, k) || k == key { NamedMore(ns, n, k); }
  }

  lemma {:induction false} HoldingNone(buildArgs: Vars)
    ensures HoldingHead(buildArgs, [], Heading(map[], buildArgs))
  {
  }

  lemma {:induction false} SameHeadLookup(buildArgs: Vars, ns: seq<Naming>, h: Heading)
    requires HoldingHead(buildArgs, ns, h)
    ensures forall k :: Lookup(h.args)(k) == InHeading(buildArgs, ns, k)
    ensures forall k :: k in h.left <==> k in buildArgs && !NamedIn(ns, k)
  {
    hide HeadValue, NamedIn;
  }

  /** The heading ARGs have the values that their lines give them, and the analysis fails exactly where an expansion does. */
  lemma {:induction false} HeadingDecided(buildArgs: Vars, heading: seq<string>)
    ensures Namings(buildArgs, heading).Ok? <==> AfterHeading(buildArgs, heading).Ok?
    ensures Namings(buildArgs, heading).Ok? ==>
      HoldingHead(buildArgs, Namings(buildArgs, heading).value, AfterHeading(buildArgs, heading).value)
  {
    hide HoldingHead, Resolver.Resolve, InHeading, Lookup, NamedIn;
    if heading == [] {
      HoldingNone(buildArgs);
    } else {
      var init, kv := heading[..|heading| - 1], Split(heading[|heading| - 1], '=');
      HeadingDecided(buildArgs, init);
      if AfterHeading(buildArgs, init).Ok? {
        var ns, h := Namings(buildArgs, init).value, AfterHeading(buildArgs, init).value;
        SameHeadLookup(buildArgs, ns, h);
        Resolver.ResolveSame(kv[0], false, Lookup(h.args), k => InHeading(buildArgs, ns, k));
        var key := Resolver.Resolve(kv[0], false, Lookup(h.args));
        if key.Ok? {
          HeadingTurn(buildArgs, ns, h, kv, key.value);
        }
      }
    }
  }

  lemma {:induction false} HeadingTurn(buildArgs: Vars, ns: seq<Naming>, h: Heading, kv: seq<string>, key: string)
    requires HoldingHead(buildArgs, ns, h) && |kv| > 0
    ensures key in h.left <==> key in buildArgs && !NamedIn(ns, key)
    ensures key in h.left ==> HoldingHead(buildArgs, ns + [Naming(key, None)], Heading(h.args[key := h.left[key]], h.left - {key}))
    ensures key !in h.left && |kv| < 2 ==> HoldingHead(buildArgs, ns + [Naming(key, None)], h)
    ensures |kv| >= 2 ==> Resolver.Resolve(kv[1], false, Lookup(h.args)) == Resolver.Resolve(kv[1], false, k => InHeading(buildArgs, ns, k))
    ensures key !in h.left ==> forall v :: HoldingHead(buildArgs, ns + [Naming(key, Some(v))], h.(args := h.args[key := v]))
  {
    SameHeadLookup(buildArgs, ns, h);
    hide HoldingHead, Resolver.Resolve, InHeading, Lookup, NamedIn;
    if |kv| >= 2 { Resolver.ResolveSame(kv[1], false, Lookup(h.args), k => InHeading(buildArgs, ns, k)); }
    if key in h.left {
      HoldingTaken(buildArgs, ns, h, key);
    } else {
      HoldingPlain(buildArgs, ns, h, key);
      forall v: string ensures HoldingHead(buildArgs, ns + [Naming(key, Some(v))], h.(args := h.args[key := v])) {
        HoldingGiven(buildArgs, ns, h, key, v);
      }
    }
  }

  /** Line i is the last to give the key a default. */
  predicate LastGiven(ns: seq<Naming>, i: nat, k: string) {
    && i < |ns| && ns[i].key == k && ns[i].default.Some?
    && forall j :: i < j < |ns| && ns[j].key == k ==> ns[j].default.None?
  }

  lemma {:induction false} LastGivenIs(ns: seq<Naming>, i: nat, k: string)
    ensures LastGiven(ns, i, k) <==> GivenEnd(ns, k) == i + 1
  {
    hide GivenEnd;
    var g := GivenEnd(ns, k);
    if g > 0 { assert ns[g - 1].key == k && ns[g - 1].default.Some?; }
  }

  lemma {:induction false} HeadHolds(buildArgs: Vars, ns: seq<Naming>, h: Heading, k: string)
    requires HoldingHead(buildArgs, ns, h)
    ensures (if k in h.args then Some(h.args[k]) else None) == HeadValue(buildArgs, ns, k)
  {
    hide HeadValue, NamedIn;
  }

  /** So a build argument decides the value of its heading ARG if and only if no later line gives that another default. */
  lemma {:induction false} BuildArgWinsIff(buildArgs: Vars, heading: seq<string>, k: string)
    requires Namings(buildArgs, heading).Ok? && k in buildArgs && NamedIn(Namings(buildArgs, heading).value, k)
    ensures AfterHeading(buildArgs, heading).Ok?
    ensures
      var (ns, args) := (Namings(buildArgs, heading).value, AfterHeading(buildArgs, heading).value.args);
      (k in args && args[k] == buildArgs[k]) <==>
      (forall i: nat :: LastGiven(ns, i, k) ==> ns[i].default.value == buildArgs[k])
  {
    hide Namings, AfterHeading, HoldingHead, NamedIn, LastGiven, GivenEnd;
    HeadingDecided(buildArgs, heading);
    var ns := Namings(buildArgs, heading).value;
    HeadHolds(buildArgs, ns, AfterHeading(buildArgs, heading).value, k);
    forall i: nat ensures LastGiven(ns, i, k) <==> GivenEnd(ns, k) == i + 1 { LastGivenIs(ns, i, k); }
    if GivenEnd(ns, k) > 0 {
      assert LastGiven(ns, GivenEnd(ns, k) - 1, k);
    }
  }

  /** Such a heading: the key is named twice, and the second default beats the build argument. */
  lemma {:induction false} RepeatedHeading(n: string, a: string, b: string, v: string)
    requires Resolver.IsName(n) && (forall i :: 0 <= i < |a| ==> Resolver.NameChar(a[i]))
    requires forall i :: 0 <= i < |b| ==> Resolver.NameChar(b[i])
    ensures AfterHeading(map[n := v], [n + "=" + a, n + "=" + b]) == Ok(Heading(map[n := b], map[]))
  {
    var buildArgs: Vars := map[n := v];
    var one, two := n + "=" + a, n + "=" + b;
    assert [one, two][..1] == [one] && [one][..0] == [];
    hide Resolver.Resolve;
    assert AfterHeading(buildArgs, []) == Ok(Heading(map[], buildArgs));
    OneTurn(Heading(map[], buildArgs), n, a);
    assert map[][n := v] == map[n := v] && buildArgs - {n} == map[];
    assert AfterHeading(buildArgs, [one]) == Ok(Heading(map[n := v], map[]));
    OneTurn(Heading(map[n := v], map[]), n, b);
    assert map[n := v][n := b] == map[n := b];
  }

  lemma {:induction false} OneTurn(h: Heading, n: string, w: string)
    requires Resolver.IsName(n) && forall i :: 0 <= i < |w| ==> Resolver.NameChar(w[i])
    ensures AddHeading(h, n + "=" + w)
         == Ok(if n in h.left then Heading(h.args[n := h.left[n]], h.left - {n}) else h.(args := h.args[n := w]))
  {
    assert n + "=" + w == n + ['='] + w;
    assert '=' !in n by { assert forall i :: 0 <= i < |n| ==> n[i] != '='; }
    assert '=' !in w by { assert forall i :: 0 <= i < |w| ==> w[i] != '='; }
    SplitFirst(n, '=', w);
    SplitNone(w, '=');
    assert Split(n + "=" + w, '=') == [n, w];
    hide Split;
    Resolver.NameItself(n, false, Lookup(h.args));
    Resolver.NameItself(w, false, Lookup(h.args));
    hide Resolver.Scan;
  }

  // ---------- parameters in FROM ----------

  /** `$n` is the value of the heading ARG; `${n:-w}` is w where there is none; `${n:+w}` is w where there is one. */
  lemma {:induction false} SearchMeans(h: Vars, n: string, w: string)
    requires Resolver.IsName(n)
    ensures SearchValue(h, n) == if n in h then h[n] else ""
    ensures PairAt(w, ':', '-') == |w| ==> SearchValue(h, n + ":-" + w) == if n in h then h[n] else w
    ensures PairAt(w, ':', '-') == |w| == PairAt(w, ':', '+') ==> SearchValue(h, n + ":+" + w) == if n in h then w else ""
  {
    assert forall i :: 0 <= i < |n| ==> n[i] != ':';
    assert ':' !in n;
    NoPair(n, '-');
    NoPair(n, '+');
    assert n + ":-" + w == n + [':', '-'] + w && n + ":+" + w == n + [':', '+'] + w;
    PairAfter(n, ':', '-', w);
    PairAfter(n, ':', '+', w);
    var minus, plus := n + ":-" + w, n + ":+" + w;
    assert minus[..|n|] == n && plus[..|n|] == n && minus[|n| + 2..] == w && plus[|n| + 2..] == w;
    if PairAt(w, ':', '-') == |w| {
      assert w[..|w|] == w;
      NoOther(n, '+', w, '-');
      PairFree(plus, '-');
    }
  }

  lemma {:induction false} NoPair(n: string, d: char)
    requires ':' !in n
    ensures PairAt(n, ':', d) == |n|
  {
  }

  lemma {:induction false} PairFree(s: string, d: char)
    requires forall i :: 0 <= i < |s| - 1 ==> !(s[i] == ':' && s[i + 1] == d)
    ensures PairAt(s, ':', d) == |s|
  {
  }

  /** A modifier in between makes no other modifier. */
  lemma {:induction false} NoOther(n: string, x: char, w: string, d: char)
    requires ':' !in n && x != d && x != ':' && PairAt(w, ':', d) == |w|
    ensures var s := n + [':', x] + w; forall i :: 0 <= i < |s| - 1 ==> !(s[i] == ':' && s[i + 1] == d)
  {
    var s := n + [':', x] + w;
    hide PairAt;
    assert forall j :: 0 <= j < |w| - 1 ==> !(w[j] == ':' && w[j + 1] == d);
    forall i | 0 <= i < |s| - 1 ensures !(s[i] == ':' && s[i + 1] == d) {
      if i < |n| {
        assert s[i] == n[i];
      } else if i >= |n| + 2 {
        assert s[i] == w[i - |n| - 2] && s[i + 1] == w[i - |n| - 1];
      }
    }
  }

  /** `FROM $n` and `FROM ${n}`: accepted if and only if the heading ARG has a value that names an image, which it then is. */
  lemma {:induction false} FromParameter(h: Vars, n: string, braced: bool, valid: string -> bool)
    requires Resolver.IsName(n)
    ensures var name := if braced then "${" + n + "}" else "$" + n;
      && (FromOk(h, name, valid) <==> n in h && h[n] != "" && valid(h[n]))
      && (FromOk(h, name, valid) ==> FromImage(h, name, valid) == h[n])
  {
    var t := if braced then Resolver.Braced(n) else Resolver.Bare(n);
    SearchMeans(h, n, "");
    assert !Resolver.HasModifier("");
    OneToken(h, t, valid);
    assert Resolver.PrintToken(t) == if braced then "${" + n + "}" else "$" + n;
  }

  /** `FROM ${n:-w}`: the value of the heading ARG, or w where there is none. An empty one is an error either way. */
  lemma {:induction false} FromDefault(h: Vars, n: string, w: string, valid: string -> bool)
    requires Resolver.Fits(Resolver.Modified(n, false, w), "") && PairAt(w, ':', '-') == |w| && PairAt(w, ':', '+') == |w|
    ensures
      var name := "${" + n + ":-" + w + "}";
      var image := if n in h then h[n] else w;
      && (FromOk(h, name, valid) <==> image != "" && valid(image))
      && (FromOk(h, name, valid) ==> FromImage(h, name, valid) == image)
  {
    var t := Resolver.Modified(n, false, w);
    var arg := n + [':', '-'] + w;
    assert Resolver.IsName(n) && Resolver.ModArg(n, false, w) == arg == n + ":-" + w;
    assert ':' !in n by { assert forall i :: 0 <= i < |n| ==> n[i] != ':'; }
    NoOther(n, '-', w, '+');
    assert !Resolver.HasColon(arg, '+');
    assert Resolver.PrintToken(t) == "${" + n + ":-" + w + "}";
    assert Resolver.Value(t, true, FromLookup(h)) == if SearchValue(h, arg) == "" then Err else Ok(SearchValue(h, arg));
    SearchMeans(h, n, w);
    hide FromOk, FromImage, PairAt, SearchValue, Resolver.Value, Resolver.PrintToken, Resolver.Fits;
    OneToken(h, t, valid);
  }

  /** A name that is one parameter. */
  lemma {:induction false} OneToken(h: Vars, t: Resolver.Token, valid: string -> bool)
    requires Resolver.Fits(t, "") && (t.Braced? || t.Bare? || t.Modified?)
    ensures
      var (name, v) := (Resolver.PrintToken(t), Resolver.Value(t, true, FromLookup(h)));
      && (FromOk(h, name, valid) <==> v.Ok? && valid(v.value))
      && (FromOk(h, name, valid) ==> FromImage(h, name, valid) == v.value)
  {
    var name := Resolver.PrintToken(t);
    TokenText(t);
    TrimSpaceFirm(name);
    Resolver.ScanToken(t, "", true, FromLookup(h), false, false);
    assert name + "" == name;
    var v := Resolver.Value(t, true, FromLookup(h));
    if v.Ok? { assert v.value + "" == v.value; }
    assert Resolver.Resolve(name, true, FromLookup(h)) == v;
    hide Resolver.Resolve, Resolver.Value, Resolver.PrintToken, TrimSpace, Resolver.Fits;
  }

  lemma {:induction false} TokenText(t: Resolver.Token)
    requires Resolver.Fits(t, "") && (t.Braced? || t.Bare? || t.Modified?)
    ensures var name := Resolver.PrintToken(t); Firm(name) && PairAt(name, '\\', '$') == |name|
  {
    var name := Resolver.PrintToken(t);
    if t.Modified? { Resolver.ModArgSpecial(t.name, t.plus, t.word); }
    assert forall i :: 0 <= i < |name| ==> name[i] != '\\';
    assert name[0] == '$' && !IsSpace(name[|name| - 1]);
  }
}
