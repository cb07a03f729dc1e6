/**
Parameter expansion in Dockerfile words: `$name`, `${name}`, `${name:-word}` and `${name:+word}`.

The scanner keeps an index into the word. `Scan` describes what it computes from any index on; `Eval` gives the
meaning of a word as a list of tokens, and the two are proved to agree.
*/
module Resolver {
  import opened Basics
  import Decimal

  predicate Letter(c: char) { 'a' <= c <= 'z' || 'A' <= c <= 'Z' }
  predicate NameChar(c: char) { Letter(c) || Decimal.Digit(c) || c == '-' || c == '_' }
  predicate SpecialChar(c: char) { NameChar(c) || c == '+' || c == ':' }

  /** The length of the longest prefix of characters allowed in a name. */
  function NameRun(s: string): (n: nat)
    ensures n <= |s|
    ensures forall i :: 0 <= i < n ==> NameChar(s[i])
    ensures n < |s| ==> !NameChar(s[n])
  {
    if s == "" || !NameChar(s[0]) then 0 else 1 + NameRun(s[1..])
  }

  function SpecialRun(s: string): (n: nat)
    ensures n <= |s|
  {
    if s == "" || !SpecialChar(s[0]) then 0 else 1 + SpecialRun(s[1..])
  }

  /** The match of `^[a-zA-Z][a-zA-Z0-9\-_]*`; 0 when there is none. */
  function NameLen(s: string): (n: nat)
    ensures n <= |s|
  {
    if s == "" || !Letter(s[0]) then 0 else 1 + NameRun(s[1..])
  }

  /** The leftmost match of `[a-zA-Z][a-zA-Z0-9\-\+_:]+`, which need not be at the start. */
  function SpecialMatch(s: string): (r: Option<(nat, nat)>)
    ensures r.Some? ==> r.value.0 < r.value.1 <= |s|
  {
    if s == "" then None
    else if Letter(s[0]) && SpecialRun(s[1..]) > 0 then Some((0, 1 + SpecialRun(s[1..])))
    else match SpecialMatch(s[1..])
         case None => None
         case Some((a, b)) => Some((a + 1, b + 1))
  }

  /** `strings.Contains(s, ":" + [c])` */
  predicate HasColon(s: string, c: char) {
    exists i :: 0 <= i < |s| - 1 && s[i] == ':' && s[i + 1] == c
  }

  predicate HasModifier(s: string) { HasColon(s, '-') || HasColon(s, '+') }

  /** Where the argument of a braced parameter sits in the text after `${`. */
  function BraceMatch(sub: string): (r: Option<(nat, nat)>)
    ensures r.Some? ==> r.value.0 < r.value.1 <= |sub|
  {
    if HasModifier(sub) then SpecialMatch(sub)
    else if NameLen(sub) == 0 then None
    else Some((0, NameLen(sub)))
  }

  function Prepend(p: string, r: Result<string>): Result<string> {
    if r.Err? then Err else Ok(p + r.value)
  }

  // ---------- what the scanner computes ----------

  /** The expansion of the rest of a word, given the state of the two quote flags. */
  function Scan(rest: string, strict: bool, f: string -> string, sq: bool, dq: bool): Result<string>
    decreases |rest|, 1
  {
    if rest == "" then if sq || dq then Err else Ok("")
    else if rest[0] == '$' then ScanDollar(rest[1..], strict, f, sq, dq)
    else if rest[0] == '\'' then Scan(rest[1..], strict, f, !sq, dq)
    else if rest[0] == '"' then Scan(rest[1..], strict, f, sq, !dq)
    else if rest[0] == '\\' && |rest| > 1 && rest[1] == '$' then Prepend(rest[..2], Scan(rest[2..], strict, f, sq, dq))
    else Prepend(rest[..1], Scan(rest[1..], strict, f, sq, dq))
  }

  function ScanDollar(r: string, strict: bool, f: string -> string, sq: bool, dq: bool): Result<string>
    decreases |r|, 2
  {
    if r == "" then Err
    else if r[0] != '{' then
      var n := NameLen(r);
      if n == 0 then if strict then Err else Scan(r[1..], strict, f, sq, dq)
      else if f(r[..n]) == "" && strict then Err
      else Prepend(f(r[..n]), Scan(r[n..], strict, f, sq, dq))
    else ScanBrace(r[1..], strict, f, sq, dq)
  }

  function ScanBrace(sub: string, strict: bool, f: string -> string, sq: bool, dq: bool): Result<string>
    decreases |sub|, 2
  {
    if sub == "" || sub[0] == '}' then Err
    else match BraceMatch(sub)
         case None => Err
         case Some((a, b)) =>
           if f(sub[a..b]) == "" && !HasColon(sub[a..b], '+') && strict then Err
           else if b >= |sub| || sub[b] != '}' then Err
           else Prepend(f(sub[a..b]), Scan(sub[b + 1..], strict, f, sq, dq))
  }

  /** `ResolveParam` */
  function Resolve(s: string, strict: bool, f: string -> string): Result<string> {
    Scan(s, strict, f, false, false)
  }

  /** The arguments that the scan hands to the resolving function, in order, up to its end or first error. */
  function Asked(rest: string, strict: bool, f: string -> string): seq<string>
    decreases |rest|, 1
  {
    if rest == "" then []
    else if rest[0] == '$' then AskedDollar(rest[1..], strict, f)
    else if rest[0] == '\\' && |rest| > 1 && rest[1] == '$' then Asked(rest[2..], strict, f)
    else Asked(rest[1..], strict, f)
  }

  function AskedDollar(r: string, strict: bool, f: string -> string): seq<string>
    decreases |r|, 2
  {
    if r == "" then []
    else if r[0] != '{' then
      var n := NameLen(r);
      if n == 0 then if strict then [] else Asked(r[1..], strict, f)
      else [r[..n]] + if f(r[..n]) == "" && strict then [] else Asked(r[n..], strict, f)
    else AskedBrace(r[1..], strict, f)
  }

  function AskedBrace(sub: string, strict: bool, f: string -> string): seq<string>
    decreases |sub|, 2
  {
    if sub == "" || sub[0] == '}' then []
    else match BraceMatch(sub)
         case None => []
         case Some((a, b)) =>
           [sub[a..b]]
           + if (f(sub[a..b]) == "" && !HasColon(sub[a..b], '+') && strict) || b >= |sub| || sub[b] != '}' then []
             else Asked(sub[b + 1..], strict, f)
  }

  // ---------- the scanner as it runs ----------

  class Scanner {
    const origin: string
    const strict: bool
    const f: string -> string
    var resolved: string
    var asked: seq<string>
    var idx: nat
    var singleQuotes: bool
    var doubleQuotes: bool

    constructor (s: string, strict: bool, f: string -> string)
      ensures origin == s && this.strict == strict && this.f == f
      ensures resolved == "" && asked == [] && idx == 0 && !singleQuotes && !doubleQuotes
    {
      asked := [];
      origin, this.strict, this.f := s, strict, f;
      resolved, idx, singleQuotes, doubleQuotes := "", 0, false, false;
    }

    /** What the scanner will return from here. */
    ghost function Goal(): Result<string>
      requires idx <= |origin|
      reads this
    {
      Prepend(resolved, Scan(origin[idx..], strict, f, singleQuotes, doubleQuotes))
    }

    /** What it will have asked for. */
    ghost function Questions(): seq<string>
      requires idx <= |origin|
      reads this
    {
      asked + Asked(origin[idx..], strict, f)
    }

    /** `noDollar`: the index moves on and the final result is not affected. */
    method NoDollar()
      requires idx < |origin| && origin[idx] != '$'
      modifies this
      ensures old(idx) < idx <= |origin| && Goal() == old(Goal()) && Questions() == old(Questions())
    {
      var c := origin[idx];
      assert origin[idx..][1..] == origin[idx + 1..];
      if c == '\'' {
        singleQuotes := !singleQuotes;
        idx := idx + 1;
        return;
      }
      if c == '"' {
        doubleQuotes := !doubleQuotes;
        idx := idx + 1;
        return;
      }
      if c == '\\' && idx + 1 < |origin| && origin[idx + 1] == '$' {
        assert origin[idx..][..2] == origin[idx..idx + 2];
        assert origin[idx..][2..] == origin[idx + 2..];
        AppendPrepend(resolved, origin[idx..idx + 2], Scan(origin[idx + 2..], strict, f, singleQuotes, doubleQuotes));
        resolved := resolved + origin[idx..idx + 2];
        idx := idx + 2;
        return;
      }
      assert origin[idx..][..1] == [c];
      AppendPrepend(resolved, [c], Scan(origin[idx + 1..], strict, f, singleQuotes, doubleQuotes));
      resolved := resolved + [c];
      idx := idx + 1;
    }

    /** `noBrace`, with the index on the character after `$`. */
    method NoBrace() returns (ok: bool)
      requires 0 < idx < |origin| && origin[idx] != '{'
      modifies this
      ensures var goal := Prepend(old(resolved), ScanDollar(old(origin[idx..]), strict, f, old(singleQuotes), old(doubleQuotes)));
        if ok then old(idx) < idx <= |origin| && Goal() == goal else goal == Err
      ensures ok ==> Questions() == old(asked) + AskedDollar(old(origin[idx..]), strict, f)
    {
      hide NameLen, Scan, Prepend, Asked;
      NoValue(resolved);
      var n := NameLen(origin[idx..]);
      assert origin[idx..][1..] == origin[idx + 1..];
      if n == 0 {
        if strict { return false; }
        idx := idx + 1;
        return true;
      }
      var val := f(origin[idx..idx + n]);
      assert origin[idx..][..n] == origin[idx..idx + n] && origin[idx..][n..] == origin[idx + n..];
      if |val| == 0 && strict { return false; }
      AppendPrepend(resolved, val, Scan(origin[idx + n..], strict, f, singleQuotes, doubleQuotes));
      resolved := resolved + val;
      OneQuestion(asked, origin[idx..idx + n], Asked(origin[idx + n..], strict, f));
      asked := asked + [origin[idx..idx + n]];
      idx := idx + n;
      ok := true;
    }

    /** `inBrace`, with the index on the opening brace. */
    method InBrace() returns (ok: bool)
      requires 0 < idx < |origin| && origin[idx] == '{'
      modifies this
      ensures var goal := Prepend(old(resolved), ScanDollar(old(origin[idx..]), strict, f, old(singleQuotes), old(doubleQuotes)));
        if ok then old(idx) < idx <= |origin| && Goal() == goal else goal == Err
      ensures ok ==> Questions() == old(asked) + AskedDollar(old(origin[idx..]), strict, f)
    {
      hide BraceMatch, HasColon, Scan, Prepend, Asked;
      NoValue(resolved);
      assert origin[idx..][1..] == origin[idx + 1..];
      idx := idx + 1;
      if idx == |origin| || origin[idx] == '}' { return false; }
      var sub := origin[idx..];
      var m := BraceMatch(sub);
      if m.None? { return false; }
      var (a, b) := m.value;
      var arg := sub[a..b];
      var val := f(arg);
      if |val| == 0 && !HasColon(arg, '+') && strict { return false; }
      if idx + b >= |origin| || origin[idx + b] != '}' { return false; }
      assert sub[b + 1..] == origin[idx + b + 1..];
      AppendPrepend(resolved, val, Scan(sub[b + 1..], strict, f, singleQuotes, doubleQuotes));
      resolved := resolved + val;
      OneQuestion(asked, arg, Asked(sub[b + 1..], strict, f));
      asked := asked + [arg];
      idx := idx + b + 1;
      ok := true;
    }

    /** The loop of `ResolveParam`. It ends on every input because the index never stands still. */
    method Run() returns (r: Result<string>)
      requires idx == 0 && resolved == "" && asked == [] && !singleQuotes && !doubleQuotes
      modifies this
      ensures r == Resolve(origin, strict, f) && (r.Ok? ==> asked == Asked(origin, strict, f))
    {
      hide AskedDollar;
      assert origin[0..] == origin;
      assert [] + Asked(origin, strict, f) == Asked(origin, strict, f);
      PrependNothing(Scan(origin, strict, f, false, false));
      while idx < |origin|
        invariant idx <= |origin| && Goal() == Resolve(origin, strict, f) && Questions() == Asked(origin, strict, f)
        decreases |origin| - idx
      {
        if origin[idx] != '$' {
          NoDollar();
          continue;
        }
        assert origin[idx..][1..] == origin[idx + 1..];
        assert Goal() == Prepend(resolved, ScanDollar(origin[idx + 1..], strict, f, singleQuotes, doubleQuotes));
        assert Questions() == asked + AskedDollar(origin[idx + 1..], strict, f);
        idx := idx + 1;
        if idx == |origin| {
          assert origin[idx..] == "";
          return Err;
        }
        var ok;
        if origin[idx] != '{' {
          ok := NoBrace();
        } else {
          ok := InBrace();
        }
        if !ok { return Err; }
      }
      assert origin[idx..] == "";
      if singleQuotes || doubleQuotes { return Err; }
      assert resolved + "" == resolved && asked + [] == asked;
      r := Ok(resolved);
    }
  }

  lemma {:induction false} AppendPrepend(a: string, b: string, r: Result<string>)
    ensures Prepend(a + b, r) == Prepend(a, Prepend(b, r))
  {
    if r.Ok? {
      assert a + b + r.value == a + (b + r.value);
    }
  }

  lemma {:induction false} OneQuestion(a: seq<string>, q: string, b: seq<string>)
    ensures a + [q] + b == a + ([q] + b)
  {
  }

  lemma {:induction false} NoValue(p: string)
    ensures Prepend(p, Err) == Err
  {
  }

  lemma {:induction false} PrependNothing(r: Result<string>)
    ensures Prepend("", r) == r
  {
    if r.Ok? {
      assert "" + r.value == r.value;
    }
  }

  /** The expansion depends on nothing but the values of the resolving function. */
  lemma {:induction false} ScanSame(rest: string, strict: bool, f: string -> string, g: string -> string, sq: bool, dq: bool)
    requires forall x :: f(x) == g(x)
    ensures Scan(rest, strict, f, sq, dq) == Scan(rest, strict, g, sq, dq)
    decreases |rest|, 1
  {
    hide ScanDollar, Prepend;
    if rest != "" {
      if rest[0] == '$' {
        DollarSame(rest[1..], strict, f, g, sq, dq);
      } else if rest[0] == '\\' && |rest| > 1 && rest[1] == '$' {
        ScanSame(rest[2..], strict, f, g, sq, dq);
      } else {
        ScanSame(rest[1..], strict, f, g, if rest[0] == '\'' then !sq else sq, if rest[0] == '"' then !dq else dq);
      }
    }
  }

  lemma {:induction false} DollarSame(r: string, strict: bool, f: string -> string, g: string -> string, sq: bool, dq: bool)
    requires forall x :: f(x) == g(x)
    ensures ScanDollar(r, strict, f, sq, dq) == ScanDollar(r, strict, g, sq, dq)
    decreases |r|, 2
  {
    hide Scan, ScanBrace, Prepend, NameLen;
    if r != "" {
      if r[0] == '{' {
        BraceSame(r[1..], strict, f, g, sq, dq);
      } else {
        var n := NameLen(r);
        ScanSame(r[if n == 0 then 1 else n..], strict, f, g, sq, dq);
      }
    }
  }

  lemma {:induction false} BraceSame(sub: string, strict: bool, f: string -> string, g: string -> string, sq: bool, dq: bool)
    requires forall x :: f(x) == g(x)
    ensures ScanBrace(sub, strict, f, sq, dq) == ScanBrace(sub, strict, g, sq, dq)
    decreases |sub|, 2
  {
    hide Scan, Prepend, BraceMatch, HasColon;
    var m := BraceMatch(sub);
    if m.Some? && m.value.1 < |sub| { ScanSame(sub[m.value.1 + 1..], strict, f, g, sq, dq); }
  }

  lemma {:induction false} ResolveSame(s: string, strict: bool, f: string -> string, g: string -> string)
    requires forall x :: f(x) == g(x)
    ensures Resolve(s, strict, f) == Resolve(s, strict, g)
  {
    ScanSame(s, strict, f, g, false, false);
  }

  /** Expand one word. */
  method ResolveParam(s: string, strict: bool, f: string -> string) returns (r: Result<string>)
    ensures r == Resolve(s, strict, f)
  {
    var scanner := new Scanner(s, strict, f);
    r := scanner.Run();
  }

  /** The same, and what the resolving function was asked for on the way. */
  method ResolveAsking(s: string, strict: bool, f: string -> string) returns (r: Result<string>, asked: seq<string>)
    ensures r == Resolve(s, strict, f) && (r.Ok? ==> asked == Asked(s, strict, f))
  {
    var scanner := new Scanner(s, strict, f);
    r := scanner.Run();
    asked := scanner.asked;
  }

  // ---------- what a word means ----------

  /** Junk(c) is a dollar sign before a character that starts no name. */
  datatype Token = Text(c: char) | Quote(double: bool) | Escaped | Braced(name: string) | Bare(name: string) | Junk(c: char)
                 | Modified(name: string, plus: bool, word: string)   // ${name:+word} or ${name:-word}

  /** What is handed to the resolving function for `${name:+word}` and `${name:-word}`. */
  function ModArg(name: string, plus: bool, word: string): string {
    name + (if plus then ":+" else ":-") + word
  }

  predicate IsName(s: string) {
    s != "" && Letter(s[0]) && forall i :: 0 <= i < |s| ==> NameChar(s[i])
  }

  function PrintToken(t: Token): (s: string)
    ensures s != ""
  {
    match t
    case Text(c) => [c]
    case Quote(d) => if d then "\"" else "'"
    case Escaped => "\\$"
    case Braced(n) => "${" + n + "}"
    case Bare(n) => "$" + n
    case Junk(c) => ['$', c]
    case Modified(n, plus, w) => "${" + ModArg(n, plus, w) + "}"
  }

  function Print(ts: seq<Token>): string {
    if ts == [] then "" else PrintToken(ts[0]) + Print(ts[1..])
  }

  /**
  A token that reads back as itself in front of `next`. A one-letter name in braces does so only when no modifier
  follows anywhere in the word.
  */
  predicate Fits(t: Token, next: string) {
    match t
    case Text(c) => c != '$' && c != '\'' && c != '"' && (c == '\\' ==> next == "" || next[0] != '$')
    case Quote(_) => true
    case Escaped => true
    case Braced(n) => IsName(n) && (|n| == 1 ==> !HasModifier(next))
    case Modified(n, _, w) => IsName(n) && forall i :: 0 <= i < |w| ==> SpecialChar(w[i])
    case Bare(n) => IsName(n) && (next == "" || !NameChar(next[0]))
    case Junk(c) => !Letter(c) && c != '{'
  }

  predicate WellFormed(ts: seq<Token>) {
    ts != [] ==> Fits(ts[0], Print(ts[1..])) && WellFormed(ts[1..])
  }

  /** The value of one token; Err only in strict mode. */
  function Value(t: Token, strict: bool, f: string -> string): Result<string> {
    match t
    case Text(c) => Ok([c])
    case Quote(_) => Ok("")
    case Escaped => Ok("\\$")
    case Braced(n) => if f(n) == "" && strict then Err else Ok(f(n))
    case Bare(n) => if f(n) == "" && strict then Err else Ok(f(n))
    case Junk(_) => if strict then Err else Ok("")
    case Modified(n, plus, w) =>
      var arg := ModArg(n, plus, w);
      if f(arg) == "" && strict && !HasColon(arg, '+') then Err else Ok(f(arg))
  }

  /** The meaning of a word: the values put together, provided both kinds of quotes are balanced. */
  function Eval(ts: seq<Token>, strict: bool, f: string -> string, sq: bool, dq: bool): Result<string> {
    if ts == [] then if sq || dq then Err else Ok("")
    else
      var v :- Value(ts[0], strict, f);
      Prepend(v, Eval(ts[1..], strict, f,
                      if ts[0] == Quote(false) then !sq else sq, if ts[0] == Quote(true) then !dq else dq))
  }

  lemma {:induction false} NoModifierAfter(a: string, b: string)
    requires !HasModifier(a + b)
    ensures !HasModifier(b)
  {
    forall i | 0 <= i < |b| - 1
      ensures !(b[i] == ':' && (b[i + 1] == '-' || b[i + 1] == '+'))
    {
      var j := |a| + i;
      assert (a + b)[j] == b[i] && (a + b)[j + 1] == b[i + 1];
    }
  }

  lemma {:induction false} NameRunOf(n: string, next: string)
    requires forall i :: 0 <= i < |n| ==> NameChar(n[i])
    requires next == "" || !NameChar(next[0])
    ensures NameRun(n + next) == |n|
  {
    if n == "" {
      assert n + next == next;
    } else {
      assert (n + next)[1..] == n[1..] + next;
      NameRunOf(n[1..], next);
    }
  }

  lemma {:induction false} NameLenOf(n: string, next: string)
    requires IsName(n) && (next == "" || !NameChar(next[0]))
    ensures NameLen(n + next) == |n|
  {
    assert (n + next)[1..] == n[1..] + next;
    NameRunOf(n[1..], next);
  }

  /** A modifier after a closed brace is a modifier of what follows. */
  lemma {:induction false} ModifierAfterBrace(n: string, next: string)
    requires forall i :: 0 <= i < |n| ==> NameChar(n[i])
    ensures HasModifier(n + ("}" + next)) <==> HasModifier(next)
  {
    var s := n + ("}" + next);
    var k := |n| + 1;
    assert forall i :: 0 <= i < |next| ==> s[k + i] == next[i];
    assert forall i :: 0 <= i < |n| ==> s[i] == n[i];
    assert s[|n|] == '}';
    forall c | c == '-' || c == '+' ensures HasColon(s, c) <==> HasColon(next, c) {
      if HasColon(s, c) {
        var i :| 0 <= i < |s| - 1 && s[i] == ':' && s[i + 1] == c;
        assert i >= k;
        assert next[i - k] == ':' && next[i - k + 1] == c;
      }
      if HasColon(next, c) {
        var i :| 0 <= i < |next| - 1 && next[i] == ':' && next[i + 1] == c;
        assert s[k + i] == ':' && s[k + i + 1] == c;
      }
    }
  }

  lemma {:induction false} SpecialRunOf(n: string, next: string)
    requires forall i :: 0 <= i < |n| ==> SpecialChar(n[i])
    requires next != "" && !SpecialChar(next[0])
    ensures SpecialRun(n + next) == |n|
  {
    if n == "" {
      assert n + next == next;
    } else {
      assert (n + next)[1..] == n[1..] + next;
      SpecialRunOf(n[1..], next);
    }
  }

  /** In braces, an argument of at least two characters is found whether or not a modifier is around. */
  lemma {:induction false} SpecialMatchOf(arg: string, next: string)
    requires |arg| >= 2 && Letter(arg[0]) && forall i :: 0 <= i < |arg| ==> SpecialChar(arg[i])
    ensures SpecialMatch(arg + ("}" + next)) == Some((0, |arg|))
  {
    var s := arg + ("}" + next);
    assert s[1..] == arg[1..] + ("}" + next);
    SpecialRunOf(arg[1..], "}" + next);
  }

  /** Once the argument is located, a braced parameter is worth what the resolving function makes of it. */
  lemma {:induction false} ScanMatched(arg: string, next: string, strict: bool, f: string -> string, sq: bool, dq: bool)
    requires arg != "" && arg[0] != '}' && BraceMatch(arg + ("}" + next)) == Some((0, |arg|))
    ensures Scan("${" + arg + "}" + next, strict, f, sq, dq)
         == if f(arg) == "" && !HasColon(arg, '+') && strict then Err else Prepend(f(arg), Scan(next, strict, f, sq, dq))
  {
    var s := "${" + arg + "}" + next;
    var sub := arg + ("}" + next);
    assert s == "${" + sub;
    assert s[1..] == "{" + sub && s[1..][1..] == sub;
    assert sub[0..|arg|] == arg && sub[|arg|] == '}' && sub[|arg| + 1..] == next;
    assert Scan(s, strict, f, sq, dq) == ScanDollar(s[1..], strict, f, sq, dq);
    assert ScanDollar(s[1..], strict, f, sq, dq) == ScanBrace(sub, strict, f, sq, dq);
  }

  lemma {:induction false} ScanBraced(n: string, next: string, strict: bool, f: string -> string, sq: bool, dq: bool)
    requires IsName(n) && (|n| == 1 ==> !HasModifier(next))
    ensures Scan("${" + n + "}" + next, strict, f, sq, dq)
         == if f(n) == "" && strict then Err else Prepend(f(n), Scan(next, strict, f, sq, dq))
  {
    ModifierAfterBrace(n, next);
    assert forall i :: 0 <= i < |n| ==> n[i] != ':';
    if HasModifier(next) {
      SpecialMatchOf(n, next);
    } else {
      NameLenOf(n, "}" + next);
    }
    hide HasModifier, IsName;
    ScanMatched(n, next, strict, f, sq, dq);
  }

  lemma {:induction false} ModArgSpecial(n: string, plus: bool, w: string)
    requires Fits(Modified(n, plus, w), "")
    ensures var arg := ModArg(n, plus, w);
      && |arg| >= 2 && arg[0] == n[0] && (forall i :: 0 <= i < |arg| ==> SpecialChar(arg[i]))
      && arg[|n|] == ':' && arg[|n| + 1] == if plus then '+' else '-'
  {
    var arg := ModArg(n, plus, w);
    forall i | 0 <= i < |arg| ensures SpecialChar(arg[i]) {
      if i < |n| { assert arg[i] == n[i]; } else if i >= |n| + 2 { assert arg[i] == w[i - |n| - 2]; }
    }
  }

  lemma {:induction false} ScanModified(n: string, plus: bool, w: string, next: string, strict: bool, f: string -> string, sq: bool, dq: bool)
    requires Fits(Modified(n, plus, w), next)
    ensures var arg := ModArg(n, plus, w);
      Scan("${" + arg + "}" + next, strict, f, sq, dq)
      == if f(arg) == "" && !HasColon(arg, '+') && strict then Err else Prepend(f(arg), Scan(next, strict, f, sq, dq))
  {
    var arg := ModArg(n, plus, w);
    var sub := arg + ("}" + next);
    ModArgSpecial(n, plus, w);
    assert sub[|n|] == arg[|n|] && sub[|n| + 1] == arg[|n| + 1];
    SpecialMatchOf(arg, next);
    ScanMatched(arg, next, strict, f, sq, dq);
  }

  /** A word that is one parameter with a modifier asks for name, modifier and word as one argument. */
  lemma {:induction false} AskedModified(n: string, plus: bool, w: string, strict: bool, f: string -> string)
    requires Fits(Modified(n, plus, w), "")
    ensures ModArg(n, plus, w) in Asked("${" + ModArg(n, plus, w) + "}", strict, f)
  {
    var arg := ModArg(n, plus, w);
    var sub := arg + ("}" + "");
    ModArgSpecial(n, plus, w);
    assert sub[|n|] == arg[|n|] && sub[|n| + 1] == arg[|n| + 1];
    assert HasModifier(sub);
    SpecialMatchOf(arg, "");
    assert BraceMatch(sub) == Some((0, |arg|));
    hide BraceMatch, HasColon, HasModifier, ModArg, SpecialMatch;
    var s := "${" + arg + "}";
    assert s[1..][1..] == sub && sub[0..|arg|] == arg;
    assert arg in AskedBrace(sub, strict, f);
  }

  /** A name stands for itself. */
  lemma {:induction false} NameItself(s: string, strict: bool, f: string -> string)
    requires forall i :: 0 <= i < |s| ==> NameChar(s[i])
    ensures Scan(s, strict, f, false, false) == Ok(s)
  {
    if s != "" {
      NameItself(s[1..], strict, f);
      assert s[..1] + s[1..] == s;
    }
  }

  lemma {:induction false} ScanBare(n: string, next: string, strict: bool, f: string -> string, sq: bool, dq: bool)
    requires IsName(n) && (next == "" || !NameChar(next[0]))
    ensures Scan("$" + n + next, strict, f, sq, dq)
         == if f(n) == "" && strict then Err else Prepend(f(n), Scan(next, strict, f, sq, dq))
  {
    var s := "$" + n + next;
    assert s[1..] == n + next;
    NameLenOf(n, next);
    assert (n + next)[..|n|] == n && (n + next)[|n|..] == next;
  }

  /** Scanning one token in front of `next` yields its value and leaves `next`. */
  lemma {:induction false} ScanToken(t: Token, next: string, strict: bool, f: string -> string, sq: bool, dq: bool)
    requires Fits(t, next)
    ensures Scan(PrintToken(t) + next, strict, f, sq, dq)
         == var v := Value(t, strict, f);
            if v.Err? then Err
            else Prepend(v.value, Scan(next, strict, f, if t == Quote(false) then !sq else sq, if t == Quote(true) then !dq else dq))
  {
    hide IsName, HasModifier, HasColon, BraceMatch;
    var s := PrintToken(t) + next;
    match t
    case Text(c) =>
      assert s[1..] == next && s[..1] == [c];
    case Quote(d) =>
      assert s[1..] == next;
      PrependNothing(Scan(next, strict, f, if d then sq else !sq, if d then !dq else dq));
    case Escaped =>
      assert s[2..] == next && s[..2] == "\\$";
    case Braced(n) =>
      ScanBraced(n, next, strict, f, sq, dq);
    case Modified(n, plus, w) =>
      ScanModified(n, plus, w, next, strict, f, sq, dq);
    case Bare(n) =>
      ScanBare(n, next, strict, f, sq, dq);
    case Junk(c) =>
      assert s[1..] == [c] + next && ([c] + next)[1..] == next;
      PrependNothing(Scan(next, strict, f, sq, dq));
  }

  /** The scanner is the evaluator: on every well-formed word, in strict and in easy mode, errors included. */
  lemma {:induction false} ScanIsEval(ts: seq<Token>, strict: bool, f: string -> string, sq: bool, dq: bool)
    requires WellFormed(ts)
    ensures Scan(Print(ts), strict, f, sq, dq) == Eval(ts, strict, f, sq, dq)
  {
    if ts != [] {
      ScanToken(ts[0], Print(ts[1..]), strict, f, sq, dq);
      ScanIsEval(ts[1..], strict, f, if ts[0] == Quote(false) then !sq else sq, if ts[0] == Quote(true) then !dq else dq);
    }
  }

  lemma {:induction false} ResolveIsEval(ts: seq<Token>, strict: bool, f: string -> string)
    requires WellFormed(ts)
    ensures Resolve(Print(ts), strict, f) == Eval(ts, strict, f, false, false)
  {
    ScanIsEval(ts, strict, f, false, false);
  }

  // ---------- what is asked for ----------

  /** The argument a token hands to the resolving function, if it is a parameter. */
  function ArgsOf(t: Token): seq<string> {
    match t
    case Braced(n) => [n]
    case Bare(n) => [n]
    case Modified(n, plus, w) => [ModArg(n, plus, w)]
    case _ => []
  }

  function AllArgs(ts: seq<Token>): seq<string> {
    if ts == [] then [] else ArgsOf(ts[0]) + AllArgs(ts[1..])
  }

  lemma {:induction false} AskedMatched(arg: string, next: string, strict: bool, f: string -> string)
    requires arg != "" && arg[0] != '}' && BraceMatch(arg + ("}" + next)) == Some((0, |arg|))
    requires !(f(arg) == "" && !HasColon(arg, '+') && strict)
    ensures Asked("${" + arg + "}" + next, strict, f) == [arg] + Asked(next, strict, f)
  {
    hide BraceMatch, HasColon;
    var s := "${" + arg + "}" + next;
    var sub := arg + ("}" + next);
    assert s[1..] == "{" + sub && s[1..][1..] == sub;
    assert sub[0..|arg|] == arg && sub[|arg|] == '}' && sub[|arg| + 1..] == next;
    assert sub != "" && sub[0] == arg[0];
    assert AskedBrace(sub, strict, f) == [arg] + Asked(next, strict, f);
    hide AskedBrace;
    assert s[0] == '$' && s[1] == '{';
    assert AskedDollar(s[1..], strict, f) == AskedBrace(sub, strict, f);
    hide AskedDollar;
    assert Asked(s, strict, f) == AskedDollar(s[1..], strict, f);
  }

  lemma {:induction false} MatchBraced(n: string, next: string)
    requires IsName(n) && (|n| == 1 ==> !HasModifier(next))
    ensures n[0] != '}' && BraceMatch(n + ("}" + next)) == Some((0, |n|)) && !HasColon(n, '+')
  {
    ModifierAfterBrace(n, next);
    assert forall i :: 0 <= i < |n| ==> n[i] != ':';
    if HasModifier(next) { SpecialMatchOf(n, next); } else { NameLenOf(n, "}" + next); }
  }

  lemma {:induction false} MatchModified(n: string, plus: bool, w: string, next: string)
    requires Fits(Modified(n, plus, w), next)
    ensures var arg := ModArg(n, plus, w); arg != "" && arg[0] != '}' && BraceMatch(arg + ("}" + next)) == Some((0, |arg|))
  {
    var arg := ModArg(n, plus, w);
    var sub := arg + ("}" + next);
    ModArgSpecial(n, plus, w);
    assert sub[|n|] == arg[|n|] && sub[|n| + 1] == arg[|n| + 1];
    SpecialMatchOf(arg, next);
  }

  lemma {:induction false} AskedBare(n: string, next: string, strict: bool, f: string -> string)
    requires IsName(n) && (next == "" || !NameChar(next[0])) && !(f(n) == "" && strict)
    ensures Asked("$" + n + next, strict, f) == [n] + Asked(next, strict, f)
  {
    var s := "$" + n + next;
    assert s[1..] == n + next;
    NameLenOf(n, next);
    assert (n + next)[..|n|] == n && (n + next)[|n|..] == next;
  }

  lemma {:induction false} AskedToken(t: Token, next: string, strict: bool, f: string -> string)
    requires Fits(t, next) && Value(t, strict, f).Ok?
    ensures Asked(PrintToken(t) + next, strict, f) == ArgsOf(t) + Asked(next, strict, f)
  {
    hide IsName, HasModifier, HasColon, BraceMatch, ModArg;
    var s := PrintToken(t) + next;
    match t {
      case Braced(n) =>
        MatchBraced(n, next);
        AskedMatched(n, next, strict, f);
      case Modified(n, plus, w) =>
        MatchModified(n, plus, w, next);
        AskedMatched(ModArg(n, plus, w), next, strict, f);
      case Bare(n) => AskedBare(n, next, strict, f);
      case Junk(c) => assert s[1..] == [c] + next && ([c] + next)[1..] == next;
      case Escaped => assert s[2..] == next;
      case _ => assert s[1..] == next;
    }
  }

  /** The scan asks for the parameters of a word, all of them, in order, up to the first that has no value and must. */
  lemma {:induction false} AskedAll(ts: seq<Token>, strict: bool, f: string -> string)
    requires WellFormed(ts) && forall i :: 0 <= i < |ts| ==> Value(ts[i], strict, f).Ok?
    ensures Asked(Print(ts), strict, f) == AllArgs(ts)
  {
    hide Value, Fits, ArgsOf;
    if ts != [] {
      AskedToken(ts[0], Print(ts[1..]), strict, f);
      AskedAll(ts[1..], strict, f);
    }
  }

  lemma {:induction false} SkipOne(c: char, s: string)
    requires !Letter(c) || s == "" || !SpecialChar(s[0])
    requires SpecialMatch(s).Some?
    ensures SpecialMatch([c] + s) == Some((SpecialMatch(s).value.0 + 1, SpecialMatch(s).value.1 + 1))
  {
    assert ([c] + s)[1..] == s;
  }

  /**
  Why one-letter names are special: with a modifier right after it, a parameter `${a}` is swallowed without an error,
  so the word means what it should only when a resolves to nothing.
  */
  lemma {:induction false} OneLetterSwallowed(a: char, n: string, plus: bool, w: string, f: string -> string)
    requires Letter(a) && Fits(Modified(n, plus, w), "")
    ensures var ts := [Braced([a]), Modified(n, plus, w)];
      Resolve(Print(ts), false, f) == Ok(f(ModArg(n, plus, w)))
      && (Resolve(Print(ts), false, f) == Eval(ts, false, f, false, false) <==> f([a]) == "")
  {
    hide BraceMatch, HasModifier, HasColon, ModArg, Print, Eval;
    var ts := [Braced([a]), Modified(n, plus, w)];
    var arg := ModArg(n, plus, w);
    var s := Print(ts);
    var sub := [a] + ("}" + ("$" + ("{" + (arg + ("}" + "")))));
    SwallowPrint(a, n, plus, w);
    SwallowMatch(a, n, plus, w);
    assert sub[4..4 + |arg|] == arg && sub[4 + |arg|] == '}' && sub[5 + |arg|..] == "";
    assert s[1..] == "{" + sub && s[1..][1..] == sub;
    assert Scan(s, false, f, false, false) == ScanDollar(s[1..], false, f, false, false);
    assert ScanDollar(s[1..], false, f, false, false) == ScanBrace(sub, false, f, false, false);
    assert ScanBrace(sub, false, f, false, false) == Prepend(f(arg), Scan("", false, f, false, false));
    assert f(arg) + "" == f(arg);
    SwallowEval(a, n, plus, w, f);
    assert "" + f(arg) == f(arg) && |f([a]) + f(arg)| == |f([a])| + |f(arg)|;
  }

  lemma {:induction false} SwallowPrint(a: char, n: string, plus: bool, w: string)
    ensures Print([Braced([a]), Modified(n, plus, w)])
         == "${" + ([a] + ("}" + ("$" + ("{" + (ModArg(n, plus, w) + ("}" + ""))))))
  {
    hide ModArg;
    var ts := [Braced([a]), Modified(n, plus, w)];
    var arg := ModArg(n, plus, w);
    assert ts[1..] == [Modified(n, plus, w)] && ts[1..][1..] == [];
    var p, q := PrintToken(ts[0]), PrintToken(ts[1]);
    assert Print(ts[1..]) == q + "";
    assert Print(ts) == p + (q + "");
    hide Print;
    assert q + "" == "$" + ("{" + (arg + ("}" + "")));
    assert p == "${" + ([a] + "}");
  }

  lemma {:induction false} SwallowEval(a: char, n: string, plus: bool, w: string, f: string -> string)
    ensures Eval([Braced([a]), Modified(n, plus, w)], false, f, false, false) == Ok(f([a]) + f(ModArg(n, plus, w)))
  {
    hide HasColon, ModArg;
    var ts := [Braced([a]), Modified(n, plus, w)];
    var arg := ModArg(n, plus, w);
    assert ts[1..] == [Modified(n, plus, w)] && ts[1..][1..] == [];
    assert f(arg) + "" == f(arg);
    assert Eval(ts[1..], false, f, false, false) == Ok(f(arg));
  }

  lemma {:induction false} SwallowMatch(a: char, n: string, plus: bool, w: string)
    requires Letter(a) && Fits(Modified(n, plus, w), "")
    ensures var arg := ModArg(n, plus, w);
      BraceMatch([a] + ("}" + ("$" + ("{" + (arg + ("}" + "")))))) == Some((4, 4 + |arg|))
  {
    var arg := ModArg(n, plus, w);
    ModArgSpecial(n, plus, w);
    hide ModArg, IsName, SpecialRun, SpecialMatch;
    var s1 := arg + ("}" + "");
    SpecialMatchOf(arg, "");
    SkipOne('{', s1);
    SkipOne('$', "{" + s1);
    SkipOne('}', "$" + ("{" + s1));
    SkipOne(a, "}" + ("$" + ("{" + s1)));
    var sub := [a] + ("}" + ("$" + ("{" + s1)));
    SwallowModifier(a, n, plus, w);
    hide HasModifier;
    assert SpecialMatch(sub) == Some((4, 4 + |arg|));
  }

  /** No letter in t is followed by a character of a special parameter. */
  predicate NoSpecial(t: string) {
    forall i :: 0 <= i < |t| - 1 ==> !Letter(t[i]) || !SpecialChar(t[i + 1])
  }

  lemma {:induction false} SkipText(t: string, s: string)
    requires NoSpecial(t) && SpecialMatch(s).Some? && s != "" && !SpecialChar(s[0])
    ensures SpecialMatch(t + s) == Some((SpecialMatch(s).value.0 + |t|, SpecialMatch(s).value.1 + |t|))
  {
    if t == "" {
      assert t + s == s;
    } else {
      SkipText(t[1..], s);
      assert t + s == [t[0]] + (t[1..] + s);
      hide SpecialMatch;
      SkipOne(t[0], t[1..] + s);
    }
  }

  /** Text between the two is swallowed with the parameter, if nothing in it looks like a special parameter. */
  lemma {:induction false} TextSwallowed(a: char, t: string, n: string, plus: bool, w: string, f: string -> string)
    requires Letter(a) && NoSpecial(t) && Fits(Modified(n, plus, w), "")
    ensures Scan("${" + ([a] + "}" + t + ("${" + ModArg(n, plus, w) + "}")), false, f, false, false) == Ok(f(ModArg(n, plus, w)))
  {
    hide ModArg, SpecialMatch, NoSpecial, HasModifier, HasColon, Fits;
    var arg, front := ModArg(n, plus, w), [a] + "}" + t;
    var mod := "${" + arg + "}";
    FrontNoSpecial(a, t);
    ModifiedMatch(n, plus, w);
    SkipText(front, mod);
    ModifierIn(n, plus, w);
    ModifierInside(front, mod, "");
    PlusNothing(front, mod);
    var k := |front| + 2;
    CutOut(front, arg);
    hide Scan;
    SwallowScan(front + mod, k, arg, f);
  }

  lemma {:induction false} CutOut(front: string, arg: string)
    ensures
      var sub, k := front + ("${" + arg + "}"), |front| + 2;
      k + |arg| + 1 == |sub| && sub[k..k + |arg|] == arg && sub[k + |arg|] == '}'
  {
  }

  /** The special pattern finds the argument of one parameter with a modifier. */
  lemma {:induction false} ModifiedMatch(n: string, plus: bool, w: string)
    requires Fits(Modified(n, plus, w), "")
    ensures SpecialMatch("${" + ModArg(n, plus, w) + "}") == Some((2, 2 + |ModArg(n, plus, w)|))
  {
    var arg := ModArg(n, plus, w);
    ModArgSpecial(n, plus, w);
    hide ModArg, SpecialRun, SpecialMatch;
    SpecialMatchOf(arg, "");
    var s1 := arg + ("}" + "");
    SkipOne('{', s1);
    SkipOne('$', "{" + s1);
    assert "${" + arg + "}" == "$" + ("{" + s1);
  }

  lemma {:induction false} FrontNoSpecial(a: char, t: string)
    requires NoSpecial(t)
    ensures NoSpecial([a] + "}" + t)
  {
    var s := [a] + "}" + t;
    forall i | 0 <= i < |s| - 1 ensures !Letter(s[i]) || !SpecialChar(s[i + 1]) {
      if i >= 2 { assert s[i] == t[i - 2] && s[i + 1] == t[i - 1]; }
    }
  }

  lemma {:induction false} ModifierIn(n: string, plus: bool, w: string)
    ensures HasModifier("${" + ModArg(n, plus, w) + "}")
  {
    var arg := ModArg(n, plus, w);
    var sign := if plus then ":+" else ":-";
    assert sign[0] == ':' && sign[1] == (if plus then '+' else '-');
    assert HasModifier(sign);
    assert "${" + arg + "}" == ("${" + n) + (sign + (w + "}"));
    hide HasModifier;
    ModifierInside("${" + n, sign, w + "}");
  }

  lemma {:induction false} SwallowScan(sub: string, k: nat, arg: string, f: string -> string)
    requires sub != "" && sub[0] != '}' && HasModifier(sub) && SpecialMatch(sub) == Some((k, k + |arg|))
    requires k + |arg| + 1 == |sub| && sub[k..k + |arg|] == arg && sub[k + |arg|] == '}'
    ensures Scan("${" + sub, false, f, false, false) == Ok(f(arg))
  {
    hide HasModifier, SpecialMatch, HasColon;
    var s := "${" + sub;
    assert s[1..][1..] == sub && sub[k + |arg| + 1..] == "";
    assert ScanBrace(sub, false, f, false, false) == Prepend(f(arg), Scan("", false, f, false, false));
    assert f(arg) + "" == f(arg);
  }

  /** A word between the two that does look so makes the whole an error. */
  lemma {:induction false} WordBetweenFails(a: char, v: string, rest: string, f: string -> string)
    requires Letter(a) && |v| >= 2 && Letter(v[0]) && (forall i :: 0 <= i < |v| ==> SpecialChar(v[i]))
    requires rest != "" && !SpecialChar(rest[0]) && rest[0] != '}' && HasModifier(rest)
    ensures Scan("${" + ([a] + ("}" + (v + rest))), false, f, false, false) == Err
  {
    var sub := [a] + ("}" + (v + rest));
    hide HasModifier, HasColon;
    assert (v + rest)[1..] == v[1..] + rest;
    SpecialRunOf(v[1..], rest);
    assert SpecialMatch(v + rest) == Some((0, |v|));
    SkipOne('}', v + rest);
    SkipOne(a, "}" + (v + rest));
    assert sub == ([a] + "}" + v) + (rest + "");
    ModifierInside([a] + "}" + v, rest, "");
    hide SpecialMatch;
    var s := "${" + sub;
    assert s[1..][1..] == sub;
    assert BraceMatch(sub) == Some((2, 2 + |v|)) && sub[2 + |v|] == rest[0];
    assert ScanBrace(sub, false, f, false, false) == Err;
  }

  lemma {:induction false} ModifierInside(a: string, b: string, c: string)
    requires HasModifier(b)
    ensures HasModifier(a + (b + c))
  {
    var i :| 0 <= i < |b| - 1 && b[i] == ':' && (b[i + 1] == '-' || b[i + 1] == '+');
    var s, j := a + (b + c), |a| + i;
    assert s[j] == b[i] && s[j + 1] == b[i + 1];
  }

  lemma {:induction false} SwallowModifier(a: char, n: string, plus: bool, w: string)
    ensures HasModifier([a] + ("}" + ("$" + ("{" + (ModArg(n, plus, w) + ("}" + ""))))))
  {
    var arg := ModArg(n, plus, w);
    var sign := if plus then ":+" else ":-";
    assert sign[0] == ':' && sign[1] == (if plus then '+' else '-');
    assert HasModifier(sign);
    assert arg == n + (sign + w);
    ModifierInside(n, sign, w);
    hide HasModifier, ModArg;
    ModifierInside("{", arg, "}" + "");
    ModifierInside("$", "{" + (arg + ("}" + "")), "");
    PlusNothing("$", "{" + (arg + ("}" + "")));
    ModifierInside("}", "$" + ("{" + (arg + ("}" + ""))), "");
    PlusNothing("}", "$" + ("{" + (arg + ("}" + ""))));
    ModifierInside([a], "}" + ("$" + ("{" + (arg + ("}" + "")))), "");
    PlusNothing([a], "}" + ("$" + ("{" + (arg + ("}" + "")))));
  }

  lemma {:induction false} PlusNothing(a: string, b: string)
    ensures a + (b + "") == a + b
  {
    assert b + "" == b;
  }

  lemma {:induction false} FirstBraced(sub: string, strict: bool, f: string -> string, sq: bool, dq: bool) returns (n: string, rest: string)
    requires !HasModifier(sub) && ScanBrace(sub, strict, f, sq, dq).Ok?
    ensures IsName(n) && sub == n + "}" + rest
  {
    hide HasModifier, HasColon, Scan, IsName;
    var k := NameLen(sub);
    FirstBare(sub);
    hide NameLen;
    n, rest := sub[..k], sub[k + 1..];
    assert sub == n + [sub[k]] + rest;
  }

  lemma {:induction false} FirstBare(r: string)
    requires NameLen(r) > 0
    ensures var n := NameLen(r); IsName(r[..n]) && (n == |r| || !NameChar(r[n]))
  {
  }

  lemma {:induction false} DollarBraced(r: string, strict: bool, f: string -> string, sq: bool, dq: bool) returns (n: string, rest: string)
    requires !HasModifier(r) && r != "" && r[0] == '{' && ScanBrace(r[1..], strict, f, sq, dq).Ok?
    ensures IsName(n) && "$" + r == "${" + n + "}" + rest && !HasModifier(rest)
  {
    hide HasModifier, IsName, ScanBrace;
    var sub := r[1..];
    assert r == "{" + sub;
    NoModifierAfter("{", sub);
    n, rest := FirstBraced(sub, strict, f, sq, dq);
    NoModifierAfter(n + "}", rest);
    assert "$" + r == "${" + (n + "}" + rest);
  }

  lemma {:induction false} FirstDollar(r: string, strict: bool, f: string -> string, sq: bool, dq: bool) returns (t: Token, rest: string)
    requires !HasModifier(r) && ScanDollar(r, strict, f, sq, dq).Ok?
    ensures "$" + r == PrintToken(t) + rest && Fits(t, rest)
  {
    hide HasModifier, IsName, Scan, ScanBrace;
    if r[0] == '{' {
      var n;
      n, rest := DollarBraced(r, strict, f, sq, dq);
      t := Braced(n);
    } else if NameLen(r) == 0 {
      t, rest := Junk(r[0]), r[1..];
      assert "$" + r == ['$', r[0]] + r[1..];
    } else {
      FirstBare(r);
      hide NameLen;
      t, rest := Bare(r[..NameLen(r)]), r[NameLen(r)..];
      assert r == r[..NameLen(r)] + rest;
      assert "$" + r == "$" + r[..NameLen(r)] + rest;
    }
  }

  /** The first token of a word the scanner accepts. */
  lemma {:induction false} FirstToken(s: string, strict: bool, f: string -> string, sq: bool, dq: bool) returns (t: Token, rest: string)
    requires s != "" && !HasModifier(s) && Scan(s, strict, f, sq, dq).Ok?
    ensures s == PrintToken(t) + rest && Fits(t, rest)
  {
    if s[0] == '$' {
      assert s == "$" + s[1..];
      NoModifierAfter("$", s[1..]);
      t, rest := FirstDollar(s[1..], strict, f, sq, dq);
    } else if s[0] == '\'' {
      t, rest := Quote(false), s[1..];
    } else if s[0] == '"' {
      t, rest := Quote(true), s[1..];
    } else if s[0] == '\\' && |s| > 1 && s[1] == '$' {
      t, rest := Escaped, s[2..];
      assert s == "\\$" + s[2..];
    } else {
      t, rest := Text(s[0]), s[1..];
    }
  }

  /** Every word without `:-` and `:+` that the scanner accepts is the print of a well-formed token list. */
  lemma {:induction false} AcceptedWords(s: string, strict: bool, f: string -> string, sq: bool, dq: bool) returns (ts: seq<Token>)
    requires !HasModifier(s) && Scan(s, strict, f, sq, dq).Ok?
    ensures WellFormed(ts) && Print(ts) == s
    decreases |s|
  {
    if s == "" {
      ts := [];
    } else {
      var t, rest := FirstToken(s, strict, f, sq, dq);
      ScanToken(t, rest, strict, f, sq, dq);
      NoModifierAfter(PrintToken(t), rest);
      ts := AcceptedWords(rest, strict, f, if t == Quote(false) then !sq else sq, if t == Quote(true) then !dq else dq);
      assert ([t] + ts)[1..] == ts;
      ts := [t] + ts;
    }
  }

  /** Exactly which words without `:-` and `:+` expand, and to what. */
  lemma {:induction false} ResolvesTo(s: string, strict: bool, f: string -> string, r: string)
    requires !HasModifier(s)
    ensures Resolve(s, strict, f) == Ok(r)
       <==> exists ts :: WellFormed(ts) && Print(ts) == s && Eval(ts, strict, f, false, false) == Ok(r)
  {
    if Resolve(s, strict, f) == Ok(r) {
      var ts := AcceptedWords(s, strict, f, false, false);
      ResolveIsEval(ts, strict, f);
    }
    if exists ts :: WellFormed(ts) && Print(ts) == s && Eval(ts, strict, f, false, false) == Ok(r) {
      var ts :| WellFormed(ts) && Print(ts) == s && Eval(ts, strict, f, false, false) == Ok(r);
      ResolveIsEval(ts, strict, f);
    }
  }
}
