/** The few functions of Go's strings, path/filepath and strconv packages that the models need. */
module Strings {

  /** `strings.Split(s, sep)` for a one-character separator: never empty. */
  function Split(s: string, sep: char): (r: seq<string>)
    ensures |r| > 0
    ensures forall f :: f in r ==> sep !in f
  {
    if s == "" then [""]
    else var rest := Split(s[1..], sep);
         if s[0] == sep then [""] + rest else [[s[0]] + rest[0]] + rest[1..]
  }

  /** `strings.Join(fields, sep)` for a one-character separator. */
  function Join(fields: seq<string>, sep: char): string {
    if fields == [] then "" else if |fields| == 1 then fields[0] else fields[0] + [sep] + Join(fields[1..], sep)
  }

  lemma {:induction false} JoinSplit(s: string, sep: char)
    ensures Join(Split(s, sep), sep) == s
  {
    if s != "" {
      JoinSplit(s[1..], sep);
      var rest := Split(s[1..], sep);
      var all := Split(s, sep);
      if s[0] == sep {
        assert all[1..] == rest;
      } else {
        assert all[1..] == rest[1..];
        assert all[0] == [s[0]] + rest[0];
        assert s == [s[0]] + s[1..];
      }
    }
  }

  lemma {:induction false} SplitNone(s: string, sep: char)
    requires sep !in s
    ensures Split(s, sep) == [s]
  {
    if s != "" {
      SplitNone(s[1..], sep);
      assert [s[0]] + s[1..] == s;
    }
  }

  lemma {:induction false} SplitFirst(a: string, sep: char, b: string)
    requires sep !in a
    ensures Split(a + [sep] + b, sep) == [a] + Split(b, sep)
  {
    if a == "" {
      assert (a + [sep] + b)[1..] == b;
    } else {
      assert (a + [sep] + b)[1..] == a[1..] + [sep] + b;
      SplitFirst(a[1..], sep, b);
      assert [a[0]] + a[1..] == a;
      assert (a + [sep] + b)[0] == a[0] != sep;
      assert [[a[0]] + a[1..]] + Split(b, sep) == [a] + Split(b, sep);
    }
  }

  /** The last element of a slash-separated path. */
  function LastElem(path: string): string {
    var fields := Split(path, '/'); fields[|fields| - 1]
  }

  /** What follows the last slash; a path without one is its own last element. */
  lemma {:induction false} LastElemOf(a: string, b: string)
    requires '/' !in b
    ensures LastElem(b) == b && LastElem(a + "/" + b) == b
  {
    var s := a + "/" + b;
    SplitNone(b, '/');
    if a == "" {
      assert s[1..] == b;
    } else {
      assert s[1..] == a[1..] + "/" + b;
      LastElemOf(a[1..], b);
      var rest := Split(s[1..], '/');
      assert |rest| > 1 by { SlashSplits(s[1..], |a| - 1); }
    }
  }

  lemma {:induction false} SlashSplits(s: string, i: nat)
    requires i < |s| && s[i] == '/'
    ensures |Split(s, '/')| > 1
  {
    if s[0] != '/' { SlashSplits(s[1..], i - 1); }
  }

  predicate HasSuffix(s: string, suffix: string) {
    |suffix| <= |s| && s[|s| - |suffix|..] == suffix
  }

  /** `strings.TrimSuffix` */
  function TrimSuffix(s: string, suffix: string): string {
    if HasSuffix(s, suffix) then s[..|s| - |suffix|] else s
  }

  /** ASCII white space, as `unicode.IsSpace` and `bytes.TrimSpace` see it. */
  predicate IsSpace(c: char) {
    c == ' ' || c == '\t' || c == '\n' || c == '\r' || c == 11 as char || c == 12 as char
  }

  predicate Blank(s: string) { forall i :: 0 <= i < |s| ==> IsSpace(s[i]) }

  function TrimLeft(s: string): string {
    if s != "" && IsSpace(s[0]) then TrimLeft(s[1..]) else s
  }

  function TrimRight(s: string): string {
    if s != "" && IsSpace(s[|s| - 1]) then TrimRight(s[..|s| - 1]) else s
  }

  function TrimSpace(s: string): string { TrimRight(TrimLeft(s)) }

  lemma {:induction false} TrimLeftOf(a: string, b: string)
    requires Blank(a) && (b == "" || !IsSpace(b[0]))
    ensures TrimLeft(a + b) == b
  {
    if a == "" {
      assert a + b == b;
    } else {
      assert (a + b)[1..] == a[1..] + b;
      TrimLeftOf(a[1..], b);
    }
  }

  lemma {:induction false} TrimRightOf(a: string, b: string)
    requires Blank(b) && (a == "" || !IsSpace(a[|a| - 1]))
    ensures TrimRight(a + b) == a
  {
    if b == "" {
      assert a + b == a;
    } else {
      assert (a + b)[..|a + b| - 1] == a + b[..|b| - 1];
      TrimRightOf(a, b[..|b| - 1]);
    }
  }

  /** Not empty, and no white space at either end. */
  predicate Firm(s: string) { s != "" && !IsSpace(s[0]) && !IsSpace(s[|s| - 1]) }

  lemma {:induction false} TrimLeftFirm(s: string)
    ensures TrimLeft(s) == "" || !IsSpace(TrimLeft(s)[0])
    ensures s != "" && !IsSpace(s[|s| - 1]) ==> TrimLeft(s) != "" && TrimLeft(s)[|TrimLeft(s)| - 1] == s[|s| - 1]
  {
    if s != "" && IsSpace(s[0]) { TrimLeftFirm(s[1..]); }
  }

  lemma {:induction false} TrimRightFirm(s: string)
    ensures TrimRight(s) == "" || !IsSpace(TrimRight(s)[|TrimRight(s)| - 1])
    ensures TrimRight(s) <= s
  {
    if s != "" && IsSpace(s[|s| - 1]) { TrimRightFirm(s[..|s| - 1]); }
  }

  /** Trimming leaves nothing or a firm text, and leaves exactly the firm texts and the empty one as they are. */
  lemma {:induction false} TrimSpaceFirm(s: string)
    ensures TrimSpace(s) == "" || Firm(TrimSpace(s))
    ensures s != "" ==> (TrimSpace(s) == s <==> Firm(s))
    ensures s != "" && !IsSpace(s[|s| - 1]) ==> TrimSpace(s) != "" && TrimSpace(s)[|TrimSpace(s)| - 1] == s[|s| - 1]
  {
    TrimLeftFirm(s);
    TrimRightFirm(TrimLeft(s));
  }

  /** Trimming adds no character. */
  lemma {:induction false} TrimLeftKeepsOut(s: string, c: char)
    requires c !in s
    ensures c !in TrimLeft(s)
  {
    if s != "" && IsSpace(s[0]) { TrimLeftKeepsOut(s[1..], c); }
  }

  lemma {:induction false} TrimSpaceKeepsOut(s: string, c: char)
    requires c !in s
    ensures c !in TrimSpace(s)
  {
    TrimLeftKeepsOut(s, c);
    TrimRightFirm(TrimLeft(s));
  }

  predicate LowerLetter(c: char) { 'a' <= c <= 'z' }

  function UpperChar(c: char): char { if LowerLetter(c) then (c as int - 32) as char else c }

  /** `strings.ToUpper` on ASCII text. */
  function ToUpper(s: string): (r: string)
    ensures |r| == |s|
  {
    seq(|s|, i requires 0 <= i < |s| => UpperChar(s[i]))
  }

  /** No lower-case letter is left, and nothing else has changed. */
  lemma {:induction false} UpperIs(s: string)
    ensures forall i :: 0 <= i < |s| ==>
      if 'a' <= s[i] <= 'z' then ToUpper(s)[i] as int - 'A' as int == s[i] as int - 'a' as int else ToUpper(s)[i] == s[i]
  {
  }

  function LowerChar(c: char): char { if 'A' <= c <= 'Z' then (c as int + 32) as char else c }

  /** `strings.ToLower` for ASCII text. */
  function ToLower(s: string): (r: string)
    ensures |r| == |s|
  {
    seq(|s|, i requires 0 <= i < |s| => LowerChar(s[i]))
  }

  /** No upper-case letter is left, and nothing else has changed. */
  lemma {:induction false} LowerIs(s: string)
    ensures forall i :: 0 <= i < |s| ==>
      if 'A' <= s[i] <= 'Z' then ToLower(s)[i] as int - 'a' as int == s[i] as int - 'A' as int else ToLower(s)[i] == s[i]
  {
  }

  /** The position of the first occurrence of c, or the length of s. */
  function IndexOf(s: string, c: char): (n: nat)
    ensures n <= |s| && c !in s[..n] && (n < |s| ==> s[n] == c)
  {
    if s == "" || s[0] == c then 0 else 1 + IndexOf(s[1..], c)
  }

  /** The number of characters in front of the first white space. */
  function WordEnd(s: string): (n: nat)
    ensures n <= |s| && (forall i :: 0 <= i < n ==> !IsSpace(s[i])) && (n < |s| ==> IsSpace(s[n]))
  {
    if s == "" || IsSpace(s[0]) then 0 else 1 + WordEnd(s[1..])
  }
}
