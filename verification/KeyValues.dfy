/** The scanner for `<key>=<value> <key>=<value> ...` lists in ENV and LABEL lines. */
module KeyValues {
  import opened Basics
  import opened Strings

  // ---------- what the scanner computes ----------

  /** The end of a quoted value, from position i on: past the first quote that no backslash precedes. */
  function QuoteEnd(s: string, i: nat): (n: nat)
    requires 1 <= i <= |s|
    ensures i <= n <= |s|
    decreases |s| - i
  {
    if i == |s| then i
    else if s[i] == '"' && s[i - 1] != '\\' then i + 1
    else QuoteEnd(s, i + 1)
  }

  predicate Quoted(v: string) { v != "" && v[0] == '"' }

  /** How much of the text after `=` belongs to the value. */
  function ValueEnd(v: string): (n: nat)
    ensures n <= |v|
  {
    if Quoted(v) then QuoteEnd(v, 1) else WordEnd(v)
  }

  /** What is left after the value: an unquoted value also takes the white space character that ends it. */
  function Rest(v: string): (r: string)
    ensures |r| <= |v|
  {
    if Quoted(v) || ValueEnd(v) == |v| then v[ValueEnd(v)..] else v[ValueEnd(v) + 1..]
  }

  /** All pairs; Err (a nil list) as soon as text is left that has no `=`. */
  function Pairs(s: string): Result<seq<string>>
    decreases |s|
  {
    if s == "" then Ok([])
    else if IndexOf(s, '=') == |s| then Err
    else
      var v := s[IndexOf(s, '=') + 1..];
      var rest :- Pairs(Rest(v));
      Ok([TrimSpace(s[..IndexOf(s, '=')]) + "=" + v[..ValueEnd(v)]] + rest)
  }

  // ---------- the scanner as it runs ----------

  /** Step 1 of the scan: collect the key up to and including the next `=`. */
  method ScanKey(str: string, start: nat) returns (i: nat, word: string, findEqualChar: bool)
    requires start <= |str|
    ensures var s := str[start..];
      && findEqualChar == (IndexOf(s, '=') < |s|) && i <= |str|
      && (findEqualChar ==> i == start + IndexOf(s, '=') + 1 && word == TrimSpace(s[..IndexOf(s, '=')]) + "=")
  {
    ghost var s := str[start..];
    i, word, findEqualChar := start, "", false;
    while i < |str| && !findEqualChar
      invariant start <= i <= |str|
      invariant !findEqualChar ==> word == str[start..i] && IndexOf(s, '=') == i - start + IndexOf(str[i..], '=')
      invariant findEqualChar ==> i - start == IndexOf(s, '=') + 1 && IndexOf(s, '=') < |s| && word == TrimSpace(s[..IndexOf(s, '=')]) + "="
      decreases |str| - i
    {
      assert str[i..][1..] == str[i + 1..];
      word := word + [str[i]];
      if str[i] == '=' {
        findEqualChar := true;
        assert word[..|word| - 1] == s[..IndexOf(s, '=')];
        word := TrimSpace(word[..|word| - 1]) + "=";
      }
      i := i + 1;
    }
  }

  lemma {:induction false} Grow(key: string, v: string, n: nat)
    requires n < |v|
    ensures key + v[..n] + [v[n]] == key + v[..n + 1]
  {
    assert v[..n + 1] == v[..n] + [v[n]];
  }

  /** Steps 2 and 3: append the value to the word; i ends on the character that stopped the scan, or at the end. */
  method ScanValue(str: string, start: nat, key: string) returns (i: nat, word: string)
    requires start <= |str|
    ensures var v := str[start..];
      && start <= i <= |str| && word == key + v[..ValueEnd(v)]
      && (i < |str| ==> ValueEnd(v) == i - start + if Quoted(v) then 1 else 0)
      && (i == |str| ==> ValueEnd(v) == |v|)
  {
    hide IsSpace, Rest, WordEnd, QuoteEnd;
    ghost var v := str[start..];
    assert v[0..] == v;
    ghost var taken := 0;
    i, word := start, key;
    var isQuoteWord := false;
    if i < |str| && str[i] == '"' {
      word := word + [str[i]];
      isQuoteWord := true;
      i := i + 1;
      taken := 1;
    }
    var stop := false;
    assert word == key + v[..taken];
    while i < |str| && !stop
      invariant start <= i <= |str| && isQuoteWord == Quoted(v) && (isQuoteWord ==> start < i)
      invariant taken <= |v| && word == key + v[..taken]
      invariant if stop then i < |str| && ValueEnd(v) == taken && taken == i - start + (if isQuoteWord then 1 else 0)
                else taken == i - start
      invariant !stop && isQuoteWord ==> ValueEnd(v) == QuoteEnd(v, taken)
      invariant !stop && !isQuoteWord ==> ValueEnd(v) == taken + WordEnd(v[taken..])
      decreases |str| - i, !stop
    {
      assert str[i] == v[taken];
      ValueStep(v, taken);
      if !isQuoteWord && IsSpace(str[i]) {
        stop := true;
      } else {
        Grow(key, v, taken);
        word := word + [str[i]];
        taken := taken + 1;
        if isQuoteWord && str[i] == '"' && str[i - 1] != '\\' {
          stop := true;
        } else {
          i := i + 1;
        }
      }
    }
    ValueStops(v);
  }

  /** One more character of a value. */
  lemma {:induction false} ValueStep(v: string, i: nat)
    requires i < |v|
    ensures WordEnd(v[i..]) == if IsSpace(v[i]) then 0 else 1 + WordEnd(v[i + 1..])
    ensures i > 0 ==> QuoteEnd(v, i) == if v[i] == '"' && v[i - 1] != '\\' then i + 1 else QuoteEnd(v, i + 1)
  {
    hide IsSpace;
    assert v[i..][1..] == v[i + 1..];
  }

  lemma {:induction false} ValueStops(v: string)
    ensures WordEnd(v[|v|..]) == 0 && (v != "" ==> QuoteEnd(v, |v|) == |v|)
  {
  }

  /** Where the next pair starts. */
  lemma {:induction false} RestFrom(str: string, start: nat, i: nat)
    requires start <= i <= |str|
    requires var v := str[start..];
      && (i < |str| ==> ValueEnd(v) == i - start + if Quoted(v) then 1 else 0)
      && (i == |str| ==> ValueEnd(v) == |v|)
    ensures Rest(str[start..]) == str[if i < |str| then i + 1 else i..]
  {
    hide ValueEnd;
  }

  lemma {:induction false} PairsStep(s: string)
    ensures s == "" ==> Pairs(s) == Ok([])
    ensures s != "" && IndexOf(s, '=') == |s| ==> Pairs(s) == Err
    ensures s != "" && IndexOf(s, '=') < |s| ==>
      var v := s[IndexOf(s, '=') + 1..];
      var rest := Pairs(Rest(v));
      Pairs(s) == if rest.Err? then Err else Ok([TrimSpace(s[..IndexOf(s, '=')]) + "=" + v[..ValueEnd(v)]] + rest.value)
  {
    hide IndexOf, ValueEnd, Rest, TrimSpace;
  }

  /** `parseKeyEqualValuePairs`; Err stands for the nil list. */
  method ParseKeyEqualValuePairs(str: string) returns (r: Result<seq<string>>)
    ensures r == Pairs(str)
  {
    hide Pairs, IndexOf, ValueEnd, Rest, TrimSpace;
    var kvPairs: seq<string> := [];
    var i := 0;
    assert str[0..] == str;
    assert Pairs(str).Ok? ==> [] + Pairs(str).value == Pairs(str).value;
    while i < |str|
      invariant 0 <= i <= |str|
      invariant Onto(kvPairs, Pairs(str[i..])) == Pairs(str)
      decreases |str| - i
    {
      ghost var s := str[i..];
      PairsStep(s);
      var j, word, findEqualChar := ScanKey(str, i);
      if !findEqualChar {
        return Err;
      }
      ghost var v := s[IndexOf(s, '=') + 1..];
      assert v == str[j..];
      i, word := ScanValue(str, j, word);
      RestFrom(str, j, i);
      OntoOne(kvPairs, word, Pairs(Rest(v)));
      kvPairs := kvPairs + [word];
      if i < |str| {
        i := i + 1;
      }
    }
    assert str[i..] == "";
    PairsStep("");
    assert kvPairs + [] == kvPairs;
    r := Ok(kvPairs);
  }

  // ---------- writing a list and reading it back ----------

  /** One pair with the white space around its key; `sep` ends an unquoted value that is not the last one. */
  datatype Item = Item(before: string, key: string, between: string, value: string, sep: string)

  predicate GoodKey(k: string) {
    '=' !in k && (k != "" ==> !IsSpace(k[0]) && !IsSpace(k[|k| - 1]))
  }

  predicate GoodUnquoted(v: string) { !Quoted(v) && forall i :: 0 <= i < |v| ==> !IsSpace(v[i]) }

  /** In quotes: every inner quote has a backslash in front, and the closing quote has none. */
  predicate GoodQuoted(v: string) {
    && |v| >= 2 && v[0] == '"' && v[|v| - 1] == '"' && v[|v| - 2] != '\\'
    && forall i :: 1 <= i < |v| - 1 && v[i] == '"' ==> v[i - 1] == '\\'
  }

  predicate GoodItem(x: Item, last: bool) {
    && Blank(x.before) && Blank(x.between) && GoodKey(x.key)
    && (|| (GoodQuoted(x.value) && x.sep == "")
        || (GoodUnquoted(x.value) && Blank(x.sep) && |x.sep| <= 1 && (!last ==> |x.sep| == 1)))
  }

  function PrintItem(x: Item): string { x.before + x.key + x.between + "=" + x.value + x.sep }

  function Print(items: seq<Item>): string {
    if items == [] then "" else PrintItem(items[0]) + Print(items[1..])
  }

  predicate GoodItems(items: seq<Item>) {
    items != [] ==> GoodItem(items[0], |items| == 1) && GoodItems(items[1..])
  }

  function Words(items: seq<Item>): seq<string> {
    if items == [] then [] else [items[0].key + "=" + items[0].value] + Words(items[1..])
  }

  lemma {:induction false} KeyOf(a: string, b: string)
    requires '=' !in a
    ensures IndexOf(a + "=" + b, '=') == |a|
  {
    if a == "" {
      assert a + "=" + b == "=" + b;
    } else {
      assert (a + "=" + b)[1..] == a[1..] + "=" + b;
      KeyOf(a[1..], b);
    }
  }

  lemma {:induction false} TrimKey(before: string, key: string, between: string)
    requires Blank(before) && Blank(between) && GoodKey(key)
    ensures TrimSpace(before + key + between) == key
  {
    if key == "" {
      var all := before + between;
      assert Blank(all);
      assert before + key + between == all + "";
      TrimLeftOf(all, "");
    } else {
      assert before + key + between == before + (key + between);
      TrimLeftOf(before, key + between);
      TrimRightOf(key, between);
    }
  }

  lemma {:induction false} WordEndOf(v: string, next: string)
    requires (forall i :: 0 <= i < |v| ==> !IsSpace(v[i])) && (next == "" || IsSpace(next[0]))
    ensures WordEnd(v + next) == |v|
  {
    if v == "" {
      assert v + next == next;
    } else {
      assert (v + next)[1..] == v[1..] + next;
      WordEndOf(v[1..], next);
    }
  }

  lemma {:induction false} QuoteEndOf(v: string, next: string, i: nat)
    requires GoodQuoted(v) && 1 <= i < |v|
    ensures QuoteEnd(v + next, i) == |v|
    decreases |v| - i
  {
    assert (v + next)[i] == v[i] && (v + next)[i - 1] == v[i - 1];
    if i < |v| - 1 {
      QuoteEndOf(v, next, i + 1);
    }
  }

  lemma {:induction false} ItemText(x: Item, next: string)
    ensures PrintItem(x) + next == (x.before + x.key + x.between) + "=" + (x.value + (x.sep + next))
  {
  }

  lemma {:induction false} KeyFree(x: Item, last: bool)
    requires GoodItem(x, last)
    ensures '=' !in x.before + x.key + x.between && TrimSpace(x.before + x.key + x.between) == x.key
  {
    TrimKey(x.before, x.key, x.between);
    hide TrimSpace;
  }

  lemma {:induction false} AtKey(key: string, v: string)
    requires '=' !in key
    ensures var s := key + "=" + v; IndexOf(s, '=') == |key| < |s| && s[..|key|] == key && s[|key| + 1..] == v
  {
    KeyOf(key, v);
    hide IndexOf;
  }

  /** One good item in front of `next` is read as its key and value, and `next` is what is left. */
  lemma {:induction false} ReadItem(x: Item, next: string)
    requires GoodItem(x, next == "")
    ensures var s := PrintItem(x) + next;
      && s != "" && IndexOf(s, '=') < |s| && TrimSpace(s[..IndexOf(s, '=')]) == x.key
      && var v := s[IndexOf(s, '=') + 1..]; v[..ValueEnd(v)] == x.value && Rest(v) == next
  {
    hide IndexOf, ValueEnd, Rest, TrimSpace, GoodItem, PrintItem;
    ItemText(x, next);
    KeyFree(x, next == "");
    AtKey(x.before + x.key + x.between, x.value + (x.sep + next));
    ReadValue(x, next);
  }

  lemma {:induction false} ReadValue(x: Item, next: string)
    requires GoodItem(x, next == "")
    ensures var v := x.value + (x.sep + next); v[..ValueEnd(v)] == x.value && Rest(v) == next
  {
    var v := x.value + (x.sep + next);
    if GoodQuoted(x.value) {
      QuoteEndOf(x.value, x.sep + next, 1);
    } else {
      assert x.value == "" ==> v == x.sep + next;
      WordEndOf(x.value, x.sep + next);
      assert !Quoted(v);
    }
  }

  /** Every list of pairs, written with any legal white space around it, is read back exactly. */
  lemma {:induction false} RoundTrip(items: seq<Item>)
    requires GoodItems(items)
    ensures Pairs(Print(items)) == Ok(Words(items))
  {
    hide IndexOf, ValueEnd, Rest, TrimSpace, GoodItem;
    if items != [] {
      var next := Print(items[1..]);
      RoundTrip(items[1..]);
      if items[1..] != [] {
        assert |PrintItem(items[1])| > 0;
      }
      ReadItem(items[0], next);
    }
  }
}
