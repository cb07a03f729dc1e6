/** Decimal numbers as `strconv.Itoa` writes them and `strconv.Atoi` reads them. */
module Decimal {
  import opened Basics

  const MAX_INT := 0x7FFF_FFFF_FFFF_FFFF

  predicate Digit(c: char) { '0' <= c <= '9' }

  predicate Digits(s: string) { forall i :: 0 <= i < |s| ==> Digit(s[i]) }

  function Itoa(n: nat): (r: string)
    ensures r != [] && Digits(r)
  {
    var digit := [('0' as int + n % 10) as char];
    if n < 10 then digit else Itoa(n / 10) + digit
  }

  function Number(s: string): nat
    requires Digits(s)
  {
    if s == [] then 0 else Number(s[..|s| - 1]) * 10 + (s[|s| - 1] as int - '0' as int)
  }

  /** An optional sign and at least one digit, within the range of a 64-bit integer. */
  function Atoi(s: string): Option<int> {
    var body := if s != [] && (s[0] == '+' || s[0] == '-') then s[1..] else s;
    if body == [] || !Digits(body) then None
    else
      var n: int := if s[0] == '-' then 0 - Number(body) else Number(body);
      if -MAX_INT - 1 <= n <= MAX_INT then Some(n) else None
  }

  lemma {:induction false} NumberOfItoa(n: nat)
    ensures Number(Itoa(n)) == n
  {
    var s := Itoa(n);
    if n < 10 {
      assert s[..|s| - 1] == [];
    } else {
      NumberOfItoa(n / 10);
      assert s[..|s| - 1] == Itoa(n / 10);
    }
  }

  lemma {:induction false} AtoiItoa(n: nat)
    requires n <= MAX_INT
    ensures Atoi(Itoa(n)) == Some(n)
  {
    NumberOfItoa(n);
    assert Digit(Itoa(n)[0]);
  }

  function Pow10(n: nat): nat { if n == 0 then 1 else 10 * Pow10(n - 1) }

  lemma {:induction false} Shifted(x: nat, p: nat)
    ensures x * (10 * p) == x * p * 10
  {
  }

  /** Numbers are written with the highest digit in front. */
  lemma {:induction false} Positional(a: string, b: string)
    requires Digits(a) && Digits(b)
    ensures Digits(a + b) && Number(a + b) == Number(a) * Pow10(|b|) + Number(b)
  {
    if b == [] {
      assert a + b == a;
    } else {
      var init := b[..|b| - 1];
      Positional(a, init);
      assert (a + b)[..|a + b| - 1] == a + init;
      Shifted(Number(a), Pow10(|init|));
    }
  }

  /** What `strconv.Atoi` reads: an optional sign and digits that make a 64-bit integer. */
  predicate Reads(s: string, sign: string, body: string, n: int) {
    && s == sign + body && body != [] && Digits(body)
    && ((sign in {"", "+"} && n == Number(body)) || (sign == "-" && n == 0 - Number(body)))
    && -0x8000_0000_0000_0000 <= n < 0x8000_0000_0000_0000
  }

  lemma {:induction false} AtoiIff(s: string, n: int)
    ensures Atoi(s) == Some(n) <==> exists sign, body :: Reads(s, sign, body, n)
  {
    if Atoi(s) == Some(n) {
      var signed := s[0] == '+' || s[0] == '-';
      var sign, body := if signed then s[..1] else "", if signed then s[1..] else s;
      assert s == sign + body && sign == if s[0] == '-' then "-" else if s[0] == '+' then "+" else "";
      assert Reads(s, sign, body, n);
    }
    if sign, body :| Reads(s, sign, body, n) {
      if sign == "" {
        assert s == body && Digit(s[0]);
      } else {
        assert s[0] == sign[0] && s[1..] == body;
      }
    }
  }
}
