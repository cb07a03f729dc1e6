/** Normalising the ports of an EXPOSE instruction: `port/proto` or `start-end/proto`. */
module Ports {
  import opened Basics
  import opened Decimal
  import opened Strings

  const MAX_PORT := 65535
  const PROTOCOLS := ["tcp", "udp", "sctp"]

  /** `getPortProto`: the text in front of the first slash, and the protocol behind it, by default tcp. */
  function GetPortProto(raw: string): (string, string) {
    var field := Split(raw, '/');
    if |field[0]| == 0 then ("", "")
    else if |field| == 1 then (raw, "tcp")
    else if |field[1]| == 0 then (field[0], "tcp")
    else (field[0], field[1])
  }

  predicate ValidPort(p: string) { Atoi(p).Some? && 0 <= Atoi(p).value <= MAX_PORT }

  /** `validatePortProto` */
  predicate ValidPortProto(raw: string) {
    var (port, proto) := GetPortProto(raw);
    && (forall i :: 0 <= i < |Split(port, '-')| ==> ValidPort(Split(port, '-')[i]))
    && ToLower(proto) in PROTOCOLS
  }

  /** `portRange` */
  function PortRange(ports: string): Result<(int, int)> {
    if ports == "" then Err
    else if '-' !in ports then
      match Atoi(ports)
      case Some(n) => Ok((n, n))
      case None => Err
    else
      var field := Split(ports, '-');
      if |field| != 2 then Err
      else
        match (Atoi(field[0]), Atoi(field[1]))
        case (Some(start), Some(end)) => if end < start then Err else Ok((start, end))
        case _ => Err
  }

  /** `fmt.Sprintf("%d", n)` */
  function Print(n: int): string { if n < 0 then "-" + Itoa(-n) else Itoa(n) }

  /** The canonical text of a range. */
  function Format(start: int, end: int, proto: string): string {
    (if start == end then Print(start) else Print(start) + "-" + Print(end)) + "/" + proto
  }

  /** `PortSet` */
  function PortSet(raw: string): Result<string> {
    var (port, proto) := GetPortProto(raw);
    if !ValidPortProto(raw) then Err
    else
      var range :- PortRange(port);
      Ok(Format(range.0, range.1, ToLower(proto)))
  }

  /** A range of ports and a protocol as the output shows them. */
  predicate Canonical(start: int, end: int, proto: string) { 0 <= start <= end <= MAX_PORT && proto in PROTOCOLS }

  /** Every accepted input gives a range within bounds and a known protocol in lower case. */
  lemma {:induction false} InBounds(raw: string)
    requires PortSet(raw).Ok?
    ensures exists start, end, proto :: Canonical(start, end, proto) && PortSet(raw) == Ok(Format(start, end, proto))
  {
    hide PortSet, Format, ToLower, GetPortProto, PortRange;
    Bounds(raw);
  }

  lemma {:induction false} NoSign(n: nat, c: char)
    requires !Digit(c)
    ensures c !in Itoa(n)
  {
    assert forall i :: 0 <= i < |Itoa(n)| ==> Digit(Itoa(n)[i]);
  }

  lemma {:induction false} ProtoFixed(proto: string)
    requires proto in PROTOCOLS
    ensures proto != "" && '/' !in proto && ToLower(proto) == proto
  {
    assert proto == "tcp" || proto == "udp" || proto == "sctp";
    assert forall i :: 0 <= i < |proto| ==> LowerChar(proto[i]) == proto[i];
  }

  /** The part of the canonical text in front of the slash. */
  function Numbers(start: nat, end: nat): string {
    if start == end then Itoa(start) else Itoa(start) + ['-'] + Itoa(end)
  }

  lemma {:induction false} NumbersRange(start: nat, end: nat)
    requires start <= end <= MAX_PORT
    ensures Numbers(start, end) != "" && '/' !in Numbers(start, end)
    ensures PortRange(Numbers(start, end)) == Ok((start, end))
    ensures forall i :: 0 <= i < |Split(Numbers(start, end), '-')| ==> ValidPort(Split(Numbers(start, end), '-')[i])
  {
    AtoiItoa(start);
    AtoiItoa(end);
    NoSign(start, '-');
    NoSign(end, '-');
    NoSign(start, '/');
    NoSign(end, '/');
    hide Atoi, Itoa;
    SplitNone(Itoa(end), '-');
    if start != end {
      SplitFirst(Itoa(start), '-', Itoa(end));
      assert Split(Numbers(start, end), '-') == [Itoa(start), Itoa(end)];
      assert Numbers(start, end)[|Itoa(start)|] == '-';
    }
  }

  /** The canonical text is normalised to itself. */
  lemma {:induction false} CanonicalFixed(start: int, end: int, proto: string)
    requires Canonical(start, end, proto)
    ensures PortSet(Format(start, end, proto)) == Ok(Format(start, end, proto))
  {
    ProtoFixed(proto);
    NumbersRange(start, end);
    var numbers := Numbers(start, end);
    assert Format(start, end, proto) == numbers + ['/'] + proto;
    hide Numbers, Format, ValidPort, PortRange, ToLower, Itoa;
    SplitFirst(numbers, '/', proto);
    SplitNone(proto, '/');
    assert Split(numbers + ['/'] + proto, '/') == [numbers, proto];
    assert GetPortProto(numbers + ['/'] + proto) == (numbers, proto);
  }

  /** Normalising the output again returns it unchanged. */
  lemma {:induction false} Idempotent(raw: string)
    requires PortSet(raw).Ok?
    ensures PortSet(PortSet(raw).value) == PortSet(raw)
  {
    hide PortSet, Format;
    InBounds(raw);
    var start, end, proto :| Canonical(start, end, proto) && PortSet(raw) == Ok(Format(start, end, proto));
    CanonicalFixed(start, end, proto);
  }

  /** The texts that normalising leaves alone are exactly the canonical ones. */
  lemma {:induction false} FixedIffCanonical(s: string)
    ensures PortSet(s) == Ok(s) <==> exists start, end, proto :: Canonical(start, end, proto) && s == Format(start, end, proto)
  {
    hide PortSet, Format;
    if PortSet(s) == Ok(s) { InBounds(s); }
    if start, end, proto :| Canonical(start, end, proto) && s == Format(start, end, proto) {
      CanonicalFixed(start, end, proto);
    }
  }

  // ---------- what a text stands for ----------

  /** One number, or two with a minus sign in between. */
  ghost predicate RangeText(ports: string, start: int, end: int) {
    || ('-' !in ports && Atoi(ports) == Some(start) && end == start)
    || exists a, b :: RangeAs(ports, a, b, start, end)
  }

  predicate RangeAs(ports: string, a: string, b: string, start: int, end: int) {
    '-' !in a && '-' !in b && ports == a + "-" + b && Atoi(a) == Some(start) && Atoi(b) == Some(end)
  }

  /** What follows the ports: nothing, or a slash and a protocol in any case; without a protocol tcp is meant. */
  ghost predicate ProtoText(tail: string, proto: string) {
    || (tail == "" && proto == "tcp")
    || exists q, junk :: ProtoAs(tail, q, junk, proto)
  }

  predicate ProtoAs(tail: string, q: string, junk: string, proto: string) {
    '/' !in q && (junk == "" || junk[0] == '/') && tail == "/" + q + junk && proto == if q == "" then "tcp" else ToLower(q)
  }

  ghost predicate Means(raw: string, start: int, end: int, proto: string) {
    exists ports, tail :: MeansAs(raw, ports, tail, start, end, proto)
  }

  ghost predicate MeansAs(raw: string, ports: string, tail: string, start: int, end: int, proto: string) {
    raw == ports + tail && '/' !in ports && RangeText(ports, start, end) && ProtoText(tail, proto)
  }

  lemma {:induction false} AtoiNotEmpty(s: string)
    requires Atoi(s).Some?
    ensures s != ""
  {
  }

  lemma {:induction false} RangeMeans(ports: string, start: int, end: int)
    requires RangeText(ports, start, end) && 0 <= start <= end <= MAX_PORT
    ensures ports != "" && PortRange(ports) == Ok((start, end))
    ensures forall i :: 0 <= i < |Split(ports, '-')| ==> ValidPort(Split(ports, '-')[i])
  {
    hide Atoi;
    if '-' !in ports {
      AtoiNotEmpty(ports);
      SplitNone(ports, '-');
    } else {
      var a, b :| RangeAs(ports, a, b, start, end);
      assert ports == a + ['-'] + b;
      SplitFirst(a, '-', b);
      SplitNone(b, '-');
      assert Split(ports, '-') == [a, b];
    }
  }

  lemma {:induction false} MeansRange(ports: string)
    requires PortRange(ports).Ok?
    ensures RangeText(ports, PortRange(ports).value.0, PortRange(ports).value.1)
  {
    hide Atoi;
    if '-' in ports {
      var field := Split(ports, '-');
      JoinSplit(ports, '-');
      assert field[1..] == [field[1]];
      assert ports == field[0] + "-" + field[1];
      assert field[0] in field && field[1] in field;
      assert RangeAs(ports, field[0], field[1], PortRange(ports).value.0, PortRange(ports).value.1);
    }
  }

  lemma {:induction false} ProtoMeans(ports: string, tail: string, proto: string)
    requires ports != "" && '/' !in ports && ProtoText(tail, proto)
    ensures GetPortProto(ports + tail).0 == ports && ToLower(GetPortProto(ports + tail).1) == proto
  {
    ProtoFixed("tcp");
    hide ToLower, Split;
    if tail == "" {
      assert ports + tail == ports;
      SplitNone(ports, '/');
    } else {
      var q, junk :| ProtoAs(tail, q, junk, proto);
      FirstTwo(ports, q, junk);
      assert ports + tail == ports + ("/" + q + junk);
    }
  }

  lemma {:induction false} FirstTwo(ports: string, q: string, junk: string)
    requires '/' !in ports && '/' !in q && (junk == "" || junk[0] == '/')
    ensures var field := Split(ports + ("/" + q + junk), '/'); |field| > 1 && field[0] == ports && field[1] == q
  {
    assert ports + ("/" + q + junk) == ports + ['/'] + (q + junk);
    SplitFirst(ports, '/', q + junk);
    if junk == "" {
      assert q + junk == q;
      SplitNone(q, '/');
    } else {
      assert q + junk == q + ['/'] + junk[1..];
      SplitFirst(q, '/', junk[1..]);
    }
    hide Split;
  }

  lemma {:induction false} MeansProto(raw: string) returns (tail: string)
    requires GetPortProto(raw).0 != ""
    ensures var (ports, proto) := GetPortProto(raw);
      raw == ports + tail && '/' !in ports && ProtoText(tail, ToLower(proto))
  {
    var field := Split(raw, '/');
    ProtoFixed("tcp");
    hide ToLower, Split, ProtoText, Join;
    assert field[0] in field;
    if |field| == 1 {
      JoinSplit(raw, '/');
      tail := "";
      assert raw + "" == raw && ProtoText("", "tcp") by { NoProto(); }
      assert raw == field[0] by { JoinOne(raw); }
    } else {
      var junk := TailOf(raw);
      tail := "/" + field[1] + junk;
      assert field[1] in field;
      ProtoGiven(field[1], junk);
    }
  }

  lemma {:induction false} JoinOne(raw: string)
    requires |Split(raw, '/')| == 1
    ensures Split(raw, '/')[0] == raw
  {
    JoinSplit(raw, '/');
  }

  lemma {:induction false} TailOf(raw: string) returns (junk: string)
    requires |Split(raw, '/')| > 1
    ensures (junk == "" || junk[0] == '/') && raw == Split(raw, '/')[0] + ("/" + Split(raw, '/')[1] + junk)
  {
    var field := Split(raw, '/');
    JoinSplit(raw, '/');
    hide Split;
    var rest := field[1..];
    junk := if |rest| == 1 then "" else "/" + Join(rest[1..], '/');
    assert Join(rest, '/') == field[1] + junk;
    assert raw == field[0] + ['/'] + Join(rest, '/');
  }

  lemma {:induction false} NoProto()
    ensures ProtoText("", "tcp")
  {
  }

  lemma {:induction false} ProtoGiven(q: string, junk: string)
    requires '/' !in q && (junk == "" || junk[0] == '/')
    ensures ProtoText("/" + q + junk, if q == "" then "tcp" else ToLower(q))
  {
    hide ToLower;
    assert ProtoAs("/" + q + junk, q, junk, if q == "" then "tcp" else ToLower(q));
  }

  lemma {:induction false} FormatOnce(a: int, b: int, p: string, c: int, d: int, q: string)
    requires Canonical(a, b, p) && Canonical(c, d, q) && Format(a, b, p) == Format(c, d, q)
    ensures a == c && b == d && p == q
  {
    ProtoFixed(p);
    ProtoFixed(q);
    NumbersRange(a, b);
    NumbersRange(c, d);
    var x, y := Numbers(a, b), Numbers(c, d);
    assert Format(a, b, p) == x + ['/'] + p && Format(c, d, q) == y + ['/'] + q;
    hide Numbers, Format, PortRange, Split;
    SplitFirst(x, '/', p);
    SplitFirst(y, '/', q);
    SplitNone(p, '/');
    SplitNone(q, '/');
    assert [x] + [p] == [y] + [q];
    assert ([x] + [p])[0] == x && ([y] + [q])[0] == y && ([x] + [p])[1] == p && ([y] + [q])[1] == q;
  }

  /**
  Exactly which texts give which range: ports and protocol as written, tcp where none is written, both ports within bounds
  and in order. Everything else is refused.
  */
  lemma {:induction false} PortSetIff(raw: string, start: int, end: int, proto: string)
    requires Canonical(start, end, proto)
    ensures PortSet(raw) == Ok(Format(start, end, proto)) <==> Means(raw, start, end, proto)
  {
    if Means(raw, start, end, proto) {
      var ports, tail :| MeansAs(raw, ports, tail, start, end, proto);
      RangeMeans(ports, start, end);
      ProtoMeans(ports, tail, proto);
    }
    if PortSet(raw) == Ok(Format(start, end, proto)) {
      Accepted(raw, start, end, proto);
    }
  }

  lemma {:induction false} Accepted(raw: string, start: int, end: int, proto: string)
    requires Canonical(start, end, proto) && PortSet(raw) == Ok(Format(start, end, proto))
    ensures Means(raw, start, end, proto)
  {
    hide Atoi, ToLower, Format, Split, ProtoText, RangeText;
    var (ports, p) := GetPortProto(raw);
    var range := PortRange(ports).value;
    assert ports != "";
    var tail := MeansProto(raw);
    MeansRange(ports);
    Bounds(raw);
    FormatOnce(start, end, proto, range.0, range.1, ToLower(p));
    assert MeansAs(raw, ports, tail, start, end, proto);
  }

  lemma {:induction false} Bounds(raw: string)
    requires PortSet(raw).Ok?
    ensures
      var (ports, p) := GetPortProto(raw);
      && PortRange(ports).Ok? && Canonical(PortRange(ports).value.0, PortRange(ports).value.1, ToLower(p))
      && PortSet(raw) == Ok(Format(PortRange(ports).value.0, PortRange(ports).value.1, ToLower(p)))
  {
    hide Atoi, ToLower, Format, GetPortProto;
    var (port, proto) := GetPortProto(raw);
    if '-' !in port {
      SplitNone(port, '-');
      assert ValidPort(Split(port, '-')[0]);
    } else {
      assert ValidPort(Split(port, '-')[0]) && ValidPort(Split(port, '-')[1]);
    }
  }
}
