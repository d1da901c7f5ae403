/** Certificates as C arrays: the printer that the certificate generator
    (benchmarking/host/gen_benchmark_certs.py) and the runner (benchmarking/run_benchmarks.py) share
    line by line, with a reader for what it prints. */
module CertHeader {
  import opened Numbers
  import opened Options
  import opened Text

  function HexDigit(n: nat): char
    requires n < 16
  {
    if n < 10 then '0' + n as char else 'a' + (n - 10) as char
  }

  function Hex(b: Byte): string { "0x" + [HexDigit(b / 16), HexDigit(b % 16)] }

  function Hexes(der: seq<Byte>): seq<string> {
    seq(|der|, k requires 0 <= k < |der| => Hex(der[k]))
  }

  const PER_LINE := 12

  function LineText(chunk: seq<Byte>, more: bool): string {
    "    " + Join(Hexes(chunk), ", ") + (if more then "," else "") + "\n"
  }

  /** The initialiser lines of an array. */
  function BodyText(der: seq<Byte>): string {
    if der == [] then ""
    else
      var n := Min(PER_LINE, |der|);
      LineText(der[..n], n < |der|) + BodyText(der[n..])
  }

  const ARRAY_OPEN := "static const unsigned char "

  const CLOSE := "};"

  function ArrayText(name: string, der: seq<Byte>): string {
    ARRAY_OPEN + name + "[] = {" + "\n" + BodyText(der) + CLOSE + "\n"
  }

  method WriteDerArray(name: string, der: seq<Byte>) returns (text: string)
    ensures text == ArrayText(name, der)
  {
    text := ARRAY_OPEN + name + "[] = {" + "\n";
    ghost var head := text;
    var offset := 0;
    while offset < |der|
      invariant 0 <= offset <= |der|
      invariant text + BodyText(der[offset..]) == head + BodyText(der)
    {
      var end := Min(offset + PER_LINE, |der|);
      ghost var rest := der[offset..];
      assert rest[..end - offset] == der[offset..end] && rest[end - offset..] == der[end..];
      text := text + LineText(der[offset..end], offset + PER_LINE < |der|);
      offset := end;
    }
    text := text + CLOSE + "\n";
  }

  // ----- reading the initialiser back -----

  function NoBlanks(s: string): string {
    if s == "" then "" else (if s[0] in {' ', '\n'} then "" else [s[0]]) + NoBlanks(s[1..])
  }

  function HexValue(c: char): Option<nat> {
    if '0' <= c <= '9' then Some(c as int - '0' as int)
    else if 'a' <= c <= 'f' then Some(c as int - 'a' as int + 10) else None
  }

  function ReadHex(token: string): Option<int> {
    if |token| == 4 && token[..2] == "0x" && HexValue(token[2]).Some? && HexValue(token[3]).Some?
    then Some(16 * HexValue(token[2]).value + HexValue(token[3]).value) else None
  }

  function ReadAll(tokens: seq<string>): Option<seq<int>> {
    if tokens == [] then Some([])
    else match (ReadHex(tokens[0]), ReadAll(tokens[1..]))
      case (Some(b), Some(rest)) => Some([b] + rest)
      case _ => None
  }

  /** The values between the braces: comma-separated two-digit hexadecimal, blanks ignored. */
  function ReadBody(body: string): Option<seq<int>> { ReadAll(Split(NoBlanks(body), ',')) }

  lemma {:induction false} NoBlanksAppend(a: string, b: string)
    ensures NoBlanks(a + b) == NoBlanks(a) + NoBlanks(b)
  {
    if a == "" {
      assert a + b == b;
    } else {
      assert (a + b)[1..] == a[1..] + b;
      NoBlanksAppend(a[1..], b);
    }
  }

  lemma HexShape(b: Byte)
    ensures NoBlanks(Hex(b)) == Hex(b) && ',' !in Hex(b) && ReadHex(Hex(b)) == Some(b)
  {
    var h := Hex(b);
    assert h[1..] == ['x', h[2], h[3]] && h[1..][1..] == [h[2], h[3]] && h[1..][1..][1..] == [h[3]];
    assert NoBlanks([h[3]]) == [h[3]] && NoBlanks([h[2], h[3]]) == [h[2]] + NoBlanks([h[3]]);
  }

  lemma {:induction false} JoinNoBlanks(der: seq<Byte>)
    ensures NoBlanks(Join(Hexes(der), ", ")) == Join(Hexes(der), ",")
  {
    if |der| >= 1 {
      HexShape(der[0]);
      assert Hexes(der)[1..] == Hexes(der[1..]);
      if |der| > 1 {
        JoinNoBlanks(der[1..]);
        NoBlanksAppend(Hex(der[0]) + ", ", Join(Hexes(der[1..]), ", "));
        NoBlanksAppend(Hex(der[0]), ", ");
        assert ", "[1..] == " " && NoBlanks(" ") == "" && NoBlanks(", ") == ",";
      }
    }
  }

  lemma {:induction false} JoinAppend(xs: seq<string>, ys: seq<string>)
    requires xs != [] && ys != []
    ensures Join(xs + ys, ",") == Join(xs, ",") + "," + Join(ys, ",")
  {
    if |xs| == 1 {
      assert xs + ys == [xs[0]] + ys && (xs + ys)[1..] == ys;
    } else {
      assert (xs + ys)[1..] == xs[1..] + ys;
      JoinAppend(xs[1..], ys);
    }
  }

  lemma LineNoBlanks(chunk: seq<Byte>, more: bool)
    ensures NoBlanks(LineText(chunk, more)) == Join(Hexes(chunk), ",") + if more then "," else ""
  {
    var joined := Join(Hexes(chunk), ", ");
    var comma := if more then "," else "";
    JoinNoBlanks(chunk);
    NoBlanksAppend("    " + joined + comma, "\n");
    NoBlanksAppend("    " + joined, comma);
    NoBlanksAppend("    ", joined);
    assert NoBlanks("\n") == "" && NoBlanks(comma) == comma;
    assert "    "[1..] == "   " && "   "[1..] == "  " && "  "[1..] == " " && NoBlanks(" ") == "";
  }

  /** Line breaks every twelve bytes leave exactly one separator between neighbours. */
  lemma {:induction false} BodyNoBlanks(der: seq<Byte>)
    requires der != []
    ensures NoBlanks(BodyText(der)) == Join(Hexes(der), ",")
    decreases |der|
  {
    var n := Min(PER_LINE, |der|);
    LineNoBlanks(der[..n], n < |der|);
    NoBlanksAppend(LineText(der[..n], n < |der|), BodyText(der[n..]));
    if n < |der| {
      BodyNoBlanks(der[n..]);
      JoinAppend(Hexes(der[..n]), Hexes(der[n..]));
      assert Hexes(der) == Hexes(der[..n]) + Hexes(der[n..]);
    } else {
      assert der[..n] == der;
    }
  }

  lemma {:induction false} ReadHexes(der: seq<Byte>)
    ensures ReadAll(Hexes(der)) == Some(der)
  {
    if der == [] {
    } else {
      HexShape(der[0]);
      assert Hexes(der)[1..] == Hexes(der[1..]);
      ReadHexes(der[1..]);
      assert der == [der[0]] + der[1..];
    }
  }

  function Commas(s: string): nat { if s == "" then 0 else (if s[0] == ',' then 1 else 0) + Commas(s[1..]) }

  lemma {:induction false} CommasAppend(a: string, b: string)
    ensures Commas(a + b) == Commas(a) + Commas(b)
  {
    if a == "" {
      assert a + b == b;
    } else {
      assert (a + b)[1..] == a[1..] + b;
      CommasAppend(a[1..], b);
    }
  }

  lemma {:induction false} NoCommas(s: string)
    requires ',' !in s
    ensures Commas(s) == 0
  {
    if s == "" {
    } else {
      NoCommas(s[1..]);
    }
  }

  lemma {:induction false} JoinCommas(der: seq<Byte>)
    requires der != []
    ensures Commas(Join(Hexes(der), ",")) == |der| - 1
  {
    HexShape(der[0]);
    NoCommas(Hex(der[0]));
    assert Hexes(der)[1..] == Hexes(der[1..]);
    if |der| <= 1 {
    } else {
      JoinCommas(der[1..]);
      CommasAppend(Hex(der[0]) + ",", Join(Hexes(der[1..]), ","));
      CommasAppend(Hex(der[0]), ",");
    }
  }

  lemma {:induction false} BlanksHoldNoCommas(s: string)
    ensures Commas(NoBlanks(s)) == Commas(s)
  {
    if s == "" {
    } else {
      BlanksHoldNoCommas(s[1..]);
      CommasAppend(if s[0] in {' ', '\n'} then "" else [s[0]], NoBlanks(s[1..]));
    }
  }

  lemma TokensHoldNoCommas(der: seq<Byte>)
    ensures forall p <- Hexes(der) :: ',' !in p
  {
    forall p | p in Hexes(der) ensures ',' !in p {
      var k :| 0 <= k < |der| && Hexes(der)[k] == p;
      HexShape(der[k]);
    }
  }

  lemma JoinedReadsBack(der: seq<Byte>)
    requires der != []
    ensures ReadAll(Split(Join(Hexes(der), ","), ',')) == Some(der)
  {
    TokensHoldNoCommas(der);
    SplitJoin(Hexes(der), ',');
    ReadHexes(der);
  }

  /** Every non-empty certificate reads back byte for byte, with one comma fewer than bytes. */
  lemma ArrayRoundTrip(der: seq<Byte>)
    requires der != []
    ensures ReadBody(BodyText(der)) == Some(der)
    ensures Commas(BodyText(der)) == |der| - 1
  {
    BodyNoBlanks(der);
    JoinedReadsBack(der);
    JoinCommas(der);
    BlanksHoldNoCommas(BodyText(der));
  }
}
