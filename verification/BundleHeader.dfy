/** The C headers that list CA certificates: the single-CA printer of the certificate generator
    (benchmarking/host/gen_benchmark_certs.py, write_header) and the bundle printer of the runner
    (benchmarking/run_benchmarks.py, write_ca_bundle_header), with a line reader for both. */
module BundleHeader {
  import opened CertHeader
  import opened Numbers
  import opened Options
  import opened Text

  /** Each line with its line end. */
  function Unlines(lines: seq<string>): string {
    if lines == [] then "" else Unlines(lines[..|lines| - 1]) + lines[|lines| - 1] + "\n"
  }

  const PREAMBLE_LINES := [
    "#ifndef APP_BENCHMARK_CERT_H",
    "#define APP_BENCHMARK_CERT_H",
    "",
    "struct benchmark_ca_cert {",
    "    const unsigned char *der;",
    "    unsigned int len;",
    "    const char *name;",
    "};",
    ""]

  const PREAMBLE := Unlines(PREAMBLE_LINES)

  const TABLE_OPEN := "static const struct benchmark_ca_cert" + " benchmark_ca_certs[] = {"

  const COUNT_OPEN := "static const unsigned int " + "benchmark_ca_cert_count = "

  datatype Ca = Ca(name: string, der: seq<Byte>)

  function ArrayName(i: nat): string { "ca_cert_der_" + Decimal(i) }

  function EntryLine(i: nat, name: string): string {
    "    { " + ArrayName(i) + ", sizeof(" + ArrayName(i) + "), \"" + name + "\" },"
  }

  function Arrays(cas: seq<Ca>, n: nat): string
    requires n <= |cas|
  {
    if n == 0 then "" else Arrays(cas, n - 1) + ArrayText(ArrayName(n - 1), cas[n - 1].der)
  }

  function Table(cas: seq<Ca>, n: nat): string
    requires n <= |cas|
  {
    if n == 0 then "" else Table(cas, n - 1) + EntryLine(n - 1, cas[n - 1].name) + "\n"
  }

  function HeaderText(arrays: string, table: string, count: string): string {
    PREAMBLE + arrays + TABLE_OPEN + "\n" + table + CLOSE + "\n" + COUNT_OPEN + count + ";" + "\n" + "\n" + "#endif" + "\n"
  }

  function BundleText(cas: seq<Ca>): string { HeaderText(Arrays(cas, |cas|), Table(cas, |cas|), Decimal(|cas|)) }

  /** No two arrays share a name. */
  lemma ArrayNamesDiffer(i: nat, j: nat)
    requires ArrayName(i) == ArrayName(j)
    ensures i == j
  {
    var prefix := "ca_cert_der_";
    assert Decimal(i) == ArrayName(i)[|prefix|..] == Decimal(j);
    ReadDecimal(i);
    ReadDecimal(j);
  }

  // ----- the reader -----

  /** A table line: the array, the operand of sizeof, and the name. */
  datatype TableEntry = TableEntry(der: string, sized: string, name: string)

  datatype NamedArray = NamedArray(name: string, bytes: Option<seq<int>>)

  datatype Mode = Outside | InArray(name: string, body: string) | InTable

  datatype Header = Header(mode: Mode, arrays: seq<NamedArray>, table: seq<TableEntry>, count: int)

  const EMPTY := Header(Outside, [], [], -1)

  /** The text between the first `skip` and the last `drop` characters. */
  function Trim(s: string, skip: nat, drop: nat): string {
    if skip + drop <= |s| then s[skip..|s| - drop] else ""
  }

  function ReadTableLine(line: string): TableEntry {
    var byQuote := Split(line, '"');
    var byComma := Split(byQuote[0], ',');
    TableEntry(Trim(byComma[0], 6, 0), if |byComma| > 1 then Trim(byComma[1], 8, 1) else "",
               if |byQuote| > 1 then byQuote[1] else "")
  }

  function ReadLine(h: Header, line: string): Header {
    match h.mode
    case Outside =>
      if line == TABLE_OPEN then h.(mode := InTable)
      else if ARRAY_OPEN <= line then h.(mode := InArray(Trim(line, |ARRAY_OPEN|, 6), ""))
      else if COUNT_OPEN <= line then h.(count := ReadInt(Trim(line, |COUNT_OPEN|, 1)))
      else h
    case InArray(name, body) =>
      if line == CLOSE then h.(mode := Outside, arrays := h.arrays + [NamedArray(name, ReadBody(body))])
      else h.(mode := InArray(name, body + line + "\n"))
    case InTable =>
      if line == CLOSE then h.(mode := Outside) else h.(table := h.table + [ReadTableLine(line)])
  }

  function ReadLines(h: Header, lines: seq<string>): Header {
    if lines == [] then h else ReadLine(ReadLines(h, lines[..|lines| - 1]), lines[|lines| - 1])
  }

  function ReadHeader(text: string): Header { ReadLines(EMPTY, Split(text, '\n')) }

  // ----- the header as lines -----

  function BodyLine(chunk: seq<Byte>, more: bool): string {
    "    " + Join(Hexes(chunk), ", ") + (if more then "," else "")
  }

  function BodyLines(der: seq<Byte>): seq<string> {
    if der == [] then []
    else
      var n := Min(PER_LINE, |der|);
      [BodyLine(der[..n], n < |der|)] + BodyLines(der[n..])
  }

  function ArrayLines(name: string, der: seq<Byte>): seq<string> {
    [ARRAY_OPEN + name + "[] = {"] + BodyLines(der) + [CLOSE]
  }

  function AllArrayLines(cas: seq<Ca>, n: nat): seq<string>
    requires n <= |cas|
  {
    if n == 0 then [] else AllArrayLines(cas, n - 1) + ArrayLines(ArrayName(n - 1), cas[n - 1].der)
  }

  function TableLines(cas: seq<Ca>, n: nat): seq<string>
    requires n <= |cas|
  {
    if n == 0 then [] else TableLines(cas, n - 1) + [EntryLine(n - 1, cas[n - 1].name)]
  }

  function BundleLines(cas: seq<Ca>): seq<string> {
    PREAMBLE_LINES + AllArrayLines(cas, |cas|) + ([TABLE_OPEN] + TableLines(cas, |cas|) + [CLOSE])
      + [COUNT_OPEN + Decimal(|cas|) + ";", "", "#endif"]
  }

  lemma {:induction false} UnlinesAppend(a: seq<string>, b: seq<string>)
    ensures Unlines(a + b) == Unlines(a) + Unlines(b)
  {
    if b == [] {
      assert a + b == a;
    } else {
      assert (a + b)[..|a + b| - 1] == a + b[..|b| - 1];
      UnlinesAppend(a, b[..|b| - 1]);
    }
  }

  lemma UnlinesOne(line: string)
    ensures Unlines([line]) == line + "\n"
  {
    assert [line][..0] == [] && Unlines([]) == "";
  }

  lemma {:induction false} BodyIsLines(der: seq<Byte>)
    ensures Unlines(BodyLines(der)) == BodyText(der)
    decreases |der|
  {
    if der == [] {
    } else {
      var n := Min(PER_LINE, |der|);
      BodyIsLines(der[n..]);
      UnlinesAppend([BodyLine(der[..n], n < |der|)], BodyLines(der[n..]));
      UnlinesOne(BodyLine(der[..n], n < |der|));
    }
  }

  lemma WrappedIsLines(open: string, lines: seq<string>, close: string)
    ensures Unlines([open] + lines + [close]) == open + "\n" + Unlines(lines) + close + "\n"
  {
    UnlinesAppend([open] + lines, [close]);
    UnlinesAppend([open], lines);
    UnlinesOne(open);
    UnlinesOne(close);
  }

  lemma ArrayIsLines(name: string, der: seq<Byte>)
    ensures Unlines(ArrayLines(name, der)) == ArrayText(name, der)
  {
    WrappedIsLines(ARRAY_OPEN + name + "[] = {", BodyLines(der), CLOSE);
    BodyIsLines(der);
  }

  lemma {:induction false} ArraysAreLines(cas: seq<Ca>, n: nat)
    requires n <= |cas|
    ensures Unlines(AllArrayLines(cas, n)) == Arrays(cas, n)
  {
    if n == 0 {
    } else {
      ArraysAreLines(cas, n - 1);
      UnlinesAppend(AllArrayLines(cas, n - 1), ArrayLines(ArrayName(n - 1), cas[n - 1].der));
      ArrayIsLines(ArrayName(n - 1), cas[n - 1].der);
    }
  }

  lemma {:induction false} TableIsLines(cas: seq<Ca>, n: nat)
    requires n <= |cas|
    ensures Unlines(TableLines(cas, n)) == Table(cas, n)
  {
    if n == 0 {
    } else {
      TableIsLines(cas, n - 1);
      var line := EntryLine(n - 1, cas[n - 1].name);
      UnlinesAppend(TableLines(cas, n - 1), [line]);
      UnlinesOne(line);
    }
  }

  lemma TailIsLines(count: string)
    ensures Unlines([count, "", "#endif"]) == count + "\n" + "\n" + "#endif" + "\n"
  {
    WrappedIsLines(count, [""], "#endif");
    UnlinesOne("");
    assert [count] + [""] + ["#endif"] == [count, "", "#endif"];
  }

  lemma TableSectionIsLines(cas: seq<Ca>)
    ensures Unlines([TABLE_OPEN] + TableLines(cas, |cas|) + [CLOSE]) == TABLE_OPEN + "\n" + Table(cas, |cas|) + CLOSE + "\n"
  {
    TableIsLines(cas, |cas|);
    WrappedIsLines(TABLE_OPEN, TableLines(cas, |cas|), CLOSE);
  }

  lemma UnlinesParts(a: seq<string>, b: seq<string>, c: seq<string>, d: seq<string>)
    ensures Unlines(a + b + c + d) == Unlines(a) + Unlines(b) + Unlines(c) + Unlines(d)
  {
    UnlinesAppend(a, b);
    UnlinesAppend(a + b, c);
    UnlinesAppend(a + b + c, d);
  }

  lemma Regroup(start: string, open: string, table: string, close: string, count: string, n: string, end: string)
    ensures start + (open + "\n" + table + close + "\n") + (count + n + ";" + "\n" + "\n" + end + "\n")
         == start + open + "\n" + table + close + "\n" + count + n + ";" + "\n" + "\n" + end + "\n"
  {}

  lemma BundleIsLines(cas: seq<Ca>)
    ensures Unlines(BundleLines(cas)) == BundleText(cas)
  {
    ArraysAreLines(cas, |cas|);
    TableSectionIsLines(cas);
    TailIsLines(COUNT_OPEN + Decimal(|cas|) + ";");
    UnlinesParts(PREAMBLE_LINES, AllArrayLines(cas, |cas|), [TABLE_OPEN] + TableLines(cas, |cas|) + [CLOSE],
                 [COUNT_OPEN + Decimal(|cas|) + ";", "", "#endif"]);
    Regroup(PREAMBLE + Arrays(cas, |cas|), TABLE_OPEN, Table(cas, |cas|), CLOSE, COUNT_OPEN, Decimal(|cas|), "#endif");
  }

  // ----- no line holds a line end -----

  predicate AllOneLine(lines: seq<string>) { forall k :: 0 <= k < |lines| ==> OneLine(lines[k]) }

  lemma {:induction false} SplitUnlines(lines: seq<string>)
    requires AllOneLine(lines)
    ensures Split(Unlines(lines), '\n') == lines + [""]
  {
    if lines == [] {
    } else {
      SplitUnlines(lines[1..]);
      UnlinesAppend([lines[0]], lines[1..]);
      UnlinesOne(lines[0]);
      assert lines == [lines[0]] + lines[1..];
      SplitField(lines[0], Unlines(lines[1..]), '\n');
      assert lines[0] + "\n" + Unlines(lines[1..]) == lines[0] + ['\n'] + Unlines(lines[1..]);
    }
  }

  lemma {:induction false} HexesOneLine(der: seq<Byte>)
    ensures OneLine(Join(Hexes(der), ", "))
  {
    if der == [] {
    } else {
      assert OneLine(Hex(der[0])) && OneLine(", ");
      assert Hexes(der)[1..] == Hexes(der[1..]);
      HexesOneLine(der[1..]);
    }
  }

  lemma {:induction false} BodyLinesShape(der: seq<Byte>)
    ensures AllOneLine(BodyLines(der)) && CLOSE !in BodyLines(der)
    decreases |der|
  {
    if der == [] {
    } else {
      var n := Min(PER_LINE, |der|);
      HexesOneLine(der[..n]);
      BodyLinesShape(der[n..]);
      var line := BodyLine(der[..n], n < |der|);
      assert line[0] == ' ' && CLOSE[0] == '}';
    }
  }

  lemma ArrayNameShape(i: nat)
    ensures OneLine(ArrayName(i)) && '"' !in ArrayName(i) && ',' !in ArrayName(i)
  {
    DigitsShape(i);
  }

  predicate NamesPlain(cas: seq<Ca>) { forall k :: 0 <= k < |cas| ==> OneLine(cas[k].name) && '"' !in cas[k].name }

  lemma OneLineAppend(a: seq<string>, b: seq<string>)
    requires AllOneLine(a) && AllOneLine(b)
    ensures AllOneLine(a + b)
  {}

  lemma OpenersShape()
    ensures OneLine(TABLE_OPEN) && OneLine(CLOSE) && OneLine(ARRAY_OPEN) && OneLine(COUNT_OPEN)
  {}

  lemma ArrayLinesShape(name: string, der: seq<Byte>)
    requires OneLine(name)
    ensures AllOneLine(ArrayLines(name, der))
  {
    OpenersShape();
    BodyLinesShape(der);
    assert OneLine("[] = {");
    OneLineAppend([ARRAY_OPEN + name + "[] = {"], BodyLines(der));
    OneLineAppend([ARRAY_OPEN + name + "[] = {"] + BodyLines(der), [CLOSE]);
  }

  lemma {:induction false} AllArrayLinesShape(cas: seq<Ca>, n: nat)
    requires n <= |cas|
    ensures AllOneLine(AllArrayLines(cas, n))
  {
    if n == 0 {
    } else {
      AllArrayLinesShape(cas, n - 1);
      ArrayNameShape(n - 1);
      ArrayLinesShape(ArrayName(n - 1), cas[n - 1].der);
      OneLineAppend(AllArrayLines(cas, n - 1), ArrayLines(ArrayName(n - 1), cas[n - 1].der));
    }
  }

  lemma EntryLineShape(i: nat, name: string)
    requires OneLine(name)
    ensures OneLine(EntryLine(i, name)) && EntryLine(i, name) != CLOSE
  {
    ArrayNameShape(i);
    assert EntryLine(i, name)[0] == ' ' && CLOSE[0] == '}';
    assert OneLine("    { ") && OneLine(", sizeof(") && OneLine("), \"") && OneLine("\" },");
  }

  lemma {:induction false} TableLinesShape(cas: seq<Ca>, n: nat)
    requires n <= |cas| && NamesPlain(cas)
    ensures AllOneLine(TableLines(cas, n))
  {
    if n == 0 {
    } else {
      TableLinesShape(cas, n - 1);
      EntryLineShape(n - 1, cas[n - 1].name);
      OneLineAppend(TableLines(cas, n - 1), [EntryLine(n - 1, cas[n - 1].name)]);
    }
  }

  lemma GuardsShape()
    ensures OneLine("#ifndef APP_BENCHMARK_CERT_H") && OneLine("#define APP_BENCHMARK_CERT_H") && OneLine("") && OneLine(CLOSE)
  {}

  lemma StructShape()
    ensures OneLine("struct benchmark_ca_cert {") && OneLine("    const unsigned char *der;")
    ensures OneLine("    unsigned int len;") && OneLine("    const char *name;")
  {}

  lemma PreambleShape()
    ensures AllOneLine(PREAMBLE_LINES)
  {
    GuardsShape();
    StructShape();
  }

  lemma PreambleIgnored()
    ensures forall k :: 0 <= k < |PREAMBLE_LINES| ==> Ignored(PREAMBLE_LINES[k])
  {}

  lemma TailShape(n: nat)
    ensures AllOneLine([COUNT_OPEN + Decimal(n) + ";", "", "#endif"])
  {
    DigitsShape(n);
    OpenersShape();
    assert OneLine(Decimal(n)) && OneLine(";") && OneLine("#endif");
  }

  lemma BundleLinesShape(cas: seq<Ca>)
    requires NamesPlain(cas)
    ensures AllOneLine(BundleLines(cas))
  {
    var arrays, table := AllArrayLines(cas, |cas|), TableLines(cas, |cas|);
    PreambleShape();
    AllArrayLinesShape(cas, |cas|);
    TableLinesShape(cas, |cas|);
    TailShape(|cas|);
    OpenersShape();
    OneLineAppend(PREAMBLE_LINES, arrays);
    OneLineAppend([TABLE_OPEN], table);
    OneLineAppend([TABLE_OPEN] + table, [CLOSE]);
    OneLineAppend(PREAMBLE_LINES + arrays, [TABLE_OPEN] + table + [CLOSE]);
    OneLineAppend(PREAMBLE_LINES + arrays + ([TABLE_OPEN] + table + [CLOSE]), [COUNT_OPEN + Decimal(|cas|) + ";", "", "#endif"]);
  }

  // ----- reading the lines -----

  lemma {:induction false} ReadAppend(h: Header, a: seq<string>, b: seq<string>)
    ensures ReadLines(h, a + b) == ReadLines(ReadLines(h, a), b)
  {
    if b == [] {
      assert a + b == a;
    } else {
      assert (a + b)[..|a + b| - 1] == a + b[..|b| - 1];
      ReadAppend(h, a, b[..|b| - 1]);
    }
  }

  lemma ReadTwice(h: Header, a: seq<string>, between: Header, b: seq<string>, end: Header)
    requires ReadLines(h, a) == between && ReadLines(between, b) == end
    ensures ReadLines(h, a + b) == end
  {
    ReadAppend(h, a, b);
  }

  lemma ReadWrapped(h: Header, open: string, inside: Header, lines: seq<string>, filled: Header, close: string, end: Header)
    requires ReadLine(h, open) == inside && ReadLines(inside, lines) == filled && ReadLine(filled, close) == end
    ensures ReadLines(h, [open] + lines + [close]) == end
  {
    ReadOne(h, open);
    ReadTwice(h, [open], inside, lines, filled);
    ReadOne(filled, close);
    ReadTwice(h, [open] + lines, filled, [close], end);
  }

  lemma ReadOne(h: Header, line: string)
    ensures ReadLines(h, [line]) == ReadLine(h, line)
  {
    assert [line][..0] == [] && ReadLines(h, []) == h;
  }

  /** Opens nothing. */
  predicate Ignored(line: string) { |line| < 3 || line[0] != 's' || line[2] != 'a' }

  lemma {:induction false} ReadIgnored(h: Header, lines: seq<string>)
    requires h.mode == Outside && forall k :: 0 <= k < |lines| ==> Ignored(lines[k])
    ensures ReadLines(h, lines) == h
  {
    if lines == [] {
    } else {
      ReadIgnored(h, lines[..|lines| - 1]);
      assert ARRAY_OPEN[0] == COUNT_OPEN[0] == TABLE_OPEN[0] == 's' && ARRAY_OPEN[2] == COUNT_OPEN[2] == TABLE_OPEN[2] == 'a';
    }
  }

  lemma {:induction false} ReadBodyLines(h: Header, name: string, lines: seq<string>)
    requires h.mode == InArray(name, "") && CLOSE !in lines
    ensures ReadLines(h, lines) == h.(mode := InArray(name, Unlines(lines)))
  {
    if lines == [] {
    } else {
      ReadBodyLines(h, name, lines[..|lines| - 1]);
      assert lines[|lines| - 1] in lines;
    }
  }

  lemma ReadArrayOpen(h: Header, name: string)
    requires h.mode == Outside
    ensures ReadLine(h, ARRAY_OPEN + name + "[] = {") == h.(mode := InArray(name, ""))
  {
    var line := ARRAY_OPEN + name + "[] = {";
    assert line[13] == 'u' && TABLE_OPEN[13] == 's';
    assert line[|ARRAY_OPEN|..|line| - 6] == name;
  }

  lemma ReadArray(h: Header, name: string, der: seq<Byte>)
    requires h.mode == Outside && der != []
    ensures ReadLines(h, ArrayLines(name, der)) == h.(arrays := h.arrays + [NamedArray(name, Some(der))])
  {
    var inside := h.(mode := InArray(name, ""));
    ReadArrayOpen(h, name);
    BodyLinesShape(der);
    ReadBodyLines(inside, name, BodyLines(der));
    BodyIsLines(der);
    ArrayRoundTrip(der);
    ReadWrapped(h, ARRAY_OPEN + name + "[] = {", inside, BodyLines(der), h.(mode := InArray(name, BodyText(der))), CLOSE,
                h.(arrays := h.arrays + [NamedArray(name, Some(der))]));
  }

  function NamedArrays(cas: seq<Ca>, n: nat): (r: seq<NamedArray>)
    requires n <= |cas|
    ensures |r| == n && forall k :: 0 <= k < n ==> r[k] == NamedArray(ArrayName(k), Some(cas[k].der))
  {
    seq(n, k requires 0 <= k < n => NamedArray(ArrayName(k), Some(cas[k].der)))
  }

  function Entries(cas: seq<Ca>, n: nat): (r: seq<TableEntry>)
    requires n <= |cas|
    ensures |r| == n && forall k :: 0 <= k < n ==> r[k] == TableEntry(ArrayName(k), ArrayName(k), cas[k].name)
  {
    seq(n, k requires 0 <= k < n => TableEntry(ArrayName(k), ArrayName(k), cas[k].name))
  }

  lemma {:induction false} ReadArrays(cas: seq<Ca>, n: nat)
    requires n <= |cas| && forall k :: 0 <= k < |cas| ==> cas[k].der != []
    ensures ReadLines(EMPTY, AllArrayLines(cas, n)) == EMPTY.(arrays := NamedArrays(cas, n))
  {
    if n == 0 {
    } else {
      ReadArrays(cas, n - 1);
      ReadArraysStep(cas, n);
    }
  }

  lemma ReadArraysStep(cas: seq<Ca>, n: nat)
    requires 0 < n <= |cas| && cas[n - 1].der != []
    requires ReadLines(EMPTY, AllArrayLines(cas, n - 1)) == EMPTY.(arrays := NamedArrays(cas, n - 1))
    ensures ReadLines(EMPTY, AllArrayLines(cas, n)) == EMPTY.(arrays := NamedArrays(cas, n))
  {
    var before, name, der := EMPTY.(arrays := NamedArrays(cas, n - 1)), ArrayName(n - 1), cas[n - 1].der;
    ReadArray(before, name, der);
    NamedArraysSnoc(cas, n);
    ReadTwice(EMPTY, AllArrayLines(cas, n - 1), before, ArrayLines(name, der), EMPTY.(arrays := NamedArrays(cas, n)));
  }

  lemma NamedArraysSnoc(cas: seq<Ca>, n: nat)
    requires 0 < n <= |cas|
    ensures NamedArrays(cas, n) == NamedArrays(cas, n - 1) + [NamedArray(ArrayName(n - 1), Some(cas[n - 1].der))]
  {}

  lemma SplitEntry(pre: string, name: string)
    requires '"' !in pre && '"' !in name
    ensures var parts := Split(pre + "\"" + name + "\" },", '"'); |parts| >= 2 && parts[0] == pre && parts[1] == name
  {
    assert pre + "\"" + name + "\" }," == pre + ['"'] + (name + ['"'] + " },");
    SplitField(pre, name + ['"'] + " },", '"');
    SplitField(name, " },", '"');
  }

  lemma SplitTwo(first: string, second: string, third: string)
    requires ',' !in first && ',' !in second
    ensures var parts := Split(first + "," + second + "," + third, ','); |parts| >= 2 && parts[0] == first && parts[1] == second
  {
    assert first + "," + second + "," + third == first + [','] + (second + [','] + third);
    SplitField(first, second + [','] + third, ',');
    SplitField(second, third, ',');
  }

  lemma SplitOperands(operand: string)
    requires ',' !in operand
    ensures
      var parts := Split("    { " + operand + ", sizeof(" + operand + "), ", ',');
      |parts| >= 2 && parts[0] == "    { " + operand && parts[1] == " sizeof(" + operand + ")"
  {
    var first, second := "    { " + operand, " sizeof(" + operand + ")";
    assert ", sizeof(" == "," + " sizeof(" && "), " == ")" + "," + " ";
    assert first + ", sizeof(" + operand + "), " == first + "," + second + "," + " ";
    SplitTwo(first, second, " ");
  }

  lemma EntryAtQuotes(i: nat, name: string)
    ensures EntryLine(i, name) == "    { " + ArrayName(i) + ", sizeof(" + ArrayName(i) + "), " + "\"" + name + "\" },"
    ensures ',' !in ArrayName(i) && '"' !in "    { " + ArrayName(i) + ", sizeof(" + ArrayName(i) + "), "
  {
    ArrayNameShape(i);
    assert "), \"" == "), " + "\"";
    assert '"' !in "    { " && '"' !in ", sizeof(" && '"' !in "), ";
  }

  lemma ReadEntry(i: nat, name: string)
    requires '"' !in name
    ensures ReadTableLine(EntryLine(i, name)) == TableEntry(ArrayName(i), ArrayName(i), name)
  {
    var operand := ArrayName(i);
    var pre := "    { " + operand + ", sizeof(" + operand + "), ";
    EntryAtQuotes(i, name);
    SplitEntry(pre, name);
    SplitOperands(operand);
  }

  lemma {:induction false} ReadTable(h: Header, cas: seq<Ca>, n: nat)
    requires n <= |cas| && NamesPlain(cas) && h.mode == InTable && h.table == []
    ensures ReadLines(h, TableLines(cas, n)) == h.(table := Entries(cas, n))
  {
    if n == 0 {
    } else {
      ReadTable(h, cas, n - 1);
      ReadTableStep(h, cas, n);
    }
  }

  lemma ReadTableStep(h: Header, cas: seq<Ca>, n: nat)
    requires 0 < n <= |cas| && NamesPlain(cas) && h.mode == InTable && h.table == []
    requires ReadLines(h, TableLines(cas, n - 1)) == h.(table := Entries(cas, n - 1))
    ensures ReadLines(h, TableLines(cas, n)) == h.(table := Entries(cas, n))
  {
    var before, name := h.(table := Entries(cas, n - 1)), cas[n - 1].name;
    ReadEntryLine(before, n - 1, name);
    EntriesSnoc(cas, n);
    ReadTwice(h, TableLines(cas, n - 1), before, [EntryLine(n - 1, name)], h.(table := Entries(cas, n)));
  }

  lemma EntriesSnoc(cas: seq<Ca>, n: nat)
    requires 0 < n <= |cas|
    ensures Entries(cas, n) == Entries(cas, n - 1) + [TableEntry(ArrayName(n - 1), ArrayName(n - 1), cas[n - 1].name)]
  {}

  lemma ReadEntryLine(h: Header, i: nat, name: string)
    requires '"' !in name && OneLine(name) && h.mode == InTable
    ensures ReadLines(h, [EntryLine(i, name)]) == h.(table := h.table + [TableEntry(ArrayName(i), ArrayName(i), name)])
  {
    ReadOne(h, EntryLine(i, name));
    ReadEntry(i, name);
    EntryLineShape(i, name);
  }

  lemma ReadCount(h: Header, n: nat)
    requires h.mode == Outside
    ensures ReadLine(h, COUNT_OPEN + Decimal(n) + ";") == h.(count := n)
  {
    var line := COUNT_OPEN + Decimal(n) + ";";
    ReadDecimal(n);
    assert line[13] == 'u' && TABLE_OPEN[13] == 's';
    assert line[22] == 'i' && ARRAY_OPEN[22] == 'c';
    assert line[|COUNT_OPEN|..|line| - 1] == Decimal(n);
  }

  /** Names without quotes or line ends, certificates that are not empty. */
  predicate Readable(cas: seq<Ca>) { NamesPlain(cas) && forall k :: 0 <= k < |cas| ==> cas[k].der != [] }

  /** Every CA's array in list order, a table that pairs each with its own size and name, and the
      number of them. */
  function HeaderOf(cas: seq<Ca>): Header { Header(Outside, NamedArrays(cas, |cas|), Entries(cas, |cas|), |cas|) }

  lemma OpenAndClose(h: Header)
    requires h.mode == Outside
    ensures ReadLine(h, TABLE_OPEN) == h.(mode := InTable)
    ensures ReadLine(h.(mode := InTable), CLOSE) == h
  {}

  lemma ReadTableSection(h: Header, cas: seq<Ca>)
    requires NamesPlain(cas) && h.mode == Outside && h.table == []
    ensures ReadLines(h, [TABLE_OPEN] + TableLines(cas, |cas|) + [CLOSE]) == h.(table := Entries(cas, |cas|))
  {
    var end := h.(table := Entries(cas, |cas|));
    OpenAndClose(h);
    OpenAndClose(end);
    ReadTable(h.(mode := InTable), cas, |cas|);
    ReadWrapped(h, TABLE_OPEN, h.(mode := InTable), TableLines(cas, |cas|), end.(mode := InTable), CLOSE, end);
  }

  lemma ReadTail(h: Header, n: nat)
    requires h.mode == Outside
    ensures ReadLines(h, [COUNT_OPEN + Decimal(n) + ";", "", "#endif"] + [""]) == h.(count := n)
  {
    var counted := h.(count := n);
    ReadOne(h, COUNT_OPEN + Decimal(n) + ";");
    ReadCount(h, n);
    ReadIgnored(counted, ["", "#endif", ""]);
    ReadTwice(h, [COUNT_OPEN + Decimal(n) + ";"], counted, ["", "#endif", ""], counted);
    assert [COUNT_OPEN + Decimal(n) + ";"] + ["", "#endif", ""] == [COUNT_OPEN + Decimal(n) + ";", "", "#endif"] + [""];
  }

  lemma ReadParts(h: Header, a: seq<string>, h1: Header, b: seq<string>, h2: Header,
                  c: seq<string>, h3: Header, d: seq<string>, h4: Header)
    requires ReadLines(h, a) == h1 && ReadLines(h1, b) == h2 && ReadLines(h2, c) == h3 && ReadLines(h3, d) == h4
    ensures ReadLines(h, a + b + c + d) == h4
  {
    ReadTwice(h, a, h1, b, h2);
    ReadTwice(h, a + b, h2, c, h3);
    ReadTwice(h, a + b + c, h3, d, h4);
  }

  lemma ReadBundleLines(cas: seq<Ca>)
    requires Readable(cas)
    ensures ReadLines(EMPTY, BundleLines(cas) + [""]) == HeaderOf(cas)
  {
    var arrays, tail := AllArrayLines(cas, |cas|), [COUNT_OPEN + Decimal(|cas|) + ";", "", "#endif"];
    var table := [TABLE_OPEN] + TableLines(cas, |cas|) + [CLOSE];
    var h1 := EMPTY.(arrays := NamedArrays(cas, |cas|));
    var h2 := h1.(table := Entries(cas, |cas|));
    PreambleIgnored();
    ReadIgnored(EMPTY, PREAMBLE_LINES);
    ReadArrays(cas, |cas|);
    ReadTableSection(h1, cas);
    ReadTail(h2, |cas|);
    ReadParts(EMPTY, PREAMBLE_LINES, EMPTY, arrays, h1, table, h2, tail + [""], h2.(count := |cas|));
    assert BundleLines(cas) + [""] == PREAMBLE_LINES + arrays + table + (tail + [""]);
  }

  /** Reading a printed bundle gives the list it was printed from, in order, and its length. */
  lemma HeaderReadsBack(cas: seq<Ca>)
    requires Readable(cas)
    ensures ReadHeader(BundleText(cas)) == HeaderOf(cas)
  {
    BundleIsLines(cas);
    BundleLinesShape(cas);
    SplitUnlines(BundleLines(cas));
    ReadBundleLines(cas);
  }

  // ----- the two printers -----

  method WriteArrays(cas: seq<Ca>) returns (text: string)
    ensures text == Arrays(cas, |cas|)
  {
    text := "";
    for index := 0 to |cas|
      invariant text == Arrays(cas, index)
    {
      var body := WriteDerArray(ArrayName(index), cas[index].der);
      text := text + body;
    }
  }

  method WriteTable(cas: seq<Ca>) returns (text: string)
    ensures text == Table(cas, |cas|)
  {
    text := "";
    for index := 0 to |cas|
      invariant text == Table(cas, index)
    {
      text := text + EntryLine(index, cas[index].name) + "\n";
    }
  }

  /** write_ca_bundle_header of the runner: what it prints reads back as the list of CAs. */
  method WriteBundleHeader(cas: seq<Ca>) returns (text: string)
    ensures text == BundleText(cas)
    ensures Readable(cas) ==> ReadHeader(text) == HeaderOf(cas)
  {
    var arrays := WriteArrays(cas);
    var table := WriteTable(cas);
    text := PREAMBLE + arrays
      + TABLE_OPEN + "\n" + table + CLOSE + "\n"
      + COUNT_OPEN + Decimal(|cas|) + ";" + "\n" + "\n" + "#endif" + "\n";
    if Readable(cas) { HeaderReadsBack(cas); }
  }

  lemma SingleParts(ca: Ca, first: string, line: string)
    requires ArrayName(0) == first && EntryLine(0, ca.name) == line
    ensures Arrays([ca], 1) == ArrayText(first, ca.der) && Table([ca], 1) == line + "\n"
  {
    assert Arrays([ca], 0) == "" && Table([ca], 0) == "";
  }

  lemma FirstName()
    ensures Decimal(0) == "0" && Decimal(1) == "1" && ArrayName(0) == "ca_cert_der_0"
  {}

  const DEFAULT_LINE := "    { ca_cert_der_0, sizeof(ca_cert_der_0), \"default\" },"

  /** write_header of the generator, for its one CA. */
  method WriteSingleHeader(der: seq<Byte>) returns (text: string)
    ensures text == BundleText([Ca("default", der)])
    ensures der != [] ==> ReadHeader(text) == HeaderOf([Ca("default", der)])
  {
    var body := WriteDerArray("ca_cert_der_0", der);
    text := PREAMBLE + body + TABLE_OPEN + "\n" + (DEFAULT_LINE + "\n") + CLOSE + "\n"
      + COUNT_OPEN + "1" + ";" + "\n" + "\n" + "#endif" + "\n";
    assert text == HeaderText(body, DEFAULT_LINE + "\n", "1");
    var cas := [Ca("default", der)];
    FirstName();
    DefaultLine();
    SingleParts(cas[0], "ca_cert_der_0", DEFAULT_LINE);
    if der != [] { HeaderReadsBack(cas); }
  }

  lemma DefaultLine()
    ensures EntryLine(0, "default") == DEFAULT_LINE
  {
    assert Decimal(0) == "0" && ArrayName(0) == "ca_cert_der_0";
    assert "    { " + "ca_cert_der_0" == "    { ca_cert_der_0";
    assert "    { ca_cert_der_0" + ", sizeof(" == "    { ca_cert_der_0, sizeof(";
    assert "    { ca_cert_der_0, sizeof(" + "ca_cert_der_0" == "    { ca_cert_der_0, sizeof(ca_cert_der_0";
    assert "    { ca_cert_der_0, sizeof(ca_cert_der_0" + "), \"" == "    { ca_cert_der_0, sizeof(ca_cert_der_0), \"";
    assert "    { ca_cert_der_0, sizeof(ca_cert_der_0), \"" + "default" == "    { ca_cert_der_0, sizeof(ca_cert_der_0), \"default";
    assert "    { ca_cert_der_0, sizeof(ca_cert_der_0), \"default" + "\" }," == "    { ca_cert_der_0, sizeof(ca_cert_der_0), \"default\" },";
  }
}
