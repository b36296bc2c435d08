/**
 * The MLX Modelfile (llm/mlx_modelfile.go): a line-oriented parser that fills a
 * record, the writer that prints one, the scalar reader for PARAMETER values,
 * and the mapping of host sampling options to MLX option names.
 *
 * Floating-point scanning and printing are foreign: they are parameters
 * (`scanFloat`, `formatFloat`) standing for `fmt.Sscanf("%f")` and `%v`.
 */
module Modelfile {
  import opened Wrappers
  import Strs

  /** The dynamic value of a PARAMETER line. */
  datatype ParamValue = BoolValue(b: bool) | IntValue(n: int) | FloatValue(f: real) | StringValue(s: string)

  /** `MLXModelfile`, without the few-shot messages that no operation here reads or writes. */
  datatype Modelfile = Modelfile(
    from: string,
    system: string,
    template: string,
    parameters: map<string, ParamValue>,
    adapters: seq<string>,
    license: string)

  const EmptyModelfile := Modelfile("", "", "", map[], [], "")

  const TripleQuote := "\"\"\""

  // ---------------------------------------------------------------------------
  // parseParameterValue

  predicate IsDigit(c: char) {
    '0' <= c <= '9'
  }

  predicate AllDigits(s: string) {
    forall i :: 0 <= i < |s| ==> IsDigit(s[i])
  }

  /** The longest run of decimal digits at the front of `s`. */
  function LeadingDigits(s: string): (r: string)
    ensures r <= s && AllDigits(r)
    ensures |r| < |s| ==> !IsDigit(s[|r|])
  {
    if |s| > 0 && IsDigit(s[0]) then [s[0]] + LeadingDigits(s[1..]) else ""
  }

  /** The number a string of decimal digits denotes. */
  function DecimalValue(ds: string): nat
    requires AllDigits(ds)
  {
    if |ds| == 0 then 0 else 10 * DecimalValue(ds[..|ds| - 1]) + (ds[|ds| - 1] as int - '0' as int)
  }

  const Int64Min: int := -0x8000_0000_0000_0000
  const Int64Max: int := 0x7FFF_FFFF_FFFF_FFFF

  /** Length of an optional leading sign. */
  function SignLength(v: string): (k: nat)
    ensures k <= |v|
  {
    if |v| > 0 && (v[0] == '+' || v[0] == '-') then 1 else 0
  }

  /**
   * `fmt.Sscanf(v, "%d", &n)` into a 64-bit Go `int`, on a value without
   * leading space: an optional sign and at least one decimal digit, read as far
   * as the digits go. Text after the digits is ignored; a value outside the
   * 64-bit range is an error.
   */
  function ScanInt(v: string): (r: Option<int>)
    ensures r.Some? ==> Int64Min <= r.value <= Int64Max
    ensures r.Some? ==> |v| > SignLength(v) && IsDigit(v[SignLength(v)])
  {
    var ds := LeadingDigits(v[SignLength(v)..]);
    if ds == "" then None
    else
      var n: int := if SignLength(v) == 1 && v[0] == '-' then 0 - DecimalValue(ds) else DecimalValue(ds);
      if Int64Min <= n <= Int64Max then Some(n) else None
  }

  /** The integer scan consumed the whole value. */
  predicate WholeInteger(v: string) {
    ScanInt(v).Some? && SignLength(v) + |LeadingDigits(v[SignLength(v)..])| == |v|
  }

  /** `parseParameterValue` as written: the integer scan accepts any numeric prefix. */
  function ParseParameterValueAsWritten(value: string, scanFloat: string -> Option<real>): (r: ParamValue)
    ensures var v := Strs.TrimSpace(value);
      r.IntValue? <==> v != "true" && v != "false" && ScanInt(v).Some?
  {
    var v := Strs.TrimSpace(value);
    if v == "true" then BoolValue(true)
    else if v == "false" then BoolValue(false)
    else if ScanInt(v).Some? then IntValue(ScanInt(v).value)
    else if scanFloat(v).Some? then FloatValue(scanFloat(v).value)
    else StringValue(Strs.TrimChar(v, '"'))
  }

  /**
   * `parseParameterValue` as intended: an integer only when the whole value is
   * an integer literal, so that a decimal value reaches the float scan.
   */
  function ParseParameterValue(value: string, scanFloat: string -> Option<real>): ParamValue {
    var v := Strs.TrimSpace(value);
    if v == "true" then BoolValue(true)
    else if v == "false" then BoolValue(false)
    else if WholeInteger(v) then IntValue(ScanInt(v).value)
    else if scanFloat(v).Some? then FloatValue(scanFloat(v).value)
    else StringValue(Strs.TrimChar(v, '"'))
  }

  /** Which kind of value the intended reading yields, by the shape of the trimmed text. */
  lemma ParseParameterValueKinds(value: string, scanFloat: string -> Option<real>)
    ensures var v := Strs.TrimSpace(value); var r := ParseParameterValue(value, scanFloat);
      && (r.BoolValue? <==> v == "true" || v == "false")
      && (r.BoolValue? ==> r.b == (v == "true"))
      && (r.IntValue? <==> WholeInteger(v) && v != "true" && v != "false")
      && (r.IntValue? ==> r == IntValue(ScanInt(v).value))
      && (r.FloatValue? <==> v != "true" && v != "false" && !WholeInteger(v) && scanFloat(v).Some?)
      && (r.FloatValue? ==> r == FloatValue(scanFloat(v).value))
      && (r.StringValue? ==> r.s == Strs.TrimChar(v, '"'))
  {
  }

  /** As written, "0.7" is read as the integer 0, whatever the float scan would give. */
  lemma AsWrittenReadsDecimalAsInt(scanFloat: string -> Option<real>)
    ensures ParseParameterValueAsWritten("0.7", scanFloat) == IntValue(0)
  {
    DecimalScan();
  }

  /** "0.7" is already trimmed, and the integer scan stops at its dot after reading 0. */
  lemma DecimalScan()
    ensures Strs.TrimSpace("0.7") == "0.7"
    ensures ScanInt("0.7") == Some(0) && !WholeInteger("0.7")
  {
    Strs.TrimSpaceOfTrimmed("0.7");
    assert SignLength("0.7") == 0;
    assert "0.7"[0..] == "0.7";
    assert LeadingDigits(".7") == "";
    assert LeadingDigits("0.7") == "0";
    assert DecimalValue("0") == 0;
  }

  /** As intended, "0.7" reaches the float scan. */
  lemma IntendedReadsDecimalAsFloat(scanFloat: string -> Option<real>)
    requires scanFloat("0.7") == Some(0.7)
    ensures ParseParameterValue("0.7", scanFloat) == FloatValue(0.7)
  {
    DecimalScan();
  }

  /** The two readings differ only on values whose integer scan stops before the end. */
  lemma AsWrittenAgreesOnWholeValues(value: string, scanFloat: string -> Option<real>)
    requires var v := Strs.TrimSpace(value); WholeInteger(v) || ScanInt(v).None?
    ensures ParseParameterValueAsWritten(value, scanFloat) == ParseParameterValue(value, scanFloat)
  {
  }

  /** The decimal digits of a natural number. */
  function NatDigits(n: nat): (r: string)
    ensures |r| > 0 && AllDigits(r)
  {
    if n < 10 then [(n + '0' as int) as char] else NatDigits(n / 10) + [((n % 10) + '0' as int) as char]
  }

  /** `%v` of an integer. */
  function FormatInt(n: int): string {
    if n < 0 then "-" + NatDigits(-n) else NatDigits(n)
  }

  lemma {:induction false} DecimalValueOfDigits(n: nat)
    ensures DecimalValue(NatDigits(n)) == n
  {
    if n >= 10 {
      DecimalValueOfDigits(n / 10);
      var ds := NatDigits(n);
      assert ds[..|ds| - 1] == NatDigits(n / 10);
    }
  }

  lemma {:induction false} LeadingDigitsOfDigits(s: string)
    requires AllDigits(s)
    ensures LeadingDigits(s) == s
  {
    if |s| > 0 {
      LeadingDigitsOfDigits(s[1..]);
    }
  }

  /** The integer scan reads a printed 64-bit integer whole. */
  lemma ScanFormattedInt(n: int)
    requires Int64Min <= n <= Int64Max
    ensures ScanInt(FormatInt(n)) == Some(n) && WholeInteger(FormatInt(n))
  {
    var v := FormatInt(n);
    var m: nat := if n < 0 then -n else n;
    var ds := NatDigits(m);
    DecimalValueOfDigits(m);
    LeadingDigitsOfDigits(ds);
    if n < 0 {
      assert v[1..] == ds;
      assert SignLength(v) == 1;
    } else {
      assert SignLength(v) == 0;
      assert v[0..] == ds;
    }
  }

  /** A printed 64-bit integer reads back as itself, by either reading. */
  lemma FormatIntRoundTrip(n: int, scanFloat: string -> Option<real>)
    requires Int64Min <= n <= Int64Max
    ensures ParseParameterValue(FormatInt(n), scanFloat) == IntValue(n)
    ensures ParseParameterValueAsWritten(FormatInt(n), scanFloat) == IntValue(n)
  {
    var v := FormatInt(n);
    ScanFormattedInt(n);
    assert !Strs.IsSpace(v[0]) && !Strs.IsSpace(v[|v| - 1]) by {
      assert IsDigit(v[|v| - 1]);
      assert v[0] == '-' || IsDigit(v[0]);
    }
    Strs.TrimSpaceOfTrimmed(v);
    assert v != "true" && v != "false" by {
      assert IsDigit(v[|v| - 1]);
    }
  }

  // ---------------------------------------------------------------------------
  // ParseMLXModelfile

  /** `currentCommand`: the triple-quoted block being read, if any. */
  datatype Command = NoCommand | SystemCmd | TemplateCmd | LicenseCmd

  /** The parser's state between lines: `currentCommand`, `currentValue` and the record. */
  datatype ParseState = ParseState(cmd: Command, value: string, mf: Modelfile)

  const InitialState := ParseState(NoCommand, "", EmptyModelfile)

  /** Stores a SYSTEM, TEMPLATE or LICENSE text. */
  function SetText(mf: Modelfile, cmd: Command, text: string): (r: Modelfile)
    ensures r.from == mf.from && r.parameters == mf.parameters && r.adapters == mf.adapters
  {
    match cmd
    case NoCommand => mf
    case SystemCmd => mf.(system := text)
    case TemplateCmd => mf.(template := text)
    case LicenseCmd => mf.(license := text)
  }

  /** A SYSTEM, TEMPLATE or LICENSE line: an inline value, or the opening of a block. */
  function Open(mf: Modelfile, cmd: Command, value: string): ParseState {
    if Strs.StartsWith(value, TripleQuote) then ParseState(cmd, Strs.TrimPrefix(value, TripleQuote), mf)
    else ParseState(NoCommand, "", SetText(mf, cmd, Strs.TrimChar(value, '"')))
  }

  /** A trimmed line the parser skips. */
  predicate Skipped(line: string) {
    line == "" || Strs.StartsWith(line, "#")
  }

  predicate IsFromLine(line: string) {
    Strs.StartsWith(line, "FROM ")
  }

  function FromValue(line: string): string {
    Strs.TrimSpace(Strs.TrimPrefix(line, "FROM "))
  }

  predicate IsAdapterLine(line: string) {
    Strs.StartsWith(line, "ADAPTER ")
  }

  function AdapterValue(line: string): string {
    Strs.TrimSpace(Strs.TrimPrefix(line, "ADAPTER "))
  }

  /** The key and the raw value of a PARAMETER line that has both. */
  function ParameterPair(line: string): Option<(string, string)> {
    if !Strs.StartsWith(line, "PARAMETER ") then None
    else
      var parts := Strs.SplitFirst(Strs.TrimPrefix(line, "PARAMETER "), ' ');
      if |parts| == 2 then Some((parts[0], parts[1])) else None
  }

  /** One iteration of the line loop, on the trimmed line. */
  function Step(st: ParseState, line: string, read: string -> ParamValue): ParseState {
    if Skipped(line) then st
    else if Strs.StartsWith(line, "FROM ") then
      st.(mf := st.mf.(from := Strs.TrimSpace(Strs.TrimPrefix(line, "FROM "))))
    else if Strs.StartsWith(line, "SYSTEM ") then Open(st.mf, SystemCmd, Strs.TrimPrefix(line, "SYSTEM "))
    else if Strs.StartsWith(line, "TEMPLATE ") then Open(st.mf, TemplateCmd, Strs.TrimPrefix(line, "TEMPLATE "))
    else if Strs.StartsWith(line, "PARAMETER ") then
      var parts := Strs.SplitFirst(Strs.TrimPrefix(line, "PARAMETER "), ' ');
      if |parts| == 2 then
        st.(mf := st.mf.(parameters := st.mf.parameters[parts[0] := read(parts[1])]))
      else st
    else if Strs.StartsWith(line, "ADAPTER ") then
      st.(mf := st.mf.(adapters := st.mf.adapters + [Strs.TrimSpace(Strs.TrimPrefix(line, "ADAPTER "))]))
    else if Strs.StartsWith(line, "LICENSE ") then Open(st.mf, LicenseCmd, Strs.TrimPrefix(line, "LICENSE "))
    else if st.cmd != NoCommand then
      if Strs.EndsWith(line, TripleQuote) then
        var text := st.value + "\n" + Strs.TrimSuffix(line, TripleQuote);
        ParseState(NoCommand, text, SetText(st.mf, st.cmd, text))
      else st.(value := st.value + "\n" + line)
    else st
  }

  /** The line loop from a given state, over trimmed lines. */
  function Steps(st: ParseState, lines: seq<string>, read: string -> ParamValue): ParseState
    decreases |lines|
  {
    if |lines| == 0 then st else Steps(Step(st, lines[0], read), lines[1..], read)
  }

  /** The file's lines, each trimmed as the loop trims it. */
  function TrimmedLines(content: string): (r: seq<string>)
    ensures |r| == |Strs.Split(content, '\n')|
  {
    var lines := Strs.Split(content, '\n');
    seq(|lines|, i requires 0 <= i < |lines| => Strs.TrimSpace(lines[i]))
  }

  /** A string without surrounding space, as every line the loop looks at is. */
  predicate IsTrimmed(line: string) {
    line == [] || (!Strs.IsSpace(line[0]) && !Strs.IsSpace(line[|line| - 1]))
  }

  datatype ParseError = FromMissing

  /** How `ParseMLXModelfile` reads PARAMETER values: `parseParameterValue` as written. */
  function Reader(scanFloat: string -> Option<real>): string -> ParamValue {
    v => ParseParameterValueAsWritten(v, scanFloat)
  }

  /** The reading the parser evidently intends, with the whole-value integer test. */
  function IntendedReader(scanFloat: string -> Option<real>): string -> ParamValue {
    v => ParseParameterValue(v, scanFloat)
  }

  /**
   * `ParseMLXModelfile` over the file's content, for any reading of PARAMETER
   * values (the parser's own is `Reader(scanFloat)`, the intended one `IntendedReader(scanFloat)`).
   */
  function Parse(content: string, read: string -> ParamValue): Result<Modelfile, ParseError> {
    var st := Steps(InitialState, TrimmedLines(content), read);
    if st.mf.from == "" then Failure(FromMissing) else Success(st.mf)
  }

  /**
   * A SYSTEM, TEMPLATE or LICENSE line carrying `v`: an inline value is stored
   * with its quotes trimmed, a value starting with a triple quote opens a block.
   */
  method OpenCommand(kind: Command, v: string, mf0: Modelfile) returns (cmd: Command, value: string, mf: Modelfile)
    ensures ParseState(cmd, value, mf) == Open(mf0, kind, v)
  {
    cmd, value, mf := kind, "", mf0;
    if Strs.StartsWith(v, TripleQuote) {
      value := Strs.TrimPrefix(v, TripleQuote);
    } else {
      mf := SetText(mf, kind, Strs.TrimChar(v, '"'));
      cmd := NoCommand;
    }
  }

  /** A line that is not a command: inside a block it is appended, a closing line stores the block. */
  method ContinueBlock(cmd0: Command, value0: string, mf0: Modelfile, line: string)
      returns (cmd: Command, value: string, mf: Modelfile)
    requires cmd0 != NoCommand
    ensures ParseState(cmd, value, mf) ==
      if Strs.EndsWith(line, TripleQuote) then
        var text := value0 + "\n" + Strs.TrimSuffix(line, TripleQuote);
        ParseState(NoCommand, text, SetText(mf0, cmd0, text))
      else ParseState(cmd0, value0 + "\n" + line, mf0)
  {
    cmd, value, mf := cmd0, value0, mf0;
    if Strs.EndsWith(line, TripleQuote) {
      value := value + "\n" + Strs.TrimSuffix(line, TripleQuote);
      mf := SetText(mf, cmd, value);
      cmd := NoCommand;
    } else {
      value := value + "\n" + line;
    }
  }

  /** One pass of the loop body on a trimmed line: the command state and the record after it. */
  method ReadLine(cmd0: Command, value0: string, mf0: Modelfile, line: string, read: string -> ParamValue)
      returns (cmd: Command, value: string, mf: Modelfile)
    ensures ParseState(cmd, value, mf) == Step(ParseState(cmd0, value0, mf0), line, read)
  {
    cmd, value, mf := cmd0, value0, mf0;
    if Skipped(line) {
    } else if Strs.StartsWith(line, "FROM ") {
      mf := mf.(from := Strs.TrimSpace(Strs.TrimPrefix(line, "FROM ")));
    } else if Strs.StartsWith(line, "SYSTEM ") {
      cmd, value, mf := OpenCommand(SystemCmd, Strs.TrimPrefix(line, "SYSTEM "), mf);
    } else if Strs.StartsWith(line, "TEMPLATE ") {
      cmd, value, mf := OpenCommand(TemplateCmd, Strs.TrimPrefix(line, "TEMPLATE "), mf);
    } else if Strs.StartsWith(line, "PARAMETER ") {
      var parts := Strs.SplitFirst(Strs.TrimPrefix(line, "PARAMETER "), ' ');
      if |parts| == 2 {
        mf := mf.(parameters := mf.parameters[parts[0] := read(parts[1])]);
      }
    } else if Strs.StartsWith(line, "ADAPTER ") {
      mf := mf.(adapters := mf.adapters + [Strs.TrimSpace(Strs.TrimPrefix(line, "ADAPTER "))]);
    } else if Strs.StartsWith(line, "LICENSE ") {
      cmd, value, mf := OpenCommand(LicenseCmd, Strs.TrimPrefix(line, "LICENSE "), mf);
    } else if cmd != NoCommand {
      cmd, value, mf := ContinueBlock(cmd, value, mf, line);
    }
  }

  /** `ParseMLXModelfile`: the line loop, with the command state held in locals. */
  method ParseMLXModelfile(content: string, scanFloat: string -> Option<real>)
      returns (r: Result<Modelfile, ParseError>)
    ensures r == Parse(content, Reader(scanFloat))
  {
    var read := Reader(scanFloat);
    var lines := Strs.Split(content, '\n');
    ghost var trimmed := TrimmedLines(content);
    var cmd := NoCommand;
    var value := "";
    var mf := EmptyModelfile;
    var i := 0;
    assert trimmed[0..] == trimmed;
    while i < |lines|
      invariant 0 <= i <= |lines|
      invariant Steps(InitialState, trimmed, read) == Steps(ParseState(cmd, value, mf), trimmed[i..], read)
    {
      var line := Strs.TrimSpace(lines[i]);
      assert line == trimmed[i];
      cmd, value, mf := ReadLine(cmd, value, mf, line, read);
      assert trimmed[i..][1..] == trimmed[i + 1..];
      i := i + 1;
    }
    assert trimmed[i..] == [];
    if mf.from == "" {
      r := Failure(FromMissing);
    } else {
      r := Success(mf);
    }
  }

  // ---------------------------------------------------------------------------
  // What the parser computes, line kind by line kind

  /** The value of the last FROM line, if any. */
  function LastFrom(lines: seq<string>): Option<string> {
    if |lines| == 0 then None
    else if IsFromLine(lines[|lines| - 1]) then Some(FromValue(lines[|lines| - 1]))
    else LastFrom(lines[..|lines| - 1])
  }

  /** The values of the ADAPTER lines, in file order. */
  function AdapterValues(lines: seq<string>): seq<string> {
    if |lines| == 0 then []
    else
      var tail := if IsAdapterLine(lines[|lines| - 1]) then [AdapterValue(lines[|lines| - 1])] else [];
      AdapterValues(lines[..|lines| - 1]) + tail
  }

  /** `m` after the PARAMETER lines' assignments, in file order. */
  function ParamWrites(m: map<string, ParamValue>, lines: seq<string>, read: string -> ParamValue): map<string, ParamValue> {
    if |lines| == 0 then m
    else
      var before := ParamWrites(m, lines[..|lines| - 1], read);
      match ParameterPair(lines[|lines| - 1])
      case None => before
      case Some((k, v)) => before[k := read(v)]
  }

  lemma {:induction false} StepsSnoc(st: ParseState, lines: seq<string>, raw: string, read: string -> ParamValue)
    ensures Steps(st, lines + [raw], read) == Step(Steps(st, lines, read), raw, read)
    decreases |lines|
  {
    if |lines| > 0 {
      assert (lines + [raw])[1..] == lines[1..] + [raw];
      StepsSnoc(Step(st, lines[0], read), lines[1..], raw, read);
    }
  }

  lemma {:induction false} StepsAppend(st: ParseState, a: seq<string>, b: seq<string>, read: string -> ParamValue)
    ensures Steps(st, a + b, read) == Steps(Steps(st, a, read), b, read)
    decreases |a|
  {
    if |a| == 0 {
      assert a + b == b;
    } else {
      assert (a + b)[1..] == a[1..] + b;
      StepsAppend(Step(st, a[0], read), a[1..], b, read);
    }
  }

  /** The first character of a line tells the command keywords apart. */
  lemma KeywordsDisjoint(line: string)
    ensures Strs.StartsWith(line, "FROM ") ==> line != [] && line[0] == 'F'
    ensures Strs.StartsWith(line, "SYSTEM ") ==> line != [] && line[0] == 'S'
    ensures Strs.StartsWith(line, "TEMPLATE ") ==> line != [] && line[0] == 'T'
    ensures Strs.StartsWith(line, "PARAMETER ") ==> line != [] && line[0] == 'P'
    ensures Strs.StartsWith(line, "ADAPTER ") ==> line != [] && line[0] == 'A'
    ensures Strs.StartsWith(line, "LICENSE ") ==> line != [] && line[0] == 'L'
    ensures Strs.StartsWith(line, "#") ==> line != [] && line[0] == '#'
  {
  }

  /** One line sets FROM only when it is a FROM line. */
  lemma StepFrom(st: ParseState, line: string, read: string -> ParamValue)
    ensures Step(st, line, read).mf.from == if IsFromLine(line) then FromValue(line) else st.mf.from
  {
    KeywordsDisjoint(line);
  }

  /** One line extends the adapter list only when it is an ADAPTER line. */
  lemma StepAdapters(st: ParseState, line: string, read: string -> ParamValue)
    ensures Step(st, line, read).mf.adapters ==
      st.mf.adapters + if IsAdapterLine(line) then [AdapterValue(line)] else []
  {
    KeywordsDisjoint(line);
  }

  /** One line assigns a parameter only when it is a PARAMETER line with a key and a value. */
  lemma StepParameters(st: ParseState, line: string, read: string -> ParamValue)
    ensures Step(st, line, read).mf.parameters ==
      match ParameterPair(line)
      case None => st.mf.parameters
      case Some((k, v)) => st.mf.parameters[k := read(v)]
  {
    KeywordsDisjoint(line);
    if Strs.StartsWith(line, "PARAMETER ") {
      assert !Skipped(line) && line[0] == 'P';
    } else {
      assert ParameterPair(line).None?;
    }
  }

  /** The whole loop, projected onto FROM, the adapters and the parameters. */
  lemma {:induction false} StepsProjections(st: ParseState, lines: seq<string>, read: string -> ParamValue)
    ensures Steps(st, lines, read).mf.from == if LastFrom(lines).Some? then LastFrom(lines).value else st.mf.from
    ensures Steps(st, lines, read).mf.adapters == st.mf.adapters + AdapterValues(lines)
    ensures Steps(st, lines, read).mf.parameters == ParamWrites(st.mf.parameters, lines, read)
    decreases |lines|
  {
    if |lines| > 0 {
      var init := lines[..|lines| - 1];
      var last := lines[|lines| - 1];
      assert lines == init + [last];
      StepsProjections(st, init, read);
      StepsSnoc(st, init, last, read);
      StepFrom(Steps(st, init, read), last, read);
      StepAdapters(Steps(st, init, read), last, read);
      StepParameters(Steps(st, init, read), last, read);
    }
  }

  /** A trimmed FROM line always carries a non-empty value: something follows "FROM ". */
  lemma FromValueNonEmpty(line: string)
    requires IsTrimmed(line) && IsFromLine(line)
    ensures FromValue(line) != ""
  {
    var rest := Strs.TrimPrefix(line, "FROM ");
    assert line == "FROM " + rest;
    assert rest != [] && rest[|rest| - 1] == line[|line| - 1];
  }

  /** Every line the loop looks at is trimmed. */
  lemma TrimmedLinesTrimmed(content: string)
    ensures forall i :: 0 <= i < |TrimmedLines(content)| ==> IsTrimmed(TrimmedLines(content)[i])
  {
  }

  /** Line `i` is a FROM line. */
  predicate FromAt(lines: seq<string>, i: int) {
    0 <= i < |lines| && IsFromLine(lines[i])
  }

  /** Line `i` is the last FROM line. */
  predicate LastFromAt(lines: seq<string>, i: int) {
    FromAt(lines, i) && forall j :: i < j < |lines| ==> !FromAt(lines, j)
  }

  lemma {:induction false} LastFromNone(lines: seq<string>)
    ensures LastFrom(lines).None? <==> forall i :: !FromAt(lines, i)
    decreases |lines|
  {
    if |lines| > 0 {
      var init := lines[..|lines| - 1];
      LastFromNone(init);
      forall i | FromAt(init, i)
        ensures FromAt(lines, i)
      {
        assert init[i] == lines[i];
      }
      if !FromAt(lines, |lines| - 1) {
        forall i | FromAt(lines, i)
          ensures FromAt(init, i)
        {
          assert init[i] == lines[i];
        }
      }
    }
  }

  lemma {:induction false} LastFromNonEmpty(lines: seq<string>)
    requires forall i :: 0 <= i < |lines| ==> IsTrimmed(lines[i])
    ensures LastFrom(lines).Some? ==> LastFrom(lines).value != ""
    decreases |lines|
  {
    if |lines| > 0 {
      var init := lines[..|lines| - 1];
      assert forall i :: 0 <= i < |init| ==> init[i] == lines[i];
      LastFromNonEmpty(init);
      if IsFromLine(lines[|lines| - 1]) {
        FromValueNonEmpty(lines[|lines| - 1]);
      }
    }
  }

  lemma {:induction false} LastFromAtValue(lines: seq<string>, i: int)
    requires LastFromAt(lines, i)
    ensures LastFrom(lines) == Some(FromValue(lines[i]))
    decreases |lines|
  {
    if i < |lines| - 1 {
      var init := lines[..|lines| - 1];
      assert !FromAt(lines, |lines| - 1);
      assert init[i] == lines[i];
      forall j | i < j < |init|
        ensures !FromAt(init, j)
      {
        assert !FromAt(lines, j);
        assert init[j] == lines[j];
      }
      LastFromAtValue(init, i);
    }
  }

  /** Parsing fails exactly when no line is a FROM line. */
  lemma ParseFailsIffNoFrom(content: string, read: string -> ParamValue)
    ensures Parse(content, read).Failure? <==> forall i :: !FromAt(TrimmedLines(content), i)
  {
    var lines := TrimmedLines(content);
    StepsProjections(InitialState, lines, read);
    TrimmedLinesTrimmed(content);
    LastFromNone(lines);
    LastFromNonEmpty(lines);
  }

  /** The model source is the value of the last FROM line. */
  lemma ParseTakesLastFrom(content: string, read: string -> ParamValue, i: nat)
    requires LastFromAt(TrimmedLines(content), i)
    ensures Parse(content, read).Success?
    ensures Parse(content, read).value.from == FromValue(TrimmedLines(content)[i])
  {
    var lines := TrimmedLines(content);
    StepsProjections(InitialState, lines, read);
    TrimmedLinesTrimmed(content);
    LastFromAtValue(lines, i);
    LastFromNonEmpty(lines);
  }

  /** The adapters are the ADAPTER lines' values, in file order. */
  lemma ParseCollectsAdapters(content: string, read: string -> ParamValue)
    requires Parse(content, read).Success?
    ensures Parse(content, read).value.adapters == AdapterValues(TrimmedLines(content))
  {
    StepsProjections(InitialState, TrimmedLines(content), read);
  }

  /** Line `i` is a PARAMETER line for key `k`. */
  predicate Assigns(lines: seq<string>, i: int, k: string) {
    0 <= i < |lines| && ParameterPair(lines[i]).Some? && ParameterPair(lines[i]).value.0 == k
  }

  /** No line after `i` is a PARAMETER line for key `k`. */
  predicate LastAssignment(lines: seq<string>, i: int, k: string) {
    Assigns(lines, i, k) && forall j :: i < j < |lines| ==> !Assigns(lines, j, k)
  }

  /** What `ParameterPair` makes of each line. */
  function Pairs(lines: seq<string>): seq<Option<(string, string)>>
  {
    seq(|lines|, i requires 0 <= i < |lines| => ParameterPair(lines[i]))
  }

  /** `m` after the assignments of the given pairs, in order. */
  function PairWrites(m: map<string, ParamValue>, pairs: seq<Option<(string, string)>>, read: string -> ParamValue): map<string, ParamValue> {
    if |pairs| == 0 then m
    else
      var before := PairWrites(m, pairs[..|pairs| - 1], read);
      match pairs[|pairs| - 1]
      case None => before
      case Some((k, v)) => before[k := read(v)]
  }

  /** Pair `i` assigns key `k`. */
  predicate PairAssigns(pairs: seq<Option<(string, string)>>, i: int, k: string) {
    0 <= i < |pairs| && pairs[i].Some? && pairs[i].value.0 == k
  }

  lemma {:induction false} ParamWritesArePairWrites(m: map<string, ParamValue>, lines: seq<string>, read: string -> ParamValue)
    ensures ParamWrites(m, lines, read) == PairWrites(m, Pairs(lines), read)
    decreases |lines|
  {
    if |lines| > 0 {
      var init := lines[..|lines| - 1];
      ParamWritesArePairWrites(m, init, read);
      assert Pairs(lines)[..|lines| - 1] == Pairs(init);
    }
  }

  lemma {:induction false} PairWritesKeys(m: map<string, ParamValue>, pairs: seq<Option<(string, string)>>, read: string -> ParamValue, k: string)
    ensures k in PairWrites(m, pairs, read) <==> k in m || exists i :: PairAssigns(pairs, i, k)
    decreases |pairs|
  {
    if |pairs| > 0 {
      var init := pairs[..|pairs| - 1];
      PairWritesKeys(m, init, read, k);
      forall i | PairAssigns(init, i, k)
        ensures PairAssigns(pairs, i, k)
      {
        assert init[i] == pairs[i];
      }
      if !PairAssigns(pairs, |pairs| - 1, k) {
        forall i | PairAssigns(pairs, i, k)
          ensures PairAssigns(init, i, k)
        {
          assert init[i] == pairs[i];
        }
      }
    }
  }

  lemma {:induction false} PairWritesLast(m: map<string, ParamValue>, pairs: seq<Option<(string, string)>>, read: string -> ParamValue, k: string, i: int)
    requires PairAssigns(pairs, i, k)
    requires forall j :: i < j < |pairs| ==> !PairAssigns(pairs, j, k)
    ensures k in PairWrites(m, pairs, read) && PairWrites(m, pairs, read)[k] == read(pairs[i].value.1)
    decreases |pairs|
  {
    if i < |pairs| - 1 {
      var init := pairs[..|pairs| - 1];
      assert !PairAssigns(pairs, |pairs| - 1, k);
      assert init[i] == pairs[i];
      forall j | i < j < |init|
        ensures !PairAssigns(init, j, k)
      {
        assert !PairAssigns(pairs, j, k);
        assert init[j] == pairs[j];
      }
      PairWritesLast(m, init, read, k, i);
    }
  }

  lemma ParamWritesKeys(m: map<string, ParamValue>, lines: seq<string>, read: string -> ParamValue, k: string)
    ensures k in ParamWrites(m, lines, read) <==> k in m || exists i :: Assigns(lines, i, k)
  {
    ParamWritesArePairWrites(m, lines, read);
    PairWritesKeys(m, Pairs(lines), read, k);
    forall i | PairAssigns(Pairs(lines), i, k)
      ensures Assigns(lines, i, k)
    {
    }
    forall i | Assigns(lines, i, k)
      ensures PairAssigns(Pairs(lines), i, k)
    {
    }
  }

  lemma ParamWritesLast(m: map<string, ParamValue>, lines: seq<string>, read: string -> ParamValue, k: string, i: int)
    requires LastAssignment(lines, i, k)
    ensures k in ParamWrites(m, lines, read) && ParamWrites(m, lines, read)[k] == read(ParameterPair(lines[i]).value.1)
  {
    ParamWritesArePairWrites(m, lines, read);
    forall j | i < j < |lines|
      ensures !PairAssigns(Pairs(lines), j, k)
    {
      assert !Assigns(lines, j, k);
    }
    PairWritesLast(m, Pairs(lines), read, k, i);
  }

  /** A parameter is set exactly when some PARAMETER line names it, and the last such line decides its value. */
  lemma ParseParameterLastWrite(content: string, read: string -> ParamValue, k: string)
    requires Parse(content, read).Success?
    ensures var lines := TrimmedLines(content); var ps := Parse(content, read).value.parameters;
      && (k in ps <==> exists i :: Assigns(lines, i, k))
      && forall i :: LastAssignment(lines, i, k) ==> k in ps && ps[k] == read(ParameterPair(lines[i]).value.1)
  {
    var lines := TrimmedLines(content);
    StepsProjections(InitialState, lines, read);
    ParamWritesKeys(map[], lines, read, k);
    forall i | LastAssignment(lines, i, k)
      ensures k in Parse(content, read).value.parameters
      ensures Parse(content, read).value.parameters[k] == read(ParameterPair(lines[i]).value.1)
    {
      ParamWritesLast(map[], lines, read, k, i);
    }
  }

  /** As written, the parser stores the decimal value of a "PARAMETER k 0.7" line as the integer 0. */
  lemma ParsedDecimalAsWritten(content: string, scanFloat: string -> Option<real>, i: int, k: string)
    requires Parse(content, Reader(scanFloat)).Success?
    requires LastAssignment(TrimmedLines(content), i, k)
    requires ParameterPair(TrimmedLines(content)[i]).value.1 == "0.7"
    ensures var ps := Parse(content, Reader(scanFloat)).value.parameters;
      k in ps && ps[k] == IntValue(0)
  {
    ParseParameterLastWrite(content, Reader(scanFloat), k);
    AsWrittenReadsDecimalAsInt(scanFloat);
  }

  /** With the intended reading the same line stores the float the scan reads. */
  lemma ParsedDecimalIntended(content: string, scanFloat: string -> Option<real>, i: int, k: string)
    requires scanFloat("0.7") == Some(0.7)
    requires Parse(content, IntendedReader(scanFloat)).Success?
    requires LastAssignment(TrimmedLines(content), i, k)
    requires ParameterPair(TrimmedLines(content)[i]).value.1 == "0.7"
    ensures var ps := Parse(content, IntendedReader(scanFloat)).value.parameters;
      k in ps && ps[k] == FloatValue(0.7)
  {
    ParseParameterLastWrite(content, IntendedReader(scanFloat), k);
    IntendedReadsDecimalAsFloat(scanFloat);
  }

  /** Blank and comment lines are skipped wherever they occur, inside a block too. */
  lemma SkippedLineIgnored(st: ParseState, a: seq<string>, line: string, b: seq<string>, read: string -> ParamValue)
    requires Skipped(line)
    ensures Steps(st, a + [line] + b, read) == Steps(st, a + b, read)
  {
    StepsAppend(st, a + [line], b, read);
    StepsSnoc(st, a, line, read);
    StepsAppend(st, a, b, read);
  }

  // ---------------------------------------------------------------------------
  // Triple-quoted blocks

  function Keyword(cmd: Command): string {
    match cmd
    case NoCommand => ""
    case SystemCmd => "SYSTEM"
    case TemplateCmd => "TEMPLATE"
    case LicenseCmd => "LICENSE"
  }

  /** The record's SYSTEM, TEMPLATE or LICENSE text. */
  function TextOf(mf: Modelfile, cmd: Command): string {
    match cmd
    case NoCommand => ""
    case SystemCmd => mf.system
    case TemplateCmd => mf.template
    case LicenseCmd => mf.license
  }

  /** A line that starts with one of the six command keywords. */
  predicate IsCommand(line: string) {
    || Strs.StartsWith(line, "FROM ") || Strs.StartsWith(line, "SYSTEM ") || Strs.StartsWith(line, "TEMPLATE ")
    || Strs.StartsWith(line, "PARAMETER ") || Strs.StartsWith(line, "ADAPTER ") || Strs.StartsWith(line, "LICENSE ")
  }

  /** A line inside a block that neither closes it nor is skipped or read as a command. */
  predicate BodyLine(line: string) {
    !Skipped(line) && !IsCommand(line) && !Strs.EndsWith(line, TripleQuote)
  }

  /** A line that closes a block. */
  predicate ClosingLine(line: string) {
    !Skipped(line) && !IsCommand(line) && Strs.EndsWith(line, TripleQuote)
  }

  /** Each body line appended after a newline. */
  function NewlineJoined(body: seq<string>): string {
    if |body| == 0 then "" else NewlineJoined(body[..|body| - 1]) + "\n" + body[|body| - 1]
  }

  /** An inline value is stored with its surrounding quotes trimmed, and no block is left open. */
  lemma InlineText(st: ParseState, cmd: Command, v: string, read: string -> ParamValue)
    requires cmd != NoCommand && !Strs.StartsWith(v, TripleQuote)
    ensures var r := Step(st, Keyword(cmd) + " " + v, read);
      && r.cmd == NoCommand
      && TextOf(r.mf, cmd) == Strs.TrimChar(v, '"')
      && r.mf.from == st.mf.from && r.mf.parameters == st.mf.parameters && r.mf.adapters == st.mf.adapters
  {
    var line := Keyword(cmd) + " " + v;
    KeywordsDisjoint(line);
    assert Strs.TrimPrefix(line, Keyword(cmd) + " ") == v;
  }

  /** Inside a block, body lines accumulate after a newline each and nothing else changes. */
  lemma {:induction false} BlockBodyAccumulates(st: ParseState, body: seq<string>, read: string -> ParamValue)
    requires st.cmd != NoCommand
    requires forall i :: 0 <= i < |body| ==> BodyLine(body[i])
    ensures Steps(st, body, read) == st.(value := st.value + NewlineJoined(body))
    decreases |body|
  {
    if |body| == 0 {
      assert st.value + "" == st.value;
    } else {
      var init := body[..|body| - 1];
      var last := body[|body| - 1];
      assert body == init + [last];
      assert forall i :: 0 <= i < |init| ==> init[i] == body[i];
      BlockBodyAccumulates(st, init, read);
      StepsSnoc(st, init, last, read);
      KeywordsDisjoint(last);
      assert st.value + NewlineJoined(init) + "\n" + last == st.value + NewlineJoined(body);
    }
  }

  /**
   * A block: the text after the opening triple quote, then each body line after
   * a newline, then a newline and the closing line without its triple quote.
   */
  lemma BlockAssembly(st: ParseState, cmd: Command, t: string, body: seq<string>, close: string, read: string -> ParamValue)
    requires cmd != NoCommand
    requires forall i :: 0 <= i < |body| ==> BodyLine(body[i])
    requires ClosingLine(close)
    ensures var r := Steps(st, [Keyword(cmd) + " " + TripleQuote + t] + body + [close], read);
      && r.cmd == NoCommand
      && TextOf(r.mf, cmd) == t + NewlineJoined(body) + "\n" + Strs.TrimSuffix(close, TripleQuote)
      && r.mf.from == st.mf.from && r.mf.parameters == st.mf.parameters && r.mf.adapters == st.mf.adapters
  {
    var open := Keyword(cmd) + " " + TripleQuote + t;
    KeywordsDisjoint(open);
    assert Strs.TrimPrefix(open, Keyword(cmd) + " ") == TripleQuote + t;
    var inBlock := Step(st, open, read);
    assert inBlock == ParseState(cmd, t, st.mf);
    assert Steps(st, [open], read) == inBlock;
    StepsAppend(st, [open], body, read);
    BlockBodyAccumulates(inBlock, body, read);
    StepsSnoc(st, [open] + body, close, read);
    KeywordsDisjoint(close);
  }

  /** A command line inside a block is read as that command; the block stays open and does not gain the line. */
  lemma CommandInsideBlock(st: ParseState, line: string, read: string -> ParamValue)
    requires st.cmd != NoCommand && IsFromLine(line)
    ensures Step(st, line, read) == st.(mf := st.mf.(from := FromValue(line)))
  {
    KeywordsDisjoint(line);
  }

  // ---------------------------------------------------------------------------
  // SaveMLXModelfile

  /** `%v` of a parameter value; floats are printed by `formatFloat`. */
  function FormatValue(v: ParamValue, formatFloat: real -> string): string {
    match v
    case BoolValue(b) => if b then "true" else "false"
    case IntValue(n) => FormatInt(n)
    case FloatValue(f) => formatFloat(f)
    case StringValue(s) => s
  }

  function ParameterLine(k: string, v: ParamValue, formatFloat: real -> string): string {
    "PARAMETER " + k + " " + FormatValue(v, formatFloat) + "\n"
  }

  /** `order` visits every key of the map exactly once, as a map iteration does. */
  predicate EnumeratesKeys(order: seq<string>, ps: map<string, ParamValue>) {
    && (forall i :: 0 <= i < |order| ==> order[i] in ps)
    && (forall k :: k in ps ==> k in order)
    && (forall i, j :: 0 <= i < j < |order| ==> order[i] != order[j])
  }

  /** One PARAMETER line per key, in the iteration order. */
  function ParameterLines(ps: map<string, ParamValue>, order: seq<string>, formatFloat: real -> string): string
    requires forall i :: 0 <= i < |order| ==> order[i] in ps
  {
    if |order| == 0 then ""
    else
      var k := order[|order| - 1];
      ParameterLines(ps, order[..|order| - 1], formatFloat) + ParameterLine(k, ps[k], formatFloat)
  }

  /** One ADAPTER line per adapter, in list order. */
  function AdapterLines(adapters: seq<string>): string {
    if |adapters| == 0 then ""
    else AdapterLines(adapters[..|adapters| - 1]) + ("ADAPTER " + adapters[|adapters| - 1] + "\n")
  }

  function SystemSection(mf: Modelfile): string {
    if mf.system != "" then "SYSTEM \"\"\"\n" + mf.system + "\n\"\"\"\n\n" else ""
  }

  function TemplateSection(mf: Modelfile): string {
    if mf.template != "" then "TEMPLATE \"\"\"\n" + mf.template + "\n\"\"\"\n\n" else ""
  }

  function AdapterSection(mf: Modelfile): string {
    if |mf.adapters| > 0 then "\n" + AdapterLines(mf.adapters) else ""
  }

  function LicenseSection(mf: Modelfile): string {
    if mf.license != "" then "\nLICENSE \"\"\"\n" + mf.license + "\n\"\"\"\n" else ""
  }

  /** The text `SaveMLXModelfile` writes, for a given iteration order of the parameters. */
  function SavedText(mf: Modelfile, order: seq<string>, formatFloat: real -> string): string
    requires EnumeratesKeys(order, mf.parameters)
  {
    "FROM " + mf.from + "\n\n" + SystemSection(mf) + TemplateSection(mf)
      + ParameterLines(mf.parameters, order, formatFloat) + AdapterSection(mf) + LicenseSection(mf)
  }

  /** The PARAMETER loop of `SaveMLXModelfile`: appends one line per key, in iteration order. */
  method WriteParameters(content0: string, ps: map<string, ParamValue>, order: seq<string>, formatFloat: real -> string)
      returns (content: string)
    requires forall i :: 0 <= i < |order| ==> order[i] in ps
    ensures content == content0 + ParameterLines(ps, order, formatFloat)
  {
    content := content0;
    var i := 0;
    while i < |order|
      invariant 0 <= i <= |order|
      invariant content == content0 + ParameterLines(ps, order[..i], formatFloat)
    {
      content := AppendParameter(content0, content, ps, order, i, formatFloat);
      i := i + 1;
    }
    assert order[..i] == order;
  }

  /** One iteration of the PARAMETER loop. */
  method AppendParameter(content0: string, content: string, ps: map<string, ParamValue>, order: seq<string>, i: nat, formatFloat: real -> string)
      returns (r: string)
    requires i < |order| && forall j :: 0 <= j < |order| ==> order[j] in ps
    requires content == content0 + ParameterLines(ps, order[..i], formatFloat)
    ensures r == content0 + ParameterLines(ps, order[..i + 1], formatFloat)
  {
    var line := ParameterLine(order[i], ps[order[i]], formatFloat);
    ParameterLinesStep(ps, order, i, formatFloat);
    Strs.ConcatAssoc(content0, ParameterLines(ps, order[..i], formatFloat), line);
    r := content + line;
  }

  lemma ParameterLinesStep(ps: map<string, ParamValue>, order: seq<string>, i: nat, formatFloat: real -> string)
    requires i < |order| && forall j :: 0 <= j < |order| ==> order[j] in ps
    ensures ParameterLines(ps, order[..i + 1], formatFloat)
      == ParameterLines(ps, order[..i], formatFloat) + ParameterLine(order[i], ps[order[i]], formatFloat)
  {
    assert order[..i + 1][..i] == order[..i];
  }

  /** The ADAPTER loop of `SaveMLXModelfile`: appends one line per adapter, in list order. */
  method WriteAdapters(content0: string, adapters: seq<string>) returns (content: string)
    ensures content == content0 + AdapterLines(adapters)
  {
    content := content0;
    var j := 0;
    while j < |adapters|
      invariant 0 <= j <= |adapters|
      invariant content == content0 + AdapterLines(adapters[..j])
    {
      assert adapters[..j + 1][..j] == adapters[..j];
      ghost var done := AdapterLines(adapters[..j]);
      var line := "ADAPTER " + adapters[j] + "\n";
      content := content + line;
      assert content == content0 + (done + line);
      j := j + 1;
    }
    assert adapters[..j] == adapters;
  }

  /** `SaveMLXModelfile`: the builder, returning the content it would write. */
  method SaveMLXModelfile(mf: Modelfile, order: seq<string>, formatFloat: real -> string) returns (content: string)
    requires EnumeratesKeys(order, mf.parameters)
    ensures content == SavedText(mf, order, formatFloat)
  {
    content := "FROM " + mf.from + "\n\n";
    if mf.system != "" {
      content := content + ("SYSTEM \"\"\"\n" + mf.system + "\n\"\"\"\n\n");
    }
    assert content == "FROM " + mf.from + "\n\n" + SystemSection(mf);
    if mf.template != "" {
      content := content + ("TEMPLATE \"\"\"\n" + mf.template + "\n\"\"\"\n\n");
    }
    assert content == "FROM " + mf.from + "\n\n" + SystemSection(mf) + TemplateSection(mf);
    content := WriteParameters(content, mf.parameters, order, formatFloat);
    ghost var withParameters := content;
    if |mf.adapters| > 0 {
      content := WriteAdapters(content + "\n", mf.adapters);
      assert content == withParameters + ("\n" + AdapterLines(mf.adapters));
    }
    assert content == withParameters + AdapterSection(mf);
    ghost var withAdapters := content;
    if mf.license != "" {
      content := content + ("\nLICENSE \"\"\"\n" + mf.license + "\n\"\"\"\n");
    }
    assert content == withAdapters + LicenseSection(mf);
  }

  /** The saved text always opens with the model source and a blank line. */
  lemma SavedStartsWithFrom(mf: Modelfile, order: seq<string>, formatFloat: real -> string)
    requires EnumeratesKeys(order, mf.parameters)
    ensures Strs.StartsWith(SavedText(mf, order, formatFloat), "FROM " + mf.from + "\n\n")
  {
    var head := "FROM " + mf.from + "\n\n";
    var x1 := head + SystemSection(mf);
    var x2 := x1 + TemplateSection(mf);
    var x3 := x2 + ParameterLines(mf.parameters, order, formatFloat);
    var x4 := x3 + AdapterSection(mf);
    assert head <= x1 <= x2 <= x3 <= x4 <= x4 + LicenseSection(mf);
  }

  /** Empty texts, parameters and adapters leave nothing but the FROM line. */
  lemma SavedMinimal(mf: Modelfile, formatFloat: real -> string)
    requires mf.system == "" && mf.template == "" && mf.license == ""
    requires mf.parameters == map[] && mf.adapters == []
    ensures SavedText(mf, [], formatFloat) == "FROM " + mf.from + "\n\n"
  {
    assert "FROM " + mf.from + "\n\n" + "" + "" + "" + "" + "" == "FROM " + mf.from + "\n\n";
  }

  // ---------------------------------------------------------------------------
  // ConvertOptionsToMLXFormat

  /** The host sampling options the mapping reads. */
  datatype Options = Options(temperature: real, topK: int, topP: real, numPredict: int, repeatPenalty: real, seed: int)

  datatype OptionValue = RealOption(r: real) | IntOption(n: int)

  /** `ConvertOptionsToMLXFormat`: each option set above zero, under its MLX name. */
  method ConvertOptionsToMLXFormat(opts: Options) returns (m: map<string, OptionValue>)
    ensures "temperature" in m <==> opts.temperature > 0.0
    ensures "temperature" in m ==> m["temperature"] == RealOption(opts.temperature)
    ensures "top_k" in m <==> opts.topK > 0
    ensures "top_k" in m ==> m["top_k"] == IntOption(opts.topK)
    ensures "top_p" in m <==> opts.topP > 0.0
    ensures "top_p" in m ==> m["top_p"] == RealOption(opts.topP)
    ensures "max_tokens" in m <==> opts.numPredict > 0
    ensures "max_tokens" in m ==> m["max_tokens"] == IntOption(opts.numPredict)
    ensures "repetition_penalty" in m <==> opts.repeatPenalty > 0.0
    ensures "repetition_penalty" in m ==> m["repetition_penalty"] == RealOption(opts.repeatPenalty)
    ensures "seed" in m <==> opts.seed > 0
    ensures "seed" in m ==> m["seed"] == IntOption(opts.seed)
    ensures m.Keys <= {"temperature", "top_k", "top_p", "max_tokens", "repetition_penalty", "seed"}
  {
    m := map[];
    if opts.temperature > 0.0 {
      m := m["temperature" := RealOption(opts.temperature)];
    }
    if opts.topK > 0 {
      m := m["top_k" := IntOption(opts.topK)];
    }
    if opts.topP > 0.0 {
      m := m["top_p" := RealOption(opts.topP)];
    }
    if opts.numPredict > 0 {
      m := m["max_tokens" := IntOption(opts.numPredict)];
    }
    if opts.repeatPenalty > 0.0 {
      m := m["repetition_penalty" := RealOption(opts.repeatPenalty)];
    }
    if opts.seed > 0 {
      m := m["seed" := IntOption(opts.seed)];
    }
  }
}
