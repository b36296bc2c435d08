/**
 * Writing an MLX Modelfile and reading it back (llm/mlx_modelfile.go,
 * `SaveMLXModelfile` then `ParseMLXModelfile`): for a record without text
 * blocks whose parameters are booleans and 64-bit integers, parsing the saved
 * text gives the record back.
 */
module ModelfileRoundTrip {
  import opened Wrappers
  import Strs
  import opened Modelfile

  // ---------------------------------------------------------------------------
  // Newline-terminated text

  /** Each string followed by a newline. */
  function Terminated(ls: seq<string>): string {
    if |ls| == 0 then "" else Terminated(ls[..|ls| - 1]) + (ls[|ls| - 1] + "\n")
  }

  lemma {:induction false} TerminatedAppend(a: seq<string>, b: seq<string>)
    ensures Terminated(a + b) == Terminated(a) + Terminated(b)
    decreases |b|
  {
    if |b| == 0 {
      assert a + b == a;
    } else {
      assert (a + b)[..|a + b| - 1] == a + b[..|b| - 1];
      TerminatedAppend(a, b[..|b| - 1]);
    }
  }

  lemma TerminatedSingle(l: string)
    ensures Terminated([l]) == l + "\n"
  {
    assert [l][..0] == [];
  }

  lemma TerminatedCons(l: string, rest: seq<string>)
    ensures Terminated([l] + rest) == l + "\n" + Terminated(rest)
  {
    TerminatedAppend([l], rest);
    TerminatedSingle(l);
  }

  /** A line without a newline, then a newline, splits off as the first piece. */
  lemma SplitLine(l: string, tail: string)
    requires '\n' !in l
    ensures Strs.Split(l + "\n" + tail, '\n') == [l] + Strs.Split(tail, '\n')
  {
    Strs.SplitConcat(l, tail, '\n');
    assert Strs.Split(l, '\n') == [l];
  }

  /** Splitting newline-terminated lines at newlines gives the lines back, then the empty last piece. */
  lemma {:induction false} SplitTerminated(ls: seq<string>)
    requires forall i :: 0 <= i < |ls| ==> '\n' !in ls[i]
    ensures Strs.Split(Terminated(ls), '\n') == ls + [""]
    decreases |ls|
  {
    if |ls| > 0 {
      var l, rest := ls[0], ls[1..];
      var s := Terminated(ls);
      var t := Terminated(rest);
      assert s == l + "\n" + t by {
        assert ls == [l] + rest;
        TerminatedCons(l, rest);
      }
      assert Strs.Split(s, '\n') == [l] + Strs.Split(t, '\n') by {
        SplitLine(l, t);
      }
      assert Strs.Split(t, '\n') == rest + [""] by {
        assert forall i :: 0 <= i < |rest| ==> rest[i] == ls[i + 1];
        SplitTerminated(rest);
      }
      assert ls + [""] == [l] + (rest + [""]);
    }
  }

  // ---------------------------------------------------------------------------
  // Records the round trip covers

  /** A one-line value with something in it and no space at either end. */
  predicate PlainText(s: string) {
    s != "" && IsTrimmed(s) && '\n' !in s
  }

  /** A parameter name the PARAMETER line splits off intact. */
  predicate PlainKey(k: string) {
    ' ' !in k && '\n' !in k
  }

  /** A value whose printed form the parameter reader reads as itself. */
  predicate ReadsBack(v: ParamValue) {
    v.BoolValue? || (v.IntValue? && Int64Min <= v.n <= Int64Max)
  }

  predicate PlainModelfile(mf: Modelfile) {
    && PlainText(mf.from)
    && mf.system == "" && mf.template == "" && mf.license == ""
    && (forall i :: 0 <= i < |mf.adapters| ==> PlainText(mf.adapters[i]))
    && (forall k :: k in mf.parameters ==> PlainKey(k) && ReadsBack(mf.parameters[k]))
  }

  // ---------------------------------------------------------------------------
  // The saved text as lines

  function ParameterTexts(ps: map<string, ParamValue>, order: seq<string>, formatFloat: real -> string): seq<string>
    requires forall i :: 0 <= i < |order| ==> order[i] in ps
  {
    seq(|order|, i requires 0 <= i < |order| => "PARAMETER " + order[i] + " " + FormatValue(ps[order[i]], formatFloat))
  }

  function AdapterTexts(adapters: seq<string>): seq<string> {
    seq(|adapters|, i requires 0 <= i < |adapters| => "ADAPTER " + adapters[i])
  }

  lemma {:induction false} ParameterLinesTerminated(ps: map<string, ParamValue>, order: seq<string>, formatFloat: real -> string)
    requires forall i :: 0 <= i < |order| ==> order[i] in ps
    ensures ParameterLines(ps, order, formatFloat) == Terminated(ParameterTexts(ps, order, formatFloat))
    decreases |order|
  {
    if |order| > 0 {
      var init := order[..|order| - 1];
      ParameterLinesTerminated(ps, init, formatFloat);
      assert ParameterTexts(ps, order, formatFloat)[..|order| - 1] == ParameterTexts(ps, init, formatFloat);
    }
  }

  lemma {:induction false} AdapterLinesTerminated(adapters: seq<string>)
    ensures AdapterLines(adapters) == Terminated(AdapterTexts(adapters))
    decreases |adapters|
  {
    if |adapters| > 0 {
      var init := adapters[..|adapters| - 1];
      AdapterLinesTerminated(init);
      assert AdapterTexts(adapters)[..|adapters| - 1] == AdapterTexts(init);
    }
  }

  /** The lines `SaveMLXModelfile` writes for a record without text blocks. */
  function SavedLines(mf: Modelfile, order: seq<string>, formatFloat: real -> string): seq<string>
    requires EnumeratesKeys(order, mf.parameters)
  {
    ["FROM " + mf.from, ""] + ParameterTexts(mf.parameters, order, formatFloat)
      + (if |mf.adapters| > 0 then [""] + AdapterTexts(mf.adapters) else [])
  }

  lemma SavedTextLines(mf: Modelfile, order: seq<string>, formatFloat: real -> string)
    requires EnumeratesKeys(order, mf.parameters)
    requires mf.system == "" && mf.template == "" && mf.license == ""
    ensures SavedText(mf, order, formatFloat) == Terminated(SavedLines(mf, order, formatFloat))
  {
    var head := ["FROM " + mf.from, ""];
    var ps := ParameterTexts(mf.parameters, order, formatFloat);
    var ads := if |mf.adapters| > 0 then [""] + AdapterTexts(mf.adapters) else [];
    SavedTextWithoutBlocks(mf, order, formatFloat);
    TerminatedAppend(head + ps, ads);
    TerminatedAppend(head, ps);
    TerminatedHead(mf.from);
    ParameterLinesTerminated(mf.parameters, order, formatFloat);
    TerminatedAdapterBlock(mf);
  }

  /** Without text blocks the saved text is the FROM line, the parameter lines and the adapter section. */
  lemma SavedTextWithoutBlocks(mf: Modelfile, order: seq<string>, formatFloat: real -> string)
    requires EnumeratesKeys(order, mf.parameters)
    requires mf.system == "" && mf.template == "" && mf.license == ""
    ensures SavedText(mf, order, formatFloat)
      == "FROM " + mf.from + "\n\n" + ParameterLines(mf.parameters, order, formatFloat) + AdapterSection(mf)
  {
    var first := "FROM " + mf.from + "\n\n";
    var params := ParameterLines(mf.parameters, order, formatFloat);
    assert SystemSection(mf) == "" && TemplateSection(mf) == "" && LicenseSection(mf) == "";
    assert first + "" + "" == first;
    assert first + params + AdapterSection(mf) + "" == first + params + AdapterSection(mf);
  }

  lemma TerminatedHead(from: string)
    ensures Terminated(["FROM " + from, ""]) == "FROM " + from + "\n\n"
  {
    assert ["FROM " + from, ""] == ["FROM " + from] + [""];
    TerminatedAppend(["FROM " + from], [""]);
    TerminatedSingle("FROM " + from);
    TerminatedSingle("");
  }

  lemma TerminatedAdapterBlock(mf: Modelfile)
    ensures Terminated(if |mf.adapters| > 0 then [""] + AdapterTexts(mf.adapters) else []) == AdapterSection(mf)
  {
    if |mf.adapters| > 0 {
      TerminatedAppend([""], AdapterTexts(mf.adapters));
      TerminatedSingle("");
      AdapterLinesTerminated(mf.adapters);
    }
  }

  // ---------------------------------------------------------------------------
  // What each saved line reads as

  /** A saved line: one line, trimmed, and empty or a FROM, PARAMETER or ADAPTER line. */
  predicate SimpleLine(line: string) {
    && '\n' !in line && IsTrimmed(line)
    && (line == "" || line[0] == 'F' || line[0] == 'P' || line[0] == 'A')
  }

  predicate AllSimple(lines: seq<string>) {
    forall j :: 0 <= j < |lines| ==> SimpleLine(lines[j])
  }

  lemma AllSimpleAppend(a: seq<string>, b: seq<string>)
    requires AllSimple(a) && AllSimple(b)
    ensures AllSimple(a + b)
  {
  }

  /** The printed form of a value that reads back: one non-empty line ending in a non-space. */
  lemma FormattedValueShape(v: ParamValue, formatFloat: real -> string)
    requires ReadsBack(v)
    ensures var fv := FormatValue(v, formatFloat);
      fv != "" && '\n' !in fv && !Strs.IsSpace(fv[|fv| - 1])
  {
    if v.IntValue? {
      var fv := FormatValue(v, formatFloat);
      var m: nat := if v.n < 0 then -v.n else v.n;
      var ds := NatDigits(m);
      assert fv == ds || fv == "-" + ds;
      assert fv[|fv| - 1] == ds[|ds| - 1];
      assert '\n' !in fv by {
        assert forall i :: 0 <= i < |ds| ==> IsDigit(ds[i]);
      }
    }
  }

  /** The parameter reader reads the printed form of such a value as the value. */
  lemma FormattedValueReads(v: ParamValue, formatFloat: real -> string, scanFloat: string -> Option<real>)
    requires ReadsBack(v)
    ensures Reader(scanFloat)(FormatValue(v, formatFloat)) == v
  {
    if v.IntValue? {
      FormatIntRoundTrip(v.n, scanFloat);
    } else {
      Strs.TrimSpaceOfTrimmed(FormatValue(v, formatFloat));
    }
  }

  lemma ParameterTextSimple(k: string, fv: string)
    requires '\n' !in k && '\n' !in fv && fv != "" && !Strs.IsSpace(fv[|fv| - 1])
    ensures SimpleLine("PARAMETER " + k + " " + fv)
  {
    var line := "PARAMETER " + k + " " + fv;
    assert '\n' !in line by {
      var key := "PARAMETER " + k;
      assert '\n' !in key by {
        assert '\n' !in "PARAMETER ";
      }
      assert '\n' !in key + " ";
    }
    assert IsTrimmed(line) by {
      assert line[0] == 'P';
      assert line[|line| - 1] == fv[|fv| - 1];
    }
  }

  lemma ParameterTextPair(k: string, fv: string)
    requires ' ' !in k
    ensures ParameterPair("PARAMETER " + k + " " + fv) == Some((k, fv))
  {
    var line := "PARAMETER " + k + " " + fv;
    assert Strs.StartsWith(line, "PARAMETER ");
    assert Strs.TrimPrefix(line, "PARAMETER ") == k + [' '] + fv;
    Strs.SplitFirstAt(k, fv, ' ');
  }

  lemma AdapterTextFacts(a: string)
    requires PlainText(a)
    ensures var line := "ADAPTER " + a;
      SimpleLine(line) && IsAdapterLine(line) && AdapterValue(line) == a
  {
    var line := "ADAPTER " + a;
    assert line[|line| - 1] == a[|a| - 1];
    assert Strs.TrimPrefix(line, "ADAPTER ") == a;
    Strs.TrimSpaceOfTrimmed(a);
  }

  lemma FromTextSimple(f: string)
    requires PlainText(f)
    ensures SimpleLine("FROM " + f)
  {
    var line := "FROM " + f;
    assert line[|line| - 1] == f[|f| - 1];
  }

  lemma FromTextFacts(f: string)
    requires PlainText(f)
    ensures var line := "FROM " + f;
      SimpleLine(line) && IsFromLine(line) && FromValue(line) == f
  {
    var line := "FROM " + f;
    assert line[|line| - 1] == f[|f| - 1];
    assert Strs.TrimPrefix(line, "FROM ") == f;
    Strs.TrimSpaceOfTrimmed(f);
  }

  lemma ParameterTextsSimple(ps: map<string, ParamValue>, order: seq<string>, formatFloat: real -> string)
    requires forall i :: 0 <= i < |order| ==> order[i] in ps
    requires forall k :: k in ps ==> PlainKey(k) && ReadsBack(ps[k])
    ensures AllSimple(ParameterTexts(ps, order, formatFloat))
  {
    forall i | 0 <= i < |order|
      ensures SimpleLine(ParameterTexts(ps, order, formatFloat)[i])
    {
      FormattedValueShape(ps[order[i]], formatFloat);
      ParameterTextSimple(order[i], FormatValue(ps[order[i]], formatFloat));
    }
  }

  lemma AdapterTextsFacts(adapters: seq<string>)
    requires forall i :: 0 <= i < |adapters| ==> PlainText(adapters[i])
    ensures var lines := AdapterTexts(adapters);
      && AllSimple(lines)
      && forall i :: 0 <= i < |lines| ==> IsAdapterLine(lines[i]) && AdapterValue(lines[i]) == adapters[i]
  {
    forall i | 0 <= i < |adapters|
      ensures var line := AdapterTexts(adapters)[i];
        SimpleLine(line) && IsAdapterLine(line) && AdapterValue(line) == adapters[i]
    {
      AdapterTextFacts(adapters[i]);
    }
  }

  // ---------------------------------------------------------------------------
  // Folding the saved lines

  lemma {:induction false} AdapterValuesAppend(a: seq<string>, b: seq<string>)
    ensures AdapterValues(a + b) == AdapterValues(a) + AdapterValues(b)
    decreases |b|
  {
    if |b| == 0 {
      assert a + b == a;
    } else {
      assert (a + b)[..|a + b| - 1] == a + b[..|b| - 1];
      AdapterValuesAppend(a, b[..|b| - 1]);
    }
  }

  lemma {:induction false} AdapterValuesNone(lines: seq<string>)
    requires forall j :: 0 <= j < |lines| ==> !IsAdapterLine(lines[j])
    ensures AdapterValues(lines) == []
    decreases |lines|
  {
    if |lines| > 0 {
      AdapterValuesNone(lines[..|lines| - 1]);
    }
  }

  lemma Snoc<T>(s: seq<T>)
    requires |s| > 0
    ensures s == s[..|s| - 1] + [s[|s| - 1]]
  {
  }

  lemma AdapterValuesLast(lines: seq<string>)
    requires |lines| > 0 && IsAdapterLine(lines[|lines| - 1])
    ensures AdapterValues(lines) == AdapterValues(lines[..|lines| - 1]) + [AdapterValue(lines[|lines| - 1])]
  {
  }

  /** ADAPTER lines only, each with its value: the adapters are those values. */
  lemma {:induction false} AdapterValuesAll(lines: seq<string>, values: seq<string>)
    requires |lines| == |values|
    requires forall j :: 0 <= j < |lines| ==> IsAdapterLine(lines[j]) && AdapterValue(lines[j]) == values[j]
    ensures AdapterValues(lines) == values
    decreases |lines|
  {
    if |lines| > 0 {
      var n := |lines| - 1;
      assert forall j :: 0 <= j < n ==> lines[..n][j] == lines[j] && values[..n][j] == values[j];
      AdapterValuesAll(lines[..n], values[..n]);
      AdapterValuesLast(lines);
      Snoc(values);
    }
  }

  lemma {:induction false} ParamWritesAppend(m: map<string, ParamValue>, a: seq<string>, b: seq<string>, read: string -> ParamValue)
    ensures ParamWrites(m, a + b, read) == ParamWrites(ParamWrites(m, a, read), b, read)
    decreases |b|
  {
    if |b| == 0 {
      assert a + b == a;
    } else {
      assert (a + b)[..|a + b| - 1] == a + b[..|b| - 1];
      ParamWritesAppend(m, a, b[..|b| - 1], read);
    }
  }

  lemma {:induction false} ParamWritesNone(m: map<string, ParamValue>, lines: seq<string>, read: string -> ParamValue)
    requires forall j :: 0 <= j < |lines| ==> ParameterPair(lines[j]).None?
    ensures ParamWrites(m, lines, read) == m
    decreases |lines|
  {
    if |lines| > 0 {
      ParamWritesNone(m, lines[..|lines| - 1], read);
    }
  }

  /** The pairs the saved PARAMETER lines stand for: each listed key with its printed value. */
  function KeyedPairs(ps: map<string, ParamValue>, order: seq<string>, formatFloat: real -> string): seq<Option<(string, string)>>
    requires forall i :: 0 <= i < |order| ==> order[i] in ps
  {
    seq(|order|, i requires 0 <= i < |order| => Some((order[i], FormatValue(ps[order[i]], formatFloat))))
  }

  lemma TextsAreKeyedPairs(ps: map<string, ParamValue>, order: seq<string>, formatFloat: real -> string)
    requires forall i :: 0 <= i < |order| ==> order[i] in ps
    requires forall k :: k in ps ==> PlainKey(k)
    ensures Pairs(ParameterTexts(ps, order, formatFloat)) == KeyedPairs(ps, order, formatFloat)
  {
    forall i | 0 <= i < |order|
      ensures Pairs(ParameterTexts(ps, order, formatFloat))[i] == KeyedPairs(ps, order, formatFloat)[i]
    {
      ParameterTextPair(order[i], FormatValue(ps[order[i]], formatFloat));
    }
  }

  lemma {:induction false} KeyedPairWrites(ps: map<string, ParamValue>, order: seq<string>, formatFloat: real -> string, read: string -> ParamValue)
    requires forall i :: 0 <= i < |order| ==> order[i] in ps
    requires forall k :: k in ps ==> read(FormatValue(ps[k], formatFloat)) == ps[k]
    ensures var w := PairWrites(map[], KeyedPairs(ps, order, formatFloat), read);
      forall k :: (k in w <==> k in order) && (k in w ==> w[k] == ps[k])
    decreases |order|
  {
    if |order| > 0 {
      var init := order[..|order| - 1];
      assert KeyedPairs(ps, order, formatFloat)[..|order| - 1] == KeyedPairs(ps, init, formatFloat);
      assert forall x :: x in order <==> x in init || x == order[|order| - 1] by {
        assert order == init + [order[|order| - 1]];
      }
      KeyedPairWrites(ps, init, formatFloat, read);
    }
  }

  /** The saved PARAMETER lines assign every listed key its own value, for a reader that reads printed values back. */
  lemma ParamWritesOfTexts(ps: map<string, ParamValue>, order: seq<string>, formatFloat: real -> string, read: string -> ParamValue)
    requires forall i :: 0 <= i < |order| ==> order[i] in ps
    requires forall k :: k in ps ==> PlainKey(k) && read(FormatValue(ps[k], formatFloat)) == ps[k]
    ensures var w := ParamWrites(map[], ParameterTexts(ps, order, formatFloat), read);
      forall k :: (k in w <==> k in order) && (k in w ==> w[k] == ps[k])
  {
    ParamWritesArePairWrites(map[], ParameterTexts(ps, order, formatFloat), read);
    TextsAreKeyedPairs(ps, order, formatFloat);
    KeyedPairWrites(ps, order, formatFloat, read);
  }

  /** Every saved line leaves SYSTEM, TEMPLATE and LICENSE alone and opens no block. */
  lemma {:induction false} StepsKeepTexts(st: ParseState, lines: seq<string>, read: string -> ParamValue)
    requires st.cmd == NoCommand
    requires AllSimple(lines)
    ensures var r := Steps(st, lines, read);
      r.cmd == NoCommand && r.mf.system == st.mf.system && r.mf.template == st.mf.template && r.mf.license == st.mf.license
    decreases |lines|
  {
    if |lines| > 0 {
      KeywordsDisjoint(lines[0]);
      StepsKeepTexts(Step(st, lines[0], read), lines[1..], read);
    }
  }

  // ---------------------------------------------------------------------------
  // The round trip

  lemma SavedLinesFacts(mf: Modelfile, order: seq<string>, formatFloat: real -> string)
    requires PlainModelfile(mf) && EnumeratesKeys(order, mf.parameters)
    ensures AllSimple(SavedLines(mf, order, formatFloat))
  {
    var head := ["FROM " + mf.from, ""];
    var ps := ParameterTexts(mf.parameters, order, formatFloat);
    var ads := if |mf.adapters| > 0 then [""] + AdapterTexts(mf.adapters) else [];
    HeadSimple(mf.from);
    ParameterTextsSimple(mf.parameters, order, formatFloat);
    AdapterBlockSimple(mf.adapters);
    AllSimpleAppend(head, ps);
    AllSimpleAppend(head + ps, ads);
  }

  lemma HeadSimple(from: string)
    requires PlainText(from)
    ensures AllSimple(["FROM " + from, ""])
  {
    FromTextSimple(from);
    assert SimpleLine("");
  }

  lemma AdapterBlockSimple(adapters: seq<string>)
    requires forall i :: 0 <= i < |adapters| ==> PlainText(adapters[i])
    ensures AllSimple(if |adapters| > 0 then [""] + AdapterTexts(adapters) else [])
  {
    if |adapters| > 0 {
      AdapterTextsFacts(adapters);
      AllSimpleAppend([""], AdapterTexts(adapters));
    }
  }

  /** The lines the parser sees in a saved file: the saved lines, then the empty piece after the last newline. */
  lemma SavedTrimmedLines(mf: Modelfile, order: seq<string>, formatFloat: real -> string)
    requires PlainModelfile(mf) && EnumeratesKeys(order, mf.parameters)
    ensures TrimmedLines(SavedText(mf, order, formatFloat)) == SavedLines(mf, order, formatFloat) + [""]
    ensures AllSimple(SavedLines(mf, order, formatFloat) + [""])
  {
    var lines := SavedLines(mf, order, formatFloat);
    var content := SavedText(mf, order, formatFloat);
    SavedLinesFacts(mf, order, formatFloat);
    assert Strs.Split(content, '\n') == lines + [""] by {
      SavedTextLines(mf, order, formatFloat);
      SplitTerminated(lines);
    }
    AllSimpleAppend(lines, [""]);
    forall j | 0 <= j < |lines| + 1
      ensures TrimmedLines(content)[j] == (lines + [""])[j]
    {
      Strs.TrimSpaceOfTrimmed((lines + [""])[j]);
    }
  }

  /** Which lines come after the FROM line: empty, PARAMETER or ADAPTER lines. */
  predicate LaterLine(line: string) {
    line == "" || line[0] == 'P' || line[0] == 'A'
  }

  lemma SavedLinesLater(mf: Modelfile, order: seq<string>, formatFloat: real -> string)
    requires EnumeratesKeys(order, mf.parameters)
    ensures var lines := SavedLines(mf, order, formatFloat) + [""];
      lines[0] == "FROM " + mf.from && forall j :: 0 < j < |lines| ==> LaterLine(lines[j])
  {
    var ps := ParameterTexts(mf.parameters, order, formatFloat);
    var ads := if |mf.adapters| > 0 then [""] + AdapterTexts(mf.adapters) else [];
    var later := [""] + ps + ads + [""];
    assert SavedLines(mf, order, formatFloat) + [""] == ["FROM " + mf.from] + later;
    assert forall i :: 0 <= i < |ps| ==> ps[i][0] == 'P';
    assert forall i :: 0 <= i < |ads| ==> LaterLine(ads[i]);
    assert forall j :: 0 <= j < |later| ==> LaterLine(later[j]);
  }

  /** A FROM line followed only by later lines is the last FROM line. */
  lemma {:induction false} FirstFromOnly(lines: seq<string>)
    requires |lines| > 0 && IsFromLine(lines[0])
    requires forall j :: 0 < j < |lines| ==> LaterLine(lines[j])
    ensures LastFrom(lines) == Some(FromValue(lines[0]))
  {
    forall j | 0 < j < |lines|
      ensures !FromAt(lines, j)
    {
      KeywordsDisjoint(lines[j]);
    }
    LastFromAtValue(lines, 0);
  }

  /** The first saved line is the only FROM line. */
  lemma SavedFrom(mf: Modelfile, order: seq<string>, formatFloat: real -> string)
    requires PlainModelfile(mf) && EnumeratesKeys(order, mf.parameters)
    ensures LastFrom(SavedLines(mf, order, formatFloat) + [""]) == Some(mf.from)
  {
    SavedLinesLater(mf, order, formatFloat);
    FromTextFacts(mf.from);
    FirstFromOnly(SavedLines(mf, order, formatFloat) + [""]);
  }

  /** A line that starts with a given character, or is empty. */
  predicate StartsWithOrEmpty(line: string, c: char, d: char) {
    line == "" || line[0] == c || line[0] == d
  }

  /** Lines that are not ADAPTER lines around an adapter section add nothing to the adapters. */
  lemma AdaptersBetween(pre: seq<string>, mid: seq<string>, post: seq<string>)
    requires forall j :: 0 <= j < |pre| ==> StartsWithOrEmpty(pre[j], 'F', 'P')
    requires forall j :: 0 <= j < |post| ==> post[j] == ""
    ensures AdapterValues(pre + mid + post) == AdapterValues(mid)
  {
    forall j | 0 <= j < |pre|
      ensures !IsAdapterLine(pre[j])
    {
      KeywordsDisjoint(pre[j]);
    }
    AdapterValuesNone(pre);
    AdapterValuesNone(post);
    AdapterValuesAppend(pre + mid, post);
    AdapterValuesAppend(pre, mid);
  }

  /** Lines that are not PARAMETER lines around a parameter section assign nothing. */
  lemma ParametersBetween(pre: seq<string>, mid: seq<string>, post: seq<string>, read: string -> ParamValue)
    requires forall j :: 0 <= j < |pre| ==> StartsWithOrEmpty(pre[j], 'F', 'A')
    requires forall j :: 0 <= j < |post| ==> StartsWithOrEmpty(post[j], 'F', 'A')
    ensures ParamWrites(map[], pre + mid + post, read) == ParamWrites(map[], mid, read)
  {
    forall j | 0 <= j < |pre|
      ensures ParameterPair(pre[j]).None?
    {
      KeywordsDisjoint(pre[j]);
    }
    forall j | 0 <= j < |post|
      ensures ParameterPair(post[j]).None?
    {
      KeywordsDisjoint(post[j]);
    }
    ParamWritesNone(map[], pre, read);
    ParamWritesNone(ParamWrites(map[], mid, read), post, read);
    ParamWritesAppend(map[], pre + mid, post, read);
    ParamWritesAppend(map[], pre, mid, read);
  }

  /** The adapter section lists the adapters. */
  lemma AdapterSectionValues(adapters: seq<string>)
    requires forall i :: 0 <= i < |adapters| ==> PlainText(adapters[i])
    ensures AdapterValues(if |adapters| > 0 then [""] + AdapterTexts(adapters) else []) == adapters
  {
    if |adapters| > 0 {
      AdapterValuesAppend([""], AdapterTexts(adapters));
      AdapterValuesNone([""]);
      AdapterTextsFacts(adapters);
      AdapterValuesAll(AdapterTexts(adapters), adapters);
    }
  }

  /** Only the adapter section has ADAPTER lines, one per adapter. */
  lemma SavedAdapters(mf: Modelfile, order: seq<string>, formatFloat: real -> string)
    requires PlainModelfile(mf) && EnumeratesKeys(order, mf.parameters)
    ensures AdapterValues(SavedLines(mf, order, formatFloat) + [""]) == mf.adapters
  {
    var ps := ParameterTexts(mf.parameters, order, formatFloat);
    var ads := if |mf.adapters| > 0 then [""] + AdapterTexts(mf.adapters) else [];
    var pre := ["FROM " + mf.from, ""] + ps;
    assert SavedLines(mf, order, formatFloat) + [""] == pre + ads + [""];
    assert forall i :: 0 <= i < |ps| ==> ps[i][0] == 'P';
    assert forall j :: 0 <= j < |pre| ==> StartsWithOrEmpty(pre[j], 'F', 'P');
    AdaptersBetween(pre, ads, [""]);
    AdapterSectionValues(mf.adapters);
  }

  /** Only the parameter section has PARAMETER lines, and they assign the record's parameters. */
  lemma SavedParameters(mf: Modelfile, order: seq<string>, formatFloat: real -> string, read: string -> ParamValue)
    requires PlainModelfile(mf) && EnumeratesKeys(order, mf.parameters)
    requires forall k :: k in mf.parameters ==> read(FormatValue(mf.parameters[k], formatFloat)) == mf.parameters[k]
    ensures ParamWrites(map[], SavedLines(mf, order, formatFloat) + [""], read) == mf.parameters
  {
    var ps := ParameterTexts(mf.parameters, order, formatFloat);
    var pre := ["FROM " + mf.from, ""];
    var post := (if |mf.adapters| > 0 then [""] + AdapterTexts(mf.adapters) else []) + [""];
    SavedLinesAroundParameters(mf, order, formatFloat);
    ParametersBetween(pre, ps, post, read);
    ParamWritesOfTexts(mf.parameters, order, formatFloat, read);
  }

  /** The saved lines are the FROM lines, the PARAMETER lines and the lines after them, none of those around starting with 'P'. */
  lemma SavedLinesAroundParameters(mf: Modelfile, order: seq<string>, formatFloat: real -> string)
    requires EnumeratesKeys(order, mf.parameters)
    ensures var pre := ["FROM " + mf.from, ""];
      var post := (if |mf.adapters| > 0 then [""] + AdapterTexts(mf.adapters) else []) + [""];
      && SavedLines(mf, order, formatFloat) + [""] == pre + ParameterTexts(mf.parameters, order, formatFloat) + post
      && (forall j :: 0 <= j < |pre| ==> StartsWithOrEmpty(pre[j], 'F', 'A'))
      && (forall j :: 0 <= j < |post| ==> StartsWithOrEmpty(post[j], 'F', 'A'))
  {
    var pre := ["FROM " + mf.from, ""];
    var post := (if |mf.adapters| > 0 then [""] + AdapterTexts(mf.adapters) else []) + [""];
    assert forall j :: 0 <= j < |pre| ==> StartsWithOrEmpty(pre[j], 'F', 'A');
    assert forall i :: 0 <= i < |mf.adapters| ==> AdapterTexts(mf.adapters)[i][0] == 'A';
    assert forall j :: 0 <= j < |post| ==> StartsWithOrEmpty(post[j], 'F', 'A');
  }

  /**
   * Saving a record without SYSTEM, TEMPLATE or LICENSE text, with one-line
   * FROM and ADAPTER values and boolean or 64-bit integer parameters, and
   * parsing the result, gives the record back, whatever order the map
   * iteration wrote the parameters in.
   */
  lemma SaveThenParse(mf: Modelfile, order: seq<string>, formatFloat: real -> string, scanFloat: string -> Option<real>)
    requires PlainModelfile(mf) && EnumeratesKeys(order, mf.parameters)
    ensures Parse(SavedText(mf, order, formatFloat), Reader(scanFloat)) == Success(mf)
  {
    var read := Reader(scanFloat);
    var lines := SavedLines(mf, order, formatFloat) + [""];
    SavedTrimmedLines(mf, order, formatFloat);
    var r := Steps(InitialState, lines, read);
    StepsProjections(InitialState, lines, read);
    StepsKeepTexts(InitialState, lines, read);
    SavedFrom(mf, order, formatFloat);
    SavedAdapters(mf, order, formatFloat);
    forall k | k in mf.parameters
      ensures read(FormatValue(mf.parameters[k], formatFloat)) == mf.parameters[k]
    {
      FormattedValueReads(mf.parameters[k], formatFloat, scanFloat);
    }
    SavedParameters(mf, order, formatFloat, read);
    assert r.mf == mf;
  }
}
