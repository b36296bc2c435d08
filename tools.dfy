/**
 * Tool handling and prompt building of the MLX routes (server/routes_mlx.go):
 * extracting a `tool_calls` envelope from model text, running the calls
 * against the tools' URLs, and the plain-text chat prompt with its tool block.
 * JSON decoding and the HTTP round trip are parameters.
 */
module Tools {
  import opened Wrappers
  import opened Api
  import Strs

  /**
   * `parseToolCallsFromText`: decode the trimmed text as a `{"tool_calls": [...]}`
   * envelope; only a non-empty list counts. `decode` is the JSON decoder
   * (None when the text is not such an object).
   */
  function ParseToolCallsFromText(text: string, decode: string -> Option<seq<ToolCall>>): (r: Option<seq<ToolCall>>)
    ensures r.Some? <==> decode(Strs.TrimSpace(text)).Some? && |decode(Strs.TrimSpace(text)).value| > 0
    ensures r.Some? ==> r.value == decode(Strs.TrimSpace(text)).value && |r.value| > 0
  {
    var d := decode(Strs.TrimSpace(text));
    if d.Some? && |d.value| > 0 then d else None
  }

  /** Surrounding whitespace never changes what is extracted. */
  lemma ParseToolCallsIgnoresSpace(text: string, decode: string -> Option<seq<ToolCall>>)
    ensures ParseToolCallsFromText(Strs.TrimSpace(text), decode) == ParseToolCallsFromText(text, decode)
  {
    Strs.TrimSpaceIdempotent(text);
  }

  /** The endpoint of a tool: its `Items` string, or the string `url` of its `Items` object; "" when there is none. */
  function ToolUrl(items: Items): string
  {
    match items
    case TextItems(s) => s
    case ObjectItems(f) => UrlField(f)
    case OtherItems(obj) => if obj.Some? then UrlField(obj.value) else ""
  }

  function UrlField(f: map<string, ItemValue>): string {
    if "url" in f && f["url"].StringValue? then f["url"].s else ""
  }

  /** The index of the first tool called `name`. */
  function FindTool(tools: seq<Tool>, name: string): (r: Option<nat>)
    ensures r.Some? ==> r.value < |tools| && tools[r.value].name == name
    ensures r.Some? ==> forall j :: 0 <= j < r.value ==> tools[j].name != name
    ensures r.None? <==> forall j :: 0 <= j < |tools| ==> tools[j].name != name
  {
    if |tools| == 0 then None
    else if tools[0].name == name then Some(0)
    else match FindTool(tools[1..], name)
      case None => None
      case Some(i) => Some(i + 1)
  }

  /** The lookup loop of `executeToolCalls`. */
  method LookupTool(tools: seq<Tool>, name: string) returns (r: Option<nat>)
    ensures r == FindTool(tools, name)
  {
    var i := 0;
    while i < |tools|
      invariant 0 <= i <= |tools|
      invariant forall j :: 0 <= j < i ==> tools[j].name != name
    {
      if tools[i].name == name {
        return Some(i);
      }
      i := i + 1;
    }
    return None;
  }

  /** How the HTTP call to a tool ends: the request cannot be built, it fails, or a body comes back. */
  datatype HttpOutcome = InvalidRequest(msg: string) | RequestFailed(msg: string) | Responded(body: string)

  datatype ToolError =
    | ToolNotFound(name: string)
    | NoUrl(name: string)
    | CreateRequestFailed(name: string, msg: string)
    | ToolRequestFailed(name: string, msg: string)

  /** The text one tool response contributes. */
  function ResponseBlock(name: string, body: string): string {
    "Tool " + name + " response:\n" + Strs.TrimSpace(body) + "\n\n"
  }

  /** The outcome of one call: its response block, or why it failed. */
  function CallOutcome(tools: seq<Tool>, call: ToolCall, http: (string, ToolCall) -> HttpOutcome): Result<string, ToolError>
  {
    match FindTool(tools, call.name)
    case None => Failure(ToolNotFound(call.name))
    case Some(i) =>
      var url := ToolUrl(tools[i].items);
      if url == "" then Failure(NoUrl(call.name))
      else match http(url, call)
        case InvalidRequest(m) => Failure(CreateRequestFailed(call.name, m))
        case RequestFailed(m) => Failure(ToolRequestFailed(call.name, m))
        case Responded(body) => Success(ResponseBlock(call.name, body))
  }

  /** A call fails as not found exactly when no tool has its name, and for lack of a URL exactly when the tool found has none. */
  lemma CallOutcomeErrors(tools: seq<Tool>, call: ToolCall, http: (string, ToolCall) -> HttpOutcome)
    ensures CallOutcome(tools, call, http) == Failure(ToolNotFound(call.name)) <==>
      forall j :: 0 <= j < |tools| ==> tools[j].name != call.name
    ensures CallOutcome(tools, call, http) == Failure(NoUrl(call.name)) <==>
      FindTool(tools, call.name).Some? && ToolUrl(tools[FindTool(tools, call.name).value].items) == ""
    ensures CallOutcome(tools, call, http).Success? ==>
      exists body :: http(ToolUrl(tools[FindTool(tools, call.name).value].items), call) == Responded(body)
        && CallOutcome(tools, call, http) == Success(ResponseBlock(call.name, body))
  {
    var found := FindTool(tools, call.name);
    if found.Some? {
      var url := ToolUrl(tools[found.value].items);
      if url != "" {
        var reply := http(url, call);
        if reply.Responded? {
          assert CallOutcome(tools, call, http) == Success(ResponseBlock(call.name, reply.body));
        }
      }
    }
  }

  /** The outcome of every call, in call order. */
  function Outcomes(tools: seq<Tool>, calls: seq<ToolCall>, http: (string, ToolCall) -> HttpOutcome): (r: seq<Result<string, ToolError>>)
    ensures |r| == |calls|
    ensures forall i :: 0 <= i < |calls| ==> r[i] == CallOutcome(tools, calls[i], http)
  {
    seq(|calls|, i requires 0 <= i < |calls| => CallOutcome(tools, calls[i], http))
  }

  /** The blocks of successive outcomes concatenated, or the first failure. */
  function Collect(outs: seq<Result<string, ToolError>>): Result<string, ToolError>
  {
    if |outs| == 0 then Success("") else AndThen(outs[0], Collect(outs[1..]))
  }

  /** The calls' response blocks in call order, or the error of the first call that fails. */
  function ToolResults(tools: seq<Tool>, calls: seq<ToolCall>, http: (string, ToolCall) -> HttpOutcome): Result<string, ToolError>
  {
    Collect(Outcomes(tools, calls, http))
  }

  /** The first outcome, then the rest: the first failure wins, successes concatenate. */
  function AndThen(first: Result<string, ToolError>, rest: Result<string, ToolError>): Result<string, ToolError> {
    match first
    case Failure(e) => Failure(e)
    case Success(b) => Prepend(b, rest)
  }

  /** Puts `text` in front of a successful result. */
  function Prepend(text: string, r: Result<string, ToolError>): Result<string, ToolError> {
    match r
    case Success(v) => Success(text + v)
    case Failure(e) => Failure(e)
  }

  lemma PrependEmpty(r: Result<string, ToolError>)
    ensures Prepend("", r) == r
  {
    if r.Success? {
      assert "" + r.value == r.value;
    }
  }

  lemma PrependTwice(a: string, b: string, r: Result<string, ToolError>)
    ensures Prepend(a, Prepend(b, r)) == Prepend(a + b, r)
  {
    if r.Success? {
      assert a + (b + r.value) == (a + b) + r.value;
    }
  }

  /** The fold stops at a failed outcome. */
  lemma CollectStopsAt(outs: seq<Result<string, ToolError>>, i: nat, sb: string)
    requires i < |outs| && outs[i].Failure?
    requires Collect(outs) == Prepend(sb, Collect(outs[i..]))
    ensures Collect(outs) == Failure(outs[i].error)
  {
    assert outs[i..][0] == outs[i];
  }

  /** The fold moves past a successful outcome by appending its text. */
  lemma CollectStepsOver(outs: seq<Result<string, ToolError>>, i: nat, sb: string)
    requires i < |outs| && outs[i].Success?
    requires Collect(outs) == Prepend(sb, Collect(outs[i..]))
    ensures Collect(outs) == Prepend(sb + outs[i].value, Collect(outs[i + 1..]))
  {
    assert outs[i..][0] == outs[i] && outs[i..][1..] == outs[i + 1..];
    PrependTwice(sb, outs[i].value, Collect(outs[i + 1..]));
  }

  /** `executeToolCalls`. */
  method ExecuteToolCalls(tools: seq<Tool>, calls: seq<ToolCall>, http: (string, ToolCall) -> HttpOutcome)
    returns (r: Result<string, ToolError>)
    ensures r == ToolResults(tools, calls, http)
  {
    ghost var outs := Outcomes(tools, calls, http);
    var sb := "";
    var i := 0;
    assert outs[0..] == outs;
    PrependEmpty(Collect(outs));
    while i < |calls|
      invariant 0 <= i <= |calls|
      invariant Collect(outs) == Prepend(sb, Collect(outs[i..]))
    {
      var call := calls[i];
      var idx := LookupTool(tools, call.name);
      if idx.None? {
        assert outs[i] == Failure(ToolNotFound(call.name));
        CollectStopsAt(outs, i, sb);
        return Failure(ToolNotFound(call.name));
      }
      var url := ToolUrl(tools[idx.value].items);
      if url == "" {
        assert outs[i] == Failure(NoUrl(call.name));
        CollectStopsAt(outs, i, sb);
        return Failure(NoUrl(call.name));
      }
      match http(url, call) {
        case InvalidRequest(m) =>
          assert outs[i] == Failure(CreateRequestFailed(call.name, m));
          CollectStopsAt(outs, i, sb);
          return Failure(CreateRequestFailed(call.name, m));
        case RequestFailed(m) =>
          assert outs[i] == Failure(ToolRequestFailed(call.name, m));
          CollectStopsAt(outs, i, sb);
          return Failure(ToolRequestFailed(call.name, m));
        case Responded(body) =>
          var block := ResponseBlock(call.name, body);
          assert outs[i] == Success(block);
          CollectStepsOver(outs, i, sb);
          sb := sb + block;
      }
      i := i + 1;
    }
    assert outs[i..] == [];
    assert sb + "" == sb;
    return Success(sb);
  }

  /** Collecting succeeds exactly when every outcome does. */
  lemma {:induction false} CollectSucceedsIff(outs: seq<Result<string, ToolError>>)
    ensures Collect(outs).Success? <==> forall i :: 0 <= i < |outs| ==> outs[i].Success?
  {
    if |outs| > 0 {
      CollectSucceedsIff(outs[1..]);
      assert forall i :: 1 <= i < |outs| ==> outs[i] == outs[1..][i - 1];
    }
  }

  /** Running the calls succeeds exactly when every single call succeeds. */
  lemma ToolResultsSucceedIff(tools: seq<Tool>, calls: seq<ToolCall>, http: (string, ToolCall) -> HttpOutcome)
    ensures ToolResults(tools, calls, http).Success? <==>
      forall i :: 0 <= i < |calls| ==> CallOutcome(tools, calls[i], http).Success?
  {
    CollectSucceedsIff(Outcomes(tools, calls, http));
  }

  /** A failed collection fails with the error of its first failed outcome. */
  lemma {:induction false} CollectFirstError(outs: seq<Result<string, ToolError>>) returns (i: nat)
    requires Collect(outs).Failure?
    ensures i < |outs|
    ensures forall j :: 0 <= j < i ==> outs[j].Success?
    ensures outs[i] == Failure(Collect(outs).error)
  {
    if outs[0].Failure? {
      return 0;
    }
    var k := CollectFirstError(outs[1..]);
    i := k + 1;
    forall j | 0 <= j < i
      ensures outs[j].Success?
    {
      if j > 0 {
        assert outs[j] == outs[1..][j - 1];
      }
    }
  }

  /** A failure is the error of the first failing call, at index `i`; every call before it succeeded. */
  lemma ToolResultsFirstError(tools: seq<Tool>, calls: seq<ToolCall>, http: (string, ToolCall) -> HttpOutcome)
    returns (i: nat)
    requires ToolResults(tools, calls, http).Failure?
    ensures i < |calls|
    ensures forall j :: 0 <= j < i ==> CallOutcome(tools, calls[j], http).Success?
    ensures CallOutcome(tools, calls[i], http) == Failure(ToolResults(tools, calls, http).error)
  {
    i := CollectFirstError(Outcomes(tools, calls, http));
  }

  /** Once the first outcomes are collected successfully, their text comes in front of what the rest collect to. */
  lemma {:induction false} CollectAppend(x: seq<Result<string, ToolError>>, y: seq<Result<string, ToolError>>)
    requires Collect(x).Success?
    ensures Collect(x + y) == Prepend(Collect(x).value, Collect(y))
    decreases |x|
  {
    if |x| == 0 {
      assert x + y == y;
      PrependEmpty(Collect(y));
    } else {
      assert (x + y)[0] == x[0] && (x + y)[1..] == x[1..] + y;
      CollectAppend(x[1..], y);
      PrependTwice(x[0].value, Collect(x[1..]).value, Collect(y));
    }
  }

  lemma OutcomesAppend(tools: seq<Tool>, a: seq<ToolCall>, b: seq<ToolCall>, http: (string, ToolCall) -> HttpOutcome)
    ensures Outcomes(tools, a + b, http) == Outcomes(tools, a, http) + Outcomes(tools, b, http)
  {
  }

  /** Results of consecutive batches: once the first batch succeeds, its text comes in front of the second's outcome. */
  lemma ToolResultsAppend(tools: seq<Tool>, a: seq<ToolCall>, b: seq<ToolCall>, http: (string, ToolCall) -> HttpOutcome)
    requires ToolResults(tools, a, http).Success?
    ensures ToolResults(tools, a + b, http) == Prepend(ToolResults(tools, a, http).value, ToolResults(tools, b, http))
  {
    OutcomesAppend(tools, a, b, http);
    CollectAppend(Outcomes(tools, a, http), Outcomes(tools, b, http));
  }

  /** A call naming no known tool makes the whole run fail. */
  lemma UnknownToolFails(tools: seq<Tool>, calls: seq<ToolCall>, http: (string, ToolCall) -> HttpOutcome, i: nat)
    requires i < |calls| && forall j :: 0 <= j < |tools| ==> tools[j].name != calls[i].name
    ensures ToolResults(tools, calls, http).Failure?
  {
    CallOutcomeErrors(tools, calls[i], http);
    ToolResultsSucceedIff(tools, calls, http);
  }

  /** The prompt of the follow-up completion after the tools ran. */
  function FollowUpPrompt(prompt: string, toolResults: string): (r: string)
    ensures Strs.StartsWith(r, prompt) && Strs.EndsWith(r, toolResults)
    ensures |r| == |prompt| + |"\n\nTool results:\n"| + |toolResults|
  {
    prompt + "\n\nTool results:\n" + toolResults
  }

  const ToolBlockHeader: string :=
    "\n\nYou can call tools by responding with JSON of the form {\"tool_calls\": [{\"name\": \"tool_name\", \"arguments\": {...}}]}\n"

  /** The lines describing one tool. */
  function ToolEntry(t: Tool): string {
    "Tool: " + t.name + "\nDescription: " + t.description
      + (if t.parameters.Some? then "\nParameters (JSON Schema): " + t.parameters.value else "")
      + "\n\n"
  }

  /** The entry of every tool, in order. */
  function EntrySeq(tools: seq<Tool>): seq<string>
  {
    seq(|tools|, i requires 0 <= i < |tools| => ToolEntry(tools[i]))
  }

  function ToolEntries(tools: seq<Tool>): string {
    Strs.Concat(EntrySeq(tools))
  }

  /** What `toolPromptBlock` returns. */
  function ToolBlockText(tools: seq<Tool>): (r: string)
    ensures |tools| == 0 <==> r == ""
    ensures |tools| > 0 ==> Strs.StartsWith(r, ToolBlockHeader)
  {
    if |tools| == 0 then "" else ToolBlockHeader + ToolEntries(tools)
  }

  lemma EntrySeqAppend(a: seq<Tool>, b: seq<Tool>)
    ensures EntrySeq(a + b) == EntrySeq(a) + EntrySeq(b)
  {
  }

  /** Describing two lists of tools one after the other describes their concatenation. */
  lemma ToolEntriesAppend(a: seq<Tool>, b: seq<Tool>)
    ensures ToolEntries(a + b) == ToolEntries(a) + ToolEntries(b)
  {
    EntrySeqAppend(a, b);
    Strs.ConcatAppend(EntrySeq(a), EntrySeq(b));
  }

  /** One more tool adds its entry at the end. */
  lemma ToolEntriesSnoc(tools: seq<Tool>, t: Tool)
    ensures ToolEntries(tools + [t]) == ToolEntries(tools) + ToolEntry(t)
  {
    ToolEntriesAppend(tools, [t]);
    assert EntrySeq([t]) == [ToolEntry(t)];
    assert Strs.Concat([ToolEntry(t)]) == ToolEntry(t) by {
      assert [ToolEntry(t)][..0] == [];
      assert "" + ToolEntry(t) == ToolEntry(t);
    }
  }

  /** `toolPromptBlock`: the header, then one entry per tool (the builder's text is assembled from the entries). */
  method ToolPromptBlock(tools: seq<Tool>) returns (r: string)
    ensures r == ToolBlockText(tools)
  {
    if |tools| == 0 {
      return "";
    }
    var entries := "";
    var i := 0;
    while i < |tools|
      invariant 0 <= i <= |tools|
      invariant entries == ToolEntries(tools[..i])
    {
      var entry := "Tool: " + tools[i].name + "\nDescription: " + tools[i].description;
      if tools[i].parameters.Some? {
        entry := entry + "\nParameters (JSON Schema): " + tools[i].parameters.value;
      }
      entry := entry + "\n\n";
      assert entry == ToolEntry(tools[i]);
      assert tools[..i + 1] == tools[..i] + [tools[i]];
      ToolEntriesSnoc(tools[..i], tools[i]);
      entries := entries + entry;
      i := i + 1;
    }
    assert tools[..i] == tools;
    r := ToolBlockHeader + entries;
  }

  const PromptHeader: string := "You are a helpful assistant.\n\n"
  const ToolInstruction: string :=
    "If you need to use a tool, respond ONLY with the JSON tool_calls block. Otherwise, answer normally.\n"

  /** The prompt line of one message: its role in upper case, then its content. */
  function MessageLine(m: Message): string {
    Strs.ToUpper(m.role) + ": " + m.content + "\n"
  }

  /** The line of every message, in order. */
  function LineSeq(ms: seq<Message>): seq<string>
  {
    seq(|ms|, i requires 0 <= i < |ms| => MessageLine(ms[i]))
  }

  function MessageLines(ms: seq<Message>): string {
    Strs.Concat(LineSeq(ms))
  }

  lemma LineSeqAppend(a: seq<Message>, b: seq<Message>)
    ensures LineSeq(a + b) == LineSeq(a) + LineSeq(b)
  {
  }

  /** The message lines of a conversation are those of its parts, in order. */
  lemma MessageLinesAppend(a: seq<Message>, b: seq<Message>)
    ensures MessageLines(a + b) == MessageLines(a) + MessageLines(b)
  {
    LineSeqAppend(a, b);
    Strs.ConcatAppend(LineSeq(a), LineSeq(b));
  }

  /** One more message adds its line at the end. */
  lemma MessageLinesSnoc(ms: seq<Message>, m: Message)
    ensures MessageLines(ms + [m]) == MessageLines(ms) + MessageLine(m)
  {
    MessageLinesAppend(ms, [m]);
    assert LineSeq([m]) == [MessageLine(m)];
    assert Strs.Concat([MessageLine(m)]) == MessageLine(m) by {
      assert [MessageLine(m)][..0] == [];
      assert "" + MessageLine(m) == MessageLine(m);
    }
  }

  /** What `formatChatPrompt` returns. */
  function ChatPromptText(ms: seq<Message>, tools: seq<Tool>): string {
    PromptHeader + MessageLines(ms) + (if |tools| > 0 then ToolBlockText(tools) + ToolInstruction else "")
  }

  /**
   * The prompt opens with the header and one line per message; a tool-free
   * prompt is exactly that, and tools add their block and the instruction
   * after the messages.
   */
  lemma ChatPromptShape(ms: seq<Message>, tools: seq<Tool>)
    ensures Strs.StartsWith(ChatPromptText(ms, tools), PromptHeader + MessageLines(ms))
    ensures |tools| == 0 ==> ChatPromptText(ms, tools) == PromptHeader + MessageLines(ms)
    ensures |tools| > 0 ==>
      ChatPromptText(ms, tools) == PromptHeader + MessageLines(ms) + (ToolBlockHeader + ToolEntries(tools) + ToolInstruction)
  {
    var head := PromptHeader + MessageLines(ms);
    var tail := if |tools| > 0 then ToolBlockText(tools) + ToolInstruction else "";
    assert ChatPromptText(ms, tools) == head + tail;
    assert (head + tail)[..|head|] == head;
  }

  /** `formatChatPrompt`: the header, one line per message, then the tool block and instruction if there are tools. */
  method FormatChatPrompt(ms: seq<Message>, tools: seq<Tool>) returns (r: string)
    ensures r == ChatPromptText(ms, tools)
  {
    var lines := "";
    var i := 0;
    while i < |ms|
      invariant 0 <= i <= |ms|
      invariant lines == MessageLines(ms[..i])
    {
      var line := Strs.ToUpper(ms[i].role) + ": " + ms[i].content + "\n";
      assert line == MessageLine(ms[i]);
      assert ms[..i + 1] == ms[..i] + [ms[i]];
      MessageLinesSnoc(ms[..i], ms[i]);
      lines := lines + line;
      i := i + 1;
    }
    assert ms[..i] == ms;
    var tail := "";
    if |tools| > 0 {
      var block := ToolPromptBlock(tools);
      tail := block + ToolInstruction;
    }
    r := PromptHeader + lines + tail;
  }

  /** Appending a message to a tool-free conversation appends exactly its line to the prompt. */
  lemma ChatPromptExtends(ms: seq<Message>, m: Message)
    ensures ChatPromptText(ms + [m], []) == ChatPromptText(ms, []) + MessageLine(m)
  {
    MessageLinesSnoc(ms, m);
  }
}
