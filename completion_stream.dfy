/**
 * The three readers of the MLX runner's newline-delimited completion stream
 * (server/routes_mlx.go): the streaming generate handler, the streaming chat
 * handler and the non-streaming collector. The stream is modelled as the
 * sequence of its lines after JSON decoding: `None` for a line that does not
 * decode, `Some(chunk)` otherwise.
 */
module CompletionStream {
  import opened Wrappers
  import opened Api
  import Strs
  import Tools

  datatype Metrics = Metrics(promptEvalCount: int, promptEvalDuration: int, evalCount: int, evalDuration: int)

  /** One decoded stream line (`mlxCompletionChunk`). */
  datatype Chunk = Chunk(content: string, done: bool, doneReason: string, metrics: Metrics, toolCalls: seq<ToolCall>)

  /** The zero chunk the collector starts from. */
  const EmptyChunk: Chunk := Chunk("", false, "", Metrics(0, 0, 0, 0), [])

  datatype GenerateResponse = GenerateResponse(model: string, response: string, done: bool, doneReason: string, metrics: Metrics)

  datatype ChatResponse = ChatResponse(model: string, message: Message, done: bool, doneReason: string, metrics: Metrics)

  /** The chunks that decoded, in stream order. */
  function Decoded(lines: seq<Option<Chunk>>): seq<Chunk>
  {
    if |lines| == 0 then []
    else (if lines[0].Some? then [lines[0].value] else []) + Decoded(lines[1..])
  }

  /** Exactly the decoded lines' chunks, and no more of them than there are lines. */
  lemma {:induction false} DecodedSpec(lines: seq<Option<Chunk>>)
    ensures |Decoded(lines)| <= |lines|
    ensures forall c :: c in Decoded(lines) <==> Some(c) in lines
  {
    if |lines| > 0 {
      DecodedSpec(lines[1..]);
      assert lines == [lines[0]] + lines[1..];
    }
  }

  /** Decoding a concatenation decodes the parts in order. */
  lemma {:induction false} DecodedAppend(a: seq<Option<Chunk>>, b: seq<Option<Chunk>>)
    ensures Decoded(a + b) == Decoded(a) + Decoded(b)
  {
    if |a| > 0 {
      assert (a + b)[0] == a[0] && (a + b)[1..] == a[1..] + b;
      DecodedAppend(a[1..], b);
    } else {
      assert a + b == b;
    }
  }

  predicate AnyDone(cs: seq<Chunk>) {
    exists k :: 0 <= k < |cs| && cs[k].done
  }

  /**
   * The chunks a reader acts on: the decoded chunks up to and including the
   * first one marked done; all of them when none is.
   */
  function Consumed(lines: seq<Option<Chunk>>): seq<Chunk>
  {
    if |lines| == 0 then []
    else match lines[0]
      case None => Consumed(lines[1..])
      case Some(c) => if c.done then [c] else [c] + Consumed(lines[1..])
  }

  /**
   * The consumed chunks start the decoded ones, only the last may be done,
   * it is done exactly when some decoded chunk is, and without a done chunk
   * every decoded chunk is consumed.
   */
  lemma {:induction false} ConsumedSpec(lines: seq<Option<Chunk>>)
    ensures Consumed(lines) <= Decoded(lines)
    ensures forall k :: 0 <= k < |Consumed(lines)| - 1 ==> !Consumed(lines)[k].done
    ensures AnyDone(Decoded(lines)) <==> |Consumed(lines)| > 0 && Consumed(lines)[|Consumed(lines)| - 1].done
    ensures !AnyDone(Decoded(lines)) ==> Consumed(lines) == Decoded(lines)
  {
    if |lines| > 0 {
      ConsumedSpec(lines[1..]);
      var d, d' := Decoded(lines), Decoded(lines[1..]);
      match lines[0]
      case None =>
        assert d == d';
      case Some(c) =>
        assert d == [c] + d';
        AnyDoneCons(c, d');
    }
  }

  lemma AnyDoneCons(c: Chunk, d: seq<Chunk>)
    ensures AnyDone([c] + d) <==> c.done || AnyDone(d)
  {
    var cd := [c] + d;
    if AnyDone(cd) && !c.done {
      var k :| 0 <= k < |cd| && cd[k].done;
      assert d[k - 1].done;
    }
    if AnyDone(d) {
      var k :| 0 <= k < |d| && d[k].done;
      assert cd[k + 1].done;
    }
    if c.done {
      assert cd[0].done;
    }
  }

  /** What the reader does with one line: skip it, act on it and stop, or act on it and go on. */
  lemma ConsumedStep(lines: seq<Option<Chunk>>, i: nat)
    requires i < |lines|
    ensures lines[i].None? ==> Consumed(lines[i..]) == Consumed(lines[i + 1..])
    ensures lines[i].Some? && lines[i].value.done ==> Consumed(lines[i..]) == [lines[i].value]
    ensures lines[i].Some? && !lines[i].value.done ==> Consumed(lines[i..]) == [lines[i].value] + Consumed(lines[i + 1..])
  {
    assert lines[i..][0] == lines[i] && lines[i..][1..] == lines[i + 1..];
  }

  /** The concatenated contents. */
  function ContentText(cs: seq<Chunk>): string {
    if |cs| == 0 then "" else ContentText(cs[..|cs| - 1]) + cs[|cs| - 1].content
  }

  /** The latest non-empty list of tool calls, or none. */
  function LastNonEmpty(xs: seq<seq<ToolCall>>): seq<ToolCall>
  {
    if |xs| == 0 then []
    else if |xs[|xs| - 1]| > 0 then xs[|xs| - 1]
    else LastNonEmpty(xs[..|xs| - 1])
  }

  /** It is empty exactly when every list is, and otherwise it is a list after which all are empty. */
  lemma {:induction false} LastNonEmptySpec(xs: seq<seq<ToolCall>>)
    ensures (forall k :: 0 <= k < |xs| ==> |xs[k]| == 0) <==> LastNonEmpty(xs) == []
    ensures LastNonEmpty(xs) != [] ==>
      exists k :: 0 <= k < |xs| && xs[k] == LastNonEmpty(xs) && forall j :: k < j < |xs| ==> |xs[j]| == 0
  {
    if |xs| > 0 && |xs[|xs| - 1]| == 0 {
      var init := xs[..|xs| - 1];
      LastNonEmptySpec(init);
      assert forall k :: 0 <= k < |init| ==> init[k] == xs[k];
    }
  }

  lemma LastNonEmptySnoc(xs: seq<seq<ToolCall>>, x: seq<ToolCall>)
    ensures LastNonEmpty(xs + [x]) == if |x| > 0 then x else LastNonEmpty(xs)
  {
    assert (xs + [x])[..|xs|] == xs;
  }

  function ToolCallsOf(cs: seq<Chunk>): (r: seq<seq<ToolCall>>)
    ensures |r| == |cs| && forall k :: 0 <= k < |cs| ==> r[k] == cs[k].toolCalls
  {
    seq(|cs|, k requires 0 <= k < |cs| => cs[k].toolCalls)
  }

  /** The last chunk, or `d` when there is none. */
  function LastOr(d: Chunk, cs: seq<Chunk>): Chunk {
    if |cs| == 0 then d else cs[|cs| - 1]
  }

  // ---------------------------------------------------------------- generate

  /** The record the generate stream writes for one chunk. */
  function GenerateRecord(model: string, c: Chunk): GenerateResponse
  {
    GenerateResponse(model, c.content, c.done, c.doneReason, c.metrics)
  }

  /** The record of every chunk, in order. */
  function GenerateRecords(model: string, cs: seq<Chunk>): seq<GenerateResponse>
  {
    seq(|cs|, k requires 0 <= k < |cs| => GenerateRecord(model, cs[k]))
  }

  /**
   * `streamMLXCompletion`: one record per decoded chunk, in order, ending
   * right after the first chunk marked done.
   */
  method StreamCompletion(model: string, lines: seq<Option<Chunk>>) returns (out: seq<GenerateResponse>)
    ensures out == GenerateRecords(model, Consumed(lines))
  {
    out := [];
    ghost var seen: seq<Chunk> := [];
    var i := 0;
    var stopped := false;
    assert lines[0..] == lines;
    while i < |lines| && !stopped
      invariant 0 <= i <= |lines|
      invariant out == GenerateRecords(model, seen)
      invariant stopped ==> Consumed(lines) == seen
      invariant !stopped ==> Consumed(lines) == seen + Consumed(lines[i..])
      decreases |lines| - i
    {
      ConsumedStep(lines, i);
      match lines[i] {
        case None =>
        case Some(chunk) =>
          out := out + [GenerateRecord(model, chunk)];
          seen := seen + [chunk];
          if chunk.done {
            stopped := true;
          }
      }
      i := i + 1;
    }
    if !stopped {
      assert lines[i..] == [];
      assert seen + [] == seen;
    }
  }

  /** Every record before the last is not done; the last is done exactly when the stream sent a done chunk. */
  lemma StreamDoneOnlyLast(model: string, lines: seq<Option<Chunk>>)
    ensures var out := GenerateRecords(model, Consumed(lines));
      && (forall k :: 0 <= k < |out| - 1 ==> !out[k].done)
      && (AnyDone(Decoded(lines)) <==> |out| > 0 && out[|out| - 1].done)
  {
    ConsumedSpec(lines);
  }

  /** The response `collectMLXCompletion` builds. `encode` is the JSON encoding of a `{"tool_calls": ...}` envelope. */
  function CollectedResponse(model: string, lines: seq<Option<Chunk>>, encode: seq<ToolCall> -> string): (r: GenerateResponse)
    ensures r.done && r.model == model
    ensures var cs := Consumed(lines);
      && r.doneReason == LastOr(EmptyChunk, cs).doneReason && r.metrics == LastOr(EmptyChunk, cs).metrics
  {
    var cs := Consumed(lines);
    var text := ContentText(cs);
    var calls := LastNonEmpty(ToolCallsOf(cs));
    var last := LastOr(EmptyChunk, cs);
    GenerateResponse(model, if |calls| > 0 && |text| == 0 then encode(calls) else text, true, last.doneReason, last.metrics)
  }

  /** What one more consumed chunk does to the collector's state. */
  lemma SeenSnoc(seen: seq<Chunk>, c: Chunk)
    ensures ContentText(seen + [c]) == ContentText(seen) + c.content
    ensures LastOr(EmptyChunk, seen + [c]) == c
    ensures LastNonEmpty(ToolCallsOf(seen + [c])) == if |c.toolCalls| > 0 then c.toolCalls else LastNonEmpty(ToolCallsOf(seen))
  {
    assert (seen + [c])[..|seen|] == seen;
    assert ToolCallsOf(seen + [c]) == ToolCallsOf(seen) + [c.toolCalls];
    LastNonEmptySnoc(ToolCallsOf(seen), c.toolCalls);
  }

  /** One chunk of `collectMLXCompletion`: append its content, remember it as the last chunk and keep its tool calls if it has any. */
  method CollectChunk(buf: string, last: Chunk, toolCalls: seq<ToolCall>, ghost seen: seq<Chunk>, chunk: Chunk)
    returns (buf': string, last': Chunk, toolCalls': seq<ToolCall>)
    requires buf == ContentText(seen)
    requires last == LastOr(EmptyChunk, seen)
    requires toolCalls == LastNonEmpty(ToolCallsOf(seen))
    ensures buf' == ContentText(seen + [chunk])
    ensures last' == LastOr(EmptyChunk, seen + [chunk])
    ensures toolCalls' == LastNonEmpty(ToolCallsOf(seen + [chunk]))
  {
    last' := chunk;
    toolCalls' := toolCalls;
    if |chunk.toolCalls| > 0 {
      toolCalls' := chunk.toolCalls;
    }
    buf' := buf + chunk.content;
    SeenSnoc(seen, chunk);
  }

  /** `collectMLXCompletion`. */
  method CollectCompletion(model: string, lines: seq<Option<Chunk>>, encode: seq<ToolCall> -> string)
    returns (resp: GenerateResponse)
    ensures resp == CollectedResponse(model, lines, encode)
  {
    var buf := "";
    var last := EmptyChunk;
    var toolCalls: seq<ToolCall> := [];
    ghost var seen: seq<Chunk> := [];
    var i := 0;
    var stopped := false;
    assert lines[0..] == lines;
    while i < |lines| && !stopped
      invariant 0 <= i <= |lines|
      invariant buf == ContentText(seen)
      invariant last == LastOr(EmptyChunk, seen)
      invariant toolCalls == LastNonEmpty(ToolCallsOf(seen))
      invariant stopped ==> Consumed(lines) == seen
      invariant !stopped ==> Consumed(lines) == seen + Consumed(lines[i..])
      decreases |lines| - i
    {
      ConsumedStep(lines, i);
      match lines[i] {
        case None =>
        case Some(chunk) =>
          buf, last, toolCalls := CollectChunk(buf, last, toolCalls, seen, chunk);
          seen := seen + [chunk];
          if chunk.done {
            stopped := true;
          }
      }
      i := i + 1;
    }
    if !stopped {
      assert lines[i..] == [];
      assert seen + [] == seen;
    }
    if |toolCalls| > 0 && |buf| == 0 {
      buf := encode(toolCalls);
    }
    resp := GenerateResponse(model, buf, true, last.doneReason, last.metrics);
  }

  /** The concatenated contents are the concatenation of the chunks' contents. */
  lemma {:induction false} ContentTextIsConcat(cs: seq<Chunk>)
    ensures ContentText(cs) == Strs.Concat(seq(|cs|, k requires 0 <= k < |cs| => cs[k].content))
  {
    if |cs| > 0 {
      ContentTextIsConcat(cs[..|cs| - 1]);
      assert seq(|cs|, k requires 0 <= k < |cs| => cs[k].content)[..|cs| - 1]
        == seq(|cs| - 1, k requires 0 <= k < |cs| - 1 => cs[..|cs| - 1][k].content);
    }
  }

  /**
   * Without tool calls to report, the collected response text is exactly
   * what the streaming handler would have written, record after record.
   */
  lemma CollectMatchesStream(model: string, lines: seq<Option<Chunk>>, encode: seq<ToolCall> -> string)
    requires forall c :: c in Consumed(lines) ==> c.toolCalls == []
    ensures var out := GenerateRecords(model, Consumed(lines));
      CollectedResponse(model, lines, encode).response
        == Strs.Concat(seq(|out|, k requires 0 <= k < |out| => out[k].response))
  {
    var cs := Consumed(lines);
    ContentTextIsConcat(cs);
    LastNonEmptySpec(ToolCallsOf(cs));
    var out := GenerateRecords(model, cs);
    assert seq(|out|, k requires 0 <= k < |out| => out[k].response) == seq(|cs|, k requires 0 <= k < |cs| => cs[k].content);
  }

  /** Tool calls with no text come back as the encoded envelope of the latest tool calls. */
  /** Collected text, when there is any, is the response even if some chunk carried tool calls. */
  lemma CollectTextWins(model: string, lines: seq<Option<Chunk>>, encode: seq<ToolCall> -> string)
    requires ContentText(Consumed(lines)) != ""
    ensures CollectedResponse(model, lines, encode).response == ContentText(Consumed(lines))
  {
  }

  lemma CollectToolCallsOnly(model: string, lines: seq<Option<Chunk>>, encode: seq<ToolCall> -> string)
    requires ContentText(Consumed(lines)) == ""
    requires exists c :: c in Consumed(lines) && c.toolCalls != []
    ensures CollectedResponse(model, lines, encode).response == encode(LastNonEmpty(ToolCallsOf(Consumed(lines))))
    ensures LastNonEmpty(ToolCallsOf(Consumed(lines))) != []
  {
    var cs := Consumed(lines);
    var c :| c in cs && c.toolCalls != [];
    var k :| 0 <= k < |cs| && cs[k] == c;
    assert ToolCallsOf(cs)[k] != [];
    LastNonEmptySpec(ToolCallsOf(cs));
  }

  // -------------------------------------------------------------------- chat

  /**
   * The record the chat stream writes for chunk `c`, where `full` is the text
   * streamed so far including `c`'s content. Tool calls on the chunk clear its
   * content; on a done chunk without them, tool calls parsed out of the whole
   * text replace its content.
   */
  function ChatRecord(model: string, c: Chunk, full: string, decode: string -> Option<seq<ToolCall>>): ChatResponse
  {
    var message :=
      if |c.toolCalls| == 0 && c.done then
        match Tools.ParseToolCallsFromText(full, decode)
        case Some(calls) => Message("assistant", "", calls)
        case None => Message("assistant", c.content, c.toolCalls)
      else if |c.toolCalls| > 0 then Message("assistant", "", c.toolCalls)
      else Message("assistant", c.content, c.toolCalls);
    ChatResponse(model, message, c.done, c.doneReason, c.metrics)
  }

  /**
   * A chat record is the chunk's own status and metrics under the role
   * "assistant"; it carries the chunk's tool calls with no text, or, on a done
   * chunk without them, the tool calls parsed out of the whole text with no
   * text; otherwise the chunk's text. Text and tool calls never both appear.
   */
  lemma ChatRecordSpec(model: string, c: Chunk, full: string, decode: string -> Option<seq<ToolCall>>)
    ensures var r := ChatRecord(model, c, full, decode);
      && r.model == model && r.message.role == "assistant"
      && r.done == c.done && r.doneReason == c.doneReason && r.metrics == c.metrics
      && (|c.toolCalls| > 0 ==> r.message == Message("assistant", "", c.toolCalls))
      && (!c.done && |c.toolCalls| == 0 ==> r.message == Message("assistant", c.content, []))
      && (c.done && |c.toolCalls| == 0 && Tools.ParseToolCallsFromText(full, decode).Some? ==>
            r.message == Message("assistant", "", Tools.ParseToolCallsFromText(full, decode).value))
      && (c.done && |c.toolCalls| == 0 && Tools.ParseToolCallsFromText(full, decode).None? ==>
            r.message == Message("assistant", c.content, []))
      && (r.message.toolCalls != [] ==> r.message.content == "")
  {
  }

  /** The chat records for a run of chunks, each seeing the text streamed up to and including itself. */
  function ChatRecords(model: string, cs: seq<Chunk>, decode: string -> Option<seq<ToolCall>>): (r: seq<ChatResponse>)
    ensures |r| == |cs|
  {
    if |cs| == 0 then []
    else ChatRecords(model, cs[..|cs| - 1], decode) + [ChatRecord(model, cs[|cs| - 1], ContentText(cs), decode)]
  }

  /** Record `k` is chunk `k`'s record, given the text of chunks 0 to `k`. */
  lemma {:induction false} ChatRecordsAt(model: string, cs: seq<Chunk>, decode: string -> Option<seq<ToolCall>>)
    ensures forall k :: 0 <= k < |cs| ==>
      ChatRecords(model, cs, decode)[k] == ChatRecord(model, cs[k], ContentText(cs[..k + 1]), decode)
  {
    if |cs| > 0 {
      var init := cs[..|cs| - 1];
      ChatRecordsAt(model, init, decode);
      forall k | 0 <= k < |cs|
        ensures ChatRecords(model, cs, decode)[k] == ChatRecord(model, cs[k], ContentText(cs[..k + 1]), decode)
      {
        if k < |init| {
          assert init[..k + 1] == cs[..k + 1];
        } else {
          assert cs[..k + 1] == cs;
        }
      }
    }
  }

  function RecordToolCalls(rs: seq<ChatResponse>): (r: seq<seq<ToolCall>>)
    ensures |r| == |rs| && forall k :: 0 <= k < |rs| ==> r[k] == rs[k].message.toolCalls
  {
    seq(|rs|, k requires 0 <= k < |rs| => rs[k].message.toolCalls)
  }

  lemma ChatRecordsSnoc(model: string, cs: seq<Chunk>, c: Chunk, decode: string -> Option<seq<ToolCall>>)
    ensures ChatRecords(model, cs + [c], decode) == ChatRecords(model, cs, decode) + [ChatRecord(model, c, ContentText(cs + [c]), decode)]
  {
    assert (cs + [c])[..|cs|] == cs;
  }

  /**
   * The body of the chat loop for one chunk, given the text streamed so far
   * including it: the record to write, and the tool calls it detects.
   */
  method ChatChunk(model: string, chunk: Chunk, full: string, decode: string -> Option<seq<ToolCall>>)
    returns (record: ChatResponse, found: Option<seq<ToolCall>>)
    ensures record == ChatRecord(model, chunk, full, decode)
    ensures found == if |record.message.toolCalls| > 0 then Some(record.message.toolCalls) else None
  {
    var contentOut := chunk.content;
    var toolCalls := chunk.toolCalls;
    found := None;
    if |toolCalls| == 0 && chunk.done {
      var parsed := Tools.ParseToolCallsFromText(full, decode);
      if parsed.Some? {
        toolCalls := parsed.value;
        contentOut := "";
        found := Some(parsed.value);
      }
    } else if |toolCalls| > 0 {
      contentOut := "";
      found := Some(toolCalls);
    }
    record := ChatResponse(model, Message("assistant", contentOut, toolCalls), chunk.done, chunk.doneReason, chunk.metrics);
  }

  /** One chunk of the chat loop keeps the records and the reported tool calls in step with the chunks seen. */
  lemma ChatLoopStep(model: string, seen: seq<Chunk>, chunk: Chunk, decode: string -> Option<seq<ToolCall>>,
                     out: seq<ChatResponse>, record: ChatResponse)
    requires out == ChatRecords(model, seen, decode)
    requires record == ChatRecord(model, chunk, ContentText(seen + [chunk]), decode)
    ensures out + [record] == ChatRecords(model, seen + [chunk], decode)
    ensures LastNonEmpty(RecordToolCalls(out + [record])) ==
      if |record.message.toolCalls| > 0 then record.message.toolCalls else LastNonEmpty(RecordToolCalls(out))
  {
    ChatRecordsSnoc(model, seen, chunk, decode);
    assert RecordToolCalls(out + [record]) == RecordToolCalls(out) + [record.message.toolCalls];
    LastNonEmptySnoc(RecordToolCalls(out), record.message.toolCalls);
  }

  /** The chat loop's work on one decoded chunk: extend the text, write the record, note any tool calls. */
  method ChatLoopChunk(model: string, chunk: Chunk, full: string, out: seq<ChatResponse>, detected: seq<ToolCall>,
                       ghost seen: seq<Chunk>, decode: string -> Option<seq<ToolCall>>)
    returns (full': string, out': seq<ChatResponse>, detected': seq<ToolCall>)
    requires full == ContentText(seen) && out == ChatRecords(model, seen, decode)
    requires detected == LastNonEmpty(RecordToolCalls(out))
    ensures full' == ContentText(seen + [chunk]) && out' == ChatRecords(model, seen + [chunk], decode)
    ensures detected' == LastNonEmpty(RecordToolCalls(out'))
  {
    full' := full + chunk.content;
    SeenSnoc(seen, chunk);
    var record, found := ChatChunk(model, chunk, full', decode);
    detected' := detected;
    if found.Some? {
      detected' := found.value;
    }
    ChatLoopStep(model, seen, chunk, decode, out, record);
    out' := out + [record];
  }

  /**
   * `streamMLXChat`: the records it writes and the tool calls it reports,
   * which are the latest non-empty tool calls among the records.
   */
  method StreamChat(model: string, lines: seq<Option<Chunk>>, decode: string -> Option<seq<ToolCall>>)
    returns (out: seq<ChatResponse>, detected: seq<ToolCall>)
    ensures out == ChatRecords(model, Consumed(lines), decode)
    ensures detected == LastNonEmpty(RecordToolCalls(out))
  {
    out := [];
    detected := [];
    var full := "";
    ghost var seen: seq<Chunk> := [];
    var i := 0;
    var stopped := false;
    assert lines[0..] == lines;
    while i < |lines| && !stopped
      invariant 0 <= i <= |lines|
      invariant full == ContentText(seen)
      invariant out == ChatRecords(model, seen, decode)
      invariant detected == LastNonEmpty(RecordToolCalls(out))
      invariant stopped ==> Consumed(lines) == seen
      invariant !stopped ==> Consumed(lines) == seen + Consumed(lines[i..])
      decreases |lines| - i
    {
      ConsumedStep(lines, i);
      match lines[i] {
        case None =>
        case Some(chunk) =>
          full, out, detected := ChatLoopChunk(model, chunk, full, out, detected, seen, decode);
          seen := seen + [chunk];
          if chunk.done {
            stopped := true;
          }
      }
      i := i + 1;
    }
    if !stopped {
      assert lines[i..] == [];
      assert seen + [] == seen;
    }
  }

  /**
   * A chunk that carries tool calls in the chat stream has its text cleared,
   * and the reported tool calls are never empty when any record carried some.
   */
  lemma ChatToolCallsClearContent(model: string, lines: seq<Option<Chunk>>, decode: string -> Option<seq<ToolCall>>, k: nat)
    requires k < |Consumed(lines)|
    requires Consumed(lines)[k].toolCalls != []
    ensures var out := ChatRecords(model, Consumed(lines), decode);
      && out[k].message.content == ""
      && out[k].message.toolCalls == Consumed(lines)[k].toolCalls
      && LastNonEmpty(RecordToolCalls(out)) != []
  {
    var out := ChatRecords(model, Consumed(lines), decode);
    ChatRecordsAt(model, Consumed(lines), decode);
    ChatRecordSpec(model, Consumed(lines)[k], ContentText(Consumed(lines)[..k + 1]), decode);
    assert RecordToolCalls(out)[k] != [];
    LastNonEmptySpec(RecordToolCalls(out));
  }
}
