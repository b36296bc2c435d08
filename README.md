# ollmlx core rules in Dafny

ollmlx puts an Ollama-style HTTP API in front of a Python MLX inference
backend. This project models the sequential rules underneath that plumbing,
and proves properties of them:

- **Go server**:
  - the runner table (`mlxRunnerCache`) and the three stream folds over the backend's NDJSON chunks;
  - tool-call handling and prompt building;
  - the legacy request adapter and the parameter-size parser;
  - format detection, the MLX model cache and the Modelfile parser and writer.
- **Python backend**: the single-model slot, the `generate` event stream and the `/completion`, `/load` and `/health` outcomes.
- **Runner**: argument dispatch in `ollama runner`, plus backend-script discovery, port choice, the readiness poll and the `/load` status transition of the MLX runner.

There is one Dafny module per source file:

| module | file | source |
|---|---|---|
| `RunnerCache` | runner_cache.dfy | server/routes_mlx.go (runner table) |
| `CompletionStream` | completion_stream.dfy | server/routes_mlx.go (stream folds) |
| `Tools` | tools.dfy | server/routes_mlx.go (tools, prompts) |
| `ModelRefs` | model_refs.dfy | server/routes_mlx.go (`parseParameterCount`, `IsMLXModelReference`) |
| `MlxCompat` | mlx_compat.dfy | server/mlx_compat.go |
| `Modelfile` | modelfile.dfy | llm/mlx_modelfile.go |
| `ModelfileRoundTrip` | modelfile_roundtrip.dfy | llm/mlx_modelfile.go (save, then parse) |
| `Detection` | detection.dfy | llm/detection.go |
| `ModelCache` | model_cache.dfy | llm/mlx_models.go |
| `Backend` | backend.dfy | mlx_backend/server.py |
| `RunnerDispatch` | runner_dispatch.dfy | runner/runner.go |
| `MlxRunner` | mlx_runner.dfy | runner/mlxrunner/runner.go |

Four shared modules support them:

- `Wrappers`: `Option` and `Result`.
- `Strs`: Go's `strings` functions on `seq<char>`. `TrimSpace` uses Go's `unicode.IsSpace` set.
- `Fs`: a file system given as a set of directories and a set of files, plus `filepath.Join` and `IsAbs`.
- `Api`: the shared message, tool and tool-call records.

How the model stands in for the world:

- **Inputs given as parameters.**
  - JSON decoding and encoding, `fmt.Sscanf("%f")`, the HTTP calls a tool makes, the ML library's `get_model` and the sampler are function-typed parameters.
  - The clock is an integer parameter.
  - How starting a runner ends is a datatype parameter.
- **Objects whose fields the source updates in place are classes:**
  - the runner table;
  - the two request records of the legacy adapter;
  - the Python model manager;
  - the MLX runner `Server`.

  Their methods are proved against functions of the old state.
- **Loops** (the stream folds, the tool loop, the prompt builders, the Modelfile line loop and writer, the download loop, dedup and selection, the health poll) are `while` loops. Each loop's invariants tie it to a specification function.

Where the code and the written design disagree, the model follows the code:

- A failed `load_model` in the Python backend leaves the slot as it was (mlx_backend/server.py:127-142). It is not reset to "nothing loaded".
- A bare name such as "llama-7b-mlx" is detected as GGUF unless a directory of that name exists, because the reference rule requires a "/" (llm/detection.go:60). An integration test expects MLX. `Detection.BareNameNeedsDirectory` states the behaviour of the code.
- `IsMLXModelReference` does accept that bare name (server/routes_mlx.go:867), so the routes send it to MLX (`ModelRefs.BareMlxNameIsReference`).

## Model

| member | source | states |
|---|---|---|
| RunnerCache.ClampKeepalive | server/routes_mlx.go:182-184 | a negative keep-alive becomes 0; a non-negative one is kept |
| RunnerCache.RunnerTable.Touch | server/routes_mlx.go:131-137 | only the last-use time of an existing entry changes; an unknown name leaves the table alone |
| RunnerCache.RunnerTable.Evict | server/routes_mlx.go:139-149 | only the named key is removed, and its entry is handed back to be stopped |
| RunnerCache.RunnerTable.EvictExpired | server/routes_mlx.go:151-167 | the table becomes its unexpired part and the returned names are exactly the removed ones |
| RunnerCache.RunnerTable.GetRunner | server/routes_mlx.go:181-262 | the new table and the result are those of the `getRunner` request, for every start outcome and cancellation |
| RunnerCache.GetRunnerKeepsWellFormed | server/routes_mlx.go:181-221 | every entry stays filed under its own name with a non-negative keep-alive |
| RunnerCache.GetRunnerExistingEntry | server/routes_mlx.go:186-192 | an existing entry's keep-alive becomes max(old, new) and never shrinks, its last use moves to now, and no key is added |
| RunnerCache.GetRunnerFailedStart | server/routes_mlx.go:222-258 | a failed start seen by the waiting caller leaves the table as before and reports the start error |
| RunnerCache.GetRunnerStarted | server/routes_mlx.go:206-260 | a successful start adds exactly one entry, with the clamped keep-alive, and returns it |
| RunnerCache.ZeroKeepaliveNeverExpires | server/routes_mlx.go:157-160 | an entry with keep-alive 0 survives every sweep, however long idle |
| RunnerCache.TouchedSurvivesSweep | server/routes_mlx.go:131-160 | an entry touched at time t survives a sweep at t |
| RunnerCache.ProvisionedSurvivesSweep | server/routes_mlx.go:181-262 | a runner handed out at time t survives a sweep at t |
| RunnerCache.SweepIdempotent | server/routes_mlx.go:151-167 | a second sweep at the same time removes nothing |
| CompletionStream.DecodedSpec | server/routes_mlx.go:485-488 | the decoded chunks are exactly those of the lines that decode, never more than the lines |
| CompletionStream.ConsumedSpec | server/routes_mlx.go:478-514 | the chunks acted on are a prefix of the decoded ones; only the last can be done; it is done iff some decoded chunk is; with no done chunk all are acted on |
| CompletionStream.ConsumedStep | server/routes_mlx.go:478-514 | an undecodable line is skipped, a done chunk is the last acted on, any other chunk is acted on and reading goes on |
| CompletionStream.LastNonEmptySpec | server/routes_mlx.go:645-647 | the tool calls kept are empty iff every chunk had none, and otherwise are those of a chunk after which none had any |
| CompletionStream.StreamCompletion | server/routes_mlx.go:478-514 | one record per decoded chunk, in order, up to and including the first done chunk |
| CompletionStream.StreamDoneOnlyLast | server/routes_mlx.go:511-513 | no record but the last is done, and the last is done iff the backend sent a done chunk |
| CompletionStream.CollectedResponse | server/routes_mlx.go:658-676 | the collected response is always done, for the request's model, with the last chunk's reason and metrics |
| CompletionStream.CollectChunk | server/routes_mlx.go:642-651 | one chunk extends the text, becomes the last chunk and replaces the tool calls only when it has some |
| CompletionStream.CollectCompletion | server/routes_mlx.go:629-676 | the loop returns the collected response of the chunks read up to the first done one |
| CompletionStream.ContentTextIsConcat | server/routes_mlx.go:648 | the collected text is the concatenation of the chunk contents in stream order |
| CompletionStream.CollectMatchesStream | server/routes_mlx.go:635-667 | without tool calls the collected text equals the concatenated texts of the records the streaming handler writes |
| CompletionStream.CollectTextWins | server/routes_mlx.go:658-662 | collected text, when there is any, is the response whatever tool calls the chunks carried |
| CompletionStream.CollectToolCallsOnly | server/routes_mlx.go:658-662 | with no text and some tool calls the response is the encoded envelope of the latest non-empty tool calls |
| CompletionStream.ChatRecordSpec | server/routes_mlx.go:563-591 | a chat record is role "assistant" with the chunk's status; tool calls clear the text; a done chunk without them takes the calls parsed from the whole text; text and calls never both appear |
| CompletionStream.ChatRecords | server/routes_mlx.go:552-603 | one chat record per chunk |
| CompletionStream.ChatRecordsAt | server/routes_mlx.go:549-598 | record k is chunk k's record given the text streamed through chunk k |
| CompletionStream.ChatChunk | server/routes_mlx.go:563-591 | one chunk gives its chat record and the tool calls it detects, if any |
| CompletionStream.ChatLoopStep | server/routes_mlx.go:552-603 | one chunk keeps the records and the detected tool calls in step with the chunks seen |
| CompletionStream.ChatLoopChunk | server/routes_mlx.go:559-598 | one decoded chunk extends the text, appends its record and notes its tool calls |
| CompletionStream.StreamChat | server/routes_mlx.go:546-605 | the records are those of the chunks read up to the first done one, and the reported tool calls are the latest non-empty ones among the records |
| CompletionStream.ChatToolCallsClearContent | server/routes_mlx.go:573-576 | a chunk with tool calls is written with no text and its calls, and the reported tool calls are then never empty |
| Tools.ParseToolCallsFromText | server/routes_mlx.go:782-790 | tool calls are found iff the trimmed text decodes as an envelope with a non-empty list, and they are that list |
| Tools.ParseToolCallsIgnoresSpace | server/routes_mlx.go:786 | surrounding whitespace never changes what is extracted |
| Tools.FindTool | server/routes_mlx.go:688-693 | the first tool with the name, and none iff no tool has it |
| Tools.LookupTool | server/routes_mlx.go:688-693 | the lookup loop finds the first tool with the name |
| Tools.CallOutcomeErrors | server/routes_mlx.go:686-738 | a call fails as not found iff no tool has its name, as lacking a URL iff the tool found has none, and a success is the call's response block |
| Tools.Outcomes | server/routes_mlx.go:685-739 | one outcome per call, in call order |
| Tools.ExecuteToolCalls | server/routes_mlx.go:683-741 | the loop returns the calls' response blocks in call order, or the first call's error |
| Tools.CollectSucceedsIff | server/routes_mlx.go:683-741 | folding outcomes succeeds iff every outcome does |
| Tools.ToolResultsSucceedIff | server/routes_mlx.go:683-741 | running the calls succeeds iff every single call succeeds |
| Tools.CollectFirstError | server/routes_mlx.go:694-733 | a failed fold fails with the error of its first failed outcome, after successes only |
| Tools.ToolResultsFirstError | server/routes_mlx.go:685-739 | a failure is the error of the first failing call, and every call before it succeeded |
| Tools.CollectAppend | server/routes_mlx.go:684-740 | once the first outcomes succeed, their text precedes what the rest fold to |
| Tools.ToolResultsAppend | server/routes_mlx.go:684-740 | a successful first batch's text precedes the next batch's outcome |
| Tools.UnknownToolFails | server/routes_mlx.go:694-696 | one call naming no known tool makes the whole run fail |
| Tools.FollowUpPrompt | server/routes_mlx.go:943-944 | the follow-up prompt starts with the prompt, ends with the tool results, and has the separator's length in between |
| Tools.ToolBlockText | server/routes_mlx.go:743-762 | the block is "" iff there are no tools, and otherwise opens with the tool-calling header |
| Tools.ToolEntriesAppend | server/routes_mlx.go:750-760 | describing two tool lists in turn describes their concatenation |
| Tools.ToolEntriesSnoc | server/routes_mlx.go:750-760 | one more tool adds its entry at the end |
| Tools.ToolPromptBlock | server/routes_mlx.go:743-762 | the builder loop returns the tool block |
| Tools.MessageLinesAppend | server/routes_mlx.go:767-772 | a conversation's lines are its parts' lines, in order |
| Tools.MessageLinesSnoc | server/routes_mlx.go:767-772 | one more message adds its line at the end |
| Tools.ChatPromptShape | server/routes_mlx.go:764-780 | the prompt opens with the header and one line per message; without tools that is all; tools add their block and the instruction |
| Tools.FormatChatPrompt | server/routes_mlx.go:764-780 | the builder loop returns that prompt |
| Tools.ChatPromptExtends | server/routes_mlx.go:767-772 | appending a message to a tool-free conversation appends exactly its line |
| ModelRefs.NormalizePlain | server/routes_mlx.go:1092 | trimmed lower-case text is not changed by the normalisation |
| ModelRefs.ParseParameterCountAsWritten | server/routes_mlx.go:1091-1115 | as written: a non-zero count needs a trailing "b", and no count is negative |
| ModelRefs.StripThenCompare | server/routes_mlx.go:1095-1111 | on normalised text, a non-zero count needs a trailing "b" |
| ModelRefs.AsWrittenOnPlain | server/routes_mlx.go:1095-1111 | as written, text without a trailing "b" gives 0 and otherwise the text minus one "b" is compared |
| ModelRefs.AsWrittenMissesListedSizes | server/routes_mlx.go:1100-1110 | as written only "7b" of the listed sizes is recognised; "3b", "1b", "1.7b" and "135m" give 0; "3bb" gives three billion |
| ModelRefs.AsWrittenShort | server/routes_mlx.go:1100-1110 | as written "7b" gives seven billion while "3b" and "1b" give 0 |
| ModelRefs.AsWrittenSeven | server/routes_mlx.go:1100-1101 | as written "7b" gives seven billion |
| ModelRefs.AsWrittenThree | server/routes_mlx.go:1106-1107 | as written "3b" gives 0 |
| ModelRefs.AsWrittenOne | server/routes_mlx.go:1108-1109 | as written "1b" gives 0 |
| ModelRefs.AsWrittenLong | server/routes_mlx.go:1102-1107 | as written "1.7b" and "135m" give 0 and "3bb" gives three billion |
| ModelRefs.AsWrittenDecimal | server/routes_mlx.go:1104-1105 | as written "1.7b" gives 0 |
| ModelRefs.AsWrittenMillions | server/routes_mlx.go:1102-1103 | as written "135m" gives 0 |
| ModelRefs.AsWrittenDoubled | server/routes_mlx.go:1106-1107 | as written "3bb" gives three billion |
| ModelRefs.ParseParameterCount | server/routes_mlx.go:1091-1115 | corrected: the count is non-zero iff the normalised text is one of the listed sizes, and never negative |
| ModelRefs.LookUpSize | server/routes_mlx.go:1100-1110 | the look-up is non-zero iff the text is a listed size |
| ModelRefs.ParseKnownSizes | server/routes_mlx.go:1100-1110 | corrected, every listed size parses to its count, and "7b" agrees with the original |
| ModelRefs.ParseSeven | server/routes_mlx.go:1100-1101 | corrected, "7b" gives seven billion |
| ModelRefs.ParseThree | server/routes_mlx.go:1106-1107 | corrected, "3b" gives three billion |
| ModelRefs.ParseOne | server/routes_mlx.go:1108-1109 | corrected, "1b" gives one billion |
| ModelRefs.ParseOnePointSeven | server/routes_mlx.go:1104-1105 | corrected, "1.7b" gives 1.7 billion |
| ModelRefs.ParseMillions | server/routes_mlx.go:1102-1103 | corrected, "135m" gives 135 million |
| ModelRefs.ParsePlain | server/routes_mlx.go:1092 | on normalised text the corrected parser is the plain look-up |
| ModelRefs.ParseIgnoresCaseAndSpace | server/routes_mlx.go:1092 | letter case and surrounding space never change the count |
| ModelRefs.NormalizeIgnoresCase | server/routes_mlx.go:1092 | lower-casing first does not change the normalised text |
| ModelRefs.ReferenceByName | server/routes_mlx.go:863-869 | an mlx-community name or a "-mlx" name is a reference whatever the cache holds |
| ModelRefs.ReferenceByCache | server/routes_mlx.go:871-873 | any other name is a reference iff the model is cached |
| ModelRefs.BareMlxNameIsReference | server/routes_mlx.go:867-869 | "llama-7b-mlx" is a reference although it has no "/" |
| MlxCompat.NormalizeModelName | server/mlx_compat.go:121-127 | a name is rewritten iff it starts with "mlx-community_", to "mlx-community/" plus the rest; others are kept |
| MlxCompat.NormalizeIdempotent | server/mlx_compat.go:121-127 | normalising a normalised name changes nothing and warns nothing |
| MlxCompat.GenerateRequest.ApplyLegacyAdapters | server/mlx_compat.go:79-98 | the request's new model and prompt and the warnings are those the generate adapters give |
| MlxCompat.ChatRequest.ApplyLegacyAdapters | server/mlx_compat.go:100-119 | the request's new model and messages and the warnings are those the chat adapters give |
| MlxCompat.GeneratePromptSource | server/mlx_compat.go:82-90 | a prompt present is never replaced; an empty one comes from `input` first, else from the messages as a chat prompt |
| MlxCompat.ChatMessagesSource | server/mlx_compat.go:103-111 | messages present are never replaced; empty ones become one user message from `prompt`, else from `input` |
| MlxCompat.GenerateWarnings | server/mlx_compat.go:79-98 | at most two warnings, one per adapter that fired, the model-name warning last |
| MlxCompat.ChatWarnings | server/mlx_compat.go:100-119 | at most two warnings, one per adapter that fired, the model-name warning last |
| MlxCompat.ModernRequestsUntouched | server/mlx_compat.go:79-119 | a request with a prompt (or messages) and a current model name passes unchanged with no warnings |
| MlxCompat.AdaptersIdempotent | server/mlx_compat.go:79-119 | running the adapters on their own output changes nothing and warns nothing |
| MlxCompat.LegacyGenerateExample | server/mlx_compat_test.go:34-50 | the legacy generate payload becomes model "mlx-community/model" with prompt "hello from legacy" and two warnings |
| MlxCompat.LegacyChatExample | server/mlx_compat_test.go:70-89 | the legacy chat payload becomes one user message "hi there" with two warnings |
| MlxCompat.BindGenerate | server/mlx_compat.go:32-55 | a blank body is io.EOF, and only a blank body; an undecodable body is its decode error |
| MlxCompat.BindChat | server/mlx_compat.go:57-77 | a blank body is io.EOF, and only a blank body; an undecodable body is its decode error |
| MlxCompat.BlankBodyIsEof | server/mlx_compat.go:40-42 | an all-whitespace body is io.EOF whatever the decoders would say |
| Modelfile.ScanInt | llm/mlx_modelfile.go:166-170 | a scanned integer is 64-bit and needs a digit after the optional sign |
| Modelfile.ParseParameterValueAsWritten | llm/mlx_modelfile.go:154-181 | as written, a value is an integer iff it is not a boolean and has a numeric prefix |
| Modelfile.ParseParameterValueKinds | llm/mlx_modelfile.go:154-181 | corrected: a boolean exactly for "true"/"false", an integer exactly for a whole integer literal, a float exactly when the float scan reads the rest, else the quote-trimmed string |
| Modelfile.AsWrittenReadsDecimalAsInt | llm/mlx_modelfile.go:166-170 | as written "0.7" is the integer 0, whatever the float scan gives |
| Modelfile.DecimalScan | llm/mlx_modelfile.go:166 | the integer scan of "0.7" reads 0 and stops at the dot |
| Modelfile.IntendedReadsDecimalAsFloat | llm/mlx_modelfile.go:172-177 | corrected, "0.7" reaches the float scan |
| Modelfile.AsWrittenAgreesOnWholeValues | llm/mlx_modelfile.go:165-177 | the two readings differ only on values whose integer scan stops before the end |
| Modelfile.ParsedDecimalAsWritten | llm/mlx_modelfile.go:97-100 | as written, when the last PARAMETER line for a key has the value "0.7", the parsed record holds the integer 0 for that key |
| Modelfile.ParsedDecimalIntended | llm/mlx_modelfile.go:97-100 | with the intended reading the same key holds the float 0.7 |
| Modelfile.ScanFormattedInt | llm/mlx_modelfile.go:166-170 | a printed 64-bit integer is scanned whole as itself |
| Modelfile.FormatIntRoundTrip | llm/mlx_modelfile.go:166-170 | a printed 64-bit integer reads back as itself under either reading |
| Modelfile.SetText | llm/mlx_modelfile.go:129-136 | storing a block text leaves FROM, the parameters and the adapters alone |
| Modelfile.TrimmedLines | llm/mlx_modelfile.go:51-56 | the loop sees one trimmed line per newline-separated piece |
| Modelfile.OpenCommand | llm/mlx_modelfile.go:69-94 | a SYSTEM/TEMPLATE/LICENSE value is stored inline with quotes trimmed, or opens a block after a triple quote |
| Modelfile.ContinueBlock | llm/mlx_modelfile.go:123-142 | inside a block a line is appended after a newline; a closing line adds its text without the triple quote and stores the block |
| Modelfile.ReadLine | llm/mlx_modelfile.go:55-143 | one pass of the loop body is one step of the line machine |
| Modelfile.ParseMLXModelfile | llm/mlx_modelfile.go:41-151 | the line loop returns the parse of the content, reading PARAMETER values with `parseParameterValue` as written |
| Modelfile.StepFrom | llm/mlx_modelfile.go:64-67 | a line sets FROM only when it is a FROM line |
| Modelfile.StepAdapters | llm/mlx_modelfile.go:104-108 | a line extends the adapters only when it is an ADAPTER line |
| Modelfile.StepParameters | llm/mlx_modelfile.go:96-102 | a line assigns a parameter only when it is a PARAMETER line with a key and a value |
| Modelfile.StepsProjections | llm/mlx_modelfile.go:55-143 | after the loop, FROM is the last FROM value, the adapters are the ADAPTER values in order, and the parameters are the PARAMETER writes in order |
| Modelfile.FromValueNonEmpty | llm/mlx_modelfile.go:64-65 | a trimmed FROM line always has a non-empty value |
| Modelfile.TrimmedLinesTrimmed | llm/mlx_modelfile.go:56 | every line the loop looks at is trimmed |
| Modelfile.ParseFailsIffNoFrom | llm/mlx_modelfile.go:146-148 | parsing fails iff no line is a FROM line |
| Modelfile.ParseTakesLastFrom | llm/mlx_modelfile.go:64-67 | the model source is the value of the last FROM line |
| Modelfile.ParseCollectsAdapters | llm/mlx_modelfile.go:104-108 | the adapters are the ADAPTER values in file order |
| Modelfile.ParamWritesKeys | llm/mlx_modelfile.go:96-102 | a key is set iff it was set before or some PARAMETER line names it |
| Modelfile.ParamWritesLast | llm/mlx_modelfile.go:96-102 | the last PARAMETER line for a key decides its value |
| Modelfile.ParseParameterLastWrite | llm/mlx_modelfile.go:96-102 | a parsed parameter is set iff some line names it, and the last such line decides its value |
| Modelfile.SkippedLineIgnored | llm/mlx_modelfile.go:58-61 | blank and comment lines change nothing wherever they occur, inside blocks too |
| Modelfile.InlineText | llm/mlx_modelfile.go:69-81 | an inline value is stored with its quotes trimmed and leaves no block open |
| Modelfile.BlockBodyAccumulates | llm/mlx_modelfile.go:138-141 | inside a block, body lines accumulate after a newline each and nothing else changes |
| Modelfile.BlockAssembly | llm/mlx_modelfile.go:69-142 | a block's text is the rest of its opening line, each body line after a newline, then a newline and the closing line without its triple quote |
| Modelfile.CommandInsideBlock | llm/mlx_modelfile.go:63-67 | a FROM line inside a block is read as FROM; the block stays open and does not gain the line |
| Modelfile.WriteParameters | llm/mlx_modelfile.go:201-203 | the loop appends one PARAMETER line per key, in iteration order |
| Modelfile.AppendParameter | llm/mlx_modelfile.go:202 | one iteration appends the next key's PARAMETER line |
| Modelfile.WriteAdapters | llm/mlx_modelfile.go:205-210 | the loop appends one ADAPTER line per adapter, in list order |
| Modelfile.SaveMLXModelfile | llm/mlx_modelfile.go:184-219 | the builder returns the saved text for the iteration order used |
| Modelfile.SavedStartsWithFrom | llm/mlx_modelfile.go:187 | the saved text opens with "FROM <from>" and a blank line |
| Modelfile.SavedMinimal | llm/mlx_modelfile.go:184-219 | empty texts, parameters and adapters leave only the FROM line |
| Modelfile.ConvertOptionsToMLXFormat | llm/mlx_modelfile.go:281-305 | each key is present iff its option is above zero, under its MLX name, with its value, and no other key appears |
| ModelfileRoundTrip.SplitTerminated | llm/mlx_modelfile.go:51 | splitting newline-terminated lines gives the lines back plus an empty last piece |
| ModelfileRoundTrip.SavedTextWithoutBlocks | llm/mlx_modelfile.go:184-219 | without text blocks the saved text is the FROM line, the PARAMETER lines and the adapter section |
| ModelfileRoundTrip.FormattedValueShape | llm/mlx_modelfile.go:202 | a boolean or 64-bit integer prints as one non-empty line ending in a non-space |
| ModelfileRoundTrip.FormattedValueReads | llm/mlx_modelfile.go:154-181 | the parser's own reading reads the printed form of a boolean or 64-bit integer as that value |
| ModelfileRoundTrip.ParamWritesOfTexts | llm/mlx_modelfile.go:96-102 | the saved PARAMETER lines assign every key its own value |
| ModelfileRoundTrip.StepsKeepTexts | llm/mlx_modelfile.go:55-143 | saved FROM, PARAMETER, ADAPTER and empty lines open no block and leave the texts alone |
| ModelfileRoundTrip.SavedTrimmedLines | llm/mlx_modelfile.go:51-56 | the parser sees the saved lines, then one empty piece |
| ModelfileRoundTrip.FirstFromOnly | llm/mlx_modelfile.go:64-67 | a FROM line followed only by empty, PARAMETER or ADAPTER lines is the last FROM line |
| ModelfileRoundTrip.SavedFrom | llm/mlx_modelfile.go:187 | the first saved line is the only FROM line |
| ModelfileRoundTrip.AdapterSectionValues | llm/mlx_modelfile.go:205-210 | the adapter section lists the adapters in order |
| ModelfileRoundTrip.SavedAdapters | llm/mlx_modelfile.go:205-210 | the ADAPTER lines of the saved text give back the adapter list |
| ModelfileRoundTrip.SavedParameters | llm/mlx_modelfile.go:201-203 | the PARAMETER lines of the saved text give back the parameter map |
| ModelfileRoundTrip.SaveThenParse | llm/mlx_modelfile.go:184-219 | parsing a saved record without text blocks, with plain FROM and ADAPTER values and boolean or 64-bit integer parameters, gives the record back in any iteration order |
| Detection.Ext | llm/detection.go:33 | the extension is "" or a dot-led suffix of the path with no "/" and no further dot |
| Detection.ExtWithoutDot | llm/detection.go:33 | a path without a dot has no extension |
| Detection.ExtOfSuffix | llm/detection.go:33 | the extension is everything from the last dot when no "/" or "." follows it |
| Detection.DetectModelFormat | llm/detection.go:31-75 | detection only ever answers GGUF or MLX |
| Detection.FormatsComplement | llm/detection.go:77-85 | Unknown never comes back, so IsMLXModel and IsGGUFModel are complements |
| Detection.GgufExtensionFirst | llm/detection.go:33-38 | a ".gguf" extension in any case gives GGUF, whatever the file system holds |
| Detection.DetectMLXIff | llm/detection.go:31-75 | MLX iff no ".gguf" extension and either the MLX directory rule or the repository-name rule fires |
| Detection.CommunityReferenceIsMLX | llm/detection.go:60-65 | an mlx-community name without a ".gguf" extension is MLX whatever exists on disk |
| Detection.BareNameNeedsDirectory | llm/detection.go:60-74 | "llama-7b-mlx" is GGUF unless such a directory exists |
| Detection.PlainNameIsGguf | llm/detection.go:31-75 | a name with no "/" and no "." is GGUF unless it is a directory |
| Detection.UpperCaseGguf | llm/detection.go:33-38 | a ".GGUF" file name is GGUF |
| ModelCache.LocalName | llm/mlx_models.go:138 | the local name has the input's length and no "/", and a name without "/" is kept |
| ModelCache.ModelPath | llm/mlx_models.go:133-141 | for an ordinary name the path is the models directory, "/" and one element of the name's length (just that element under "."); "" and "." give the models directory and ".." its parent |
| ModelCache.DotDotIsParent | llm/mlx_models.go:140 | the name ".." resolves to the parent of the models directory, outside the cache |
| ModelCache.LocalNameSamePath | llm/mlx_models.go:138-140 | the local name the routes hand the runner pool maps to the same directory the cache checked |
| ModelCache.SlashUnderscoreCollide | llm/mlx_models.go:138 | "org/model" and "org_model" share one directory |
| ModelCache.GetModelInfo | llm/mlx_models.go:86-130 | an error iff the model path is missing; otherwise the name as given and format "MLX" |
| ModelCache.FamilyFromArchitectures | llm/mlx_models.go:102-110 | the family is the first listed architecture, "" without one |
| ModelCache.ListedModelsSound | llm/mlx_models.go:66-80 | every listed model comes from a directory entry whose info could be read, with that entry's path, and there are no more than the entries |
| ModelCache.ListedModelsComplete | llm/mlx_models.go:66-80 | every directory entry whose info can be read is listed |
| ModelCache.ListModels | llm/mlx_models.go:55-83 | a missing directory lists nothing without error, a failed read is its error, otherwise the filtered listing |
| ModelCache.FilesFrom | llm/mlx_models.go:273-304 | the per-file loop never removes the directory itself |
| ModelCache.Download | llm/mlx_models.go:226-313 | the directory is removed iff `MkdirAll` succeeded (also for a directory that already existed) and an error followed |
| ModelCache.ScanRequired | llm/mlx_models.go:288-294 | the scan finds a file iff it is one of the three required files |
| ModelCache.DownloadMLXModel | llm/mlx_models.go:219-313 | the loop's error, progress and clean-up are those of the download run |
| ModelCache.FilesFromSucceedsIff | llm/mlx_models.go:273-304 | the loop succeeds iff no file is cancelled and each file arrives or is optional and not cancelled after failing |
| ModelCache.DownloadSucceedsIff | llm/mlx_models.go:226-313 | success iff the directory is created and every file succeeds as above; success keeps the directory and an error after creating it removes it |
| ModelCache.FilesFromProgress | llm/mlx_models.go:280-308 | on success each file is announced before and after, in order, with the count of finished files, and the last report is the final one |
| ModelCache.RequiredFailureNamesRequiredFile | llm/mlx_models.go:283-298 | a required-file error names a required file that failed without a cancellation |
| Backend.LocalPath | mlx_backend/server.py:129 | the cache path is the model directory plus one element of the name's length without "/"; "" and "." give the model directory itself |
| Backend.AfterLoad | mlx_backend/server.py:112-142 | reloading the current name is a no-op; success records the name; a failure leaves the slot as it was and raises "Failed to load model: ..."; consistency is kept |
| Backend.LoadSucceedsIff | mlx_backend/server.py:122-142 | loading succeeds iff the name is current or the library loads it where it is looked for, and then the slot holds what it loaded |
| Backend.LoadIdempotent | mlx_backend/server.py:122-124 | loading the same name again succeeds and changes nothing, whatever the library would do |
| Backend.LocalPathCollision | mlx_backend/server.py:129 | "org/model" and "org_model" share one cache entry |
| Backend.LastToken | mlx_backend/server.py:180 | the model is shown at most one token, the last one |
| Backend.ContinueShape | mlx_backend/server.py:178-235 | from iteration i: the token events count on from i+1 with the prompt's token count, and exactly one done event ends the stream, "stop" after the full count or "error" |
| Backend.ContinueTokens | mlx_backend/server.py:178-215 | only the last event is done, there are at most n-i+1 events, and the token events count up from i+1 |
| Backend.ContinueEnding | mlx_backend/server.py:217-235 | the last event is "stop" with the generated-token count after the full loop, or "error" with "Error: " text and no count |
| Backend.GenerationShape | mlx_backend/server.py:144-235 | generate raises "No model loaded" iff no model or tokenizer is loaded; otherwise one done event, last, and a "stop" after num_predict token events |
| Backend.ContinueSeesLastTokenOnly | mlx_backend/server.py:180 | two runs whose token lists agree in length and last token give the same events |
| Backend.ModelManager.constructor | mlx_backend/server.py:106-110 | an empty slot, with models under ~/.ollama/models/mlx |
| Backend.ModelManager.LoadModel | mlx_backend/server.py:112-142 | the manager's new slot and the outcome are those of the load |
| Backend.ModelManager.Generate | mlx_backend/server.py:144-235 | the loop yields the generation's events, or raises before the first |
| Backend.ModelManager.Health | mlx_backend/server.py:309-316 | status "ok", and a model counts as loaded iff a name is recorded |
| Backend.CompletionEndpoint | mlx_backend/server.py:243-282 | rejections are 400 "Empty prompt" or 500; a stream carries the truthy prompt and a value for every option |
| Backend.CompletionRejections | mlx_backend/server.py:250-258 | a 400 iff the fields are known and the prompt is falsy; a stream iff the fields are known, the prompt truthy and options absent, falsy or known |
| Backend.CompletionOptions | mlx_backend/server.py:258 | each option given is used as given and every other keeps its default |
| Backend.PromptOnlyUsesDefaults | mlx_backend/server.py:60-69 | a prompt-only request streams with the default options |
| Backend.AfterLoadEndpoint | mlx_backend/server.py:285-306 | a rejection is a 500 that leaves the slot alone; success names the requested model, now current |
| Backend.MissingModelNameIs500 | mlx_backend/server.py:292-306 | a missing or empty model name is a 500, never a 400, and leaves the slot alone |
| Backend.LoadThenHealth | mlx_backend/server.py:285-316 | after a successful load, health reports that model as loaded |
| Backend.LoadEndpoint | mlx_backend/server.py:285-306 | the handler's new slot and reply are those of the load endpoint |
| RunnerDispatch.EngineFlag | runner/runner.go:16-22 | only the llama runner has no flag |
| RunnerDispatch.Execute | runner/runner.go:9-31 | dispatch fails iff the arguments are empty before or after dropping "runner", and the engine gets the arguments minus at most two leading ones |
| RunnerDispatch.DispatchOfCommandLine | runner/runner.go:9-31 | dispatching "runner", a flag and arguments hands exactly those arguments to that engine |
| RunnerDispatch.EngineChoice | runner/runner.go:16-30 | the first argument left after "runner" picks the engine, and the llama runner gets the arguments unchanged |
| RunnerDispatch.OneFlagConsumed | runner/runner.go:16-22 | a second engine flag reaches the engine as an argument |
| RunnerDispatch.OneRunnerDropped | runner/runner.go:10-12 | a second "runner" reaches the llama runner as an argument |
| MlxRunner.ParentDir | runner/mlxrunner/runner.go:56 | the parent drops the last element, and the root is its own parent |
| MlxRunner.FindProjectRoot | runner/mlxrunner/runner.go:55-66 | the walk returns the project root of the start directory |
| MlxRunner.ProjectRootNearest | runner/mlxrunner/runner.go:55-66 | the root is the nearest ancestor-or-self, short of "/", with a go.mod, and "" iff none has one |
| MlxRunner.RootNeverExamined | runner/mlxrunner/runner.go:56 | whether "/go.mod" exists makes no difference |
| MlxRunner.ScriptsUnder | runner/mlxrunner/runner.go:78-84 | an empty root adds no candidate, so there are never more scripts than roots |
| MlxRunner.UniqueFacts | runner/mlxrunner/runner.go:95-103 | dedup keeps the same elements, leaves no duplicates, and keeps the order of first occurrences |
| MlxRunner.Dedup | runner/mlxrunner/runner.go:95-103 | the loop with its seen set returns the deduplicated list |
| MlxRunner.FirstExisting | runner/mlxrunner/runner.go:105-110 | the selected path exists and none before it does; nothing is selected iff none exists |
| MlxRunner.FindFirstExisting | runner/mlxrunner/runner.go:105-110 | the selection loop returns that path |
| MlxRunner.BuildCandidates | runner/mlxrunner/runner.go:72-93 | the executable's directory and its project root, then the working directory's project root, each with mlx_backend/server.py |
| MlxRunner.FindBackendPath | runner/mlxrunner/runner.go:71-117 | the search returns the backend path, or the not-found error |
| MlxRunner.FirstExistingAt | runner/mlxrunner/runner.go:105-110 | an existing path with none existing before it is the one selected |
| MlxRunner.UniqueKeepsSelection | runner/mlxrunner/runner.go:95-110 | dropping repeats never changes which path is selected |
| MlxRunner.BackendPathSelects | runner/mlxrunner/runner.go:71-117 | the path is found iff some candidate exists, and it is the first existing candidate |
| MlxRunner.NotFoundContains | runner/mlxrunner/runner.go:116 | the not-found message names every unique candidate |
| MlxRunner.NotFoundNamesCandidates | runner/mlxrunner/runner.go:112-116 | when nothing is found, the error names every candidate |
| MlxRunner.ProjectRootOfSubdir | runner/mlxrunner/runner_test.go:18-26 | the project root of a direct sub-directory of a repository is the repository |
| MlxRunner.FoundFromSubdir | runner/mlxrunner/runner_test.go:9-37 | run from a sub-directory, with the executable outside the repository, the repository's backend script is found |
| MlxRunner.ChoosePort | runner/mlxrunner/runner.go:133-144 | the port is never 0: the one allocated, else 9090 |
| MlxRunner.WaitReady | runner/mlxrunner/runner.go:175-189 | at most 30 probes; ready at the first probe answered 200, and failed iff none of the 30 is |
| MlxRunner.StartOutcomeFacts | runner/mlxrunner/runner.go:120-190 | the backend is up iff the script is found, the process started and a probe answered, and then it runs that script on a non-zero port |
| MlxRunner.LoadOutcome | runner/mlxrunner/runner.go:193-246 | a 200 reply goes with status Ready; any other reply leaves the status as it was |
| MlxRunner.LoadReadyIff | runner/mlxrunner/runner.go:226-242 | the runner becomes ready iff a POST's forwarded load is answered 200 |
| MlxRunner.Server.StartBackend | runner/mlxrunner/runner.go:120-190 | the outcome is the start's; the port is set once the script is found and kept; the status is unchanged |
| MlxRunner.Server.Load | runner/mlxrunner/runner.go:193-246 | the new status and the reply are those of the load, and the port is unchanged |

## Left out

- Process and network plumbing is not modelled:
  - starting and killing processes, and the HTTP clients and servers;
  - the proxy handlers of the MLX runner;
  - `waitForMLXRunner`, the HTTP of `loadMLXModel`, `EmbedMLXModel`, `PullMLXModel`, `SearchMLXModels` and `downloadFile`.

  Where their result matters it is an outcome parameter (how a runner start ends, a health probe, a tool's HTTP reply, a per-file download attempt).
- Concurrency is not modelled: the table's mutex, the expiry ticker goroutine, the `ready` channel, the background start goroutine and the MLX runner's `sync.WaitGroup`. `load` there calls `ready.Done()` on every success, so a second successful load would panic. The waiting caller's context ending first is the boolean `waitCancelled` in `RunnerTable.GetRunner`.
- Context cancellation inside the three stream loops is left out. Those models read the whole stream.
- `bufio.Scanner` errors (such as over-long lines) are left out. The streams are the lines the scanner yields.
- CompletionStream.CollectCompletion: `json.Unmarshal` into the reused `last` keeps fields that a line leaves out. The model treats each decoded line as a complete chunk.
- Floating point is left out:
  - progress percentages (the model reports the count of finished files);
  - the hidden-size estimate in `GetModelInfo`;
  - sampling in `generate` (a sampler parameter picks each token);
  - the float scan of parameter values (a parameter).
- Time is left out: durations and timestamps in records and events, and `CreatedAt`. The keep-alive clock is an integer parameter.
- File I/O is left out. The Modelfile functions work on content strings, and the file system is a set of directories and files.
- Digests, directory sizes and modification times in `GetModelInfo` are left out.
- `logprobs`, the backend's `/info` endpoint and the unused `repeat_penalty` argument of `generate` are left out.
- JSON is abstracted. Decoders and encoders are parameters, and option values are a small datatype instead of Python's dynamic values.
- The body encodings of HTTP replies are left out, and so are the exact texts of Python exceptions other than those the code writes itself.
- MlxRunner.FindProjectRoot: paths are lists of clean elements, so `filepath.Clean` of unusual input (repeated slashes, "..") is not modelled.
- ModelfileRoundTrip.SaveThenParse: the round trip is proved only for records without SYSTEM, TEMPLATE or LICENSE text, with one-line values and boolean or 64-bit integer parameters. A saved block re-reads with an extra leading and trailing newline. Command lines inside a block are read as commands. Float printing is not modelled.
- MlxCompat.BindGenerate, MlxCompat.BindChat: the body is given as a string, so a failed `io.ReadAll` of the request body is not modelled.
- Tools.FormatChatPrompt: `strings.ToUpper` of a role maps letters beyond ASCII too; the model upper-cases ASCII letters only.
- The `OLLAMA_MODELS` override that a backend unit test expects is not implemented in mlx_backend/server.py, so it is not modelled.
- `CreateMLXModelFromModelfile` and `GetMLXModelConfig` are left out: they are file I/O around the parser.
- The benchmark script, the example client and the debug mains are left out.

## Findings

| source | as written | input that shows it | evidently intended | confidence | as-written member | corrected member |
|---|---|---|---|---|---|---|
| server/routes_mlx.go:1095-1110 | the trailing "b" is stripped before the comparisons, yet four of the five literals still end in "b" or "m" | "3b" gives 0 (likewise "1b", "1.7b", "135m"; "3bb" gives 3 billion) | every listed size parses to its count | not executed | ModelRefs.AsWrittenMissesListedSizes | ModelRefs.ParseKnownSizes |
| llm/mlx_modelfile.go:166-170 | the `%d` scan accepts a numeric prefix and ignores the rest, so decimal values never reach the float scan | "0.7" gives the integer 0 | a value is an integer only when it is a whole integer literal; "0.7" is read as a float | not executed | Modelfile.AsWrittenReadsDecimalAsInt | Modelfile.IntendedReadsDecimalAsFloat |
