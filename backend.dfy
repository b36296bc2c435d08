/**
 * The Python MLX backend (mlx_backend/server.py): the single-model slot of
 * `MLXModelManager`, the event stream of one `generate` call, and what the
 * `/completion`, `/load` and `/health` endpoints answer.
 *
 * The model library is foreign. Loading a model, tokenizing, sampling the
 * next token and decoding it are parameters that either give a value or
 * raise, a `Failure` carrying the exception text. Durations and log
 * probabilities are not modelled.
 */
module Backend {
  import opened Wrappers
  import Strs

  /** A model or tokenizer object, as the model library hands it back. */
  datatype Handle = Handle(id: nat)

  /** A decoded JSON value, as FastAPI hands a request body to the handlers. */
  datatype Json =
    | JNull
    | JBool(b: bool)
    | JInt(n: int)
    | JFloat(r: real)
    | JString(s: string)
    | JArray(items: seq<Json>)
    | JObject(fields: map<string, Json>)

  /** Python truthiness of a decoded JSON value. */
  predicate Truthy(v: Json) {
    match v
    case JNull => false
    case JBool(b) => b
    case JInt(n) => n != 0
    case JFloat(r) => r != 0.0
    case JString(s) => s != ""
    case JArray(items) => items != []
    case JObject(fields) => fields != map[]
  }

  // ---------------------------------------------------------------------------
  // The model slot

  /** The three fields `load_model` writes: the model, the tokenizer and the loaded name. */
  datatype Slot = Slot(model: Option<Handle>, tokenizer: Option<Handle>, current: Option<string>)

  /** The name is recorded only once the model and the tokenizer are in place. */
  predicate Consistent(slot: Slot) {
    slot.current.Some? ==> slot.model.Some? && slot.tokenizer.Some?
  }

  /**
   * `model_path / model_name.replace("/", "_")`. A path object drops an empty
   * or "." part, so those names leave the directory as it is; ".." is kept.
   */
  function LocalPath(modelPath: string, name: string): (r: string)
    ensures name != "" && name != "." ==> exists leaf :: r == modelPath + "/" + leaf && '/' !in leaf && |leaf| == |name|
    ensures name == "" || name == "." ==> r == modelPath
  {
    var leaf := Strs.ReplaceChar(name, '/', '_');
    if name == "" || name == "." then modelPath else modelPath + "/" + leaf
  }

  /** Where a model is loaded from: the local cache entry when it exists, otherwise the hub name itself. */
  function LoadSource(modelPath: string, name: string, pathExists: string -> bool): string {
    if pathExists(LocalPath(modelPath, name)) then LocalPath(modelPath, name) else name
  }

  /**
   * The slot after `load_model(name)` and whether it raised. `getModel` is
   * `get_model`: the model and tokenizer read from a path or hub name, or the
   * error that stopped it.
   */
  function AfterLoad(slot: Slot, modelPath: string, name: string, pathExists: string -> bool,
                     getModel: string -> Result<(Handle, Handle), string>): (r: (Slot, Result<(), string>))
    ensures slot.current == Some(name) ==> r == (slot, Success(()))
    ensures r.1.Success? ==> r.0.current == Some(name)
    ensures Consistent(slot) ==> Consistent(r.0)
    ensures r.1.Failure? ==> r.0 == slot && Strs.StartsWith(r.1.error, "Failed to load model: ")
  {
    if slot.current == Some(name) then (slot, Success(()))
    else
      match getModel(LoadSource(modelPath, name, pathExists))
      case Success((m, t)) => (Slot(Some(m), Some(t), Some(name)), Success(()))
      case Failure(e) => (slot, Failure("Failed to load model: " + e))
  }

  /** Loading succeeds exactly when the name is already loaded or the library loads it from where it is looked for. */
  lemma LoadSucceedsIff(slot: Slot, modelPath: string, name: string, pathExists: string -> bool,
                        getModel: string -> Result<(Handle, Handle), string>)
    ensures AfterLoad(slot, modelPath, name, pathExists, getModel).1.Success? <==>
      slot.current == Some(name) || getModel(LoadSource(modelPath, name, pathExists)).Success?
    ensures getModel(LoadSource(modelPath, name, pathExists)).Success? && slot.current != Some(name) ==>
      var (m, t) := getModel(LoadSource(modelPath, name, pathExists)).value;
      AfterLoad(slot, modelPath, name, pathExists, getModel).0 == Slot(Some(m), Some(t), Some(name))
  {
  }

  /** Loading the same name again changes nothing and succeeds, whatever the library would do now. */
  lemma LoadIdempotent(slot: Slot, modelPath: string, name: string, pathExists: string -> bool,
                       getModel: string -> Result<(Handle, Handle), string>,
                       pathExists': string -> bool, getModel': string -> Result<(Handle, Handle), string>)
    requires AfterLoad(slot, modelPath, name, pathExists, getModel).1.Success?
    ensures var s1 := AfterLoad(slot, modelPath, name, pathExists, getModel).0;
      AfterLoad(s1, modelPath, name, pathExists', getModel') == (s1, Success(()))
  {
  }

  /** Two hub names that differ only in "/" versus "_" share one local cache entry. */
  lemma LocalPathCollision(modelPath: string)
    ensures LocalPath(modelPath, "org/model") == LocalPath(modelPath, "org_model")
  {
    assert Strs.ReplaceChar("org/model", '/', '_') == "org_model";
    assert Strs.ReplaceChar("org_model", '/', '_') == "org_model";
  }

  // ---------------------------------------------------------------------------
  // One generation

  /** `CompletionResponse` without its durations and log probabilities. */
  datatype Response = Response(content: string, doneReason: string, done: bool, promptEvalCount: int, evalCount: int)

  /** The event for the `i`-th generated token. */
  function TokenEvent(text: string, promptCount: int, i: int): Response {
    Response(text, "", false, promptCount, i + 1)
  }

  function StopEvent(promptCount: int, evalCount: int): Response {
    Response("", "stop", true, promptCount, evalCount)
  }

  /** The single event an exception inside the generation loop turns into. */
  function ErrorEvent(e: string): Response {
    Response("Error: " + e, "error", true, 0, 0)
  }

  /** The sampling options `generate` hands to the sampler. */
  datatype Sampling = Sampling(temperature: real, topK: int, topP: real)

  /** The model library, as far as `generate` uses it. */
  datatype Engine = Engine(
    encode: (Handle, string) -> Result<seq<int>, string>,
    sample: (Handle, seq<int>, Sampling) -> Result<int, string>,
    decode: (Handle, int) -> Result<string, string>)

  /** `tokens[-1:]`: the only context the model is given at each step. */
  function LastToken(tokens: seq<int>): (r: seq<int>)
    ensures |r| == if tokens == [] then 0 else 1
    ensures r <= tokens[|tokens| - |r|..]
  {
    if tokens == [] then [] else [tokens[|tokens| - 1]]
  }

  /** The events from loop iteration `i` on, with `tokens` generated so far. */
  function Continue(eng: Engine, model: Handle, tok: Handle, tokens: seq<int>, i: int, n: int,
                    promptCount: int, s: Sampling): (r: seq<Response>)
    decreases n - i
  {
    if i >= n then [StopEvent(promptCount, |tokens| - promptCount)]
    else
      match eng.sample(model, LastToken(tokens), s)
      case Failure(e) => [ErrorEvent(e)]
      case Success(t) =>
        match eng.decode(tok, t)
        case Failure(e) => [ErrorEvent(e)]
        case Success(text) => [TokenEvent(text, promptCount, i)] + Continue(eng, model, tok, tokens + [t], i + 1, n, promptCount, s)
  }

  /**
   * The events of `generate(prompt, …, num_predict=n)`: a `Failure` when no
   * model is loaded (raised before the first event), otherwise the stream.
   */
  function Generation(eng: Engine, model: Option<Handle>, tok: Option<Handle>, prompt: string, n: int,
                      s: Sampling): Result<seq<Response>, string>
  {
    if model.None? || tok.None? then Failure("No model loaded")
    else
      match eng.encode(tok.value, prompt)
      case Failure(e) => Success([ErrorEvent(e)])
      case Success(pt) => Success(Continue(eng, model.value, tok.value, pt, 0, n, |pt|, s))
  }

  /** Exactly one event is done, and it is the last one. */
  predicate OneTerminalLast(events: seq<Response>) {
    && |events| > 0
    && events[|events| - 1].done
    && forall j :: 0 <= j < |events| - 1 ==> !events[j].done
  }

  /**
   * From iteration `i`: the token events count on from `i + 1` and carry the
   * prompt's token count, and the stream ends in one done event: "stop" with
   * the number of generated tokens once the loop ran to `n`, or "error" at the
   * first exception.
   */
  lemma ContinueShape(eng: Engine, model: Handle, tok: Handle, tokens: seq<int>, i: int, n: int,
                      promptCount: int, s: Sampling)
    requires 0 <= i && promptCount <= |tokens|
    ensures var r := Continue(eng, model, tok, tokens, i, n, promptCount, s);
      && OneTerminalLast(r)
      && |r| <= (if n > i then n - i else 0) + 1
      && (forall j :: 0 <= j < |r| - 1 ==> r[j].evalCount == i + j + 1 && r[j].promptEvalCount == promptCount && r[j].doneReason == "")
      && (r[|r| - 1].doneReason == "stop" || r[|r| - 1].doneReason == "error")
      && (r[|r| - 1].doneReason == "stop" ==>
            r[|r| - 1] == StopEvent(promptCount, |tokens| - promptCount + |r| - 1) && |r| - 1 == (if n > i then n - i else 0))
      && (r[|r| - 1].doneReason == "error" ==> r[|r| - 1].evalCount == 0 && Strs.StartsWith(r[|r| - 1].content, "Error: "))
  {
    ContinueTokens(eng, model, tok, tokens, i, n, promptCount, s);
    ContinueEnding(eng, model, tok, tokens, i, n, promptCount, s);
  }

  /** The events before the last are token events counting up from `i + 1`, and only the last is done. */
  lemma {:induction false} ContinueTokens(eng: Engine, model: Handle, tok: Handle, tokens: seq<int>, i: int, n: int,
                                          promptCount: int, s: Sampling)
    requires 0 <= i
    ensures OneTerminalLast(Continue(eng, model, tok, tokens, i, n, promptCount, s))
    ensures |Continue(eng, model, tok, tokens, i, n, promptCount, s)| <= (if n > i then n - i else 0) + 1
    ensures forall j :: 0 <= j < |Continue(eng, model, tok, tokens, i, n, promptCount, s)| - 1 ==>
      && Continue(eng, model, tok, tokens, i, n, promptCount, s)[j].evalCount == i + j + 1
      && Continue(eng, model, tok, tokens, i, n, promptCount, s)[j].promptEvalCount == promptCount
      && Continue(eng, model, tok, tokens, i, n, promptCount, s)[j].doneReason == ""
    decreases n - i
  {
    var r := Continue(eng, model, tok, tokens, i, n, promptCount, s);
    if i < n {
      var next := eng.sample(model, LastToken(tokens), s);
      if next.Success? && eng.decode(tok, next.value).Success? {
        var t := next.value;
        var rest := Continue(eng, model, tok, tokens + [t], i + 1, n, promptCount, s);
        ContinueTokens(eng, model, tok, tokens + [t], i + 1, n, promptCount, s);
        assert r == [TokenEvent(eng.decode(tok, t).value, promptCount, i)] + rest;
        assert forall j :: 1 <= j < |r| ==> r[j] == rest[j - 1];
      }
    }
  }

  /** The last event is a "stop" after the full count, or an "error" event. */
  lemma {:induction false} ContinueEnding(eng: Engine, model: Handle, tok: Handle, tokens: seq<int>, i: int, n: int,
                                          promptCount: int, s: Sampling)
    requires 0 <= i && promptCount <= |tokens|
    ensures var r := Continue(eng, model, tok, tokens, i, n, promptCount, s);
      && |r| > 0
      && (r[|r| - 1].doneReason == "stop" || r[|r| - 1].doneReason == "error")
      && (r[|r| - 1].doneReason == "stop" ==>
            r[|r| - 1] == StopEvent(promptCount, |tokens| - promptCount + |r| - 1) && |r| - 1 == (if n > i then n - i else 0))
      && (r[|r| - 1].doneReason == "error" ==> r[|r| - 1].evalCount == 0 && Strs.StartsWith(r[|r| - 1].content, "Error: "))
    decreases n - i
  {
    var r := Continue(eng, model, tok, tokens, i, n, promptCount, s);
    if i < n {
      var next := eng.sample(model, LastToken(tokens), s);
      if next.Success? && eng.decode(tok, next.value).Success? {
        var t := next.value;
        var rest := Continue(eng, model, tok, tokens + [t], i + 1, n, promptCount, s);
        ContinueEnding(eng, model, tok, tokens + [t], i + 1, n, promptCount, s);
        assert r == [TokenEvent(eng.decode(tok, t).value, promptCount, i)] + rest;
        assert r[|r| - 1] == rest[|rest| - 1];
      }
    }
  }

  /**
   * `generate` raises exactly when no model or tokenizer is loaded; otherwise
   * its stream has exactly one done event, last, and a "stop" ending reports
   * `num_predict` tokens (none for a non-positive count) after as many token events.
   */
  lemma GenerationShape(eng: Engine, model: Option<Handle>, tok: Option<Handle>, prompt: string, n: int, s: Sampling)
    ensures var g := Generation(eng, model, tok, prompt, n, s);
      && (g.Failure? <==> model.None? || tok.None?)
      && (g.Failure? ==> g.error == "No model loaded")
      && (g.Success? ==> OneTerminalLast(g.value))
      && (g.Success? && g.value[|g.value| - 1].doneReason == "stop" ==>
            |g.value| - 1 == (if n > 0 then n else 0) && g.value[|g.value| - 1].evalCount == |g.value| - 1)
      && (g.Success? && g.value[|g.value| - 1].doneReason != "stop" ==>
            g.value[|g.value| - 1].doneReason == "error")
  {
    if model.Some? && tok.Some? {
      var enc := eng.encode(tok.value, prompt);
      if enc.Success? {
        ContinueShape(eng, model.value, tok.value, enc.value, 0, n, |enc.value|, s);
      }
    }
  }

  /**
   * The model is only ever shown the last token: two runs whose token lists
   * have the same length and the same last token produce the same events.
   */
  lemma {:induction false} ContinueSeesLastTokenOnly(eng: Engine, model: Handle, tok: Handle, t1: seq<int>, t2: seq<int>,
                                                     i: int, n: int, promptCount: int, s: Sampling)
    requires |t1| == |t2| && LastToken(t1) == LastToken(t2)
    ensures Continue(eng, model, tok, t1, i, n, promptCount, s) == Continue(eng, model, tok, t2, i, n, promptCount, s)
    decreases n - i
  {
    if i < n {
      var next := eng.sample(model, LastToken(t1), s);
      if next.Success? {
        assert LastToken(t1 + [next.value]) == LastToken(t2 + [next.value]);
        ContinueSeesLastTokenOnly(eng, model, tok, t1 + [next.value], t2 + [next.value], i + 1, n, promptCount, s);
      }
    }
  }

  // ---------------------------------------------------------------------------
  // The manager object

  /** `MLXModelManager`: one slot for the loaded model, filled in place. */
  class ModelManager {
    var model: Option<Handle>
    var tokenizer: Option<Handle>
    var currentModelName: Option<string>
    const modelPath: string

    /** An empty slot; models are cached under `~/.ollama/models/mlx`. */
    constructor (home: string)
      ensures Consistent(State())
      ensures model == None && tokenizer == None && currentModelName == None
      ensures modelPath == home + "/.ollama/models/mlx"
    {
      model := None;
      tokenizer := None;
      currentModelName := None;
      modelPath := home + "/.ollama/models/mlx";
    }

    function State(): Slot
      reads this
    {
      Slot(model, tokenizer, currentModelName)
    }

    /** `load_model`: a no-op for the loaded name; a failed load leaves the slot as it was. */
    method LoadModel(name: string, pathExists: string -> bool, getModel: string -> Result<(Handle, Handle), string>)
      returns (r: Result<(), string>)
      modifies this
      ensures (State(), r) == AfterLoad(old(State()), modelPath, name, pathExists, getModel)
    {
      if currentModelName == Some(name) {
        return Success(());
      }
      var localPath := LocalPath(modelPath, name);
      var loaded;
      if pathExists(localPath) {
        loaded := getModel(localPath);
      } else {
        loaded := getModel(name);
      }
      if loaded.Failure? {
        return Failure("Failed to load model: " + loaded.error);
      }
      model, tokenizer := Some(loaded.value.0), Some(loaded.value.1);
      currentModelName := Some(name);
      return Success(());
    }

    /** `generate`: the loop that samples `n` tokens and collects the events it yields. */
    method Generate(prompt: string, n: int, s: Sampling, eng: Engine) returns (r: Result<seq<Response>, string>)
      ensures r == Generation(eng, model, tokenizer, prompt, n, s)
    {
      if model.None? || tokenizer.None? {
        return Failure("No model loaded");
      }
      var m, tok := model.value, tokenizer.value;
      var encoded := eng.encode(tok, prompt);
      if encoded.Failure? {
        return Success([ErrorEvent(encoded.error)]);
      }
      var promptTokens := encoded.value;
      ghost var whole := Continue(eng, m, tok, promptTokens, 0, n, |promptTokens|, s);
      var tokens := promptTokens;
      var events: seq<Response> := [];
      var i := 0;
      while i < n
        invariant 0 <= i
        invariant |tokens| == |promptTokens| + i
        invariant whole == events + Continue(eng, m, tok, tokens, i, n, |promptTokens|, s)
        decreases n - i
      {
        var next := eng.sample(m, LastToken(tokens), s);
        if next.Failure? {
          return Success(events + [ErrorEvent(next.error)]);
        }
        var text := eng.decode(tok, next.value);
        if text.Failure? {
          return Success(events + [ErrorEvent(text.error)]);
        }
        events := events + [TokenEvent(text.value, |promptTokens|, i)];
        tokens := tokens + [next.value];
        i := i + 1;
      }
      return Success(events + [StopEvent(|promptTokens|, |tokens| - |promptTokens|)]);
    }

    /** `/health`: a model counts as loaded exactly when a name is recorded. */
    function Health(): (h: HealthReply)
      reads this
      ensures h.modelLoaded <==> currentModelName.Some?
      ensures h.currentModel == currentModelName && h.status == "ok"
    {
      HealthReply("ok", currentModelName.Some?, currentModelName)
    }
  }

  datatype HealthReply = HealthReply(status: string, modelLoaded: bool, currentModel: Option<string>)

  // ---------------------------------------------------------------------------
  // Endpoints

  /** The fields of `CompletionRequest`. */
  const RequestFields: set<string> :=
    {"prompt", "format", "images", "options", "grammar", "shift", "truncate", "logprobs", "top_logprobs"}

  /** The fields of `Options`. */
  const OptionNames: set<string> :=
    {"temperature", "top_k", "top_p", "num_predict", "repeat_penalty", "repeat_last_n", "presence_penalty", "frequency_penalty"}

  /** The `Options` dataclass defaults. */
  const DefaultOptions: map<string, Json> := map[
    "temperature" := JFloat(0.7), "top_k" := JInt(40), "top_p" := JFloat(0.9), "num_predict" := JInt(128),
    "repeat_penalty" := JFloat(1.1), "repeat_last_n" := JInt(64),
    "presence_penalty" := JFloat(0.0), "frequency_penalty" := JFloat(0.0)]

  /** An HTTP error reply; the text of a Python exception is not modelled. */
  datatype HttpError = HttpError(status: int, detail: Option<string>)

  /** What `/completion` does with a request: an error status, or a stream for this prompt and these options. */
  datatype CompletionOutcome = CompletionRejected(err: HttpError) | Streaming(prompt: Json, options: map<string, Json>)

  /**
   * `/completion`: the dataclass constructors reject unknown or missing
   * fields (a `TypeError`, surfaced as 500); a falsy prompt is a 400; a falsy
   * `options` means no options; the options given override the defaults.
   */
  function CompletionEndpoint(request: map<string, Json>): (r: CompletionOutcome)
    ensures r.CompletionRejected? ==> r.err.status == 400 || r.err.status == 500
    ensures r.CompletionRejected? && r.err.status == 400 ==> r.err.detail == Some("Empty prompt")
    ensures r.Streaming? ==> "prompt" in request && r.prompt == request["prompt"] && Truthy(r.prompt)
    ensures r.Streaming? ==> r.options.Keys == OptionNames
  {
    if !(request.Keys <= RequestFields) || "prompt" !in request then CompletionRejected(HttpError(500, None))
    else if !Truthy(request["prompt"]) then CompletionRejected(HttpError(400, Some("Empty prompt")))
    else
      var given := if "options" in request && Truthy(request["options"]) then request["options"] else JObject(map[]);
      if !given.JObject? || !(given.fields.Keys <= OptionNames) then CompletionRejected(HttpError(500, None))
      else Streaming(request["prompt"], DefaultOptions + given.fields)
  }

  /** Which requests `/completion` rejects, and with which status. */
  lemma CompletionRejections(request: map<string, Json>)
    ensures var r := CompletionEndpoint(request);
      && (r.CompletionRejected? && r.err.status == 400 <==>
            request.Keys <= RequestFields && "prompt" in request && !Truthy(request["prompt"]))
      && (r.Streaming? <==>
            && request.Keys <= RequestFields && "prompt" in request && Truthy(request["prompt"])
            && ("options" !in request || !Truthy(request["options"])
                || (request["options"].JObject? && request["options"].fields.Keys <= OptionNames)))
  {
  }

  /** Each option the request gives is used as given; every other option keeps its default. */
  lemma CompletionOptions(request: map<string, Json>, k: string)
    requires CompletionEndpoint(request).Streaming? && k in OptionNames
    ensures var opts := CompletionEndpoint(request).options;
      (if "options" in request && Truthy(request["options"]) && k in request["options"].fields
       then opts[k] == request["options"].fields[k]
       else opts[k] == DefaultOptions[k])
  {
  }

  /** A request with only a prompt streams with the default options: temperature 0.7, top_k 40, 128 tokens and so on. */
  lemma PromptOnlyUsesDefaults(prompt: string)
    requires prompt != ""
    ensures CompletionEndpoint(map["prompt" := JString(prompt)]) == Streaming(JString(prompt), DefaultOptions)
  {
    assert map["prompt" := JString(prompt)].Keys == {"prompt"};
    assert DefaultOptions + map[] == DefaultOptions;
  }

  /** What `/load` answers. */
  datatype LoadReply = Loaded(model: string) | LoadRejected(err: HttpError)

  /**
   * `/load`: a missing or falsy model name raises the 400, which the handler's
   * own `except` turns into a 500; a name that is not a string fails inside
   * `load_model` before the slot is touched; otherwise the slot is loaded.
   */
  function AfterLoadEndpoint(slot: Slot, modelPath: string, request: map<string, Json>, pathExists: string -> bool,
                             getModel: string -> Result<(Handle, Handle), string>): (r: (Slot, LoadReply))
    ensures r.1.LoadRejected? ==> r.1.err.status == 500 && r.0 == slot
    ensures r.1.Loaded? ==> "model" in request && request["model"] == JString(r.1.model) && r.0.current == Some(r.1.model)
  {
    if "model" !in request || !Truthy(request["model"]) then (slot, LoadRejected(HttpError(500, None)))
    else if !request["model"].JString? then (slot, LoadRejected(HttpError(500, None)))
    else
      var name := request["model"].s;
      var (after, res) := AfterLoad(slot, modelPath, name, pathExists, getModel);
      if res.Success? then (after, Loaded(name)) else (after, LoadRejected(HttpError(500, Some(res.error))))
  }

  /** `/load` never answers 400: a request without a model name gets a 500 and leaves the slot alone. */
  lemma MissingModelNameIs500(slot: Slot, modelPath: string, request: map<string, Json>, pathExists: string -> bool,
                              getModel: string -> Result<(Handle, Handle), string>)
    requires "model" !in request || request["model"] == JString("") || request["model"] == JNull
    ensures AfterLoadEndpoint(slot, modelPath, request, pathExists, getModel) == (slot, LoadRejected(HttpError(500, None)))
  {
  }

  /** After a successful `/load`, `/health` reports that model as loaded. */
  lemma LoadThenHealth(slot: Slot, modelPath: string, request: map<string, Json>, pathExists: string -> bool,
                       getModel: string -> Result<(Handle, Handle), string>)
    requires AfterLoadEndpoint(slot, modelPath, request, pathExists, getModel).1.Loaded?
    ensures var (after, reply) := AfterLoadEndpoint(slot, modelPath, request, pathExists, getModel);
      after.current.Some? && after.current.value == reply.model
  {
  }

  /** The `/load` handler over the manager object. */
  method LoadEndpoint(mgr: ModelManager, request: map<string, Json>, pathExists: string -> bool,
                      getModel: string -> Result<(Handle, Handle), string>) returns (r: LoadReply)
    modifies mgr
    ensures (mgr.State(), r) == AfterLoadEndpoint(old(mgr.State()), mgr.modelPath, request, pathExists, getModel)
  {
    if "model" !in request || !Truthy(request["model"]) || !request["model"].JString? {
      return LoadRejected(HttpError(500, None));
    }
    var name := request["model"].s;
    var res := mgr.LoadModel(name, pathExists, getModel);
    if res.Failure? {
      return LoadRejected(HttpError(500, Some(res.error)));
    }
    return Loaded(name);
  }
}
