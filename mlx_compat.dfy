/**
 * The compatibility shim for legacy MLX request shapes (server/mlx_compat.go):
 * deprecated fields are moved onto the current request in place, each
 * rewrite adding one warning. Only the request fields the shim reads or
 * writes are modelled; every other field passes through untouched. JSON
 * decoding of the body is a parameter.
 */
module MlxCompat {
  import opened Wrappers
  import opened Api
  import Strs
  import Tools

  const InputWarning: string := "the 'input' field is deprecated; use 'prompt'"
  const MessagesWarning: string := "chat-style 'messages' were converted to a prompt; send 'prompt' instead"
  const ModelNameWarning: string := "legacy MLX model names using underscores are deprecated; use slash-separated names"
  const ChatPromptWarning: string := "using 'prompt' on the chat endpoint is deprecated; send 'messages' instead"
  const ChatInputWarning: string := "the 'input' field is deprecated; send chat 'messages' instead"

  const LegacyPrefix: string := "mlx-community_"
  const RepoPrefix: string := "mlx-community/"

  /** `normalizeLegacyMLXModelName`: the slash form of an underscore name, and whether it was rewritten. */
  function NormalizeModelName(model: string): (r: (string, bool))
    ensures r.1 <==> Strs.StartsWith(model, LegacyPrefix)
    ensures r.1 ==> r.0 == RepoPrefix + model[|LegacyPrefix|..]
    ensures !r.1 ==> r.0 == model
  {
    if Strs.StartsWith(model, LegacyPrefix) then (RepoPrefix + Strs.TrimPrefix(model, LegacyPrefix), true)
    else (model, false)
  }

  /** Normalising a normalised name changes nothing and warns nothing. */
  lemma NormalizeIdempotent(model: string)
    ensures NormalizeModelName(NormalizeModelName(model).0) == (NormalizeModelName(model).0, false)
  {
    var n := NormalizeModelName(model).0;
    if Strs.StartsWith(model, LegacyPrefix) {
      assert n[13] == '/' && LegacyPrefix[13] == '_';
    }
  }

  /** The legacy generate fields: `input` and chat-style `messages`. */
  datatype LegacyGenerate = LegacyGenerate(input: string, messages: seq<Message>)

  /** The legacy chat fields: `prompt` and `input`. */
  datatype LegacyChat = LegacyChat(prompt: string, input: string)

  /** A generate request's model and prompt after the shim, with the warnings it raised. */
  datatype GenerateAdapted = GenerateAdapted(model: string, prompt: string, warnings: seq<string>)

  /** A chat request's model and messages after the shim, with the warnings it raised. */
  datatype ChatAdapted = ChatAdapted(model: string, messages: seq<Message>, warnings: seq<string>)

  /** What `applyLegacyMLXGenerateAdapters` does to a generate request. */
  function AdaptGenerate(model: string, prompt: string, legacy: LegacyGenerate): GenerateAdapted {
    var fromInput := prompt == "" && legacy.input != "";
    var p1 := if fromInput then legacy.input else prompt;
    var fromMessages := p1 == "" && |legacy.messages| > 0;
    var p2 := if fromMessages then Tools.ChatPromptText(legacy.messages, []) else p1;
    var (m, renamed) := NormalizeModelName(model);
    GenerateAdapted(m, p2,
      (if fromInput then [InputWarning] else [])
      + (if fromMessages then [MessagesWarning] else [])
      + (if renamed then [ModelNameWarning] else []))
  }

  /** What `applyLegacyMLXChatAdapters` does to a chat request. */
  function AdaptChat(model: string, messages: seq<Message>, legacy: LegacyChat): ChatAdapted {
    var fromPrompt := |messages| == 0 && legacy.prompt != "";
    var m1 := if fromPrompt then [Message("user", legacy.prompt, [])] else messages;
    var fromInput := |m1| == 0 && legacy.input != "";
    var m2 := if fromInput then [Message("user", legacy.input, [])] else m1;
    var (name, renamed) := NormalizeModelName(model);
    ChatAdapted(name, m2,
      (if fromPrompt then [ChatPromptWarning] else [])
      + (if fromInput then [ChatInputWarning] else [])
      + (if renamed then [ModelNameWarning] else []))
  }

  class GenerateRequest {
    var model: string
    var prompt: string

    constructor (model: string, prompt: string)
      ensures this.model == model && this.prompt == prompt
    {
      this.model := model;
      this.prompt := prompt;
    }

    /** `applyLegacyMLXGenerateAdapters`: rewrites this request in place and returns the warnings. */
    method ApplyLegacyAdapters(legacy: LegacyGenerate) returns (warnings: seq<string>)
      modifies this
      ensures AdaptGenerate(old(model), old(prompt), legacy) == GenerateAdapted(model, prompt, warnings)
    {
      warnings := [];
      if prompt == "" && legacy.input != "" {
        prompt := legacy.input;
        warnings := warnings + [InputWarning];
      }
      if prompt == "" && |legacy.messages| > 0 {
        prompt := Tools.ChatPromptText(legacy.messages, []);
        warnings := warnings + [MessagesWarning];
      }
      var (normalized, warn) := NormalizeModelName(model);
      if warn {
        warnings := warnings + [ModelNameWarning];
        model := normalized;
      }
    }
  }

  class ChatRequest {
    var model: string
    var messages: seq<Message>

    constructor (model: string, messages: seq<Message>)
      ensures this.model == model && this.messages == messages
    {
      this.model := model;
      this.messages := messages;
    }

    /** `applyLegacyMLXChatAdapters`: rewrites this request in place and returns the warnings. */
    method ApplyLegacyAdapters(legacy: LegacyChat) returns (warnings: seq<string>)
      modifies this
      ensures AdaptChat(old(model), old(messages), legacy) == ChatAdapted(model, messages, warnings)
    {
      warnings := [];
      if |messages| == 0 && legacy.prompt != "" {
        messages := [Message("user", legacy.prompt, [])];
        warnings := warnings + [ChatPromptWarning];
      }
      if |messages| == 0 && legacy.input != "" {
        messages := [Message("user", legacy.input, [])];
        warnings := warnings + [ChatInputWarning];
      }
      var (normalized, warn) := NormalizeModelName(model);
      if warn {
        warnings := warnings + [ModelNameWarning];
        model := normalized;
      }
    }
  }

  /**
   * A prompt that is already there is never replaced; an empty one is taken
   * from `input` first and from the messages only when there is no input.
   */
  lemma GeneratePromptSource(model: string, prompt: string, legacy: LegacyGenerate)
    ensures var r := AdaptGenerate(model, prompt, legacy);
      && (prompt != "" ==> r.prompt == prompt)
      && (prompt == "" && legacy.input != "" ==> r.prompt == legacy.input)
      && (prompt == "" && legacy.input == "" && |legacy.messages| > 0 ==>
            r.prompt == Tools.ChatPromptText(legacy.messages, []))
      && (prompt == "" && legacy.input == "" && |legacy.messages| == 0 ==> r.prompt == "")
  {
  }

  /** Existing messages are never replaced; empty ones become one user message from `prompt`, else from `input`. */
  lemma ChatMessagesSource(model: string, messages: seq<Message>, legacy: LegacyChat)
    ensures var r := AdaptChat(model, messages, legacy);
      && (|messages| > 0 ==> r.messages == messages)
      && (|messages| == 0 && legacy.prompt != "" ==> r.messages == [Message("user", legacy.prompt, [])])
      && (|messages| == 0 && legacy.prompt == "" && legacy.input != "" ==> r.messages == [Message("user", legacy.input, [])])
      && (|messages| == 0 && legacy.prompt == "" && legacy.input == "" ==> r.messages == [])
  {
  }

  /**
   * At most one of the two prompt adapters fires; the warnings are one per
   * adapter that fired, in adapter order, the model-name warning last.
   */
  lemma GenerateWarnings(model: string, prompt: string, legacy: LegacyGenerate)
    ensures var r := AdaptGenerate(model, prompt, legacy);
      && |r.warnings| <= 2
      && (InputWarning in r.warnings <==> prompt == "" && legacy.input != "")
      && (MessagesWarning in r.warnings <==> prompt == "" && legacy.input == "" && |legacy.messages| > 0)
      && (ModelNameWarning in r.warnings <==> Strs.StartsWith(model, LegacyPrefix))
      && (ModelNameWarning in r.warnings ==> r.warnings[|r.warnings| - 1] == ModelNameWarning)
  {
  }

  lemma ChatWarnings(model: string, messages: seq<Message>, legacy: LegacyChat)
    ensures var r := AdaptChat(model, messages, legacy);
      && |r.warnings| <= 2
      && (ChatPromptWarning in r.warnings <==> |messages| == 0 && legacy.prompt != "")
      && (ChatInputWarning in r.warnings <==> |messages| == 0 && legacy.prompt == "" && legacy.input != "")
      && (ModelNameWarning in r.warnings <==> Strs.StartsWith(model, LegacyPrefix))
      && (ModelNameWarning in r.warnings ==> r.warnings[|r.warnings| - 1] == ModelNameWarning)
  {
  }

  /** A current-shape request passes through unchanged and without warnings. */
  lemma ModernRequestsUntouched(model: string, prompt: string, messages: seq<Message>,
                                lg: LegacyGenerate, lc: LegacyChat)
    requires !Strs.StartsWith(model, LegacyPrefix)
    ensures prompt != "" ==> AdaptGenerate(model, prompt, lg) == GenerateAdapted(model, prompt, [])
    ensures |messages| > 0 ==> AdaptChat(model, messages, lc) == ChatAdapted(model, messages, [])
  {
  }

  /** Running the shim again on its own output changes nothing and warns nothing. */
  lemma AdaptersIdempotent(model: string, prompt: string, messages: seq<Message>,
                           lg: LegacyGenerate, lc: LegacyChat)
    ensures var r := AdaptGenerate(model, prompt, lg);
      AdaptGenerate(r.model, r.prompt, lg) == GenerateAdapted(r.model, r.prompt, [])
    ensures var r := AdaptChat(model, messages, lc);
      AdaptChat(r.model, r.messages, lc) == ChatAdapted(r.model, r.messages, [])
  {
    NormalizeIdempotent(model);
    var r := AdaptGenerate(model, prompt, lg);
    if prompt == "" && lg.input == "" && |lg.messages| > 0 {
      Tools.ChatPromptShape(lg.messages, []);
    }
  }

  /** The legacy generate payload of the adapter test. */
  lemma LegacyGenerateExample()
    ensures AdaptGenerate("mlx-community_model", "", LegacyGenerate("hello from legacy", []))
      == GenerateAdapted("mlx-community/model", "hello from legacy", [InputWarning, ModelNameWarning])
  {
    assert Strs.StartsWith("mlx-community_model", LegacyPrefix);
    assert "mlx-community_model"[14..] == "model";
  }

  /** The legacy chat payload of the adapter test. */
  lemma LegacyChatExample()
    ensures AdaptChat("mlx-community_model", [], LegacyChat("hi there", ""))
      == ChatAdapted("mlx-community/model", [Message("user", "hi there", [])], [ChatPromptWarning, ModelNameWarning])
  {
    assert Strs.StartsWith("mlx-community_model", LegacyPrefix);
    assert "mlx-community_model"[14..] == "model";
  }

  // ------------------------------------------------------------------ binding

  datatype BindError = Eof | DecodeFailed(msg: string)

  /** The current-shape fields of a generate body, as the JSON decoder gives them. */
  datatype GenerateFields = GenerateFields(model: string, prompt: string)

  datatype ChatFields = ChatFields(model: string, messages: seq<Message>)

  /**
   * `bindGenerateWithMLXCompat`: a blank body is `io.EOF` before anything is
   * decoded; a body that does not decode as a request is that error; the
   * legacy fields are read leniently (`decodeLegacy` yields empty fields
   * for what it cannot read).
   */
  function BindGenerate(body: string, decode: string -> Result<GenerateFields, string>,
                        decodeLegacy: string -> LegacyGenerate): (r: Result<GenerateAdapted, BindError>)
    ensures Strs.TrimSpace(body) == [] <==> r == Failure(Eof)
    ensures Strs.TrimSpace(body) != [] && decode(body).Failure? ==> r == Failure(DecodeFailed(decode(body).error))
  {
    if Strs.TrimSpace(body) == [] then Failure(Eof)
    else match decode(body)
      case Failure(e) => Failure(DecodeFailed(e))
      case Success(f) => Success(AdaptGenerate(f.model, f.prompt, decodeLegacy(body)))
  }

  /** `bindChatWithMLXCompat`. */
  function BindChat(body: string, decode: string -> Result<ChatFields, string>,
                    decodeLegacy: string -> LegacyChat): (r: Result<ChatAdapted, BindError>)
    ensures Strs.TrimSpace(body) == [] <==> r == Failure(Eof)
    ensures Strs.TrimSpace(body) != [] && decode(body).Failure? ==> r == Failure(DecodeFailed(decode(body).error))
  {
    if Strs.TrimSpace(body) == [] then Failure(Eof)
    else match decode(body)
      case Failure(e) => Failure(DecodeFailed(e))
      case Success(f) => Success(AdaptChat(f.model, f.messages, decodeLegacy(body)))
  }

  /** A body of spaces only is `io.EOF` whatever the decoders would have said. */
  lemma BlankBodyIsEof(body: string, dg: string -> Result<GenerateFields, string>, lg: string -> LegacyGenerate,
                       dc: string -> Result<ChatFields, string>, lc: string -> LegacyChat)
    requires forall i :: 0 <= i < |body| ==> Strs.IsSpace(body[i])
    ensures BindGenerate(body, dg, lg) == Failure(Eof)
    ensures BindChat(body, dc, lc) == Failure(Eof)
  {
  }
}
