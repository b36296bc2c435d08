/**
 * `runner.Execute` (runner/runner.go): the `ollama runner` subcommand picks
 * one of three inference engines from its first argument and hands it the
 * remaining arguments.
 */
module RunnerDispatch {
  import opened Wrappers

  datatype Engine = Llama | Ollama | Mlx

  /** The engine chosen and the arguments it is started with. */
  datatype Dispatch = Dispatch(engine: Engine, args: seq<string>)

  /** The flag that selects an engine other than the default llama runner. */
  function EngineFlag(e: Engine): (f: Option<string>)
    ensures e == Llama <==> f.None?
  {
    match e
    case Llama => None
    case Ollama => Some("--ollama-engine")
    case Mlx => Some("--mlx-engine")
  }

  /** Go panics when it indexes an empty argument list. */
  const IndexPanic := "index out of range"

  /**
   * `Execute`: drop one leading "runner", then consume at most one engine
   * flag. An empty list, before or after dropping "runner", makes the
   * `args[0]` look-up fail.
   */
  function Execute(args: seq<string>): (r: Result<Dispatch, string>)
    ensures r.Failure? <==> args == [] || args == ["runner"]
    ensures r.Success? ==> exists k :: 0 <= k <= 2 && k <= |args| && r.value.args == args[k..]
  {
    if args == [] then Failure(IndexPanic)
    else
      var rest := if args[0] == "runner" then args[1..] else args;
      if rest == [] then Failure(IndexPanic)
      else if rest[0] == "--ollama-engine" then Success(Dispatch(Ollama, rest[1..]))
      else if rest[0] == "--mlx-engine" then Success(Dispatch(Mlx, rest[1..]))
      else
        assert rest == args[if args[0] == "runner" then 1 else 0..];
        Success(Dispatch(Llama, rest))
  }

  /** The command line that starts `engine` with `args`: `runner`, the engine's flag if any, then the arguments. */
  function CommandLine(engine: Engine, args: seq<string>): seq<string> {
    ["runner"] + (if EngineFlag(engine).Some? then [EngineFlag(engine).value] else []) + args
  }

  /** An argument the dispatcher would take for itself when it came first. */
  predicate Reserved(a: string) {
    a == "--ollama-engine" || a == "--mlx-engine"
  }

  /**
   * Dispatch undoes `CommandLine`: any arguments reach a flagged engine
   * unchanged, and non-empty arguments reach the llama runner unchanged when
   * they do not start with an engine flag.
   */
  lemma DispatchOfCommandLine(engine: Engine, args: seq<string>)
    requires engine == Llama ==> args != [] && !Reserved(args[0])
    ensures Execute(CommandLine(engine, args)) == Success(Dispatch(engine, args))
  {
    var line := CommandLine(engine, args);
    assert line[0] == "runner";
    assert line[1..] == (if EngineFlag(engine).Some? then [EngineFlag(engine).value] else []) + args;
    if engine != Llama {
      assert line[1..][1..] == args;
    }
  }

  /** Which engine the arguments select, stated by the first argument left after "runner". */
  lemma EngineChoice(args: seq<string>)
    requires Execute(args).Success?
    ensures var rest := if args[0] == "runner" then args[1..] else args;
      && (Execute(args).value.engine == Mlx <==> rest[0] == "--mlx-engine")
      && (Execute(args).value.engine == Ollama <==> rest[0] == "--ollama-engine")
      && (Execute(args).value.engine == Llama <==> !Reserved(rest[0]))
      && (Execute(args).value.engine == Llama ==> Execute(args).value.args == rest)
  {
  }

  /** Only one engine flag is consumed: a second one reaches the engine as an argument. */
  lemma OneFlagConsumed(first: string, second: string, rest: seq<string>)
    requires Reserved(first) && Reserved(second)
    ensures Execute([first, second] + rest).value.args == [second] + rest
  {
    assert ([first, second] + rest)[1..] == [second] + rest;
  }

  /** Only one "runner" is dropped: a second one is an argument for the llama runner. */
  lemma OneRunnerDropped(rest: seq<string>)
    ensures Execute(["runner", "runner"] + rest) == Success(Dispatch(Llama, ["runner"] + rest))
  {
    assert (["runner", "runner"] + rest)[1..] == ["runner"] + rest;
  }
}
