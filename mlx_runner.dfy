/**
 * The MLX runner process (runner/mlxrunner/runner.go): locating the Python
 * backend script, starting it on a port and waiting until it answers, and
 * the `/load` handler that marks the runner ready.
 *
 * Absolute clean paths are taken as the list of their elements, `[]` being
 * "/", so `filepath.Dir` is dropping the last element. The filesystem is a
 * snapshot; the port allocation, the process start and the HTTP answers of
 * the backend are parameters.
 */
module MlxRunner {
  import opened Wrappers
  import Strs
  import Fs

  /** A path element: non-empty, without "/", and neither "." nor "..". */
  predicate IsElement(e: string) {
    e != "" && '/' !in e && e != "." && e != ".."
  }

  /** The element list of an absolute path that `filepath.Clean` would leave as it is. */
  predicate IsCleanAbs(p: seq<string>) {
    forall i :: 0 <= i < |p| ==> IsElement(p[i])
  }

  /** The text of an absolute path. */
  function Render(p: seq<string>): (r: string)
    ensures |r| > 0 && r[0] == '/'
  {
    "/" + Strs.Join(p, "/")
  }

  /** `filepath.Dir`; the root is its own parent. */
  function ParentDir(p: seq<string>): (r: seq<string>)
    ensures p != [] ==> p == r + [p[|p| - 1]]
    ensures p == [] ==> r == []
  {
    if p == [] then [] else p[..|p| - 1]
  }

  /** `filepath.Join(dir, name)` with `name` a single element. */
  lemma RenderChild(dir: seq<string>, name: string)
    ensures Render(dir + [name]) == if dir == [] then "/" + name else Render(dir) + "/" + name
  {
    if dir != [] {
      Strs.JoinSnoc(dir, name, "/");
    } else {
      assert [] + [name] == [name];
    }
  }

  function GoMod(dir: seq<string>): string {
    Render(dir + ["go.mod"])
  }

  // ---------------------------------------------------------------------------
  // findProjectRoot

  /** The nearest of `dir` and its ancestors, short of the root, holding a go.mod; "" when none does. */
  function ProjectRoot(fs: Fs.FileSystem, dir: seq<string>): string
    decreases |dir|
  {
    if dir == [] then ""
    else if Fs.Exists(fs, GoMod(dir)) then Render(dir)
    else ProjectRoot(fs, ParentDir(dir))
  }

  /**
   * `findProjectRoot`: walk upward until a go.mod turns up, stopping before
   * "/". The `parent == dir` exit of the Go loop only fires at "." or "/",
   * which an absolute path reaches no sooner than the loop condition does.
   */
  method FindProjectRoot(fs: Fs.FileSystem, start: seq<string>) returns (root: string)
    ensures root == ProjectRoot(fs, start)
  {
    var dir := start;
    while dir != []
      invariant ProjectRoot(fs, dir) == ProjectRoot(fs, start)
      decreases |dir|
    {
      if Fs.Exists(fs, GoMod(dir)) {
        return Render(dir);
      }
      dir := ParentDir(dir);
    }
    return "";
  }

  /**
   * The root found is the nearest ancestor-or-self, other than "/", with a
   * go.mod, and none is found exactly when no such directory has one.
   */
  lemma {:induction false} ProjectRootNearest(fs: Fs.FileSystem, start: seq<string>)
    ensures var r := ProjectRoot(fs, start);
      && (r == "" <==> forall k :: 1 <= k <= |start| ==> !Fs.Exists(fs, GoMod(start[..k])))
      && (r != "" ==> exists k :: 1 <= k <= |start| && r == Render(start[..k]) && Fs.Exists(fs, GoMod(start[..k]))
                         && forall j :: k < j <= |start| ==> !Fs.Exists(fs, GoMod(start[..j])))
    decreases |start|
  {
    if start != [] {
      var up := ParentDir(start);
      assert start[..|start|] == start;
      if !Fs.Exists(fs, GoMod(start)) {
        ProjectRootNearest(fs, up);
        assert forall k :: 1 <= k <= |up| ==> up[..k] == start[..k];
        var r := ProjectRoot(fs, start);
        if r != "" {
          var k :| 1 <= k <= |up| && r == Render(up[..k]) && Fs.Exists(fs, GoMod(up[..k]))
                   && forall j :: k < j <= |up| ==> !Fs.Exists(fs, GoMod(up[..j]));
          assert forall j :: k < j <= |start| ==> !Fs.Exists(fs, GoMod(start[..j]));
        }
      }
    }
  }

  /** A path below the root never names "/go.mod". */
  lemma GoModBelowRoot(dir: seq<string>)
    requires dir != [] && IsElement(dir[0])
    ensures GoMod(dir) != "/go.mod"
  {
    RenderChild(dir, "go.mod");
    assert |Strs.Join(dir, "/")| >= |dir[0]|;
  }

  /** Whether "/go.mod" exists makes no difference: the root itself is never examined. */
  lemma {:induction false} RootNeverExamined(fs: Fs.FileSystem, start: seq<string>)
    requires IsCleanAbs(start)
    ensures ProjectRoot(fs, start) == ProjectRoot(Fs.FileSystem(fs.dirs, fs.files + {"/go.mod"}), start)
    decreases |start|
  {
    if start != [] {
      GoModBelowRoot(start);
      RootNeverExamined(fs, ParentDir(start));
    }
  }

  // ---------------------------------------------------------------------------
  // findMLXBackendPath

  /** What the process knows about where it runs: `os.Executable` and `os.Getwd`, or the failure of each. */
  datatype Env = Env(fs: Fs.FileSystem, executable: Option<seq<string>>, workingDir: Option<seq<string>>)

  /** `filepath.Join(root, "mlx_backend", "server.py")`. */
  function Script(root: string): string {
    if root == "/" then "/mlx_backend/server.py" else root + "/mlx_backend/server.py"
  }

  /** The scripts under the non-empty roots, in order. */
  function ScriptsUnder(roots: seq<string>): (r: seq<string>)
    ensures |r| <= |roots|
  {
    if roots == [] then []
    else ScriptsUnder(roots[..|roots| - 1]) + (if roots[|roots| - 1] == "" then [] else [Script(roots[|roots| - 1])])
  }

  /** The candidates: the executable's directory and its project root, then the working directory's project root. */
  function Candidates(env: Env): seq<string> {
    (match env.executable
     case None => []
     case Some(exe) => ScriptsUnder([Render(ParentDir(exe)), ProjectRoot(env.fs, ParentDir(exe))]))
    + (match env.workingDir
       case None => []
       case Some(wd) => ScriptsUnder([ProjectRoot(env.fs, wd)]))
  }

  /** The first index at which `x` occurs. */
  function FirstIndex<T(==)>(xs: seq<T>, x: T): (r: nat)
    requires x in xs
    ensures r < |xs| && xs[r] == x
    ensures forall j :: 0 <= j < r ==> xs[j] != x
  {
    var init := xs[..|xs| - 1];
    if x in init then FirstIndex(init, x) else |xs| - 1
  }

  /** The list with every repeat of an earlier element dropped. */
  function Unique<T(==)>(xs: seq<T>): seq<T> {
    if xs == [] then []
    else
      var u := Unique(xs[..|xs| - 1]);
      if xs[|xs| - 1] in u then u else u + [xs[|xs| - 1]]
  }

  /**
   * `Unique` keeps the same elements, has no duplicates, and keeps each
   * element where it first occurred: its elements come in the order of
   * their first occurrences.
   */
  lemma UniqueFacts<T>(xs: seq<T>)
    ensures var u := Unique(xs);
      && (forall x :: x in u <==> x in xs)
      && (forall i, j :: 0 <= i < j < |u| ==> u[i] != u[j])
      && (forall i, j :: 0 <= i < j < |u| ==> FirstIndex(xs, u[i]) < FirstIndex(xs, u[j]))
  {
    UniqueDistinct(xs);
    UniqueOrdered(xs);
  }

  lemma {:induction false} UniqueElements<T>(xs: seq<T>)
    ensures forall x :: x in Unique(xs) <==> x in xs
    decreases |xs|
  {
    if xs != [] {
      UniqueElements(xs[..|xs| - 1]);
      assert xs == xs[..|xs| - 1] + [xs[|xs| - 1]];
    }
  }

  lemma {:induction false} UniqueDistinct<T>(xs: seq<T>)
    ensures forall i, j :: 0 <= i < j < |Unique(xs)| ==> Unique(xs)[i] != Unique(xs)[j]
    decreases |xs|
  {
    if xs != [] {
      var ui := Unique(xs[..|xs| - 1]);
      var last := xs[|xs| - 1];
      UniqueDistinct(xs[..|xs| - 1]);
      var u := Unique(xs);
      forall i, j | 0 <= i < j < |u|
        ensures u[i] != u[j]
      {
        if j < |ui| {
          assert u[i] == ui[i] && u[j] == ui[j];
        } else {
          assert u[i] == ui[i] && ui[i] in ui;
        }
      }
    }
  }

  lemma {:induction false} UniqueOrdered<T>(xs: seq<T>)
    ensures var u := Unique(xs);
      && (forall x :: x in u <==> x in xs)
      && forall i, j :: 0 <= i < j < |u| ==> FirstIndex(xs, u[i]) < FirstIndex(xs, u[j])
    decreases |xs|
  {
    UniqueElements(xs);
    if xs != [] {
      var init := xs[..|xs| - 1];
      var last := xs[|xs| - 1];
      UniqueOrdered(init);
      var ui := Unique(init);
      var u := Unique(xs);
      forall i, j | 0 <= i < j < |u|
        ensures FirstIndex(xs, u[i]) < FirstIndex(xs, u[j])
      {
        assert u[i] == ui[i] && ui[i] in ui;
        if j < |ui| {
          assert u[j] == ui[j] && ui[j] in ui;
        } else {
          assert u[j] == last && last !in init;
        }
      }
    }
  }

  /** The dedup loop of `findMLXBackendPath`, with its `seen` set. */
  method Dedup(candidates: seq<string>) returns (unique: seq<string>)
    ensures unique == Unique(candidates)
  {
    var seen: set<string> := {};
    unique := [];
    for i := 0 to |candidates|
      invariant unique == Unique(candidates[..i])
      invariant forall x :: x in seen <==> x in unique
    {
      assert candidates[..i + 1][..i] == candidates[..i];
      if candidates[i] !in seen {
        seen := seen + {candidates[i]};
        unique := unique + [candidates[i]];
      }
    }
    assert candidates[..|candidates|] == candidates;
  }

  /** The first path of `paths` that exists. */
  function FirstExisting(fs: Fs.FileSystem, paths: seq<string>): (r: Option<string>)
    ensures r.Some? ==> exists k :: 0 <= k < |paths| && paths[k] == r.value && Fs.Exists(fs, r.value)
                          && forall j :: 0 <= j < k ==> !Fs.Exists(fs, paths[j])
    ensures r.None? <==> forall j :: 0 <= j < |paths| ==> !Fs.Exists(fs, paths[j])
  {
    if paths == [] then None
    else if Fs.Exists(fs, paths[0]) then Some(paths[0])
    else
      var r := FirstExisting(fs, paths[1..]);
      assert forall j :: 1 <= j < |paths| ==> paths[j] == paths[1..][j - 1];
      r
  }

  /** The selection loop: the first candidate `os.Stat` finds. */
  method FindFirstExisting(fs: Fs.FileSystem, paths: seq<string>) returns (r: Option<string>)
    ensures r == FirstExisting(fs, paths)
  {
    var i := 0;
    while i < |paths|
      invariant i <= |paths|
      invariant FirstExisting(fs, paths) == FirstExisting(fs, paths[i..])
    {
      assert paths[i..][1..] == paths[i + 1..];
      if Fs.Exists(fs, paths[i]) {
        return Some(paths[i]);
      }
      i := i + 1;
    }
    return None;
  }

  function NotFound(unique: seq<string>, env: Env): string {
    var exe := match env.executable case None => "<unknown>" case Some(p) => Render(p);
    var wd := match env.workingDir case None => "" case Some(p) => Render(p);
    "MLX backend server not found; candidates: " + Strs.Join(unique, ", ")
    + "; executable: " + exe + "; working directory: " + wd
  }

  /** `findMLXBackendPath` as a value. */
  function BackendPath(env: Env): Result<string, string> {
    var unique := Unique(Candidates(env));
    match FirstExisting(env.fs, unique)
    case Some(p) => Success(p)
    case None => Failure(NotFound(unique, env))
  }

  /** The candidate-building half of `findMLXBackendPath`. */
  method BuildCandidates(env: Env) returns (candidates: seq<string>)
    ensures candidates == Candidates(env)
  {
    candidates := [];
    if env.executable.Some? {
      var exeDir := ParentDir(env.executable.value);
      var exeRoot := FindProjectRoot(env.fs, exeDir);
      var roots := [Render(exeDir), exeRoot];
      for j := 0 to 2
        invariant candidates == ScriptsUnder(roots[..j])
      {
        assert roots[..j + 1][..j] == roots[..j];
        if roots[j] != "" {
          candidates := candidates + [Script(roots[j])];
        }
      }
      assert roots[..2] == roots;
    }
    ghost var fromExe := candidates;
    if env.workingDir.Some? {
      var projectRoot := FindProjectRoot(env.fs, env.workingDir.value);
      assert [projectRoot][..0] == [];
      if projectRoot != "" {
        candidates := candidates + [Script(projectRoot)];
      }
      assert candidates == fromExe + ScriptsUnder([projectRoot]);
    }
  }

  /** `findMLXBackendPath`: build the candidates, drop repeats, take the first that exists. */
  method FindBackendPath(env: Env) returns (r: Result<string, string>)
    ensures r == BackendPath(env)
  {
    var candidates := BuildCandidates(env);
    var unique := Dedup(candidates);
    var found := FindFirstExisting(env.fs, unique);
    if found.Some? {
      return Success(found.value);
    }
    return Failure(NotFound(unique, env));
  }

  /** An existing path with none existing before it is the one selected. */
  lemma {:induction false} FirstExistingAt(fs: Fs.FileSystem, paths: seq<string>, k: nat)
    requires k < |paths| && Fs.Exists(fs, paths[k])
    requires forall j :: 0 <= j < k ==> !Fs.Exists(fs, paths[j])
    ensures FirstExisting(fs, paths) == Some(paths[k])
    decreases k
  {
    if k > 0 {
      assert forall j :: 0 <= j < k - 1 ==> paths[1..][j] == paths[j + 1];
      FirstExistingAt(fs, paths[1..], k - 1);
    }
  }

  /** Dropping repeats never changes which path is selected. */
  lemma UniqueKeepsSelection(fs: Fs.FileSystem, xs: seq<string>)
    ensures FirstExisting(fs, Unique(xs)) == FirstExisting(fs, xs)
  {
    var u := Unique(xs);
    UniqueFacts(xs);
    var found := FirstExisting(fs, u);
    if found.Some? {
      var k :| 0 <= k < |u| && u[k] == found.value && Fs.Exists(fs, found.value)
               && forall j :: 0 <= j < k ==> !Fs.Exists(fs, u[j]);
      var p := found.value;
      forall j | 0 <= j < FirstIndex(xs, p)
        ensures !Fs.Exists(fs, xs[j])
      {
        EarlierNotExisting(fs, xs, k, j);
      }
      FirstExistingAt(fs, xs, FirstIndex(xs, p));
    } else {
      forall j | 0 <= j < |xs|
        ensures !Fs.Exists(fs, xs[j])
      {
        assert xs[j] in xs;
        var m := FirstIndex(u, xs[j]);
        assert !Fs.Exists(fs, u[m]);
      }
    }
  }

  /** A path that first occurs before the selected one in the original list comes before it in the deduplicated one. */
  lemma EarlierNotExisting(fs: Fs.FileSystem, xs: seq<string>, k: nat, j: nat)
    requires k < |Unique(xs)| && forall i :: 0 <= i < k ==> !Fs.Exists(fs, Unique(xs)[i])
    requires Unique(xs)[k] in xs && j < FirstIndex(xs, Unique(xs)[k])
    ensures !Fs.Exists(fs, xs[j])
  {
    var u := Unique(xs);
    UniqueFacts(xs);
    var c := xs[j];
    assert c in u;
    var m := FirstIndex(u, c);
    assert FirstIndex(xs, c) <= j;
    assert m < k;
  }

  /**
   * The path found is the first candidate, in candidate order, that exists;
   * it is found exactly when some candidate exists.
   */
  lemma BackendPathSelects(env: Env)
    ensures BackendPath(env).Success? <==> exists c :: c in Candidates(env) && Fs.Exists(env.fs, c)
    ensures BackendPath(env).Success? ==> Some(BackendPath(env).value) == FirstExisting(env.fs, Candidates(env))
  {
    UniqueKeepsSelection(env.fs, Candidates(env));
    var cs := Candidates(env);
    if FirstExisting(env.fs, cs).None? {
      assert forall c :: c in cs ==> !Fs.Exists(env.fs, c) by {
        forall c | c in cs
          ensures !Fs.Exists(env.fs, c)
        {
          var j :| 0 <= j < |cs| && cs[j] == c;
        }
      }
    }
  }

  /** The not-found message names every path it is given. */
  lemma NotFoundContains(unique: seq<string>, env: Env, k: nat)
    requires k < |unique|
    ensures Strs.Contains(NotFound(unique, env), unique[k])
  {
    var exe := match env.executable case None => "<unknown>" case Some(p) => Render(p);
    var wd := match env.workingDir case None => "" case Some(p) => Render(p);
    var head := "MLX backend server not found; candidates: ";
    var joined := Strs.Join(unique, ", ");
    var tail := "; executable: " + exe + "; working directory: " + wd;
    assert NotFound(unique, env) == head + joined + tail;
    Strs.JoinContains(unique, ", ", k);
    Strs.ContainsWithin(head, joined, tail, unique[k]);
  }

  /** When no candidate exists, the error names every candidate. */
  lemma NotFoundNamesCandidates(env: Env, c: string)
    requires BackendPath(env).Failure? && c in Candidates(env)
    ensures Strs.Contains(BackendPath(env).error, c)
  {
    var u := Unique(Candidates(env));
    UniqueFacts(Candidates(env));
    assert BackendPath(env).error == NotFound(u, env);
    NotFoundContains(u, env, FirstIndex(u, c));
  }

  /** The project root of a direct sub-directory of a repository root. */
  lemma ProjectRootOfSubdir(fs: Fs.FileSystem, repo: seq<string>, sub: string)
    requires repo != [] && Fs.Exists(fs, GoMod(repo)) && !Fs.Exists(fs, GoMod(repo + [sub]))
    ensures ProjectRoot(fs, repo + [sub]) == Render(repo)
  {
    assert ParentDir(repo + [sub]) == repo;
  }

  /**
   * Run from a sub-directory of the repository by an executable that lies
   * outside it, the backend script at the repository root is the one found.
   */
  lemma FoundFromSubdir(fs: Fs.FileSystem, exe: seq<string>, repo: seq<string>, sub: string)
    requires repo != []
    requires ProjectRoot(fs, ParentDir(exe)) == "" && !Fs.Exists(fs, Script(Render(ParentDir(exe))))
    requires Fs.Exists(fs, GoMod(repo)) && !Fs.Exists(fs, GoMod(repo + [sub]))
    requires Fs.Exists(fs, Script(Render(repo)))
    ensures BackendPath(Env(fs, Some(exe), Some(repo + [sub]))) == Success(Script(Render(repo)))
  {
    var env := Env(fs, Some(exe), Some(repo + [sub]));
    var a := Script(Render(ParentDir(exe)));
    var b := Script(Render(repo));
    ProjectRootOfSubdir(fs, repo, sub);
    assert ScriptsUnder([Render(ParentDir(exe)), ""]) == [a] by {
      assert [Render(ParentDir(exe)), ""][..1] == [Render(ParentDir(exe))];
      assert [Render(ParentDir(exe))][..0] == [];
    }
    assert ScriptsUnder([Render(repo)]) == [b] by {
      assert [Render(repo)][..0] == [];
    }
    assert Candidates(env) == [a, b];
    UniqueKeepsSelection(fs, [a, b]);
    assert FirstExisting(fs, [a, b]) == Some(b) by {
      assert [a, b][1..] == [b];
    }
  }

  // ---------------------------------------------------------------------------
  // startMLXBackend

  /** The port the backend is started on: the one allocated, or 9090 when allocation left 0. */
  function ChoosePort(givenPort: Option<nat>): (port: nat)
    ensures port != 0
    ensures givenPort.Some? && givenPort.value != 0 ==> port == givenPort.value
    ensures givenPort.None? || givenPort.value == 0 ==> port == 9090
  {
    if givenPort.Some? && givenPort.value != 0 then givenPort.value else 9090
  }

  const PollAttempts := 30

  /** The first of the remaining health probes, from attempt `i`, that the backend answers with 200. */
  function PollFrom(healthy: nat -> bool, i: nat): Result<nat, string>
    decreases PollAttempts - i
  {
    if i >= PollAttempts then Failure("MLX backend failed to start within timeout")
    else if healthy(i) then Success(i)
    else PollFrom(healthy, i + 1)
  }

  /** The readiness poll: at most 30 probes, stopping at the first 200. */
  method WaitReady(healthy: nat -> bool) returns (r: Result<nat, string>)
    ensures r == PollFrom(healthy, 0)
    ensures r.Success? ==> r.value < PollAttempts && healthy(r.value) && forall j :: 0 <= j < r.value ==> !healthy(j)
    ensures r.Failure? <==> forall j :: 0 <= j < PollAttempts ==> !healthy(j)
  {
    for i := 0 to PollAttempts
      invariant forall j :: 0 <= j < i ==> !healthy(j)
      invariant PollFrom(healthy, 0) == PollFrom(healthy, i)
    {
      if healthy(i) {
        return Success(i);
      }
    }
    return Failure("MLX backend failed to start within timeout");
  }

  /** A started backend: the interpreter, the script, the port, and the probe that found it ready. */
  datatype Launch = Launch(python: string, script: string, port: nat, readyAt: nat)

  /** `startMLXBackend` as a value: the script lookup, the port, the process start, then the poll. */
  function StartOutcome(env: Env, pythonPath: string, givenPort: Option<nat>, startError: Option<string>,
                        healthy: nat -> bool): Result<Launch, string>
  {
    var python := if pythonPath != "" then pythonPath else "python3";
    match BackendPath(env)
    case Failure(e) => Failure(e)
    case Success(script) =>
      if startError.Some? then Failure("failed to start MLX backend: " + startError.value)
      else
        match PollFrom(healthy, 0)
        case Failure(e) => Failure(e)
        case Success(k) => Success(Launch(python, script, ChoosePort(givenPort), k))
  }

  /** The runner reaches the backend only once the script exists, the process started and a probe answered. */
  lemma StartOutcomeFacts(env: Env, pythonPath: string, givenPort: Option<nat>, startError: Option<string>,
                          healthy: nat -> bool)
    ensures var r := StartOutcome(env, pythonPath, givenPort, startError, healthy);
      && (r.Success? <==> BackendPath(env).Success? && startError.None? && exists j :: 0 <= j < PollAttempts && healthy(j))
      && (r.Success? ==> r.value.script == BackendPath(env).value && r.value.port != 0 && healthy(r.value.readyAt)
                         && r.value.python != "")
  {
    var r := StartOutcome(env, pythonPath, givenPort, startError, healthy);
    var _ := PollFactsOf(healthy);
  }

  /** What `PollFrom` from the first attempt means. */
  lemma PollFactsOf(healthy: nat -> bool) returns (k: nat)
    ensures PollFrom(healthy, 0).Success? ==> k == PollFrom(healthy, 0).value && k < PollAttempts && healthy(k)
    ensures PollFrom(healthy, 0).Failure? <==> forall j :: 0 <= j < PollAttempts ==> !healthy(j)
  {
    k := PollFromFacts(healthy, 0);
  }

  lemma {:induction false} PollFromFacts(healthy: nat -> bool, i: nat) returns (k: nat)
    requires i <= PollAttempts
    ensures PollFrom(healthy, i).Success? ==> k == PollFrom(healthy, i).value && i <= k < PollAttempts && healthy(k)
    ensures PollFrom(healthy, i).Failure? <==> forall j :: i <= j < PollAttempts ==> !healthy(j)
    decreases PollAttempts - i
  {
    if i < PollAttempts && !healthy(i) {
      k := PollFromFacts(healthy, i + 1);
    } else {
      k := i;
    }
  }

  // ---------------------------------------------------------------------------
  // The runner server and its /load handler

  /** The two states of `llm.ServerStatus` this runner uses. */
  datatype ServerStatus = Launched | Ready

  /** The Python backend's answer to the forwarded load: its status code and its body, or the error reading it. */
  datatype BackendReply = BackendReply(code: int, body: Result<string, string>)

  /** An HTTP reply: status code and message (the JSON body of a success is left out). */
  datatype HttpReply = HttpReply(code: int, message: string)

  /**
   * `load`: only POST; a body that is neither empty nor JSON is a 400; a
   * failed forward is a 500; a non-200 answer is passed through with its
   * body; only a 200 makes the runner ready.
   */
  function LoadOutcome(status: ServerStatus, httpMethod: string, decoded: Result<(), string>,
                       backend: Result<BackendReply, string>): (r: (ServerStatus, HttpReply))
    ensures r.1.code == 200 ==> r.0 == Ready
    ensures r.1.code != 200 ==> r.0 == status
  {
    if httpMethod != "POST" then (status, HttpReply(405, "method not allowed"))
    else if decoded.Failure? then (status, HttpReply(400, decoded.error))
    else if backend.Failure? then (status, HttpReply(500, backend.error))
    else if backend.value.code != 200 then
      match backend.value.body
      case Failure(_) => (status, HttpReply(500, "failed to read backend response"))
      case Success(b) => (status, HttpReply(backend.value.code, b))
    else (Ready, HttpReply(200, ""))
  }

  /** The runner becomes ready exactly on a POST whose forwarded load the backend answered with 200. */
  lemma LoadReadyIff(status: ServerStatus, httpMethod: string, decoded: Result<(), string>,
                     backend: Result<BackendReply, string>)
    requires status == Launched
    ensures LoadOutcome(status, httpMethod, decoded, backend).0 == Ready <==>
      httpMethod == "POST" && decoded.Success? && backend.Success? && backend.value.code == 200
  {
  }

  /** The runner process's state: the model it serves, the backend port, its status. */
  class Server {
    const modelPath: string
    const pythonPath: string
    var mlxPort: nat
    var status: ServerStatus

    /** The runner as `Execute` builds it: launched, backend not yet started. */
    constructor (modelPath: string, pythonPath: string)
      ensures this.modelPath == modelPath && this.pythonPath == pythonPath
      ensures status == Launched && mlxPort == 0
    {
      this.modelPath := modelPath;
      this.pythonPath := pythonPath;
      mlxPort := 0;
      status := Launched;
    }

    /** `startMLXBackend`: the port is set once the script is found, and kept whatever follows. */
    method StartBackend(env: Env, givenPort: Option<nat>, startError: Option<string>, healthy: nat -> bool)
      returns (r: Result<Launch, string>)
      modifies this
      ensures r == StartOutcome(env, pythonPath, givenPort, startError, healthy)
      ensures mlxPort == if BackendPath(env).Success? then ChoosePort(givenPort) else old(mlxPort)
      ensures status == old(status)
    {
      var python := if pythonPath != "" then pythonPath else "python3";
      var script := FindBackendPath(env);
      if script.Failure? {
        return Failure(script.error);
      }
      mlxPort := 0;
      if givenPort.Some? {
        mlxPort := givenPort.value;
      }
      if mlxPort == 0 {
        mlxPort := 9090;
      }
      if startError.Some? {
        return Failure("failed to start MLX backend: " + startError.value);
      }
      var ready := WaitReady(healthy);
      if ready.Failure? {
        return Failure(ready.error);
      }
      return Success(Launch(python, script.value, mlxPort, ready.value));
    }

    /** The `/load` handler. */
    method Load(httpMethod: string, decoded: Result<(), string>, backend: Result<BackendReply, string>)
      returns (reply: HttpReply)
      modifies this
      ensures (status, reply) == LoadOutcome(old(status), httpMethod, decoded, backend)
      ensures mlxPort == old(mlxPort)
    {
      if httpMethod != "POST" {
        return HttpReply(405, "method not allowed");
      }
      if decoded.Failure? {
        return HttpReply(400, decoded.error);
      }
      if backend.Failure? {
        return HttpReply(500, backend.error);
      }
      if backend.value.code != 200 {
        if backend.value.body.Failure? {
          return HttpReply(500, "failed to read backend response");
        }
        return HttpReply(backend.value.code, backend.value.body.value);
      }
      status := Ready;
      return HttpReply(200, "");
    }
  }
}
