/**
 * The local MLX model cache (llm/mlx_models.go): where a model lives, when
 * it counts as present, what listing reports, and the control flow of
 * downloading a model file by file. The filesystem is a snapshot, reading a
 * model's config.json is a parameter, and each file download's outcome is
 * given by the caller.
 */
module ModelCache {
  import opened Wrappers
  import Strs
  import Fs

  /** The directory name a model is stored under: every "/" becomes "_". */
  function LocalName(name: string): (r: string)
    ensures |r| == |name| && '/' !in r
    ensures '/' !in name ==> r == name
  {
    Strs.ReplaceChar(name, '/', '_')
  }

  /**
   * `GetModelPath`: the local name joined to the models directory. The join
   * cleans its result, so "" and "." name the models directory itself and ".."
   * its parent.
   */
  function ModelPath(modelsDir: string, name: string): (r: string)
    ensures name != "" && name != "." && name != ".." && modelsDir != "" && modelsDir != "/" && modelsDir != "." ==>
      Strs.StartsWith(r, modelsDir + "/") && '/' !in r[|modelsDir| + 1..] && |r| == |modelsDir| + 1 + |name|
    ensures name != "" && name != "." && name != ".." && modelsDir == "." ==> '/' !in r && |r| == |name|
    ensures (name == "" || name == ".") && modelsDir != "" ==> r == modelsDir
    ensures name == ".." && modelsDir != "" ==> r == Fs.Parent(modelsDir)
  {
    LocalNameKeepsDots(name);
    Fs.Join(modelsDir, LocalName(name))
  }

  /** Only "", "." and ".." have a local name that is "", "." or "..". */
  lemma LocalNameKeepsDots(name: string)
    ensures LocalName(name) == "" <==> name == ""
    ensures LocalName(name) == "." <==> name == "."
    ensures LocalName(name) == ".." <==> name == ".."
  {
    var r := LocalName(name);
    if |name| == 1 && r == "." {
      assert r[0] == (if name[0] == '/' then '_' else name[0]);
      assert name == [name[0]];
    }
    if |name| == 2 && r == ".." {
      assert r[0] == (if name[0] == '/' then '_' else name[0]);
      assert r[1] == (if name[1] == '/' then '_' else name[1]);
      assert name == [name[0], name[1]];
    }
  }

  /** The name ".." resolves to the parent of the models directory. */
  lemma DotDotIsParent()
    ensures ModelPath("/home/u/.ollama/models/mlx", "..") == "/home/u/.ollama/models"
  {
    var d := "/home/u/.ollama/models/mlx";
    calc {
      Fs.Parent(d);
      { assert d[..|d| - 1] == "/home/u/.ollama/models/ml"; }
      Fs.Parent("/home/u/.ollama/models/ml");
      { assert "/home/u/.ollama/models/ml"[..24] == "/home/u/.ollama/models/m"; }
      Fs.Parent("/home/u/.ollama/models/m");
      { assert "/home/u/.ollama/models/m"[..23] == "/home/u/.ollama/models/"; }
      Fs.Parent("/home/u/.ollama/models/");
      { assert "/home/u/.ollama/models/"[..22] == "/home/u/.ollama/models"; }
      "/home/u/.ollama/models";
    }
  }

  /**
   * The routes hand the runner pool the local name; it maps to the same
   * store path as the name the cache checked.
   */
  lemma LocalNameSamePath(modelsDir: string, name: string)
    ensures ModelPath(modelsDir, LocalName(name)) == ModelPath(modelsDir, name)
  {
  }

  /** Two repository names that differ only in "/" against "_" share one directory. */
  lemma SlashUnderscoreCollide(modelsDir: string)
    ensures ModelPath(modelsDir, "org/model") == ModelPath(modelsDir, "org_model")
  {
    assert LocalName("org/model") == "org_model";
  }

  /** `ModelExists`: config.json and one of the two weight files are present. */
  predicate ModelExists(fs: Fs.FileSystem, modelsDir: string, name: string) {
    var p := ModelPath(modelsDir, name);
    && Fs.Exists(fs, Fs.Join(p, "config.json"))
    && (Fs.Exists(fs, Fs.Join(p, "model.safetensors")) || Fs.Exists(fs, Fs.Join(p, "weights.npz")))
  }

  /** The part of a model's config.json that is read: its `architectures` list, when it has one. */
  datatype Config = Config(architectures: Option<seq<string>>)

  datatype ModelInfo = ModelInfo(name: string, format: string, family: string, localPath: string)

  /**
   * `GetModelInfo`: an error when the model path does not exist; otherwise
   * the name as given, format "MLX", and the family read from config.json.
   * `readConfig` gives the decoded config.json at a path, None when it cannot
   * be read or decoded.
   */
  function GetModelInfo(fs: Fs.FileSystem, modelsDir: string, name: string, readConfig: string -> Option<Config>)
    : (r: Result<ModelInfo, string>)
    ensures r.Failure? <==> !Fs.Exists(fs, ModelPath(modelsDir, name))
    ensures r.Success? ==> r.value.name == name && r.value.format == "MLX" && r.value.localPath == ""
  {
    var p := ModelPath(modelsDir, name);
    if !Fs.Exists(fs, p) then Failure("stat " + p + ": no such file or directory")
    else Success(ModelInfo(name, "MLX", Family(readConfig(Fs.Join(p, "config.json"))), ""))
  }

  /** The first architecture of a readable config, else "". */
  function Family(config: Option<Config>): string {
    if config.Some? && config.value.architectures.Some? && |config.value.architectures.value| > 0
    then config.value.architectures.value[0]
    else ""
  }

  /** The family comes from the first listed architecture and is "" without one. */
  lemma FamilyFromArchitectures(fs: Fs.FileSystem, modelsDir: string, name: string, readConfig: string -> Option<Config>, archs: seq<string>)
    requires Fs.Exists(fs, ModelPath(modelsDir, name))
    requires readConfig(Fs.Join(ModelPath(modelsDir, name), "config.json")) == Some(Config(Some(archs)))
    ensures |archs| > 0 ==> GetModelInfo(fs, modelsDir, name, readConfig).value.family == archs[0]
    ensures |archs| == 0 ==> GetModelInfo(fs, modelsDir, name, readConfig).value.family == ""
  {
  }

  // ---------------------------------------------------------------- listing

  datatype DirEntry = DirEntry(name: string, isDir: bool)

  /** What reading the models directory gives: it is missing, reading fails otherwise, or its entries. */
  datatype Listing = NotExist | ReadFailed(msg: string) | Listed(entries: seq<DirEntry>)

  /** The models reported for a run of directory entries: directories whose info can be read, in listing order. */
  function ListedModels(fs: Fs.FileSystem, modelsDir: string, entries: seq<DirEntry>, readConfig: string -> Option<Config>)
    : seq<ModelInfo>
  {
    if |entries| == 0 then []
    else
      var init := ListedModels(fs, modelsDir, entries[..|entries| - 1], readConfig);
      var e := entries[|entries| - 1];
      var info := GetModelInfo(fs, modelsDir, e.name, readConfig);
      if e.isDir && info.Success? then init + [info.value.(localPath := Fs.Join(modelsDir, e.name))] else init
  }

  /**
   * Every listed model comes from a directory entry whose info could be
   * read, carries that entry's path, and the list is no longer than the listing.
   */
  lemma {:induction false} ListedModelsSound(fs: Fs.FileSystem, modelsDir: string, entries: seq<DirEntry>, readConfig: string -> Option<Config>)
    ensures |ListedModels(fs, modelsDir, entries, readConfig)| <= |entries|
    ensures forall m :: m in ListedModels(fs, modelsDir, entries, readConfig) ==>
      exists k :: (0 <= k < |entries| && entries[k].isDir && m.name == entries[k].name
        && m.localPath == Fs.Join(modelsDir, entries[k].name) && m.format == "MLX"
        && Fs.Exists(fs, ModelPath(modelsDir, entries[k].name)))
  {
    if |entries| > 0 {
      var init := entries[..|entries| - 1];
      ListedModelsSound(fs, modelsDir, init, readConfig);
      forall m | m in ListedModels(fs, modelsDir, init, readConfig)
        ensures exists k :: (0 <= k < |entries| && entries[k].isDir && m.name == entries[k].name
          && m.localPath == Fs.Join(modelsDir, entries[k].name) && m.format == "MLX"
          && Fs.Exists(fs, ModelPath(modelsDir, entries[k].name)))
      {
        var k :| 0 <= k < |init| && init[k].isDir && m.name == init[k].name
          && m.localPath == Fs.Join(modelsDir, init[k].name) && m.format == "MLX"
          && Fs.Exists(fs, ModelPath(modelsDir, init[k].name));
        assert entries[k] == init[k];
      }
    }
  }

  /** Every directory entry whose info can be read is listed. */
  lemma {:induction false} ListedModelsComplete(fs: Fs.FileSystem, modelsDir: string, entries: seq<DirEntry>, readConfig: string -> Option<Config>, k: nat)
    requires k < |entries| && entries[k].isDir && Fs.Exists(fs, ModelPath(modelsDir, entries[k].name))
    ensures exists m :: m in ListedModels(fs, modelsDir, entries, readConfig) && m.name == entries[k].name
  {
    var init := entries[..|entries| - 1];
    if k < |entries| - 1 {
      assert init[k] == entries[k];
      ListedModelsComplete(fs, modelsDir, init, readConfig, k);
      var m :| m in ListedModels(fs, modelsDir, init, readConfig) && m.name == entries[k].name;
      assert m in ListedModels(fs, modelsDir, entries, readConfig);
    } else {
      var info := GetModelInfo(fs, modelsDir, entries[k].name, readConfig);
      var m := info.value.(localPath := Fs.Join(modelsDir, entries[k].name));
      assert ListedModels(fs, modelsDir, entries, readConfig) == ListedModels(fs, modelsDir, init, readConfig) + [m];
    }
  }

  /** `ListModels`. */
  method ListModels(fs: Fs.FileSystem, modelsDir: string, listing: Listing, readConfig: string -> Option<Config>)
    returns (r: Result<seq<ModelInfo>, string>)
    ensures listing.NotExist? ==> r == Success([])
    ensures listing.ReadFailed? ==> r == Failure(listing.msg)
    ensures listing.Listed? ==> r == Success(ListedModels(fs, modelsDir, listing.entries, readConfig))
  {
    match listing {
      case NotExist => return Success([]);
      case ReadFailed(msg) => return Failure(msg);
      case Listed(entries) =>
        var models: seq<ModelInfo> := [];
        var i := 0;
        while i < |entries|
          invariant 0 <= i <= |entries|
          invariant models == ListedModels(fs, modelsDir, entries[..i], readConfig)
        {
          assert entries[..i + 1][..i] == entries[..i];
          var entry := entries[i];
          if entry.isDir {
            var info := GetModelInfo(fs, modelsDir, entry.name, readConfig);
            if info.Success? {
              models := models + [info.value.(localPath := Fs.Join(modelsDir, entry.name))];
            }
          }
          i := i + 1;
        }
        assert entries[..i] == entries;
        return Success(models);
    }
  }

  // --------------------------------------------------------------- download

  const RequiredFiles: seq<string> := ["config.json", "tokenizer.json", "tokenizer_config.json"]
  const OptionalFiles: seq<string> := ["model.safetensors", "weights.npz", "special_tokens_map.json", "generation_config.json"]
  const AllFiles: seq<string> := RequiredFiles + OptionalFiles

  /**
   * How the attempt at one file goes: whether the context was already
   * cancelled before it, whether the download succeeded, and whether the
   * context was found cancelled after a failed download.
   */
  datatype FileAttempt = FileAttempt(cancelledBefore: bool, ok: bool, cancelledAfterFailure: bool)

  datatype DownloadError = MkdirFailed | Cancelled | RequiredFailed(file: string)

  /**
   * A progress report: a status and the number of files finished so far. The
   * source reports the percentage round(100 * finished / 7), so the final
   * report, with all 7 files finished, is its "100".
   */
  datatype Progress = Progress(status: string, finished: nat)

  /** How a download ends: its error, the progress reported, and whether the model directory was removed. */
  datatype DownloadRun = DownloadRun(err: Option<DownloadError>, progress: seq<Progress>, removed: bool)

  predicate IsRequired(f: string) {
    f in RequiredFiles
  }

  /** The file loop from file `i` on, with `i` files already finished. */
  function FilesFrom(i: nat, attempt: string -> FileAttempt): (r: DownloadRun)
    requires i <= |AllFiles|
    ensures !r.removed
    decreases |AllFiles| - i
  {
    if i == |AllFiles| then DownloadRun(None, [Progress("Download complete", |AllFiles|)], false)
    else
      var f := AllFiles[i];
      var a := attempt(f);
      var start := Progress("downloading " + f, i);
      if a.cancelledBefore then DownloadRun(Some(Cancelled), [], false)
      else if !a.ok && a.cancelledAfterFailure then DownloadRun(Some(Cancelled), [start], false)
      else if !a.ok && IsRequired(f) then DownloadRun(Some(RequiredFailed(f)), [start], false)
      else
        var rest := FilesFrom(i + 1, attempt);
        rest.(progress := [start, Progress("downloaded " + f, i + 1)] + rest.progress)
  }

  /** `DownloadMLXModel`: `MkdirAll`, the file loop, and removal of the directory on any error after `MkdirAll` succeeded. */
  function Download(mkdirOk: bool, attempt: string -> FileAttempt): (r: DownloadRun)
    ensures r.removed <==> mkdirOk && r.err.Some?
  {
    if !mkdirOk then DownloadRun(Some(MkdirFailed), [], false)
    else
      var run := FilesFrom(0, attempt);
      run.(removed := run.err.Some?)
  }

  /** Whether `f` is one of the required files, by scanning the list as the source does. */
  method ScanRequired(f: string) returns (isRequired: bool)
    ensures isRequired == IsRequired(f)
  {
    isRequired := false;
    var j := 0;
    while j < |RequiredFiles|
      invariant 0 <= j <= |RequiredFiles|
      invariant isRequired <==> f in RequiredFiles[..j]
    {
      if RequiredFiles[j] == f {
        isRequired := true;
      }
      assert RequiredFiles[..j + 1] == RequiredFiles[..j] + [RequiredFiles[j]];
      j := j + 1;
    }
    assert RequiredFiles[..j] == RequiredFiles;
  }

  /** A file that neither cancels nor fails while required reports its start and end and hands over to the next file. */
  lemma FilesFromContinues(i: nat, attempt: string -> FileAttempt)
    requires i < |AllFiles|
    requires !attempt(AllFiles[i]).cancelledBefore
    requires attempt(AllFiles[i]).ok || (!attempt(AllFiles[i]).cancelledAfterFailure && !IsRequired(AllFiles[i]))
    ensures FilesFrom(i, attempt).err == FilesFrom(i + 1, attempt).err
    ensures FilesFrom(i, attempt).progress
      == [Progress("downloading " + AllFiles[i], i), Progress("downloaded " + AllFiles[i], i + 1)] + FilesFrom(i + 1, attempt).progress
  {
  }

  /** A file that cancels, or fails while required, ends the loop with that error and at most its start reported. */
  lemma FilesFromStops(i: nat, attempt: string -> FileAttempt)
    requires i < |AllFiles|
    ensures var a := attempt(AllFiles[i]); var start := Progress("downloading " + AllFiles[i], i);
      && (a.cancelledBefore ==> FilesFrom(i, attempt) == DownloadRun(Some(Cancelled), [], false))
      && (!a.cancelledBefore && !a.ok && a.cancelledAfterFailure ==>
            FilesFrom(i, attempt) == DownloadRun(Some(Cancelled), [start], false))
      && (!a.cancelledBefore && !a.ok && !a.cancelledAfterFailure && IsRequired(AllFiles[i]) ==>
            FilesFrom(i, attempt) == DownloadRun(Some(RequiredFailed(AllFiles[i])), [start], false))
  {
  }

  /** `DownloadMLXModel`'s loop. */
  method DownloadMLXModel(mkdirOk: bool, attempt: string -> FileAttempt) returns (run: DownloadRun)
    ensures run == Download(mkdirOk, attempt)
  {
    if !mkdirOk {
      return DownloadRun(Some(MkdirFailed), [], false);
    }
    var progress: seq<Progress> := [];
    var downloaded := 0;
    var i := 0;
    while i < |AllFiles|
      invariant 0 <= i <= |AllFiles| && downloaded == i
      invariant FilesFrom(0, attempt).err == FilesFrom(i, attempt).err
      invariant FilesFrom(0, attempt).progress == progress + FilesFrom(i, attempt).progress
    {
      var f := AllFiles[i];
      var a := attempt(f);
      FilesFromStops(i, attempt);
      if a.cancelledBefore {
        return DownloadRun(Some(Cancelled), progress, true);
      }
      var started := Progress("downloading " + f, downloaded);
      if !a.ok {
        if a.cancelledAfterFailure {
          return DownloadRun(Some(Cancelled), progress + [started], true);
        }
        var isRequired := ScanRequired(f);
        if isRequired {
          return DownloadRun(Some(RequiredFailed(f)), progress + [started], true);
        }
      }
      FilesFromContinues(i, attempt);
      var finished := Progress("downloaded " + f, downloaded + 1);
      assert progress + [started, finished] + FilesFrom(i + 1, attempt).progress
        == progress + ([started, finished] + FilesFrom(i + 1, attempt).progress);
      progress := progress + [started, finished];
      downloaded := downloaded + 1;
      i := i + 1;
    }
    progress := progress + [Progress("Download complete", |AllFiles|)];
    return DownloadRun(None, progress, false);
  }

  /** The loop succeeds exactly when no file from `i` on is cancelled or fails while required. */
  lemma {:induction false} FilesFromSucceedsIff(i: nat, attempt: string -> FileAttempt)
    requires i <= |AllFiles|
    ensures FilesFrom(i, attempt).err.None? <==>
      forall k :: i <= k < |AllFiles| ==>
        !attempt(AllFiles[k]).cancelledBefore
        && (attempt(AllFiles[k]).ok || (!attempt(AllFiles[k]).cancelledAfterFailure && !IsRequired(AllFiles[k])))
    decreases |AllFiles| - i
  {
    if i < |AllFiles| {
      FilesFromSucceedsIff(i + 1, attempt);
    }
  }

  /**
   * A download succeeds exactly when `MkdirAll` succeeds, no file is
   * cancelled, every required file arrives and any optional failure is not
   * a cancellation; it then keeps the directory. Any error after `MkdirAll`
   * succeeded removes the directory, also one that existed before.
   */
  lemma DownloadSucceedsIff(mkdirOk: bool, attempt: string -> FileAttempt)
    ensures Download(mkdirOk, attempt).err.None? <==>
      mkdirOk && forall k :: 0 <= k < |AllFiles| ==>
        !attempt(AllFiles[k]).cancelledBefore
        && (attempt(AllFiles[k]).ok || (!attempt(AllFiles[k]).cancelledAfterFailure && !IsRequired(AllFiles[k])))
    ensures Download(mkdirOk, attempt).err.None? ==> !Download(mkdirOk, attempt).removed
    ensures Download(mkdirOk, attempt).err.Some? && mkdirOk ==> Download(mkdirOk, attempt).removed
  {
    if mkdirOk {
      FilesFromSucceedsIff(0, attempt);
    }
  }

  /**
   * On success every file is announced before and after in list order, with
   * the count of finished files, optional failures counted too, and the
   * last report is the final one.
   */
  lemma {:induction false} FilesFromProgress(i: nat, attempt: string -> FileAttempt)
    requires i <= |AllFiles|
    requires FilesFrom(i, attempt).err.None?
    ensures var p := FilesFrom(i, attempt).progress;
      && |p| == 2 * (|AllFiles| - i) + 1
      && p[|p| - 1] == Progress("Download complete", |AllFiles|)
      && forall k :: i <= k < |AllFiles| ==>
        p[2 * (k - i)] == Progress("downloading " + AllFiles[k], k)
        && p[2 * (k - i) + 1] == Progress("downloaded " + AllFiles[k], k + 1)
    decreases |AllFiles| - i
  {
    if i < |AllFiles| {
      FilesFromProgress(i + 1, attempt);
      var p := FilesFrom(i, attempt).progress;
      var q := FilesFrom(i + 1, attempt).progress;
      FilesFromContinues(i, attempt);
      forall k | i < k < |AllFiles|
        ensures p[2 * (k - i)] == Progress("downloading " + AllFiles[k], k)
        ensures p[2 * (k - i) + 1] == Progress("downloaded " + AllFiles[k], k + 1)
      {
        assert p[2 * (k - i)] == q[2 * (k - (i + 1))];
        assert p[2 * (k - i) + 1] == q[2 * (k - (i + 1)) + 1];
      }
    }
  }

  /** A required-file error names a required file, and every file before it was fetched or optional. */
  lemma {:induction false} RequiredFailureNamesRequiredFile(i: nat, attempt: string -> FileAttempt)
    requires i <= |AllFiles|
    requires FilesFrom(i, attempt).err.Some? && FilesFrom(i, attempt).err.value.RequiredFailed?
    ensures var f := FilesFrom(i, attempt).err.value.file;
      IsRequired(f) && !attempt(f).ok && !attempt(f).cancelledAfterFailure && !attempt(f).cancelledBefore
    decreases |AllFiles| - i
  {
    var f := AllFiles[i];
    var a := attempt(f);
    if !(!a.ok && IsRequired(f)) {
      RequiredFailureNamesRequiredFile(i + 1, attempt);
    }
  }
}
