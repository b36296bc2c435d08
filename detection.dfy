/**
 * Model format detection (llm/detection.go): an ordered list of rules over a
 * model path and the filesystem.
 */
module Detection {
  import Strs
  import Fs

  /** `ModelFormat` is an integer enumeration. */
  const Unknown: int := 0
  const GGUF: int := 1
  const MLX: int := 2

  /** `ModelFormat.String`. */
  function FormatName(f: int): string
  {
    if f == GGUF then "GGUF" else if f == MLX then "MLX" else "Unknown"
  }

  /** `filepath.Ext`: the suffix from the final dot of the final path element, "" when it has none. */
  function Ext(p: string): (r: string)
    ensures r == "" || (r[0] == '.' && Strs.EndsWith(p, r) && '/' !in r && '.' !in r[1..])
  {
    if |p| == 0 || p[|p| - 1] == '/' then ""
    else if p[|p| - 1] == '.' then "."
    else
      var e := Ext(p[..|p| - 1]);
      if e == "" then "" else e + [p[|p| - 1]]
  }

  /** The directory rule: a directory holding config.json and safetensors or npz weights. */
  predicate LooksLikeMLXDirectory(fs: Fs.FileSystem, p: string) {
    && Fs.IsDir(fs, p)
    && Fs.Exists(fs, Fs.Join(p, "config.json"))
    && (Fs.Exists(fs, Fs.Join(p, "model.safetensors")) || Fs.Exists(fs, Fs.Join(p, "weights.npz")))
  }

  /** The name rule: a relative path with a "/" that names an mlx-community repository or contains "-mlx". */
  predicate LooksLikeMLXReference(p: string) {
    && '/' in p && !Fs.IsAbs(p)
    && (Strs.StartsWith(p, "mlx-community/") || Strs.Contains(Strs.ToLower(p), "-mlx"))
  }

  /** `DetectModelFormat`. */
  function DetectModelFormat(fs: Fs.FileSystem, p: string): (f: int)
    ensures f == GGUF || f == MLX
  {
    if Strs.ToLower(Ext(p)) == ".gguf" then GGUF
    else if LooksLikeMLXDirectory(fs, p) then MLX
    else if LooksLikeMLXReference(p) then MLX
    else GGUF
  }

  predicate IsMLXModel(fs: Fs.FileSystem, p: string) {
    DetectModelFormat(fs, p) == MLX
  }

  predicate IsGGUFModel(fs: Fs.FileSystem, p: string) {
    DetectModelFormat(fs, p) == GGUF
  }

  /** Detection never answers Unknown, so the two checks are complements. */
  lemma FormatsComplement(fs: Fs.FileSystem, p: string)
    ensures DetectModelFormat(fs, p) != Unknown
    ensures IsMLXModel(fs, p) <==> !IsGGUFModel(fs, p)
  {
  }

  /** A `.gguf` extension, in any letter case, decides before the filesystem is consulted. */
  lemma GgufExtensionFirst(fs: Fs.FileSystem, p: string)
    requires Strs.ToLower(Ext(p)) == ".gguf"
    ensures DetectModelFormat(fs, p) == GGUF
    ensures forall fs' :: DetectModelFormat(fs', p) == DetectModelFormat(fs, p)
  {
  }

  /** MLX exactly when one of the two MLX rules fires on a path without a `.gguf` extension. */
  lemma DetectMLXIff(fs: Fs.FileSystem, p: string)
    ensures IsMLXModel(fs, p) <==>
      Strs.ToLower(Ext(p)) != ".gguf" && (LooksLikeMLXDirectory(fs, p) || LooksLikeMLXReference(p))
  {
  }

  /** An mlx-community repository name is MLX when it has no `.gguf` extension, whatever exists on disk. */
  lemma CommunityReferenceIsMLX(fs: Fs.FileSystem, rest: string)
    requires Strs.ToLower(Ext("mlx-community/" + rest)) != ".gguf"
    ensures IsMLXModel(fs, "mlx-community/" + rest)
  {
    var p := "mlx-community/" + rest;
    assert p[13] == '/';
    assert Strs.StartsWith(p, "mlx-community/");
  }

  /** A bare name without "/" is not taken for a repository: "llama-7b-mlx" is GGUF unless such a directory exists. */
  lemma BareNameNeedsDirectory(fs: Fs.FileSystem)
    requires !Fs.IsDir(fs, "llama-7b-mlx")
    ensures DetectModelFormat(fs, "llama-7b-mlx") == GGUF
  {
    assert '/' !in "llama-7b-mlx" && '.' !in "llama-7b-mlx";
    PlainNameIsGguf(fs, "llama-7b-mlx");
  }

  /** A name with no "/" and no "." is GGUF unless it names a directory. */
  lemma PlainNameIsGguf(fs: Fs.FileSystem, p: string)
    requires '/' !in p && '.' !in p && !Fs.IsDir(fs, p)
    ensures DetectModelFormat(fs, p) == GGUF
  {
    ExtWithoutDot(p);
  }

  /** A path without a dot has no extension. */
  lemma {:induction false} ExtWithoutDot(p: string)
    requires '.' !in p
    ensures Ext(p) == ""
    decreases |p|
  {
    if |p| > 0 {
      assert p[|p| - 1] != '.';
      assert '.' !in p[..|p| - 1] by {
        assert forall c :: c in p[..|p| - 1] ==> c in p;
      }
      ExtWithoutDot(p[..|p| - 1]);
    }
  }

  /** The extension is everything from the last dot when no "/" or "." follows it. */
  lemma {:induction false} ExtOfSuffix(base: string, e: string)
    requires '/' !in e && '.' !in e
    ensures Ext(base + "." + e) == "." + e
    decreases |e|
  {
    if |e| == 0 {
      assert base + "." + e == base + ".";
    } else {
      var init := e[..|e| - 1];
      assert '/' !in init && '.' !in init by {
        assert forall c :: c in init ==> c in e;
      }
      ExtOfSuffix(base, init);
      assert (base + "." + e)[..|base + "." + e| - 1] == base + "." + init;
      assert "." + init + [e[|e| - 1]] == "." + e;
    }
  }

  /** A file named with an upper-case `.GGUF` extension is GGUF. */
  lemma UpperCaseGguf(fs: Fs.FileSystem, base: string)
    ensures DetectModelFormat(fs, base + ".GGUF") == GGUF
  {
    ExtOfSuffix(base, "GGUF");
    assert base + "." + "GGUF" == base + ".GGUF";
    assert Strs.ToLower(".GGUF") == ".gguf";
  }
}
