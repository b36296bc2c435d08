/**
 * Two helpers of the MLX routes (server/routes_mlx.go) that classify model
 * names: the parameter-size parser behind `general.parameter_count`, and the
 * check that decides whether a request goes to the MLX backend.
 */
module ModelRefs {
  import Strs
  import Fs
  import ModelCache

  /** The sizes the parser knows, keyed by lower-cased, trimmed size text. */
  const KnownSizes: map<string, int> := map[
    "7b" := 7_000_000_000,
    "135m" := 135_000_000,
    "1.7b" := 1_700_000_000,
    "3b" := 3_000_000_000,
    "1b" := 1_000_000_000
  ]

  function Normalize(paramSize: string): string {
    Strs.ToLower(Strs.TrimSpace(paramSize))
  }

  /** Text with no surrounding space and no upper-case letter is already normalised. */
  lemma NormalizePlain(s: string)
    requires |s| > 0 && !Strs.IsSpace(s[0]) && !Strs.IsSpace(s[|s| - 1])
    requires forall i :: 0 <= i < |s| ==> !('A' <= s[i] <= 'Z')
    ensures Normalize(s) == s
  {
    Strs.TrimSpaceOfTrimmed(s);
    assert Strs.ToLower(s) == s;
  }

  /**
   * `parseParameterCount` as written: it strips one trailing "b" and then
   * compares the rest against "7", "135m", "1.7b", "3b" and "1b".
   */
  function ParseParameterCountAsWritten(paramSize: string): (r: int)
    ensures r != 0 ==> Strs.EndsWith(Normalize(paramSize), "b")
    ensures r >= 0
  {
    StripThenCompare(Normalize(paramSize))
  }

  /** The as-written parser on normalised text: one trailing "b" removed, then the comparisons. */
  function StripThenCompare(s: string): (r: int)
    ensures r != 0 ==> Strs.EndsWith(s, "b")
    ensures r >= 0
  {
    if Strs.EndsWith(s, "b") then Legacy(Strs.TrimSuffix(s, "b")) else 0
  }

  /** On normalised text, the as-written parser looks up the text minus one trailing "b". */
  lemma AsWrittenOnPlain(s: string)
    requires |s| > 0 && !Strs.IsSpace(s[0]) && !Strs.IsSpace(s[|s| - 1])
    requires forall i :: 0 <= i < |s| ==> !('A' <= s[i] <= 'Z')
    ensures s[|s| - 1] != 'b' ==> ParseParameterCountAsWritten(s) == 0
    ensures s[|s| - 1] == 'b' ==> ParseParameterCountAsWritten(s) == Legacy(s[..|s| - 1])
  {
    NormalizePlain(s);
  }

  /** The comparison table of the as-written parser, applied after the "b" is gone. */
  function Legacy(num: string): int {
    if num == "7" then 7_000_000_000
    else if num == "135m" then 135_000_000
    else if num == "1.7b" then 1_700_000_000
    else if num == "3b" then 3_000_000_000
    else if num == "1b" then 1_000_000_000
    else 0
  }

  /**
   * As written only "7b" of the listed sizes is recognised: "3b", "1b",
   * "1.7b" and "135m" all give 0, while the doubled "3bb" gives three billion.
   */
  lemma AsWrittenMissesListedSizes()
    ensures ParseParameterCountAsWritten("7b") == 7_000_000_000
    ensures ParseParameterCountAsWritten("3b") == 0
    ensures ParseParameterCountAsWritten("1b") == 0
    ensures ParseParameterCountAsWritten("1.7b") == 0
    ensures ParseParameterCountAsWritten("135m") == 0
    ensures ParseParameterCountAsWritten("3bb") == 3_000_000_000
  {
    AsWrittenShort();
    AsWrittenLong();
  }

  lemma AsWrittenShort()
    ensures ParseParameterCountAsWritten("7b") == 7_000_000_000
    ensures ParseParameterCountAsWritten("3b") == 0
    ensures ParseParameterCountAsWritten("1b") == 0
  {
    AsWrittenSeven();
    AsWrittenThree();
    AsWrittenOne();
  }

  lemma AsWrittenSeven()
    ensures ParseParameterCountAsWritten("7b") == 7_000_000_000
  {
    AsWrittenOnPlain("7b");
    assert "7b"[..1] == "7";
  }

  lemma AsWrittenThree()
    ensures ParseParameterCountAsWritten("3b") == 0
  {
    AsWrittenOnPlain("3b");
    assert "3b"[..1] == "3";
  }

  lemma AsWrittenOne()
    ensures ParseParameterCountAsWritten("1b") == 0
  {
    AsWrittenOnPlain("1b");
    assert "1b"[..1] == "1";
  }

  lemma AsWrittenLong()
    ensures ParseParameterCountAsWritten("1.7b") == 0
    ensures ParseParameterCountAsWritten("135m") == 0
    ensures ParseParameterCountAsWritten("3bb") == 3_000_000_000
  {
    AsWrittenDecimal();
    AsWrittenMillions();
    AsWrittenDoubled();
  }

  lemma AsWrittenDecimal()
    ensures ParseParameterCountAsWritten("1.7b") == 0
  {
    AsWrittenOnPlain("1.7b");
    assert "1.7b"[..3] == "1.7";
  }

  lemma AsWrittenMillions()
    ensures ParseParameterCountAsWritten("135m") == 0
  {
    AsWrittenOnPlain("135m");
  }

  lemma AsWrittenDoubled()
    ensures ParseParameterCountAsWritten("3bb") == 3_000_000_000
  {
    AsWrittenOnPlain("3bb");
    assert "3bb"[..2] == "3b";
  }

  /** The parser with the evident intent: the whole normalised text is looked up among the known sizes. */
  function ParseParameterCount(paramSize: string): (r: int)
    ensures r >= 0
    ensures r != 0 <==> Normalize(paramSize) in KnownSizes
  {
    LookUpSize(Normalize(paramSize))
  }

  /** The look-up of normalised text among the known sizes; unknown text counts as 0. */
  function LookUpSize(s: string): (r: int)
    ensures r >= 0
    ensures r != 0 <==> s in KnownSizes
  {
    if s in KnownSizes then KnownSizes[s] else 0
  }

  /** Every listed size parses to its count, and the corrected parser agrees with the original on "7b". */
  lemma ParseKnownSizes()
    ensures ParseParameterCount("7b") == 7_000_000_000 == ParseParameterCountAsWritten("7b")
    ensures ParseParameterCount("3b") == 3_000_000_000
    ensures ParseParameterCount("1b") == 1_000_000_000
    ensures ParseParameterCount("1.7b") == 1_700_000_000
    ensures ParseParameterCount("135m") == 135_000_000
  {
    ParseSeven();
    AsWrittenSeven();
    ParseThree();
    ParseOne();
    ParseOnePointSeven();
    ParseMillions();
  }

  lemma ParseSeven()
    ensures ParseParameterCount("7b") == 7_000_000_000
  {
    ParsePlain("7b");
  }

  lemma ParseThree()
    ensures ParseParameterCount("3b") == 3_000_000_000
  {
    ParsePlain("3b");
  }

  lemma ParseOne()
    ensures ParseParameterCount("1b") == 1_000_000_000
  {
    ParsePlain("1b");
  }

  lemma ParseOnePointSeven()
    ensures ParseParameterCount("1.7b") == 1_700_000_000
  {
    ParsePlain("1.7b");
  }

  lemma ParseMillions()
    ensures ParseParameterCount("135m") == 135_000_000
  {
    ParsePlain("135m");
  }

  /** On normalised text the corrected parser is the plain look-up. */
  lemma ParsePlain(s: string)
    requires |s| > 0 && !Strs.IsSpace(s[0]) && !Strs.IsSpace(s[|s| - 1])
    requires forall i :: 0 <= i < |s| ==> !('A' <= s[i] <= 'Z')
    ensures ParseParameterCount(s) == LookUpSize(s)
  {
    NormalizePlain(s);
  }

  /** Letter case and surrounding space never matter. */
  lemma ParseIgnoresCaseAndSpace(paramSize: string)
    ensures ParseParameterCount(Strs.ToLower(paramSize)) == ParseParameterCount(paramSize)
    ensures ParseParameterCount(Strs.TrimSpace(paramSize)) == ParseParameterCount(paramSize)
  {
    NormalizeIgnoresCase(paramSize);
    Strs.TrimSpaceIdempotent(paramSize);
  }

  lemma NormalizeIgnoresCase(s: string)
    ensures Normalize(Strs.ToLower(s)) == Normalize(s)
  {
    TrimSpaceToLower(s);
    LowerIdempotent(Strs.TrimSpace(s));
  }

  lemma LowerIdempotent(s: string)
    ensures Strs.ToLower(Strs.ToLower(s)) == Strs.ToLower(s)
  {
  }

  /** Lower-casing does not touch spaces, so it commutes with trimming. */
  lemma {:induction false} TrimSpaceToLower(s: string)
    ensures Strs.TrimSpace(Strs.ToLower(s)) == Strs.ToLower(Strs.TrimSpace(s))
  {
    TrimLeftToLower(s);
    TrimRightToLower(Strs.TrimLeft(s));
  }

  lemma LowerCharSpace(c: char)
    ensures Strs.IsSpace(Strs.LowerChar(c)) == Strs.IsSpace(c)
  {
  }

  lemma {:induction false} TrimLeftToLower(s: string)
    ensures Strs.TrimLeft(Strs.ToLower(s)) == Strs.ToLower(Strs.TrimLeft(s))
    decreases |s|
  {
    if |s| > 0 {
      assert Strs.ToLower(s)[1..] == Strs.ToLower(s[1..]);
      LowerCharSpace(s[0]);
      if Strs.IsSpace(s[0]) {
        TrimLeftToLower(s[1..]);
      }
    }
  }

  lemma {:induction false} TrimRightToLower(s: string)
    ensures Strs.TrimRight(Strs.ToLower(s)) == Strs.ToLower(Strs.TrimRight(s))
    decreases |s|
  {
    if |s| > 0 {
      assert Strs.ToLower(s)[..|s| - 1] == Strs.ToLower(s[..|s| - 1]);
      LowerCharSpace(s[|s| - 1]);
      if Strs.IsSpace(s[|s| - 1]) {
        TrimRightToLower(s[..|s| - 1]);
      }
    }
  }

  /**
   * `IsMLXModelReference`: an mlx-community repository, a name containing
   * "-mlx" in any letter case, or a model already in the local cache.
   */
  predicate IsMLXModelReference(fs: Fs.FileSystem, modelsDir: string, name: string) {
    || Strs.StartsWith(name, "mlx-community/")
    || Strs.Contains(Strs.ToLower(name), "-mlx")
    || ModelCache.ModelExists(fs, modelsDir, name)
  }

  /** The name rules decide without looking at the cache. */
  lemma ReferenceByName(fs: Fs.FileSystem, modelsDir: string, name: string)
    requires Strs.StartsWith(name, "mlx-community/") || Strs.Contains(Strs.ToLower(name), "-mlx")
    ensures forall fs' :: IsMLXModelReference(fs', modelsDir, name)
  {
  }

  /** A name matching neither rule is a reference exactly when it is cached. */
  lemma ReferenceByCache(fs: Fs.FileSystem, modelsDir: string, name: string)
    requires !Strs.StartsWith(name, "mlx-community/") && !Strs.Contains(Strs.ToLower(name), "-mlx")
    ensures IsMLXModelReference(fs, modelsDir, name) <==> ModelCache.ModelExists(fs, modelsDir, name)
  {
  }

  /** A bare "-mlx" name routes to MLX even though it has no "/", as "llama-7b-mlx" shows. */
  lemma BareMlxNameIsReference(fs: Fs.FileSystem, modelsDir: string)
    ensures IsMLXModelReference(fs, modelsDir, "llama-7b-mlx")
  {
    var s := Strs.ToLower("llama-7b-mlx");
    assert s == "llama-7b-mlx";
    assert Strs.StartsWith(s[8..], "-mlx");
    Strs.ContainsAt(s, "-mlx", 8);
  }
}
