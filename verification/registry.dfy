/**
 * The registry of importers by file extension: every registration site
 * contributes a `SourceFileImporter`, and `get_source_importers` lists them
 * with the extension's leading dots stripped.
 */
module Registry {

  /**
   * `str::trim_start_matches(pat)`: removes `pat` from the front of `s` as
   * long as `s` starts with it. An empty pattern removes nothing.
   */
  function TrimStartMatches(s: string, pat: string): (r: string)
    ensures |r| <= |s|
    ensures pat == [] || !StartsWith(r, pat)
    decreases |s|
  {
    if pat != [] && StartsWith(s, pat) then TrimStartMatches(s[|pat|..], pat) else s
  }

  /** `str::starts_with(pat)` */
  predicate StartsWith(s: string, pat: string)
  {
    |pat| <= |s| && s[..|pat|] == pat
  }

  /** What is left is a suffix of the input. */
  lemma {:induction false} TrimStartMatchesIsSuffix(s: string, pat: string)
    ensures var r := TrimStartMatches(s, pat); r == s[|s| - |r|..]
    decreases |s|
  {
    if pat != [] && StartsWith(s, pat) {
      var rest := s[|pat|..];
      TrimStartMatchesIsSuffix(rest, pat);
      var r := TrimStartMatches(rest, pat);
      assert rest[|rest| - |r|..] == s[|s| - |r|..];
    }
  }

  /** `pat` written `n` times. */
  function Repeat(pat: string, n: nat): string
  {
    if n == 0 then [] else pat + Repeat(pat, n - 1)
  }

  /** What `TrimStartMatches` removes is a number of copies of the pattern. */
  lemma {:induction false} TrimStartMatchesStripsRepeats(s: string, pat: string) returns (n: nat)
    ensures s == Repeat(pat, n) + TrimStartMatches(s, pat)
    decreases |s|
  {
    if pat != [] && StartsWith(s, pat) {
      var rest := s[|pat|..];
      var m := TrimStartMatchesStripsRepeats(rest, pat);
      n := m + 1;
      var a, b := Repeat(pat, m), TrimStartMatches(rest, pat);
      assert Repeat(pat, n) == pat + a;
      assert TrimStartMatches(s, pat) == b;
      assert s == pat + rest;
      assert rest == a + b;
      assert (pat + a) + b == pat + (a + b);
    } else {
      n := 0;
    }
  }

  /**
   * Any number of copies of the pattern in front of a rest that does not
   * start with it are all removed; with the lemma above this characterises
   * the result completely.
   */
  lemma {:induction false} TrimStartMatchesOfRepeats(pat: string, n: nat, rest: string)
    requires pat != [] && !StartsWith(rest, pat)
    ensures TrimStartMatches(Repeat(pat, n) + rest, pat) == rest
  {
    if n > 0 {
      var s := Repeat(pat, n) + rest;
      assert s == pat + (Repeat(pat, n - 1) + rest);
      assert s[|pat|..] == Repeat(pat, n - 1) + rest;
      TrimStartMatchesOfRepeats(pat, n - 1, rest);
    }
  }

  /** Trimming twice is trimming once. */
  lemma TrimStartMatchesIdempotent(s: string, pat: string)
    ensures TrimStartMatches(TrimStartMatches(s, pat), pat) == TrimStartMatches(s, pat)
  {
  }

  /** A string that does not start with the pattern comes back unchanged. */
  lemma TrimStartMatchesNoMatch(s: string, pat: string)
    requires !StartsWith(s, pat)
    ensures TrimStartMatches(s, pat) == s
  {
  }

  /** All leading dots go, not only the first. */
  lemma TrimAllLeadingDots()
    ensures TrimStartMatches("..png", ".") == "png"
    ensures TrimStartMatches(".png", ".") == "png"
    ensures TrimStartMatches("png", ".") == "png"
    ensures TrimStartMatches("...", ".") == ""
  {
    assert !StartsWith("png", ".") by { DotPrefix("png"); }
    TrimStartMatchesOfRepeats(".", 2, "png");
    assert Repeat(".", 2) + "png" == "..png";
    TrimStartMatchesOfRepeats(".", 1, "png");
    assert Repeat(".", 1) + "png" == ".png";
    TrimStartMatchesOfRepeats(".", 3, "");
    assert Repeat(".", 3) + "" == "...";
  }

  /** A string starts with "." exactly when its first character is a dot. */
  lemma DotPrefix(t: string)
    ensures StartsWith(t, ".") <==> t != [] && t[0] == '.'
  {
  }

  /**
   * One registration: an extension and the constructor of a fresh erased
   * importer for it. `I` is the erased importer type.
   */
  datatype SourceFileImporter<I> = SourceFileImporter(extension: string, instantiator: () -> I)

  /**
   * `get_source_importers`: one pair per registration, in registration
   * order, each holding the normalised extension and an importer made by
   * that registration's own constructor.
   */
  function GetSourceImporters<I>(registry: seq<SourceFileImporter<I>>): (r: seq<(string, I)>)
    ensures |r| == |registry|
    ensures forall i :: 0 <= i < |r| ==>
              r[i].0 == TrimStartMatches(registry[i].extension, ".") && r[i].1 == registry[i].instantiator()
  {
    if registry == [] then []
    else [(TrimStartMatches(registry[0].extension, "."), registry[0].instantiator())] + GetSourceImporters(registry[1..])
  }

  /**
   * Every listed extension has no leading dot, is a suffix of the
   * registered one, equals it when that had no leading dot, and is left
   * alone by normalising again.
   */
  lemma {:induction false} NormalisedExtensions<I>(registry: seq<SourceFileImporter<I>>, i: nat)
    requires i < |registry|
    ensures var ext := GetSourceImporters(registry)[i].0;
            var registered := registry[i].extension;
            && (ext == [] || ext[0] != '.')
            && |ext| <= |registered| && ext == registered[|registered| - |ext|..]
            && (registered == [] || registered[0] != '.' ==> ext == registered)
            && TrimStartMatches(ext, ".") == ext
  {
    var ext := GetSourceImporters(registry)[i].0;
    var registered := registry[i].extension;
    assert ext == TrimStartMatches(registered, ".");
    DotPrefix(ext);
    DotPrefix(registered);
    TrimStartMatchesIsSuffix(registered, ".");
    if registered == [] || registered[0] != '.' {
      TrimStartMatchesNoMatch(registered, ".");
    }
    TrimStartMatchesIdempotent(registered, ".");
  }

  /** A registration of ".png" is listed as "png", with its own importer. */
  lemma DotPngListedAsPng<I>(make: () -> I)
    ensures GetSourceImporters([SourceFileImporter(".png", make)]) == [("png", make())]
  {
    TrimAllLeadingDots();
  }
}
