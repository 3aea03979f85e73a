/** Path helpers of utils/file_utils.py. The file system is an input: a
    set of existing paths, or a directory's existence flag and listing. */
module FileUtils {
  import opened Wrappers
  import opened Seqs
  import opened Strings

  /** The `k`-th path `get_valid_filepath` tries: `base.ext`, then
      `base_1.ext`, `base_2.ext`, ... */
  function Candidate(base: string, ext: string, k: nat): string {
    if k == 0 then base + "." + ext else base + "_" + NatToString(k) + "." + ext
  }

  /** Different attempts name different files. */
  lemma CandidateInjective(base: string, ext: string, m: nat, n: nat)
    requires Candidate(base, ext, m) == Candidate(base, ext, n)
    ensures m == n
  {
    var cm, cn := Candidate(base, ext, m), Candidate(base, ext, n);
    if m != 0 && n != 0 {
      var pre, post := base + "_", "." + ext;
      var sm, sn := NatToString(m), NatToString(n);
      assert cm == pre + sm + post && cn == pre + sn + post;
      assert |sm| == |sn|;
      assert cm[|pre|..|pre| + |sm|] == sm;
      assert cn[|pre|..|pre| + |sn|] == sn;
      NatToStringInjective(m, n);
    }
  }

  /** The paths tried before attempt `n`. */
  ghost function Tried(base: string, ext: string, n: nat): set<string> {
    if n == 0 then {} else Tried(base, ext, n - 1) + {Candidate(base, ext, n - 1)}
  }

  lemma {:induction false} TriedExactly(base: string, ext: string, n: nat)
    ensures |Tried(base, ext, n)| == n
    ensures forall m :: m >= n ==> Candidate(base, ext, m) !in Tried(base, ext, n)
    ensures forall j :: 0 <= j < n ==> Candidate(base, ext, j) in Tried(base, ext, n)
  {
    if n > 0 {
      TriedExactly(base, ext, n - 1);
      var before, last := Tried(base, ext, n - 1), Candidate(base, ext, n - 1);
      assert Tried(base, ext, n) == before + {last};
      assert last !in before;
      assert |before + {last}| == |before| + 1;
      forall m | m >= n ensures Candidate(base, ext, m) != last {
        if Candidate(base, ext, m) == last {
          CandidateInjective(base, ext, m, n - 1);
        }
      }
    }
  }

  /** `get_valid_filepath`: the first of `directory/filename.ext`,
      `directory/filename_1.ext`, ... that does not exist yet. Terminates
      because every attempt is a new path and only finitely many exist. */
  method GetValidFilepath(directory: string, filename: string, ext: string, existing: set<string>)
    returns (path: string)
    ensures path !in existing
    ensures exists k: nat :: path == Candidate(Join(directory, filename), ext, k) &&
                             forall j :: 0 <= j < k ==> Candidate(Join(directory, filename), ext, j) in existing
  {
    var base := Join(directory, filename);
    path := base + "." + ext;
    var counter: nat := 1;
    while path in existing
      invariant path == Candidate(base, ext, counter - 1)
      invariant Tried(base, ext, counter - 1) <= existing
      invariant counter - 1 <= |existing|
      decreases |existing| - (counter - 1)
    {
      TriedStep(base, ext, counter - 1, existing);
      path := base + "_" + NatToString(counter) + "." + ext;
      counter := counter + 1;
    }
    TriedExactly(base, ext, counter - 1);
  }

  /** One more existing attempt: the tried paths are one more distinct
      existing path, so there cannot be more attempts than existing paths. */
  lemma TriedStep(base: string, ext: string, n: nat, existing: set<string>)
    requires Tried(base, ext, n) <= existing && Candidate(base, ext, n) in existing
    ensures Tried(base, ext, n + 1) <= existing
    ensures n + 1 <= |existing|
  {
    TriedExactly(base, ext, n + 1);
    SubsetCard(Tried(base, ext, n + 1), existing);
  }

  lemma SubsetCard<T>(a: set<T>, b: set<T>)
    requires a <= b
    ensures |a| <= |b|
  {
    assert b == a + (b - a);
  }

  /** `find_file_by_extension`: no files for a missing directory, otherwise
      the listed names ending in `.ext`, in listing order. */
  function FindFileByExtension(dirExists: bool, listing: seq<string>, ext: string): (r: seq<string>)
    ensures !dirExists ==> r == []
    ensures forall f :: f in r <==> dirExists && f in listing && EndsWith(f, "." + ext)
  {
    if !dirExists then []
    else
      var p := (f: string) => EndsWith(f, "." + ext);
      FilterMembershipAll(listing, p);
      Filter(listing, p)
  }

  /** The listing's order is kept: the matches in `a + b` are the matches
      in `a` followed by the matches in `b`, and a single name is kept iff
      it ends in `.ext`. */
  lemma FindFileByExtensionInOrder(a: seq<string>, b: seq<string>, f: string, ext: string)
    ensures FindFileByExtension(true, a + b, ext) ==
            FindFileByExtension(true, a, ext) + FindFileByExtension(true, b, ext)
    ensures FindFileByExtension(true, [f], ext) == if EndsWith(f, "." + ext) then [f] else []
  {
    var p := (n: string) => EndsWith(n, "." + ext);
    FilterAppend(a, b, p);
    assert [f][1..] == [];
  }

  /** `get_default_output_path`: `metrics_output` inside the RC folder, or
      beside the .blend file (`blendDir`, empty when unsaved), or
      `blender_rc_metrics` in the temporary directory; a non-empty subfolder
      is appended. Creating the directory is not modelled. */
  function GetDefaultOutputPath(rcFolder: string, subfolder: Option<string>, blendDir: string, tempDir: string): (r: string)
    ensures subfolder.Some? && subfolder.value != "" ==> EndsWith(r, subfolder.value)
    ensures rcFolder != "" && (subfolder.None? || subfolder.value == "") ==>
              r == Join(rcFolder, "metrics_output")
    ensures rcFolder != "" && subfolder.Some? && !StartsWith(subfolder.value, "/") ==>
              StartsWith(r, Join(rcFolder, "metrics_output"))
  {
    var outputPath :=
      if rcFolder == "" then
        (if blendDir != "" then Join(blendDir, "metrics_output") else Join(tempDir, "blender_rc_metrics"))
      else Join(rcFolder, "metrics_output");
    if subfolder.Some? && subfolder.value != "" then
      JoinEnds(outputPath, subfolder.value);
      Join(outputPath, subfolder.value)
    else outputPath
  }

  /** With a non-empty subfolder, the path is exactly the subfolder joined
      onto the fallback chosen for the base folder. */
  lemma DefaultOutputPathWithSubfolder(rcFolder: string, s: string, blendDir: string, tempDir: string)
    requires s != ""
    ensures rcFolder != "" ==>
              GetDefaultOutputPath(rcFolder, Some(s), blendDir, tempDir) == Join(Join(rcFolder, "metrics_output"), s)
    ensures rcFolder == "" && blendDir != "" ==>
              GetDefaultOutputPath(rcFolder, Some(s), blendDir, tempDir) == Join(Join(blendDir, "metrics_output"), s)
    ensures rcFolder == "" && blendDir == "" ==>
              GetDefaultOutputPath(rcFolder, Some(s), blendDir, tempDir) == Join(Join(tempDir, "blender_rc_metrics"), s)
  {
  }
}
