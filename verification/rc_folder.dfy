/** The layout of a RealityCapture result folder: one Alembic file, the
    photographs as `.png` files, and optionally a `*_diffuse.png` texture.
    A folder is given as whether it exists plus its directory listing. */
module RcFolder {
  import opened Wrappers
  import opened Seqs
  import opened Strings

  predicate IsAbc(f: string) {
    EndsWith(f, ".abc")
  }

  predicate IsTexture(f: string) {
    EndsWith(f, "_diffuse.png")
  }

  /** A photograph: a `.png` that is not the diffuse texture. */
  predicate IsImage(f: string) {
    EndsWith(f, ".png") && !IsTexture(f)
  }

  predicate NotTexture(f: string) {
    !IsTexture(f)
  }

  lemma AbcIsNotImage(f: string)
    ensures IsAbc(f) ==> !IsImage(f) && NotTexture(f)
  {
    if IsAbc(f) {
      assert f[|f| - 1] == f[|f| - 4..][3] == 'c';
    }
  }

  /** What a successful check hands to the importer. */
  datatype FolderContents = FolderContents(abcFile: string, pngFiles: seq<string>, textureFile: Option<string>)

  /** `check_rc_folder_structure`; `None` stands for its `False` return.
      The folder must exist, list an `.abc` file and at least two images;
      a missing texture is only a warning. */
  function CheckRcFolderStructure(folderExists: bool, listing: seq<string>): (r: Option<FolderContents>)
    ensures r.Some? ==> IsAbc(r.value.abcFile) && |r.value.pngFiles| >= 2
    ensures r.Some? && r.value.textureFile.Some? ==> IsTexture(r.value.textureFile.value)
  {
    if !folderExists then None
    else
      var abcFiles := Filter(listing, IsAbc);
      if abcFiles == [] then None
      else
        var pngFiles := Filter(listing, IsImage);
        if |pngFiles| < 2 then None
        else
          var textureFiles := Filter(listing, IsTexture);
          FilterAll(listing, IsAbc);
          FilterAll(listing, IsTexture);
          Some(FolderContents(abcFiles[0], pngFiles,
                              if textureFiles == [] then None else Some(textureFiles[0])))
  }

  /** The check succeeds exactly when the folder exists, some listed name
      ends in `.abc`, and two different positions of the listing hold
      images. */
  lemma CheckRcFolderStructureAccepts(folderExists: bool, listing: seq<string>)
    ensures CheckRcFolderStructure(folderExists, listing).Some? <==>
            folderExists &&
            (exists i :: 0 <= i < |listing| && IsAbc(listing[i])) &&
            (exists i, j :: 0 <= i < j < |listing| && IsImage(listing[i]) && IsImage(listing[j]))
  {
    FilterEmpty(listing, IsAbc);
    FilterAtLeastTwo(listing, IsImage);
  }

  /** On success: the Alembic file is the first one listed, the images are
      exactly the listed images, none of them is the Alembic file, and the
      texture is the first listed texture, absent only when none is listed. */
  lemma CheckRcFolderStructureContents(folderExists: bool, listing: seq<string>)
    requires CheckRcFolderStructure(folderExists, listing).Some?
    ensures var c := CheckRcFolderStructure(folderExists, listing).value;
            var k := FirstIndex(listing, IsAbc);
            && k < |listing| && c.abcFile == listing[k]
            && (forall f :: f in c.pngFiles <==> f in listing && IsImage(f))
            && c.abcFile !in c.pngFiles
            && (c.textureFile.None? <==> forall i :: 0 <= i < |listing| ==> !IsTexture(listing[i]))
            && (c.textureFile.Some? ==> c.textureFile.value == listing[FirstIndex(listing, IsTexture)])
  {
    var c := CheckRcFolderStructure(folderExists, listing).value;
    FilterHead(listing, IsAbc);
    FilterHead(listing, IsTexture);
    FilterEmpty(listing, IsTexture);
    forall f ensures f in c.pngFiles <==> f in listing && IsImage(f) {
      FilterMembership(listing, IsImage, f);
    }
    AbcIsNotImage(c.abcFile);
  }

  /** `test_analyze_rc_folder`: the same three checks, answering `True`
      (here `true`) on success and `None` (here `false`) otherwise. */
  function AnalyzeRcFolder(folderExists: bool, listing: seq<string>): (ok: bool)
    ensures !folderExists ==> !ok
    ensures (forall i :: 0 <= i < |listing| ==> !IsAbc(listing[i])) ==> !ok
    ensures |Filter(listing, IsImage)| < 2 ==> !ok
  {
    if !folderExists then false
    else
      var abcFiles := Filter(listing, IsAbc);
      FilterEmpty(listing, IsAbc);
      if abcFiles == [] then false
      else
        var pngFiles := Filter(listing, IsImage);
        if |pngFiles| < 2 then false
        else true
  }

  /** The stand-alone analysis and the importer's check agree on every folder. */
  lemma AnalyzeAgreesWithCheck(folderExists: bool, listing: seq<string>)
    ensures AnalyzeRcFolder(folderExists, listing) <==> CheckRcFolderStructure(folderExists, listing).Some?
  {
  }

  /** Texture files never decide the verdict: dropping every texture from
      the listing leaves the answer unchanged. */
  lemma AnalyzeIgnoresTextures(folderExists: bool, listing: seq<string>)
    ensures AnalyzeRcFolder(folderExists, Filter(listing, NotTexture)) == AnalyzeRcFolder(folderExists, listing)
  {
    forall x | IsAbc(x) ensures NotTexture(x) {
      AbcIsNotImage(x);
    }
    FilterFilter(listing, IsAbc, NotTexture);
    FilterFilter(listing, IsImage, NotTexture);
  }

  /** The file a camera's render is saved as: the camera name up to its
      first `.`, then `_render.png`. */
  function RenderFileName(cameraName: string): (r: string)
    ensures EndsWith(r, "_render.png")
    ensures StartsWith(cameraName, r[..|r| - 11]) && '.' !in r[..|r| - 11]
  {
    var stem := BeforeFirst(cameraName, '.');
    assert (stem + "_render.png")[..|stem|] == stem;
    EndsWithConcat(stem, "_render.png");
    stem + "_render.png"
  }

  /** A photograph's camera `stem.png` renders to `stem_render.png`, and a
      name without a dot keeps all of it. */
  lemma RenderFileNameOfPhoto(stem: string, ext: string)
    requires '.' !in stem
    ensures RenderFileName(stem + "." + ext) == stem + "_render.png"
    ensures RenderFileName(stem) == stem + "_render.png"
  {
    BeforeFirstStops(stem, ext);
    BeforeFirstWhole(stem);
  }

  lemma {:induction false} BeforeFirstStops(stem: string, ext: string)
    requires '.' !in stem
    ensures BeforeFirst(stem + "." + ext, '.') == stem
    decreases |stem|
  {
    if stem != [] {
      assert (stem + "." + ext)[1..] == stem[1..] + "." + ext;
      BeforeFirstStops(stem[1..], ext);
    }
  }

  lemma {:induction false} BeforeFirstWhole(s: string)
    requires '.' !in s
    ensures BeforeFirst(s, '.') == s
    decreases |s|
  {
    if s != [] {
      BeforeFirstWhole(s[1..]);
    }
  }
}
