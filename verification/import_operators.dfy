/** The import operator: which collection the Alembic import produced,
    which object is the reconstructed geometry, whether a texture can be
    applied, which cameras receive their photograph as background, and the
    `execute` that chains them after the folder check. The two copies in
    rc_metrics.py and operators/import_operators.py differ only in the
    latter's OpenCV availability check and in the material they build. */
module ImportOperators {
  import opened Wrappers
  import opened Strings
  import opened Scene
  import opened RcFolder
  import opened MetricsOperators

  /** Blender's own default collections, which the import never creates. */
  predicate IsImportedCollection(name: string) {
    name != "Collection" && name != "Scene Collection"
  }

  /** `import_abc`, after the Alembic import itself: the first collection
      that is not one of Blender's defaults, or `None`. */
  method ImportAbcCollection(collections: seq<string>) returns (r: Option<string>)
    ensures r.None? <==> forall i :: 0 <= i < |collections| ==> !IsImportedCollection(collections[i])
    ensures r.Some? ==>
              exists k :: 0 <= k < |collections| && collections[k] == r.value &&
                          IsImportedCollection(collections[k]) &&
                          forall j :: 0 <= j < k ==> !IsImportedCollection(collections[j])
  {
    var i := 0;
    while i < |collections|
      invariant 0 <= i <= |collections|
      invariant forall j :: 0 <= j < i ==> !IsImportedCollection(collections[j])
    {
      if collections[i] != "Collection" && collections[i] != "Scene Collection" {
        return Some(collections[i]);
      }
      i := i + 1;
    }
    return None;
  }

  /** The geometry test of `apply_texture`, case-insensitive. */
  predicate MatchesGeometry(o: SceneObject, geometryName: string) {
    ToLower(o.name) == ToLower(geometryName) || Contains(ToLower(o.name), "geom")
  }

  /** The geometry lookup of `apply_texture`: the first object whose name
      equals `geometryName` ignoring case or contains `geom`. */
  method FindGeometryObject(objects: seq<SceneObject>, geometryName: string) returns (geom: Option<SceneObject>)
    ensures geom.None? <==> forall i :: 0 <= i < |objects| ==> !MatchesGeometry(objects[i], geometryName)
    ensures geom.Some? ==>
              exists k :: 0 <= k < |objects| && objects[k] == geom.value &&
                          MatchesGeometry(objects[k], geometryName) &&
                          forall j :: 0 <= j < k ==> !MatchesGeometry(objects[j], geometryName)
  {
    geom := None;
    var i := 0;
    while i < |objects|
      invariant 0 <= i <= |objects|
      invariant geom.None?
      invariant forall j :: 0 <= j < i ==> !MatchesGeometry(objects[j], geometryName)
    {
      var lowered := ToLower(objects[i].name);
      if lowered == ToLower(geometryName) || Contains(lowered, "geom") {
        geom := Some(objects[i]);
        assert MatchesGeometry(objects[i], geometryName);
        break;
      }
      i := i + 1;
    }
  }

  /** Two names that differ only in the case of ASCII letters. */
  predicate SameIgnoringCase(a: string, b: string) {
    |a| == |b| && forall i :: 0 <= i < |a| ==> LowerChar(a[i]) == LowerChar(b[i])
  }

  /** An object named like the geometry, up to letter case, is a match. */
  lemma GeometryByName(o: SceneObject, geometryName: string)
    requires SameIgnoringCase(o.name, geometryName)
    ensures MatchesGeometry(o, geometryName)
  {
    assert ToLower(o.name) == ToLower(geometryName);
  }

  /** The geometry test ignores letter case, both in the object's name and
      in the geometry name asked for. */
  lemma GeometryIgnoresCase(o: SceneObject, a: string, b: string, g: string, h: string)
    requires SameIgnoringCase(a, b) && SameIgnoringCase(g, h)
    ensures MatchesGeometry(o.(name := a), g) <==> MatchesGeometry(o.(name := b), h)
  {
    assert ToLower(a) == ToLower(b);
    assert ToLower(g) == ToLower(h);
  }

  /** Any name containing `geom` in some letter case is accepted, whatever
      geometry name is asked for. */
  lemma GeometryByInfix(o: SceneObject, geometryName: string, i: nat)
    requires i + 4 <= |o.name| && ToLower(o.name[i..i + 4]) == "geom"
    ensures MatchesGeometry(o, geometryName)
  {
    var lowered := ToLower(o.name);
    assert lowered[i..i + 4] == ToLower(o.name[i..i + 4]);
    ContainsAt(lowered, "geom", i);
  }

  /** `apply_texture` up to the material setup, which is not modelled:
      `textureLoads` stands for whether Blender can load the texture file.
      Answers whether the texture was applied, and the path it was loaded from. */
  method ApplyTexture(objects: seq<SceneObject>, folder: string, textureFile: Option<string>,
                      geometryName: string, textureLoads: bool)
    returns (applied: bool, texturePath: Option<string>)
    ensures applied <==>
              textureFile.Some? && textureFile.value != "" &&
              (exists i :: 0 <= i < |objects| && MatchesGeometry(objects[i], geometryName)) &&
              textureLoads
    ensures texturePath.Some? ==>
              textureFile.Some? && texturePath.value == Join(folder, textureFile.value)
    ensures textureFile.None? || textureFile.value == "" ==> texturePath.None?
  {
    if textureFile.None? || textureFile.value == "" {
      return false, None;
    }
    var geom := FindGeometryObject(objects, geometryName);
    if geom.None? {
      return false, None;
    }
    texturePath := Some(Join(folder, textureFile.value));
    if !textureLoads {
      return false, texturePath;
    }
    applied := true;
  }

  /** Whether `setup_cameras` gives this object its photograph as background. */
  predicate GetsBackground(o: SceneObject, folder: string, pngFiles: seq<string>, loads: string -> bool) {
    IsCamera(o) && o.name in pngFiles && loads(Join(folder, o.name))
  }

  /** `setup_cameras`: fails when the first photograph cannot be read;
      otherwise every camera named like a photograph whose file Blender can
      load (`loads`) gets it as background image, and no other object changes. */
  method SetupCameras(objects: seq<SceneObject>, folder: string, pngFiles: seq<string>,
                      firstImageReadable: bool, loads: string -> bool)
    returns (ok: bool, updated: seq<SceneObject>)
    requires pngFiles != []
    ensures ok == firstImageReadable
    ensures |updated| == |objects|
    ensures forall i :: 0 <= i < |objects| ==>
              updated[i] == if ok && GetsBackground(objects[i], folder, pngFiles, loads)
                            then objects[i].(hasBackground := true) else objects[i]
  {
    if !firstImageReadable {
      return false, objects;
    }
    updated := [];
    var i := 0;
    while i < |objects|
      invariant 0 <= i <= |objects|
      invariant |updated| == i
      invariant forall j :: 0 <= j < i ==>
                  updated[j] == if GetsBackground(objects[j], folder, pngFiles, loads)
                                then objects[j].(hasBackground := true) else objects[j]
    {
      var obj := objects[i];
      if obj.kind == Camera && obj.name in pngFiles && loads(Join(folder, obj.name)) {
        obj := obj.(hasBackground := true);
      }
      updated := updated + [obj];
      i := i + 1;
    }
    ok := true;
  }

  /** `RCMETRICS_OT_ImportRC.execute`: cancel without OpenCV (only the
      operators/ copy checks), without an RC folder or when the folder check
      fails; otherwise import the Alembic file, whose result is the scene's
      `collections` and `objects` afterwards, set up the cameras, cancelling
      when that fails, and apply the texture when the folder has one (its
      failure does not cancel). */
  method ImportRc(cvAvailable: bool, folder: string, folderExists: bool, listing: seq<string>,
                  collections: seq<string>, objects: seq<SceneObject>,
                  firstImageReadable: bool, loads: string -> bool, textureLoads: bool)
    returns (status: Status, abcPath: Option<string>, collection: Option<string>,
             updated: seq<SceneObject>, textureApplied: bool)
    ensures var check := CheckRcFolderStructure(folderExists, listing);
            && (abcPath.Some? <==> cvAvailable && folder != "" && check.Some?)
            && (abcPath.Some? ==> abcPath.value == Join(folder, check.value.abcFile))
            && (status == Finished <==> abcPath.Some? && firstImageReadable)
            && (status != Finished ==> status == Cancelled && updated == objects && !textureApplied)
    ensures status == Finished ==>
              var contents := CheckRcFolderStructure(folderExists, listing).value;
              && |updated| == |objects|
              && (forall i :: 0 <= i < |objects| ==>
                    updated[i] == if GetsBackground(objects[i], folder, contents.pngFiles, loads)
                                  then objects[i].(hasBackground := true) else objects[i])
              && (textureApplied <==>
                    contents.textureFile.Some? &&
                    (exists i :: 0 <= i < |updated| && MatchesGeometry(updated[i], "geometry")) &&
                    textureLoads)
    ensures collection.Some? ==> abcPath.Some? && collection.value in collections &&
                                 IsImportedCollection(collection.value)
  {
    updated, textureApplied, collection := objects, false, None;
    if !cvAvailable || folder == "" {
      return Cancelled, None, None, objects, false;
    }
    var check := CheckRcFolderStructure(folderExists, listing);
    if check.None? {
      return Cancelled, None, None, objects, false;
    }
    var contents := check.value;
    abcPath := Some(Join(folder, contents.abcFile));
    collection := ImportAbcCollection(collections);
    var ok;
    ok, updated := SetupCameras(objects, folder, contents.pngFiles, firstImageReadable, loads);
    if !ok {
      return Cancelled, abcPath, collection, objects, false;
    }
    if contents.textureFile.Some? {
      var texturePath;
      textureApplied, texturePath := ApplyTexture(updated, folder, contents.textureFile, "geometry", textureLoads);
    }
    status := Finished;
  }
}
