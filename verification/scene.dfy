/** The part of Blender's scene data the add-on reads: objects with a
    name, a type, the collections they belong to and whether their camera
    data carries a background image. */
module Scene {
  import opened Wrappers
  import opened Seqs

  datatype ObjectType = Camera | Mesh | OtherType

  datatype SceneObject = SceneObject(
    name: string,
    kind: ObjectType,
    collections: seq<string>,
    hasBackground: bool)

  predicate IsCamera(o: SceneObject) {
    o.kind == Camera
  }

  predicate IsMesh(o: Option<SceneObject>) {
    o.Some? && o.value.kind == Mesh
  }

  /** `bpy.data.objects.get(name)`: the object with that name, if any.
      Blender keeps object names unique; the first match is taken. */
  function Lookup(objects: seq<SceneObject>, name: string): (r: Option<SceneObject>)
    ensures r.Some? ==> r.value in objects && r.value.name == name
    ensures r.None? ==> forall o :: o in objects ==> o.name != name
  {
    var k := FirstIndex(objects, (o: SceneObject) => o.name == name);
    if k < |objects| then Some(objects[k]) else None
  }
}
