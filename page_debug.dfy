/** app/page-debug.tsx: the shared prototype controls with the standard
    camera offset, and an analysis of the loaded model that logs, per scene
    object, a one-word summary of its material, and stores the object count,
    the set of material types and whether the model has animation clips. */
module DebugPage {
  import opened Geometry
  import opened Wrappers
  import opened PrototypeControls

  datatype Material = Material(kind: string)

  /** What an object's `material` holds: nothing, one material, or an array
      whose entries may be missing. */
  datatype MaterialSlot =
    | NoMaterial
    | Single(material: Material)
    | Several(materials: seq<Option<Material>>)

  datatype SceneObject = SceneObject(name: string, isMesh: bool, slot: MaterialSlot)

  /** A material entry counts only with a non-empty type, as `mat[0]?.type`
      is otherwise falsy. */
  predicate NamedFirst(materials: seq<Option<Material>>) {
    |materials| > 0 && materials[0].Some? && materials[0].value.kind != ""
  }

  /** The `material` field of an object's record: "none" for a non-mesh or
      a mesh without material; for an array, the first entry's type or
      "array"; otherwise the material's type. */
  function MaterialSummary(o: SceneObject): (s: string)
    ensures !o.isMesh || o.slot.NoMaterial? ==> s == "none"
    ensures o.isMesh && o.slot.Single? ==> s == o.slot.material.kind
    ensures o.isMesh && o.slot.Several? && NamedFirst(o.slot.materials) ==>
              Some(Material(s)) == o.slot.materials[0]
    ensures o.isMesh && o.slot.Several? && !NamedFirst(o.slot.materials) ==> s == "array"
  {
    if !o.isMesh || o.slot.NoMaterial? then "none"
    else match o.slot
      case Single(m) => m.kind
      case Several(ms) =>
        if |ms| > 0 && ms[0].Some? && ms[0].value.kind != "" then ms[0].value.kind else "array"
  }

  /** A summary is "none", "array" or the type of one of the object's
      materials, and never depends on the material of a non-mesh. */
  lemma SummaryOrigin(o: SceneObject, other: MaterialSlot)
    ensures var s := MaterialSummary(o);
            s == "none" || s == "array"
            || (o.slot.Single? && s == o.slot.material.kind)
            || (o.slot.Several? && exists i :: 0 <= i < |o.slot.materials|
                                              && o.slot.materials[i] == Some(Material(s)))
    ensures !o.isMesh ==> MaterialSummary(o) == MaterialSummary(o.(slot := other))
  {
    var s := MaterialSummary(o);
    if o.isMesh && o.slot.Several? && NamedFirst(o.slot.materials) {
      assert o.slot.materials[0] == Some(Material(s));
    }
  }

  /** The type that the material set records for an object with a material:
      an array has no `type` of its own, so `undefined` is added, recorded
      as absent. */
  function TypeOf(slot: MaterialSlot): Option<string>
    requires !slot.NoMaterial?
  {
    if slot.Single? then Some(slot.material.kind) else None
  }

  /** The state `setDebugInfo` records (the bounding box is left out). */
  datatype DebugInfo = DebugInfo(objectCount: nat, materials: set<Option<string>>, hasAnimations: bool)

  /** The analysis effect over a traversal of the scene and the loaded
      clips (absent when the loader gives none). The result pairs the
      `material` column of the `objects` array, which is only logged, with
      the debug info the page stores, whose count is that array's length. */
  function Analyse<Clip>(objects: seq<SceneObject>, animations: Option<seq<Clip>>): (r: (seq<string>, DebugInfo))
    ensures |r.0| == |objects| == r.1.objectCount
    ensures forall i :: 0 <= i < |objects| ==> r.0[i] == MaterialSummary(objects[i])
    ensures forall i :: 0 <= i < |objects| && objects[i].slot.Single? ==>
              Some(objects[i].slot.material.kind) in r.1.materials
    ensures forall i :: 0 <= i < |objects| && objects[i].slot.Several? ==> None in r.1.materials
    ensures forall t :: t in r.1.materials ==>
              exists i :: 0 <= i < |objects| && !objects[i].slot.NoMaterial? && t == TypeOf(objects[i].slot)
    ensures r.1.hasAnimations <==> animations.Some? && |animations.value| > 0
  {
    var logged := seq(|objects|, i requires 0 <= i < |objects| => MaterialSummary(objects[i]));
    var materials := set i | 0 <= i < |objects| && !objects[i].slot.NoMaterial? :: TypeOf(objects[i].slot);
    var hasAnimations := animations.Some? && |animations.value| > 0;
    assert forall i :: 0 <= i < |objects| && !objects[i].slot.NoMaterial? ==>
             TypeOf(objects[i].slot) in materials;
    (logged, DebugInfo(|logged|, materials, hasAnimations))
  }

  method Mount(drone: Drone) returns (controls: Controls)
    ensures fresh(controls) && controls.Valid()
    ensures controls.drone == drone && controls.camOffset == StandardOffset
    ensures !controls.isFlying && !controls.isMouseDown
  {
    controls := new Controls(drone, StandardOffset);
  }
}
