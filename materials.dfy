/**
 * Material-slot helpers of materials.py: copying a source object's slots onto
 * a target object, and appending a material to a data block's material list.
 */
module Materials {
  import opened Wrappers
  import opened Host

  /**
   * `sync(source, target)`: slot by slot, the target's slot takes the source
   * slot's material, appending a slot when the target has none at that
   * position, and then the source slot's link mode. Target slots past the
   * source's count are left alone.
   */
  method Sync(source: seq<Slot>, target: seq<Slot>) returns (r: seq<Slot>)
    ensures |r| == if |source| > |target| then |source| else |target|
    ensures forall i :: 0 <= i < |source| ==> r[i] == source[i]
    ensures forall i :: |source| <= i < |target| ==> r[i] == target[i]
  {
    r := target;
    var index := 0;
    while index < |source|
      invariant 0 <= index <= |source|
      invariant |r| == if index > |target| then index else |target|
      invariant forall i :: 0 <= i < index ==> r[i] == source[i]
      invariant forall i :: index <= i < |r| ==> r[i] == target[i]
    {
      if index < |r| {
        r := r[index := r[index].(material := source[index].material)];
      } else {
        // the IndexError branch: `data.materials.append(material)` adds a slot
        r := r + [Slot(source[index].material, LinkData)];
      }
      r := r[index := r[index].(link := source[index].link)];
      index := index + 1;
    }
  }

  /** `sync` applied to two objects of the session: only the target's slots change. */
  method SyncObjects(w: Session, source: string, target: string)
    requires w.Valid() && source in w.objects && target in w.objects
    modifies w`objects
    ensures w.Valid()
    ensures target in w.objects && w.objects == old(w.objects)[target := old(w.objects)[target].(slots := w.objects[target].slots)]
    ensures var s, t, r := old(w.objects)[source].slots, old(w.objects)[target].slots, w.objects[target].slots;
      |r| == (if |s| > |t| then |s| else |t|) &&
      (forall i :: 0 <= i < |s| ==> r[i] == s[i]) &&
      (forall i :: |s| <= i < |t| ==> r[i] == t[i])
  {
    var slots := Sync(w.objects[source].slots, w.objects[target].slots);
    w.objects := w.objects[target := w.objects[target].(slots := slots)];
  }

  /**
   * `assign(data, material, index)` as written: without an index the material
   * is appended. With an index, the guard `len(data.materials > index)`
   * compares a material list with a number and raises TypeError before
   * anything changes.
   */
  function AssignAsWritten(materials: seq<Option<string>>, material: Option<string>, index: Option<int>): (r: Result<seq<Option<string>>, PyError>)
    ensures index.None? ==> r == Assign(materials, material, index)
    ensures index.Some? ==> r == Err(TypeError)
  {
    if index.Some? then Err(TypeError) else Ok(materials + [material])
  }

  /** The discrepancy: asking for the one existing slot raises TypeError as written, while the corrected call fills that slot. */
  lemma AssignSlotRaises()
    ensures AssignAsWritten([None], Some("m"), Some(0)) == Err(TypeError)
    ensures Assign([None], Some("m"), Some(0)) == Ok([Some("m")])
  {
    assert [None][0 := Some("m")] == [Some("m")];
  }

  /**
   * `assign`, corrected to the guard `len(data.materials) > index`: a requested
   * slot that exists takes the material in place (a negative index counts from
   * the end, and one below minus the slot count raises IndexError); without an
   * index, or with one past the last slot, the material is appended.
   */
  function Assign(materials: seq<Option<string>>, material: Option<string>, index: Option<int>): (r: Result<seq<Option<string>>, PyError>)
    ensures r.Err? <==> index.Some? && index.value < -|materials|
    ensures r.Err? ==> r.error == IndexError
    ensures r.Ok? ==> material in r.value && |materials| <= |r.value| <= |materials| + 1
    ensures r.Ok? ==> forall i :: 0 <= i < |materials| && r.value[i] != materials[i] ==> r.value[i] == material
    ensures index.None? ==> r == Ok(materials + [material])
    ensures index.Some? && -|materials| <= index.value < |materials| ==> r.Ok? && |r.value| == |materials|
  {
    if index.Some? && index.value < |materials| then
      if index.value >= -|materials| then
        var at := if index.value >= 0 then index.value else |materials| + index.value;
        var r := materials[at := material];
        assert r[at] == material;
        Ok(r)
      else Err(IndexError)
    else
      var r := materials + [material];
      assert r[|materials|] == material;
      Ok(r)
  }
}
