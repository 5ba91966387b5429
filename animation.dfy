/**
 * The animation operators of animation.py: turning a mesh into a stop-motion
 * object, appending a shot to its frame store and keying the index on it, and
 * the "next or add" step that jumps to the next key or makes a new one.
 *
 * Each operation is a method on the session, specified by a pure function of
 * the state before it (`Inserted`, `Initialized`, `NextOrAddPlan`); the lemmas
 * state what those functions promise.
 */
module Animation {
  import opened Wrappers
  import opened PyList
  import opened Host
  import opened ModifierData
  import Modes
  import Version

  /** `StopMotionOperator.poll` of this file: an active object with a StopMotion modifier; it agrees with the shared poll of modifier_data.py. */
  function OperatorPoll(active: Option<string>, objects: map<string, Obj>): (r: bool)
    requires active.Some? ==> active.value in objects
    ensures r <==> Poll(active, objects) == Enabled
  {
    active.Some? && IsStopMotion(Some(objects[active.value]))
  }

  // ---------------------------------------------------------------------
  // insert_keyframe
  // ---------------------------------------------------------------------

  /** The outcome of `insert_keyframe`: the error raised, if any, and the objects, collections, next data id and mode after it. */
  datatype Insertion = Insertion(err: Option<PyError>, objects: map<string, Obj>, collections: map<string, Coll>,
                                 nextData: DataId, mode: Mode)

  /** The active object, when there is one, exists, and so do its store and every shot in it. */
  predicate ActiveKnown(collections: map<string, Coll>, objects: map<string, Obj>, active: Option<string>)
  {
    active.Some? ==> Modes.StoreKnown(collections, objects, active.value)
  }

  /**
   * The data a new shot of object `n` is made from, and whether it is copied:
   * the given source (copied when `use_copy`), or else the data of the shot at
   * the current index, always copied. A missing current shot is a KeyError.
   */
  function ShotData(collections: map<string, Coll>, objects: map<string, Obj>, n: string,
                    source: Option<DataId>, useCopy: bool): (r: Result<(DataId, bool), PyError>)
    requires Modes.StoreKnown(collections, objects, n) && Find(objects[n]).Some?
    ensures source.Some? ==> r == Ok((source.value, useCopy))
    ensures source.None? ==> (r.Ok? <==> GetObject(collections, n, objects[n], None).Ok?)
    ensures source.None? && r.Ok? ==> r.value == (objects[GetObject(collections, n, objects[n], None).value].data, true)
  {
    if source.Some? then Ok((source.value, useCopy))
    else match GetObject(collections, n, objects[n], None)
      case Err(e) => Err(e)
      case Ok(s) => Ok((objects[s].data, true))
  }

  /**
   * `insert_keyframe(context, source_data, use_copy)`: nothing happens without
   * an active object or without a StopMotion modifier. Otherwise the object
   * leaves a sub-object mode; the new shot is named after the store's size,
   * made from the source data (or a copy) and linked into the store; the index
   * becomes the old store size and is keyed at the current frame; the object
   * takes the new shot's data and returns to its mode. A missing store raises
   * AttributeError, a missing current shot KeyError, both after the switch to
   * OBJECT mode and before anything else changes.
   */
  function Inserted(collections: map<string, Coll>, objects: map<string, Obj>, nextData: DataId,
                    active: Option<string>, mode: Mode, frame: int, source: Option<DataId>, useCopy: bool): (r: Insertion)
    requires ActiveKnown(collections, objects, active)
    ensures r.err.Some? ==> r.objects == objects && r.collections == collections && r.nextData == nextData && r.mode == Object
  {
    if active.None? || Find(objects[active.value]).None? then Insertion(None, objects, collections, nextData, mode)
    else
      var n := active.value;
      var o := objects[n];
      if Collection(o).None? then Insertion(Some(AttributeError), objects, collections, nextData, Object)
      else
        var c := Collection(o).value;
        var store := collections[c].objects;
        match ShotData(collections, objects, n, source, useCopy)
        case Err(e) => Insertion(Some(e), objects, collections, nextData, Object)
        case Ok((src, copy)) =>
          var (objs, colls, next) := Appended(collections, objects, nextData, n, c, Version.FrameName(|store|, n), src, copy, frame);
          Insertion(None, objs, colls, next, mode)
  }

  /** `insert_keyframe`, run on the session. */
  method InsertKeyframe(w: Session, source: Option<DataId>, useCopy: bool) returns (err: Option<PyError>)
    requires ActiveKnown(w.collections, w.objects, w.active)
    modifies w`mode, w`objects, w`collections, w`nextData
    ensures Insertion(err, w.objects, w.collections, w.nextData, w.mode) ==
      Inserted(old(w.collections), old(w.objects), old(w.nextData), old(w.active), old(w.mode), old(w.frameCurrent), source, useCopy)
  {
    if w.active.None? {
      return None;
    }
    var n := w.active.value;
    if Handle(Some(w.objects[n])).None? {
      return None;
    }
    var mode := w.mode;
    Modes.SetObject(w, mode);
    var c := Collection(w.objects[n]);
    if c.None? {
      return Some(AttributeError);
    }
    var src := ShotData(w.collections, w.objects, n, source, useCopy);
    if src.Err? {
      return Some(src.error);
    }
    AppendFrom(w, n, c.value, Version.FrameName(|w.collections[c.value].objects|, n), src.value.0, src.value.1);
    Modes.Restore(w, mode);
    err := None;
  }

  /**
   * The objects, collections and next data id after lines 112-123 of
   * `insert_keyframe` append a shot named `base` (or a fresh variant of it) to
   * store `c` of object `n`, made from data `src` (copied when `copy`).
   */
  function Appended(collections: map<string, Coll>, objects: map<string, Obj>, nextData: DataId,
                    n: string, c: string, base: string, src: DataId, copy: bool, frame: int): (r: (map<string, Obj>, map<string, Coll>, DataId))
    requires n in objects && Find(objects[n]).Some? && c in collections
  {
    var store := collections[c].objects;
    var d := if copy then nextData else src;
    var shape := FreshName(base, objects.Keys);
    var next: DataId := if copy then nextData + 1 else nextData;
    (objects[shape := NewObj(d)][n := Shown(objects[n], n, |store|, frame, d)],
     collections[c := collections[c].(objects := store + [shape])],
     next)
  }

  /** Lines 112-123 of `insert_keyframe` once the store `c`, the new shot's name and the source data are known. */
  method AppendFrom(w: Session, n: string, c: string, base: string, src: DataId, copy: bool)
    requires n in w.objects && Find(w.objects[n]).Some? && c in w.collections
    requires forall s :: s in w.collections[c].objects ==> s in w.objects
    modifies w`objects, w`collections, w`nextData
    ensures (w.objects, w.collections, w.nextData) ==
      Appended(old(w.collections), old(w.objects), old(w.nextData), n, c, base, src, copy, old(w.frameCurrent))
  {
    var d := src;
    if copy {
      d := w.CopyData(d);
    }
    AppendShot(w, n, c, base, d);
  }

  /** Object `o` named `objName` showing shot `index`, keyed at `frame`, with data `d`. */
  function Shown(o: Obj, objName: string, index: int, frame: int, d: DataId): Obj
    requires Find(o).Some?
  {
    Keyed(WithIndex(o, index), objName, frame).(data := d)
  }

  /**
   * Lines 117-123 of `insert_keyframe` once the store `c`, the new shot's name
   * `base` and its data `d` are known: makes the new shot (under `base` or a
   * fresh variant of it), links it into the store, and shows it on object `n`
   * as the shot at the old store size.
   */
  method AppendShot(w: Session, n: string, c: string, base: string, d: DataId)
    requires n in w.objects && Find(w.objects[n]).Some? && c in w.collections
    requires forall s :: s in w.collections[c].objects ==> s in w.objects
    modifies w`objects, w`collections
    ensures var store := old(w.collections)[c].objects;
      var shape := FreshName(base, old(w.objects).Keys);
      w.objects == old(w.objects)[shape := NewObj(d)][n := Shown(old(w.objects)[n], n, |store|, old(w.frameCurrent), d)] &&
      w.collections == old(w.collections)[c := old(w.collections)[c].(objects := store + [shape])]
  {
    var store := w.collections[c].objects;
    var shape := w.NewObject(base, d);
    w.Link(c, shape);
    ShowShot(w, n, |store|, d);
  }

  /** Lines 120-123 of `insert_keyframe`: sets the index, keys it at the current frame and gives the object data `d`. */
  method ShowShot(w: Session, n: string, index: int, d: DataId)
    requires n in w.objects && Find(w.objects[n]).Some?
    modifies w`objects
    ensures w.objects == old(w.objects)[n := Shown(old(w.objects)[n], n, index, old(w.frameCurrent), d)]
  {
    var o := WithIndex(w.objects[n], index);
    o := KeyObject(o, n, w.frameCurrent);
    w.objects := w.objects[n := o.(data := d)];
  }

  /** The objects and stores of a consistent session are known to `insert_keyframe`. */
  lemma ConsistentActiveKnown(active: Option<string>, objects: map<string, Obj>, selected: seq<string>,
                              collections: map<string, Coll>, nextData: DataId)
    requires Consistent(active, objects, selected, collections, nextData)
    ensures ActiveKnown(collections, objects, active)
  {
    if active.Some? && Collection(objects[active.value]).Some? {
      var o := objects[active.value];
      assert o.modifiers[Find(o).value].collection.Some?;
    }
  }

  /** Showing a shot changes no modifier's target. */
  lemma ShownTargets(o: Obj, objName: string, index: int, frame: int, d: DataId)
    requires Find(o).Some?
    ensures var r := Shown(o, objName, index, frame, d);
      r.data == d && |r.modifiers| == |o.modifiers| &&
      forall k :: 0 <= k < |o.modifiers| ==> r.modifiers[k].collection == o.modifiers[k].collection
  {
    var o1 := WithIndex(o, index);
    assert Keyed(o1, objName, frame).modifiers == o1.modifiers;
  }

  /**
   * `insert_keyframe` keeps the session consistent: every store member, every
   * modifier target, the active and the selected objects still exist, and
   * every object's data was handed out.
   */
  lemma InsertKeepsConsistent(collections: map<string, Coll>, objects: map<string, Obj>, nextData: DataId,
                              active: Option<string>, selected: seq<string>, mode: Mode, frame: int,
                              source: Option<DataId>, useCopy: bool)
    requires Consistent(active, objects, selected, collections, nextData)
    requires source.Some? ==> source.value < nextData
    ensures ActiveKnown(collections, objects, active)
    ensures var r := Inserted(collections, objects, nextData, active, mode, frame, source, useCopy);
      Consistent(active, r.objects, selected, r.collections, r.nextData)
  {
    ConsistentActiveKnown(active, objects, selected, collections, nextData);
    var r := Inserted(collections, objects, nextData, active, mode, frame, source, useCopy);
    if r.err.None? && active.Some? && Find(objects[active.value]).Some? {
      var n := active.value;
      var o := objects[n];
      var c := Collection(o).value;
      var store := collections[c].objects;
      var src := ShotData(collections, objects, n, source, useCopy).value;
      var d := if src.1 then nextData else src.0;
      var shape := FreshName(Version.FrameName(|store|, n), objects.Keys);
      var next := if src.1 then nextData + 1 else nextData;
      ShownTargets(o, n, |store|, frame, d);
      var shown := Shown(o, n, |store|, frame, d);
      forall k | 0 <= k < |shown.modifiers| && shown.modifiers[k].collection.Some?
        ensures shown.modifiers[k].collection.value in collections
      {
        assert o.modifiers[k].collection == shown.modifiers[k].collection;
      }
      AddShotConsistent(active, objects, selected, collections, nextData, next, n, shown, shape, NewObj(d), c);
    }
  }

  /** Without an active object or without a StopMotion modifier, `insert_keyframe` changes nothing. */
  lemma InsertNeedsStopMotion(collections: map<string, Coll>, objects: map<string, Obj>, nextData: DataId,
                              active: Option<string>, mode: Mode, frame: int, source: Option<DataId>, useCopy: bool)
    requires ActiveKnown(collections, objects, active)
    requires active.None? || !IsStopMotion(Some(objects[active.value]))
    ensures Inserted(collections, objects, nextData, active, mode, frame, source, useCopy) ==
      Insertion(None, objects, collections, nextData, mode)
  {
  }

  /**
   * The errors of `insert_keyframe` on a stop-motion object: AttributeError
   * without a store, KeyError when no source is given and the current shot is
   * missing from the store; otherwise it succeeds.
   */
  lemma InsertErrors(collections: map<string, Coll>, objects: map<string, Obj>, nextData: DataId,
                     n: string, mode: Mode, frame: int, source: Option<DataId>, useCopy: bool)
    requires Modes.StoreKnown(collections, objects, n) && IsStopMotion(Some(objects[n]))
    ensures var r := Inserted(collections, objects, nextData, Some(n), mode, frame, source, useCopy);
      (Collection(objects[n]).None? ==> r.err == Some(AttributeError)) &&
      (Collection(objects[n]).Some? && source.None? &&
        Version.FrameName(Mod(objects[n]).index, n) !in collections[Collection(objects[n]).value].objects ==>
        r.err == Some(KeyError)) &&
      (Collection(objects[n]).Some? &&
        (source.Some? || Version.FrameName(Mod(objects[n]).index, n) in collections[Collection(objects[n]).value].objects) ==>
        r.err.None?)
  {
  }

  /**
   * A successful insertion appends exactly one new shot to the store, named
   * after the old store size (a fresh variant when that name is taken); the
   * index becomes the old store size and so names the new shot; the object
   * shows the new shot's data and is back in its mode.
   */
  lemma InsertAppendsShot(collections: map<string, Coll>, objects: map<string, Obj>, nextData: DataId,
                          n: string, mode: Mode, frame: int, source: Option<DataId>, useCopy: bool)
    requires Modes.StoreKnown(collections, objects, n) && IsStopMotion(Some(objects[n]))
    requires Inserted(collections, objects, nextData, Some(n), mode, frame, source, useCopy).err.None?
    ensures Collection(objects[n]).Some?
    ensures var r := Inserted(collections, objects, nextData, Some(n), mode, frame, source, useCopy);
      var c := Collection(objects[n]).value;
      var store := collections[c].objects;
      var newest := Version.FrameName(|store|, n);
      var shape := FreshName(newest, objects.Keys);
      shape !in objects && shape in r.objects && n in r.objects && c in r.collections &&
      r.collections[c].objects == store + [shape] &&
      Index(r.objects[n]) == Ok(|store|) && Collection(r.objects[n]) == Some(c) &&
      r.objects[n].data == r.objects[shape].data && r.mode == mode &&
      (newest !in objects ==> GetObject(r.collections, n, r.objects[n], None) == Ok(newest))
  {
  }

  /** The outcome of a successful insertion, written out. */
  lemma InsertedSuccess(collections: map<string, Coll>, objects: map<string, Obj>, nextData: DataId,
                        n: string, mode: Mode, frame: int, source: Option<DataId>, useCopy: bool)
    requires Modes.StoreKnown(collections, objects, n) && IsStopMotion(Some(objects[n]))
    requires Inserted(collections, objects, nextData, Some(n), mode, frame, source, useCopy).err.None?
    ensures Collection(objects[n]).Some? && ShotData(collections, objects, n, source, useCopy).Ok?
    ensures var c := Collection(objects[n]).value;
      var store := collections[c].objects;
      var src := ShotData(collections, objects, n, source, useCopy).value;
      var d := if src.1 then nextData else src.0;
      var shape := FreshName(Version.FrameName(|store|, n), objects.Keys);
      Inserted(collections, objects, nextData, Some(n), mode, frame, source, useCopy) ==
      Insertion(None, objects[shape := NewObj(d)][n := Shown(objects[n], n, |store|, frame, d)],
                collections[c := collections[c].(objects := store + [shape])],
                if src.1 then nextData + 1 else nextData, mode)
  {
  }

  /** Besides the new shot and the active object, an insertion changes no object; the active object keeps all but its data, animation and modifiers. */
  lemma InsertKeepsOtherObjects(collections: map<string, Coll>, objects: map<string, Obj>, nextData: DataId,
                                n: string, mode: Mode, frame: int, source: Option<DataId>, useCopy: bool)
    requires Modes.StoreKnown(collections, objects, n) && IsStopMotion(Some(objects[n]))
    requires Inserted(collections, objects, nextData, Some(n), mode, frame, source, useCopy).err.None?
    ensures Collection(objects[n]).Some?
    ensures var r := Inserted(collections, objects, nextData, Some(n), mode, frame, source, useCopy);
      var shape := FreshName(Version.FrameName(|collections[Collection(objects[n]).value].objects|, n), objects.Keys);
      r.objects.Keys == objects.Keys + {shape} &&
      (forall m :: m in objects && m != n ==> r.objects[m] == objects[m]) &&
      r.objects[n] == objects[n].(data := r.objects[n].data, action := r.objects[n].action, modifiers := r.objects[n].modifiers)
  {
    InsertedSuccess(collections, objects, nextData, n, mode, frame, source, useCopy);
    var o := objects[n];
    var c := Collection(o).value;
    var store := collections[c].objects;
    var shape := FreshName(Version.FrameName(|store|, n), objects.Keys);
    var src := ShotData(collections, objects, n, source, useCopy).value;
    var d := if src.1 then nextData else src.0;
    var o1 := WithIndex(o, |store|);
    var objs := objects[shape := NewObj(d)][n := Shown(o, n, |store|, frame, d)];
    assert Shown(o, n, |store|, frame, d) == Keyed(o1, n, frame).(data := d);
    assert o1 == o.(modifiers := o1.modifiers);
    forall m | m in objects && m != n
      ensures objs[m] == objects[m]
    {
      assert m != shape;
    }
  }

  /** Besides the store, an insertion changes no collection and adds none. */
  lemma InsertKeepsOtherCollections(collections: map<string, Coll>, objects: map<string, Obj>, nextData: DataId,
                                    n: string, mode: Mode, frame: int, source: Option<DataId>, useCopy: bool)
    requires Modes.StoreKnown(collections, objects, n) && IsStopMotion(Some(objects[n]))
    requires Inserted(collections, objects, nextData, Some(n), mode, frame, source, useCopy).err.None?
    ensures Collection(objects[n]).Some?
    ensures var r := Inserted(collections, objects, nextData, Some(n), mode, frame, source, useCopy);
      r.collections.Keys == collections.Keys &&
      forall k :: k in collections && k != Collection(objects[n]).value ==> r.collections[k] == collections[k]
  {
    InsertedSuccess(collections, objects, nextData, n, mode, frame, source, useCopy);
  }

  /**
   * The new shot shares the given source data unless `use_copy` asks for a
   * copy; with no source the current shot's data is always copied. A copy is
   * a data block no object used before.
   */
  lemma InsertCopies(collections: map<string, Coll>, objects: map<string, Obj>, nextData: DataId,
                     n: string, mode: Mode, frame: int, source: Option<DataId>, useCopy: bool)
    requires Modes.StoreKnown(collections, objects, n) && IsStopMotion(Some(objects[n]))
    requires DataBelow(objects, nextData)
    requires Inserted(collections, objects, nextData, Some(n), mode, frame, source, useCopy).err.None?
    ensures var r := Inserted(collections, objects, nextData, Some(n), mode, frame, source, useCopy);
      (source.Some? && !useCopy ==> r.objects[n].data == source.value && r.nextData == nextData) &&
      (source.None? || useCopy ==>
        r.objects[n].data == nextData && r.nextData == nextData + 1 &&
        forall m :: m in objects ==> objects[m].data != r.objects[n].data)
  {
  }

  /** After an insertion the index curve holds a CONSTANT key at the current frame whose value is the old store size. */
  lemma InsertKeysIndex(collections: map<string, Coll>, objects: map<string, Obj>, nextData: DataId,
                        n: string, mode: Mode, frame: int, source: Option<DataId>, useCopy: bool)
    requires Modes.StoreKnown(collections, objects, n) && IsStopMotion(Some(objects[n]))
    requires Inserted(collections, objects, nextData, Some(n), mode, frame, source, useCopy).err.None?
    ensures Collection(objects[n]).Some?
    ensures var r := Inserted(collections, objects, nextData, Some(n), mode, frame, source, useCopy);
      var size := |collections[Collection(objects[n]).value].objects|;
      GetFCurve(r.objects[n]).Ok? && GetFCurve(r.objects[n]).value.Some? &&
      var keys := r.objects[n].action.value.curves[GetFCurve(r.objects[n]).value.value].keys;
      exists i :: 0 <= i < |keys| && keys[i] == Keyframe(frame as real, size, Constant)
  {
    InsertedSuccess(collections, objects, nextData, n, mode, frame, source, useCopy);
    var o := objects[n];
    var size := |collections[Collection(o).value].objects|;
    var o1 := WithIndex(o, size);
    KeyedIndexIsConstant(o1, n, frame);
    var r := Inserted(collections, objects, nextData, Some(n), mode, frame, source, useCopy);
    var k := Keyed(o1, n, frame);
    assert r.objects[n] == k.(data := r.objects[n].data);
    assert GetFCurve(r.objects[n]) == GetFCurve(k);
  }

  /**
   * When the store holds exactly the shots 0..k-1 of the object (in any order)
   * and the next name is free, an insertion leaves it holding exactly the
   * shots 0..k: shot names and indices stay in step.
   */
  lemma InsertKeepsNumbering(collections: map<string, Coll>, objects: map<string, Obj>, nextData: DataId,
                             n: string, mode: Mode, frame: int, source: Option<DataId>, useCopy: bool)
    requires Modes.StoreKnown(collections, objects, n) && IsStopMotion(Some(objects[n]))
    requires Inserted(collections, objects, nextData, Some(n), mode, frame, source, useCopy).err.None?
    requires Collection(objects[n]).Some?
    requires var store := collections[Collection(objects[n]).value].objects;
      multiset(store) == multiset(Modes.FrameNames(n, |store|)) && Version.FrameName(|store|, n) !in objects
    ensures var r := Inserted(collections, objects, nextData, Some(n), mode, frame, source, useCopy);
      var after := r.collections[Collection(objects[n]).value].objects;
      multiset(after) == multiset(Modes.FrameNames(n, |after|)) && Index(r.objects[n]) == Ok(|after| - 1)
  {
    var store := collections[Collection(objects[n]).value].objects;
    InsertAppendsShot(collections, objects, nextData, n, mode, frame, source, useCopy);
    Modes.StoreGrows(store, n);
  }

  /**
   * `insert_keyframe` as written: with no source, line 113 calls `int_to_str`,
   * which this file never defines, so NameError is raised after the switch to
   * OBJECT mode. Every other path is as in `Inserted`.
   */
  function InsertedAsWritten(collections: map<string, Coll>, objects: map<string, Obj>, nextData: DataId,
                             active: Option<string>, mode: Mode, frame: int, source: Option<DataId>, useCopy: bool): (r: Insertion)
    requires ActiveKnown(collections, objects, active)
    ensures source.Some? ==> r == Inserted(collections, objects, nextData, active, mode, frame, source, useCopy)
  {
    if source.None? && active.Some? && Find(objects[active.value]).Some? && Collection(objects[active.value]).Some? then
      Insertion(Some(NameError), objects, collections, nextData, Object)
    else Inserted(collections, objects, nextData, active, mode, frame, source, useCopy)
  }

  /**
   * The discrepancy: keying a stop-motion object with nothing else selected
   * (no source) never adds a shot as written, even when the current shot is
   * there to copy; the corrected insertion appends it.
   */
  lemma InsertAsWrittenNeverCopies(collections: map<string, Coll>, objects: map<string, Obj>, nextData: DataId,
                                   n: string, mode: Mode, frame: int)
    requires Modes.StoreKnown(collections, objects, n) && IsStopMotion(Some(objects[n]))
    requires Collection(objects[n]).Some?
    requires Version.FrameName(Mod(objects[n]).index, n) in collections[Collection(objects[n]).value].objects
    ensures var w := InsertedAsWritten(collections, objects, nextData, Some(n), mode, frame, None, false);
      w.err == Some(NameError) && w.collections == collections
    ensures var r := Inserted(collections, objects, nextData, Some(n), mode, frame, None, false);
      var c := Collection(objects[n]).value;
      r.err.None? && |r.collections[c].objects| == |collections[c].objects| + 1
  {
    InsertErrors(collections, objects, nextData, n, mode, frame, None, false);
    InsertAppendsShot(collections, objects, nextData, n, mode, frame, None, false);
  }

  // ---------------------------------------------------------------------
  // OBJECT_OT_keyframe_stop_motion and OBJECT_OT_Join_keyframe_stop_motion
  // ---------------------------------------------------------------------

  /** A selected object the keyframe operator may take its shot from: a mesh other than the active object. */
  predicate IsSource(objects: map<string, Obj>, active: Option<string>, s: string)
  {
    s in objects && Some(s) != active && objects[s].isMesh
  }

  /** The first possible source in selection order, if any. */
  function FirstSource(selected: seq<string>, objects: map<string, Obj>, active: Option<string>): (r: Option<string>)
    ensures r.Some? ==> IsSource(objects, active, r.value)
    ensures r.Some? ==>
      exists i :: 0 <= i < |selected| && selected[i] == r.value && forall j :: 0 <= j < i ==> !IsSource(objects, active, selected[j])
    ensures r.None? <==> forall i :: 0 <= i < |selected| ==> !IsSource(objects, active, selected[i])
  {
    if selected == [] then None
    else if IsSource(objects, active, selected[0]) then
      assert selected[0] == selected[0];
      Some(selected[0])
    else
      var t := FirstSource(selected[1..], objects, active);
      if t.Some? then
        var i :| 0 <= i < |selected[1..]| && selected[1..][i] == t.value &&
                 forall j :: 0 <= j < i ==> !IsSource(objects, active, selected[1..][j]);
        assert selected[i + 1] == t.value;
        t
      else
        assert forall i :: 1 <= i < |selected| ==> selected[i] == selected[1..][i - 1];
        t
  }

  /** The loop over `possible_sources` of the keyframe operator: stops at the first selected mesh other than the active object. */
  method ChooseSource(w: Session) returns (s: Option<string>)
    ensures s == FirstSource(w.selected, w.objects, w.active)
  {
    var i := 0;
    while i < |w.selected|
      invariant 0 <= i <= |w.selected|
      invariant FirstSource(w.selected[i..], w.objects, w.active) == FirstSource(w.selected, w.objects, w.active)
    {
      if IsSource(w.objects, w.active, w.selected[i]) {
        return Some(w.selected[i]);
      }
      assert w.selected[i..][1..] == w.selected[i + 1..];
      i := i + 1;
    }
    return None;
  }

  /** The keyframe operator's `use_copy` property. */
  class KeyframeOperator {
    var useCopy: bool

    constructor (useCopy: bool)
      ensures this.useCopy == useCopy
    {
      this.useCopy := useCopy;
    }

    /**
     * `execute`: inserts a keyframe from the first possible source's data
     * (copied when `use_copy`), or, without one, from a copy of the current
     * shot.
     */
    method Execute(w: Session) returns (err: Option<PyError>)
      requires ActiveKnown(w.collections, w.objects, w.active)
      modifies w`mode, w`objects, w`collections, w`nextData
      ensures var s := FirstSource(old(w.selected), old(w.objects), old(w.active));
        Insertion(err, w.objects, w.collections, w.nextData, w.mode) ==
        Inserted(old(w.collections), old(w.objects), old(w.nextData), old(w.active), old(w.mode), old(w.frameCurrent),
                 if s.Some? then Some(old(w.objects)[s.value].data) else None, s.None? || useCopy)
    {
      var s := ChooseSource(w);
      if s.Some? {
        err := InsertKeyframe(w, Some(w.objects[s.value].data), useCopy);
      } else {
        err := InsertKeyframe(w, None, true);
      }
    }
  }

  /** The join operator's `poll`: the stop-motion poll, in OBJECT mode, with more than one object selected. */
  function JoinPoll(active: Option<string>, objects: map<string, Obj>, mode: Mode, selected: seq<string>): (r: bool)
    requires active.Some? ==> active.value in objects
    ensures r ==> OperatorPoll(active, objects) && Poll(active, objects) == Enabled
    ensures r ==> mode == Object && |selected| >= 2
  {
    OperatorPoll(active, objects) && mode == Object && |selected| > 1
  }

  /**
   * The join operator's `execute`: inserts a keyframe copied from the current
   * shot, then joins the selection into the object between leaving and
   * restoring its mode. `bpy.ops.object.join` merges the other selected
   * objects' meshes into the new shot and deletes those objects; mesh
   * contents are opaque here and the deletion is not modelled, so the state
   * stated is that of the insertion.
   */
  method JoinExecute(w: Session) returns (err: Option<PyError>)
    requires ActiveKnown(w.collections, w.objects, w.active)
    modifies w`mode, w`objects, w`collections, w`nextData
    ensures Insertion(err, w.objects, w.collections, w.nextData, w.mode) ==
      Inserted(old(w.collections), old(w.objects), old(w.nextData), old(w.active), old(w.mode), old(w.frameCurrent), None, true)
  {
    err := InsertKeyframe(w, None, true);
    if err.Some? {
      return;
    }
    var mode := w.mode;
    Modes.SetObject(w, mode);
    Modes.Restore(w, mode);
  }

  // ---------------------------------------------------------------------
  // OBJECT_OT_add_stop_motion
  // ---------------------------------------------------------------------

  /** The add operator's `poll`: an active mesh without a StopMotion modifier; it never holds together with the stop-motion poll. */
  function AddPoll(active: Option<string>, objects: map<string, Obj>): (r: bool)
    requires active.Some? ==> active.value in objects
    ensures r ==> !OperatorPoll(active, objects)
    ensures r ==> active.Some? && objects[active.value].isMesh
  {
    active.Some? && objects[active.value].isMesh && !IsStopMotion(Some(objects[active.value]))
  }

  /**
   * Lines 69-76: appends the StopMotion modifier (the "MeshKey" group) and the
   * Realizer (the "Realize" group, under a fresh name); the Realizer is
   * hidden in the viewport and in edit mode.
   */
  function WithModifiers(o: Obj, indexId: string, collectionId: string): (r: Obj)
    requires Find(o).None?
    ensures |r.modifiers| == |o.modifiers| + 2 && forall k :: 0 <= k < |o.modifiers| ==> r.modifiers[k] == o.modifiers[k]
    ensures r == o.(modifiers := r.modifiers)
    ensures Find(r) == Some(|o.modifiers|) && Mod(r) == NewModifier(MODNAME, "MeshKey", indexId, collectionId)
    ensures !r.modifiers[|o.modifiers| + 1].showViewport && !r.modifiers[|o.modifiers| + 1].showInEditmode
    ensures r.modifiers[|o.modifiers| + 1].collection.None?
  {
    var stop := NewModifier(MODNAME, "MeshKey", indexId, collectionId);
    var name := FreshName("Realizer", NameSet(o.modifiers) + {MODNAME});
    var realizer := NewModifier(name, "Realize", "", "").(showViewport := false, showInEditmode := false);
    var r := o.(modifiers := o.modifiers + [stop, realizer]);
    assert r.modifiers[|o.modifiers|].name == MODNAME;
    assert Find(r).Some?;
    assert Find(r).value == |o.modifiers|;
    r
  }

  /** The modifier's `show_in_editmode` turned off (line 82). */
  function WithoutEditmode(o: Obj): (r: Obj)
    requires Find(o).Some?
    ensures Find(r) == Find(o) && Mod(r) == Mod(o).(showInEditmode := false)
    ensures r == o.(modifiers := r.modifiers) && |r.modifiers| == |o.modifiers|
  {
    var k := Find(o).value;
    var r := o.(modifiers := o.modifiers[k := o.modifiers[k].(showInEditmode := false)]);
    FindSameNames(o, r);
    r
  }

  /** Lines 78-82: the modifier points at store `c`, its index is 0 and keyed at the current frame, and it is hidden in edit mode. */
  function SetUp(o: Obj, objName: string, c: string, frame: int): (r: Obj)
    requires Find(o).Some?
    ensures Find(r) == Find(o) && |r.modifiers| == |o.modifiers|
    ensures Collection(r) == Some(c) && Index(r) == Ok(0) && !Mod(r).showInEditmode
  {
    WithoutEditmode(Keyed(WithIndex(WithCollection(o, Some(c)), 0), objName, frame))
  }

  /** The set-up modifier points at `c`; every other modifier keeps its target, and the object its data. */
  lemma SetUpTargets(o: Obj, objName: string, c: string, frame: int)
    requires Find(o).Some?
    ensures var r := SetUp(o, objName, c, frame);
      r.data == o.data && |r.modifiers| == |o.modifiers| &&
      forall k :: 0 <= k < |o.modifiers| ==>
        r.modifiers[k].collection == if k == Find(o).value then Some(c) else o.modifiers[k].collection
  {
    var o1 := WithCollection(o, Some(c));
    var o2 := WithIndex(o1, 0);
    var o3 := Keyed(o2, objName, frame);
    assert o3.modifiers == o2.modifiers;
  }

  /** After the add operator the object's old modifiers keep their targets, the StopMotion one points at `c` and the Realizer at nothing. */
  lemma InstalledTargets(o: Obj, objName: string, c: string, frame: int, indexId: string, collectionId: string)
    requires Find(o).None?
    ensures var r := SetUp(WithModifiers(o, indexId, collectionId), objName, c, frame);
      r.data == o.data && |r.modifiers| == |o.modifiers| + 2 &&
      (forall k :: 0 <= k < |o.modifiers| ==> r.modifiers[k].collection == o.modifiers[k].collection) &&
      r.modifiers[|o.modifiers|].collection == Some(c) && r.modifiers[|o.modifiers| + 1].collection.None?
  {
    var o1 := WithModifiers(o, indexId, collectionId);
    SetUpTargets(o1, objName, c, frame);
    assert Find(o1) == Some(|o.modifiers|);
  }

  /** The outcome of the add operator: the collections and objects after it and the name of the first shot. */
  datatype Setup = Setup(collections: map<string, Coll>, objects: map<string, Obj>, first: string)

  /** The frame store as the add operator makes it: kept by a fake user, hidden in renders and in the viewport. */
  function StoreColl(): Coll
  {
    NewColl().(fakeUser := true, hideRender := true, hideViewport := true)
  }

  /**
   * The add operator's `execute` on active object `n`, as evidently intended:
   * a new store collection named after the object, the StopMotion and
   * Realizer modifiers set up on it, and a copy of the object, renamed after
   * shot 0, as the store's only shot.
   */
  function Initialized(collections: map<string, Coll>, objects: map<string, Obj>, n: string, frame: int,
                       indexId: string, collectionId: string): (r: Setup)
    requires n in objects && Find(objects[n]).None?
    ensures n in r.objects && r.first in r.objects && r.first !in objects
  {
    var c := FreshName(Version.CollectionName(n), collections.Keys);
    var o := SetUp(WithModifiers(objects[n], indexId, collectionId), n, c, frame);
    var first := FreshName(Version.FrameName(0, n), objects.Keys);
    Setup(collections[c := StoreColl().(objects := [first])], objects[n := o][first := o], first)
  }

  /**
   * After the add operator the object is a stop-motion object whose store is
   * a new, hidden collection holding only the first shot; its index is 0 and
   * names that shot (when the name was free), the first shot is a copy of the
   * set-up object, and the add operator is no longer available for it.
   */
  lemma AddInitializes(collections: map<string, Coll>, objects: map<string, Obj>, n: string, frame: int,
                       indexId: string, collectionId: string)
    requires n in objects && Find(objects[n]).None?
    ensures var r := Initialized(collections, objects, n, frame, indexId, collectionId);
      var o := r.objects[n];
      IsStopMotion(Some(o)) && Collection(o).Some? &&
      Collection(o).value !in collections && r.collections[Collection(o).value] == StoreColl().(objects := [r.first]) &&
      Index(o) == Ok(0) && r.objects[r.first] == o && !AddPoll(Some(n), r.objects) &&
      (Version.FrameName(0, n) !in objects ==> GetObject(r.collections, n, o, None) == Ok(Version.FrameName(0, n)))
  {
  }

  /**
   * Shot names carry the object's name, so the add operator followed by an
   * insertion works whatever other stop-motion objects exist: when the first
   * shot's name is free, the next insertion raises nothing.
   */
  lemma AddThenInsertSucceeds(collections: map<string, Coll>, objects: map<string, Obj>, n: string, frame: int,
                              indexId: string, collectionId: string, nextData: DataId, mode: Mode,
                              source: Option<DataId>, useCopy: bool)
    requires n in objects && Find(objects[n]).None? && Version.FrameName(0, n) !in objects
    ensures var s := Initialized(collections, objects, n, frame, indexId, collectionId);
      ActiveKnown(s.collections, s.objects, Some(n)) &&
      Inserted(s.collections, s.objects, nextData, Some(n), mode, frame, source, useCopy).err.None?
  {
    AddInitializes(collections, objects, n, frame, indexId, collectionId);
    var s := Initialized(collections, objects, n, frame, indexId, collectionId);
    InsertAtFirstShot(s.collections, s.objects, n, nextData, mode, frame, source, useCopy);
  }

  /** An object whose store holds exactly its shot 0, with the index at 0, takes an insertion without error. */
  lemma InsertAtFirstShot(collections: map<string, Coll>, objects: map<string, Obj>, n: string, nextData: DataId,
                          mode: Mode, frame: int, source: Option<DataId>, useCopy: bool)
    requires n in objects && IsStopMotion(Some(objects[n])) && Index(objects[n]) == Ok(0)
    requires Collection(objects[n]).Some? && Collection(objects[n]).value in collections
    requires collections[Collection(objects[n]).value].objects == [Version.FrameName(0, n)] && Version.FrameName(0, n) in objects
    ensures ActiveKnown(collections, objects, Some(n))
    ensures Inserted(collections, objects, nextData, Some(n), mode, frame, source, useCopy).err.None?
  {
    assert GetObject(collections, n, objects[n], None) == Ok(Version.FrameName(0, n));
  }

  /** The add operator changes no other object and no other collection. */
  lemma AddKeepsOthers(collections: map<string, Coll>, objects: map<string, Obj>, n: string, frame: int,
                       indexId: string, collectionId: string)
    requires n in objects && Find(objects[n]).None?
    ensures var r := Initialized(collections, objects, n, frame, indexId, collectionId);
      r.objects.Keys == objects.Keys + {r.first} &&
      (forall m :: m in objects && m != n ==> r.objects[m] == objects[m]) &&
      collections.Keys < r.collections.Keys && |r.collections.Keys| == |collections.Keys| + 1 &&
      (forall k :: k in collections ==> r.collections[k] == collections[k])
  {
    var c := FreshName(Version.CollectionName(n), collections.Keys);
    var o := SetUp(WithModifiers(objects[n], indexId, collectionId), n, c, frame);
    var first := FreshName(Version.FrameName(0, n), objects.Keys);
    assert Initialized(collections, objects, n, frame, indexId, collectionId) ==
      Setup(collections[c := StoreColl().(objects := [first])], objects[n := o][first := o], first);
    SetupKeepsOthers(collections, objects, n, c, o, first, StoreColl().(objects := [first]));
  }

  /** A new store and a new shot added beside an existing object leave every other entry as it was. */
  lemma SetupKeepsOthers(collections: map<string, Coll>, objects: map<string, Obj>, n: string, c: string, o: Obj,
                         first: string, store: Coll)
    requires n in objects && first !in objects && c !in collections
    ensures var r := Setup(collections[c := store], objects[n := o][first := o], first);
      r.objects.Keys == objects.Keys + {r.first} &&
      (forall m :: m in objects && m != n ==> r.objects[m] == objects[m]) &&
      collections.Keys < r.collections.Keys && |r.collections.Keys| == |collections.Keys| + 1 &&
      (forall k :: k in collections ==> r.collections[k] == collections[k])
  {
    assert collections[c := store].Keys == collections.Keys + {c};
  }

  /** The first shot is keyed: the index curve holds a CONSTANT key with value 0 at the current frame. */
  lemma AddKeysFirstShot(collections: map<string, Coll>, objects: map<string, Obj>, n: string, frame: int,
                         indexId: string, collectionId: string)
    requires n in objects && Find(objects[n]).None?
    ensures var o := Initialized(collections, objects, n, frame, indexId, collectionId).objects[n];
      GetFCurve(o).Ok? && GetFCurve(o).value.Some? &&
      var keys := o.action.value.curves[GetFCurve(o).value.value].keys;
      exists i :: 0 <= i < |keys| && keys[i] == Keyframe(frame as real, 0, Constant)
  {
    var c := FreshName(Version.CollectionName(n), collections.Keys);
    var o1 := WithIndex(WithCollection(WithModifiers(objects[n], indexId, collectionId), Some(c)), 0);
    KeyedIndexIsConstant(o1, n, frame);
    var k := Keyed(o1, n, frame);
    var o := WithoutEditmode(k);
    assert o == k.(modifiers := o.modifiers);
    assert GetFCurve(o) == GetFCurve(k);
  }

  /**
   * The add operator's `execute` as written: line 62 reads `collection_name`
   * from the `Modifier` class, which has no such attribute, so AttributeError
   * is raised before anything changes.
   */
  method AddExecuteAsWritten(w: Session) returns (err: Option<PyError>)
    ensures err == Some(AttributeError)
  {
    err := Some(AttributeError);
  }

  /**
   * The discrepancy: whenever the add operator is available, as written it
   * leaves the object without a StopMotion modifier, while the corrected
   * operator makes it a stop-motion object.
   */
  lemma AddAsWrittenNeverInitializes(collections: map<string, Coll>, objects: map<string, Obj>, n: string, frame: int,
                                     indexId: string, collectionId: string)
    requires n in objects && AddPoll(Some(n), objects)
    ensures !IsStopMotion(Some(objects[n]))
    ensures IsStopMotion(Some(Initialized(collections, objects, n, frame, indexId, collectionId).objects[n]))
  {
    AddInitializes(collections, objects, n, frame, indexId, collectionId);
  }

  /** The add operator's `execute`, corrected, run on the session; the node groups' input identifiers are given. */
  method AddStopMotion(w: Session, indexId: string, collectionId: string) returns (first: string)
    requires w.active.Some? && w.active.value in w.objects && AddPoll(w.active, w.objects)
    modifies w`objects, w`collections
    ensures Setup(w.collections, w.objects, first) ==
      Initialized(old(w.collections), old(w.objects), old(w.active).value, old(w.frameCurrent), indexId, collectionId)
  {
    ghost var colls0 := w.collections;
    ghost var objs0 := w.objects;
    var n := w.active.value;
    var c := MakeStore(w, Version.CollectionName(n));
    InstallModifiers(w, n, c, indexId, collectionId);
    assert w.objects.Keys == objs0.Keys;
    first := AddFirstShot(w, n, c, Version.FrameName(0, n));
    MapOverwrite(colls0, c, StoreColl(), StoreColl().(objects := [first]));
  }

  /** Lines 84-92 of `execute`: a copy of object `n`, named `base` (or a fresh variant of it), becomes the only member of the empty store `c`. */
  method AddFirstShot(w: Session, n: string, c: string, base: string) returns (first: string)
    requires n in w.objects && c in w.collections && w.collections[c].objects == []
    modifies w`objects, w`collections
    ensures first == FreshName(base, old(w.objects).Keys) && first !in old(w.objects)
    ensures w.objects == old(w.objects)[first := old(w.objects)[n]]
    ensures w.collections == old(w.collections)[c := old(w.collections)[c].(objects := [first])]
  {
    first := w.CopyObject(n, base);
    w.Link(c, first);
    assert [] + [first] == [first];
  }

  /** Lines 61-66: a new collection, kept by a fake user and hidden. */
  method MakeStore(w: Session, base: string) returns (c: string)
    modifies w`collections
    ensures c == FreshName(base, old(w.collections).Keys) && c !in old(w.collections)
    ensures w.collections == old(w.collections)[c := StoreColl()]
  {
    ghost var colls0 := w.collections;
    c := w.NewCollection(base);
    w.collections := w.collections[c := w.collections[c].(fakeUser := true, hideRender := true, hideViewport := true)];
    MapOverwrite(colls0, c, NewColl(), StoreColl());
  }

  /** Lines 69-82 on object `n` with store `c`: the two modifiers are added and the StopMotion one is set up. */
  method InstallModifiers(w: Session, n: string, c: string, indexId: string, collectionId: string)
    requires n in w.objects && Find(w.objects[n]).None?
    modifies w`objects
    ensures w.objects == old(w.objects)[n := SetUp(WithModifiers(old(w.objects)[n], indexId, collectionId), n, c, old(w.frameCurrent))]
  {
    var o := WithModifiers(w.objects[n], indexId, collectionId);
    o := WithCollection(o, Some(c));
    o := WithIndex(o, 0);
    o := KeyObject(o, n, w.frameCurrent);
    o := WithoutEditmode(o);
    w.objects := w.objects[n := o];
  }

  /**
   * The add operator keeps the session consistent: the new store's only
   * member is the new first shot, the modifier points at the new store, and
   * the first shot shares the object's data.
   */
  lemma AddKeepsConsistent(collections: map<string, Coll>, objects: map<string, Obj>, active: Option<string>,
                           selected: seq<string>, nextData: DataId, frame: int, indexId: string, collectionId: string)
    requires Consistent(active, objects, selected, collections, nextData)
    requires active.Some? && AddPoll(active, objects)
    ensures var r := Initialized(collections, objects, active.value, frame, indexId, collectionId);
      Consistent(active, r.objects, selected, r.collections, nextData)
  {
    var n := active.value;
    var c := FreshName(Version.CollectionName(n), collections.Keys);
    var o0 := objects[n];
    var o1 := WithModifiers(o0, indexId, collectionId);
    var o := SetUp(o1, n, c, frame);
    var first := FreshName(Version.FrameName(0, n), objects.Keys);
    InstalledTargets(o0, n, c, frame, indexId, collectionId);
    forall k | 0 <= k < |o.modifiers|
      ensures o.modifiers[k].collection.Some? ==> o.modifiers[k].collection.value in collections || o.modifiers[k].collection.value == c
    {
      if k < |o0.modifiers| {
        assert o.modifiers[k].collection == o0.modifiers[k].collection;
      } else if k > |o0.modifiers| {
        assert k == |o0.modifiers| + 1;
      }
    }
    NewStoreConsistent(active, objects, selected, collections, nextData, n, o, first, c, StoreColl().(objects := [first]));
  }

  // ---------------------------------------------------------------------
  // SCREEN_OT_next_or_add_key
  // ---------------------------------------------------------------------

  /** The warning reported when there is no key to jump to. */
  const NO_MORE_KEYS := "No more keyframes to jump in this direction"

  /** Assigning to `frame_offset` clamps to the property's range 0..100. */
  function ClampOffset(v: int): (r: int)
    ensures 0 <= r <= 100
    ensures 0 <= v <= 100 ==> r == v
    ensures v < 0 ==> r == 0
    ensures v > 100 ==> r == 100
  {
    if v < 0 then 0 else if v > 100 then 100 else v
  }

  /** What next-or-add does: jump to the next key, or advance by `offset` frames and add a key there. */
  datatype Step = Jump | Add(offset: int)

  /** The step chosen, or the error raised, and the `first_run` flag and `frame_offset` afterwards. */
  datatype Plan = Plan(step: Result<Step, PyError>, firstRun: bool, frameOffset: int)

  /**
   * Next-or-add's decision: without a StopMotion object, or with keys after
   * the current frame, it jumps. Otherwise, on the first run ever, the offset
   * is taken from the preferences (and `first_run` cleared); an offset of 0
   * jumps, any other adds a key that many frames on. `future_keys` raises
   * AttributeError for an object whose index was never keyed.
   */
  function NextOrAddPlan(o: Option<Obj>, frame: int, firstRun: bool, frameOffset: int, preference: int): (r: Plan)
    ensures r.step.Err? ==> r.step.error == AttributeError && r.firstRun == firstRun && r.frameOffset == frameOffset
  {
    if !IsStopMotion(o) then Plan(Ok(Jump), firstRun, frameOffset)
    else match Future(o.value, frame)
      case Err(e) => Plan(Err(e), firstRun, frameOffset)
      case Ok(true) => Plan(Ok(Jump), firstRun, frameOffset)
      case Ok(false) =>
        var offset := if firstRun then ClampOffset(preference) else frameOffset;
        Plan(if offset == 0 then Ok(Jump) else Ok(Add(offset)), false, offset)
  }

  /** Next-or-add jumps exactly when there is no modifier, there are later keys, or the offset in force is 0. */
  lemma NextOrAddJumps(o: Option<Obj>, frame: int, firstRun: bool, frameOffset: int, preference: int)
    ensures var r := NextOrAddPlan(o, frame, firstRun, frameOffset, preference);
      var offset := if firstRun then ClampOffset(preference) else frameOffset;
      (r.step == Ok(Jump) <==>
        !IsStopMotion(o) || Future(o.value, frame) == Ok(true) || (Future(o.value, frame) == Ok(false) && offset == 0)) &&
      (r.step.Ok? && r.step.value.Add? <==>
        IsStopMotion(o) && Future(o.value, frame) == Ok(false) && offset != 0)
  {
  }

  /** An added key lies 1 to 100 frames on, when the property was within its range. */
  lemma NextOrAddOffsetRange(o: Option<Obj>, frame: int, firstRun: bool, frameOffset: int, preference: int)
    requires 0 <= frameOffset <= 100
    ensures var r := NextOrAddPlan(o, frame, firstRun, frameOffset, preference);
      0 <= r.frameOffset <= 100 &&
      (r.step.Ok? && r.step.value.Add? ==> 1 <= r.step.value.offset <= 100 && r.step.value.offset == r.frameOffset)
  {
  }

  /**
   * The preference is read only on the first run ever: once `first_run` is
   * cleared it stays cleared, and the offset in force no longer depends on
   * the preference.
   */
  lemma NextOrAddReadsPreferenceOnce(o: Option<Obj>, frame: int, frameOffset: int, p: int, q: int)
    ensures NextOrAddPlan(o, frame, false, frameOffset, p) == NextOrAddPlan(o, frame, false, frameOffset, q)
    ensures var r := NextOrAddPlan(o, frame, false, frameOffset, p); !r.firstRun && r.frameOffset == frameOffset
  {
  }

  /** After next-or-add has keyed the object, running it again at that frame adds again rather than jumping. */
  lemma NextOrAddAgain(o: Obj, objName: string, frame: int, firstRun: bool, frameOffset: int, preference: int)
    requires IsStopMotion(Some(o)) && Future(o, frame) != Ok(true)
    requires 0 < frameOffset
    ensures var r := NextOrAddPlan(Some(Keyed(o, objName, frame)), frame, false, frameOffset, preference);
      r.step == Ok(Add(frameOffset))
  {
    KeyedAddsNoFuture(o, objName, frame);
  }

  /** The next-or-add operator's `frame_offset` and `use_copy` properties. */
  class NextOrAdd {
    var frameOffset: int
    var useCopy: bool

    constructor (frameOffset: int, useCopy: bool)
      requires 0 <= frameOffset <= 100
      ensures this.frameOffset == frameOffset && this.useCopy == useCopy
    {
      this.frameOffset := frameOffset;
      this.useCopy := useCopy;
    }

    /** `fallback()`: the host's jump to `next`, the next keyed frame if there is one; without one a warning is reported. */
    method Fallback(w: Session, next: Option<int>) returns (s: Status)
      modifies w`frameCurrent, w`reports
      ensures s == Finished <==> next.Some?
      ensures w.frameCurrent == if next.Some? then next.value else old(w.frameCurrent)
      ensures w.reports == old(w.reports) + if next.Some? then [] else [NO_MORE_KEYS]
    {
      s := w.KeyframeJump(next);
      if s == Cancelled {
        w.reports := w.reports + [NO_MORE_KEYS];
      }
    }

    /** Lines 187-198 of `execute`: the decision, with `first_run` and `frame_offset` updated as the operator does. */
    method Decide(w: Session) returns (step: Result<Step, PyError>)
      requires w.active.Some? ==> w.active.value in w.objects
      modifies this`frameOffset, w`firstRun
      ensures var o := if w.active.Some? then Some(w.objects[w.active.value]) else None;
        Plan(step, w.firstRun, frameOffset) ==
        NextOrAddPlan(o, w.frameCurrent, old(w.firstRun), old(frameOffset), w.preferenceFrameOffset)
    {
      var o := if w.active.Some? then Some(w.objects[w.active.value]) else None;
      if Handle(o).None? {
        return Ok(Jump);
      }
      var future := FutureKeys(o.value, w.frameCurrent);
      if future.Err? {
        return Err(future.error);
      }
      if future.value {
        return Ok(Jump);
      }
      if w.firstRun {
        w.firstRun := false;
        frameOffset := ClampOffset(w.preferenceFrameOffset);
      }
      if frameOffset == 0 {
        return Ok(Jump);
      }
      return Ok(Add(frameOffset));
    }

    /**
     * `execute(context)`: decides as `NextOrAddPlan`; a jump is the fallback
     * (`next` is the key the host would jump to); an add moves the current
     * frame on by the offset and runs the keyframe operator there.
     */
    method Execute(w: Session, next: Option<int>) returns (s: Status, err: Option<PyError>)
      requires ActiveKnown(w.collections, w.objects, w.active)
      modifies this`frameOffset, w`firstRun, w`frameCurrent, w`reports, w`mode, w`objects, w`collections, w`nextData
      ensures var o := if old(w.active).Some? then Some(old(w.objects)[old(w.active).value]) else None;
        var plan := NextOrAddPlan(o, old(w.frameCurrent), old(w.firstRun), old(frameOffset), old(w.preferenceFrameOffset));
        w.firstRun == plan.firstRun && frameOffset == plan.frameOffset &&
        (plan.step.Err? ==> err == Some(plan.step.error) && w.frameCurrent == old(w.frameCurrent) && w.objects == old(w.objects)) &&
        (plan.step == Ok(Jump) ==>
          err.None? && (s == Finished <==> next.Some?) &&
          w.frameCurrent == (if next.Some? then next.value else old(w.frameCurrent)) &&
          w.objects == old(w.objects) && w.collections == old(w.collections)) &&
        (plan.step.Ok? && plan.step.value.Add? ==>
          (s == Finished <==> err.None?) && w.frameCurrent == old(w.frameCurrent) + plan.step.value.offset &&
          var src := FirstSource(old(w.selected), old(w.objects), old(w.active));
          Insertion(err, w.objects, w.collections, w.nextData, w.mode) ==
          Inserted(old(w.collections), old(w.objects), old(w.nextData), old(w.active), old(w.mode), w.frameCurrent,
                   if src.Some? then Some(old(w.objects)[src.value].data) else None, src.None? || useCopy))
    {
      ghost var o := if w.active.Some? then Some(w.objects[w.active.value]) else None;
      ghost var plan := NextOrAddPlan(o, w.frameCurrent, w.firstRun, frameOffset, w.preferenceFrameOffset);
      var step := Decide(w);
      assert step == plan.step && w.firstRun == plan.firstRun && frameOffset == plan.frameOffset;
      assert w.objects == old(w.objects) && w.collections == old(w.collections) && w.nextData == old(w.nextData) &&
        w.active == old(w.active) && w.mode == old(w.mode) && w.selected == old(w.selected) && w.frameCurrent == old(w.frameCurrent);
      if step.Err? {
        return Cancelled, Some(step.error);
      }
      if step.value == Jump {
        s := Fallback(w, next);
        return s, None;
      }
      err := Advance(w, step.value.offset);
      s := if err.None? then Finished else Cancelled;
    }

    /** Lines 199-201 of `execute`: moves the current frame on by `offset` and runs the keyframe operator there. */
    method Advance(w: Session, offset: int) returns (err: Option<PyError>)
      requires ActiveKnown(w.collections, w.objects, w.active)
      modifies w`frameCurrent, w`mode, w`objects, w`collections, w`nextData
      ensures w.frameCurrent == old(w.frameCurrent) + offset
      ensures var src := FirstSource(old(w.selected), old(w.objects), old(w.active));
        Insertion(err, w.objects, w.collections, w.nextData, w.mode) ==
        Inserted(old(w.collections), old(w.objects), old(w.nextData), old(w.active), old(w.mode), w.frameCurrent,
                 if src.Some? then Some(old(w.objects)[src.value].data) else None, src.None? || useCopy)
    {
      w.frameCurrent := w.frameCurrent + offset;
      var op := new KeyframeOperator(useCopy);
      err := op.Execute(w);
    }
  }
}
