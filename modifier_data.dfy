/**
 * The `Modifier` convenience handle of modifier_data.py: finds an object's
 * "StopMotion" geometry-nodes modifier and reads and writes its index and
 * collection inputs, its index animation curve and its viewport flag; and the
 * shared `poll` of the stop-motion operators.
 *
 * The handle's reads are functions of the object value; its writes are
 * functions producing the updated object, applied to the session by the
 * methods at the end of this module.
 */
module ModifierData {
  import opened Wrappers
  import opened PyList
  import opened Host
  import Version

  const MODNAME := "StopMotion"

  /** Names of a modifier stack, in order. */
  function ModifierNames(ms: seq<NodesModifier>): (r: seq<string>)
    ensures |r| == |ms| && forall k :: 0 <= k < |ms| ==> r[k] == ms[k].name
  {
    if ms == [] then [] else [ms[0].name] + ModifierNames(ms[1..])
  }

  /** `obj.modifiers.get("StopMotion")`: the position of the first modifier with that name (see `FindFirst`). */
  function Find(o: Obj): (r: Option<nat>)
    ensures r.Some? ==> r.value < |o.modifiers| && o.modifiers[r.value].name == MODNAME
  {
    FirstIndex(ModifierNames(o.modifiers), MODNAME)
  }

  /** `Find` picks the first modifier named "StopMotion", and finds none exactly when no modifier has that name. */
  lemma FindFirst(o: Obj)
    ensures Find(o).Some? ==> forall k :: 0 <= k < Find(o).value ==> o.modifiers[k].name != MODNAME
    ensures Find(o).None? <==> forall k :: 0 <= k < |o.modifiers| ==> o.modifiers[k].name != MODNAME
  {
    var names := ModifierNames(o.modifiers);
    var r := Find(o);
    assert r.None? ==> forall k :: 0 <= k < |o.modifiers| ==> names[k] != MODNAME;
    assert r.Some? ==> forall k :: 0 <= k < r.value ==> names[k] in names[..r.value];
  }

  /** A new geometry-nodes modifier running `group`, whose inputs have the given identifiers. */
  function NewModifier(name: string, group: string, indexId: string, collectionId: string): NodesModifier
  {
    NodesModifier(name, group, indexId, collectionId, 0, None, None, true, true)
  }

  /** Names of an object's modifiers. */
  function NameSet(ms: seq<NodesModifier>): set<string>
  {
    if ms == [] then {} else {ms[0].name} + NameSet(ms[1..])
  }

  /** A name no modifier carries is not among the names. */
  lemma {:induction false} NameSetWithout(ms: seq<NodesModifier>, n: string)
    requires forall k :: 0 <= k < |ms| ==> ms[k].name != n
    ensures n !in NameSet(ms)
  {
    if ms != [] {
      NameSetWithout(ms[1..], n);
    }
  }

  /** Appending two modifiers keeps the first "StopMotion" of the stack, and without one finds the first appended one when it is so named. */
  lemma FindAppended(o: Obj, r: Obj)
    requires |r.modifiers| == |o.modifiers| + 2 && r.modifiers[..|o.modifiers|] == o.modifiers
    requires Find(o).None? ==> r.modifiers[|o.modifiers|].name == FreshName(MODNAME, NameSet(o.modifiers))
    ensures Find(o).Some? ==> Find(r) == Find(o)
    ensures Find(o).None? ==> Find(r) == Some(|o.modifiers|)
  {
    FindFirst(o);
    var names := ModifierNames(r.modifiers);
    var k := if Find(o).Some? then Find(o).value else |o.modifiers|;
    if Find(o).None? {
      NameSetWithout(o.modifiers, MODNAME);
    } else {
      assert r.modifiers[k] == o.modifiers[k];
    }
    assert names[k] == MODNAME;
    forall j | 0 <= j < k ensures names[j] != MODNAME {
      assert r.modifiers[j] == o.modifiers[j];
    }
    FirstIndexIs(names, MODNAME, k);
  }

  /** `Modifier(obj)` for a possibly missing object: the modifier it wraps, if any. */
  function Handle(o: Option<Obj>): (r: Option<nat>)
    ensures r.Some? <==> o.Some? && exists k :: 0 <= k < |o.value.modifiers| && o.value.modifiers[k].name == MODNAME
    ensures r.Some? ==> r == Find(o.value)
  {
    if o.None? then None else Find(o.value)
  }

  /** `bool(Modifier(obj))`: the object exists and carries a StopMotion modifier. */
  predicate IsStopMotion(o: Option<Obj>)
  {
    Handle(o).Some?
  }

  /** The wrapped modifier. */
  function Mod(o: Obj): NodesModifier
    requires Find(o).Some?
  {
    o.modifiers[Find(o).value]
  }

  /** The `index` property; reading it through a handle without a modifier raises AttributeError (the handle never got its `__index__` attribute). */
  function Index(o: Obj): (r: Result<int, PyError>)
    ensures r.Err? <==> Find(o).None?
    ensures r.Err? ==> r.error == AttributeError
    ensures r.Ok? ==> r.value == o.modifiers[Find(o).value].index
  {
    if Find(o).None? then Err(AttributeError) else Ok(Mod(o).index)
  }

  /** The object after setting the `index` property to `v`. */
  function WithIndex(o: Obj, v: int): (r: Obj)
    requires Find(o).Some?
    ensures Index(r) == Ok(v)
    ensures |r.modifiers| == |o.modifiers| && Find(r) == Find(o)
    ensures Mod(r) == Mod(o).(index := v)
    ensures r == o.(modifiers := r.modifiers)
  {
    var k := Find(o).value;
    var r := o.(modifiers := o.modifiers[k := o.modifiers[k].(index := v)]);
    FindSameNames(o, r);
    r
  }

  /** Objects whose modifier stacks carry the same names find the same modifier. */
  lemma FindSameNames(o: Obj, p: Obj)
    requires |o.modifiers| == |p.modifiers|
    requires forall k :: 0 <= k < |o.modifiers| ==> o.modifiers[k].name == p.modifiers[k].name
    ensures Find(o) == Find(p)
  {
    assert ModifierNames(o.modifiers) == ModifierNames(p.modifiers);
  }

  /** What the handle reads depends on the modifier stack alone. */
  lemma SameModifiers(a: Obj, b: Obj)
    requires a.modifiers == b.modifiers
    ensures Find(a) == Find(b) && Index(a) == Index(b) && Collection(a) == Collection(b)
    ensures Find(a).Some? ==> Mod(a) == Mod(b)
  {
  }

  /** The `collection` property: None through a handle without a modifier. */
  function Collection(o: Obj): (r: Option<string>)
    ensures Find(o).None? ==> r.None?
    ensures Find(o).Some? ==> r == o.modifiers[Find(o).value].collection
  {
    if Find(o).None? then None else Mod(o).collection
  }

  /** The object after setting the `collection` property; without a modifier nothing changes. */
  function WithCollection(o: Obj, c: Option<string>): (r: Obj)
    ensures Find(o).None? ==> r == o
    ensures Find(o).Some? ==> Collection(r) == c && Index(r) == Index(o)
    ensures Find(r) == Find(o) && r == o.(modifiers := r.modifiers) && |r.modifiers| == |o.modifiers|
  {
    if Find(o).None? then o
    else
      var k := Find(o).value;
      var r := o.(modifiers := o.modifiers[k := o.modifiers[k].(collection := c)]);
      FindSameNames(o, r);
      r
  }

  /** The object after setting the modifier's viewport visibility (`hide_viewport` / `reveal_viewport`). */
  function WithViewport(o: Obj, show: bool): (r: Obj)
    requires Find(o).Some?
    ensures Find(r) == Find(o) && Mod(r) == Mod(o).(showViewport := show)
    ensures Index(r) == Index(o) && Collection(r) == Collection(o)
    ensures r == o.(modifiers := r.modifiers) && |r.modifiers| == |o.modifiers|
  {
    var k := Find(o).value;
    var r := o.(modifiers := o.modifiers[k := o.modifiers[k].(showViewport := show)]);
    FindSameNames(o, r);
    r
  }

  /**
   * `get_fcurve()`: the first curve of the object's action that animates the
   * modifier's index input at array index 0. Without a modifier or without an
   * action the attribute chain fails with AttributeError.
   */
  function GetFCurve(o: Obj): (r: Result<Option<nat>, PyError>)
    ensures r.Err? <==> Find(o).None? || o.action.None?
    ensures r.Err? ==> r.error == AttributeError
    ensures r.Ok? ==> r.value == CurveFor(o.action.value.curves, IndexPath(Mod(o)))
  {
    if Find(o).None? || o.action.None? then Err(AttributeError)
    else Ok(CurveFor(o.action.value.curves, IndexPath(Mod(o))))
  }

  /** `abs(key_frame - frame) <= .001` */
  predicate Near(keyFrame: real, frame: real)
  {
    -0.001 <= keyFrame - frame <= 0.001
  }

  /** The keys with every key within 0.001 of `frame` made CONSTANT. */
  function ConstantNear(keys: seq<Keyframe>, frame: real): (r: seq<Keyframe>)
    ensures |r| == |keys|
    ensures forall i :: 0 <= i < |keys| && Near(keys[i].frame, frame) ==> r[i] == keys[i].(interpolation := Constant)
    ensures forall i :: 0 <= i < |keys| && !Near(keys[i].frame, frame) ==> r[i] == keys[i]
  {
    if keys == [] then []
    else
      var head := if Near(keys[0].frame, frame) then keys[0].(interpolation := Constant) else keys[0];
      [head] + ConstantNear(keys[1..], frame)
  }

  /** The loop of `keyframe_index` that sets the interpolation of the keys near the current frame, in place. */
  method MakeConstantNear(keys: seq<Keyframe>, frame: real) returns (r: seq<Keyframe>)
    ensures r == ConstantNear(keys, frame)
  {
    r := keys;
    var i := 0;
    while i < |r|
      invariant 0 <= i <= |r| == |keys|
      invariant forall j :: 0 <= j < i && Near(keys[j].frame, frame) ==> r[j] == keys[j].(interpolation := Constant)
      invariant forall j :: 0 <= j < i && !Near(keys[j].frame, frame) ==> r[j] == keys[j]
      invariant forall j :: i <= j < |r| ==> r[j] == keys[j]
    {
      if Near(r[i].frame, frame) {
        r := r[i := r[i].(interpolation := Constant)];
      }
      i := i + 1;
    }
  }

  /**
   * The action after keying `v` on `path` at frame `f`: the host inserts the
   * key (making the action and the curve when missing), then every key of
   * that curve within 0.001 of `f` becomes CONSTANT. The curve always exists
   * after the insertion, so the early return of `keyframe_index` for a
   * missing curve is never taken.
   */
  function KeyedAction(a: Option<Action>, objName: string, path: string, f: real, v: int): (r: Action)
  {
    var a1 := InsertKey(a, objName, path, f, v);
    var c := CurveFor(a1.curves, path).value;
    a1.(curves := a1.curves[c := a1.curves[c].(keys := ConstantNear(a1.curves[c].keys, f))])
  }

  /** The object after `keyframe_index` at `frame`: its index input keyed there, with a CONSTANT key. */
  function Keyed(o: Obj, objName: string, frame: int): (r: Obj)
    requires Find(o).Some?
    ensures r == o.(action := r.action) && r.action.Some?
    ensures Find(r) == Find(o)
  {
    var m := Mod(o);
    o.(action := Some(KeyedAction(o.action, objName, IndexPath(m), frame as real, m.index)))
  }

  /** After `keyframe_index` the index curve exists and holds a CONSTANT key at the current frame with the current index value. */
  lemma KeyedIndexIsConstant(o: Obj, objName: string, frame: int)
    requires Find(o).Some?
    ensures GetFCurve(Keyed(o, objName, frame)).Ok?
    ensures GetFCurve(Keyed(o, objName, frame)).value.Some?
    ensures var r := Keyed(o, objName, frame);
            var keys := r.action.value.curves[GetFCurve(r).value.value].keys;
            exists i :: 0 <= i < |keys| && keys[i] == Keyframe(frame as real, Mod(o).index, Constant)
  {
    var m := Mod(o);
    var path := IndexPath(m);
    var a := InsertKey(o.action, objName, path, frame as real, m.index);
    var c := CurveFor(a.curves, path).value;
    var i :| 0 <= i < |a.curves[c].keys| && a.curves[c].keys[i].frame == frame as real && a.curves[c].keys[i].value == m.index;
    var r := Keyed(o, objName, frame);
    var newKeys := ConstantNear(a.curves[c].keys, frame as real);
    assert r.action.value.curves == a.curves[c := a.curves[c].(keys := newKeys)];
    CurveForKeys(a.curves, c, newKeys, path);
    assert newKeys[i] == Keyframe(frame as real, m.index, Constant);
  }

  /** Keys of the index curve away from the current frame keep their interpolation when the index is keyed. */
  lemma KeyedKeepsFarKeys(o: Obj, objName: string, frame: int, c: nat, i: nat)
    requires Find(o).Some? && o.action.Some? && GetFCurve(o) == Ok(Some(c))
    requires i < |o.action.value.curves[c].keys| && o.action.value.curves[c].keys[i].frame != frame as real
    requires !Near(o.action.value.curves[c].keys[i].frame, frame as real)
    ensures GetFCurve(Keyed(o, objName, frame)) == Ok(Some(c))
    ensures Keyed(o, objName, frame).action.value.curves[c].keys[i] == o.action.value.curves[c].keys[i]
  {
    var m := Mod(o);
    var path := IndexPath(m);
    var keys := o.action.value.curves[c].keys;
    var a := InsertKey(o.action, objName, path, frame as real, m.index);
    assert a.curves == o.action.value.curves[c := o.action.value.curves[c].(keys := KeyAt(keys, frame as real, m.index))];
    CurveForKeys(o.action.value.curves, c, KeyAt(keys, frame as real, m.index), path);
    var newKeys := ConstantNear(a.curves[c].keys, frame as real);
    CurveForKeys(a.curves, c, newKeys, path);
  }

  /**
   * Whether the index curve has a key strictly after `frame`: False when there
   * is no such curve, and the AttributeError of `get_fcurve` when there is no
   * modifier or no action.
   */
  function Future(o: Obj, frame: int): Result<bool, PyError>
  {
    match GetFCurve(o)
    case Err(e) => Err(e)
    case Ok(None) => Ok(false)
    case Ok(Some(c)) =>
      var keys := o.action.value.curves[c].keys;
      Ok(exists i :: 0 <= i < |keys| && keys[i].frame > frame as real)
  }

  /** `future_keys()`: searches the index curve's keys for one after the current frame. */
  method FutureKeys(o: Obj, frame: int) returns (r: Result<bool, PyError>)
    ensures r == Future(o, frame)
  {
    var fc := GetFCurve(o);
    if fc.Err? {
      return Err(AttributeError);
    }
    if fc.value.None? {
      return Ok(false);
    }
    var keys := o.action.value.curves[fc.value.value].keys;
    var i := 0;
    while i < |keys|
      invariant 0 <= i <= |keys|
      invariant forall j :: 0 <= j < i ==> keys[j].frame <= frame as real
    {
      if keys[i].frame > frame as real {
        return Ok(true);
      }
      i := i + 1;
    }
    return Ok(false);
  }

  /** No key sits after frame `f`. */
  predicate NoKeyAfter(keys: seq<Keyframe>, f: real)
  {
    forall i :: 0 <= i < |keys| ==> keys[i].frame <= f
  }

  /** Keying `path` at `f` puts no key after `f` on a curve that had none there. */
  lemma InsertKeyNoLater(a: Option<Action>, objName: string, path: string, f: real, v: int)
    requires a.Some? && CurveFor(a.value.curves, path).Some? ==> NoKeyAfter(a.value.curves[CurveFor(a.value.curves, path).value].keys, f)
    ensures var r := InsertKey(a, objName, path, f, v);
      NoKeyAfter(r.curves[CurveFor(r.curves, path).value].keys, f)
  {
    var act := if a.None? then Action(objName + "Action", []) else a.value;
    var r := InsertKey(a, objName, path, f, v);
    match CurveFor(act.curves, path)
    case None =>
      CurveForAppend(act.curves, FCurve(path, 0, [Keyframe(f, v, Bezier)]), path);
    case Some(c0) =>
      CurveForKeys(act.curves, c0, KeyAt(act.curves[c0].keys, f, v), path);
  }

  /**
   * Keying the index at the current frame adds no key after that frame: when
   * `future_keys` was not True before, it is False afterwards (the curve and
   * the action now exist).
   */
  lemma KeyedAddsNoFuture(o: Obj, objName: string, frame: int)
    requires Find(o).Some? && Future(o, frame) != Ok(true)
    ensures Future(Keyed(o, objName, frame), frame) == Ok(false)
  {
    var m := Mod(o);
    var path := IndexPath(m);
    var f := frame as real;
    InsertKeyNoLater(o.action, objName, path, f, m.index);
    var a := InsertKey(o.action, objName, path, f, m.index);
    var c := CurveFor(a.curves, path).value;
    var newKeys := ConstantNear(a.curves[c].keys, f);
    CurveForKeys(a.curves, c, newKeys, path);
    var r := Keyed(o, objName, frame);
    assert GetFCurve(r) == Ok(Some(c));
    assert r.action.value.curves[c].keys == newKeys;
    assert NoKeyAfter(newKeys, f);
  }

  /** `object_name(index)`: the shot name for `index`, by default the current index. */
  function ObjectName(objName: string, o: Obj, index: Option<int>): (r: Result<string, PyError>)
    ensures index.Some? ==> r == Ok(Version.FrameName(index.value, objName))
    ensures index.None? && Index(o).Ok? ==> r == Ok(Version.FrameName(Index(o).value, objName))
    ensures index.None? && Index(o).Err? ==> r == Err(AttributeError)
  {
    if index.Some? then Ok(Version.FrameName(index.value, objName))
    else match Index(o)
      case Ok(i) => Ok(Version.FrameName(i, objName))
      case Err(e) => Err(e)
  }

  /**
   * `get_object(index)`: looks the shot name up in the frame store; a missing
   * store fails with AttributeError, a missing shot with KeyError.
   */
  function GetObject(collections: map<string, Coll>, objName: string, o: Obj, index: Option<int>): (r: Result<string, PyError>)
    requires Collection(o).Some? ==> Collection(o).value in collections
    ensures r.Ok? <==>
      (ObjectName(objName, o, index).Ok? && Collection(o).Some? &&
       ObjectName(objName, o, index).value in collections[Collection(o).value].objects)
    ensures r.Ok? ==> r.value == ObjectName(objName, o, index).value
    ensures ObjectName(objName, o, index).Err? ==> r == Err(AttributeError)
    ensures ObjectName(objName, o, index).Ok? && Collection(o).None? ==> r == Err(AttributeError)
  {
    match ObjectName(objName, o, index)
    case Err(e) => Err(e)
    case Ok(name) =>
      if Collection(o).None? then Err(AttributeError)
      else if name in collections[Collection(o).value].objects then Ok(name)
      else Err(KeyError)
  }

  datatype PollResult = Enabled | Disabled(message: string)

  /** `StopMotionOperator.poll`: needs an active object carrying a StopMotion modifier, with a message otherwise. */
  function Poll(active: Option<string>, objects: map<string, Obj>): (r: PollResult)
    requires active.Some? ==> active.value in objects
    ensures r == Enabled <==> active.Some? && IsStopMotion(Some(objects[active.value]))
    ensures active.None? ==> r == Disabled("No Active Object")
    ensures active.Some? && !IsStopMotion(Some(objects[active.value])) ==> r == Disabled(active.value + " Not Initialized")
  {
    if active.None? then Disabled("No Active Object")
    else if !IsStopMotion(Some(objects[active.value])) then Disabled(active.value + " Not Initialized")
    else Enabled
  }

  /** Whether the active object carries a StopMotion modifier. */
  predicate ActiveIsStopMotion(w: Session)
    reads w
  {
    w.active.Some? && w.active.value in w.objects && IsStopMotion(Some(w.objects[w.active.value]))
  }

  /** Updating one object of a valid session, with known data and without touching its modifiers' collections, keeps the session valid. */
  lemma ReplaceKeepsValid(w: Session, n: string, o: Obj)
    requires n in w.objects
    requires |o.modifiers| == |w.objects[n].modifiers|
    requires forall k :: 0 <= k < |o.modifiers| ==> o.modifiers[k].collection == w.objects[n].modifiers[k].collection
    ensures w.Valid() && o.data < w.nextData ==> Consistent(w.active, w.objects[n := o], w.selected, w.collections, w.nextData)
  {
    if w.Valid() && o.data < w.nextData {
      ReplaceConsistent(w.active, w.objects, w.selected, w.collections, w.nextData, n, o);
    }
  }

  /** The store a valid session's object points at exists, and so does every shot in it. */
  lemma StoreExists(w: Session, n: string)
    requires w.Valid() && n in w.objects
    ensures Collection(w.objects[n]).Some? ==> Collection(w.objects[n]).value in w.collections
    ensures Collection(w.objects[n]).Some? ==>
      forall s :: s in w.collections[Collection(w.objects[n]).value].objects ==> s in w.objects
  {
  }

  /** Sets the index input of object `n`'s StopMotion modifier. */
  method SetIndex(w: Session, n: string, v: int)
    requires n in w.objects && Find(w.objects[n]).Some?
    modifies w`objects
    ensures old(w.Valid()) ==> w.Valid()
    ensures w.objects == old(w.objects)[n := WithIndex(old(w.objects)[n], v)]
  {
    var o := w.objects[n];
    ReplaceKeepsValid(w, n, WithIndex(o, v));
    w.objects := w.objects[n := WithIndex(o, v)];
  }

  /** Sets the collection input of object `n`'s StopMotion modifier; a no-op without one. */
  method SetCollection(w: Session, n: string, c: Option<string>)
    requires n in w.objects && (c.Some? ==> c.value in w.collections)
    modifies w`objects
    ensures old(w.Valid()) ==> w.Valid()
    ensures w.objects == old(w.objects)[n := WithCollection(old(w.objects)[n], c)]
  {
    var o := w.objects[n];
    var o' := WithCollection(o, c);
    var objs := w.objects[n := o'];
    assert w.Valid() ==> ModifierTargetsExist(objs, w.collections) by {
      if w.Valid() {
        forall m, k | m in objs && 0 <= k < |objs[m].modifiers| && objs[m].modifiers[k].collection.Some?
          ensures objs[m].modifiers[k].collection.value in w.collections
        {
          if m == n && Some(k) == Find(o) {
            assert o'.modifiers[k].collection == c;
          }
        }
      }
    }
    w.objects := w.objects[n := o'];
  }

  /** `hide_viewport()` / `reveal_viewport()` on object `n`'s StopMotion modifier. */
  method SetViewport(w: Session, n: string, show: bool)
    requires n in w.objects && Find(w.objects[n]).Some?
    modifies w`objects
    ensures old(w.Valid()) ==> w.Valid()
    ensures w.objects == old(w.objects)[n := WithViewport(old(w.objects)[n], show)]
  {
    var o := w.objects[n];
    ReplaceKeepsValid(w, n, WithViewport(o, show));
    w.objects := w.objects[n := WithViewport(o, show)];
  }

  /** `keyframe_index(context)` on object `o` named `objName`: keys the index at `frame` and makes the keys there CONSTANT. */
  method KeyObject(o: Obj, objName: string, frame: int) returns (r: Obj)
    requires Find(o).Some?
    ensures r == Keyed(o, objName, frame)
  {
    var m := Mod(o);
    r := o.(action := Some(InsertKey(o.action, objName, IndexPath(m), frame as real, m.index)));
    var fc := GetFCurve(r);
    if fc.Ok? && fc.value.Some? {
      var c := fc.value.value;
      var a := r.action.value;
      var keys := MakeConstantNear(a.curves[c].keys, frame as real);
      r := r.(action := Some(a.(curves := a.curves[c := a.curves[c].(keys := keys)])));
    }
  }

  /** `keyframe_index(context)` on object `n` of the session, at the current frame. */
  method KeyframeIndex(w: Session, n: string)
    requires n in w.objects && Find(w.objects[n]).Some?
    modifies w`objects
    ensures old(w.Valid()) ==> w.Valid()
    ensures w.objects == old(w.objects)[n := Keyed(old(w.objects)[n], n, old(w.frameCurrent))]
  {
    var o1 := KeyObject(w.objects[n], n, w.frameCurrent);
    ReplaceKeepsValid(w, n, o1);
    w.objects := w.objects[n := o1];
  }
}
