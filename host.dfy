/**
 * A small in-memory stand-in for the host application (Blender) that the
 * add-on drives: objects, collections and materials by name, the scene's child
 * collections, the active object and its interaction mode, the selection, the
 * current frame and the `frame_change_post` handler list.
 *
 * Objects, collections and materials are values kept in maps keyed by their
 * unique names; mesh data blocks are opaque ids. The few host operations the
 * add-on calls (`mode_set`, `keyframe_insert`, `objects.new`, `data.copy`,
 * `keyframe_jump`, collection linking) are methods with the effect the add-on
 * assumes of them.
 */
module Host {
  import opened Wrappers
  import opened Strings
  import Version

  /** A mesh data block, by identity. */
  type DataId = nat

  datatype Mode = Object | Edit | Sculpt | VertexPaint | WeightPaint | TexturePaint

  datatype Interpolation = Constant | Linear | Bezier

  /** A key of an animation curve: the frame it sits on (`co[0]`), its value (`co[1]`) and its interpolation. */
  datatype Keyframe = Keyframe(frame: real, value: int, interpolation: Interpolation)

  datatype FCurve = FCurve(dataPath: string, arrayIndex: nat, keys: seq<Keyframe>)

  datatype Action = Action(name: string, curves: seq<FCurve>)

  /** An NLA strip playing an action from a start frame. */
  datatype Strip = Strip(action: string, start: real)

  datatype LinkMode = LinkObject | LinkData

  /** A material slot: the material it holds and whether that material belongs to the object or to its data. */
  datatype Slot = Slot(material: Option<string>, link: LinkMode)

  /**
   * A geometry-nodes modifier: its name, its node group, the identifiers of the
   * group's "Instance Index" and "Collection" inputs together with those inputs'
   * values, the material input (used by the onion-skin "Materializer"), and its
   * viewport flags.
   */
  datatype NodesModifier = NodesModifier(
    name: string,
    group: string,
    indexInput: string,
    collectionInput: string,
    index: int,
    collection: Option<string>,
    material: Option<string>,
    showViewport: bool,
    showInEditmode: bool)

  datatype Obj = Obj(
    isMesh: bool,
    data: DataId,
    modifiers: seq<NodesModifier>,
    action: Option<Action>,
    slots: seq<Slot>,
    color: seq<real>,
    hideSelect: bool,
    hideRender: bool,
    showShadows: bool,
    props: Version.IdProps,
    nla: seq<Strip>)

  datatype Coll = Coll(
    objects: seq<string>,
    fakeUser: bool,
    hideSelect: bool,
    hideRender: bool,
    hideViewport: bool,
    props: Version.IdProps)

  /** A material: its RGB colour and opacity (kept both on the node inputs and the viewport colour), its tags, and whether its node tree and settings were set up. */
  datatype Material = Material(color: seq<real>, opacity: real, props: Version.IdProps, setUp: bool)

  /** What an operator returns. */
  datatype Status = Finished | Cancelled

  /** A new mesh object holding data `d`, as `bpy.data.objects.new` makes it. */
  function NewObj(d: DataId): Obj
  {
    Obj(true, d, [], None, [], [1.0, 1.0, 1.0, 1.0], false, false, true, map[], [])
  }

  /** A new, empty collection, as `bpy.data.collections.new` makes it. */
  function NewColl(): Coll
  {
    Coll([], false, false, false, false, map[])
  }

  /**
   * The name the host gives a new item asked to be called `base`: `base`
   * itself when it is free, otherwise a longer free name that starts with
   * `base` and a `.`. Only this contract is relied on; the host's own
   * choice (the next free `.NNN`, so "base.002" rather than "base.001.001",
   * and names cut to 63 bytes) is not modelled.
   */
  function FreshName(base: string, taken: set<string>): (r: string)
    ensures r !in taken
    ensures base !in taken ==> r == base
    ensures |r| >= |base|
    decreases |taken|
  {
    if base !in taken then base else FreshName(base + ".001", taken - {base})
  }

  /** A taken name is never handed out as it is: the host's name starts with it and goes on with a `.` suffix. */
  lemma {:induction false} FreshNameSuffix(base: string, taken: set<string>)
    requires base in taken
    ensures var r := FreshName(base, taken);
      |r| > |base| && r[..|base|] == base && r[|base|] == '.'
    decreases |taken|
  {
    var next := base + ".001";
    var r := FreshName(base, taken);
    assert r == FreshName(next, taken - {base});
    if next in taken - {base} {
      FreshNameSuffix(next, taken - {base});
      assert r[..|next|] == next;
      assert r[..|base|] == next[..|base|];
    }
  }

  /** The data path of a modifier's index input: `modifiers["<name>"]["<identifier>"]`. */
  function IndexPath(m: NodesModifier): string
  {
    "modifiers[\"" + m.name + "\"][\"" + m.indexInput + "\"]"
  }

  /** The position of the first curve animating `path` at array index 0. */
  function CurveFor(curves: seq<FCurve>, path: string): (r: Option<nat>)
    ensures r.Some? ==> r.value < |curves| && curves[r.value].dataPath == path && curves[r.value].arrayIndex == 0
    ensures r.Some? ==> forall j :: 0 <= j < r.value ==> !(curves[j].dataPath == path && curves[j].arrayIndex == 0)
    ensures r.None? <==> forall j :: 0 <= j < |curves| ==> !(curves[j].dataPath == path && curves[j].arrayIndex == 0)
  {
    if curves == [] then None
    else if curves[0].dataPath == path && curves[0].arrayIndex == 0 then Some(0)
    else match CurveFor(curves[1..], path)
      case None => None
      case Some(k) => Some(k + 1)
  }

  /** Some key sits on `frame` and holds `value`. */
  predicate HasKey(keys: seq<Keyframe>, frame: real, value: int)
  {
    exists i :: 0 <= i < |keys| && keys[i].frame == frame && keys[i].value == value
  }

  /** The keys after the host keys `value` at `frame`: an existing key on that frame takes the new value, otherwise a new Bezier key is added. */
  function KeyAt(keys: seq<Keyframe>, frame: real, value: int): (r: seq<Keyframe>)
    ensures HasKey(r, frame, value)
    ensures |r| == |keys| || |r| == |keys| + 1
    ensures forall i :: 0 <= i < |keys| && keys[i].frame != frame ==> r[i] == keys[i]
    ensures forall i :: 0 <= i < |r| ==> r[i].frame == frame || (i < |keys| && r[i] == keys[i])
  {
    if keys == [] then
      var r := [Keyframe(frame, value, Bezier)];
      assert r[0].frame == frame && r[0].value == value;
      r
    else if keys[0].frame == frame then
      var r := [keys[0].(value := value)] + keys[1..];
      assert r[0].frame == frame && r[0].value == value;
      r
    else
      var t := KeyAt(keys[1..], frame, value);
      HasKeyCons(keys[0], t, frame, value);
      var r := [keys[0]] + t;
      assert forall i :: 0 < i < |r| ==> r[i] == t[i - 1];
      r
  }

  /** A key found further down the curve is still found with one more key in front. */
  lemma HasKeyCons(k: Keyframe, t: seq<Keyframe>, frame: real, value: int)
    requires HasKey(t, frame, value)
    ensures HasKey([k] + t, frame, value)
  {
    var i :| 0 <= i < |t| && t[i].frame == frame && t[i].value == value;
    assert ([k] + t)[i + 1] == t[i];
  }

  /** `keyframe_insert` on a modifier's index input: makes the action and the curve when missing, then keys the value at the frame. */
  function InsertKey(a: Option<Action>, objName: string, path: string, frame: real, value: int): (r: Action)
    ensures CurveFor(r.curves, path).Some?
    ensures HasKey(r.curves[CurveFor(r.curves, path).value].keys, frame, value)
  {
    var act := if a.None? then Action(objName + "Action", []) else a.value;
    match CurveFor(act.curves, path)
    case None =>
      var r := act.(curves := act.curves + [FCurve(path, 0, [Keyframe(frame, value, Bezier)])]);
      assert r.curves[|act.curves|].keys[0].frame == frame;
      assert CurveFor(r.curves, path) == Some(|act.curves|) by {
        CurveForAppend(act.curves, FCurve(path, 0, [Keyframe(frame, value, Bezier)]), path);
      }
      r
    case Some(c) =>
      var r := act.(curves := act.curves[c := act.curves[c].(keys := KeyAt(act.curves[c].keys, frame, value))]);
      assert CurveFor(r.curves, path) == Some(c) by { CurveForKeys(act.curves, c, KeyAt(act.curves[c].keys, frame, value), path); }
      r
  }

  lemma {:induction false} CurveForAppend(curves: seq<FCurve>, f: FCurve, path: string)
    requires CurveFor(curves, path).None? && f.dataPath == path && f.arrayIndex == 0
    ensures CurveFor(curves + [f], path) == Some(|curves|)
  {
    if curves != [] {
      assert (curves + [f])[1..] == curves[1..] + [f];
      CurveForAppend(curves[1..], f, path);
    }
  }

  lemma {:induction false} CurveForKeys(curves: seq<FCurve>, c: nat, keys: seq<Keyframe>, path: string)
    requires CurveFor(curves, path) == Some(c)
    ensures CurveFor(curves[c := curves[c].(keys := keys)], path) == Some(c)
  {
    if c > 0 {
      assert curves[c := curves[c].(keys := keys)][1..] == curves[1..][c - 1 := curves[c].(keys := keys)];
      CurveForKeys(curves[1..], c - 1, keys, path);
    }
  }

  /** Collection members are objects that exist. */
  ghost predicate MembersExist(collections: map<string, Coll>, objects: map<string, Obj>)
  {
    forall c, n :: c in collections && n in collections[c].objects ==> n in objects
  }

  /** Every collection a modifier points at exists. */
  ghost predicate ModifierTargetsExist(objects: map<string, Obj>, collections: map<string, Coll>)
  {
    forall n, k :: n in objects && 0 <= k < |objects[n].modifiers| && objects[n].modifiers[k].collection.Some? ==>
      objects[n].modifiers[k].collection.value in collections
  }

  /** Every object's data was handed out before `next`. */
  ghost predicate DataBelow(objects: map<string, Obj>, next: DataId)
  {
    forall n :: n in objects ==> objects[n].data < next
  }

  /**
   * The names a session refers to exist: the active and the selected objects,
   * the members of every collection and every collection a modifier points
   * at; and every object's data was handed out already.
   */
  ghost predicate Consistent(active: Option<string>, objects: map<string, Obj>, selected: seq<string>,
                             collections: map<string, Coll>, nextData: DataId)
  {
    (active.Some? ==> active.value in objects) &&
    (forall n :: n in selected ==> n in objects) &&
    MembersExist(collections, objects) &&
    ModifierTargetsExist(objects, collections) &&
    DataBelow(objects, nextData)
  }

  /** Replacing an object by one with the same modifier targets and known data keeps a session consistent. */
  lemma ReplaceConsistent(active: Option<string>, objects: map<string, Obj>, selected: seq<string>,
                          collections: map<string, Coll>, nextData: DataId, n: string, o: Obj)
    requires Consistent(active, objects, selected, collections, nextData) && n in objects && o.data < nextData
    requires |o.modifiers| == |objects[n].modifiers|
    requires forall k :: 0 <= k < |o.modifiers| ==> o.modifiers[k].collection == objects[n].modifiers[k].collection
    ensures Consistent(active, objects[n := o], selected, collections, nextData)
  {
  }

  /** Replacing an object by one with known data whose modifiers point only at existing collections keeps a session consistent. */
  lemma RetargetConsistent(active: Option<string>, objects: map<string, Obj>, selected: seq<string>,
                           collections: map<string, Coll>, nextData: DataId, n: string, o: Obj)
    requires Consistent(active, objects, selected, collections, nextData) && n in objects && o.data < nextData
    requires forall k :: 0 <= k < |o.modifiers| && o.modifiers[k].collection.Some? ==> o.modifiers[k].collection.value in collections
    ensures Consistent(active, objects[n := o], selected, collections, nextData)
  {
  }

  /**
   * Adding object `s` (without modifiers) as `shape` to collection `c`, and
   * replacing object `n` by `o`, whose modifiers point only at existing
   * collections, keeps a session consistent when both data ids are below the
   * new `next`.
   */
  lemma AddShotConsistent(active: Option<string>, objects: map<string, Obj>, selected: seq<string>,
                          collections: map<string, Coll>, nextData: DataId, next: DataId,
                          n: string, o: Obj, shape: string, s: Obj, c: string)
    requires Consistent(active, objects, selected, collections, nextData)
    requires n in objects && shape !in objects && c in collections && nextData <= next
    requires o.data < next && s.data < next && s.modifiers == []
    requires forall k :: 0 <= k < |o.modifiers| && o.modifiers[k].collection.Some? ==> o.modifiers[k].collection.value in collections
    ensures Consistent(active, objects[shape := s][n := o], selected,
                       collections[c := collections[c].(objects := collections[c].objects + [shape])], next)
  {
    var objs := objects[shape := s][n := o];
    var colls := collections[c := collections[c].(objects := collections[c].objects + [shape])];
    assert MembersExist(colls, objs) by {
      forall k, m | k in colls && m in colls[k].objects
        ensures m in objs
      {
        if k == c && m !in collections[c].objects {
          assert m in [shape];
        }
      }
    }
  }

  /**
   * Adding a new collection `c` whose only member is a new object `first`, a
   * copy of object `n`'s replacement `o`, keeps a session consistent when
   * `o`'s modifiers point only at existing collections or at `c`.
   */
  lemma NewStoreConsistent(active: Option<string>, objects: map<string, Obj>, selected: seq<string>,
                           collections: map<string, Coll>, nextData: DataId,
                           n: string, o: Obj, first: string, c: string, store: Coll)
    requires Consistent(active, objects, selected, collections, nextData)
    requires n in objects && first !in objects && c !in collections && o.data < nextData && store.objects == [first]
    requires forall k :: 0 <= k < |o.modifiers| && o.modifiers[k].collection.Some? ==>
      o.modifiers[k].collection.value in collections || o.modifiers[k].collection.value == c
    ensures Consistent(active, objects[n := o][first := o], selected, collections[c := store], nextData)
  {
    var objs := objects[n := o][first := o];
    var colls := collections[c := store];
    assert MembersExist(colls, objs) by {
      forall k, m | k in colls && m in colls[k].objects
        ensures m in objs
      {
        if k == c {
          assert m in [first];
        }
      }
    }
  }

  /** Writing a key twice keeps the second value only. */
  lemma MapOverwrite<K, V>(m: map<K, V>, k: K, a: V, b: V)
    ensures m[k := a][k := b] == m[k := b]
  {
  }

  /** The host session the add-on runs in. */
  class Session {
    var objects: map<string, Obj>
    var collections: map<string, Coll>
    /** Names of the collections linked under the scene's master collection. */
    var sceneChildren: seq<string>
    var materials: map<string, Material>
    /** `context.object`. */
    var active: Option<string>
    /** The interaction mode of the active object. */
    var mode: Mode
    var selected: seq<string>
    var frameCurrent: int
    /** `bpy.app.handlers.frame_change_post`, each handler by its `__name__`. */
    var handlers: seq<string>
    /** The next unused mesh data id. */
    var nextData: DataId
    /** `SCREEN_OT_next_or_add_key.first_run`, a class attribute shared by every invocation. */
    var firstRun: bool
    /** The add-on preference `frame_offset`. */
    var preferenceFrameOffset: int
    /** Warnings reported to the user, oldest first. */
    var reports: seq<string>

    ghost predicate Valid()
      reads this`active, this`objects, this`selected, this`collections, this`nextData
    {
      Consistent(active, objects, selected, collections, nextData)
    }

    /** An empty session right after the add-on is enabled: the preference `frame_offset` has its default of 2. */
    constructor ()
      ensures Valid()
      ensures objects == map[] && collections == map[] && materials == map[] && sceneChildren == []
      ensures active == None && mode == Object && selected == [] && handlers == [] && reports == []
      ensures firstRun && preferenceFrameOffset == 2
    {
      objects, collections, sceneChildren, materials := map[], map[], [], map[];
      active, mode, selected, frameCurrent := None, Object, [], 1;
      handlers, nextData, firstRun, preferenceFrameOffset, reports := [], 0, true, 2, [];
    }

    /** `bpy.ops.object.mode_set(mode=m, toggle=toggle)`: toggling into the current mode goes back to OBJECT. */
    method ModeSet(m: Mode, toggle: bool)
      modifies this`mode
      ensures old(Valid()) ==> Valid()
      ensures mode == if toggle && old(mode) == m then Object else m
    {
      if toggle && mode == m {
        mode := Object;
      } else {
        mode := m;
      }
    }

    /** `data.copy()`: a new data block. */
    method CopyData(d: DataId) returns (c: DataId)
      modifies this`nextData
      ensures c == old(nextData) && nextData == c + 1
    {
      c := nextData;
      nextData := nextData + 1;
    }

    /** `bpy.data.objects.new(name=base, object_data=d)`: the new object gets `base` or, when that is taken, a fresh variant of it. */
    method NewObject(base: string, d: DataId) returns (name: string)
      modifies this`objects
      ensures name == FreshName(base, old(objects).Keys) && name !in old(objects)
      ensures objects == old(objects)[name := NewObj(d)]
    {
      name := FreshName(base, objects.Keys);
      objects := objects[name := NewObj(d)];
    }

    /** `bpy.data.collections.new(name=base)`: an empty collection under `base` or, when that is taken, a fresh variant of it. */
    method NewCollection(base: string) returns (name: string)
      modifies this`collections
      ensures name == FreshName(base, old(collections).Keys) && name !in old(collections)
      ensures collections == old(collections)[name := NewColl()]
    {
      name := FreshName(base, collections.Keys);
      collections := collections[name := NewColl()];
    }

    /** `obj.copy()` renamed to `base`: a new object equal to object `n` (sharing its data), under `base` or a fresh variant of it. */
    method CopyObject(n: string, base: string) returns (name: string)
      requires n in objects
      modifies this`objects
      ensures name == FreshName(base, old(objects).Keys) && name !in old(objects)
      ensures objects == old(objects)[name := old(objects)[n]]
    {
      name := FreshName(base, objects.Keys);
      objects := objects[name := objects[n]];
    }

    /** `collection.objects.link(obj)` for an object not yet in the collection. */
    method Link(c: string, n: string)
      requires c in collections && n in objects && n !in collections[c].objects
      modifies this`collections
      ensures collections == old(collections)[c := old(collections)[c].(objects := old(collections)[c].objects + [n])]
    {
      collections := collections[c := collections[c].(objects := collections[c].objects + [n])];
    }

    /** `screen.keyframe_jump()`: `next` is the next keyed frame the host finds, if any; without one the jump is cancelled. */
    method KeyframeJump(next: Option<int>) returns (s: Status)
      modifies this`frameCurrent
      ensures s == Finished <==> next.Some?
      ensures frameCurrent == if next.Some? then next.value else old(frameCurrent)
    {
      if next.Some? {
        frameCurrent := next.value;
        s := Finished;
      } else {
        s := Cancelled;
      }
    }
  }
}
