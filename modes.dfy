/**
 * Mode switching of modes.py. Editing a stop-motion object in a sub-object mode
 * works on the object's own mesh, so the mode operator first copies the
 * current shot's data into the object; sub-object modes then run the
 * live-update handler and hide the modifier, OBJECT mode stops the handler and
 * shows the modifier again.
 */
module Modes {
  import opened Wrappers
  import opened Strings
  import opened PyList
  import opened Host
  import opened ModifierData
  import UpdateHandler
  import Version

  /** `set_object(mode)`: leaves a sub-object mode for OBJECT mode; in OBJECT mode it does nothing. */
  method SetObject(w: Session, mode: Mode)
    modifies w`mode
    ensures mode != Object ==> w.mode == Object
    ensures mode == Object ==> w.mode == old(w.mode)
  {
    if mode != Object {
      w.ModeSet(Object, false);
    }
  }

  /** `restore(mode, obj)`: switches back to `mode`, calling the host only when the object is in another mode. */
  method Restore(w: Session, mode: Mode)
    modifies w`mode
    ensures w.mode == mode
  {
    if mode != w.mode {
      w.ModeSet(mode, false);
    }
  }

  /** The shot names of the store in ascending order, as `sorted(collection.objects, key=name)` gives them. */
  function FrameNames(objName: string, n: nat): (r: seq<string>)
    ensures |r| == n && forall i :: 0 <= i < n ==> r[i] == Version.FrameName(i, objName)
  {
    seq(n, i => Version.FrameName(i, objName))
  }

  /**
   * The shot the mode operator puts into the object: the entry at the index of
   * the store sorted by name. A missing store fails with AttributeError, an
   * index outside the store with IndexError (negative ones count from the end).
   */
  function SortedShot(collections: map<string, Coll>, o: Obj): (r: Result<string, PyError>)
    requires Find(o).Some?
    requires Collection(o).Some? ==> Collection(o).value in collections
    ensures r.Ok? ==> Collection(o).Some? && r.value in collections[Collection(o).value].objects
  {
    if Collection(o).None? then Err(AttributeError)
    else
      var store := collections[Collection(o).value].objects;
      var r := PyIndex(SortNames(store), Mod(o).index);
      assert r.Ok? ==> r.value in multiset(SortNames(store));
      r
  }

  /**
   * The shot selection fails with AttributeError without a store and with
   * IndexError for an index outside it; any index from minus the store's size
   * up to its size less one picks a shot.
   */
  lemma SortedShotErrors(collections: map<string, Coll>, o: Obj)
    requires Find(o).Some?
    requires Collection(o).Some? ==> Collection(o).value in collections
    ensures Collection(o).None? ==> SortedShot(collections, o) == Err(AttributeError)
    ensures Collection(o).Some? ==>
      var store := collections[Collection(o).value].objects;
      (SortedShot(collections, o).Ok? <==> -|store| <= Mod(o).index < |store|) &&
      (SortedShot(collections, o).Err? ==> SortedShot(collections, o).error == IndexError)
  {
    if Collection(o).Some? {
      var store := collections[Collection(o).value].objects;
      assert |SortNames(store)| == |store| by {
        assert |multiset(SortNames(store))| == |multiset(store)|;
      }
    }
  }

  /** The head of a sorted sequence comes no later than any of its names. */
  lemma SortedHead(a: seq<string>, x: string)
    requires SortedNames(a) && x in a
    ensures LessEq(a[0], x)
  {
    var j :| 0 <= j < |a| && a[j] == x;
    if j > 0 {
      assert LessEq(a[0], a[j]);
    }
  }

  lemma TailMultiset<T>(a: seq<T>)
    requires a != []
    ensures multiset(a[1..]) == multiset(a) - multiset{a[0]}
  {
    assert a == [a[0]] + a[1..];
  }

  /** Two orderings of the same names that are both sorted are the same sequence. */
  lemma {:induction false} SortedUnique(a: seq<string>, b: seq<string>)
    requires SortedNames(a) && SortedNames(b) && multiset(a) == multiset(b)
    ensures a == b
  {
    if a == [] || b == [] {
      assert |multiset(a)| == |multiset(b)|;
    } else {
      assert a[0] in multiset(b) && b[0] in multiset(a);
      SortedHead(a, b[0]);
      SortedHead(b, a[0]);
      LessAsymmetric(a[0], b[0]);
      TailMultiset(a);
      TailMultiset(b);
      SortedUnique(a[1..], b[1..]);
    }
  }

  /** The frame names 0..n-1 of one object are strictly increasing while they keep four digits. */
  lemma FrameNamesStrictlySorted(objName: string, n: nat)
    requires n <= 10000
    ensures StrictlySorted(FrameNames(objName, n))
  {
    var s := FrameNames(objName, n);
    forall i, j | 0 <= i < j < n ensures Less(s[i], s[j]) {
      Version.FrameNameOrder(i, j, objName);
    }
  }

  /**
   * When the store holds exactly the shots 0..n-1 (in any order) with n at most
   * 10000, sorting it by name and taking entry i yields shot i: the sorted
   * selection of the mode operator agrees with the zero-padded names.
   */
  lemma SortedStorePicksShot(store: seq<string>, objName: string, i: nat)
    requires |store| <= 10000 && multiset(store) == multiset(FrameNames(objName, |store|))
    requires i < |store|
    ensures PyIndex(SortNames(store), i) == Ok(Version.FrameName(i, objName))
  {
    var names := FrameNames(objName, |store|);
    FrameNamesStrictlySorted(objName, |store|);
    SortNamesOfSorted(names);
    SortNamesSorted(store);
    SortNamesSorted(names);
    SortedUnique(SortNames(store), SortNames(names));
  }

  /** Appending the next shot name to a store holding shots 0..n-1 gives a store holding shots 0..n. */
  lemma StoreGrows(store: seq<string>, objName: string)
    requires multiset(store) == multiset(FrameNames(objName, |store|))
    ensures multiset(store + [Version.FrameName(|store|, objName)]) == multiset(FrameNames(objName, |store| + 1))
  {
    assert FrameNames(objName, |store| + 1) == FrameNames(objName, |store|) + [Version.FrameName(|store|, objName)];
  }

  /** The mode operator's `mode` and `toggle` properties. */
  class ModeOperator {
    var mode: Mode
    var toggle: bool

    constructor (mode: Mode, toggle: bool)
      ensures this.mode == mode && this.toggle == toggle
    {
      this.mode := mode;
      this.toggle := toggle;
    }

    /**
     * `execute`: the operator's effect on the active object, as `ModeSwitch`
     * describes it; without an active object the host switch fails
     * (RuntimeError) and nothing changes.
     */
    method Execute(w: Session) returns (err: Option<PyError>)
      requires w.Valid()
      modifies this`mode, w`objects, w`handlers, w`mode
      ensures w.Valid()
      ensures old(w.active).None? ==>
        err == Some(RuntimeError) && w.objects == old(w.objects) && w.handlers == old(w.handlers) &&
        w.mode == old(w.mode) && mode == old(mode)
      ensures old(w.active).Some? ==>
        Switch(err, w.objects, w.handlers, w.mode, mode) ==
        ModeSwitch(old(w.collections), old(w.objects), old(w.handlers), old(w.mode), old(w.active).value, old(mode), toggle)
    {
      if w.active.None? {
        return Some(RuntimeError);
      }
      StoreExists(w, w.active.value);
      err, mode := SwitchActive(w, w.active.value, mode, toggle);
    }
  }

  /** The mode operator on active object `n`, asked for `mode`: returns the error and the operator's new `mode` property. */
  method SwitchActive(w: Session, n: string, mode: Mode, toggle: bool) returns (err: Option<PyError>, requested: Mode)
    requires w.Valid() && StoreKnown(w.collections, w.objects, n)
    modifies w`objects, w`handlers, w`mode
    ensures w.Valid()
    ensures Switch(err, w.objects, w.handlers, w.mode, requested) ==
      ModeSwitch(old(w.collections), old(w.objects), old(w.handlers), old(w.mode), n, mode, toggle)
  {
    ghost var expected := ModeSwitch(w.collections, w.objects, w.handlers, w.mode, n, mode, toggle);
    ghost var objects, handlers, current := w.objects, w.handlers, w.mode;
    requested := mode;
    if Handle(Some(w.objects[n])).Some? {
      requested := if toggle && mode == w.mode then Object else mode;
      var shot := SwitchShot(w, n, requested);
      if shot.Err? {
        assert expected == Switch(Some(shot.error), objects, handlers, current, mode);
        return Some(shot.error), mode;
      }
      assert expected == Switch(None, w.objects, w.handlers, if toggle && current == requested then Object else requested, requested);
    } else {
      assert expected == Switch(None, objects, handlers, if toggle && current == mode then Object else mode, mode);
    }
    w.ModeSet(requested, toggle);
    err := None;
  }

  /** Lines 75-90 of the mode operator, for an object with a StopMotion modifier. */
  method SwitchShot(w: Session, n: string, requested: Mode) returns (shot: Result<string, PyError>)
    requires w.Valid() && n in w.objects && Find(w.objects[n]).Some?
    modifies w`objects, w`handlers
    ensures w.Valid()
    ensures Collection(old(w.objects)[n]).Some? ==> Collection(old(w.objects)[n]).value in old(w.collections)
    ensures shot == SortedShot(old(w.collections), old(w.objects)[n])
    ensures shot.Err? ==> w.objects == old(w.objects) && w.handlers == old(w.handlers)
    ensures shot.Ok? ==>
      shot.value in old(w.objects) &&
      w.objects == old(w.objects)[n := WithViewport(old(w.objects)[n].(data := old(w.objects)[shot.value].data), requested == Object)] &&
      w.handlers == Switched(old(w.handlers), requested)
  {
    ghost var objs0 := w.objects;
    shot := PutShot(w, n);
    if shot.Ok? {
      ghost var o1 := w.objects[n];
      SwitchUpdater(w, n, requested);
      MapOverwrite(objs0, n, o1, WithViewport(o1, requested == Object));
    }
  }

  /** The outcome of the mode operator on the active object: the error raised, the objects and handlers after it, the object's mode and the operator's `mode` property. */
  datatype Switch = Switch(err: Option<PyError>, objects: map<string, Obj>, handlers: seq<string>, current: Mode, requested: Mode)

  /**
   * The mode operator's `execute` on active object `n`, in mode `current`. With
   * a StopMotion modifier the object's data becomes that of the sorted store's
   * entry at the index (an error there is raised before anything changes); a
   * toggle into the current mode asks for OBJECT instead; OBJECT mode removes
   * the handler and shows the modifier, any other mode adds the handler and
   * hides the modifier. Then the host mode switch runs.
   */
  function ModeSwitch(collections: map<string, Coll>, objects: map<string, Obj>, handlers: seq<string>,
                      current: Mode, n: string, mode: Mode, toggle: bool): (r: Switch)
    requires StoreKnown(collections, objects, n)
    ensures r.err.Some? <==> IsStopMotion(Some(objects[n])) && SortedShot(collections, objects[n]).Err?
  {
    var o := objects[n];
    if Handle(Some(o)).None? then
      Switch(None, objects, handlers, if toggle && current == mode then Object else mode, mode)
    else
      var shot := SortedShot(collections, o);
      if shot.Err? then Switch(Some(shot.error), objects, handlers, current, mode)
      else
        assert shot.value in objects by { StoreMembers(collections, objects, n); }
        var requested := if toggle && mode == current then Object else mode;
        var o1 := WithViewport(o.(data := objects[shot.value].data), requested == Object);
        Switch(None, objects[n := o1], Switched(handlers, requested),
               if toggle && current == requested then Object else requested, requested)
  }

  /** A failing shot selection raises its error before anything changes. */
  lemma ModeSwitchFails(collections: map<string, Coll>, objects: map<string, Obj>, handlers: seq<string>,
                        current: Mode, n: string, mode: Mode, toggle: bool)
    requires StoreKnown(collections, objects, n)
    requires IsStopMotion(Some(objects[n])) && SortedShot(collections, objects[n]).Err?
    ensures ModeSwitch(collections, objects, handlers, current, n, mode, toggle) ==
      Switch(Some(SortedShot(collections, objects[n]).error), objects, handlers, current, mode)
  {
  }

  /** Without a StopMotion modifier the operator is the host mode switch alone. */
  lemma ModeSwitchPlain(collections: map<string, Coll>, objects: map<string, Obj>, handlers: seq<string>,
                        current: Mode, n: string, mode: Mode, toggle: bool)
    requires StoreKnown(collections, objects, n)
    requires !IsStopMotion(Some(objects[n]))
    ensures var r := ModeSwitch(collections, objects, handlers, current, n, mode, toggle);
      r.err.None? && r.objects == objects && r.handlers == handlers && r.requested == mode &&
      r.current == (if toggle && current == mode then Object else mode)
  {
  }

  /**
   * With a StopMotion modifier and a shot found, only the active object changes:
   * it takes the shot's data, keeps its modifier except that the modifier shows
   * in the viewport exactly in OBJECT mode, and the object ends in the mode
   * asked for (OBJECT when toggled from the mode it was in).
   */
  lemma ModeSwitchPutsShot(collections: map<string, Coll>, objects: map<string, Obj>, handlers: seq<string>,
                           current: Mode, n: string, mode: Mode, toggle: bool)
    requires StoreKnown(collections, objects, n)
    requires IsStopMotion(Some(objects[n])) && SortedShot(collections, objects[n]).Ok?
    ensures var r := ModeSwitch(collections, objects, handlers, current, n, mode, toggle);
      var shot := SortedShot(collections, objects[n]).value;
      shot in objects && r.err.None? && r.objects.Keys == objects.Keys &&
      (forall m :: m in objects && m != n ==> r.objects[m] == objects[m]) &&
      r.requested == (if toggle && mode == current then Object else mode) &&
      r.objects[n].data == objects[shot].data &&
      Find(r.objects[n]) == Find(objects[n]) &&
      Mod(r.objects[n]) == Mod(objects[n]).(showViewport := r.requested == Object) &&
      r.current == r.requested
  {
    StoreMembers(collections, objects, n);
  }

  /**
   * With the updater registered at most once, it stays registered at most once
   * and runs exactly when the operator asked for a sub-object mode.
   */
  lemma {:induction false} ModeSwitchHandlers(collections: map<string, Coll>, objects: map<string, Obj>, handlers: seq<string>,
                                               current: Mode, n: string, mode: Mode, toggle: bool)
    requires StoreKnown(collections, objects, n)
    requires IsStopMotion(Some(objects[n])) && SortedShot(collections, objects[n]).Ok?
    requires Count(handlers, UpdateHandler.HANDLER) <= 1
    ensures var r := ModeSwitch(collections, objects, handlers, current, n, mode, toggle);
      Count(r.handlers, UpdateHandler.HANDLER) <= 1 &&
      (UpdateHandler.HANDLER in r.handlers <==> r.requested != Object)
  {
    UpdateHandler.AtMostOnce(handlers);
    UpdateHandler.RemoveStops(handlers);
  }

  /** Object `n` exists, and so do the store its modifier points at and every shot in that store. */
  predicate StoreKnown(collections: map<string, Coll>, objects: map<string, Obj>, n: string)
  {
    n in objects &&
    (Collection(objects[n]).Some? ==>
      Collection(objects[n]).value in collections &&
      forall s :: s in collections[Collection(objects[n]).value].objects ==> s in objects)
  }

  /** The shot the sorted selection picks is an object of the session. */
  lemma StoreMembers(collections: map<string, Coll>, objects: map<string, Obj>, n: string)
    requires StoreKnown(collections, objects, n) && Find(objects[n]).Some?
    ensures SortedShot(collections, objects[n]).Ok? ==> SortedShot(collections, objects[n]).value in objects
  {
  }

  /** The handler registrations after the mode operator asked for `requested`. */
  function Switched(handlers: seq<string>, requested: Mode): (r: seq<string>)
    ensures requested == Object ==> r == RemoveFirst(handlers, UpdateHandler.HANDLER)
    ensures requested != Object ==> r == UpdateHandler.Added(handlers)
  {
    if requested == Object then RemoveFirst(handlers, UpdateHandler.HANDLER) else UpdateHandler.Added(handlers)
  }

  /** Lines 75-80 of the mode operator: puts the data of the sorted store's entry at the index into object `n`. */
  method PutShot(w: Session, n: string) returns (shot: Result<string, PyError>)
    requires w.Valid() && n in w.objects && Find(w.objects[n]).Some?
    modifies w`objects
    ensures w.Valid()
    ensures Collection(old(w.objects)[n]).Some? ==> Collection(old(w.objects)[n]).value in old(w.collections)
    ensures shot == SortedShot(old(w.collections), old(w.objects)[n])
    ensures shot.Err? ==> w.objects == old(w.objects)
    ensures shot.Ok? ==>
      shot.value in old(w.objects) &&
      w.objects == old(w.objects)[n := old(w.objects)[n].(data := old(w.objects)[shot.value].data)]
  {
    var o := w.objects[n];
    StoreExists(w, n);
    shot := SortedShot(w.collections, o);
    if shot.Ok? {
      var o1 := o.(data := w.objects[shot.value].data);
      ReplaceKeepsValid(w, n, o1);
      w.objects := w.objects[n := o1];
    }
  }

  /** Lines 85-90 of the mode operator: OBJECT stops the updater and shows the modifier, other modes start it and hide the modifier. */
  method SwitchUpdater(w: Session, n: string, requested: Mode)
    requires w.Valid() && n in w.objects && Find(w.objects[n]).Some?
    modifies w`objects, w`handlers
    ensures w.Valid()
    ensures w.objects == old(w.objects)[n := WithViewport(old(w.objects)[n], requested == Object)]
    ensures w.handlers == Switched(old(w.handlers), requested)
  {
    if requested == Object {
      UpdateHandler.Remove(w);
      SetViewport(w, n, true);
    } else {
      UpdateHandler.Add(w);
      SetViewport(w, n, false);
    }
  }

  /**
   * The updater toggle's `poll`: with no StopMotion object, or in OBJECT mode,
   * it is available only to stop a running updater; in a sub-object mode only
   * to start a stopped one.
   */
  function UpdaterPoll(active: Option<Obj>, mode: Mode, running: bool): (r: bool)
    ensures !IsStopMotion(active) ==> (r <==> running)
    ensures IsStopMotion(active) && mode == Object ==> (r <==> running)
    ensures IsStopMotion(active) && mode != Object ==> (r <==> !running)
  {
    if !IsStopMotion(active) then running
    else if mode == Object then running
    else !running
  }

  /**
   * The updater toggle's `execute`: a running updater is removed and the
   * modifier shown, otherwise the updater is added and the modifier hidden; the
   * modifier is touched only when the active object has one.
   */
  method UpdaterExecute(w: Session)
    requires w.Valid()
    modifies w`objects, w`handlers
    ensures w.Valid()
    ensures w.handlers == if UpdateHandler.HANDLER in old(w.handlers) then RemoveFirst(old(w.handlers), UpdateHandler.HANDLER)
                          else UpdateHandler.Added(old(w.handlers))
    ensures old(w.active).Some? && IsStopMotion(Some(old(w.objects)[old(w.active).value])) ==>
      w.objects == old(w.objects)[old(w.active).value :=
        WithViewport(old(w.objects)[old(w.active).value], UpdateHandler.HANDLER in old(w.handlers))]
    ensures !(old(w.active).Some? && IsStopMotion(Some(old(w.objects)[old(w.active).value]))) ==> w.objects == old(w.objects)
  {
    var hasModifier := w.active.Some? && Handle(Some(w.objects[w.active.value])).Some?;
    var running := UpdateHandler.IsRunning(w.handlers);
    if running == Some(true) {
      UpdateHandler.Remove(w);
      if hasModifier {
        SetViewport(w, w.active.value, true);
      }
    } else {
      UpdateHandler.Add(w);
      if hasModifier {
        SetViewport(w, w.active.value, false);
      }
    }
  }

  /** With at most one registration, the updater toggle flips whether the updater runs, and the modifier is shown exactly when it no longer runs. */
  lemma UpdaterToggleFlips(handlers: seq<string>)
    requires Count(handlers, UpdateHandler.HANDLER) <= 1
    ensures var after := if UpdateHandler.HANDLER in handlers then RemoveFirst(handlers, UpdateHandler.HANDLER)
                         else UpdateHandler.Added(handlers);
            (UpdateHandler.HANDLER in after <==> UpdateHandler.HANDLER !in handlers)
  {
    UpdateHandler.RemoveStops(handlers);
  }
}
