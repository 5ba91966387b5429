/**
 * The first, single-file revision of the add-on (stop_motion.py). Its shots are
 * named by bare four-digit numbers ("0000", "0001", ...), names that every
 * stop-motion object of a file shares; the next shot is named one past the
 * greatest name in the store; and the live-update handler `update_data` is put
 * into and taken out of the host's handler list directly.
 *
 * Its `Modifier` handle (lines 38-110) and `StopMotionOperator.poll` are those
 * of modifier_data.py without `object_name`/`get_object`, and are taken from
 * `ModifierData`; its next-or-add decision is that of the current revision and
 * is taken from `Animation`.
 */
module Legacy {
  import opened Wrappers
  import opened Strings
  import opened PyList
  import opened Host
  import opened ModifierData
  import Modes
  import Animation

  /** The name asked for the frame store. */
  const COLNAME := "StopMotion Sources"
  /** The `__name__` of the live-update handler. */
  const UPDATE_DATA := "update_data"

  // ---------------------------------------------------------------------
  // Shot names
  // ---------------------------------------------------------------------

  /** `int_to_str(index)`: the index zero-padded to four digits, which reads back as the index. */
  function IntToStr(i: int): (s: string)
    ensures ParseInt(s) == Some(i)
  {
    ParseZeroPad(i, 4);
    ZeroPad(i, 4)
  }

  /** Below 10000 the names are four digits long and sort as their numbers do. */
  lemma IntToStrOrder(a: nat, b: nat)
    requires a < 10000 && b < 10000
    ensures |IntToStr(a)| == 4 && AllDigits(IntToStr(a))
    ensures Less(IntToStr(a), IntToStr(b)) <==> a < b
  {
    Pad4Shape(a);
    Pad4Order(a, b);
  }

  /** The shot names 0..n-1, as the add operator and n-1 insertions make them. */
  function Shots(n: nat): (r: seq<string>)
    ensures |r| == n && forall i :: 0 <= i < n ==> r[i] == IntToStr(i)
  {
    seq(n, i => IntToStr(i))
  }

  /** Inserting shot n after the shots 0..n-1 gives the shots 0..n. */
  lemma ShotsSnoc(n: nat)
    ensures Shots(n + 1) == Shots(n) + [IntToStr(n)]
  {
  }

  /** Python's `max(names)` on `str` values: scans left to right and keeps a later name only when it is greater. */
  function MaxName(names: seq<string>): (r: string)
    requires names != []
    ensures r in names
  {
    if |names| == 1 then names[0]
    else
      var m := MaxName(names[..|names| - 1]);
      var last := names[|names| - 1];
      if Less(m, last) then last else m
  }

  /** `MaxName` is at least every name of the list. */
  lemma {:induction false} MaxNameIsGreatest(names: seq<string>, x: string)
    requires names != [] && x in names
    ensures LessEq(x, MaxName(names))
  {
    if |names| > 1 {
      var init := names[..|names| - 1];
      var m := MaxName(init);
      var last := names[|names| - 1];
      if x in init {
        MaxNameIsGreatest(init, x);
        if Less(m, last) && x != m {
          LessTransitive(x, m, last);
        }
      } else {
        assert x == last;
        LessTotal(m, last);
      }
    }
  }

  /**
   * Lines 194-195 of `insert_keyframe`: the name after the greatest name of the
   * store ("0000" standing in for an empty store); `int()` of a name that is
   * not an integer raises ValueError.
   */
  function Newest(store: seq<string>): (r: Result<string, PyError>)
    ensures r.Err? ==> r.error == ValueError
    ensures r.Ok? ==> ParseInt(r.value).Some?
  {
    var latest := if store == [] then "0000" else MaxName(store);
    match ParseInt(latest)
    case None => Err(ValueError)
    case Some(v) => Ok(IntToStr(v + 1))
  }

  /** When the store holds the shots 0..n-1 (n from 1 to 10000), the next name is that of shot n, the store's size. */
  lemma NewestFollowsShots(store: seq<string>)
    requires 1 <= |store| <= 10000 && multiset(store) == multiset(Shots(|store|))
    ensures Newest(store) == Ok(IntToStr(|store|))
  {
    var n := |store|;
    var m := MaxName(store);
    assert IntToStr(n - 1) in multiset(Shots(n));
    MaxNameIsGreatest(store, IntToStr(n - 1));
    assert m in multiset(Shots(n));
    var k :| 0 <= k < n && Shots(n)[k] == m;
    if k < n - 1 {
      IntToStrOrder(k, n - 1);
      LessAsymmetric(m, IntToStr(n - 1));
      assert false;
    }
  }

  /** When the store holds the shots 0..n-1 with n at most 10000, the sorted store's entry i is shot i. */
  lemma SortedShotsPick(store: seq<string>, i: nat)
    requires |store| <= 10000 && multiset(store) == multiset(Shots(|store|)) && i < |store|
    ensures PyIndex(SortNames(store), i) == Ok(IntToStr(i))
  {
    var names := Shots(|store|);
    assert StrictlySorted(names) by {
      forall a, b | 0 <= a < b < |names| ensures Less(names[a], names[b]) {
        IntToStrOrder(a, b);
      }
    }
    SortNamesOfSorted(names);
    SortNamesSorted(store);
    SortNamesSorted(names);
    Modes.SortedUnique(SortNames(store), SortNames(names));
  }

  // ---------------------------------------------------------------------
  // insert_keyframe
  // ---------------------------------------------------------------------

  /**
   * The data the new shot is made from, and whether it is copied: the given
   * source (copied when `use_copy`), or else the data of the store's shot
   * named after the current index, always copied; a missing shot is a
   * KeyError.
   */
  function ShotData(collections: map<string, Coll>, objects: map<string, Obj>, n: string,
                    source: Option<DataId>, useCopy: bool): (r: Result<(DataId, bool), PyError>)
    requires Modes.StoreKnown(collections, objects, n) && Find(objects[n]).Some? && Collection(objects[n]).Some?
    ensures source.Some? ==> r == Ok((source.value, useCopy))
    ensures source.None? ==>
      var name := IntToStr(Index(objects[n]).value);
      (r.Ok? <==> name in collections[Collection(objects[n]).value].objects) &&
      (r.Ok? ==> name in objects && r.value == (objects[name].data, true)) &&
      (r.Err? ==> r.error == KeyError)
  {
    if source.Some? then Ok((source.value, useCopy))
    else
      var name := IntToStr(Index(objects[n]).value);
      if name in collections[Collection(objects[n]).value].objects then Ok((objects[name].data, true))
      else Err(KeyError)
  }

  /**
   * `insert_keyframe(context, source_data, use_copy)`: nothing happens without
   * an active object or without a StopMotion modifier. Otherwise the object
   * is put in OBJECT mode; the new shot is named one past the store's greatest
   * name, made from the source data (or a copy) and linked into the store;
   * the index becomes the old store size and is keyed at the current frame;
   * the object takes the new shot's data and returns to its mode. A missing
   * store raises AttributeError, an unreadable greatest name ValueError and a
   * missing current shot KeyError, each before anything but the mode changes.
   */
  function Inserted(collections: map<string, Coll>, objects: map<string, Obj>, nextData: DataId,
                    active: Option<string>, mode: Mode, frame: int, source: Option<DataId>, useCopy: bool): (r: Animation.Insertion)
    requires Animation.ActiveKnown(collections, objects, active)
    ensures r.err.Some? ==> r.objects == objects && r.collections == collections && r.nextData == nextData && r.mode == Object
    ensures r.err.None? ==> r.mode == mode
  {
    if active.None? || Find(objects[active.value]).None? then Animation.Insertion(None, objects, collections, nextData, mode)
    else
      var n := active.value;
      var o := objects[n];
      if Collection(o).None? then Animation.Insertion(Some(AttributeError), objects, collections, nextData, Object)
      else
        var c := Collection(o).value;
        var store := collections[c].objects;
        match Newest(store)
        case Err(e) => Animation.Insertion(Some(e), objects, collections, nextData, Object)
        case Ok(newest) =>
          match ShotData(collections, objects, n, source, useCopy)
          case Err(e) => Animation.Insertion(Some(e), objects, collections, nextData, Object)
          case Ok((src, copy)) =>
            var (objs, colls, next) := Animation.Appended(collections, objects, nextData, n, c, newest, src, copy, frame);
            Animation.Insertion(None, objs, colls, next, mode)
  }

  /** `insert_keyframe`, run on the session. */
  method InsertKeyframe(w: Session, source: Option<DataId>, useCopy: bool) returns (err: Option<PyError>)
    requires Animation.ActiveKnown(w.collections, w.objects, w.active)
    modifies w`mode, w`objects, w`collections, w`nextData
    ensures Animation.Insertion(err, w.objects, w.collections, w.nextData, w.mode) ==
      Inserted(old(w.collections), old(w.objects), old(w.nextData), old(w.active), old(w.mode), old(w.frameCurrent), source, useCopy)
  {
    if w.active.None? {
      return None;
    }
    var n := w.active.value;
    if Handle(Some(w.objects[n])).None? {
      return None;
    }
    var mode := w.mode;
    w.ModeSet(Object, false);
    var c := Collection(w.objects[n]);
    if c.None? {
      return Some(AttributeError);
    }
    var newest := Newest(w.collections[c.value].objects);
    if newest.Err? {
      return Some(newest.error);
    }
    var src := ShotData(w.collections, w.objects, n, source, useCopy);
    if src.Err? {
      return Some(src.error);
    }
    Animation.AppendFrom(w, n, c.value, newest.value, src.value.0, src.value.1);
    w.ModeSet(mode, false);
    err := None;
  }

  /**
   * While the store holds the shots 0..n-1 (n from 1 to 9999) and the next
   * name is free, an insertion names the new shot after its index: the store
   * then holds the shots 0..n and the index is n.
   */
  lemma InsertKeepsNumbering(collections: map<string, Coll>, objects: map<string, Obj>, nextData: DataId,
                             n: string, mode: Mode, frame: int, source: Option<DataId>, useCopy: bool)
    requires Modes.StoreKnown(collections, objects, n) && IsStopMotion(Some(objects[n])) && Collection(objects[n]).Some?
    requires var store := collections[Collection(objects[n]).value].objects;
      1 <= |store| < 10000 && multiset(store) == multiset(Shots(|store|)) && IntToStr(|store|) !in objects
    requires Inserted(collections, objects, nextData, Some(n), mode, frame, source, useCopy).err.None?
    ensures var r := Inserted(collections, objects, nextData, Some(n), mode, frame, source, useCopy);
      var c := Collection(objects[n]).value;
      c in r.collections && n in r.objects &&
      var after := r.collections[c].objects;
      multiset(after) == multiset(Shots(|after|)) && IntToStr(|after| - 1) in r.objects
  {
    var c := Collection(objects[n]).value;
    var store := collections[c].objects;
    NewestFollowsShots(store);
    var src := InsertedAppends(collections, objects, nextData, n, mode, frame, source, useCopy);
    AppendKeepsNumbering(collections, objects, nextData, n, c, src.0, src.1, frame);
    var ap := Animation.Appended(collections, objects, nextData, n, c, IntToStr(|store|), src.0, src.1, frame);
    var r := Inserted(collections, objects, nextData, Some(n), mode, frame, source, useCopy);
    assert r.objects == ap.0 && r.collections == ap.1;
    assert r.collections[c].objects == ap.1[c].objects;
  }

  /**
   * A successful insertion appends the new shot to the store and shows it:
   * the index is the old store size, the store's new last entry is the new
   * shot, and the object takes that shot's data.
   */
  lemma InsertShowsNewShot(collections: map<string, Coll>, objects: map<string, Obj>, nextData: DataId,
                           n: string, mode: Mode, frame: int, source: Option<DataId>, useCopy: bool)
    requires Modes.StoreKnown(collections, objects, n) && IsStopMotion(Some(objects[n]))
    requires Inserted(collections, objects, nextData, Some(n), mode, frame, source, useCopy).err.None?
    ensures Collection(objects[n]).Some?
    ensures var r := Inserted(collections, objects, nextData, Some(n), mode, frame, source, useCopy);
      var c := Collection(objects[n]).value;
      var store := collections[c].objects;
      c in r.collections && n in r.objects &&
      var after := r.collections[c].objects;
      |after| == |store| + 1 && after[..|store|] == store && after[|store|] in r.objects &&
      Index(r.objects[n]) == Ok(|store|) && Collection(r.objects[n]) == Some(c) &&
      r.objects[n].data == r.objects[after[|store|]].data
  {
    var src := InsertedAppends(collections, objects, nextData, n, mode, frame, source, useCopy);
    var c := Collection(objects[n]).value;
    var newest := Newest(collections[c].objects).value;
    AppendShows(collections, objects, nextData, n, c, newest, src.0, src.1, frame);
  }

  /** `Animation.Appended` puts the new shot last in store `c` and shows it on object `n` at the old store size. */
  lemma AppendShows(collections: map<string, Coll>, objects: map<string, Obj>, nextData: DataId,
                    n: string, c: string, base: string, src: DataId, copy: bool, frame: int)
    requires n in objects && Find(objects[n]).Some? && Collection(objects[n]) == Some(c) && c in collections
    ensures var store := collections[c].objects;
      var ap := Animation.Appended(collections, objects, nextData, n, c, base, src, copy, frame);
      c in ap.1 && n in ap.0 &&
      var after := ap.1[c].objects;
      |after| == |store| + 1 && after[..|store|] == store && after[|store|] in ap.0 &&
      Index(ap.0[n]) == Ok(|store|) && Collection(ap.0[n]) == Some(c) &&
      ap.0[n].data == ap.0[after[|store|]].data
  {
  }

  /** Appending shot n, under its own free name, to a store holding the shots 0..n-1 gives a store holding the shots 0..n, with the index at n. */
  lemma AppendKeepsNumbering(collections: map<string, Coll>, objects: map<string, Obj>, nextData: DataId,
                             n: string, c: string, src: DataId, copy: bool, frame: int)
    requires n in objects && Find(objects[n]).Some? && c in collections
    requires var store := collections[c].objects;
      multiset(store) == multiset(Shots(|store|)) && IntToStr(|store|) !in objects
    ensures var store := collections[c].objects;
      var ap := Animation.Appended(collections, objects, nextData, n, c, IntToStr(|store|), src, copy, frame);
      c in ap.1 && n in ap.0 &&
      var after := ap.1[c].objects;
      |after| == |store| + 1 && multiset(after) == multiset(Shots(|after|)) &&
      Index(ap.0[n]) == Ok(|after| - 1) && IntToStr(|after| - 1) in ap.0
  {
    var store := collections[c].objects;
    var name := IntToStr(|store|);
    assert FreshName(name, objects.Keys) == name;
    var ap := Animation.Appended(collections, objects, nextData, n, c, name, src, copy, frame);
    var after := ap.1[c].objects;
    assert after == store + [name];
    ShotsSnoc(|store|);
    assert multiset(after) == multiset(Shots(|store|)) + multiset{name};
  }

  /** A successful insertion is the append of `Animation.Appended`, under the next name and with the data `ShotData` picks. */
  lemma InsertedAppends(collections: map<string, Coll>, objects: map<string, Obj>, nextData: DataId,
                        n: string, mode: Mode, frame: int, source: Option<DataId>, useCopy: bool) returns (src: (DataId, bool))
    requires Modes.StoreKnown(collections, objects, n) && IsStopMotion(Some(objects[n]))
    requires Inserted(collections, objects, nextData, Some(n), mode, frame, source, useCopy).err.None?
    ensures Collection(objects[n]).Some? && ShotData(collections, objects, n, source, useCopy) == Ok(src)
    ensures var c := Collection(objects[n]).value;
      Newest(collections[c].objects).Ok? &&
      var (objs, colls, next) := Animation.Appended(collections, objects, nextData, n, c, Newest(collections[c].objects).value, src.0, src.1, frame);
      Inserted(collections, objects, nextData, Some(n), mode, frame, source, useCopy) == Animation.Insertion(None, objs, colls, next, mode)
  {
    src := ShotData(collections, objects, n, source, useCopy).value;
  }

  // ---------------------------------------------------------------------
  // OBJECT_OT_keyframe_stop_motion and SCREEN_OT_next_or_add_key
  // ---------------------------------------------------------------------

  /** The keyframe operator's `use_copy` property. */
  class KeyframeOperator {
    var useCopy: bool

    constructor (useCopy: bool)
      ensures this.useCopy == useCopy
    {
      this.useCopy := useCopy;
    }

    /** `execute`: inserts from the first selected mesh other than the active object (copied when `use_copy`), or else from a copy of the current shot. */
    method Execute(w: Session) returns (err: Option<PyError>)
      requires Animation.ActiveKnown(w.collections, w.objects, w.active)
      modifies w`mode, w`objects, w`collections, w`nextData
      ensures var s := Animation.FirstSource(old(w.selected), old(w.objects), old(w.active));
        Animation.Insertion(err, w.objects, w.collections, w.nextData, w.mode) ==
        Inserted(old(w.collections), old(w.objects), old(w.nextData), old(w.active), old(w.mode), old(w.frameCurrent),
                 if s.Some? then Some(old(w.objects)[s.value].data) else None, s.None? || useCopy)
    {
      var s := Animation.ChooseSource(w);
      if s.Some? {
        err := InsertKeyframe(w, Some(w.objects[s.value].data), useCopy);
      } else {
        err := InsertKeyframe(w, None, true);
      }
    }
  }

  /**
   * The decision of lines 264-285 as written. This revision registers no
   * add-on preferences (lines 644-656), so the first time a key is to be
   * added `first_run` is cleared (line 279) and reading `frame_offset` from
   * the missing preferences raises AttributeError (line 281).
   */
  function NextOrAddPlanAsWritten(o: Option<Obj>, frame: int, firstRun: bool, frameOffset: int): (r: Animation.Plan)
  {
    if !IsStopMotion(o) then Animation.Plan(Ok(Animation.Jump), firstRun, frameOffset)
    else match Future(o.value, frame)
      case Err(e) => Animation.Plan(Err(e), firstRun, frameOffset)
      case Ok(true) => Animation.Plan(Ok(Animation.Jump), firstRun, frameOffset)
      case Ok(false) =>
        if firstRun then Animation.Plan(Err(AttributeError), false, frameOffset)
        else Animation.Plan(if frameOffset == 0 then Ok(Animation.Jump) else Ok(Animation.Add(frameOffset)), false, frameOffset)
  }

  /**
   * As written, the first add raises AttributeError and clears `first_run`
   * with the offset still at the property's default of 0. The corrected
   * operator, which reads the preference, adds a key that many frames on.
   */
  lemma NextOrAddAsWrittenRaises(o: Option<Obj>, frame: int, preference: int)
    requires IsStopMotion(o) && Future(o.value, frame) == Ok(false) && 1 <= preference <= 100
    ensures NextOrAddPlanAsWritten(o, frame, true, 0) == Animation.Plan(Err(AttributeError), false, 0)
    ensures Animation.NextOrAddPlan(o, frame, true, 0, preference).step == Ok(Animation.Add(preference))
  {
  }

  /** Whatever the object and the frame, an as-written run that starts with offset 0 never adds a key and leaves the offset at 0. */
  lemma NextOrAddAsWrittenKeepsZero(o: Option<Obj>, frame: int, firstRun: bool)
    ensures var r := NextOrAddPlanAsWritten(o, frame, firstRun, 0);
      r.frameOffset == 0 && !(r.step.Ok? && r.step.value.Add?)
  {
  }

  /**
   * The next-or-add operator of this revision: the decision and the fallback
   * jump are those of the current revision; an add moves the current frame on
   * by the offset and runs this revision's keyframe operator there.
   */
  method NextOrAddExecute(op: Animation.NextOrAdd, w: Session, next: Option<int>) returns (s: Status, err: Option<PyError>)
    requires Animation.ActiveKnown(w.collections, w.objects, w.active)
    modifies op`frameOffset, w`firstRun, w`frameCurrent, w`reports, w`mode, w`objects, w`collections, w`nextData
    ensures var o := if old(w.active).Some? then Some(old(w.objects)[old(w.active).value]) else None;
      var plan := Animation.NextOrAddPlan(o, old(w.frameCurrent), old(w.firstRun), old(op.frameOffset), old(w.preferenceFrameOffset));
      w.firstRun == plan.firstRun && op.frameOffset == plan.frameOffset &&
      (plan.step.Err? ==> err == Some(plan.step.error) && w.frameCurrent == old(w.frameCurrent) && w.objects == old(w.objects)) &&
      (plan.step == Ok(Animation.Jump) ==>
        err.None? && (s == Finished <==> next.Some?) &&
        w.frameCurrent == (if next.Some? then next.value else old(w.frameCurrent)) &&
        w.objects == old(w.objects) && w.collections == old(w.collections)) &&
      (plan.step.Ok? && plan.step.value.Add? ==>
        (s == Finished <==> err.None?) && w.frameCurrent == old(w.frameCurrent) + plan.step.value.offset &&
        var src := Animation.FirstSource(old(w.selected), old(w.objects), old(w.active));
        Animation.Insertion(err, w.objects, w.collections, w.nextData, w.mode) ==
        Inserted(old(w.collections), old(w.objects), old(w.nextData), old(w.active), old(w.mode), w.frameCurrent,
                 if src.Some? then Some(old(w.objects)[src.value].data) else None, src.None? || op.useCopy))
  {
    var step := op.Decide(w);
    s, err := Act(op, w, next, step);
  }

  /** Lines 199-287 once the decision `step` is taken: an error cancels, a jump is the fallback, an add advances and inserts. */
  method Act(op: Animation.NextOrAdd, w: Session, next: Option<int>, step: Result<Animation.Step, PyError>) returns (s: Status, err: Option<PyError>)
    requires Animation.ActiveKnown(w.collections, w.objects, w.active)
    modifies w`frameCurrent, w`reports, w`mode, w`objects, w`collections, w`nextData
    ensures step.Err? ==> err == Some(step.error) && w.frameCurrent == old(w.frameCurrent) && w.objects == old(w.objects)
    ensures step == Ok(Animation.Jump) ==>
      err.None? && (s == Finished <==> next.Some?) &&
      w.frameCurrent == (if next.Some? then next.value else old(w.frameCurrent)) &&
      w.objects == old(w.objects) && w.collections == old(w.collections)
    ensures step.Ok? && step.value.Add? ==>
      (s == Finished <==> err.None?) && w.frameCurrent == old(w.frameCurrent) + step.value.offset &&
      var src := Animation.FirstSource(old(w.selected), old(w.objects), old(w.active));
      Animation.Insertion(err, w.objects, w.collections, w.nextData, w.mode) ==
      Inserted(old(w.collections), old(w.objects), old(w.nextData), old(w.active), old(w.mode), w.frameCurrent,
               if src.Some? then Some(old(w.objects)[src.value].data) else None, src.None? || op.useCopy)
  {
    if step.Err? {
      return Cancelled, Some(step.error);
    }
    if step.value == Animation.Jump {
      s := op.Fallback(w, next);
      return s, None;
    }
    err := Advance(w, step.value.offset, op.useCopy);
    s := if err.None? then Finished else Cancelled;
  }

  /** Lines 286-287: moves the current frame on by `offset` and runs this revision's keyframe operator there. */
  method Advance(w: Session, offset: int, useCopy: bool) returns (err: Option<PyError>)
    requires Animation.ActiveKnown(w.collections, w.objects, w.active)
    modifies w`frameCurrent, w`mode, w`objects, w`collections, w`nextData
    ensures w.frameCurrent == old(w.frameCurrent) + offset
    ensures var src := Animation.FirstSource(old(w.selected), old(w.objects), old(w.active));
      Animation.Insertion(err, w.objects, w.collections, w.nextData, w.mode) ==
      Inserted(old(w.collections), old(w.objects), old(w.nextData), old(w.active), old(w.mode), w.frameCurrent,
               if src.Some? then Some(old(w.objects)[src.value].data) else None, src.None? || useCopy)
  {
    w.frameCurrent := w.frameCurrent + offset;
    var op := new KeyframeOperator(useCopy);
    err := op.Execute(w);
  }

  // ---------------------------------------------------------------------
  // OBJECT_OT_add_stop_motion
  // ---------------------------------------------------------------------

  /** The add operator's `poll`: an active mesh, whether or not it already carries a StopMotion modifier. */
  function AddPoll(active: Option<string>, objects: map<string, Obj>): (r: bool)
    requires active.Some? ==> active.value in objects
    ensures r <==> active.Some? && objects[active.value].isMesh
  {
    active.Some? && objects[active.value].isMesh
  }

  /**
   * Lines 160-166: a "MeshKey" modifier asked for as "StopMotion" and a
   * hidden "Realize" one asked for as "Realizer", each under a name the host
   * makes unique among the object's modifiers. The first modifier named
   * "StopMotion" is the one the handle then finds: the new one, or one the
   * object already had.
   */
  function LegacyModifiers(o: Obj, indexId: string, collectionId: string): (r: Obj)
    ensures |r.modifiers| == |o.modifiers| + 2 && r.modifiers[..|o.modifiers|] == o.modifiers
    ensures r == o.(modifiers := r.modifiers)
    ensures Find(o).Some? ==> Find(r) == Find(o)
    ensures Find(o).None? ==> Find(r) == Some(|o.modifiers|)
    ensures !r.modifiers[|o.modifiers| + 1].showViewport && !r.modifiers[|o.modifiers| + 1].showInEditmode
  {
    var taken := NameSet(o.modifiers);
    var stopName := FreshName(MODNAME, taken);
    var stop := NewModifier(stopName, "MeshKey", indexId, collectionId);
    var realizerName := FreshName("Realizer", taken + {stopName});
    var realizer := NewModifier(realizerName, "Realize", "", "").(showViewport := false, showInEditmode := false);
    var r := o.(modifiers := o.modifiers + [stop, realizer]);
    FindAppended(o, r);
    r
  }

  /** Lines 161-174 on the active object: both modifiers appended, the StopMotion one pointed at store `c` with index 0 keyed at `frame`. */
  function Install(o: Obj, objName: string, c: string, frame: int, indexId: string, collectionId: string): (r: Obj)
    ensures Find(r).Some? && Collection(r) == Some(c) && Index(r) == Ok(0)
    ensures |r.modifiers| == |o.modifiers| + 2 && r.data == o.data
  {
    var o1 := LegacyModifiers(o, indexId, collectionId);
    Keyed(WithIndex(WithCollection(o1, Some(c)), 0), objName, frame)
  }

  /**
   * The add operator's `execute` on active object `n`: a new hidden store
   * collection asked for as "StopMotion Sources"; a copy of the object as it
   * was, asked for as "0000", as the store's only shot; the two modifiers
   * appended, and the StopMotion one pointed at the store with its index 0
   * keyed at the current frame.
   */
  function Initialized(collections: map<string, Coll>, objects: map<string, Obj>, n: string, frame: int,
                       indexId: string, collectionId: string): (r: Animation.Setup)
    requires n in objects
    ensures n in r.objects && r.first in r.objects && r.first !in objects
  {
    var c := FreshName(COLNAME, collections.Keys);
    var first := FreshName(IntToStr(0), objects.Keys);
    var o := Install(objects[n], n, c, frame, indexId, collectionId);
    Animation.Setup(collections[c := Animation.StoreColl().(objects := [first])], objects[first := objects[n]][n := o], first)
  }

  /**
   * After the add operator the object is a stop-motion object at index 0
   * whose store is a new collection holding only the first shot, a copy of
   * the object as it was before; nothing else changes.
   */
  lemma AddInitializes(collections: map<string, Coll>, objects: map<string, Obj>, n: string, frame: int,
                       indexId: string, collectionId: string)
    requires n in objects
    ensures var r := Initialized(collections, objects, n, frame, indexId, collectionId);
      var o := r.objects[n];
      IsStopMotion(Some(o)) && Index(o) == Ok(0) && Collection(o).Some? &&
      Collection(o).value !in collections && r.collections[Collection(o).value] == Animation.StoreColl().(objects := [r.first]) &&
      r.objects[r.first] == objects[n] && o.data == objects[n].data
  {
  }

  /** The add operator adds the first shot and changes no other object. */
  lemma AddKeepsOtherObjects(collections: map<string, Coll>, objects: map<string, Obj>, n: string, frame: int,
                             indexId: string, collectionId: string)
    requires n in objects
    ensures var r := Initialized(collections, objects, n, frame, indexId, collectionId);
      r.objects.Keys == objects.Keys + {r.first} && (forall m :: m in objects && m != n ==> r.objects[m] == objects[m])
  {
    var c := FreshName(COLNAME, collections.Keys);
    var first := FreshName(IntToStr(0), objects.Keys);
    var o := Install(objects[n], n, c, frame, indexId, collectionId);
    var r := Initialized(collections, objects, n, frame, indexId, collectionId);
    assert r.objects == objects[first := objects[n]][n := o] && r.first == first;
    TwoUpdates(objects, first, objects[n], n, o);
  }

  /** A map updated at a new key and at an existing one gains the new key and keeps every other entry. */
  lemma TwoUpdates<K, V>(m: map<K, V>, a: K, va: V, n: K, vn: V)
    requires n in m
    ensures m[a := va][n := vn].Keys == m.Keys + {a}
    ensures forall k :: k in m && k != n && k != a ==> m[a := va][n := vn][k] == m[k]
  {
  }

  /** The add operator adds the store and changes no other collection. */
  lemma AddKeepsOtherCollections(collections: map<string, Coll>, objects: map<string, Obj>, n: string, frame: int,
                                 indexId: string, collectionId: string)
    requires n in objects
    ensures var r := Initialized(collections, objects, n, frame, indexId, collectionId);
      r.collections.Keys == collections.Keys + {FreshName(COLNAME, collections.Keys)} &&
      (forall k :: k in collections ==> r.collections[k] == collections[k])
  {
    var c := FreshName(COLNAME, collections.Keys);
    var first := FreshName(IntToStr(0), objects.Keys);
    var r := Initialized(collections, objects, n, frame, indexId, collectionId);
    assert r.collections == collections[c := Animation.StoreColl().(objects := [first])];
  }

  /** The add operator keys the first shot: the index curve holds a CONSTANT key with value 0 at the current frame. */
  lemma AddKeysFirstShot(collections: map<string, Coll>, objects: map<string, Obj>, n: string, frame: int,
                         indexId: string, collectionId: string)
    requires n in objects
    ensures var o := Initialized(collections, objects, n, frame, indexId, collectionId).objects[n];
      GetFCurve(o).Ok? && GetFCurve(o).value.Some? &&
      var keys := o.action.value.curves[GetFCurve(o).value.value].keys;
      exists i :: 0 <= i < |keys| && keys[i] == Keyframe(frame as real, 0, Constant)
  {
    var c := FreshName(COLNAME, collections.Keys);
    var o1 := WithIndex(WithCollection(LegacyModifiers(objects[n], indexId, collectionId), Some(c)), 0);
    KeyedIndexIsConstant(o1, n, frame);
  }

  /** The add operator's `execute`, run on the session; the node groups' input identifiers are given. */
  method AddStopMotion(w: Session, indexId: string, collectionId: string) returns (first: string)
    requires w.active.Some? && w.active.value in w.objects && AddPoll(w.active, w.objects)
    modifies w`objects, w`collections
    ensures Animation.Setup(w.collections, w.objects, first) ==
      Initialized(old(w.collections), old(w.objects), old(w.active).value, old(w.frameCurrent), indexId, collectionId)
  {
    ghost var colls0 := w.collections;
    var n := w.active.value;
    var c := Animation.MakeStore(w, COLNAME);
    first := Animation.AddFirstShot(w, n, c, IntToStr(0));
    w.objects := w.objects[n := Install(w.objects[n], n, c, w.frameCurrent, indexId, collectionId)];
    MapOverwrite(colls0, c, Animation.StoreColl(), Animation.StoreColl().(objects := [first]));
  }

  /**
   * Every object's first shot is asked for as "0000". When another object
   * already holds that name, the new first shot is "0000.001" or a later
   * variant; it is no number, so the next insertion on the new object raises
   * ValueError.
   */
  lemma SharedNameStalls(collections: map<string, Coll>, objects: map<string, Obj>, n: string, frame: int,
                         indexId: string, collectionId: string, nextData: DataId, mode: Mode,
                         source: Option<DataId>, useCopy: bool)
    requires n in objects && IntToStr(0) in objects
    ensures var s := Initialized(collections, objects, n, frame, indexId, collectionId);
      Animation.ActiveKnown(s.collections, s.objects, Some(n)) &&
      Inserted(s.collections, s.objects, nextData, Some(n), mode, frame, source, useCopy).err == Some(ValueError)
  {
    var s := Initialized(collections, objects, n, frame, indexId, collectionId);
    AddInitializes(collections, objects, n, frame, indexId, collectionId);
    assert s.first == FreshName(IntToStr(0), objects.Keys);
    FirstShotUnnumbered(objects.Keys);
    assert MaxName([s.first]) == s.first;
    UnnumberedStoreStalls(s.collections, s.objects, nextData, n, mode, frame, source, useCopy);
  }

  /** When "0000" is taken, the name the host hands out for it is no number. */
  lemma FirstShotUnnumbered(taken: set<string>)
    requires IntToStr(0) in taken
    ensures ParseInt(FreshName(IntToStr(0), taken)).None?
  {
    var first := FreshName(IntToStr(0), taken);
    FreshNameSuffix(IntToStr(0), taken);
    assert !IsDigit(first[4]);
    assert !AllDigits(first);
    assert first[0] != '-';
  }

  /** A store whose greatest name is no number makes every insertion raise ValueError. */
  lemma UnnumberedStoreStalls(collections: map<string, Coll>, objects: map<string, Obj>, nextData: DataId,
                              n: string, mode: Mode, frame: int, source: Option<DataId>, useCopy: bool)
    requires Animation.ActiveKnown(collections, objects, Some(n)) && IsStopMotion(Some(objects[n])) && Collection(objects[n]).Some?
    requires var store := collections[Collection(objects[n]).value].objects;
      store != [] && ParseInt(MaxName(store)).None?
    ensures Inserted(collections, objects, nextData, Some(n), mode, frame, source, useCopy).err == Some(ValueError)
  {
  }

  /**
   * `update_data` finds shots by bare name among all objects: after the add
   * operator on an object while another object's first shot holds "0000",
   * it shows that other object's shot instead of the new first shot.
   */
  lemma SharedNameShowsOther(collections: map<string, Coll>, objects: map<string, Obj>, n: string, frame: int,
                             indexId: string, collectionId: string, mode: Mode)
    requires n in objects && IntToStr(0) in objects && n != IntToStr(0)
    ensures var s := Initialized(collections, objects, n, frame, indexId, collectionId);
      s.first != IntToStr(0) &&
      var u := Updated(s.objects, Some(n), mode);
      u.err.None? && u.objects[n].data == objects[IntToStr(0)].data
  {
    AddInitializes(collections, objects, n, frame, indexId, collectionId);
  }

  // ---------------------------------------------------------------------
  // update_data
  // ---------------------------------------------------------------------

  /** The outcome of `update_data`: the error raised, the objects after it and the active object's mode. */
  datatype Update = Update(err: Option<PyError>, objects: map<string, Obj>, mode: Mode)

  /**
   * `update_data(scene)`: without an active object AttributeError. Otherwise
   * the object goes to OBJECT mode, takes the data of the object named after
   * its index (AttributeError without a StopMotion modifier, KeyError when no
   * object has that name, both leaving it in OBJECT mode) and returns to its
   * mode.
   */
  function Updated(objects: map<string, Obj>, active: Option<string>, mode: Mode): (r: Update)
    requires active.Some? ==> active.value in objects
    ensures active.None? ==> r == Update(Some(AttributeError), objects, mode)
    ensures active.Some? && r.err.Some? ==> r.objects == objects && r.mode == Object
    ensures r.err.None? ==>
      r.mode == mode && active.Some? &&
      Index(objects[active.value]).Ok? && IntToStr(Index(objects[active.value]).value) in objects &&
      r.objects == objects[active.value := objects[active.value].(data := objects[IntToStr(Index(objects[active.value]).value)].data)]
    ensures active.Some? && r.err.Some? ==>
      (Index(objects[active.value]).Err? && r.err == Some(AttributeError)) ||
      (Index(objects[active.value]).Ok? && IntToStr(Index(objects[active.value]).value) !in objects && r.err == Some(KeyError))
  {
    if active.None? then Update(Some(AttributeError), objects, mode)
    else
      var n := active.value;
      match Index(objects[n])
      case Err(e) => Update(Some(e), objects, Object)
      case Ok(i) =>
        var name := IntToStr(i);
        if name !in objects then Update(Some(KeyError), objects, Object)
        else Update(None, objects[n := objects[n].(data := objects[name].data)], mode)
  }

  /** `update_data`, run on the session. */
  method UpdateData(w: Session) returns (err: Option<PyError>)
    requires w.active.Some? ==> w.active.value in w.objects
    modifies w`objects, w`mode
    ensures Update(err, w.objects, w.mode) == Updated(old(w.objects), old(w.active), old(w.mode))
  {
    if w.active.None? {
      return Some(AttributeError);
    }
    var n := w.active.value;
    var mode := w.mode;
    w.ModeSet(Object, false);
    var index := Index(w.objects[n]);
    if index.Err? {
      return Some(index.error);
    }
    var name := IntToStr(index.value);
    if name !in w.objects {
      return Some(KeyError);
    }
    w.objects := w.objects[n := w.objects[n].(data := w.objects[name].data)];
    w.ModeSet(mode, false);
    err := None;
  }

  /**
   * While an object's store holds the shots 0..m-1 (m at most 10000) and its
   * index is one of them, `update_data` shows the same shot as the mode
   * operator's sorted selection.
   */
  lemma UpdateAgreesWithModeOperator(collections: map<string, Coll>, objects: map<string, Obj>, n: string, mode: Mode)
    requires Modes.StoreKnown(collections, objects, n) && IsStopMotion(Some(objects[n])) && Collection(objects[n]).Some?
    requires var store := collections[Collection(objects[n]).value].objects;
      |store| <= 10000 && multiset(store) == multiset(Shots(|store|)) && 0 <= Index(objects[n]).value < |store|
    ensures Modes.SortedShot(collections, objects[n]).Ok?
    ensures Updated(objects, Some(n), mode).err.None?
    ensures Updated(objects, Some(n), mode).objects[n].data == objects[Modes.SortedShot(collections, objects[n]).value].data
  {
    var store := collections[Collection(objects[n]).value].objects;
    var i: nat := Index(objects[n]).value;
    SortedShotsPick(store, i);
    assert IntToStr(i) in multiset(Shots(|store|));
    assert IntToStr(i) in store;
  }

  // ---------------------------------------------------------------------
  // Handler registration
  // ---------------------------------------------------------------------

  /** `is_handler_running()`: some registered handler is called "update_data". */
  function IsHandlerRunning(h: seq<string>): (r: bool)
    ensures r <==> UPDATE_DATA in h
  {
    if h == [] then false else h[0] == UPDATE_DATA || IsHandlerRunning(h[1..])
  }

  /**
   * Lines 399-402 as written: removing from the list while a `for` loop walks
   * it. `i` is the loop's position; each "update_data" it meets removes the
   * first registration, and the entry that slides into its place is skipped.
   */
  function RemovedWhileIterating(h: seq<string>, i: nat): (r: seq<string>)
    ensures |r| <= |h|
    decreases |h| - i
  {
    if i >= |h| then h
    else if h[i] == UPDATE_DATA then RemovedWhileIterating(RemoveFirst(h, UPDATE_DATA), i + 1)
    else RemovedWhileIterating(h, i + 1)
  }

  /** The discrepancy: two registrations in a row leave one behind. */
  lemma RemovalSkipsSecond()
    ensures RemovedWhileIterating([UPDATE_DATA, UPDATE_DATA], 0) == [UPDATE_DATA]
  {
    assert RemoveFirst([UPDATE_DATA, UPDATE_DATA], UPDATE_DATA) == [UPDATE_DATA];
  }

  /**
   * Asking twice for EDIT mode registers the handler twice; asking for OBJECT
   * mode afterwards leaves it registered as written, and unregisters it as
   * evidently intended.
   */
  lemma EditTwiceThenObject()
    ensures RemovedWhileIterating(Registrations(Registrations([], Edit), Edit), 0) == [UPDATE_DATA]
    ensures Registrations(Registrations(Registrations([], Edit), Edit), Object) == []
  {
    assert Registrations(Registrations([], Edit), Edit) == [UPDATE_DATA, UPDATE_DATA];
    RemovalSkipsSecond();
  }

  /** Lines 399-402 as evidently intended: every registration of "update_data" goes, all others stay in order. */
  function Unregistered(h: seq<string>): (r: seq<string>)
    ensures UPDATE_DATA !in r
    ensures forall x :: x != UPDATE_DATA ==> Count(r, x) == Count(h, x)
  {
    if h == [] then []
    else
      var init := Unregistered(h[..|h| - 1]);
      var last := h[|h| - 1];
      CountLast(h);
      forall x | x != UPDATE_DATA
        ensures Count(if last == UPDATE_DATA then init else init + [last], x) == Count(h, x)
      {
        CountAppend(init, [last], x);
      }
      if last == UPDATE_DATA then init else init + [last]
  }

  /** The count over a list is that over all but its last element plus the last one. */
  lemma CountLast(h: seq<string>)
    requires h != []
    ensures forall x :: Count(h, x) == Count(h[..|h| - 1], x) + Count([h[|h| - 1]], x)
  {
    assert h[..|h| - 1] + [h[|h| - 1]] == h;
    forall x ensures Count(h, x) == Count(h[..|h| - 1], x) + Count([h[|h| - 1]], x) {
      CountAppend(h[..|h| - 1], [h[|h| - 1]], x);
    }
  }

  /** Registering the handler again adds one entry, with no check for one already there (line 404). */
  function Registrations(h: seq<string>, requested: Mode): (r: seq<string>)
    ensures requested == Object ==> UPDATE_DATA !in r
    ensures requested != Object ==> UPDATE_DATA in r && Count(r, UPDATE_DATA) == Count(h, UPDATE_DATA) + 1
  {
    if requested == Object then Unregistered(h)
    else
      CountAppend(h, [UPDATE_DATA], UPDATE_DATA);
      h + [UPDATE_DATA]
  }

  /** Lines 399-402, corrected, run on the session: keeps every handler but "update_data", in order. */
  method Unregister(w: Session)
    modifies w`handlers
    ensures w.handlers == Unregistered(old(w.handlers))
  {
    var h := w.handlers;
    var kept := [];
    var i := 0;
    while i < |h|
      invariant 0 <= i <= |h|
      invariant kept == Unregistered(h[..i])
    {
      assert h[..i + 1][..i] == h[..i];
      if h[i] != UPDATE_DATA {
        kept := kept + [h[i]];
      }
      i := i + 1;
    }
    assert h[..|h|] == h;
    w.handlers := kept;
  }

  // ---------------------------------------------------------------------
  // OBJECT_OT_stop_motion_mode
  // ---------------------------------------------------------------------

  /**
   * The mode operator's `execute` on active object `n`, in mode `current`.
   * With a StopMotion modifier the object takes the data of the sorted
   * store's entry at the index (AttributeError without a store, IndexError
   * outside it, before anything changes); a toggle into the current mode asks
   * for OBJECT instead; OBJECT unregisters "update_data", any other mode
   * registers it once more; the modifier's visibility is not touched. Then
   * the host mode switch runs with the operator's toggle.
   */
  function ModeSwitch(collections: map<string, Coll>, objects: map<string, Obj>, handlers: seq<string>,
                      current: Mode, n: string, mode: Mode, toggle: bool): (r: Modes.Switch)
    requires Modes.StoreKnown(collections, objects, n)
    ensures r.err.Some? <==> IsStopMotion(Some(objects[n])) && Modes.SortedShot(collections, objects[n]).Err?
    ensures r.err.Some? ==> r.objects == objects && r.handlers == handlers && r.current == current && r.requested == mode
    ensures !IsStopMotion(Some(objects[n])) ==>
      r.objects == objects && r.handlers == handlers && r.requested == mode &&
      r.current == (if toggle && current == mode then Object else mode)
  {
    var o := objects[n];
    if Handle(Some(o)).None? then
      Modes.Switch(None, objects, handlers, if toggle && current == mode then Object else mode, mode)
    else
      var shot := Modes.SortedShot(collections, o);
      if shot.Err? then Modes.Switch(Some(shot.error), objects, handlers, current, mode)
      else
        Modes.StoreMembers(collections, objects, n);
        var requested := if toggle && mode == current then Object else mode;
        Modes.Switch(None, objects[n := o.(data := objects[shot.value].data)], Registrations(handlers, requested),
                     if toggle && current == requested then Object else requested, requested)
  }

  /**
   * With a StopMotion modifier and a shot found, only the active object's
   * data changes, to the shot's; the handler runs exactly when the operator
   * asked for a sub-object mode, and the object ends in that mode.
   */
  lemma ModeSwitchPutsShot(collections: map<string, Coll>, objects: map<string, Obj>, handlers: seq<string>,
                           current: Mode, n: string, mode: Mode, toggle: bool)
    requires Modes.StoreKnown(collections, objects, n)
    requires IsStopMotion(Some(objects[n])) && Modes.SortedShot(collections, objects[n]).Ok?
    ensures var r := ModeSwitch(collections, objects, handlers, current, n, mode, toggle);
      var shot := Modes.SortedShot(collections, objects[n]).value;
      shot in objects && r.err.None? &&
      r.objects == objects[n := objects[n].(data := objects[shot].data)] &&
      r.requested == (if toggle && mode == current then Object else mode) &&
      (UPDATE_DATA in r.handlers <==> r.requested != Object) &&
      r.current == r.requested
  {
    Modes.StoreMembers(collections, objects, n);
  }

  /** The mode operator's `mode` and `toggle` properties. */
  class ModeOperator {
    var mode: Mode
    var toggle: bool

    constructor (mode: Mode, toggle: bool)
      ensures this.mode == mode && this.toggle == toggle
    {
      this.mode := mode;
      this.toggle := toggle;
    }

    /** `execute`: `ModeSwitch` on the active object; without one the host switch fails (RuntimeError) and nothing changes. */
    method Execute(w: Session) returns (err: Option<PyError>)
      requires w.Valid()
      modifies this`mode, w`objects, w`handlers, w`mode
      ensures w.Valid()
      ensures old(w.active).None? ==>
        err == Some(RuntimeError) && w.objects == old(w.objects) && w.handlers == old(w.handlers) &&
        w.mode == old(w.mode) && mode == old(mode)
      ensures old(w.active).Some? ==>
        Modes.Switch(err, w.objects, w.handlers, w.mode, mode) ==
        ModeSwitch(old(w.collections), old(w.objects), old(w.handlers), old(w.mode), old(w.active).value, old(mode), toggle)
    {
      if w.active.None? {
        return Some(RuntimeError);
      }
      StoreExists(w, w.active.value);
      err, mode := SwitchActive(w, w.active.value, mode, toggle);
    }
  }

  /** The mode operator on active object `n`, asked for `mode`: returns the error and the operator's new `mode` property. */
  method SwitchActive(w: Session, n: string, mode: Mode, toggle: bool) returns (err: Option<PyError>, requested: Mode)
    requires w.Valid() && Modes.StoreKnown(w.collections, w.objects, n)
    modifies w`objects, w`handlers, w`mode
    ensures w.Valid()
    ensures Modes.Switch(err, w.objects, w.handlers, w.mode, requested) ==
      ModeSwitch(old(w.collections), old(w.objects), old(w.handlers), old(w.mode), n, mode, toggle)
  {
    ghost var expected := ModeSwitch(w.collections, w.objects, w.handlers, w.mode, n, mode, toggle);
    ghost var objects, handlers, current := w.objects, w.handlers, w.mode;
    requested := mode;
    if Handle(Some(w.objects[n])).Some? {
      requested := if toggle && mode == w.mode then Object else mode;
      var shot := SwitchShot(w, n, requested);
      if shot.Err? {
        assert expected == Modes.Switch(Some(shot.error), objects, handlers, current, mode);
        return Some(shot.error), mode;
      }
      assert expected == Modes.Switch(None, w.objects, w.handlers, if toggle && current == requested then Object else requested, requested);
    } else {
      assert expected == Modes.Switch(None, objects, handlers, if toggle && current == mode then Object else mode, mode);
    }
    w.ModeSet(requested, toggle);
    err := None;
  }

  /** Lines 389-404 of the mode operator, for an object with a StopMotion modifier. */
  method SwitchShot(w: Session, n: string, requested: Mode) returns (shot: Result<string, PyError>)
    requires w.Valid() && n in w.objects && Find(w.objects[n]).Some?
    modifies w`objects, w`handlers
    ensures w.Valid()
    ensures shot == Modes.SortedShot(old(w.collections), old(w.objects)[n])
    ensures shot.Err? ==> w.objects == old(w.objects) && w.handlers == old(w.handlers)
    ensures shot.Ok? ==>
      shot.value in old(w.objects) &&
      w.objects == old(w.objects)[n := old(w.objects)[n].(data := old(w.objects)[shot.value].data)] &&
      w.handlers == Registrations(old(w.handlers), requested)
  {
    shot := Modes.PutShot(w, n);
    if shot.Ok? {
      if requested == Object {
        Unregister(w);
      } else {
        w.handlers := w.handlers + [UPDATE_DATA];
      }
    }
  }

  // ---------------------------------------------------------------------
  // OBJECT_OT_stop_motion_updater_toggle
  // ---------------------------------------------------------------------

  /** The updater toggle's `poll`, with `is_handler_running()` for whether the updater runs. */
  function UpdaterPoll(active: Option<Obj>, mode: Mode, handlers: seq<string>): (r: bool)
    ensures r == Modes.UpdaterPoll(active, mode, UPDATE_DATA in handlers)
  {
    Modes.UpdaterPoll(active, mode, IsHandlerRunning(handlers))
  }

  /** The updater toggle's `execute`: the `for`/`else` loop removes the first "update_data" and stops, or appends one when there is none. */
  method UpdaterToggle(w: Session)
    modifies w`handlers
    ensures w.handlers == if UPDATE_DATA in old(w.handlers) then RemoveFirst(old(w.handlers), UPDATE_DATA)
                          else old(w.handlers) + [UPDATE_DATA]
  {
    var h := w.handlers;
    var i := 0;
    while i < |h|
      invariant 0 <= i <= |h| && UPDATE_DATA !in h[..i]
    {
      if h[i] == UPDATE_DATA {
        RemoveFirstCutsFirst(h, UPDATE_DATA);
        FirstIndexIs(h, UPDATE_DATA, i);
        w.handlers := h[..i] + h[i + 1..];
        return;
      }
      i := i + 1;
    }
    assert h[..i] == h;
    w.handlers := h + [UPDATE_DATA];
  }

  /** With the handler registered at most once, the toggle flips whether it runs and keeps it registered at most once. */
  lemma UpdaterToggleFlips(handlers: seq<string>)
    requires Count(handlers, UPDATE_DATA) <= 1
    ensures var after := if UPDATE_DATA in handlers then RemoveFirst(handlers, UPDATE_DATA) else handlers + [UPDATE_DATA];
      (UPDATE_DATA in after <==> UPDATE_DATA !in handlers) && Count(after, UPDATE_DATA) <= 1
  {
    var after := if UPDATE_DATA in handlers then RemoveFirst(handlers, UPDATE_DATA) else handlers + [UPDATE_DATA];
    RemoveFirstCount(handlers, UPDATE_DATA, UPDATE_DATA);
    CountAppend(handlers, [UPDATE_DATA], UPDATE_DATA);
    CountPositive(handlers, UPDATE_DATA);
    CountPositive(after, UPDATE_DATA);
  }
}
