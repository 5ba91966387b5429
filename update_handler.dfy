/**
 * The live-update handler of update_handler.py: while the stop-motion object
 * is edited in a sub-object mode, a `frame_change_post` handler named
 * `stop_motion_data` swaps the current shot's mesh into the object on every
 * frame change. Registration is looked up by handler name.
 */
module UpdateHandler {
  import opened Wrappers
  import opened PyList
  import opened Host
  import opened ModifierData
  import Materials

  /** The `__name__` of the handler function. */
  const HANDLER := "stop_motion_data"

  /** The registrations after `add()`: appends the handler only when none is running. */
  function Added(handlers: seq<string>): (r: seq<string>)
    ensures HANDLER in r
    ensures HANDLER in handlers ==> r == handlers
    ensures HANDLER !in handlers ==> r == handlers + [HANDLER]
  {
    if HANDLER in handlers then handlers else handlers + [HANDLER]
  }

  /**
   * `is_running()`: the loop of `handler_loop` looks for the first handler named
   * `stop_motion_data` and returns True for it; without one the wrapper falls
   * off its end and returns None.
   */
  method IsRunning(handlers: seq<string>) returns (r: Option<bool>)
    ensures r == Some(true) <==> HANDLER in handlers
    ensures r != Some(true) ==> r == None
  {
    var i := 0;
    while i < |handlers|
      invariant 0 <= i <= |handlers|
      invariant HANDLER !in handlers[..i]
    {
      if handlers[i] == HANDLER {
        return Some(true);
      }
      assert handlers[..i + 1] == handlers[..i] + [handlers[i]];
      i := i + 1;
    }
    assert handlers[..i] == handlers;
    return None;
  }

  /** `remove()`: `handler_loop` finds the first handler with the name and `list.remove` drops it; nothing changes without one. */
  method Remove(w: Session)
    modifies w`handlers
    ensures w.handlers == RemoveFirst(old(w.handlers), HANDLER)
  {
    var i := 0;
    while i < |w.handlers|
      invariant 0 <= i <= |w.handlers|
      invariant HANDLER !in w.handlers[..i]
      invariant w.handlers == old(w.handlers)
    {
      if w.handlers[i] == HANDLER {
        RemoveFirstCutsFirst(w.handlers, HANDLER);
        assert FirstIndex(w.handlers, HANDLER) == Some(i) by {
          FirstIndexIs(w.handlers, HANDLER, i);
        }
        w.handlers := w.handlers[..i] + w.handlers[i + 1..];
        return;
      }
      assert w.handlers[..i + 1] == w.handlers[..i] + [w.handlers[i]];
      i := i + 1;
    }
    assert w.handlers[..i] == w.handlers;
    RemoveFirstCutsFirst(w.handlers, HANDLER);
  }

  /** `add()`: registers the handler unless one is already running. */
  method Add(w: Session)
    modifies w`handlers
    ensures w.handlers == Added(old(w.handlers))
  {
    var running := IsRunning(w.handlers);
    if running != Some(true) {
      w.handlers := w.handlers + [HANDLER];
    }
  }

  /** Adding twice registers no more than adding once. */
  lemma AddIdempotent(handlers: seq<string>)
    ensures Added(Added(handlers)) == Added(handlers)
  {
  }

  /** `add` and `remove` keep the handler registered at most once. */
  lemma {:induction false} AtMostOnce(handlers: seq<string>)
    requires Count(handlers, HANDLER) <= 1
    ensures Count(Added(handlers), HANDLER) <= 1
    ensures Count(RemoveFirst(handlers, HANDLER), HANDLER) <= 1
  {
    CountPositive(handlers, HANDLER);
    CountAppend(handlers, [HANDLER], HANDLER);
    assert Count([HANDLER], HANDLER) == 1 by {
      assert [HANDLER][1..] == [];
    }
    RemoveFirstCount(handlers, HANDLER, HANDLER);
  }

  /** With at most one registration, `remove` stops the updater. */
  lemma {:induction false} RemoveStops(handlers: seq<string>)
    requires Count(handlers, HANDLER) <= 1
    ensures HANDLER !in RemoveFirst(handlers, HANDLER)
  {
    RemoveFirstCount(handlers, HANDLER, HANDLER);
    CountPositive(handlers, HANDLER);
    CountPositive(RemoveFirst(handlers, HANDLER), HANDLER);
  }

  /** When the handler was not registered, `add` followed by `remove` gives back the original list. */
  lemma {:induction false} AddThenRemove(handlers: seq<string>)
    requires HANDLER !in handlers
    ensures RemoveFirst(Added(handlers), HANDLER) == handlers
  {
    RemoveFirstCutsFirst(handlers + [HANDLER], HANDLER);
    FirstIndexIs(handlers + [HANDLER], HANDLER, |handlers|);
    assert (handlers + [HANDLER])[..|handlers|] == handlers;
  }

  /** `remove` leaves every other registration in place and in order. */
  lemma RemoveKeepsOthers(handlers: seq<string>, i: nat)
    requires FirstIndex(handlers, HANDLER) == Some(i)
    ensures RemoveFirst(handlers, HANDLER) == handlers[..i] + handlers[i + 1..]
  {
    RemoveFirstCutsFirst(handlers, HANDLER);
  }

  /**
   * `stop_motion_data(scene)`: switches the active object to OBJECT mode, puts
   * the data of the shot at the current index into it, copies that shot's
   * material slots, and switches back to the mode it was in. The mode is not
   * checked first. A failing step raises and leaves the object in OBJECT mode:
   * no active object (AttributeError), no modifier (AttributeError), no store
   * (AttributeError) or no such shot (KeyError).
   */
  method StopMotionData(w: Session) returns (err: Option<PyError>)
    requires w.Valid()
    modifies w`mode, w`objects
    ensures w.Valid()
    ensures old(w.active).None? ==> err == Some(AttributeError) && w.objects == old(w.objects) && w.mode == old(w.mode)
    ensures old(w.active).Some? ==>
      var n := old(w.active).value;
      var o := old(w.objects)[n];
      var src := GetObject(old(w.collections), n, o, None);
      (src.Err? ==> err == Some(src.error) && w.objects == old(w.objects) && w.mode == Object) &&
      (src.Ok? ==>
        err.None? && w.mode == old(w.mode) &&
        src.value in old(w.objects) && n in w.objects &&
        w.objects == old(w.objects)[n := w.objects[n]] &&
        w.objects[n] == o.(data := old(w.objects)[src.value].data, slots := w.objects[n].slots) &&
        |w.objects[n].slots| >= |old(w.objects)[src.value].slots| &&
        (forall i :: 0 <= i < |old(w.objects)[src.value].slots| ==> w.objects[n].slots[i] == old(w.objects)[src.value].slots[i]))
  {
    if w.active.None? {
      return Some(AttributeError);
    }
    var n := w.active.value;
    var mode := w.mode;
    w.ModeSet(Object, false);
    var o := w.objects[n];
    StoreExists(w, n);
    var src := GetObject(w.collections, n, o, None);
    if src.Err? {
      return Some(src.error);
    }
    var s := src.value;
    ghost var objs0 := w.objects;
    var o1 := o.(data := w.objects[s].data);
    w.objects := w.objects[n := o1];
    Materials.SyncObjects(w, s, n);
    MapOverwrite(objs0, n, o1, w.objects[n]);
    w.ModeSet(mode, false);
    err := None;
  }
}
