# Stop Motion add-on for Blender: a verified model of its bookkeeping

The add-on turns a mesh object into a *stop-motion object*. A geometry-nodes
modifier named "StopMotion" shows one mesh, a *shot*, picked out of a frame
store (a collection) by an animated integer index. The model covers what the
add-on does to the host's data when its operators and handlers run:

- **Naming** (`version.dfy`): the version triple, the breadcrumb tags written
  into ID properties, and the names of shots (`<name>_<frame>_<object>_<0000>`),
  frame stores and onion-skin items. As formatted, names of different
  objects or indices never collide (the host's 63-byte cut of long names is
  not modelled).
- **The modifier handle** (`modifier_data.dfy`): finding the StopMotion
  modifier, reading and writing its index and store, the index curve and its
  keys, the "future keys" after a frame, the shot shown now, hiding and
  revealing, and the operators' shared `poll`.
- **Animation** (`animation.dfy`): the add operator (store, first shot, node
  groups, modifiers), `insert_keyframe` (a new shot appended to the store and
  keyed at the current frame; no other key moves), the keyframe and join operators, and
  "next or add" (jump to the next key, or add a shot `frame_offset` frames on).
- **Modes and the live-update handler** (`modes.dfy`, `update_handler.dfy`):
  entering a sub-object mode copies the current shot's data into the object
  and starts the `frame_change_post` handler; OBJECT mode stops it; the
  handler swaps the current shot in on every frame change.
- **Materials** (`materials.dfy`): copying material slots and appending a
  material.
- **Onion skins** (`onion_skins.dfy`): up to ten ghost copies before and ten
  after the current frame, each shifted by a multiple of the frame offset,
  tinted and faded, kept in a per-object onion collection, found by name and
  made only when missing; refresh and unload; the settings' bounds and the
  property callbacks.
- **Node trees as data** (`json_nodes.dfy`): a node group serialised to plain
  data and created back from it.
- **Key offsets** (`scratch.dfy`): re-timing a curve's keyframe points,
  into another action or into the same one.
- **The first revision** (`legacy.dfy`, from `stop_motion.py`): bare
  four-digit shot names, the greatest-name-plus-one insertion, and the
  handler bookkeeping of its mode operator.

The host (Blender) is `host.dfy`: a `Session` class that holds the objects,
collections, materials, scene children, the active object and its mode, the
selection, the current frame and the handler list. Objects, collections and
materials are values in maps. Host operations (`objects.new` with its name
uniquing, `data.copy`, `collection.objects.link`, `keyframe_insert`,
`mode_set`, `keyframe_jump`) are small methods, each with the effect it is
assumed to have. `strings.dfy` and `pylist.dfy` hold Python's `str` and `list`
behaviour that the add-on relies on: zero-padded numerals, text order,
indexing, `remove` and `sorted`.

`animation.py` imports `Modifier` with `from modifier_data import Modifier`
(line 32). Inside the add-on package that absolute import fails, so the
module would not load. The model assumes the relative import
(`from .modifier_data import Modifier`) that the other modules use.

Operations that change the session are methods. Each is specified by a pure
function of the state before it, and the lemmas state what those functions
promise: what is added, what is kept, which names are free or shared, and
which error is raised.

The handler's docstring (`update_handler.py:31`) says it updates data "in
non object modes". The code (`update_handler.py:30-38`) always switches to
OBJECT mode, swaps the data and switches back, whatever the mode was, and so
does the model.

## Model

| member | source | states |
|---|---|---|
| Host.FreshName | stop_motion/animation.py:117 | the name handed out is free; a free requested name is handed out as it is, and the name is never shorter than the request (the contract relied on, not the host's own suffix scheme) |
| Host.FreshNameSuffix | stop_motion/animation.py:117 | a taken name is never handed out: the result is the request followed by a `.` suffix |
| Host.CurveFor | stop_motion/modifier_data.py:81-88 | finds the first curve on the data path at array index 0, and finds none exactly when no curve matches |
| Host.KeyAt | stop_motion/modifier_data.py:93 | after keying, a key on the frame holds the value; at most one key is added, and keys on other frames are kept |
| Host.InsertKey | stop_motion/modifier_data.py:90-95 | after `keyframe_insert` the action has a curve on the index input's path with a key on the frame holding the value |
| Host.ReplaceConsistent | stop_motion/modes.py:79-80 | replacing an object's data and keeping its modifiers' targets keeps every name the session refers to existing |
| Host.RetargetConsistent | stop_motion/animation.py:72-79 | replacing an object by one whose modifiers point at existing collections keeps every name the session refers to existing |
| Host.AddShotConsistent | stop_motion/animation.py:112-124 | adding a new shot to an existing store and updating the source object keeps every name the session refers to existing |
| Host.NewStoreConsistent | stop_motion/animation.py:61-92 | a new store holding only the copied first shot keeps every name the session refers to existing |
| Host.Session.constructor | stop_motion/preferences.py:25-28 | a fresh session is empty and consistent, and the `frame_offset` preference has its default of 2 |
| Host.Session.ModeSet | stop_motion/modes.py:92 | the mode becomes the requested one, or OBJECT when toggling into the current mode |
| Host.Session.CopyData | stop_motion/animation.py:116 | the copy is a data block not handed out before |
| Host.Session.NewObject | stop_motion/animation.py:117 | adds exactly one object, under a free name derived from the request, and changes no other object |
| Host.Session.NewCollection | stop_motion/animation.py:61 | adds exactly one empty collection, under a free name derived from the request |
| Host.Session.CopyObject | stop_motion/animation.py:84 | adds exactly one object equal to the copied one, under a free name derived from the request |
| Host.Session.Link | stop_motion/animation.py:119 | the object is appended to the collection's members; no other collection changes |
| Host.Session.KeyframeJump | stop_motion/animation.py:179 | finishes exactly when a next key exists, moving the current frame to it; otherwise is cancelled and the frame stays |
| Strings.ZeroPad | stop_motion/version.py:64 | a non-negative number becomes all digits, padded with zeros to at least the width; a negative one starts with `-` |
| Strings.ParseZeroPad | stop_motion/stop_motion.py:195 | `int()` of a zero-padded numeral reads back the number, for every integer |
| Strings.LessTotal | stop_motion/stop_motion.py:194 | Python's text order compares any two different texts |
| Strings.LessTransitive | stop_motion/stop_motion.py:194 | Python's text order is transitive |
| Strings.Pad4Order | stop_motion/stop_motion.py:194 | below 10000, four-digit zero-padded numerals compare as text exactly as their numbers do |
| PyList.PyIndex | stop_motion/modes.py:80 | `s[i]` gives the element counting from the front, or from the back for negative `i`, and raises IndexError exactly when out of range |
| PyList.FirstIndex | stop_motion/json_nodes.py:175 | finds the first position holding the value, and none exactly when it is absent |
| PyList.RemoveFirst | stop_motion/update_handler.py:58 | `remove` shortens the list by one when the value is present and keeps it otherwise |
| PyList.RemoveFirstCutsFirst | stop_motion/update_handler.py:58 | `remove` cuts out exactly the first occurrence and keeps the rest in order |
| PyList.RemoveFirstCount | stop_motion/stop_motion.py:402 | `remove` lowers the value's count by one and keeps every other count |
| PyList.SortNames | stop_motion/modes.py:79 | `sorted` returns the same names, a permutation of its input |
| PyList.SortNamesSorted | stop_motion/modes.py:79 | `sorted` returns the names in Python's text order |
| PyList.SortNamesOfSorted | stop_motion/modes.py:79 | names already strictly in order are returned unchanged |
| Version.Get | stop_motion/version.py:26-37 | the version triple is (0, 9, 3) |
| Version.OnionPrefix | stop_motion/version.py:40-41 | the onion-skin prefix is "STPMO_onion_" |
| Version.Tag | stop_motion/version.py:44-45 | the tag is keyed "STPMO" and holds exactly major 0 and minor 9 |
| Version.OnionTag | stop_motion/version.py:48-52 | the item gets a "STPMO" entry holding exactly major, minor and type "onion"; every other property of the item is kept |
| Version.MainTag | stop_motion/version.py:55-60 | the item gets a "STPMO" entry holding exactly major, minor, type "main" and the item's name; every other property is kept |
| Version.FrameName | stop_motion/version.py:63-64 | a shot name starts with "STPMO_frame_", the object's name and "_" |
| Version.CollectionName | stop_motion/version.py:67-68 | a store name is "STPMO_frames_" followed by exactly the object's name |
| Version.FrameNameInjective | stop_motion/version.py:63-64 | two shot names of one object are equal exactly when their indices are, for every integer index |
| Version.FrameNameOrder | stop_motion/version.py:63-64 | for indices below 10000, shot names sort as text exactly in the order of their indices |
| Version.FrameNameOrderEndsAt10000 | stop_motion/version.py:63-64 | past four digits the text order breaks: shot 10000 sorts before shot 9999 |
| Materials.Sync | stop_motion/materials.py:59-66 | the target's slots become the source's slots position by position (appended where the target is shorter); slots past the source's count are kept; the length is the larger of the two |
| Materials.SyncObjects | stop_motion/materials.py:59-66 | on a session, only the target object's slots change, as `Sync` describes, and the session stays valid |
| Materials.AssignAsWritten | stop_motion/materials.py:70-75 | as written: without an index the material is appended; with any index the guard on line 72 raises TypeError before anything changes |
| Materials.AssignSlotRaises | stop_motion/materials.py:72-73 | asking for the one existing slot raises TypeError as written, and fills that slot once the guard is corrected |
| Materials.Assign | stop_motion/materials.py:70-75 | corrected: IndexError exactly for an index below minus the slot count; otherwise the material ends up in the list, at most one slot is added, and every slot that changes takes the material; without an index it is appended after the kept slots; a requested slot that exists is filled in place without adding one |
| UpdateHandler.Added | stop_motion/update_handler.py:61-63 | after `add` the handler is registered; the list is unchanged when it already was, otherwise the handler is appended |
| UpdateHandler.IsRunning | stop_motion/update_handler.py:41-52 | True exactly when a handler named `stop_motion_data` is registered; None otherwise |
| UpdateHandler.Remove | stop_motion/update_handler.py:41-58 | drops the first registration of the handler and nothing else |
| UpdateHandler.Add | stop_motion/update_handler.py:61-63 | the registrations become `Added` of the old ones |
| UpdateHandler.AddIdempotent | stop_motion/update_handler.py:61-63 | adding twice registers the same as adding once |
| UpdateHandler.AtMostOnce | stop_motion/update_handler.py:55-63 | `add` and `remove` keep the handler registered at most once |
| UpdateHandler.RemoveStops | stop_motion/update_handler.py:55-58 | with at most one registration, `remove` leaves the handler unregistered |
| UpdateHandler.AddThenRemove | stop_motion/update_handler.py:55-63 | when the handler was not registered, `add` then `remove` gives back the original list |
| UpdateHandler.RemoveKeepsOthers | stop_motion/update_handler.py:55-58 | `remove` deletes exactly the first registration; the others stay in order |
| UpdateHandler.StopMotionData | stop_motion/update_handler.py:30-38 | without an active object it raises AttributeError; a missing store or shot raises its error after the switch to OBJECT mode; otherwise the active object takes the current shot's data and material slots, returns to its mode, and nothing else changes |
| ModifierData.Find | stop_motion/modifier_data.py:39-44 | the modifier found is a position of the stack carrying the name "StopMotion" |
| ModifierData.FindFirst | stop_motion/modifier_data.py:44 | `modifiers.get` finds the first modifier named "StopMotion", and finds none exactly when no modifier has that name |
| ModifierData.FindAppended | stop_motion/animation.py:69-76 | appending the two modifiers of the add operator keeps an existing StopMotion modifier and otherwise finds the first appended one |
| ModifierData.Handle | stop_motion/modifier_data.py:39-56 | a handle is truthy exactly when the object exists and carries a modifier named "StopMotion", and then wraps the one `Find` picks |
| ModifierData.Index | stop_motion/modifier_data.py:61-63 | reading the index without a modifier raises AttributeError; otherwise it is the modifier's index input |
| ModifierData.WithIndex | stop_motion/modifier_data.py:65-67 | after setting the index it reads back the value; only the modifier's index input changes |
| ModifierData.FindSameNames | stop_motion/modifier_data.py:44 | objects whose modifier stacks carry the same names find the same modifier |
| ModifierData.SameModifiers | stop_motion/modifier_data.py:39-79 | what a handle reads (modifier, index, collection) depends on the modifier stack alone |
| ModifierData.Collection | stop_motion/modifier_data.py:69-73 | None without a modifier; otherwise the modifier's collection input |
| ModifierData.WithCollection | stop_motion/modifier_data.py:75-79 | without a modifier nothing changes; otherwise the collection reads back the value and the index is kept |
| ModifierData.WithViewport | stop_motion/modifier_data.py:127-131 | only the modifier's viewport visibility changes; index and collection are kept |
| ModifierData.GetFCurve | stop_motion/modifier_data.py:81-88 | AttributeError exactly when there is no modifier or no action; otherwise the first curve animating the index input at array index 0, if any |
| ModifierData.ConstantNear | stop_motion/modifier_data.py:99-104 | keys within 0.001 of the frame become CONSTANT and every other key is kept, position by position |
| ModifierData.MakeConstantNear | stop_motion/modifier_data.py:99-104 | the loop over the keys computes `ConstantNear` |
| ModifierData.Keyed | stop_motion/modifier_data.py:90-104 | keying the index gives the object an action and changes nothing else about it; the modifier found is the same |
| ModifierData.KeyedIndexIsConstant | stop_motion/modifier_data.py:90-104 | after `keyframe_index` the index curve exists and holds a CONSTANT key at the current frame with the current index value |
| ModifierData.KeyedKeepsFarKeys | stop_motion/modifier_data.py:99-104 | keys of the index curve away from the current frame are kept, interpolation included |
| ModifierData.FutureKeys | stop_motion/modifier_data.py:106-113 | the loop computes `Future`: an error without modifier or action, False without a curve, else whether some key lies after the frame |
| ModifierData.InsertKeyNoLater | stop_motion/modifier_data.py:93 | inserting a key at a frame adds no key after it to a curve that had none |
| ModifierData.KeyedAddsNoFuture | stop_motion/modifier_data.py:90-113 | when `future_keys` was not True before keying the index, it is False afterwards |
| ModifierData.ObjectName | stop_motion/modifier_data.py:115-120 | the shot name of the given index, or of the current index; AttributeError when the current index cannot be read |
| ModifierData.GetObject | stop_motion/modifier_data.py:122-125 | succeeds exactly when the shot name can be formed, the store exists and holds that name, and then returns it; a missing store or index is AttributeError |
| ModifierData.Poll | stop_motion/modifier_data.py:138-147 | enabled exactly when an active object carries a StopMotion modifier; otherwise disabled with "No Active Object" or "<name> Not Initialized" |
| ModifierData.ReplaceKeepsValid | stop_motion/modifier_data.py:65-79 | replacing one object by one with the same modifier targets and known data keeps the session valid |
| ModifierData.StoreExists | stop_motion/modifier_data.py:122-125 | in a valid session the store an object points at exists and every shot in it is an object |
| ModifierData.SetIndex | stop_motion/modifier_data.py:65-67 | only object `n` changes, as `WithIndex` says, and the session stays valid |
| ModifierData.SetCollection | stop_motion/modifier_data.py:75-79 | only object `n` changes, as `WithCollection` says, and the session stays valid |
| ModifierData.SetViewport | stop_motion/modifier_data.py:127-131 | only object `n` changes, as `WithViewport` says, and the session stays valid |
| ModifierData.KeyObject | stop_motion/modifier_data.py:90-104 | the key insertion and the loop over the keys give `Keyed` |
| ModifierData.KeyframeIndex | stop_motion/modifier_data.py:90-104 | only object `n` changes, keyed at the current frame as `Keyed` says, and the session stays valid |
| Modes.SetObject | stop_motion/modes.py:43-45 | a sub-object mode becomes OBJECT mode; in OBJECT mode nothing changes |
| Modes.Restore | stop_motion/modes.py:48-50 | the object ends in the mode asked for |
| Modes.FrameNames | stop_motion/modes.py:79 | entry i of the ascending shot list of a store holding shots 0..n-1 is the name of shot i |
| Modes.SortedShot | stop_motion/modes.py:75-80 | a shot the sorted selection picks is a member of the object's store |
| Modes.SortedShotErrors | stop_motion/modes.py:75-80 | AttributeError without a store; with one, the selection succeeds exactly for indices from minus the store's size to its size less one, and fails otherwise with IndexError |
| Modes.SortedHead | stop_motion/modes.py:79 | the head of a name-sorted list comes no later than any of its names |
| Modes.SortedUnique | stop_motion/modes.py:79 | two name-sorted orderings of the same names are the same list, so `sorted` has one possible result |
| Modes.FrameNamesStrictlySorted | stop_motion/modes.py:79 | shot names 0..n-1 of one object are strictly increasing as text while they keep four digits |
| Modes.SortedStorePicksShot | stop_motion/modes.py:79-80 | when the store holds exactly shots 0..n-1 in any order (n at most 10000), the sorted entry at index i is shot i |
| Modes.StoreGrows | stop_motion/animation.py:117-119 | appending the next shot name to a store holding shots 0..n-1 gives a store holding shots 0..n |
| Modes.ModeOperator.constructor | stop_motion/modes.py:58-68 | the operator holds the given mode and toggle properties |
| Modes.ModeOperator.Execute | stop_motion/modes.py:70-92 | without an active object the host switch fails with RuntimeError and nothing changes; otherwise the objects, handlers, mode and the operator's `mode` property become what `ModeSwitch` gives, and the session stays valid |
| Modes.SwitchActive | stop_motion/modes.py:72-92 | on active object `n` the new state is `ModeSwitch` of the old one |
| Modes.SwitchShot | stop_motion/modes.py:75-90 | returns the sorted selection; on an error nothing changes; otherwise the object takes the shot's data, the modifier shows exactly in OBJECT mode and the handlers are `Switched` |
| Modes.ModeSwitch | stop_motion/modes.py:70-92 | the operator raises exactly when the object is a stop-motion object and the shot selection fails |
| Modes.ModeSwitchFails | stop_motion/modes.py:75-80 | a failing shot selection raises its error before anything changes |
| Modes.ModeSwitchPlain | stop_motion/modes.py:74-92 | without a StopMotion modifier only the host mode switch happens, toggling back to OBJECT when asked for the current mode |
| Modes.ModeSwitchPutsShot | stop_motion/modes.py:75-92 | with a shot found only the active object changes: it takes the shot's data, the requested mode toggles to OBJECT when asked for the current mode with `toggle`, the modifier shows exactly in OBJECT mode, and the object ends in the requested mode |
| Modes.ModeSwitchHandlers | stop_motion/modes.py:85-90 | with the updater registered at most once, it stays so and runs exactly when a sub-object mode was requested |
| Modes.StoreMembers | stop_motion/modes.py:79-80 | the shot the sorted selection picks is an object of the session |
| Modes.Switched | stop_motion/modes.py:85-90 | OBJECT mode removes the first updater registration; any other mode adds the updater |
| Modes.PutShot | stop_motion/modes.py:75-80 | returns the sorted selection; on an error nothing changes; otherwise only the object's data changes, to the shot's |
| Modes.SwitchUpdater | stop_motion/modes.py:85-90 | the handlers become `Switched` and only the modifier's viewport visibility changes, shown exactly in OBJECT mode |
| Modes.UpdaterPoll | stop_motion/modes.py:101-111 | without a stop-motion object or in OBJECT mode the toggle is available exactly when the updater runs; in a sub-object mode exactly when it does not |
| Modes.UpdaterExecute | stop_motion/modes.py:113-123 | a running updater is removed and the modifier shown; otherwise the updater is added and the modifier hidden; objects change only when the active object has a modifier |
| Modes.UpdaterToggleFlips | stop_motion/modes.py:113-123 | with at most one registration the toggle flips whether the updater runs |
| Animation.OperatorPoll | stop_motion/animation.py:39-41 | true exactly when the shared stop-motion poll is enabled: an active object carrying a StopMotion modifier |
| Animation.ShotData | stop_motion/animation.py:112-116 | a given source is used, copied only with `use_copy`; without one the current shot's data is always copied, and a missing current shot is KeyError |
| Animation.Inserted | stop_motion/animation.py:97-124 | on an error nothing but the switch to OBJECT mode has happened |
| Animation.InsertKeyframe | stop_motion/animation.py:97-124 | the session's new state and error are `Inserted` of the old state |
| Animation.AppendFrom | stop_motion/animation.py:112-123 | once the store, the new name and the source are known, the new state is `Appended` of the old one |
| Animation.AppendShot | stop_motion/animation.py:117-123 | the new shot (under the name or a fresh variant) is appended to the store and shown on the object; nothing else changes |
| Animation.ShowShot | stop_motion/animation.py:120-123 | only object `n` changes: index set, keyed at the current frame, data given |
| Animation.ConsistentActiveKnown | stop_motion/animation.py:97-108 | the objects and stores of a consistent session are known to `insert_keyframe` |
| Animation.ShownTargets | stop_motion/animation.py:120-123 | showing a shot gives the object the data and changes no modifier's target |
| Animation.InsertKeepsConsistent | stop_motion/animation.py:97-124 | `insert_keyframe` keeps the session consistent: store members, modifier targets, the active and selected objects exist, and every object's data was handed out |
| Animation.InsertNeedsStopMotion | stop_motion/animation.py:99-104 | without an active object or a StopMotion modifier nothing changes |
| Animation.InsertErrors | stop_motion/animation.py:108-116 | AttributeError without a store; KeyError with no source and the current shot missing; success in every other case |
| Animation.InsertAppendsShot | stop_motion/animation.py:108-123 | a success appends exactly one new shot named after the old store size (or a fresh variant); the index becomes that size and names the new shot; the object shows the new shot's data; the mode is restored |
| Animation.InsertedSuccess | stop_motion/animation.py:105-124 | the whole outcome of a successful insertion, written out in terms of the store, the source and the fresh name |
| Animation.InsertKeepsOtherObjects | stop_motion/animation.py:117-123 | only the new shot is added; other objects are untouched; the active object keeps all but its data, animation and modifiers |
| Animation.InsertKeepsOtherCollections | stop_motion/animation.py:119 | no collection other than the store changes, and none is added |
| Animation.InsertCopies | stop_motion/animation.py:112-116 | the source is shared unless `use_copy`; otherwise the data is a new block no object used before |
| Animation.InsertKeysIndex | stop_motion/animation.py:120-121 | the index curve holds a CONSTANT key at the current frame whose value is the old store size |
| Animation.InsertKeepsNumbering | stop_motion/animation.py:108-121 | a store holding exactly shots 0..k-1 holds exactly shots 0..k afterwards, and the index names the newest |
| Animation.InsertedAsWritten | stop_motion/animation.py:97-124 | with a source the code as written behaves as `Inserted` |
| Animation.InsertAsWrittenNeverCopies | stop_motion/animation.py:112-113 | with no source, as written NameError is raised and no shot is added, while the corrected insertion appends one |
| Animation.FirstSource | stop_motion/animation.py:136-141 | the first selected mesh other than the active object, in selection order; none exactly when no selected object qualifies |
| Animation.ChooseSource | stop_motion/animation.py:136-141 | the loop over the possible sources returns `FirstSource` |
| Animation.KeyframeOperator.constructor | stop_motion/animation.py:132 | the operator holds the given `use_copy` |
| Animation.KeyframeOperator.Execute | stop_motion/animation.py:134-143 | inserts from the first possible source's data (copied only with `use_copy`), or else from a copy of the current shot |
| Animation.JoinPoll | stop_motion/animation.py:151-155 | the join needs the stop-motion poll, OBJECT mode and at least two selected objects |
| Animation.JoinExecute | stop_motion/animation.py:157-164 | the bookkeeping is that of an insertion copied from the current shot; the joined objects' deletion is not stated |
| Animation.AddPoll | stop_motion/animation.py:50-53 | the add operator needs an active mesh and never holds together with the stop-motion poll |
| Animation.WithModifiers | stop_motion/animation.py:69-76 | two modifiers are appended, the old ones kept; the StopMotion one is found, the Realizer is hidden in the viewport and edit mode and points at nothing |
| Animation.WithoutEditmode | stop_motion/animation.py:82 | only the modifier's edit-mode visibility is turned off |
| Animation.SetUp | stop_motion/animation.py:78-82 | the modifier points at the store, its index reads 0, and it is hidden in edit mode |
| Animation.SetUpTargets | stop_motion/animation.py:78-82 | only the StopMotion modifier's target changes, to the store; the data is kept |
| Animation.InstalledTargets | stop_motion/animation.py:69-82 | old modifiers keep their targets, the StopMotion one points at the store, the Realizer at nothing |
| Animation.Initialized | stop_motion/animation.py:55-92 | the object is kept and the first shot is a new object |
| Animation.AddInitializes | stop_motion/animation.py:55-92 | the object becomes a stop-motion object whose new hidden store holds only the first shot; the index is 0 and names that shot; the shot copies the set-up object; the add poll no longer holds |
| Animation.AddThenInsertSucceeds | stop_motion/animation.py:55-124 | when the first shot's name was free, an insertion right after the add operator raises nothing |
| Animation.InsertAtFirstShot | stop_motion/animation.py:97-124 | an object whose store holds exactly its shot 0, with the index at 0, takes an insertion without error |
| Animation.AddKeepsOthers | stop_motion/animation.py:55-92 | no other object and no other collection changes; exactly one object and one collection are added |
| Animation.SetupKeepsOthers | stop_motion/animation.py:84-90 | a new store and shot added beside an object leave every other entry as it was |
| Animation.AddKeysFirstShot | stop_motion/animation.py:80-81 | the index curve holds a CONSTANT key with value 0 at the current frame |
| Animation.AddExecuteAsWritten | stop_motion/animation.py:61-62 | as written the operator always raises AttributeError |
| Animation.AddAsWrittenNeverInitializes | stop_motion/animation.py:61-62 | whenever the operator is available, as written the object stays without a StopMotion modifier, while the corrected operator initializes it |
| Animation.AddStopMotion | stop_motion/animation.py:55-92 | the session's new state is `Initialized` of the old one |
| Animation.AddFirstShot | stop_motion/animation.py:84-90 | a copy of the object, under a fresh name, becomes the only member of the empty store |
| Animation.MakeStore | stop_motion/animation.py:61-66 | adds one new hidden collection under a fresh name; nothing else changes |
| Animation.InstallModifiers | stop_motion/animation.py:69-82 | only the object changes: the two modifiers are added and the StopMotion one set up |
| Animation.AddKeepsConsistent | stop_motion/animation.py:55-92 | the add operator keeps the session consistent |
| Animation.ClampOffset | stop_motion/animation.py:173 | assignments to `frame_offset` are clamped to 0..100; values inside the range are kept |
| Animation.NextOrAddPlan | stop_motion/animation.py:185-201 | an AttributeError leaves `first_run` and `frame_offset` as they were |
| Animation.NextOrAddJumps | stop_motion/animation.py:187-198 | it jumps exactly without a modifier, with later keys, or with an offset of 0 in force; it adds exactly otherwise |
| Animation.NextOrAddOffsetRange | stop_motion/animation.py:173-200 | the offset stays in 0..100 and an added key lies 1 to 100 frames on |
| Animation.NextOrAddReadsPreferenceOnce | stop_motion/animation.py:176-195 | once `first_run` is cleared it stays cleared and the preference no longer matters |
| Animation.NextOrAddAgain | stop_motion/animation.py:187-201 | after next-or-add has keyed the object, running it again at that frame adds again rather than jumping |
| Animation.NextOrAdd.constructor | stop_motion/animation.py:173-174 | the operator holds the given `frame_offset` and `use_copy` |
| Animation.NextOrAdd.Fallback | stop_motion/animation.py:178-183 | finished exactly when there is a next key, and then the frame moves there; otherwise the warning is reported |
| Animation.NextOrAdd.Decide | stop_motion/animation.py:187-198 | the decision and the new `first_run` and `frame_offset` are `NextOrAddPlan`'s |
| Animation.NextOrAdd.Execute | stop_motion/animation.py:185-201 | errors change nothing; a jump moves only the current frame; an add moves the frame on by the offset and inserts there as the keyframe operator does |
| Animation.NextOrAdd.Advance | stop_motion/animation.py:199-201 | the frame moves on by the offset and the insertion is `Inserted` at the new frame |
| Legacy.IntToStr | stop_motion/stop_motion.py:113-115 | the zero-padded name reads back as the index, for every integer |
| Legacy.IntToStrOrder | stop_motion/stop_motion.py:113-115 | below 10000 the names are four digits and sort as text exactly as their numbers do |
| Legacy.Shots | stop_motion/stop_motion.py:154-195 | entry i of the shot names 0..n-1 is `int_to_str(i)` |
| Legacy.ShotsSnoc | stop_motion/stop_motion.py:195 | inserting shot n after shots 0..n-1 gives shots 0..n |
| Legacy.MaxName | stop_motion/stop_motion.py:194 | the result of `max` is one of the names |
| Legacy.MaxNameIsGreatest | stop_motion/stop_motion.py:194 | the result of `max` is at least every name of the list |
| Legacy.Newest | stop_motion/stop_motion.py:194-195 | the next name is a number when the greatest name is one; otherwise `int()` raises ValueError |
| Legacy.NewestFollowsShots | stop_motion/stop_motion.py:194-196 | when the store holds shots 0..n-1 (n from 1 to 10000) the next name is that of shot n, the store's size |
| Legacy.SortedShotsPick | stop_motion/stop_motion.py:392-393 | when the store holds shots 0..n-1 (n at most 10000), entry i of the sorted store is shot i |
| Legacy.ShotData | stop_motion/stop_motion.py:198-202 | a given source is used, copied only with `use_copy`; otherwise the store's shot named after the index is copied, and KeyError exactly when it is missing |
| Legacy.Inserted | stop_motion/stop_motion.py:181-210 | on an error nothing but the switch to OBJECT mode has happened; on success the object is back in its mode |
| Legacy.InsertKeyframe | stop_motion/stop_motion.py:181-210 | the session's new state and error are `Inserted` of the old state |
| Legacy.InsertKeepsNumbering | stop_motion/stop_motion.py:194-207 | while the store holds shots 0..n-1 (n from 1 to 9999) and the next name is free, it then holds shots 0..n and the newest is an object |
| Legacy.InsertShowsNewShot | stop_motion/stop_motion.py:203-209 | the new shot is appended last to the store, the index is the old store size, and the object shows the new shot's data |
| Legacy.AppendShows | stop_motion/stop_motion.py:203-209 | the shared append step puts the new shot last and shows it at the old store size |
| Legacy.AppendKeepsNumbering | stop_motion/stop_motion.py:195-207 | appending shot n under its free name to shots 0..n-1 gives shots 0..n with the index at n |
| Legacy.InsertedAppends | stop_motion/stop_motion.py:194-209 | a successful insertion is the shared append under the next name with the data `ShotData` picks |
| Legacy.KeyframeOperator.constructor | stop_motion/stop_motion.py:218 | the operator holds the given `use_copy` |
| Legacy.KeyframeOperator.Execute | stop_motion/stop_motion.py:220-229 | inserts from the first selected mesh other than the active object (copied only with `use_copy`), or else from a copy of the current shot |
| Legacy.NextOrAddExecute | stop_motion/stop_motion.py:264-287 | the decision and fallback are those of the current revision; an add moves the frame on by the offset and inserts as this revision does (the corrected first run, which reads the preference) |
| Legacy.NextOrAddAsWrittenRaises | stop_motion/stop_motion.py:277-281 | as written, the first run on an object with no later key clears `first_run` and raises AttributeError with the offset still 0, where the corrected decision adds a key `preference` frames on |
| Legacy.NextOrAddAsWrittenKeepsZero | stop_motion/stop_motion.py:270-287 | as written, a run starting with offset 0 never adds a key and leaves the offset at 0 |
| Legacy.Act | stop_motion/stop_motion.py:273-287 | once the decision is taken: an error changes nothing, a jump moves only the frame, an add advances and inserts |
| Legacy.Advance | stop_motion/stop_motion.py:286-287 | the frame moves on by the offset and the insertion is `Inserted` at the new frame |
| Legacy.AddPoll | stop_motion/stop_motion.py:135-138 | available exactly for an active mesh, whether or not it is already a stop-motion object |
| Legacy.LegacyModifiers | stop_motion/stop_motion.py:161-169 | two modifiers appended, old ones kept; an existing StopMotion modifier stays the one found, otherwise the first new one is; the Realizer is hidden |
| Legacy.Install | stop_motion/stop_motion.py:161-174 | the object becomes a stop-motion object pointing at the store with index 0, keeping its data |
| Legacy.Initialized | stop_motion/stop_motion.py:140-176 | the object is kept and the first shot is a new object |
| Legacy.AddInitializes | stop_motion/stop_motion.py:140-176 | the object becomes a stop-motion object at index 0 whose new store holds only the first shot, a copy of the object as it was |
| Legacy.AddKeepsOtherObjects | stop_motion/stop_motion.py:153-159 | only the first shot is added and no other object changes |
| Legacy.AddKeepsOtherCollections | stop_motion/stop_motion.py:146-151 | only the new store is added and no other collection changes |
| Legacy.AddKeysFirstShot | stop_motion/stop_motion.py:173-174 | the index curve holds a CONSTANT key with value 0 at the current frame |
| Legacy.AddStopMotion | stop_motion/stop_motion.py:140-176 | the session's new state is `Initialized` of the old one |
| Legacy.SharedNameStalls | stop_motion/stop_motion.py:154-195 | when another object already holds "0000", every insertion on the new stop-motion object raises ValueError |
| Legacy.FirstShotUnnumbered | stop_motion/stop_motion.py:154 | when "0000" is taken, the name the host hands out instead is no number |
| Legacy.UnnumberedStoreStalls | stop_motion/stop_motion.py:194-195 | a store whose greatest name is no number makes every insertion raise ValueError |
| Legacy.SharedNameShowsOther | stop_motion/stop_motion.py:355-362 | after the add operator while another object holds "0000", `update_data` shows that other object's shot |
| Legacy.Updated | stop_motion/stop_motion.py:355-362 | AttributeError without an active object or modifier, KeyError when no object has the index's name (both after the switch to OBJECT mode); otherwise only the object's data changes, to that object's, and the mode is restored |
| Legacy.UpdateData | stop_motion/stop_motion.py:355-362 | the session's new state and error are `Updated` of the old state |
| Legacy.UpdateAgreesWithModeOperator | stop_motion/stop_motion.py:355-393 | while the store holds shots 0..m-1 (m at most 10000) and the index is one of them, `update_data` shows the same shot as the mode operator's sorted selection |
| Legacy.IsHandlerRunning | stop_motion/stop_motion.py:409-410 | true exactly when a registered handler is named "update_data" |
| Legacy.RemovedWhileIterating | stop_motion/stop_motion.py:399-402 | the loop as written never grows the list |
| Legacy.RemovalSkipsSecond | stop_motion/stop_motion.py:399-402 | two registrations in a row leave one behind |
| Legacy.EditTwiceThenObject | stop_motion/stop_motion.py:399-404 | asking twice for EDIT mode then for OBJECT mode leaves the handler registered as written; the corrected removal leaves none |
| Legacy.Unregistered | stop_motion/stop_motion.py:399-402 | no "update_data" registration is left, and every other handler keeps its count |
| Legacy.Registrations | stop_motion/stop_motion.py:399-404 | OBJECT mode leaves no registration; any other mode adds exactly one more |
| Legacy.Unregister | stop_motion/stop_motion.py:399-402 | the handlers become `Unregistered` of the old ones |
| Legacy.ModeSwitch | stop_motion/stop_motion.py:382-406 | raises exactly when the object is a stop-motion object and the sorted selection fails, and then nothing changes; without a modifier only the host switch happens |
| Legacy.ModeSwitchPutsShot | stop_motion/stop_motion.py:386-406 | with a shot found only the object's data changes, to the shot's; the handler runs exactly when a sub-object mode was asked for, and the object ends in that mode |
| Legacy.ModeOperator.constructor | stop_motion/stop_motion.py:370-380 | the operator holds the given mode and toggle properties |
| Legacy.ModeOperator.Execute | stop_motion/stop_motion.py:382-406 | without an active object RuntimeError and nothing changes; otherwise the new state is `ModeSwitch` of the old one, and the session stays valid |
| Legacy.SwitchActive | stop_motion/stop_motion.py:384-406 | on active object `n` the new state is `ModeSwitch` of the old one |
| Legacy.SwitchShot | stop_motion/stop_motion.py:387-404 | returns the sorted selection; on an error nothing changes; otherwise the object takes the shot's data and the handlers are `Registrations` |
| Legacy.UpdaterPoll | stop_motion/stop_motion.py:419-429 | the same availability as the current toggle, with `is_handler_running` for whether the updater runs |
| Legacy.UpdaterToggle | stop_motion/stop_motion.py:431-439 | removes the first "update_data" registration, or appends one when there is none |
| Legacy.UpdaterToggleFlips | stop_motion/stop_motion.py:431-439 | with at most one registration the toggle flips whether the handler runs and keeps it registered at most once |
| Scratch.Action.constructor | stop_motion/scratch.py:34-38 | an action holds the given curves |
| Scratch.Action.Copy | stop_motion/scratch.py:43 | `action.copy()` is a new action with the same curves |
| Scratch.OffsetPoints | stop_motion/scratch.py:28-31 | the generator yields at most one pair per point, and stops with an error exactly when it yields fewer |
| Scratch.OffsetFrom | stop_motion/scratch.py:30-31 | from point i on, at most one pair per remaining point, with an error exactly when fewer are yielded |
| Scratch.OffsetFromPairs | stop_motion/scratch.py:30-31 | from point i on the generator yields exactly the pairs of each point in turn, up to the first out-of-range read, which raises IndexError |
| Scratch.OffsetPointsPairs | stop_motion/scratch.py:28-31 | exactly `YieldCount` pairs, pair k being point k's frame with point k+delta's value; IndexError exactly when that is short of every point |
| Scratch.ForwardShiftRaises | stop_motion/scratch.py:28-31 | a forward shift always ends with IndexError after the points whose partner exists |
| Scratch.WrapIndex | stop_motion/scratch.py:31 | Python's reading of an index from -n to n-1 is the index modulo n |
| Scratch.BackwardShiftWraps | stop_motion/scratch.py:28-31 | a backward shift by at most the curve's length yields every point, reading values round the end as Python's negative indices do |
| Scratch.OffsetCurves | stop_motion/scratch.py:34-38 | only the target curve changes: its first keys take the yielded pairs and the rest are kept; a missing source curve raises KeyError before anything is written; no error exactly when every point was yielded and the target is long enough |
| Scratch.OffsetInPlace | stop_motion/scratch.py:34-38 | with the action as its own target: only the named curve changes and keeps its length; a missing curve raises KeyError with nothing written |
| Scratch.ShiftFrom | stop_motion/scratch.py:30-38 | from key i on, the in-place loop keeps the curve's length and leaves the keys before i as it found them |
| Scratch.ShiftForward | stop_motion/scratch.py:30-38 | with a forward shift and the keys from i on untouched, the in-place loop writes exactly the pairs the generator yields over the untouched curve, and raises what it raises |
| Scratch.InPlaceForward | stop_motion/scratch.py:34-38 | shifting a curve forward onto its own action gives the same curves and error as offsetting from a copy |
| Scratch.ShiftBackward | stop_motion/scratch.py:30-38 | with a backward shift by d, the in-place loop from key i on raises nothing and leaves every key `ShiftedBack` |
| Scratch.InPlaceBackward | stop_motion/scratch.py:34-38 | shifting a curve back by d onto its own action raises nothing; every key keeps its frame, the first d take the last d values and every later key repeats the new value d keys before it, unlike the rotation a copy gives |
| Scratch.OffsetAction | stop_motion/scratch.py:34-38 | between two actions the target's curves become `OffsetCurves` of the old curves and the source is untouched; with one action as both, its curves become `OffsetInPlace` of the old ones |
| Scratch.CopyOffset | stop_motion/scratch.py:41-45 | the offset is written into a new copy; the action itself keeps its curves |
| Scratch.Fill | stop_motion/scratch.py:54 | `n` added keys |
| Scratch.Resized | stop_motion/scratch.py:52-57 | the target gets the source's length; keys below that length keep their slots and new keys are added at the end |
| Scratch.Updated | stop_motion/scratch.py:48-58 | no curve is added or dropped; KeyError, with nothing changed, when either curve is missing |
| Scratch.UpdatedOffsets | stop_motion/scratch.py:48-58 | with a backward shift no longer than the curve, the target curve has the source's length, key i holding point i's frame and the value `offset` keys earlier, and nothing is raised |
| Scratch.UpdateOffset | stop_motion/scratch.py:48-58 | between two actions the target's curves become `Updated` and the source is untouched; with one action as both, nothing is resized and its curves become `OffsetInPlace` of the old ones |
| JsonNodes.Sanitize | stop_motion/json_nodes.py:49-59 | numbers, strings and booleans come back unchanged; a non-iterable comes back as its name when it has one, unchanged otherwise; an iterable becomes a list of as many items; the result holds no named host value |
| JsonNodes.PlainFixed | stop_motion/json_nodes.py:49-59 | a value holding no named host value is its own sanitised form |
| JsonNodes.SanitizeIdempotent | stop_motion/json_nodes.py:49-59 | `sanitize` is idempotent |
| JsonNodes.SanitizeItems | stop_motion/json_nodes.py:59 | item i of a sanitised iterable is item i sanitised |
| JsonNodes.Find | stop_motion/json_nodes.py:68-78 | the value found is listed under the key; nothing is found exactly when no entry has the key |
| JsonNodes.Put | stop_motion/json_nodes.py:82 | after `d[k] = v` the key holds `v`, every other key what it held, and a new key goes last |
| JsonNodes.Include | stop_motion/json_nodes.py:61-72 | a name with a rejected prefix or in the exclusion list is refused; an included name exists and is not callable; AttributeError exactly when a name passing both tests is missing |
| JsonNodes.Names | stop_motion/json_nodes.py:76 | the names `dir` lists, in order |
| JsonNodes.ListedFind | stop_motion/json_nodes.py:76-80 | the comprehension holds exactly the listed included names, each with its sanitised value |
| JsonNodes.ListedUnique | stop_motion/json_nodes.py:76-80 | when `dir` lists each name once, each key appears once |
| JsonNodes.Additions | stop_motion/json_nodes.py:81-82 | AttributeError exactly when some addition is missing |
| JsonNodes.AdditionsKeys | stop_motion/json_nodes.py:81-82 | a key is present exactly when it was before or is added; added keys hold the sanitised attribute and others are kept |
| JsonNodes.SerializeElement | stop_motion/json_nodes.py:74-83 | fails exactly when some addition is missing |
| JsonNodes.SerializeElementKeys | stop_motion/json_nodes.py:74-83 | its keys are exactly the included names and the additions, each holding the sanitised attribute |
| JsonNodes.SocketFields | stop_motion/json_nodes.py:98-101 | a socket's dict holds exactly the listed properties the socket has, each sanitised |
| JsonNodes.SerializeNode | stop_motion/json_nodes.py:85-102 | fails exactly when the node has no `bl_idname`; otherwise one dict per input and per output socket |
| JsonNodes.SerializedNode | stop_motion/json_nodes.py:85-102 | the node's dict carries its `bl_idname`, its own fields never an "inputs" or "outputs" key, and each socket exactly the listed properties it has |
| JsonNodes.SerializeAll | stop_motion/json_nodes.py:119-129 | one dict per link or interface socket, each that element serialised, in order |
| JsonNodes.NodeNames | stop_motion/json_nodes.py:116 | the names of the group's nodes, in order |
| JsonNodes.SerializedNodeKeys | stop_motion/json_nodes.py:115-118 | every node name is a key of the "nodes" dict, and other keys are untouched |
| JsonNodes.SerializedNodeValues | stop_motion/json_nodes.py:115-118 | with distinct node names, each name holds that node serialised |
| JsonNodes.SerializeShape | stop_motion/json_nodes.py:112-130 | "nodes" is keyed by exactly the node names; one dict per link and per interface socket |
| JsonNodes.AssignedSets | stop_motion/json_nodes.py:132-138 | with each name once: every accepted pair is set, exactly the refused names are reported, and properties with no accepted pair keep their value |
| JsonNodes.AssignedReports | stop_motion/json_nodes.py:134-138 | the names reported are exactly those of the refused pairs |
| JsonNodes.AssignedKeeps | stop_motion/json_nodes.py:134-138 | a property whose every pair is refused keeps its value, or stays absent |
| JsonNodes.SetElement | stop_motion/json_nodes.py:132-138 | the loop performs `Assigned`: assignments in order, refused ones reported and skipped |
| JsonNodes.Pick | stop_motion/json_nodes.py:175-186 | a pick is a valid position; a string picks a node of that name, and succeeds exactly when one exists; keys neither string nor int are TypeError |
| JsonNodes.BuiltNames | stop_motion/json_nodes.py:175 | the names of the nodes built so far, in order |
| JsonNodes.SocketNames | stop_motion/json_nodes.py:185-186 | one name per socket |
| JsonNodes.AddIo | stop_motion/json_nodes.py:153-155 | fails exactly when the type or the name is missing; otherwise one socket is added on its side and nothing else changes |
| JsonNodes.AddIos | stop_motion/json_nodes.py:152-155 | only interface sockets change |
| JsonNodes.FreshSockets | stop_motion/json_nodes.py:153 | new sockets carry the given names, in order |
| JsonNodes.Without | stop_motion/json_nodes.py:170-171 | exactly the pairs whose key is not excluded |
| JsonNodes.Made | stop_motion/json_nodes.py:165-172 | succeeds exactly when "bl_idname" is a string naming a known type, and then adds one unparented node with that type and name, keeping the others; an error changes nothing |
| JsonNodes.DataLocation | stop_motion/json_nodes.py:179 | a location read is that of a node in the data, under a string key |
| JsonNodes.Parented | stop_motion/json_nodes.py:173-179 | links, interface, node names, types and sockets are kept |
| JsonNodes.ParentRule | stop_motion/json_nodes.py:173-179 | without a truthy "parent" nothing changes; on success the node has a parent exactly when there is one; then the parent is the node picked, it takes the location from the data, and the node its own |
| JsonNodes.Socketed | stop_motion/json_nodes.py:180-182 | only the last node's sockets change; IndexError exactly when there are more elements than sockets |
| JsonNodes.SocketedStep | stop_motion/json_nodes.py:181-182 | setting socket i then the rest is the same as setting them all from i |
| JsonNodes.AddNodes | stop_motion/json_nodes.py:164-182 | earlier nodes keep their names, at most one node per entry is added, node i made is entry i of the order, and one node per entry when nothing raises |
| JsonNodes.AddFirstNode | stop_motion/json_nodes.py:164-182 | as `AddNodes`, for a non-empty order starting with its first entry |
| JsonNodes.AfterMade | stop_motion/json_nodes.py:173-182 | the steps after making the first node keep `AddNodes`' guarantees |
| JsonNodes.ParentStage | stop_motion/json_nodes.py:173-182 | parenting, sockets and the remaining nodes keep earlier names and add at most one node per remaining entry, in order |
| JsonNodes.SocketStage | stop_motion/json_nodes.py:180-182 | the socket steps and the remaining nodes keep earlier names and add at most one node per remaining entry, in order |
| JsonNodes.ShiftedNames | stop_motion/json_nodes.py:164-166 | one node made with the first name, then the rest in order, is every node made in order |
| JsonNodes.Endpoint | stop_motion/json_nodes.py:185-186 | a found endpoint is an existing node and an existing socket on the asked side |
| JsonNodes.AddLink | stop_motion/json_nodes.py:185-187 | one link is added on success; an error changes nothing |
| JsonNodes.AddLinks | stop_motion/json_nodes.py:184-187 | only links change, at most one per entry, and one per entry when nothing raises |
| JsonNodes.WithKey | stop_motion/json_nodes.py:158-162 | no more entries than given |
| JsonNodes.FramesFirst | stop_motion/json_nodes.py:158-162 | the sorted list has as many entries as the data |
| JsonNodes.WithKeyAppend | stop_motion/json_nodes.py:158-162 | filtering by key distributes over concatenation |
| JsonNodes.WithKeyCons | stop_motion/json_nodes.py:158-162 | filtering by key keeps the first entry exactly when it has the key |
| JsonNodes.WithKeySplit | stop_motion/json_nodes.py:158-162 | the FRAME and the other entries together are a permutation of all entries |
| JsonNodes.WithKeyKeyed | stop_motion/json_nodes.py:158-162 | every entry kept has the key asked for |
| JsonNodes.WithKeyAll | stop_motion/json_nodes.py:158-162 | entries all of one key are kept whole by that key and dropped by the other |
| JsonNodes.FramesFirstSorted | stop_motion/json_nodes.py:158-162 | the node order is a permutation of the data with no FRAME node after a non-FRAME one, each key's nodes in document order: a stable sort |
| JsonNodes.BuildInterface | stop_motion/json_nodes.py:150-155 | the interface step makes no node and no link |
| JsonNodes.Build | stop_motion/json_nodes.py:150-189 | whatever raises, node i is entry i of the FRAME-first order, and links are made only after every node |
| JsonNodes.NodesFromEmpty | stop_motion/json_nodes.py:164-166 | from an empty group, node i is entry i of the order |
| JsonNodes.NodeGroup.constructor | stop_motion/json_nodes.py:146-147 | a new group has the name and nothing in it |
| JsonNodes.NodeGroup.MakeIos | stop_motion/json_nodes.py:152-155 | the group's new state and error are `AddIos` of the old one |
| JsonNodes.NodeGroup.SetSockets | stop_motion/json_nodes.py:180-182 | the group's new state and error are `Socketed` of the old one |
| JsonNodes.NodeGroup.SetParent | stop_motion/json_nodes.py:173-179 | the group's new state and error are `Parented` of the old one |
| JsonNodes.NodeGroup.MakeNode | stop_motion/json_nodes.py:165-182 | after the first entry, the remaining nodes from the new state give what `AddFirstNode` gives from the old one; an error is `AddFirstNode`'s |
| JsonNodes.NodeGroup.MakeNodes | stop_motion/json_nodes.py:164-182 | the group's new state and error are `AddNodes` of the old one |
| JsonNodes.NodeGroup.MakeLinks | stop_motion/json_nodes.py:184-187 | the group's new state and error are `AddLinks` of the old one |
| JsonNodes.BlendData.constructor | stop_motion/json_nodes.py:45 | the blend file holds the given node groups |
| JsonNodes.NodeTree.constructor | stop_motion/json_nodes.py:41-45 | the tree holds the name, the data, and the group of that name when there is one |
| JsonNodes.NodeTree.SerializeGroup | stop_motion/json_nodes.py:112-130 | on success the stored data is the serialised group; on an error it is unchanged |
| JsonNodes.NodeTree.Create | stop_motion/json_nodes.py:140-189 | an existing group is returned and nothing changes; otherwise a new group is registered under the name, TypeError when there is no data, and otherwise the group is `Build` of the data |
| JsonNodes.Open | stop_motion/json_nodes.py:41-47 | an existing group's data is replaced by its serialised form, with the serialisation's error; without a group the given data is kept |
| OnionSkins.Defaults | stop_motion/onion_skins.py:335-357 | the declared defaults lie within the declared bounds: onion skins off, offset 2, one skin before and one after |
| OnionSkins.Clamped | stop_motion/onion_skins.py:337-357 | what the host stores lies within the declared bounds, settings already within them are kept, and `enable` is never changed |
| OnionSkins.Plan | stop_motion/onion_skins.py:275-281 | the slot has the side and index it was asked for |
| OnionSkins.SideOf | stop_motion/onion_skins.py:273-275 | the load visits the ten slots before the current frame first |
| OnionSkins.IndexOf | stop_motion/onion_skins.py:273-275 | each of the twenty slots of a load is index `IndexOf(k)` of side `SideOf(k)` |
| OnionSkins.PlanAt | stop_motion/onion_skins.py:273-281 | the k-th slot visited has the side and index the loop gives it |
| OnionSkins.PlanCreates | stop_motion/onion_skins.py:276 | a slot is made exactly when onion skins are on and its index is below the side's count |
| OnionSkins.PlanOffsets | stop_motion/onion_skins.py:277-281 | offsets are the (index + 1)-th multiple of the frame offset, negative before the current frame and positive after, growing in size with the index |
| OnionSkins.OffsetsGrow | stop_motion/onion_skins.py:281 | for a positive frame offset the slot offset is sign times offset times (index + 1), and its size grows with the index |
| OnionSkins.Multiples | stop_motion/onion_skins.py:281 | `f + f * i` is the (i + 1)-th multiple of a positive `f`, growing with `i` |
| OnionSkins.PlanOpacity | stop_motion/onion_skins.py:280 | the first slot has the settings' opacity; opacity never grows with the index and stays above zero on the slots that are made |
| OnionSkins.FalloffFirst | stop_motion/onion_skins.py:280 | at index 0 the opacity falloff is the opacity itself |
| OnionSkins.FalloffMonotone | stop_motion/onion_skins.py:280 | the opacity falloff never grows with the index |
| OnionSkins.FalloffPositive | stop_motion/onion_skins.py:280 | the opacity falloff is positive below the count |
| OnionSkins.SkinName | stop_motion/onion_skins.py:168-169 | a ghost's name is never its source's name |
| OnionSkins.SlotTagsDistinct | stop_motion/onion_skins.py:160-169 | slots differing in direction or index have different "<direction>_<two-digit index>" tags |
| OnionSkins.MaterialNamesDistinct | stop_motion/onion_skins.py:159-160 | slots differing in direction or index have different material names |
| OnionSkins.SkinNamesDistinct | stop_motion/onion_skins.py:168-169 | for one source, slots differing in direction or index have different ghost names |
| OnionSkins.PlanNamesDistinct | stop_motion/onion_skins.py:168-169 | the twenty slots of a load have twenty different ghost names |
| OnionSkins.PlanSign | stop_motion/onion_skins.py:277-281 | a slot's offset is positive exactly on the side after the current frame |
| OnionSkins.Without | stop_motion/onion_skins.py:72-84 | the name is gone and every other entry stays; nothing changes when it was absent |
| OnionSkins.AttachDetach | stop_motion/onion_skins.py:76-84 | attaching puts the collection under the scene, detaching takes it away, each keeping the others and each idempotent |
| OnionSkins.LinkUnlink | stop_motion/onion_skins.py:68-74 | linking makes the object a member, unlinking makes it not one; both keep every other member, change nothing else about the collection and are idempotent |
| OnionSkins.OnionColl | stop_motion/onion_skins.py:42-57 | a new onion collection is empty, onion-tagged, kept by a fake user, not selectable and not rendered |
| OnionSkins.CollectionOpenedReuses | stop_motion/onion_skins.py:45-57 | the source's onion collection ends up existing and under the scene; an existing one is kept as it is, a new one is `OnionColl`; objects and materials are untouched; opening again changes nothing |
| OnionSkins.MaterialOpenedReuses | stop_motion/onion_skins.py:94-157 | one material per direction and index, showing the requested colour and opacity; an existing one keeps its tags and set-up, a new one is onion-tagged and set up; other materials are untouched (with the material set up as intended; see Findings) |
| OnionSkins.NewGhost | stop_motion/onion_skins.py:189-191 | a new ghost shares the source's data, has no modifiers and no animation, and is onion-tagged |
| OnionSkins.GhostModifiers | stop_motion/onion_skins.py:200-221 | a ghost that already has a StopMotion modifier is left as it is; only modifiers change |
| OnionSkins.FindAppendedTwo | stop_motion/onion_skins.py:204-213 | with two modifiers appended to a stack without one, the first so named, that first appended one is found |
| OnionSkins.GhostModifiersIndex | stop_motion/onion_skins.py:204-221 | a ghost without the modifier gets a "MeshKey" one reading the source's store at the source's index plus the offset, followed by a materializer holding the slot's material |
| OnionSkins.Dressed | stop_motion/onion_skins.py:234-246 | not selectable, not rendered, no shadows, colour the slot's colour with its opacity as alpha; nothing else changes |
| OnionSkins.Animated | stop_motion/onion_skins.py:225-232 | the animation is cleared and is one strip playing the source's action from `start - offset`; nothing else changes |
| OnionSkins.Made | stop_motion/onion_skins.py:189-195 | a made slot adds exactly its ghost when missing, and adds or removes no collection |
| OnionSkins.SkinApplied | stop_motion/onion_skins.py:171-195 | the source stays as it was and ready |
| OnionSkins.SkinAppliedOwn | stop_motion/onion_skins.py:171-198 | the onion collection exists under the scene; the ghost is handled as `SkinDone` says; the skin is true exactly when the slot is made or the ghost existed |
| OnionSkins.SkinDoneFrom | stop_motion/onion_skins.py:171-195 | a step done on a scene that agrees with another on the ghost is done as seen from that other scene |
| OnionSkins.SkinAppliedFrame | stop_motion/onion_skins.py:171-195 | the step leaves every other object as it was, in the onion collection exactly when it was before |
| OnionSkins.Plans | stop_motion/onion_skins.py:273-281 | twenty slots, slot k being `PlanAt(k)` |
| OnionSkins.PlansAt | stop_motion/onion_skins.py:273-275 | index `index` of `side` is a slot of the load on that side, planned as `Plan` |
| OnionSkins.PlansDistinct | stop_motion/onion_skins.py:168-169 | the twenty slots of a load have twenty different ghosts |
| OnionSkins.Loaded | stop_motion/onion_skins.py:271-287 | the load keeps the source as it was and ready |
| OnionSkins.LoadStep | stop_motion/onion_skins.py:282-285 | one slot applied keeps the source as it was and ready |
| OnionSkins.LoadedNext | stop_motion/onion_skins.py:275-285 | one more slot is the load so far with that slot applied |
| OnionSkins.LoadedStepFrame | stop_motion/onion_skins.py:282-285 | one slot leaves alone every object that is not its ghost |
| OnionSkins.LoadedFrame | stop_motion/onion_skins.py:273-287 | a run of slots leaves alone every object that is none of their ghosts |
| OnionSkins.LoadedBefore | stop_motion/onion_skins.py:273-287 | slot k meets its ghost as it was before the load |
| OnionSkins.LoadedSlotDone | stop_motion/onion_skins.py:273-287 | slot k is done, as seen from before the load, right after it runs |
| OnionSkins.LoadedSlots | stop_motion/onion_skins.py:273-287 | after k slots every one of them is done: a later slot leaves an earlier slot's ghost alone |
| OnionSkins.NamedOnce | stop_motion/onion_skins.py:168-169 | a slot's ghost is none of the other slots' ghosts |
| OnionSkins.SkinDoneKept | stop_motion/onion_skins.py:171-195 | a slot stays done while other slots leave its ghost alone |
| OnionSkins.Base | stop_motion/onion_skins.py:184-191 | without an object of the ghost's name, a made slot starts from a new ghost |
| OnionSkins.SkinMade | stop_motion/onion_skins.py:189-195 | a made slot's ghost is made from the scene the step starts from (with the material set up as intended; see Findings) |
| OnionSkins.GhostedFrom | stop_motion/onion_skins.py:189-195 | a ghost made from a scene that agrees with another on it and on the source is made from that other scene |
| OnionSkins.GhostedKept | stop_motion/onion_skins.py:189-195 | a made ghost stays as it is while other slots leave it alone |
| OnionSkins.LoadedGhostMade | stop_motion/onion_skins.py:273-287 | right after a made slot, its ghost is the one made from what the scene held before the load (with the material set up as intended; see Findings) |
| OnionSkins.LoadedGhost | stop_motion/onion_skins.py:273-287 | after k slots the ghost of every made slot among them is the one made from what the scene held before the load (with the material set up as intended; see Findings) |
| OnionSkins.GhostShows | stop_motion/onion_skins.py:192-246 | a made ghost is not selectable, not rendered, casts no shadow, shows the slot's colour and opacity, plays the source's action shifted by its offset, and keeps its data and tags (with the material set up as intended; see Findings) |
| OnionSkins.GhostIndex | stop_motion/onion_skins.py:198-221 | a ghost with a StopMotion modifier keeps its stack; one without gets a "MeshKey" modifier showing the source's store at the source's index plus the offset, and a materializer holding the slot's material |
| OnionSkins.StackIndex | stop_motion/onion_skins.py:218-221 | any object carrying a fresh ghost's modifier stack reads the source's store at the shifted index |
| OnionSkins.NewGhostBare | stop_motion/onion_skins.py:189-204 | a new ghost has no StopMotion modifier, so the load gives it one |
| OnionSkins.SkinAppliedKeys | stop_motion/onion_skins.py:184-191 | one step adds exactly its own ghost when the slot is made, and no object otherwise |
| OnionSkins.LoadedKeysStep | stop_motion/onion_skins.py:282-285 | slot k adds exactly its own ghost when made, and no object otherwise |
| OnionSkins.LoadedKeys | stop_motion/onion_skins.py:273-287 | after k slots an object exists exactly when it existed before or is the ghost of a made slot: nothing is removed |
| OnionSkins.LoadedCollections | stop_motion/onion_skins.py:273-287 | after at least one slot, the collections are those of before plus the source's onion collection, which is under the scene |
| OnionSkins.LoadedStepKept | stop_motion/onion_skins.py:286-287 | slot k's skin is true exactly when the slot is kept |
| OnionSkins.KeptFlags | stop_motion/onion_skins.py:286 | whether each slot is kept, in load order |
| OnionSkins.SlotRefs | stop_motion/onion_skins.py:282-287 | each slot's entry, in load order |
| OnionSkins.Listing | stop_motion/onion_skins.py:286-287 | a side's list holds at most one entry per slot |
| OnionSkins.ListsOf | stop_motion/onion_skins.py:272-287 | there are two lists, before and after the current frame |
| OnionSkins.Lists | stop_motion/onion_skins.py:272-287 | the manager has two lists, before and after the current frame |
| OnionSkins.ListsStep | stop_motion/onion_skins.py:286-287 | slot k appends its entry to its side's list exactly when it is kept, and leaves the other list alone |
| OnionSkins.ListsListing | stop_motion/onion_skins.py:272-287 | after k slots each list holds the entries of its side's kept slots among those k, in slot order |
| OnionSkins.ListingEmpty | stop_motion/onion_skins.py:268-287 | a list is empty exactly when none of its slots is kept |
| OnionSkins.ListingSlots | stop_motion/onion_skins.py:286-287 | every listed entry is the entry of a kept slot of the list's side |
| OnionSkins.ListingUnique | stop_motion/onion_skins.py:286-287 | a list's entries name different ghosts when the slots' entries do |
| OnionSkins.DistinctRefs | stop_motion/onion_skins.py:168-169 | the slots' entries name different ghosts when the slots' names differ |
| OnionSkins.ListsUnique | stop_motion/onion_skins.py:271-287 | every ghost the manager lists after a load is listed once |
| OnionSkins.LoadedListed | stop_motion/onion_skins.py:271-287 | every listed ghost exists once the load is over (with the material set up as intended; see Findings) |
| OnionSkins.LoadedAny | stop_motion/onion_skins.py:268-269 | after a load the manager is true exactly when some slot is kept |
| OnionSkins.EnabledLoadsSome | stop_motion/onion_skins.py:268-287 | with onion skins on, a load always leaves the manager true (with the material set up as intended; see Findings) |
| OnionSkins.Refreshed | stop_motion/onion_skins.py:289-292 | no object is added or removed |
| OnionSkins.RefreshedAppend | stop_motion/onion_skins.py:290-292 | refreshing two lists one after the other is refreshing their concatenation |
| OnionSkins.RefreshedShows | stop_motion/onion_skins.py:289-292 | every listed ghost plays the action from `start` minus its offset and is otherwise as it was; an object not listed is left alone |
| OnionSkins.UnloadedAppend | stop_motion/onion_skins.py:295-297 | unloading two lists one after the other is unloading their concatenation |
| OnionSkins.UnloadedMembers | stop_motion/onion_skins.py:294-297 | no listed ghost is left in the collection, every other member stays, and nothing else about the collection changes |
| OnionSkins.SceneOf | stop_motion/onion_skins.py:171-195 | the scene is the session's objects, collections, scene children and materials |
| OnionSkins.MakeSkin | stop_motion/onion_skins.py:171-198 | the session's new scene and `bool(skin)` are `SkinApplied` of the old scene |
| OnionSkins.OnionSkinManager.constructor | stop_motion/onion_skins.py:257-266 | the manager holds the source and settings; the scene becomes the full load of the old one, and the lists those of `Lists` (with the material set up as intended; see Findings) |
| OnionSkins.OnionSkinManager.Load | stop_motion/onion_skins.py:271-287 | the scene becomes the full load of the old one and the lists those of `Lists` (with the material set up as intended; see Findings) |
| OnionSkins.OnionSkinManager.LoadSide | stop_motion/onion_skins.py:273-287 | after the ten slots of a side, the scene and lists are those of the load up to the side's end (with the material set up as intended; see Findings) |
| OnionSkins.OnionSkinManager.LoadSlot | stop_motion/onion_skins.py:275-287 | after one slot, the scene and lists are those of the load one slot further (with the material set up as intended; see Findings) |
| OnionSkins.OnionSkinManager.Refresh | stop_motion/onion_skins.py:289-292 | the objects become `Refreshed` over both lists, before then after |
| OnionSkins.OnionSkinManager.Unload | stop_motion/onion_skins.py:294-297 | only the onion collection changes, becoming `Unloaded` over both lists |
| OnionSkins.RefreshList | stop_motion/onion_skins.py:291-292 | the objects become `Refreshed` over the list |
| OnionSkins.UnloadList | stop_motion/onion_skins.py:296-297 | only the onion collection changes, becoming `Unloaded` over the list |
| OnionSkins.SettingsListed | stop_motion/onion_skins.py:257-287 | for any settings within bounds, every skin the manager lists has its ghost in the loaded scene (with the material set up as intended; see Findings) |
| OnionSkins.SyncOnionSkins | stop_motion/onion_skins.py:301-306 | the scene becomes the full load, with every listed ghost's animation rebuilt |
| OnionSkins.SyncExecute | stop_motion/onion_skins.py:313-315 | finishes, with the scene synced as `SyncOnionSkins` says for the active object |
| OnionSkins.OnEnable | stop_motion/onion_skins.py:320-322 | switching onion skins on or off loads the active object's skins; switching them off asks nothing of the source's modifier or action |
| OnionSkins.OnUpdate | stop_motion/onion_skins.py:325-329 | any other setting reloads the active object's skins while onion skins are on, and changes nothing otherwise, asking nothing of the source then |
| OnionSkins.SettingsLoadable | stop_motion/onion_skins.py:276 | with onion skins off no slot is made, so a load never reads the source's modifier or action |
| OnionSkins.HalfBuilt | stop_motion/onion_skins.py:107-122 | a material `materials.new` made and the code began to set up is onion-tagged and not set up |
| OnionSkins.MaterialAsWrittenRaises | stop_motion/onion_skins.py:94-157 | as written, a missing material is left half built with TypeError, a half-built one raises KeyError and stays so, only an already set-up one opens as intended, and no material becomes set up |
| OnionSkins.SkinAppliedAsWritten | stop_motion/onion_skins.py:171-202 | as written, one slot keeps the source as it was and ready |
| OnionSkins.SkinAsWrittenUndressed | stop_motion/onion_skins.py:184-202 | as written, a made slot whose material is missing or half built raises (TypeError exactly when missing) after linking its ghost, which, when new, has no StopMotion modifier and no NLA strip |
| OnionSkins.SkinAsWrittenAgrees | stop_motion/onion_skins.py:171-202 | with its material already set up, or for a slot not made, one slot as written is the intended step |
| OnionSkins.LoadedAsWritten | stop_motion/onion_skins.py:271-287 | as written, the load keeps the source as it was and ready |
| OnionSkins.AsWrittenStops | stop_motion/onion_skins.py:273-287 | as written, once a slot raises, the later slots change nothing |
| OnionSkins.AsWrittenSetsUpNone | stop_motion/onion_skins.py:273-287 | as written, a load starting with no material set up leaves none set up |
| OnionSkins.LoadAsWrittenFails | stop_motion/onion_skins.py:257-287 | as written, with onion skins on and no material set up, every load raises and leaves no material set up, so the next load raises too |

## Left out

- File I/O: `json_nodes.write_node`/`read_node` and all of `obj_io.py` read and write files. The add operator's node groups are taken as given, so their input identifiers are parameters.
- Python reflection (`dir`, `getattr`, `setattr` on host types) is not modelled as such. An element's attributes are an explicit list, the host's readable and writable properties are a `view` parameter, and an assignment the host refuses becomes a reported name instead of a printed warning.
- JsonNodes.Create: socket types are not checked against the host's socket registry, and `new_node.location` is assumed to be assignable.
- JsonNodes.Create: requires the group's name to be free when no group is given, where the host would hand out a suffixed name.
- Links look their sockets up by name, first match first. The host's duplicate socket names beyond that are not modelled.
- Host operations (`mode_set`, `keyframe_insert`, name uniquing, `data.copy`, `keyframe_jump`) are modelled by their stated effects. The join operator's mesh merge (`bpy.ops.object.join`) is opaque: the joined data is a new data block, and the model does not look inside it.
- Colours and opacities are reals. Blender's single-precision floats and their rounding are not modelled.
- Key frames are reals compared with the 0.001 tolerance the source uses. Float rounding is not modelled.
- Legacy.MaxName: `max()` over shot names is Python's text order on whole names. Unicode code-point order is modelled as Dafny's `char` order.
- The user interface (panels, menus, the pie menu), keymaps, `preferences.py` apart from the `frame_offset` default, `ui.py`, `register`/`unregister` and `__init__.py` are not modelled. They declare UI and hand work to the operators that are modelled.
- The `MATERIAL_OT_stopmotion_material_add` operator's `execute` (materials.py:86-91) is not modelled. It is UI glue around `assign`. `MATERIAL_OT_stopmotion_material_new` (materials.py:94-95) is an empty stub.
- stop_motion.py's import and export operators (lines 292-350) are file I/O, like `obj_io.py`.
- Concurrency: Blender runs handlers and operators on one thread, so there is nothing to model.
- Animation.JoinExecute: states the corrected insertion; as written the operator always raises NameError at animation.py:113, since it passes no source (line 159), and `bpy.ops.object.join()` is never reached (see Findings). Once corrected, the other selected objects, which `bpy.ops.object.join()` merges into the new shot and deletes, are kept in the stated objects and collections. The deletion is not modelled.
- Legacy.Newest: `ParseInt` reads only an optional minus sign and ASCII digits. Python's `int()` also accepts "+7", " 7", "7\n", "1_0" and non-ASCII decimal digits; for such a greatest name the model raises ValueError where the source goes on.
- Animation.InsertKeyframe, Animation.KeyframeOperator.Execute, Animation.NextOrAdd.Execute, Animation.NextOrAdd.Advance: state the corrected insertion (`Inserted`); as written an insertion with no source raises NameError at animation.py:113 (see Findings, `InsertAsWrittenNeverCopies`).
- Animation.AddStopMotion: states the corrected add operator (`Initialized`); as written it raises AttributeError at animation.py:61-70 before changing anything (see Findings, `AddAsWrittenNeverInitializes`).
- Legacy.Registrations, Legacy.Unregister, Legacy.SwitchShot, Legacy.ModeSwitch, Legacy.ModeSwitchPutsShot, Legacy.SwitchActive, Legacy.ModeOperator.Execute: state the corrected handler removal (`Unregistered`); as written the loop at stop_motion.py:399-402 skips the registration after each one it removes (see Findings, `RemovalSkipsSecond`).
- Legacy.NextOrAddExecute: states the corrected first run, which reads the `frame_offset` preference; the code as written raises AttributeError there (see Findings).
- Host.FreshName: only its contract is relied on (a free name that starts with the request and a `.`). Blender's next free `.NNN` and its 63-byte cut of long names are not modelled.
- animation.py imports `Modifier` absolutely (line 32), which fails inside the add-on package; the model assumes the relative import.
- OnionSkins.MaterialOpened: is the intended set-up of a missing material (an "Oniony" group node, the requested colour and opacity). As written, line 124 raises TypeError first; `MaterialOpenedAsWritten` models that (see Findings).
- OnionSkins.MaterialOpenedReuses: states the intended set-up of a new material; as written it raises TypeError at line 124 (see Findings and `MaterialOpenedAsWritten`).
- OnionSkins.SkinMade: states the intended step; as written a made slot without a set-up material raises after linking its ghost (see Findings).
- OnionSkins.LoadedGhostMade: states the intended load; as written the load stops at the first made slot without a set-up material.
- OnionSkins.LoadedGhost: states the intended load; as written the load stops at the first made slot without a set-up material.
- OnionSkins.GhostShows: states the intended dressing; as written a ghost whose material raises is not dressed, animated or given a modifier.
- OnionSkins.LoadedListed: states the intended load; as written a raising load lists nothing, since the manager is never built.
- OnionSkins.EnabledLoadsSome: states the intended load; as written, with no set-up material, a load with onion skins on raises (`LoadAsWrittenFails`).
- OnionSkins.OnionSkinManager.constructor: states the intended load; as written it raises TypeError at the first made slot without a set-up material.
- OnionSkins.OnionSkinManager.Load: states the intended load; as written it raises TypeError at the first made slot without a set-up material.
- OnionSkins.OnionSkinManager.LoadSide: states the intended load; as written it raises TypeError at the first made slot without a set-up material.
- OnionSkins.OnionSkinManager.LoadSlot: states the intended step; as written it raises TypeError when its made slot has no set-up material.
- OnionSkins.SettingsListed: states the intended load; as written a raising load lists nothing.
- OnionSkins.Made, OnionSkins.SkinApplied, OnionSkins.Loaded, OnionSkins.MakeSkin, OnionSkins.OnEnable, OnionSkins.OnUpdate: state the intended material set-up; the as-written step and load are `SkinAppliedAsWritten` and `LoadedAsWritten`.
- OnionSkins.SkinApplied, OnionSkins.Loaded, OnionSkins.MakeSkin, OnionSkins.OnionSkinManager.Load, OnionSkins.OnEnable, OnionSkins.OnUpdate: a made slot requires the source to have its StopMotion modifier and an action. Without them the source raises AttributeError (lines 218-221 and 227-232); that error is not modelled.
- OnionSkins.SyncOnionSkins, OnionSkins.SyncExecute: state the intended material set-up; as written the load inside them raises TypeError at onion_skins.py:124 before `refresh` (see Findings, `LoadAsWrittenFails`).
- OnionSkins.OnionSkinManager.Refresh, OnionSkins.SyncOnionSkins, OnionSkins.SyncExecute: require the source's StopMotion modifier and action even when nothing is listed. A listed ghost of a source with no action raises AttributeError (lines 227-232); that error is not modelled.

## Findings

| source | as written | input that shows it | evidently intended | confidence | as-written member | corrected member |
|---|---|---|---|---|---|---|
| stop_motion/stop_motion.py:399-402 | `update_data` is removed from `frame_change_post` while a `for` loop walks that list, so the entry after each removed one is skipped | handlers `[update_data, update_data]` (EDIT mode requested twice, line 404 appends without checking), then OBJECT mode: one registration stays | every `update_data` registration is removed and the other handlers are kept in order | not executed | Legacy.RemovalSkipsSecond | Legacy.Unregistered |
| stop_motion/animation.py:113 | with no source data `insert_keyframe` calls `int_to_str`, which animation.py never defines: NameError after the switch to OBJECT mode | the join operator, always (it passes no source, line 159); or the keyframe operator on a stop-motion object with nothing else selected, whose current shot is in its store | the current shot's data is copied into the new shot | not executed | Animation.InsertAsWrittenNeverCopies | Animation.Inserted |
| stop_motion/animation.py:61-70 | the add operator reads `Modifier.collection_name`, which the class does not have (and `MODNAME` is never imported): AttributeError before anything changes | any mesh object the add operator's `poll` accepts | the store is named by `version.collection_name(obj)` and the object gets its StopMotion modifier | not executed | Animation.AddAsWrittenNeverInitializes | Animation.AddInitializes |
| stop_motion/stop_motion.py:154-195 | every object's first shot is asked for as "0000". When another object already holds that name, the host hands out "0000.001", and `int()` of the store's greatest name raises ValueError on every later insertion | a second object made stop-motion while the first object's shot "0000" exists, then one keyframe insertion on it | shot names unique to their object, so insertions keep working (the current revision names shots `<name>_<frame>_<object>_<0000>`) | not executed | Legacy.SharedNameStalls | Animation.AddThenInsertSucceeds |
| stop_motion/onion_skins.py:124 | `set_node_tree` calls `json_nodes.read_node(..., tree_type="ShaderNodeTree")`, but `read_node` takes only a group name and a path (json_nodes.py:199): TypeError after the ghost is linked, leaving a half-built material that raises KeyError on every later load | onion skins switched on with `before` at least 1, and no material "STPMO_onion_-_00" in the file | the material gets its "Oniony" group node and the ghost is dressed, modified and animated | not executed | OnionSkins.LoadAsWrittenFails | OnionSkins.MaterialOpenedReuses |
| stop_motion/stop_motion.py:279-281 | this revision registers no add-on preferences, so after line 279 clears `first_run`, reading `frame_offset` from the missing preferences raises AttributeError; every later run keeps offset 0 and only jumps | "next or add" on a stop-motion object with no key after the current frame, first run | the first run reads the preference's offset and adds a key that many frames on | not executed | Legacy.NextOrAddAsWrittenRaises | Legacy.NextOrAddExecute |
| stop_motion/materials.py:72 | `len(data.materials > index)` compares the material list with the index: TypeError whenever an index is given | `assign(data, material, 0)` on data with one material slot | `len(data.materials) > index`: an existing slot takes the material in place | not executed | Materials.AssignSlotRaises | Materials.Assign |
