/**
 * Onion skins of onion_skins.py: ghost copies of a stop-motion object shown a
 * few frames before and after the current one. Each side has ten slots; a
 * slot's ghost object, its material and the per-object onion collection are
 * found by name and made only when missing, so loading again reuses them. A
 * slot that is switched off only unlinks its ghost from the collection.
 */
module OnionSkins {
  import opened Wrappers
  import opened Strings
  import opened PyList
  import opened Host
  import opened ModifierData
  import Version

  /** `OnionSkinManager.maximum`: the slots on each side. */
  const MAXIMUM := 10

  // ---------------------------------------------------------------------
  // Settings
  // ---------------------------------------------------------------------

  /** An RGB colour. */
  datatype Rgb = Rgb(r: real, g: real, b: real)

  /** `StopMotionOnionSkinSettings`, stored per object. */
  datatype Settings = Settings(enable: bool, frameOffset: int, opacity: real, before: int, after: int,
                               beforeColor: Rgb, afterColor: Rgb)

  predicate ColorInBounds(c: Rgb)
  {
    0.0 <= c.r <= 1.0 && 0.0 <= c.g <= 1.0 && 0.0 <= c.b <= 1.0
  }

  /** The bounds the properties declare: `frame_offset` in [1, 20], `opacity` in [0.005, 0.8], `before`/`after` in [1, 10], colours in [0, 1]. */
  predicate InBounds(s: Settings)
  {
    1 <= s.frameOffset <= 20 && 0.005 <= s.opacity <= 0.8 &&
    1 <= s.before <= MAXIMUM && 1 <= s.after <= MAXIMUM &&
    ColorInBounds(s.beforeColor) && ColorInBounds(s.afterColor)
  }

  /** The declared defaults. */
  function Defaults(): (s: Settings)
    ensures InBounds(s) && !s.enable && s.frameOffset == 2 && s.before == 1 && s.after == 1
  {
    Settings(false, 2, 0.2, 1, 1, Rgb(1.0, 0.0, 0.0), Rgb(0.0, 1.0, 0.2))
  }

  function ClampInt(v: int, lo: int, hi: int): int
    requires lo <= hi
  {
    if v < lo then lo else if v > hi then hi else v
  }

  function ClampReal(v: real, lo: real, hi: real): real
    requires lo <= hi
  {
    if v < lo then lo else if v > hi then hi else v
  }

  function ClampColor(c: Rgb): Rgb
  {
    Rgb(ClampReal(c.r, 0.0, 1.0), ClampReal(c.g, 0.0, 1.0), ClampReal(c.b, 0.0, 1.0))
  }

  /** The settings as the host stores what was written to them: each property clamped to its declared bounds. */
  function Clamped(s: Settings): (r: Settings)
    ensures InBounds(r)
    ensures InBounds(s) ==> r == s
    ensures r.enable == s.enable
  {
    Settings(s.enable, ClampInt(s.frameOffset, 1, 20), ClampReal(s.opacity, 0.005, 0.8),
             ClampInt(s.before, 1, MAXIMUM), ClampInt(s.after, 1, MAXIMUM),
             ClampColor(s.beforeColor), ClampColor(s.afterColor))
  }

  /** `count[side]`: the skins asked for before (side 0) or after (side 1) the current frame. */
  function SideCount(s: Settings, side: nat): int
  {
    if side == 0 then s.before else s.after
  }

  // ---------------------------------------------------------------------
  // Slot planning
  // ---------------------------------------------------------------------

  /** What the load loop computes for one slot before making its skin. */
  datatype SlotPlan = SlotPlan(side: nat, index: nat, create: bool, offset: int, opacity: real, color: Rgb)

  /**
   * Lines 276-281: a slot is made when onion skins are enabled and its index
   * is below the side's count; its frame offset is the settings' offset times
   * index + 1, negative before and positive after; its opacity falls off
   * linearly from the settings' opacity.
   */
  function Plan(s: Settings, side: nat, index: nat): (p: SlotPlan)
    requires SideCount(s, side) != 0
    ensures p.side == side && p.index == index
  {
    var count := SideCount(s, side);
    SlotPlan(side, index, s.enable && index < count, Offset(s.frameOffset, side, index),
             Falloff(s.opacity, count, index),
             if side == 0 then s.beforeColor else s.afterColor)
  }

  /** Line 281: `sign * (offset + offset * index)`, the sign negative before the current frame. */
  function Offset(frameOffset: int, side: nat, index: nat): int
  {
    var sign := if side == 0 then -1 else 1;
    sign * (frameOffset + frameOffset * index)
  }

  /** `opacity * (count - index) / count`. */
  function Falloff(opacity: real, count: int, index: int): real
    requires count != 0
  {
    opacity * ((count - index) as real) / (count as real)
  }

  /** The side of the k-th slot the load loop visits: the first ten are before the current frame. */
  function SideOf(k: nat): (side: nat)
    ensures side < 2 && (side == 0 <==> k < MAXIMUM)
  {
    if k < MAXIMUM then 0 else 1
  }

  /** The index of the k-th slot within its side. */
  function IndexOf(k: nat): (index: nat)
    ensures k < 2 * MAXIMUM ==> index < MAXIMUM && k == Position(SideOf(k), index)
  {
    if k < MAXIMUM then k else k - MAXIMUM
  }

  /** The k-th slot of the load loop. */
  function PlanAt(s: Settings, k: nat): (p: SlotPlan)
    requires InBounds(s) && k < 2 * MAXIMUM
    ensures p.side == SideOf(k) && p.index == IndexOf(k)
  {
    Plan(s, SideOf(k), IndexOf(k))
  }

  /** A slot is made exactly when onion skins are on and its index is below the side's count. */
  lemma PlanCreates(s: Settings, side: nat, index: nat)
    requires InBounds(s) && side < 2
    ensures Plan(s, side, index).create <==> s.enable && index < SideCount(s, side)
  {
  }

  /**
   * Offsets are multiples of the settings' offset, negative before the
   * current frame and positive after it, and grow in size with the index.
   */
  lemma PlanOffsets(s: Settings, side: nat, i: nat, j: nat)
    requires InBounds(s) && side < 2 && i < j
    ensures Plan(s, side, i).offset == (if side == 0 then -1 else 1) * s.frameOffset * (i + 1)
    ensures side == 0 ==> Plan(s, side, i).offset < 0
    ensures side == 1 ==> Plan(s, side, i).offset > 0
    ensures Abs(Plan(s, side, i).offset) < Abs(Plan(s, side, j).offset)
  {
    assert Plan(s, side, i).offset == Offset(s.frameOffset, side, i);
    assert Plan(s, side, j).offset == Offset(s.frameOffset, side, j);
    OffsetsGrow(s.frameOffset, side, i, j);
  }

  /** The arithmetic behind PlanOffsets, on the offset alone. */
  lemma OffsetsGrow(f: int, side: nat, i: nat, j: nat)
    requires f >= 1 && i < j
    ensures Offset(f, side, i) == (if side == 0 then -1 else 1) * f * (i + 1)
    ensures side == 0 ==> Offset(f, side, i) < 0
    ensures side != 0 ==> Offset(f, side, i) > 0
    ensures Abs(Offset(f, side, i)) < Abs(Offset(f, side, j))
  {
    Multiples(f, i, j);
    if side == 0 {
      assert Offset(f, side, i) == -(f * (i + 1)) && Offset(f, side, j) == -(f * (j + 1));
    } else {
      assert Offset(f, side, i) == f * (i + 1) && Offset(f, side, j) == f * (j + 1);
    }
  }

  function Abs(x: int): nat
  {
    if x < 0 then -x else x
  }

  /** The offset arithmetic on its own: `f + f * i` is the (i + 1)-th multiple of a positive `f`, growing with `i`. */
  lemma Multiples(f: int, i: nat, j: nat)
    requires f >= 1 && i < j
    ensures f + f * i == f * (i + 1) && f + f * j == f * (j + 1)
    ensures 0 < f * (i + 1) < f * (j + 1)
  {
    assert f * (j + 1) == f * (i + 1) + f * (j - i);
  }

  /**
   * The first slot has the settings' opacity; opacity never grows with the
   * index and stays above zero on the slots that are made.
   */
  lemma PlanOpacity(s: Settings, side: nat, i: nat, j: nat)
    requires InBounds(s) && side < 2 && i <= j
    ensures Plan(s, side, 0).opacity == s.opacity
    ensures Plan(s, side, j).opacity <= Plan(s, side, i).opacity
    ensures i < SideCount(s, side) ==> Plan(s, side, i).opacity > 0.0
  {
    var c := SideCount(s, side);
    FalloffFirst(s.opacity, c);
    FalloffMonotone(s.opacity, c, i, j);
    if i < c {
      FalloffPositive(s.opacity, c, i);
    }
  }

  lemma FalloffFirst(a: real, c: int)
    requires c > 0
    ensures Falloff(a, c, 0) == a
  {
    assert a * (c as real) / (c as real) == a;
  }

  lemma FalloffMonotone(a: real, c: int, i: int, j: int)
    requires a >= 0.0 && c > 0 && i <= j
    ensures Falloff(a, c, j) <= Falloff(a, c, i)
  {
    var x := (c - j) as real;
    var y := (c - i) as real;
    MulNonNegative(a, y - x);
    assert a * y - a * x == a * (y - x);
    DivMonotone(a * x, a * y, c as real);
  }

  lemma MulNonNegative(a: real, d: real)
    requires a >= 0.0 && d >= 0.0
    ensures a * d >= 0.0
  {
  }

  lemma DivMonotone(x: real, y: real, c: real)
    requires x <= y && c > 0.0
    ensures x / c <= y / c
  {
    assert y / c - x / c == (y - x) / c;
  }

  lemma FalloffPositive(a: real, c: int, i: int)
    requires a > 0.0 && 0 <= i < c
    ensures Falloff(a, c, i) > 0.0
  {
    var y := (c - i) as real;
    assert a * y > 0.0;
  }

  // ---------------------------------------------------------------------
  // Names
  // ---------------------------------------------------------------------

  /** "+" for a slot after the current frame, "-" before it. */
  function Direction(offset: int): string
  {
    if offset > 0 then "+" else "-"
  }

  /** `OnionCollection.set_name`: "STPMO_onion_<source>". */
  function CollectionName(source: string): string
  {
    Version.OnionPrefix() + source
  }

  /** `OnionMaterial.set_name`: "STPMO_onion_<direction>_<index, two digits>". */
  function MaterialName(offset: int, index: int): string
  {
    Version.OnionPrefix() + SlotTag(offset, index)
  }

  /** "<direction>_<index, two digits>", the part of the names that tells the slots apart. */
  function SlotTag(offset: int, index: int): string
  {
    Direction(offset) + "_" + ZeroPad(index, 2)
  }

  /** `OnionSkin.set_name`: "STPMO_onion_<direction>_<index, two digits>_<source>". */
  function SkinName(offset: int, index: int, source: string): (r: string)
    ensures r != source
  {
    MaterialName(offset, index) + ("_" + source)
  }

  /** A common suffix cancels. */
  lemma CancelSuffix(a: string, b: string, t: string)
    requires a + t == b + t
    ensures a == b
  {
    assert |a| == |b|;
    assert a == (a + t)[..|a|];
    assert b == (b + t)[..|b|];
  }

  /** A common prefix cancels. */
  lemma CancelPrefix(p: string, a: string, b: string)
    requires p + a == p + b
    ensures a == b
  {
    assert a == (p + a)[|p|..];
    assert b == (p + b)[|p|..];
  }

  /** Slots differing in direction or (non-negative) index have different tags. */
  lemma SlotTagsDistinct(o1: int, i1: nat, o2: int, i2: nat)
    requires (o1 > 0) != (o2 > 0) || i1 != i2
    ensures SlotTag(o1, i1) != SlotTag(o2, i2)
  {
    if (o1 > 0) != (o2 > 0) {
      assert SlotTag(o1, i1)[0] != SlotTag(o2, i2)[0];
    } else if SlotTag(o1, i1) == SlotTag(o2, i2) {
      var d := Direction(o1) + "_";
      assert SlotTag(o1, i1) == d + ZeroPad(i1, 2);
      assert SlotTag(o2, i2) == d + ZeroPad(i2, 2);
      CancelPrefix(d, ZeroPad(i1, 2), ZeroPad(i2, 2));
      ParseZeroPad(i1, 2);
      ParseZeroPad(i2, 2);
    }
  }

  /** Slots differing in direction or (non-negative) index have different material names. */
  lemma MaterialNamesDistinct(o1: int, i1: nat, o2: int, i2: nat)
    requires (o1 > 0) != (o2 > 0) || i1 != i2
    ensures MaterialName(o1, i1) != MaterialName(o2, i2)
  {
    SlotTagsDistinct(o1, i1, o2, i2);
    if MaterialName(o1, i1) == MaterialName(o2, i2) {
      CancelPrefix(Version.OnionPrefix(), SlotTag(o1, i1), SlotTag(o2, i2));
    }
  }

  /** For one source, slots differing in direction or (non-negative) index have different ghost names. */
  lemma SkinNamesDistinct(o1: int, i1: nat, o2: int, i2: nat, source: string)
    requires (o1 > 0) != (o2 > 0) || i1 != i2
    ensures SkinName(o1, i1, source) != SkinName(o2, i2, source)
  {
    MaterialNamesDistinct(o1, i1, o2, i2);
    if SkinName(o1, i1, source) == SkinName(o2, i2, source) {
      CancelSuffix(MaterialName(o1, i1), MaterialName(o2, i2), "_" + source);
    }
  }

  /** The twenty slots of a load have twenty different ghost names. */
  lemma PlanNamesDistinct(s: Settings, source: string, j: nat, k: nat)
    requires InBounds(s) && j < 2 * MAXIMUM && k < 2 * MAXIMUM && j != k
    ensures SkinName(PlanAt(s, j).offset, IndexOf(j), source) != SkinName(PlanAt(s, k).offset, IndexOf(k), source)
  {
    PlanSign(s, j);
    PlanSign(s, k);
    SkinNamesDistinct(PlanAt(s, j).offset, IndexOf(j), PlanAt(s, k).offset, IndexOf(k), source);
  }

  /** A slot's offset is positive exactly on the side after the current frame. */
  lemma PlanSign(s: Settings, k: nat)
    requires InBounds(s) && k < 2 * MAXIMUM
    ensures PlanAt(s, k).offset > 0 <==> k >= MAXIMUM
  {
    var f := s.frameOffset;
    var i := IndexOf(k);
    assert f + f * i >= 1;
  }

  // ---------------------------------------------------------------------
  // The scene an onion-skin load works on
  // ---------------------------------------------------------------------

  /** The part of the session onion skins read and write: objects, collections, the scene's child collections, materials. */
  datatype Scene = Scene(objects: map<string, Obj>, collections: map<string, Coll>, children: seq<string>,
                         materials: map<string, Material>)

  /** The identifiers of the "MeshKey" node group's index and collection inputs, as the host assigns them on loading the group. */
  datatype Groups = Groups(indexId: string, collectionId: string)

  /** One entry of the manager's lists: the ghost's name and its frame offset. */
  datatype SkinRef = SkinRef(name: string, offset: int)

  /** The source is a stop-motion object with an action: `Modifier(source)` and `source.animation_data.action` are read by every made skin. */
  predicate Ready(sc: Scene, source: string)
  {
    source in sc.objects && Find(sc.objects[source]).Some? && sc.objects[source].action.Some?
  }

  /** A load reads the source's modifier and action only for the slots it makes (lines 185-188 return before either is read). */
  predicate Loadable(sc: Scene, source: string, plans: seq<SlotPlan>)
  {
    Ready(sc, source) || forall k :: 0 <= k < |plans| ==> !plans[k].create
  }

  /** `s` without any occurrence of `x` (the host keeps an item at most once in a collection). */
  function Without(s: seq<string>, x: string): (r: seq<string>)
    ensures x !in r
    ensures forall y :: y in r <==> y in s && y != x
    ensures x !in s ==> r == s
  {
    if s == [] then []
    else (if s[0] == x then [] else [s[0]]) + Without(s[1..], x)
  }

  /** `scene_attach`: link the collection under the scene unless it already is. */
  function Attached(children: seq<string>, c: string): (r: seq<string>)
  {
    if c in children then children else children + [c]
  }

  /** `scene_detach`: unlink the collection from the scene if it is there. */
  function Detached(children: seq<string>, c: string): (r: seq<string>)
  {
    if c !in children then children else Without(children, c)
  }

  /** Attaching puts the collection under the scene and keeps the others; detaching takes it away and keeps the others; each is idempotent. */
  lemma AttachDetach(children: seq<string>, c: string)
    ensures c in Attached(children, c) && c !in Detached(children, c)
    ensures forall x :: x != c ==> (x in Attached(children, c) <==> x in children)
    ensures forall x :: x != c ==> (x in Detached(children, c) <==> x in children)
    ensures Attached(Attached(children, c), c) == Attached(children, c)
    ensures Detached(Detached(children, c), c) == Detached(children, c)
  {
  }

  /** `OnionCollection.link`: add the object unless it is already in the collection. */
  function Linked(coll: Coll, n: string): (r: Coll)
  {
    if n in coll.objects then coll else coll.(objects := coll.objects + [n])
  }

  /** `OnionCollection.unlink`: remove the object if it is in the collection. */
  function Unlinked(coll: Coll, n: string): (r: Coll)
  {
    if n !in coll.objects then coll else coll.(objects := Without(coll.objects, n))
  }

  /** Linking makes the object a member, unlinking makes it not one; both keep every other member and are idempotent. */
  lemma LinkUnlink(coll: Coll, n: string)
    ensures n in Linked(coll, n).objects && n !in Unlinked(coll, n).objects
    ensures forall x :: x != n ==> (x in Linked(coll, n).objects <==> x in coll.objects)
    ensures forall x :: x != n ==> (x in Unlinked(coll, n).objects <==> x in coll.objects)
    ensures Linked(Linked(coll, n), n) == Linked(coll, n) && Unlinked(Unlinked(coll, n), n) == Unlinked(coll, n)
    ensures Linked(coll, n).(objects := coll.objects) == coll && Unlinked(coll, n).(objects := coll.objects) == coll
  {
  }

  /** A new onion collection: onion-tagged, kept by a fake user, not selectable and not rendered (lines 42-43, 54-57). */
  function OnionColl(): (c: Coll)
    ensures c.objects == [] && c.fakeUser && c.hideSelect && c.hideRender
    ensures c.props == Version.OnionTag(map[])
  {
    NewColl().(fakeUser := true, hideSelect := true, hideRender := true, props := Version.OnionTag(map[]))
  }

  /** `OnionCollection(scene, source)`: find the source's onion collection by name or make it, then attach it to the scene. */
  function CollectionOpened(sc: Scene, source: string): (r: Scene)
  {
    var name := CollectionName(source);
    sc.(collections := if name in sc.collections then sc.collections else sc.collections[name := OnionColl()],
        children := Attached(sc.children, name))
  }

  /** The collection is found again rather than made twice: an existing one is kept as it is; only that one collection can be added, and it ends up under the scene. */
  lemma CollectionOpenedReuses(sc: Scene, source: string)
    ensures var r := CollectionOpened(sc, source); var name := CollectionName(source);
      name in r.collections && name in r.children &&
      r.collections.Keys == sc.collections.Keys + {name} &&
      (name in sc.collections ==> r.collections == sc.collections) &&
      (name !in sc.collections ==> r.collections[name] == OnionColl()) &&
      r.objects == sc.objects && r.materials == sc.materials &&
      CollectionOpened(r, source) == r
  {
  }

  /** The members of the source's onion collection, none when it does not exist. */
  function Members(sc: Scene, source: string): seq<string>
  {
    var name := CollectionName(source);
    if name in sc.collections then sc.collections[name].objects else []
  }

  // ---------------------------------------------------------------------
  // Materials
  // ---------------------------------------------------------------------

  /** `OnionMaterial(offset, index, color, opacity)`: a material found by name only gets the colour and opacity; a missing one is made, tagged and set up first. */
  function MaterialOpened(mats: map<string, Material>, offset: int, index: int, color: Rgb, opacity: real): (r: map<string, Material>)
  {
    var name := MaterialName(offset, index);
    var rgb := [color.r, color.g, color.b];
    if name in mats then mats[name := mats[name].(color := rgb, opacity := opacity)]
    else mats[name := Material(rgb, opacity, Version.OnionTag(map[]), true)]
  }

  /** Opening a material never duplicates it: one material per direction and index, which afterwards shows the requested colour and opacity, keeps its tags and set-up when it existed, and leaves every other material alone. */
  lemma MaterialOpenedReuses(mats: map<string, Material>, offset: int, index: int, color: Rgb, opacity: real)
    ensures var r := MaterialOpened(mats, offset, index, color, opacity); var name := MaterialName(offset, index);
      r.Keys == mats.Keys + {name} &&
      r[name].color == [color.r, color.g, color.b] && r[name].opacity == opacity &&
      (name in mats ==> r[name].props == mats[name].props && r[name].setUp == mats[name].setUp) &&
      (name !in mats ==> r[name].props == Version.OnionTag(map[]) && r[name].setUp) &&
      forall m :: m in mats && m != name ==> r[m] == mats[m]
  {
  }

  /**
   * A material `materials.new` made and lines 108-122 tagged and began to set
   * up: the host's default viewport colour, and a group node with no node
   * tree, hence no inputs.
   */
  function HalfBuilt(): (m: Material)
    ensures !m.setUp && m.props == Version.OnionTag(map[])
  {
    Material([0.8, 0.8, 0.8], 1.0, Version.OnionTag(map[]), false)
  }

  /**
   * `OnionMaterial(offset, index, color, opacity)` as written. Line 124 calls
   * `json_nodes.read_node(..., tree_type=...)`, but `read_node` takes only a
   * group name and a path (json_nodes.py:199), so a missing material is left
   * half built and TypeError is raised. A material found by name whose group
   * node has no inputs fails at the colour's `inputs['Color']` (lines 103,
   * 156) with KeyError and is left as it is.
   */
  function MaterialOpenedAsWritten(mats: map<string, Material>, offset: int, index: int, color: Rgb, opacity: real): (r: (map<string, Material>, Option<PyError>))
  {
    var name := MaterialName(offset, index);
    if name !in mats then (mats[name := HalfBuilt()], Some(TypeError))
    else if !mats[name].setUp then (mats, Some(KeyError))
    else (MaterialOpened(mats, offset, index, color, opacity), None)
  }

  /**
   * As written, no material is ever set up: a missing one is left half built
   * with TypeError, a half-built one raises KeyError and stays so, and only
   * a material that was already set up is opened as the corrected code does.
   */
  lemma MaterialAsWrittenRaises(mats: map<string, Material>, offset: int, index: int, color: Rgb, opacity: real)
    ensures var r := MaterialOpenedAsWritten(mats, offset, index, color, opacity); var name := MaterialName(offset, index);
      r.0.Keys == mats.Keys + {name} &&
      (name !in mats ==> r.1 == Some(TypeError) && r.0[name] == HalfBuilt()) &&
      (name in mats && !mats[name].setUp ==> r.1 == Some(KeyError) && r.0 == mats) &&
      (name in mats && mats[name].setUp ==> r.1.None? && r.0 == MaterialOpened(mats, offset, index, color, opacity)) &&
      (forall m :: m in r.0 && r.0[m].setUp ==> m in mats && mats[m].setUp)
  {
    var r := MaterialOpenedAsWritten(mats, offset, index, color, opacity);
    var name := MaterialName(offset, index);
    forall m | m in r.0 && r.0[m].setUp
      ensures m in mats && mats[m].setUp
    {
      if name in mats && mats[name].setUp {
        MaterialOpenedReuses(mats, offset, index, color, opacity);
      }
    }
  }

  // ---------------------------------------------------------------------
  // One onion skin
  // ---------------------------------------------------------------------

  /** A new ghost: a mesh object sharing the source's data, onion-tagged (lines 190-191). */
  function NewGhost(src: Obj): (g: Obj)
    ensures g.data == src.data && g.modifiers == [] && g.nla == [] && g.props == Version.OnionTag(map[])
  {
    NewObj(src.data).(props := Version.OnionTag(map[]))
  }

  /**
   * `OnionSkin.modifier`, lines 204-221: a ghost that already has a
   * StopMotion modifier is left as it is; otherwise it gets the StopMotion
   * modifier (the "MeshKey" group) and a "Materializer" holding the slot's
   * material, and the StopMotion modifier is then pointed at the source's
   * store at the source's index plus the slot's offset (set here on the
   * new modifier directly, which ends in the same stack).
   */
  function GhostModifiers(g: Obj, src: Obj, offset: int, matName: string, groups: Groups): (r: Obj)
    requires Find(src).Some?
    ensures Find(g).Some? ==> r == g
    ensures r == g.(modifiers := r.modifiers)
  {
    if Find(g).Some? then g
    else
      var key := NewModifier(MODNAME, "MeshKey", groups.indexId, groups.collectionId)
        .(collection := Collection(src), index := Mod(src).index + offset);
      var materializer := NewModifier(FreshName("Materializer", NameSet(g.modifiers) + {MODNAME}), "Materialize", "", "")
        .(material := Some(matName));
      g.(modifiers := g.modifiers + [key, materializer])
  }

  /** Two modifiers appended to a stack without a StopMotion modifier, the first of them so named: the first appended one is found. */
  lemma FindAppendedTwo(o: Obj, r: Obj)
    requires Find(o).None?
    requires |r.modifiers| == |o.modifiers| + 2 && r.modifiers[..|o.modifiers|] == o.modifiers
    requires r.modifiers[|o.modifiers|].name == MODNAME
    ensures Find(r) == Some(|o.modifiers|)
  {
    assert FreshName(MODNAME, NameSet(o.modifiers)) == MODNAME by {
      FindFirst(o);
      NameSetWithout(o.modifiers, MODNAME);
    }
    FindAppended(o, r);
  }

  /**
   * A ghost without the modifier gets one running "MeshKey" that shows the
   * source's store at the source's index plus the offset, followed by a
   * materializer holding the slot's material.
   */
  lemma GhostModifiersIndex(g: Obj, src: Obj, offset: int, matName: string, groups: Groups)
    requires Find(src).Some? && Find(g).None?
    ensures var r := GhostModifiers(g, src, offset, matName, groups);
      |r.modifiers| == |g.modifiers| + 2 && r.modifiers[..|g.modifiers|] == g.modifiers &&
      Find(r) == Some(|g.modifiers|) && Index(r) == Ok(Mod(src).index + offset) &&
      Collection(r) == Collection(src) && Mod(r).group == "MeshKey" &&
      r.modifiers[|g.modifiers| + 1].material == Some(matName)
  {
    var r := GhostModifiers(g, src, offset, matName, groups);
    var key := r.modifiers[|g.modifiers|];
    assert r.modifiers[..|g.modifiers|] == g.modifiers;
    FindAppendedTwo(g, r);
    assert Mod(r) == key && key.index == Mod(src).index + offset;
  }

  /** `OnionSkin.set_properties`, lines 234-246: not selectable, not rendered, no shadows, viewport colour the slot's colour with the slot's opacity as alpha. */
  function Dressed(g: Obj, color: Rgb, opacity: real): (r: Obj)
    ensures r.hideSelect && r.hideRender && !r.showShadows && r.color == [color.r, color.g, color.b, opacity]
    ensures r.modifiers == g.modifiers && r.data == g.data && r.props == g.props && r.nla == g.nla
  {
    g.(hideSelect := true, hideRender := true, showShadows := false, color := [color.r, color.g, color.b, opacity])
  }

  /**
   * `OnionSkin.animation`, lines 225-232: the ghost's animation data is
   * cleared and rebuilt as one NLA strip playing the source's action from
   * `start - offset`, where `start` is the first frame of that action's
   * range.
   */
  function Animated(g: Obj, action: Action, offset: int, start: real): (r: Obj)
    ensures r.action.None? && r.nla == [Strip(action.name, start - offset as real)]
    ensures r.modifiers == g.modifiers && r.data == g.data && r.props == g.props && r.color == g.color
    ensures r.hideSelect == g.hideSelect && r.hideRender == g.hideRender && r.showShadows == g.showShadows
  {
    g.(action := None, nla := [Strip(action.name, start - offset as real)])
  }

  /** The ghost after lines 192-195: its modifiers (material `matName`), its display settings and its NLA strip. */
  function GhostOf(g: Obj, src: Obj, p: SlotPlan, start: real, groups: Groups): (r: Obj)
    requires Find(src).Some? && src.action.Some?
  {
    var withModifiers := GhostModifiers(g, src, p.offset, MaterialName(p.offset, p.index), groups);
    Animated(Dressed(withModifiers, p.color, p.opacity), src.action.value, p.offset, start)
  }

  /** Lines 189-195: the slot's ghost, found by name or made, is linked to the onion collection and set up, and its material is withColl. */
  function Made(sc: Scene, source: string, p: SlotPlan, start: real, groups: Groups): (r: Scene)
    requires Ready(sc, source) && CollectionName(source) in sc.collections
    ensures r.objects.Keys == sc.objects.Keys + {SkinName(p.offset, p.index, source)}
    ensures r.collections.Keys == sc.collections.Keys && r.children == sc.children
  {
    var src := sc.objects[source];
    var name := SkinName(p.offset, p.index, source);
    var cname := CollectionName(source);
    var g := if name in sc.objects then sc.objects[name] else NewGhost(src);
    sc.(objects := sc.objects[name := GhostOf(g, src, p, start, groups)],
        collections := sc.collections[cname := Linked(sc.collections[cname], name)],
        materials := MaterialOpened(sc.materials, p.offset, p.index, p.color, p.opacity))
  }

  /**
   * `OnionSkin(scene, source, offset, index, color, opacity, create)`, lines
   * 171-195: the onion collection is opened in every case; a slot not to be
   * made only unlinks an existing ghost (line 187 calls `delete`, which
   * unlinks). The second component is `bool(skin)`: whether the slot's
   * ghost exists afterwards.
   */
  function SkinApplied(sc: Scene, source: string, p: SlotPlan, start: real, groups: Groups): (r: (Scene, bool))
    requires p.create ==> Ready(sc, source)
    ensures Ready(sc, source) ==> Ready(r.0, source) && r.0.objects[source] == sc.objects[source]
  {
    var withColl := CollectionOpened(sc, source);
    var name := SkinName(p.offset, p.index, source);
    var cname := CollectionName(source);
    if !p.create then
      if name in withColl.objects then
        (withColl.(collections := withColl.collections[cname := Unlinked(withColl.collections[cname], name)]), true)
      else (withColl, false)
    else (Made(withColl, source, p, start, groups), true)
  }

  /**
   * What a step leaves of its own ghost, from scene `sc` to scene `r`: a
   * made slot's ghost exists and is in the onion collection; a slot not
   * made neither gains nor loses its ghost, leaves it unchanged, and takes
   * it out of the collection.
   */
  predicate SkinDone(sc: Scene, r: Scene, p: SlotPlan, source: string)
  {
    var name := SkinName(p.offset, p.index, source);
    (p.create ==> name in r.objects && name in Members(r, source)) &&
    (!p.create ==>
      (name in r.objects <==> name in sc.objects) &&
      (name in sc.objects ==> r.objects[name] == sc.objects[name] && name !in Members(r, source)))
  }

  /**
   * The step's effect on its own ghost is `SkinDone`, and the ghost counts
   * (`bool(skin)`) exactly when the slot is made or the ghost existed. The
   * onion collection exists and is under the scene.
   */
  lemma SkinAppliedOwn(sc: Scene, source: string, p: SlotPlan, start: real, groups: Groups)
    requires (p.create ==> Ready(sc, source))
    ensures var r := SkinApplied(sc, source, p, start, groups);
      CollectionName(source) in r.0.collections && CollectionName(source) in r.0.children &&
      SkinDone(sc, r.0, p, source) && (r.1 <==> p.create || SkinName(p.offset, p.index, source) in sc.objects)
  {
    CollectionOpenedReuses(sc, source);
    LinkUnlink(CollectionOpened(sc, source).collections[CollectionName(source)], SkinName(p.offset, p.index, source));
  }

  /** A step done on a scene that agrees with `sc` on the step's ghost is done as seen from `sc`. */
  lemma SkinDoneFrom(sc: Scene, a: Scene, b: Scene, p: SlotPlan, source: string)
    requires SameView(sc, a, source, SkinName(p.offset, p.index, source)) && SkinDone(a, b, p, source)
    ensures SkinDone(sc, b, p, source)
  {
  }

  /** The step leaves every other object as it was, in the onion collection exactly when it was before, and adds no object but its own ghost. */
  lemma SkinAppliedFrame(sc: Scene, source: string, p: SlotPlan, start: real, groups: Groups, m: string)
    requires (p.create ==> Ready(sc, source)) && m != SkinName(p.offset, p.index, source)
    ensures SameView(sc, SkinApplied(sc, source, p, start, groups).0, source, m)
  {
    var name := SkinName(p.offset, p.index, source);
    CollectionOpenedReuses(sc, source);
    LinkUnlink(CollectionOpened(sc, source).collections[CollectionName(source)], name);
  }

  // ---------------------------------------------------------------------
  // Loading every slot
  // ---------------------------------------------------------------------

  /** The plans of the twenty slots in the order the load loop visits them: side 0 first, and indices 0 to 9 within a side. */
  function Plans(s: Settings): (r: seq<SlotPlan>)
    requires InBounds(s)
    ensures |r| == 2 * MAXIMUM && forall k :: 0 <= k < 2 * MAXIMUM ==> r[k] == PlanAt(s, k)
  {
    seq(2 * MAXIMUM, k requires InBounds(s) && 0 <= k < 2 * MAXIMUM => PlanAt(s, k))
  }

  /** Index `index` of `side` is slot `Position(side, index)` of the load. */
  lemma PlansAt(s: Settings, side: nat, index: nat)
    requires InBounds(s) && side < 2 && index < MAXIMUM
    ensures Position(side, index) < 2 * MAXIMUM && SideOf(Position(side, index)) == side
    ensures Plans(s)[Position(side, index)] == Plan(s, side, index)
  {
    assert IndexOf(Position(side, index)) == index;
  }

  /** The position in the load of index i on `side`. */
  function Position(side: nat, i: nat): nat
  {
    if side == 0 then i else MAXIMUM + i
  }

  /** The ghost name of the k-th slot. */
  function SlotName(plans: seq<SlotPlan>, source: string, k: nat): string
    requires k < |plans|
  {
    SkinName(plans[k].offset, plans[k].index, source)
  }

  /** The manager's entry for the k-th slot. */
  function SlotRef(plans: seq<SlotPlan>, source: string, k: nat): SkinRef
    requires k < |plans|
  {
    SkinRef(SlotName(plans, source, k), plans[k].offset)
  }

  /** With onion skins off no slot is made, so only settings that are on need a ready source. */
  lemma SettingsLoadable(sc: Scene, s: Settings, source: string)
    requires InBounds(s) && (s.enable ==> Ready(sc, source))
    ensures Loadable(sc, source, Plans(s))
    ensures !s.enable ==> forall k :: 0 <= k < 2 * MAXIMUM ==> !Plans(s)[k].create
  {
    if !s.enable {
      forall k | 0 <= k < 2 * MAXIMUM
        ensures !Plans(s)[k].create
      {
        PlanCreates(s, SideOf(k), IndexOf(k));
      }
    }
  }

  /** No two slots share a ghost. */
  predicate Distinct(plans: seq<SlotPlan>, source: string)
  {
    forall i, j :: 0 <= i < |plans| && 0 <= j < |plans| && i != j ==> SlotName(plans, source, i) != SlotName(plans, source, j)
  }

  /** The twenty slots of a load have twenty different ghosts: the sign of the offset tells the sides apart, the index the slots of a side. */
  lemma PlansDistinct(s: Settings, source: string)
    requires InBounds(s)
    ensures Distinct(Plans(s), source)
  {
    var plans := Plans(s);
    forall i, j | 0 <= i < |plans| && 0 <= j < |plans| && i != j
      ensures SlotName(plans, source, i) != SlotName(plans, source, j)
    {
      PlanNamesDistinct(s, source, i, j);
    }
  }

  /**
   * `onion_skins_load`, lines 271-285, after its first k slots: every slot
   * in turn is applied to the scene.
   */
  function Loaded(sc: Scene, source: string, plans: seq<SlotPlan>, start: real, groups: Groups, k: nat): (r: Scene)
    requires Loadable(sc, source, plans) && k <= |plans|
    ensures Ready(sc, source) ==> Ready(r, source) && r.objects[source] == sc.objects[source]
    decreases k, 1
  {
    if k == 0 then sc else LoadStep(sc, source, plans, start, groups, k)
  }

  /** Slot k - 1 applied to the scene after the slots before it. */
  function LoadStep(sc: Scene, source: string, plans: seq<SlotPlan>, start: real, groups: Groups, k: nat): (r: Scene)
    requires Loadable(sc, source, plans) && 0 < k <= |plans|
    ensures Ready(sc, source) ==> Ready(r, source) && r.objects[source] == sc.objects[source]
    decreases k, 0
  {
    SkinApplied(Loaded(sc, source, plans, start, groups, k - 1), source, plans[k - 1], start, groups).0
  }

  /** One more slot is the load so far with that slot applied. */
  lemma LoadedNext(sc: Scene, source: string, plans: seq<SlotPlan>, start: real, groups: Groups, k: nat)
    requires Loadable(sc, source, plans) && k < |plans|
    ensures Loaded(sc, source, plans, start, groups, k + 1) == SkinApplied(Loaded(sc, source, plans, start, groups, k), source, plans[k], start, groups).0
  {
    assert Loaded(sc, source, plans, start, groups, k + 1) == LoadStep(sc, source, plans, start, groups, k + 1);
  }

  /** Two scenes agree on object `m`: it exists in both or neither, unchanged, and is in the source's onion collection in both or neither. */
  predicate SameView(a: Scene, b: Scene, source: string, m: string)
  {
    (m in a.objects <==> m in b.objects) && (m in a.objects ==> a.objects[m] == b.objects[m]) &&
    (m in Members(a, source) <==> m in Members(b, source))
  }

  lemma SameViewReflexive(a: Scene, source: string, m: string)
    ensures SameView(a, a, source, m)
  {
  }

  lemma SameViewTransitive(a: Scene, b: Scene, c: Scene, source: string, m: string)
    requires SameView(a, b, source, m) && SameView(b, c, source, m)
    ensures SameView(a, c, source, m)
  {
  }

  /** One slot leaves alone every object that is not its ghost. */
  lemma LoadedStepFrame(sc: Scene, source: string, plans: seq<SlotPlan>, start: real, groups: Groups, k: nat, m: string)
    requires Loadable(sc, source, plans) && 0 < k <= |plans| && m != SlotName(plans, source, k - 1)
    ensures SameView(Loaded(sc, source, plans, start, groups, k - 1), Loaded(sc, source, plans, start, groups, k), source, m)
  {
    SkinAppliedFrame(Loaded(sc, source, plans, start, groups, k - 1), source, plans[k - 1], start, groups, m);
  }

  /** The slots j to k - 1 leave alone every object that is none of their ghosts. */
  lemma {:induction false} LoadedFrame(sc: Scene, source: string, plans: seq<SlotPlan>, start: real, groups: Groups,
                                       j: nat, k: nat, m: string)
    requires Loadable(sc, source, plans) && j <= k <= |plans|
    requires forall i :: j <= i < k ==> m != SlotName(plans, source, i)
    ensures SameView(Loaded(sc, source, plans, start, groups, j), Loaded(sc, source, plans, start, groups, k), source, m)
    decreases k
  {
    if k > j {
      LoadedFrame(sc, source, plans, start, groups, j, k - 1, m);
      LoadedStepFrame(sc, source, plans, start, groups, k, m);
      SameViewTransitive(Loaded(sc, source, plans, start, groups, j), Loaded(sc, source, plans, start, groups, k - 1),
                         Loaded(sc, source, plans, start, groups, k), source, m);
    } else {
      SameViewReflexive(Loaded(sc, source, plans, start, groups, j), source, m);
    }
  }

  /** Slot k meets its ghost as the scene before the load had it. */
  lemma LoadedBefore(sc: Scene, source: string, plans: seq<SlotPlan>, start: real, groups: Groups, k: nat)
    requires Loadable(sc, source, plans) && k < |plans| && Distinct(plans, source)
    ensures SameView(sc, Loaded(sc, source, plans, start, groups, k), source, SlotName(plans, source, k))
  {
    NamedOnce(plans, source, k, 0, k);
    LoadedFrame(sc, source, plans, start, groups, 0, k, SlotName(plans, source, k));
  }

  /** Slot k is done, as seen from the scene before the load, once the load has passed it. */
  lemma LoadedSlotDone(sc: Scene, source: string, plans: seq<SlotPlan>, start: real, groups: Groups, k: nat)
    requires Loadable(sc, source, plans) && k < |plans| && Distinct(plans, source)
    ensures SkinDone(sc, Loaded(sc, source, plans, start, groups, k + 1), plans[k], source)
  {
    var prev := Loaded(sc, source, plans, start, groups, k);
    LoadedBefore(sc, source, plans, start, groups, k);
    SkinAppliedOwn(prev, source, plans[k], start, groups);
    LoadedNext(sc, source, plans, start, groups, k);
    SkinDoneFrom(sc, prev, Loaded(sc, source, plans, start, groups, k + 1), plans[k], source);
  }

  /** After the first k slots every one of them is done: a later slot leaves an earlier slot's ghost alone. */
  lemma LoadedSlots(sc: Scene, source: string, plans: seq<SlotPlan>, start: real, groups: Groups, k: nat, i: nat)
    requires Loadable(sc, source, plans) && i < k <= |plans| && Distinct(plans, source)
    ensures SkinDone(sc, Loaded(sc, source, plans, start, groups, k), plans[i], source)
  {
    var a := Loaded(sc, source, plans, start, groups, i + 1);
    var b := Loaded(sc, source, plans, start, groups, k);
    assert SkinDone(sc, a, plans[i], source) by {
      LoadedSlotDone(sc, source, plans, start, groups, i);
    }
    assert SameView(a, b, source, SlotName(plans, source, i)) by {
      NamedOnce(plans, source, i, i + 1, k);
      LoadedFrame(sc, source, plans, start, groups, i + 1, k, SlotName(plans, source, i));
    }
    SkinDoneKept(sc, a, b, plans[i], source);
  }

  /** Slot i's ghost is none of the ghosts of slots j to k - 1 when i is not among them. */
  lemma NamedOnce(plans: seq<SlotPlan>, source: string, i: nat, j: nat, k: nat)
    requires Distinct(plans, source) && i < |plans| && k <= |plans| && (i < j || k <= i)
    ensures forall l :: j <= l < k ==> SlotName(plans, source, i) != SlotName(plans, source, l)
  {
  }

  /** A slot stays done while other slots leave its ghost alone. */
  lemma SkinDoneKept(sc: Scene, a: Scene, b: Scene, p: SlotPlan, source: string)
    requires SkinDone(sc, a, p, source) && SameView(a, b, source, SkinName(p.offset, p.index, source))
    ensures SkinDone(sc, b, p, source)
  {
  }

  // ---------------------------------------------------------------------
  // What a load makes of each ghost
  // ---------------------------------------------------------------------

  /** The object a made slot starts from: its ghost found by name, or a new one (lines 184-191). */
  function Base(sc: Scene, source: string, name: string): (g: Obj)
    requires source in sc.objects
    ensures name !in sc.objects ==> g == NewGhost(sc.objects[source])
  {
    if name in sc.objects then sc.objects[name] else NewGhost(sc.objects[source])
  }

  /** In `r`, the made slot's ghost is the one lines 189-195 make from what `sc` holds under its name. */
  predicate Ghosted(sc: Scene, r: Scene, p: SlotPlan, source: string, start: real, groups: Groups)
    requires Ready(sc, source)
  {
    var name := SkinName(p.offset, p.index, source);
    name in r.objects && r.objects[name] == GhostOf(Base(sc, source, name), sc.objects[source], p, start, groups)
  }

  /** A made slot's step leaves its ghost made from the scene it starts from. */
  lemma SkinMade(sc: Scene, source: string, p: SlotPlan, start: real, groups: Groups)
    requires Ready(sc, source) && p.create
    ensures Ghosted(sc, SkinApplied(sc, source, p, start, groups).0, p, source, start, groups)
  {
    CollectionOpenedReuses(sc, source);
  }

  /** A ghost made from a scene that agrees with `sc` on it and on the source is made from `sc`. */
  lemma GhostedFrom(sc: Scene, a: Scene, b: Scene, p: SlotPlan, source: string, start: real, groups: Groups)
    requires Ready(sc, source) && Ready(a, source) && a.objects[source] == sc.objects[source]
    requires SameView(sc, a, source, SkinName(p.offset, p.index, source)) && Ghosted(a, b, p, source, start, groups)
    ensures Ghosted(sc, b, p, source, start, groups)
  {
  }

  /** A made ghost stays as it is while other slots leave it alone. */
  lemma GhostedKept(sc: Scene, a: Scene, b: Scene, p: SlotPlan, source: string, start: real, groups: Groups)
    requires Ready(sc, source) && Ghosted(sc, a, p, source, start, groups)
    requires SameView(a, b, source, SkinName(p.offset, p.index, source))
    ensures Ghosted(sc, b, p, source, start, groups)
  {
  }

  /** Right after a made slot i, its ghost is the one made from what the scene held before the load. */
  lemma LoadedGhostMade(sc: Scene, source: string, plans: seq<SlotPlan>, start: real, groups: Groups, i: nat)
    requires Ready(sc, source) && i < |plans| && Distinct(plans, source) && plans[i].create
    ensures Ghosted(sc, Loaded(sc, source, plans, start, groups, i + 1), plans[i], source, start, groups)
  {
    var prev := Loaded(sc, source, plans, start, groups, i);
    LoadedBefore(sc, source, plans, start, groups, i);
    SkinMade(prev, source, plans[i], start, groups);
    LoadedNext(sc, source, plans, start, groups, i);
    GhostedFrom(sc, prev, Loaded(sc, source, plans, start, groups, i + 1), plans[i], source, start, groups);
  }

  /** After the first k slots, the ghost of every made slot i < k is the one made from what the scene held before the load. */
  lemma LoadedGhost(sc: Scene, source: string, plans: seq<SlotPlan>, start: real, groups: Groups, k: nat, i: nat)
    requires Ready(sc, source) && i < k <= |plans| && Distinct(plans, source) && plans[i].create
    ensures Ghosted(sc, Loaded(sc, source, plans, start, groups, k), plans[i], source, start, groups)
  {
    var a := Loaded(sc, source, plans, start, groups, i + 1);
    var b := Loaded(sc, source, plans, start, groups, k);
    LoadedGhostMade(sc, source, plans, start, groups, i);
    assert SameView(a, b, source, SlotName(plans, source, i)) by {
      NamedOnce(plans, source, i, i + 1, k);
      LoadedFrame(sc, source, plans, start, groups, i + 1, k, SlotName(plans, source, i));
    }
    GhostedKept(sc, a, b, plans[i], source, start, groups);
  }

  /**
   * A made ghost, lines 192-195 and 225-246: it is neither selectable nor
   * rendered, casts no shadow and shows the slot's colour with the slot's
   * opacity; it plays the source's action as one NLA strip starting `offset`
   * frames before the action's first frame, so that it shows the frame
   * `offset` away; it keeps the data and tags it had.
   */
  lemma GhostShows(g: Obj, src: Obj, p: SlotPlan, start: real, groups: Groups)
    requires Find(src).Some? && src.action.Some?
    ensures var r := GhostOf(g, src, p, start, groups);
      r.hideSelect && r.hideRender && !r.showShadows && r.color == [p.color.r, p.color.g, p.color.b, p.opacity] &&
      r.action.None? && r.nla == [Strip(src.action.value.name, start - p.offset as real)] &&
      r.data == g.data && r.props == g.props
  {
    var w := GhostModifiers(g, src, p.offset, MaterialName(p.offset, p.index), groups);
    var d := Dressed(w, p.color, p.opacity);
    assert GhostOf(g, src, p, start, groups) == Animated(d, src.action.value, p.offset, start);
    assert w.data == g.data && w.props == g.props;
  }

  /**
   * A made ghost's modifiers, lines 198-221: one that had a StopMotion
   * modifier keeps its stack; one that had none (a new one has none) now
   * runs one showing the source's store at the source's index plus the
   * offset, followed by a materializer holding the slot's material.
   */
  lemma GhostIndex(g: Obj, src: Obj, p: SlotPlan, start: real, groups: Groups)
    requires Find(src).Some? && src.action.Some?
    ensures var r := GhostOf(g, src, p, start, groups);
      (Find(g).Some? ==> r.modifiers == g.modifiers) &&
      (Find(g).None? ==> Index(r) == Ok(Mod(src).index + p.offset) && Collection(r) == Collection(src) &&
                         Mod(r).group == "MeshKey" && r.modifiers[|g.modifiers| + 1].material == Some(MaterialName(p.offset, p.index)))
  {
    var matName := MaterialName(p.offset, p.index);
    var r := GhostOf(g, src, p, start, groups);
    assert r.modifiers == GhostModifiers(g, src, p.offset, matName, groups).modifiers;
    if Find(g).None? {
      StackIndex(g, src, p.offset, matName, groups, r);
    } else {
      assert r.modifiers == g.modifiers;
    }
  }

  /** Any object carrying a fresh ghost's modifier stack reads the source's store at the shifted index. */
  lemma StackIndex(g: Obj, src: Obj, offset: int, matName: string, groups: Groups, r: Obj)
    requires Find(src).Some? && Find(g).None? && r.modifiers == GhostModifiers(g, src, offset, matName, groups).modifiers
    ensures Index(r) == Ok(Mod(src).index + offset) && Collection(r) == Collection(src) &&
      Mod(r).group == "MeshKey" && r.modifiers[|g.modifiers| + 1].material == Some(matName)
  {
    var m := GhostModifiers(g, src, offset, matName, groups);
    GhostModifiersIndex(g, src, offset, matName, groups);
    SameModifiers(m, r);
  }

  /** A new ghost has no StopMotion modifier, so loading gives it one. */
  lemma NewGhostBare(src: Obj)
    ensures Find(NewGhost(src)).None?
  {
    FindFirst(NewGhost(src));
  }

  // ---------------------------------------------------------------------
  // What a load adds to the session
  // ---------------------------------------------------------------------

  /** The ghosts of the made slots among the first k. */
  function Created(plans: seq<SlotPlan>, source: string, k: nat): set<string>
    requires k <= |plans|
  {
    if k == 0 then {} else Created(plans, source, k - 1) + Added(plans, source, k - 1)
  }

  /** Slot k's ghost if the slot is made. */
  function Added(plans: seq<SlotPlan>, source: string, k: nat): set<string>
    requires k < |plans|
  {
    if plans[k].create then {SlotName(plans, source, k)} else {}
  }

  /** One step adds exactly its own ghost when the slot is made, and no object otherwise. */
  lemma SkinAppliedKeys(sc: Scene, source: string, p: SlotPlan, start: real, groups: Groups)
    requires (p.create ==> Ready(sc, source))
    ensures SkinApplied(sc, source, p, start, groups).0.objects.Keys ==
      sc.objects.Keys + (if p.create then {SkinName(p.offset, p.index, source)} else {})
  {
    CollectionOpenedReuses(sc, source);
  }

  /** Slot k - 1 adds exactly its own ghost when it is made, and no object otherwise. */
  lemma LoadedKeysStep(sc: Scene, source: string, plans: seq<SlotPlan>, start: real, groups: Groups, k: nat, m: string)
    requires Loadable(sc, source, plans) && 0 < k <= |plans|
    ensures m in Loaded(sc, source, plans, start, groups, k).objects <==>
      m in Loaded(sc, source, plans, start, groups, k - 1).objects || m in Added(plans, source, k - 1)
  {
    SkinAppliedKeys(Loaded(sc, source, plans, start, groups, k - 1), source, plans[k - 1], start, groups);
  }

  /** After the first k slots an object exists exactly when it existed before or is the ghost of a made slot: nothing is removed. */
  lemma {:induction false} LoadedKeys(sc: Scene, source: string, plans: seq<SlotPlan>, start: real, groups: Groups, k: nat, m: string)
    requires Loadable(sc, source, plans) && k <= |plans|
    ensures m in Loaded(sc, source, plans, start, groups, k).objects <==> m in sc.objects || m in Created(plans, source, k)
    decreases k
  {
    if k > 0 {
      LoadedKeys(sc, source, plans, start, groups, k - 1, m);
      LoadedKeysStep(sc, source, plans, start, groups, k, m);
    }
  }

  /** After at least one slot, the collections are those of before plus the source's onion collection, which is under the scene. */
  lemma {:induction false} LoadedCollections(sc: Scene, source: string, plans: seq<SlotPlan>, start: real, groups: Groups, k: nat)
    requires Loadable(sc, source, plans) && 0 < k <= |plans|
    ensures var r := Loaded(sc, source, plans, start, groups, k);
      r.collections.Keys == sc.collections.Keys + {CollectionName(source)} && CollectionName(source) in r.children
    decreases k
  {
    var prev := Loaded(sc, source, plans, start, groups, k - 1);
    if k > 1 {
      LoadedCollections(sc, source, plans, start, groups, k - 1);
    }
    CollectionOpenedReuses(prev, source);
    SkinAppliedOwn(prev, source, plans[k - 1], start, groups);
  }

  // ---------------------------------------------------------------------
  // The manager's lists
  // ---------------------------------------------------------------------

  /** Whether slot k ends up in the manager's list (`bool(skin)`): it is made, or its ghost existed before the load. */
  predicate Kept(sc: Scene, plans: seq<SlotPlan>, source: string, k: nat)
    requires k < |plans|
  {
    plans[k].create || SlotName(plans, source, k) in sc.objects
  }

  /** Slot k's skin counts exactly when the slot is kept. */
  lemma LoadedStepKept(sc: Scene, source: string, plans: seq<SlotPlan>, start: real, groups: Groups, k: nat)
    requires Loadable(sc, source, plans) && k < |plans| && Distinct(plans, source)
    ensures SkinApplied(Loaded(sc, source, plans, start, groups, k), source, plans[k], start, groups).1 == Kept(sc, plans, source, k)
  {
    LoadedBefore(sc, source, plans, start, groups, k);
    SkinAppliedOwn(Loaded(sc, source, plans, start, groups, k), source, plans[k], start, groups);
  }

  /** Whether each slot is kept, in load order. */
  function KeptFlags(sc: Scene, plans: seq<SlotPlan>, source: string): (r: seq<bool>)
    ensures |r| == |plans| && forall k :: 0 <= k < |plans| ==> r[k] == Kept(sc, plans, source, k)
  {
    seq(|plans|, k requires 0 <= k < |plans| => Kept(sc, plans, source, k))
  }

  /** Each slot's entry, in load order. */
  function SlotRefs(plans: seq<SlotPlan>, source: string): (r: seq<SkinRef>)
    ensures |r| == |plans| && forall k :: 0 <= k < |plans| ==> r[k] == SlotRef(plans, source, k)
  {
    seq(|plans|, k requires 0 <= k < |plans| => SlotRef(plans, source, k))
  }

  /** The entries `refs` of the slots flagged in `kept` among the first n of `side`, in slot order. */
  function Listing(kept: seq<bool>, refs: seq<SkinRef>, side: nat, n: nat): (r: seq<SkinRef>)
    requires |kept| == |refs| == 2 * MAXIMUM && side < 2 && n <= MAXIMUM
    ensures |r| <= n
  {
    if n == 0 then []
    else
      var k := Position(side, n - 1);
      Listing(kept, refs, side, n - 1) + (if kept[k] then [refs[k]] else [])
  }

  /**
   * The two lists after the first k slots, from each slot's flag and entry:
   * slot k - 1 appends its entry to its side's list when it is flagged.
   */
  function ListsOf(kept: seq<bool>, refs: seq<SkinRef>, k: nat): (r: seq<seq<SkinRef>>)
    requires |kept| == |refs| == 2 * MAXIMUM && k <= 2 * MAXIMUM
    ensures |r| == 2
    decreases k
  {
    if k == 0 then [[], []]
    else
      var l := ListsOf(kept, refs, k - 1);
      var side := SideOf(k - 1);
      l[side := l[side] + (if kept[k - 1] then [refs[k - 1]] else [])]
  }

  /** The manager's two lists after the first k slots (lines 286-287): before and after the current frame. */
  function Lists(sc: Scene, plans: seq<SlotPlan>, source: string, k: nat): (r: seq<seq<SkinRef>>)
    requires |plans| == 2 * MAXIMUM && k <= 2 * MAXIMUM
    ensures |r| == 2
  {
    ListsOf(KeptFlags(sc, plans, source), SlotRefs(plans, source), k)
  }

  /** Slot k appends its entry to its side's list exactly when it is kept, and leaves the other list alone. */
  lemma ListsStep(sc: Scene, plans: seq<SlotPlan>, source: string, k: nat)
    requires |plans| == 2 * MAXIMUM && k < 2 * MAXIMUM
    ensures var l := Lists(sc, plans, source, k); var next := Lists(sc, plans, source, k + 1);
      next[SideOf(k)] == l[SideOf(k)] + (if Kept(sc, plans, source, k) then [SlotRef(plans, source, k)] else []) &&
      next[1 - SideOf(k)] == l[1 - SideOf(k)]
  {
    var kept, refs := KeptFlags(sc, plans, source), SlotRefs(plans, source);
    assert kept[k] == Kept(sc, plans, source, k) && refs[k] == SlotRef(plans, source, k);
  }

  /** After the first k slots, each list holds the entries of its side's flagged slots among those k, in slot order. */
  lemma {:induction false} ListsListing(kept: seq<bool>, refs: seq<SkinRef>, k: nat)
    requires |kept| == |refs| == 2 * MAXIMUM && k <= 2 * MAXIMUM
    ensures ListsOf(kept, refs, k) ==
      [Listing(kept, refs, 0, if k < MAXIMUM then k else MAXIMUM),
       Listing(kept, refs, 1, if k < MAXIMUM then 0 else k - MAXIMUM)]
    decreases k
  {
    if k > 0 {
      ListsListing(kept, refs, k - 1);
      assert Position(SideOf(k - 1), IndexOf(k - 1)) == k - 1;
    }
  }

  /** A list is empty exactly when none of its slots is flagged. */
  lemma {:induction false} ListingEmpty(kept: seq<bool>, refs: seq<SkinRef>, side: nat, n: nat)
    requires |kept| == |refs| == 2 * MAXIMUM && side < 2 && n <= MAXIMUM
    ensures Listing(kept, refs, side, n) == [] <==> forall i :: 0 <= i < n ==> !kept[Position(side, i)]
  {
    if n > 0 {
      ListingEmpty(kept, refs, side, n - 1);
    }
  }

  /** Every listed entry is the entry of a flagged slot of the list's side. */
  lemma {:induction false} ListingSlots(kept: seq<bool>, refs: seq<SkinRef>, side: nat, n: nat)
    requires |kept| == |refs| == 2 * MAXIMUM && side < 2 && n <= MAXIMUM
    ensures forall e :: e in Listing(kept, refs, side, n) ==>
      exists i :: 0 <= i < n && kept[Position(side, i)] && e == refs[Position(side, i)]
  {
    if n > 0 {
      ListingSlots(kept, refs, side, n - 1);
    }
  }

  // ---------------------------------------------------------------------
  // What the manager knows after a load
  // ---------------------------------------------------------------------

  /** No two entries name the same ghost. */
  predicate UniqueNames(entries: seq<SkinRef>)
  {
    forall i, j :: 0 <= i < j < |entries| ==> entries[i].name != entries[j].name
  }

  lemma UniqueAppend(l: seq<SkinRef>, e: SkinRef)
    requires UniqueNames(l) && forall x :: x in l ==> x.name != e.name
    ensures UniqueNames(l + [e])
  {
    assert forall i :: 0 <= i < |l| ==> (l + [e])[i] == l[i];
  }

  lemma UniqueConcat(a: seq<SkinRef>, b: seq<SkinRef>)
    requires UniqueNames(a) && UniqueNames(b)
    requires forall x, y :: x in a && y in b ==> x.name != y.name
    ensures UniqueNames(a + b)
  {
    forall i, j | 0 <= i < j < |a + b|
      ensures (a + b)[i].name != (a + b)[j].name
    {
      if j < |a| {
        assert (a + b)[i] == a[i] && (a + b)[j] == a[j];
      } else if i < |a| {
        assert (a + b)[i] in a && (a + b)[j] in b;
      } else {
        assert (a + b)[i] == b[i - |a|] && (a + b)[j] == b[j - |a|];
      }
    }
  }

  /** A list's entries name different ghosts when the slots' entries do: they come from different slots. */
  lemma {:induction false} ListingUnique(kept: seq<bool>, refs: seq<SkinRef>, side: nat, n: nat)
    requires |kept| == |refs| == 2 * MAXIMUM && side < 2 && n <= MAXIMUM
    requires forall i, j :: 0 <= i < |refs| && 0 <= j < |refs| && i != j ==> refs[i].name != refs[j].name
    ensures UniqueNames(Listing(kept, refs, side, n))
  {
    if n > 0 {
      var k := Position(side, n - 1);
      var l := Listing(kept, refs, side, n - 1);
      ListingUnique(kept, refs, side, n - 1);
      if kept[k] {
        ListingSlots(kept, refs, side, n - 1);
        forall x | x in l
          ensures x.name != refs[k].name
        {
          var i :| 0 <= i < n - 1 && kept[Position(side, i)] && x == refs[Position(side, i)];
          assert Position(side, i) != k;
        }
        UniqueAppend(l, refs[k]);
      }
    }
  }

  /** The slots' entries name different ghosts when the slots' names differ. */
  lemma DistinctRefs(plans: seq<SlotPlan>, source: string)
    requires Distinct(plans, source)
    ensures var refs := SlotRefs(plans, source);
      forall i, j :: 0 <= i < |refs| && 0 <= j < |refs| && i != j ==> refs[i].name != refs[j].name
  {
  }

  /** Every ghost the manager lists after a load, before or after the current frame, is listed once. */
  lemma ListsUnique(sc: Scene, plans: seq<SlotPlan>, source: string)
    requires |plans| == 2 * MAXIMUM && Distinct(plans, source)
    ensures var l := Lists(sc, plans, source, 2 * MAXIMUM); UniqueNames(l[0] + l[1])
  {
    ListsListing(KeptFlags(sc, plans, source), SlotRefs(plans, source), 2 * MAXIMUM);
    var l := Lists(sc, plans, source, 2 * MAXIMUM);
    var kept, refs := KeptFlags(sc, plans, source), SlotRefs(plans, source);
    DistinctRefs(plans, source);
    ListingUnique(kept, refs, 0, MAXIMUM);
    ListingUnique(kept, refs, 1, MAXIMUM);
    ListingSlots(kept, refs, 0, MAXIMUM);
    ListingSlots(kept, refs, 1, MAXIMUM);
    forall x: SkinRef, y: SkinRef | x in l[0] && y in l[1]
      ensures x.name != y.name
    {
      var i :| 0 <= i < MAXIMUM && kept[Position(0, i)] && x == refs[Position(0, i)];
      var j :| 0 <= j < MAXIMUM && kept[Position(1, j)] && y == refs[Position(1, j)];
      assert Position(0, i) != Position(1, j);
    }
    UniqueConcat(l[0], l[1]);
  }

  /** Every listed ghost exists once the load is over: it was made, or it existed and a slot not made leaves it. */
  lemma LoadedListed(sc: Scene, source: string, plans: seq<SlotPlan>, start: real, groups: Groups)
    requires Loadable(sc, source, plans) && |plans| == 2 * MAXIMUM && Distinct(plans, source)
    ensures var l := Lists(sc, plans, source, 2 * MAXIMUM);
      forall e :: e in l[0] + l[1] ==> e.name in Loaded(sc, source, plans, start, groups, 2 * MAXIMUM).objects
  {
    ListsListing(KeptFlags(sc, plans, source), SlotRefs(plans, source), 2 * MAXIMUM);
    var l := Lists(sc, plans, source, 2 * MAXIMUM);
    var r := Loaded(sc, source, plans, start, groups, 2 * MAXIMUM);
    var kept, refs := KeptFlags(sc, plans, source), SlotRefs(plans, source);
    ListingSlots(kept, refs, 0, MAXIMUM);
    ListingSlots(kept, refs, 1, MAXIMUM);
    forall e: SkinRef | e in l[0] + l[1]
      ensures e.name in r.objects
    {
      var side := if e in l[0] then 0 else 1;
      var i :| 0 <= i < MAXIMUM && kept[Position(side, i)] && e == refs[Position(side, i)];
      LoadedSlots(sc, source, plans, start, groups, 2 * MAXIMUM, Position(side, i));
    }
  }

  /** `__bool__`, lines 267-268: some list is not empty. */
  predicate AnyListed(lists: seq<seq<SkinRef>>)
  {
    exists side :: 0 <= side < |lists| && lists[side] != []
  }

  /** After a load the manager is true exactly when some slot is kept; with onion skins on it always is, since each side makes at least one skin. */
  lemma LoadedAny(sc: Scene, plans: seq<SlotPlan>, source: string)
    requires |plans| == 2 * MAXIMUM
    ensures AnyListed(Lists(sc, plans, source, 2 * MAXIMUM)) <==> exists k :: 0 <= k < 2 * MAXIMUM && Kept(sc, plans, source, k)
  {
    ListsListing(KeptFlags(sc, plans, source), SlotRefs(plans, source), 2 * MAXIMUM);
    var l := Lists(sc, plans, source, 2 * MAXIMUM);
    var kept, refs := KeptFlags(sc, plans, source), SlotRefs(plans, source);
    ListingEmpty(kept, refs, 0, MAXIMUM);
    ListingEmpty(kept, refs, 1, MAXIMUM);
    if exists k :: 0 <= k < 2 * MAXIMUM && Kept(sc, plans, source, k) {
      var k :| 0 <= k < 2 * MAXIMUM && Kept(sc, plans, source, k);
      var side := SideOf(k);
      assert Position(side, IndexOf(k)) == k;
      assert kept[Position(side, IndexOf(k))];
      assert l[side] != [];
    }
    if AnyListed(l) {
      var side :| 0 <= side < 2 && l[side] != [];
      var i :| 0 <= i < MAXIMUM && kept[Position(side, i)];
    }
  }

  /** With onion skins on, the first slot before the current frame is made, so a load always leaves the manager true. */
  lemma EnabledLoadsSome(sc: Scene, s: Settings, source: string)
    requires InBounds(s) && s.enable
    ensures AnyListed(Lists(sc, Plans(s), source, 2 * MAXIMUM))
  {
    PlanCreates(s, 0, 0);
    LoadedAny(sc, Plans(s), source);
    assert Kept(sc, Plans(s), source, 0);
  }

  /**
   * `refresh` on a list of skins, lines 289-292: each listed ghost gets its
   * animation again (`OnionSkin.animation`). A skin holds its ghost, so a
   * listed name always exists (`LoadedListed`); a missing one is passed over.
   */
  function Refreshed(objects: map<string, Obj>, action: Action, entries: seq<SkinRef>, start: real): (r: map<string, Obj>)
    ensures r.Keys == objects.Keys
    decreases |entries|
  {
    if entries == [] then objects
    else
      var e := entries[0];
      var next := if e.name in objects then objects[e.name := Animated(objects[e.name], action, e.offset, start)] else objects;
      Refreshed(next, action, entries[1..], start)
  }

  /** Refreshing two lists one after the other is refreshing their concatenation. */
  lemma {:induction false} RefreshedAppend(objects: map<string, Obj>, action: Action, a: seq<SkinRef>, b: seq<SkinRef>, start: real)
    ensures Refreshed(objects, action, a + b, start) == Refreshed(Refreshed(objects, action, a, start), action, b, start)
    decreases |a|
  {
    if a != [] {
      var e := a[0];
      var next := if e.name in objects then objects[e.name := Animated(objects[e.name], action, e.offset, start)] else objects;
      assert (a + b)[0] == e && (a + b)[1..] == a[1..] + b;
      RefreshedAppend(next, action, a[1..], b, start);
    } else {
      assert a + b == b;
    }
  }

  /**
   * After a refresh every listed ghost plays `action` from `start` minus
   * its offset, and is otherwise as it was; an object not listed is left
   * alone.
   */
  lemma {:induction false} RefreshedShows(objects: map<string, Obj>, action: Action, entries: seq<SkinRef>, start: real)
    requires forall e :: e in entries ==> e.name in objects
    requires UniqueNames(entries)
    ensures var r := Refreshed(objects, action, entries, start);
      (forall e :: e in entries ==> r[e.name] == Animated(objects[e.name], action, e.offset, start)) &&
      (forall m :: m in objects && (forall e :: e in entries ==> e.name != m) ==> r[m] == objects[m])
    decreases |entries|
  {
    if entries != [] {
      var e := entries[0];
      var next := objects[e.name := Animated(objects[e.name], action, e.offset, start)];
      assert UniqueNames(entries[1..]) by {
        forall i, j | 0 <= i < j < |entries[1..]|
          ensures entries[1..][i].name != entries[1..][j].name
        {
          assert entries[1..][i] == entries[i + 1] && entries[1..][j] == entries[j + 1];
        }
      }
      assert forall x :: x in entries[1..] ==> x.name != e.name by {
        forall x | x in entries[1..]
          ensures x.name != e.name
        {
          var j :| 0 <= j < |entries[1..]| && entries[1..][j] == x;
          assert entries[j + 1] == x;
        }
      }
      RefreshedShows(next, action, entries[1..], start);
      forall x | x in entries
        ensures x == e || x in entries[1..]
      {
        var j :| 0 <= j < |entries| && entries[j] == x;
        if j > 0 {
          assert entries[1..][j - 1] == x;
        }
      }
    }
  }

  /** `onion_skins_unload` on the onion collection, lines 294-297: each listed skin is `delete`d, which unlinks its ghost. */
  function Unloaded(coll: Coll, entries: seq<SkinRef>): (r: Coll)
    decreases |entries|
  {
    if entries == [] then coll else Unloaded(Unlinked(coll, entries[0].name), entries[1..])
  }

  /** Unloading two lists one after the other is unloading their concatenation. */
  lemma {:induction false} UnloadedAppend(coll: Coll, a: seq<SkinRef>, b: seq<SkinRef>)
    ensures Unloaded(coll, a + b) == Unloaded(Unloaded(coll, a), b)
    decreases |a|
  {
    if a != [] {
      assert (a + b)[0] == a[0] && (a + b)[1..] == a[1..] + b;
      UnloadedAppend(Unlinked(coll, a[0].name), a[1..], b);
    } else {
      assert a + b == b;
    }
  }

  /** After an unload no listed ghost is in the collection, every other member stays, and nothing else about the collection changes; no object is removed. */
  lemma {:induction false} UnloadedMembers(coll: Coll, entries: seq<SkinRef>)
    ensures var r := Unloaded(coll, entries);
      (forall e :: e in entries ==> e.name !in r.objects) &&
      (forall m :: (forall e :: e in entries ==> e.name != m) ==> (m in r.objects <==> m in coll.objects)) &&
      r.(objects := coll.objects) == coll
    decreases |entries|
  {
    if entries != [] {
      var next := Unlinked(coll, entries[0].name);
      LinkUnlink(coll, entries[0].name);
      UnloadedMembers(next, entries[1..]);
      forall x | x in entries
        ensures x == entries[0] || x in entries[1..]
      {
        var j :| 0 <= j < |entries| && entries[j] == x;
        if j > 0 {
          assert entries[1..][j - 1] == x;
        }
      }
      if Unloaded(coll, entries).objects != [] {
        var r := Unloaded(coll, entries);
        forall e | e in entries
          ensures e.name !in r.objects
        {
          if e != entries[0] {
            assert e in entries[1..];
          }
        }
      }
    }
  }

  // ---------------------------------------------------------------------
  // The load as written: the material's TypeError
  // ---------------------------------------------------------------------

  /**
   * `OnionSkin(...)` as written, lines 171-202: a made slot's ghost is found
   * or made and linked (lines 189-192), then `modifier` opens the material
   * first (line 202). When that raises, the ghost keeps the modifiers, display
   * settings and animation it had. Without an error the step is `SkinApplied`.
   */
  function SkinAppliedAsWritten(sc: Scene, source: string, p: SlotPlan, start: real, groups: Groups): (r: (Scene, Result<bool, PyError>))
    requires p.create ==> Ready(sc, source)
    ensures Ready(sc, source) ==> Ready(r.0, source) && r.0.objects[source] == sc.objects[source]
  {
    if !p.create then (SkinApplied(sc, source, p, start, groups).0, Ok(SkinApplied(sc, source, p, start, groups).1))
    else
      var withColl := CollectionOpened(sc, source);
      var name := SkinName(p.offset, p.index, source);
      var cname := CollectionName(source);
      var mat := MaterialOpenedAsWritten(sc.materials, p.offset, p.index, p.color, p.opacity);
      if mat.1.None? then (SkinApplied(sc, source, p, start, groups).0, Ok(true))
      else
        (withColl.(objects := withColl.objects[name := Base(withColl, source, name)],
                   collections := withColl.collections[cname := Linked(withColl.collections[cname], name)],
                   materials := mat.0),
         Err(mat.1.value))
  }

  /**
   * A made slot whose material is missing or half built raises, after its
   * ghost was linked to the onion collection as it was found, or, when new,
   * without a StopMotion modifier or an NLA strip: it shows no shot.
   */
  lemma SkinAsWrittenUndressed(sc: Scene, source: string, p: SlotPlan, start: real, groups: Groups)
    requires Ready(sc, source) && p.create
    requires var name := MaterialName(p.offset, p.index); name !in sc.materials || !sc.materials[name].setUp
    ensures var r := SkinAppliedAsWritten(sc, source, p, start, groups); var name := SkinName(p.offset, p.index, source);
      r.1.Err? && (r.1.error == TypeError <==> MaterialName(p.offset, p.index) !in sc.materials) &&
      name in r.0.objects && r.0.objects[name] == Base(sc, source, name) && name in Members(r.0, source) &&
      (name !in sc.objects ==> Find(r.0.objects[name]).None? && r.0.objects[name].nla == [])
  {
    var name := SkinName(p.offset, p.index, source);
    CollectionOpenedReuses(sc, source);
    MaterialAsWrittenRaises(sc.materials, p.offset, p.index, p.color, p.opacity);
    LinkUnlink(CollectionOpened(sc, source).collections[CollectionName(source)], name);
    if name !in sc.objects {
      NewGhostBare(sc.objects[source]);
    }
  }

  /** With its material set up, or for a slot not made, the step as written is the corrected step. */
  lemma SkinAsWrittenAgrees(sc: Scene, source: string, p: SlotPlan, start: real, groups: Groups)
    requires p.create ==> Ready(sc, source)
    requires p.create ==> var name := MaterialName(p.offset, p.index); name in sc.materials && sc.materials[name].setUp
    ensures SkinAppliedAsWritten(sc, source, p, start, groups) ==
      (SkinApplied(sc, source, p, start, groups).0, Ok(SkinApplied(sc, source, p, start, groups).1))
  {
  }

  /** The first k slots of `onion_skins_load` as written: the loop stops at the first slot that raises. */
  function LoadedAsWritten(sc: Scene, source: string, plans: seq<SlotPlan>, start: real, groups: Groups, k: nat): (r: (Scene, Option<PyError>))
    requires Loadable(sc, source, plans) && k <= |plans|
    ensures Ready(sc, source) ==> Ready(r.0, source) && r.0.objects[source] == sc.objects[source]
    decreases k
  {
    if k == 0 then (sc, None)
    else
      var prev := LoadedAsWritten(sc, source, plans, start, groups, k - 1);
      if prev.1.Some? then prev
      else
        var step := SkinAppliedAsWritten(prev.0, source, plans[k - 1], start, groups);
        (step.0, if step.1.Err? then Some(step.1.error) else None)
  }

  /** An error stops the load: later slots change nothing. */
  lemma {:induction false} AsWrittenStops(sc: Scene, source: string, plans: seq<SlotPlan>, start: real, groups: Groups, j: nat, k: nat)
    requires Loadable(sc, source, plans) && j <= k <= |plans|
    requires LoadedAsWritten(sc, source, plans, start, groups, j).1.Some?
    ensures LoadedAsWritten(sc, source, plans, start, groups, k) == LoadedAsWritten(sc, source, plans, start, groups, j)
    decreases k
  {
    if k > j {
      AsWrittenStops(sc, source, plans, start, groups, j, k - 1);
    }
  }

  /** No material is set up. */
  predicate NoneSetUp(mats: map<string, Material>)
  {
    forall m :: m in mats ==> !mats[m].setUp
  }

  /** A load as written sets up no material that was not set up before it. */
  lemma {:induction false} AsWrittenSetsUpNone(sc: Scene, source: string, plans: seq<SlotPlan>, start: real, groups: Groups, k: nat)
    requires Loadable(sc, source, plans) && k <= |plans|
    requires NoneSetUp(sc.materials)
    ensures NoneSetUp(LoadedAsWritten(sc, source, plans, start, groups, k).0.materials)
    decreases k
  {
    if k > 0 {
      AsWrittenSetsUpNone(sc, source, plans, start, groups, k - 1);
      var prev := LoadedAsWritten(sc, source, plans, start, groups, k - 1);
      if prev.1.None? {
        var p := plans[k - 1];
        assert LoadedAsWritten(sc, source, plans, start, groups, k).0 == SkinAppliedAsWritten(prev.0, source, p, start, groups).0;
        if p.create {
          var mat := MaterialOpenedAsWritten(prev.0.materials, p.offset, p.index, p.color, p.opacity);
          MaterialAsWrittenRaises(prev.0.materials, p.offset, p.index, p.color, p.opacity);
          assert mat.1.Some?;
          assert SkinAppliedAsWritten(prev.0, source, p, start, groups).0.materials == mat.0;
        } else {
          CollectionOpenedReuses(prev.0, source);
          assert SkinAppliedAsWritten(prev.0, source, p, start, groups).0.materials == prev.0.materials;
        }
      } else {
        assert LoadedAsWritten(sc, source, plans, start, groups, k) == prev;
      }
    }
  }

  /**
   * With onion skins on and no onion material set up (the only state the
   * code as written can leave), every load raises at the first slot before
   * the current frame, so the manager is never built; the load leaves no
   * material set up, so the next one raises again.
   */
  lemma LoadAsWrittenFails(sc: Scene, s: Settings, source: string, start: real, groups: Groups)
    requires InBounds(s) && s.enable && Ready(sc, source)
    requires NoneSetUp(sc.materials)
    ensures var r := LoadedAsWritten(sc, source, Plans(s), start, groups, 2 * MAXIMUM);
      r.1.Some? && NoneSetUp(r.0.materials)
  {
    var plans := Plans(s);
    PlanCreates(s, 0, 0);
    assert plans[0] == Plan(s, 0, 0);
    SkinAsWrittenUndressed(sc, source, plans[0], start, groups);
    assert LoadedAsWritten(sc, source, plans, start, groups, 1).1.Some?;
    AsWrittenStops(sc, source, plans, start, groups, 1, 2 * MAXIMUM);
    AsWrittenSetsUpNone(sc, source, plans, start, groups, 2 * MAXIMUM);
  }

  // ---------------------------------------------------------------------
  // The session
  // ---------------------------------------------------------------------

  /** The part of the session onion skins read and write. */
  function SceneOf(w: Session): (sc: Scene)
    reads w
    ensures sc.objects == w.objects && sc.collections == w.collections && sc.children == w.sceneChildren && sc.materials == w.materials
  {
    Scene(w.objects, w.collections, w.sceneChildren, w.materials)
  }

  /**
   * `OnionSkin(scene, source, offset, index, color, opacity, create)` on the
   * session, lines 171-195; `present` is `bool(skin)`.
   */
  method MakeSkin(w: Session, source: string, p: SlotPlan, start: real, groups: Groups) returns (present: bool)
    requires p.create ==> Ready(SceneOf(w), source)
    modifies w`objects, w`collections, w`sceneChildren, w`materials
    ensures (SceneOf(w), present) == SkinApplied(old(SceneOf(w)), source, p, start, groups)
  {
    // OnionCollection(scene, source)
    var cname := CollectionName(source);
    if cname !in w.collections {
      w.collections := w.collections[cname := OnionColl()];
    }
    w.sceneChildren := Attached(w.sceneChildren, cname);
    var name := SkinName(p.offset, p.index, source);
    if !p.create {
      present := name in w.objects;
      if present {
        w.collections := w.collections[cname := Unlinked(w.collections[cname], name)];
      }
      return;
    }
    var src := w.objects[source];
    var g := if name in w.objects then w.objects[name] else NewGhost(src);
    w.collections := w.collections[cname := Linked(w.collections[cname], name)];
    w.materials := MaterialOpened(w.materials, p.offset, p.index, p.color, p.opacity);
    w.objects := w.objects[name := GhostOf(g, src, p, start, groups)];
    present := true;
  }

  // ---------------------------------------------------------------------
  // The manager
  // ---------------------------------------------------------------------

  /** `OnionSkinManager`: the onion skins of one stop-motion object, as two lists of ghosts (before and after the current frame). */
  class OnionSkinManager {
    /** `stop_motion_object`. */
    const source: string
    /** The object's `onion_skin_settings`, read when the manager is made. */
    const settings: Settings
    /** `objects`: the skins kept on each side, by ghost name and frame offset. */
    var objects: seq<seq<SkinRef>>

    /** `__init__`, lines 256-265: read the settings, then load. */
    constructor (w: Session, source: string, settings: Settings, start: real, groups: Groups)
      requires InBounds(settings) && (settings.enable ==> Ready(SceneOf(w), source))
      modifies w`objects, w`collections, w`sceneChildren, w`materials
      ensures this.source == source && this.settings == settings
      ensures SceneOf(w) == Loaded(old(SceneOf(w)), source, Plans(settings), start, groups, 2 * MAXIMUM)
      ensures objects == Lists(old(SceneOf(w)), Plans(settings), source, 2 * MAXIMUM)
    {
      this.source := source;
      this.settings := settings;
      objects := [[], []];
      new;
      Load(w, start, groups);
    }

    /**
     * `onion_skins_load`, lines 270-287: for each side and each of its ten
     * slots, work out whether to make the slot, its frame offset and its
     * opacity, make the skin, and keep it when it counts.
     */
    method Load(w: Session, start: real, groups: Groups)
      requires InBounds(settings) && (settings.enable ==> Ready(SceneOf(w), source))
      modifies this`objects, w`objects, w`collections, w`sceneChildren, w`materials
      ensures SceneOf(w) == Loaded(old(SceneOf(w)), source, Plans(settings), start, groups, 2 * MAXIMUM)
      ensures objects == Lists(old(SceneOf(w)), Plans(settings), source, 2 * MAXIMUM)
    {
      ghost var sc := SceneOf(w);
      SettingsLoadable(sc, settings, source);
      objects := [[], []];
      var side := 0;
      while side < 2
        invariant 0 <= side <= 2
        invariant LoadedAt(w, sc, start, groups, if side < 2 then Position(side, 0) else 2 * MAXIMUM)
      {
        LoadSide(w, side, start, groups, sc);
        assert Position(side, MAXIMUM) == if side + 1 < 2 then Position(side + 1, 0) else 2 * MAXIMUM;
        side := side + 1;
      }
    }

    /** The session and the lists after the first k slots of a load that started from the scene `sc`. */
    ghost predicate LoadedAt(w: Session, sc: Scene, start: real, groups: Groups, k: nat)
      reads this, w
    {
      InBounds(settings) && Loadable(sc, source, Plans(settings)) && k <= 2 * MAXIMUM &&
      SceneOf(w) == Loaded(sc, source, Plans(settings), start, groups, k) &&
      objects == Lists(sc, Plans(settings), source, k)
    }

    /** The inner loop of `onion_skins_load`, lines 274-287: the ten slots of `side`. */
    method LoadSide(w: Session, side: nat, start: real, groups: Groups, ghost sc: Scene)
      requires side < 2 && LoadedAt(w, sc, start, groups, Position(side, 0))
      modifies this`objects, w`objects, w`collections, w`sceneChildren, w`materials
      ensures LoadedAt(w, sc, start, groups, Position(side, MAXIMUM))
    {
      var index := 0;
      while index < MAXIMUM
        invariant 0 <= index <= MAXIMUM
        invariant LoadedAt(w, sc, start, groups, Position(side, index))
      {
        LoadSlot(w, side, index, start, groups, sc);
        assert Position(side, index) + 1 == Position(side, index + 1);
        index := index + 1;
      }
    }
  
    /** One pass of the inner loop, lines 275-287: slot `index` of `side`. */
    method LoadSlot(w: Session, side: nat, index: nat, start: real, groups: Groups, ghost sc: Scene)
      requires side < 2 && index < MAXIMUM && LoadedAt(w, sc, start, groups, Position(side, index))
      modifies this`objects, w`objects, w`collections, w`sceneChildren, w`materials
      ensures LoadedAt(w, sc, start, groups, Position(side, index) + 1)
    {
      ghost var plans := Plans(settings);
      ghost var k := Position(side, index);
      ghost var lists := objects;
      var p := Plan(settings, side, index);
      PlansAt(settings, side, index);
      assert p.create ==> Ready(SceneOf(w), source);
      assert SkinApplied(Loaded(sc, source, plans, start, groups, k), source, p, start, groups).1 == Kept(sc, plans, source, k) by {
        PlansDistinct(settings, source);
        LoadedStepKept(sc, source, plans, start, groups, k);
      }
      var present := MakeSkin(w, source, p, start, groups);
      var entry := SkinRef(SkinName(p.offset, p.index, source), p.offset);
      assert entry == SlotRef(plans, source, k);
      if present {
        objects := objects[side := objects[side] + [entry]];
      }
      ghost var next := Lists(sc, plans, source, k + 1);
      ListsStep(sc, plans, source, k);
      assert objects[side] == next[side] && objects[1 - side] == next[1 - side];
      assert objects[0] == next[0] && objects[1] == next[1];
    }
  
    /** `refresh`, lines 289-292: every listed ghost, before and then after the current frame, gets its animation again. */
    method Refresh(w: Session, start: real)
      requires |objects| == 2 && Ready(SceneOf(w), source)
      requires forall e :: e in objects[0] + objects[1] ==> e.name in w.objects
      modifies w`objects
      ensures w.objects == Refreshed(old(w.objects), old(w.objects)[source].action.value, objects[0] + objects[1], start)
    {
      var action := w.objects[source].action.value;
      RefreshedAppend(w.objects, action, objects[0], objects[1], start);
      RefreshList(w, objects[0], action, start);
      RefreshList(w, objects[1], action, start);
    }

    /** `onion_skins_unload`, lines 294-297: every listed skin is deleted, which unlinks its ghost from the onion collection. */
    method Unload(w: Session)
      requires |objects| == 2 && CollectionName(source) in w.collections
      modifies w`collections
      ensures w.collections == old(w.collections)[CollectionName(source) := Unloaded(old(w.collections)[CollectionName(source)], objects[0] + objects[1])]
    {
      UnloadedAppend(w.collections[CollectionName(source)], objects[0], objects[1]);
      UnloadList(w, source, objects[0]);
      UnloadList(w, source, objects[1]);
    }
  }

  /** The inner loop of `refresh`, lines 290-292: each skin of one list gets its animation again. */
  method RefreshList(w: Session, items: seq<SkinRef>, action: Action, start: real)
    modifies w`objects
    ensures w.objects == Refreshed(old(w.objects), action, items, start)
  {
    ghost var want := Refreshed(w.objects, action, items, start);
    var j := 0;
    while j < |items|
      invariant 0 <= j <= |items|
      invariant Refreshed(w.objects, action, items[j..], start) == want
    {
      var e := items[j];
      assert items[j..][1..] == items[j + 1..];
      if e.name in w.objects {
        w.objects := w.objects[e.name := Animated(w.objects[e.name], action, e.offset, start)];
      }
      j := j + 1;
    }
  }

  /** The inner loop of `onion_skins_unload`, lines 295-297: each skin of one list is deleted. */
  method UnloadList(w: Session, source: string, items: seq<SkinRef>)
    requires CollectionName(source) in w.collections
    modifies w`collections
    ensures var cname := CollectionName(source);
      w.collections == old(w.collections)[cname := Unloaded(old(w.collections)[cname], items)]
  {
    var cname := CollectionName(source);
    ghost var want := Unloaded(w.collections[cname], items);
    ghost var before := w.collections;
    var j := 0;
    while j < |items|
      invariant 0 <= j <= |items|
      invariant cname in w.collections && w.collections == before[cname := w.collections[cname]]
      invariant Unloaded(w.collections[cname], items[j..]) == want
    {
      assert items[j..][1..] == items[j + 1..];
      w.collections := w.collections[cname := Unlinked(w.collections[cname], items[j].name)];
      j := j + 1;
    }
  }

  /** With the plans of any settings in bounds, every skin the manager lists has its ghost in the loaded scene. */
  lemma SettingsListed(sc: Scene, source: string, s: Settings, start: real, groups: Groups)
    requires InBounds(s) && (s.enable ==> Ready(sc, source))
    ensures var l := Lists(sc, Plans(s), source, 2 * MAXIMUM);
      forall e :: e in l[0] + l[1] ==> e.name in Loaded(sc, source, Plans(s), start, groups, 2 * MAXIMUM).objects
  {
    PlansDistinct(s, source);
    SettingsLoadable(sc, s, source);
    LoadedListed(sc, source, Plans(s), start, groups);
  }

  /** `sync_onion_skins`, lines 301-306: a new manager loads the skins and refreshes them. */
  method SyncOnionSkins(w: Session, source: string, settings: Settings, start: real, groups: Groups)
    requires Ready(SceneOf(w), source) && InBounds(settings)
    modifies w`objects, w`collections, w`sceneChildren, w`materials
    ensures var loaded := Loaded(old(SceneOf(w)), source, Plans(settings), start, groups, 2 * MAXIMUM);
      var lists := Lists(old(SceneOf(w)), Plans(settings), source, 2 * MAXIMUM);
      SceneOf(w) == loaded.(objects := Refreshed(loaded.objects, old(w.objects)[source].action.value, lists[0] + lists[1], start))
  {
    ghost var sc := SceneOf(w);
    ghost var plans := Plans(settings);
    ghost var loaded := Loaded(sc, source, plans, start, groups, 2 * MAXIMUM);
    ghost var lists := Lists(sc, plans, source, 2 * MAXIMUM);
    var manager := new OnionSkinManager(w, source, settings, start, groups);
    assert SceneOf(w) == loaded && manager.objects == lists;
    SettingsListed(sc, source, settings, start, groups);
    manager.Refresh(w, start);
    assert w.objects == Refreshed(loaded.objects, sc.objects[source].action.value, lists[0] + lists[1], start);
  }

  /** `OBJECT_OT_sync_onion_skins.execute`, lines 308-315, on the active object. */
  method SyncExecute(w: Session, settings: Settings, start: real, groups: Groups) returns (s: Status)
    requires w.active.Some? && Ready(SceneOf(w), w.active.value) && InBounds(settings)
    modifies w`objects, w`collections, w`sceneChildren, w`materials
    ensures s == Finished
    ensures var loaded := Loaded(old(SceneOf(w)), old(w.active).value, Plans(settings), start, groups, 2 * MAXIMUM);
      var lists := Lists(old(SceneOf(w)), Plans(settings), old(w.active).value, 2 * MAXIMUM);
      SceneOf(w) == loaded.(objects := Refreshed(loaded.objects, old(w.objects)[old(w.active).value].action.value, lists[0] + lists[1], start))
  {
    SyncOnionSkins(w, w.active.value, settings, start, groups);
    s := Finished;
  }

  /** `onion_property_enable`, lines 320-322: switching onion skins on or off loads the active object's skins. */
  method OnEnable(w: Session, settings: Settings, start: real, groups: Groups)
    requires w.active.Some? && InBounds(settings) && (settings.enable ==> Ready(SceneOf(w), w.active.value))
    modifies w`objects, w`collections, w`sceneChildren, w`materials
    ensures SceneOf(w) == Loaded(old(SceneOf(w)), old(w.active).value, Plans(settings), start, groups, 2 * MAXIMUM)
  {
    var manager := new OnionSkinManager(w, w.active.value, settings, start, groups);
  }

  /** `onion_property_update`, lines 325-329: any other setting reloads the active object's skins, but only while onion skins are on. */
  method OnUpdate(w: Session, settings: Settings, start: real, groups: Groups)
    requires w.active.Some? && InBounds(settings) && (settings.enable ==> Ready(SceneOf(w), w.active.value))
    modifies w`objects, w`collections, w`sceneChildren, w`materials
    ensures !settings.enable ==> SceneOf(w) == old(SceneOf(w))
    ensures settings.enable ==> SceneOf(w) == Loaded(old(SceneOf(w)), old(w.active).value, Plans(settings), start, groups, 2 * MAXIMUM)
  {
    if !settings.enable {
      return;
    }
    var manager := new OnionSkinManager(w, w.active.value, settings, start, groups);
  }
}
