/**
 * Version information and the add-on's naming scheme: the version triple, the
 * breadcrumb tags written into ID properties, and the names of shot objects,
 * frame collections and onion-skin items.
 */
module Version {
  import opened Wrappers
  import opened Strings

  const MAJOR := 0
  const MINOR := 9
  const SUB := 3
  const NAME := "STPMO"
  const ONION := "onion"
  const MAIN_OBJECT := "main"
  const FRAME := "frame"

  function Get(): (v: (int, int, int))
    ensures v == (0, 9, 3)
  {
    (MAJOR, MINOR, SUB)
  }

  function OnionPrefix(): (s: string)
    ensures s == "STPMO_onion_"
  {
    NAME + "_" + ONION + "_"
  }

  /** A value stored in a breadcrumb dictionary. */
  datatype TagValue = TInt(i: int) | TStr(s: string)

  type TagDict = map<string, TagValue>

  /** The custom (ID) properties of a host item that hold dictionaries. */
  type IdProps = map<string, TagDict>

  /** `tag()`: a new (key, dictionary) pair each call, holding the major and minor version. */
  function Tag(): (t: (string, TagDict))
    ensures t.0 == "STPMO"
    ensures t.1.Keys == {"major", "minor"} && t.1["major"] == TInt(0) && t.1["minor"] == TInt(9)
  {
    (NAME, map["major" := TInt(MAJOR), "minor" := TInt(MINOR)])
  }

  /** Every property other than the breadcrumb key is left exactly as it was. */
  predicate OthersKept(item: IdProps, r: IdProps)
  {
    r.Keys == item.Keys + {NAME} && forall k :: k in item && k != NAME ==> r[k] == item[k]
  }

  /** `onion_tag(item)`: stores {major, minor, type: "onion"} under "STPMO", replacing any earlier tag. */
  function OnionTag(item: IdProps): (r: IdProps)
    ensures NAME in r && r[NAME].Keys == {"major", "minor", "type"}
    ensures r[NAME]["major"] == TInt(0) && r[NAME]["minor"] == TInt(9) && r[NAME]["type"] == TStr("onion")
    ensures OthersKept(item, r)
  {
    var t := Tag();
    item[t.0 := t.1["type" := TStr(ONION)]]
  }

  /** `main_tag(item)`: like `onion_tag`, with type "main" and the item's own name. */
  function MainTag(item: IdProps, itemName: string): (r: IdProps)
    ensures NAME in r && r[NAME].Keys == {"major", "minor", "type", "name"}
    ensures r[NAME]["major"] == TInt(0) && r[NAME]["minor"] == TInt(9)
    ensures r[NAME]["type"] == TStr("main") && r[NAME]["name"] == TStr(itemName)
    ensures OthersKept(item, r)
  {
    var t := Tag();
    item[t.0 := t.1["type" := TStr(MAIN_OBJECT)]["name" := TStr(itemName)]]
  }

  /** Everything in a shot name that comes before the index. */
  function FramePrefix(objName: string): string
  {
    NAME + "_" + FRAME + "_" + objName + "_"
  }

  /** `frame_name(index, obj)`: "STPMO_frame_<object name>_<index padded to four digits>". */
  function FrameName(index: int, objName: string): (s: string)
    ensures StartsWith(s, "STPMO_frame_" + objName + "_")
  {
    FramePrefix(objName) + ZeroPad(index, 4)
  }

  /** `collection_name(obj)`: "STPMO_frames_<object name>". */
  function CollectionName(objName: string): (s: string)
    ensures StartsWith(s, "STPMO_frames_") && s[13..] == objName
  {
    NAME + "_" + FRAME + "s_" + objName
  }

  /** Different indices give different shot names (for every index, not only the four-digit ones). */
  lemma FrameNameInjective(i: int, j: int, objName: string)
    ensures FrameName(i, objName) == FrameName(j, objName) <==> i == j
  {
    var p := FramePrefix(objName);
    if FrameName(i, objName) == FrameName(j, objName) {
      assert (p + ZeroPad(i, 4))[|p|..] == ZeroPad(i, 4);
      assert (p + ZeroPad(j, 4))[|p|..] == ZeroPad(j, 4);
      ParseZeroPad(i, 4);
      ParseZeroPad(j, 4);
    }
  }

  /** For indices 0..9999 the text order of shot names is the numeric order of their indices. */
  lemma FrameNameOrder(i: nat, j: nat, objName: string)
    requires i < 10000 && j < 10000
    ensures Less(FrameName(i, objName), FrameName(j, objName)) <==> i < j
  {
    LessCommonPrefix(FramePrefix(objName), ZeroPad(i, 4), ZeroPad(j, 4));
    Pad4Order(i, j);
  }

  /** The order stops matching past four digits: shot 10000 sorts before shot 9999. */
  lemma FrameNameOrderEndsAt10000(objName: string)
    ensures Less(FrameName(10000, objName), FrameName(9999, objName))
  {
    var p := FramePrefix(objName);
    Pad4Shape(9999);
    assert ZeroPad(10000, 4) == Digits(10000);
    assert Digits(10000)[0] == '1' by {
      assert Digits(10000) == Digits(1000) + [DigitChar(0)];
      assert Digits(1000) == Digits(100) + [DigitChar(0)];
      assert Digits(100) == Digits(10) + [DigitChar(0)];
      assert Digits(10) == Digits(1) + [DigitChar(0)];
    }
    assert Less(ZeroPad(10000, 4), ZeroPad(9999, 4));
    LessCommonPrefix(p, ZeroPad(10000, 4), ZeroPad(9999, 4));
  }
}
