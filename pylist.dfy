/**
 * Python list behaviour the add-on relies on: `s[i]` with negative indices
 * counting from the end, `list.remove(x)` (drops the first equal element), and
 * `sorted()` of texts.
 */
module PyList {
  import opened Wrappers
  import opened Strings

  /** Python's `s[i]`: negative indices count from the end; anything else out of range raises IndexError. */
  function PyIndex<T>(s: seq<T>, i: int): (r: Result<T, PyError>)
    ensures 0 <= i < |s| ==> r == Ok(s[i])
    ensures -|s| <= i < 0 ==> r == Ok(s[|s| + i])
    ensures r.Err? <==> (i >= |s| || i < -|s|)
    ensures r.Err? ==> r.error == IndexError
  {
    if 0 <= i < |s| then Ok(s[i])
    else if -|s| <= i < 0 then Ok(s[|s| + i])
    else Err(IndexError)
  }

  function Count<T(==)>(s: seq<T>, x: T): nat
  {
    if s == [] then 0 else (if s[0] == x then 1 else 0) + Count(s[1..], x)
  }

  /** The position of the first element equal to `x`, if any. */
  function FirstIndex<T(==)>(s: seq<T>, x: T): (r: Option<nat>)
    ensures r.Some? ==> r.value < |s| && s[r.value] == x && x !in s[..r.value]
    ensures r.None? <==> x !in s
  {
    if s == [] then None
    else if s[0] == x then Some(0)
    else match FirstIndex(s[1..], x)
      case None => None
      case Some(k) => assert s[..k + 1] == [s[0]] + s[1..][..k]; Some(k + 1)
  }

  /** The first occurrence is the position `i` holding `x` with no `x` before it. */
  lemma FirstIndexIs<T>(s: seq<T>, x: T, i: nat)
    requires i < |s| && s[i] == x && x !in s[..i]
    ensures FirstIndex(s, x) == Some(i)
  {
    assert x in s;
  }

  /** Python's `s.remove(x)` where a missing `x` is tolerated (the callers only remove what they found). */
  function RemoveFirst<T(==)>(s: seq<T>, x: T): (r: seq<T>)
    ensures |r| == if x in s then |s| - 1 else |s|
  {
    if s == [] then []
    else if s[0] == x then s[1..]
    else [s[0]] + RemoveFirst(s[1..], x)
  }

  /** `RemoveFirst` cuts out exactly the first occurrence and keeps everything else in order; it is a no-op without one. */
  lemma {:induction false} RemoveFirstCutsFirst<T>(s: seq<T>, x: T)
    ensures x !in s ==> RemoveFirst(s, x) == s
    ensures x in s ==>
      (FirstIndex(s, x).Some? &&
       RemoveFirst(s, x) == s[..FirstIndex(s, x).value] + s[FirstIndex(s, x).value + 1..])
  {
    if s != [] && s[0] != x {
      RemoveFirstCutsFirst(s[1..], x);
      if x in s {
        assert x in s[1..];
        var k := FirstIndex(s[1..], x).value;
        assert s[..k + 1] == [s[0]] + s[1..][..k];
        assert s[k + 2..] == s[1..][k + 1..];
      }
    }
  }

  /** Removing one occurrence lowers the count of `x` by one and leaves every other count alone. */
  lemma {:induction false} RemoveFirstCount<T>(s: seq<T>, x: T, y: T)
    ensures Count(RemoveFirst(s, x), y) ==
      if x == y && x in s then Count(s, y) - 1 else Count(s, y)
  {
    if s != [] {
      RemoveFirstCount(s[1..], x, y);
      if s[0] != x {
        assert (([s[0]] + RemoveFirst(s[1..], x))[1..]) == RemoveFirst(s[1..], x);
      }
    }
  }

  lemma {:induction false} CountPositive<T>(s: seq<T>, x: T)
    ensures Count(s, x) > 0 <==> x in s
  {
    if s != [] {
      CountPositive(s[1..], x);
      assert x in s <==> s[0] == x || x in s[1..];
    }
  }

  lemma {:induction false} CountAppend<T>(s: seq<T>, t: seq<T>, x: T)
    ensures Count(s + t, x) == Count(s, x) + Count(t, x)
  {
    if s != [] {
      assert (s + t)[1..] == s[1..] + t;
      CountAppend(s[1..], t, x);
    } else {
      assert s + t == t;
    }
  }

  /** Every element strictly before the next in Python's text order. */
  predicate StrictlySorted(s: seq<string>)
  {
    forall i, j :: 0 <= i < j < |s| ==> Less(s[i], s[j])
  }

  predicate SortedNames(s: seq<string>)
  {
    forall i, j :: 0 <= i < j < |s| ==> LessEq(s[i], s[j])
  }

  /** Places `x` in front of the first element that is not smaller than it, as a stable sort does. */
  function Insert(x: string, s: seq<string>): (r: seq<string>)
    ensures multiset(r) == multiset(s) + multiset{x}
  {
    if s == [] then [x]
    else if !Less(s[0], x) then [x] + s
    else assert s == [s[0]] + s[1..]; [s[0]] + Insert(x, s[1..])
  }

  /** `sorted(names)` for texts, as an insertion sort. */
  function SortNames(s: seq<string>): (r: seq<string>)
    ensures multiset(r) == multiset(s)
  {
    if s == [] then [] else assert s == [s[0]] + s[1..]; Insert(s[0], SortNames(s[1..]))
  }

  lemma {:induction false} InsertSorted(x: string, s: seq<string>)
    requires SortedNames(s)
    ensures SortedNames(Insert(x, s))
  {
    if s != [] && Less(s[0], x) {
      InsertSorted(x, s[1..]);
      var r := Insert(x, s);
      var t := Insert(x, s[1..]);
      assert r == [s[0]] + t;
      forall i, j | 0 <= i < j < |r| ensures LessEq(r[i], r[j]) {
        if i == 0 {
          assert r[j] in multiset(t);
          assert r[j] in multiset(s[1..]) + multiset{x};
          if r[j] != x {
            var k :| 1 <= k < |s| && s[k] == r[j];
          }
        }
      }
    } else if s != [] {
      LessTotal(s[0], x);
      var r := [x] + s;
      forall i, j | 0 <= i < j < |r| ensures LessEq(r[i], r[j]) {
        if i == 0 && j > 1 {
          assert LessEq(s[0], s[j - 1]);
          if x != s[0] && s[0] != s[j - 1] { LessTransitive(x, s[0], s[j - 1]); }
        }
      }
    }
  }

  /** `sorted()` returns its input's names in order. */
  lemma {:induction false} SortNamesSorted(s: seq<string>)
    ensures SortedNames(SortNames(s))
  {
    if s != [] {
      SortNamesSorted(s[1..]);
      InsertSorted(s[0], SortNames(s[1..]));
    }
  }

  /** Sorting names that are already in strictly increasing order changes nothing. */
  lemma {:induction false} SortNamesOfSorted(s: seq<string>)
    requires StrictlySorted(s)
    ensures SortNames(s) == s
  {
    if s != [] {
      SortNamesOfSorted(s[1..]);
      if |s| > 1 {
        LessAsymmetric(s[0], s[1]);
      }
    }
  }
}
