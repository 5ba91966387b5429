/**
 * The keyframe-offset helpers of `scratch.py`: a curve's keyframe points are
 * re-timed against the same curve shifted by `delta` keys and written into a
 * target action, which may first be resized to the source's length.
 */
module Scratch {
  import opened Wrappers
  import opened PyList

  /** A keyframe point's `co`: its frame and its value. */
  datatype Point = Point(x: real, y: real)

  /** What `keyframe_points.add` puts at the end of a curve: a point at the origin. */
  const ADDED := Point(0.0, 0.0)

  /** An action's curves, looked up by data path as `fcurves[data_path]` does; each is its keyframe points in order. */
  class Action {
    var curves: map<string, seq<Point>>

    constructor (curves: map<string, seq<Point>>)
      ensures this.curves == curves
    {
      this.curves := curves;
    }

    /** `Action.copy()`: a new action with the same curves. */
    method Copy() returns (c: Action)
      ensures fresh(c) && c.curves == curves
    {
      c := new Action(curves);
    }
  }

  /** What `offset_points` yields, in order, and the exception that ends it early, if any. */
  datatype Yielded = Yielded(pairs: seq<Point>, error: Option<PyError>)

  /**
   * `offset_points`, lines 28-31: for each point i in turn, its frame with
   * the value of point `i + delta` read with Python indexing; the generator
   * stops with that read's IndexError.
   */
  function OffsetPoints(points: seq<Point>, delta: int): (r: Yielded)
    ensures |r.pairs| <= |points|
    ensures r.error.Some? <==> |r.pairs| < |points|
  {
    OffsetFrom(points, delta, 0)
  }

  /** The rest of `offset_points` from point `i` on. */
  function OffsetFrom(points: seq<Point>, delta: int, i: nat): (r: Yielded)
    requires i <= |points|
    ensures |r.pairs| <= |points| - i
    ensures r.error.Some? <==> |r.pairs| < |points| - i
    decreases |points| - i
  {
    if i == |points| then Yielded([], None)
    else match PyIndex(points, i + delta)
      case Err(e) => Yielded([], Some(e))
      case Ok(q) =>
        var rest := OffsetFrom(points, delta, i + 1);
        Yielded([Point(points[i].x, q.y)] + rest.pairs, rest.error)
  }

  /** How many pairs `offset_points` yields: all of them unless some `i + delta` falls outside the list. */
  function YieldCount(n: nat, delta: int): nat
  {
    if n == 0 then 0
    else if delta > 0 then (if delta < n then n - delta else 0)
    else if delta + n < 0 then 0
    else n
  }

  /** Point k's frame with the value of point `k + delta`, when Python can read that point. */
  function PairAt(points: seq<Point>, delta: int, k: nat): Option<Point>
    requires k < |points|
  {
    match PyIndex(points, k + delta)
    case Ok(q) => Some(Point(points[k].x, q.y))
    case Err(_) => None
  }

  /**
   * From point i on (every earlier read having succeeded), the generator
   * yields `PairAt` of each point in turn, up to `YieldCount` pairs, and
   * if it stops short it stops with IndexError.
   */
  lemma {:induction false} OffsetFromPairs(points: seq<Point>, delta: int, i: nat)
    requires i <= |points| && (i == 0 || i <= YieldCount(|points|, delta))
    ensures var r := OffsetFrom(points, delta, i);
      |r.pairs| == (if YieldCount(|points|, delta) > i then YieldCount(|points|, delta) - i else 0) &&
      (r.error.Some? ==> r.error == Some(IndexError)) &&
      forall k :: i <= k < i + |r.pairs| ==> PairAt(points, delta, k) == Some(r.pairs[k - i])
    decreases |points| - i
  {
    var r := OffsetFrom(points, delta, i);
    if i < |points| && PyIndex(points, i + delta).Ok? {
      var q := PyIndex(points, i + delta).value;
      assert i < YieldCount(|points|, delta);
      OffsetFromPairs(points, delta, i + 1);
      var rest := OffsetFrom(points, delta, i + 1);
      assert r.pairs == [Point(points[i].x, q.y)] + rest.pairs;
      forall k | i <= k < i + |r.pairs|
        ensures PairAt(points, delta, k) == Some(r.pairs[k - i])
      {
        if k > i {
          assert r.pairs[k - i] == rest.pairs[k - (i + 1)];
        }
      }
    } else if i < |points| {
      assert YieldCount(|points|, delta) <= i;
    }
  }

  /** `offset_points` as a whole: exactly `YieldCount` pairs, pair k being `PairAt` of point k; it raises IndexError exactly when that is short of every point. */
  lemma OffsetPointsPairs(points: seq<Point>, delta: int)
    ensures var r := OffsetPoints(points, delta);
      |r.pairs| == YieldCount(|points|, delta) &&
      (r.error.Some? <==> YieldCount(|points|, delta) < |points|) &&
      (r.error.Some? ==> r.error == Some(IndexError)) &&
      forall k :: 0 <= k < |r.pairs| ==> PairAt(points, delta, k) == Some(r.pairs[k])
  {
    OffsetFromPairs(points, delta, 0);
  }

  /** A shift forward past the last point always ends the generator with IndexError: the last point has no point `delta` after it. */
  lemma ForwardShiftRaises(points: seq<Point>, delta: int)
    requires |points| > 0 && delta > 0
    ensures var r := OffsetPoints(points, delta);
      r.error == Some(IndexError) && |r.pairs| == (if delta < |points| then |points| - delta else 0)
  {
    OffsetPointsPairs(points, delta);
  }

  /** Python's reading of an index from `-n` to `n - 1` is the index modulo `n`. */
  lemma WrapIndex(a: int, n: int)
    requires 0 < n && -n <= a < n
    ensures a % n == if a < 0 then a + n else a
  {
    if a < 0 {
      assert a == n * (-1) + (a + n);
    }
  }

  /** A shift back by at most the curve's length wraps round as Python's negative indices do: every point is yielded. */
  lemma BackwardShiftWraps(points: seq<Point>, delta: int)
    requires -|points| <= delta <= 0
    ensures var r := OffsetPoints(points, delta);
      r.error.None? && |r.pairs| == |points| &&
      forall i :: 0 <= i < |points| ==> r.pairs[i] == Point(points[i].x, points[(i + delta) % |points|].y)
  {
    OffsetPointsPairs(points, delta);
    var r := OffsetPoints(points, delta);
    forall i | 0 <= i < |points|
      ensures r.pairs[i] == Point(points[i].x, points[(i + delta) % |points|].y)
    {
      WrapIndex(i + delta, |points|);
      assert PyIndex(points, i + delta) == Ok(points[(i + delta) % |points|]);
      assert PairAt(points, delta, i) == Some(r.pairs[i]);
    }
  }

  /** An action's curves after `offset_action`, and the exception it raised, if any. */
  datatype Outcome = Outcome(curves: map<string, seq<Point>>, error: Option<PyError>)

  /**
   * `offset_action`, lines 34-38: the source curve's pairs overwrite the
   * target curve's keys 0, 1, ... A missing source curve raises KeyError
   * before anything is written; a missing target curve raises KeyError on
   * the first pair; a pair past the target's last key raises IndexError;
   * the generator's own IndexError ends the loop last. Where both curves
   * exist, target key i holds the i-th pair wherever the loop got that far,
   * every later key is as it was, the curve keeps its length, and nothing
   * is raised exactly when every point yields a pair and the target has a
   * key for each.
   */
  function OffsetCurves(source: map<string, seq<Point>>, target: map<string, seq<Point>>, path: string, delta: int): (r: Outcome)
    ensures r.curves.Keys == target.Keys
    ensures forall p :: p in target && p != path ==> r.curves[p] == target[p]
    ensures path !in source ==> r == Outcome(target, Some(KeyError))
    ensures path in source && path in target ==>
      var y := OffsetPoints(source[path], delta);
      |r.curves[path]| == |target[path]| &&
      (forall i :: 0 <= i < |target[path]| ==> r.curves[path][i] == if i < |y.pairs| then y.pairs[i] else target[path][i]) &&
      (r.error.None? <==> |y.pairs| == |source[path]| <= |target[path]|)
  {
    if path !in source then Outcome(target, Some(KeyError))
    else
      var y := OffsetPoints(source[path], delta);
      if path !in target then Outcome(target, if y.pairs == [] then y.error else Some(KeyError))
      else
        var keys := target[path];
        if |y.pairs| <= |keys| then Outcome(target[path := y.pairs + keys[|y.pairs|..]], y.error)
        else Outcome(target[path := y.pairs[..|keys|]], Some(IndexError))
  }

  /**
   * `offset_action`, lines 34-38, with the action as its own target: the
   * generator reads the curve the loop is rewriting, so key i takes the
   * value key `i + delta` holds at that moment (already rewritten when
   * `i + delta` is an earlier key), and keeps its frame. A missing curve
   * raises KeyError before anything is written; a read outside the curve
   * raises IndexError and leaves the earlier keys rewritten.
   */
  function OffsetInPlace(curves: map<string, seq<Point>>, path: string, delta: int): (r: Outcome)
    ensures r.curves.Keys == curves.Keys
    ensures forall p :: p in curves && p != path ==> r.curves[p] == curves[p]
    ensures path !in curves ==> r == Outcome(curves, Some(KeyError))
    ensures path in curves ==> |r.curves[path]| == |curves[path]|
  {
    if path !in curves then Outcome(curves, Some(KeyError))
    else
      var s := ShiftFrom(curves[path], delta, 0);
      Outcome(curves[path := s.0], s.1)
  }

  /** The in-place loop from key i on, over the curve as the earlier passes left it. */
  function ShiftFrom(keys: seq<Point>, delta: int, i: nat): (r: (seq<Point>, Option<PyError>))
    requires i <= |keys|
    ensures |r.0| == |keys|
    ensures r.0[..i] == keys[..i]
    decreases |keys| - i
  {
    if i == |keys| then (keys, None)
    else match PyIndex(keys, i + delta)
      case Err(e) => (keys, Some(e))
      case Ok(q) => ShiftFrom(keys[i := Point(keys[i].x, q.y)], delta, i + 1)
  }

  /**
   * From key i on, with the keys from i on not yet touched and a shift
   * forward (or none), every read lands on an untouched key: the loop
   * writes exactly what the generator over the untouched curve yields.
   */
  lemma {:induction false} ShiftForward(keys: seq<Point>, cur: seq<Point>, delta: int, i: nat)
    requires delta >= 0 && i <= |keys| == |cur| && cur[i..] == keys[i..]
    ensures var r := ShiftFrom(cur, delta, i);
      var y := OffsetFrom(keys, delta, i);
      r.0 == cur[..i] + y.pairs + keys[i + |y.pairs|..] && r.1 == y.error
    decreases |keys| - i
  {
    if i < |keys| {
      assert cur[i] == cur[i..][0] == keys[i];
      if i + delta < |keys| {
        assert cur[i + delta] == cur[i..][delta] == keys[i..][delta] == keys[i + delta];
        var q := keys[i + delta];
        var next := cur[i := Point(keys[i].x, q.y)];
        assert next[i + 1..] == cur[i + 1..] == keys[i + 1..];
        ShiftForward(keys, next, delta, i + 1);
        var rest := OffsetFrom(keys, delta, i + 1);
        assert next[..i + 1] == cur[..i] + [Point(keys[i].x, q.y)];
        assert OffsetFrom(keys, delta, i).pairs == [Point(keys[i].x, q.y)] + rest.pairs;
      } else {
        assert cur == cur[..i] + cur[i..];
      }
    } else {
      assert cur[..i] == cur;
    }
  }

  /** Shifting an action's curve forward onto itself gives what copying it first would: the reads run ahead of the writes. */
  lemma InPlaceForward(curves: map<string, seq<Point>>, path: string, delta: int)
    requires delta >= 0
    ensures OffsetInPlace(curves, path, delta) == OffsetCurves(curves, curves, path, delta)
  {
    if path in curves {
      var keys := curves[path];
      ShiftForward(keys, keys, delta, 0);
      var y := OffsetPoints(keys, delta);
      assert keys[..0] + y.pairs + keys[0 + |y.pairs|..] == y.pairs + keys[|y.pairs|..];
    }
  }

  /**
   * What a curve of keys looks like after being shifted back by `d` keys
   * onto itself: every key keeps its frame, each of the first d keys holds
   * the value of one of the last d (wrapping round), and every later key
   * holds the new value of the key d before it.
   */
  predicate ShiftedBack(keys: seq<Point>, cur: seq<Point>, d: int, upTo: nat)
    requires 0 < d <= |keys| && upTo <= |keys| == |cur|
  {
    forall j :: 0 <= j < upTo ==>
      cur[j].x == keys[j].x &&
      (j < d ==> cur[j].y == keys[|keys| - d + j].y) &&
      (j >= d ==> cur[j].y == cur[j - d].y)
  }

  /** The backward in-place loop from key i on, with the keys before i shifted and the rest untouched. */
  lemma {:induction false} ShiftBackward(keys: seq<Point>, cur: seq<Point>, d: int, i: nat)
    requires 0 < d <= |keys| && i <= |keys| == |cur|
    requires ShiftedBack(keys, cur, d, i)
    requires forall j :: i <= j < |keys| ==> cur[j] == keys[j]
    ensures var r := ShiftFrom(cur, -d, i);
      r.1.None? && ShiftedBack(keys, r.0, d, |keys|)
    decreases |keys| - i
  {
    var n := |keys|;
    if i < n {
      var q;
      if i < d {
        q := cur[n + i - d];
        assert PyIndex(cur, i - d) == Ok(q);
        assert q == keys[n + i - d];
      } else {
        q := cur[i - d];
        assert PyIndex(cur, i - d) == Ok(q);
      }
      var next := cur[i := Point(cur[i].x, q.y)];
      assert ShiftedBack(keys, next, d, i + 1) by {
        forall j | 0 <= j < i + 1
          ensures next[j].x == keys[j].x &&
            (j < d ==> next[j].y == keys[n - d + j].y) &&
            (j >= d ==> next[j].y == next[j - d].y)
        {
          if j < i {
            assert next[j] == cur[j];
            if j >= d {
              assert next[j - d] == cur[j - d];
            }
          }
        }
      }
      ShiftBackward(keys, next, d, i + 1);
    }
  }

  /**
   * Shifting an action's curve back by `d` keys onto itself, with `d` no
   * more than the curve's length, raises nothing and leaves it as
   * `ShiftedBack` says: the wrapped-round last d values repeat along the
   * whole curve, where a copy (`copy_offset`) would give each key the
   * value d keys before it.
   */
  lemma InPlaceBackward(curves: map<string, seq<Point>>, path: string, delta: int)
    requires path in curves && -|curves[path]| <= delta < 0
    ensures var r := OffsetInPlace(curves, path, delta);
      r.error.None? && ShiftedBack(curves[path], r.curves[path], -delta, |curves[path]|)
  {
    var keys := curves[path];
    ShiftBackward(keys, keys, -delta, 0);
  }

  /**
   * `offset_action`, lines 34-38. Between two different actions the target
   * is overwritten as `OffsetCurves` says and the source stays as it was;
   * with the action as its own target it is rewritten as `OffsetInPlace` says.
   */
  method OffsetAction(action: Action, target: Action, path: string, delta: int) returns (err: Option<PyError>)
    modifies target
    ensures action != target ==> Outcome(target.curves, err) == OffsetCurves(old(action.curves), old(target.curves), path, delta)
    ensures action == target ==> Outcome(target.curves, err) == OffsetInPlace(old(target.curves), path, delta)
  {
    if action == target {
      if path !in target.curves {
        return Some(KeyError);
      }
      ghost var want := ShiftFrom(target.curves[path], delta, 0);
      var i := 0;
      while i < |target.curves[path]|
        invariant path in target.curves && target.curves == old(target.curves)[path := target.curves[path]]
        invariant 0 <= i <= |target.curves[path]|
        invariant ShiftFrom(target.curves[path], delta, i) == want
        decreases |target.curves[path]| - i
      {
        var keys := target.curves[path];
        var read := PyIndex(keys, i + delta);
        if read.Err? {
          return Some(read.error);
        }
        target.curves := target.curves[path := keys[i := Point(keys[i].x, read.value.y)]];
        i := i + 1;
      }
      return None;
    }
    if path !in action.curves {
      return Some(KeyError);
    }
    var y := OffsetPoints(action.curves[path], delta);
    if y.pairs != [] && path !in target.curves {
      // the loop's first pass looks the target curve up
      return Some(KeyError);
    }
    if y.pairs == [] {
      assert path in target.curves ==> y.pairs + target.curves[path][0..] == target.curves[path];
      return y.error;
    }
    ghost var keys := target.curves[path];
    var i := 0;
    while i < |y.pairs|
      invariant 0 <= i <= |y.pairs| && i <= |keys|
      invariant path in target.curves && target.curves == old(target.curves)[path := target.curves[path]]
      invariant |target.curves[path]| == |keys|
      invariant forall m :: 0 <= m < |keys| ==> target.curves[path][m] == if m < i then y.pairs[m] else keys[m]
    {
      if i >= |target.curves[path]| {
        assert target.curves[path] == y.pairs[..|keys|];
        return Some(IndexError);
      }
      target.curves := target.curves[path := target.curves[path][i := y.pairs[i]]];
      i := i + 1;
    }
    assert target.curves[path] == y.pairs + keys[|y.pairs|..];
    err := y.error;
  }

  /** `copy_offset`, lines 41-45: the offset is written into a new copy of the action; the action itself is left alone. */
  method CopyOffset(action: Action, path: string, offset: int) returns (target: Action, err: Option<PyError>)
    ensures fresh(target) && action.curves == old(action.curves)
    ensures Outcome(target.curves, err) == OffsetCurves(action.curves, action.curves, path, offset)
  {
    target := action.Copy();
    err := OffsetAction(action, target, path, offset);
  }

  /** `n` keys as `keyframe_points.add(n)` appends them. */
  function Fill(n: nat): (r: seq<Point>)
    ensures |r| == n && forall i :: 0 <= i < n ==> r[i] == ADDED
  {
    seq(n, _ => ADDED)
  }

  /**
   * Lines 52-57: a shorter target grows by the difference at its end; a
   * longer one loses its last keys one by one. Afterwards it has the
   * source's length, every key it had below that length is still in its
   * slot, and the new keys are fresh ones.
   */
  function Resized(keys: seq<Point>, n: nat): (r: seq<Point>)
    ensures |r| == n
    ensures forall i :: 0 <= i < n && i < |keys| ==> r[i] == keys[i]
    ensures forall i :: |keys| <= i < n ==> r[i] == ADDED
  {
    if n > |keys| then keys + Fill(n - |keys|) else keys[..n]
  }

  /**
   * `update_offset`, lines 48-58: both curves are looked up (KeyError when
   * either is missing), the target curve is resized to the source's length,
   * then `offset_action` runs.
   */
  function Updated(source: map<string, seq<Point>>, target: map<string, seq<Point>>, path: string, offset: int): (r: Outcome)
    ensures r.curves.Keys == target.Keys
    ensures path !in source || path !in target ==> r == Outcome(target, Some(KeyError))
  {
    if path !in source || path !in target then Outcome(target, Some(KeyError))
    else OffsetCurves(source, target[path := Resized(target[path], |source[path]|)], path, offset)
  }

  /**
   * With a backward shift no longer than the curve, `update_offset` leaves
   * the target curve exactly as long as the source's, each key i holding
   * point i's frame and the value `offset` keys earlier (wrapping round),
   * and raises nothing.
   */
  lemma UpdatedOffsets(source: map<string, seq<Point>>, target: map<string, seq<Point>>, path: string, offset: int)
    requires path in source && path in target && -|source[path]| <= offset <= 0
    ensures var r := Updated(source, target, path, offset);
      var points := source[path];
      r.error.None? && |r.curves[path]| == |points| &&
      forall i :: 0 <= i < |points| ==> r.curves[path][i] == Point(points[i].x, points[(i + offset) % |points|].y)
  {
    var points := source[path];
    var resized := target[path := Resized(target[path], |points|)];
    BackwardShiftWraps(points, offset);
  }

  /**
   * `update_offset`, lines 48-58: between two different actions as
   * `Updated` says; with the action as its own target nothing is resized
   * and the curve is rewritten as `OffsetInPlace` says.
   */
  method UpdateOffset(action: Action, target: Action, path: string, offset: int) returns (err: Option<PyError>)
    modifies target
    ensures action != target ==> Outcome(target.curves, err) == Updated(old(action.curves), old(target.curves), path, offset)
    ensures action == target ==> Outcome(target.curves, err) == OffsetInPlace(old(target.curves), path, offset)
  {
    if path !in action.curves || path !in target.curves {
      return Some(KeyError);
    }
    var n := |action.curves[path]|;
    var keys := target.curves[path];
    var difference := n - |keys|;
    if difference > 0 {
      target.curves := target.curves[path := keys + Fill(difference)];
    }
    if difference < 0 {
      var i := 0;
      assert keys[..|keys| - 0] == keys;
      while i < -difference
        invariant 0 <= i <= -difference
        invariant target.curves == old(target.curves)[path := keys[..|keys| - i]]
      {
        var last := target.curves[path];
        assert last[..|last| - 1] == keys[..|keys| - (i + 1)];
        target.curves := target.curves[path := last[..|last| - 1]];
        i := i + 1;
      }
    }
    assert target.curves == old(target.curves)[path := Resized(keys, n)];
    err := OffsetAction(action, target, path, offset);
  }
}
