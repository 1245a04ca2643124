/** Keyframe series of a skeletal animation (KeyframeSeries.cs): the binary
    search for the keyframe at or below a time, the location and rotation
    series cut out of an imported animation strip, and sampling them at a
    time by interpolating between the two surrounding keyframes. */
module KeyframeSeries {
  import opened Common

  /** An Assimp key: a time stamp and a value (a vector or a quaternion). */
  datatype Key<V> = Key(Time: real, Value: V)

  function KeyTimes<V>(keys: seq<Key<V>>): (ts: seq<real>)
    ensures |ts| == |keys|
    ensures forall i :: 0 <= i < |keys| ==> ts[i] == keys[i].Time
  {
    seq(|keys|, i requires 0 <= i < |keys| => keys[i].Time)
  }

  predicate Increasing(ts: seq<real>)
  {
    forall i, j :: 0 <= i < j < |ts| ==> ts[i] < ts[j]
  }

  /** No two consecutive time stamps coincide, so the interpolation between
      neighbours never divides by zero. */
  predicate AdjacentDistinct(ts: seq<real>)
  {
    forall i :: 0 < i < |ts| ==> ts[i - 1] != ts[i]
  }

  /** r is the keyframe "at or below" t: the last key whose time does not
      exceed t, or the first key when t precedes every key. */
  predicate IsFloorIndex(ts: seq<real>, t: real, r: nat)
  {
    r < |ts| && (r == 0 || ts[r] <= t) && (r == |ts| - 1 || t < ts[r + 1])
  }

  // ------------------------------------------------------- findTimeBelow

  /** The index the binary search of findTimeBelow settles on when its
      window is [lower, upper). */
  function Search(t: real, ts: seq<real>, lower: nat, upper: nat): (r: nat)
    requires lower <= upper <= |ts|
    ensures lower < upper ==> lower <= r < upper
    ensures lower == upper ==> r == lower
    decreases upper - lower
  {
    if lower == upper then lower
    else
      var middle := (lower + upper) / 2;
      if middle == lower then middle
      else if ts[middle] == t then middle
      else if ts[middle] < t then Search(t, ts, middle, upper)
      else Search(t, ts, lower, middle)
  }

  function TimeBelow(t: real, ts: seq<real>): nat
  {
    Search(t, ts, 0, |ts|)
  }

  /** While the window is [lower, upper), everything left of lower is at or
      below t and everything from upper on is above it; so the search ends on
      the floor index. */
  lemma {:induction false} SearchIsFloor(t: real, ts: seq<real>, lower: nat, upper: nat)
    requires Increasing(ts)
    requires lower < upper <= |ts|
    requires lower == 0 || ts[lower] <= t
    requires upper == |ts| || t < ts[upper]
    ensures IsFloorIndex(ts, t, Search(t, ts, lower, upper))
    decreases upper - lower
  {
    var middle := (lower + upper) / 2;
    if middle == lower {
    } else if ts[middle] == t {
    } else if ts[middle] < t {
      SearchIsFloor(t, ts, middle, upper);
    } else {
      SearchIsFloor(t, ts, lower, middle);
    }
  }

  /** On strictly increasing times, findTimeBelow returns the floor index. */
  lemma TimeBelowIsFloor(t: real, ts: seq<real>)
    requires Increasing(ts) && |ts| >= 1
    ensures IsFloorIndex(ts, t, TimeBelow(t, ts))
  {
    SearchIsFloor(t, ts, 0, |ts|);
  }

  /** There is only one floor index, so it is the one findTimeBelow finds. */
  lemma FloorIndexUnique(ts: seq<real>, t: real, r1: nat, r2: nat)
    requires Increasing(ts)
    requires IsFloorIndex(ts, t, r1) && IsFloorIndex(ts, t, r2)
    ensures r1 == r2
  {
    if r1 < r2 {
      assert false;
    } else if r2 < r1 {
      assert false;
    }
  }

  /** A time before the first key selects the first key. */
  lemma TimeBelowBeforeFirst(t: real, ts: seq<real>)
    requires Increasing(ts) && |ts| >= 1 && t < ts[0]
    ensures TimeBelow(t, ts) == 0
  {
    TimeBelowIsFloor(t, ts);
  }

  /** The time of a key selects exactly that key. */
  lemma TimeBelowAtKey(ts: seq<real>, i: nat)
    requires Increasing(ts) && i < |ts|
    ensures TimeBelow(ts[i], ts) == i
  {
    TimeBelowIsFloor(ts[i], ts);
    FloorIndexUnique(ts, ts[i], i, TimeBelow(ts[i], ts));
  }

  /** A later time never selects an earlier key; in particular a clip whose
      start time is not after its end time has its start frame not after its
      end frame. */
  lemma TimeBelowMonotone(t1: real, t2: real, ts: seq<real>)
    requires Increasing(ts) && |ts| >= 1 && t1 <= t2
    ensures TimeBelow(t1, ts) <= TimeBelow(t2, ts)
  {
    TimeBelowIsFloor(t1, ts);
    TimeBelowIsFloor(t2, ts);
  }

  /** findTimeBelow(double, double[]) */
  method FindTimeBelow(t: real, times: seq<real>) returns (r: nat)
    ensures r == TimeBelow(t, times)
    ensures |times| == 0 ==> r == 0
    ensures |times| > 0 ==> r < |times|
  {
    var lower, upper := 0, |times|;
    while lower < upper
      invariant 0 <= lower <= upper <= |times|
      invariant Search(t, times, lower, upper) == TimeBelow(t, times)
      decreases upper - lower
    {
      var middle := (lower + upper) / 2;
      var middleValue := times[middle];
      if middle == lower {
        r := middle;
        break;
      }
      if middleValue == t {
        r := middle;
        break;
      } else if middleValue < t {
        lower := middle;
      } else {
        upper := middle;
      }
    }
    if lower == upper {
      r := lower;
    }
  }

  /** findTimeBelow(double, VectorKey[]) and findTimeBelow(double,
      QuaternionKey[]): the same search on the keys' time stamps. */
  method FindTimeBelowKeys<V>(t: real, keys: seq<Key<V>>) returns (r: nat)
    ensures r == TimeBelow(t, KeyTimes(keys))
    ensures |keys| == 0 ==> r == 0
    ensures |keys| > 0 ==> r < |keys|
  {
    ghost var times := KeyTimes(keys);
    var lower, upper := 0, |keys|;
    while lower < upper
      invariant 0 <= lower <= upper <= |keys|
      invariant Search(t, times, lower, upper) == TimeBelow(t, times)
      decreases upper - lower
    {
      var middle := (lower + upper) / 2;
      var middleValue := keys[middle].Time;
      if middle == lower {
        r := middle;
        break;
      }
      if middleValue == t {
        r := middle;
        break;
      } else if middleValue < t {
        lower := middle;
      } else {
        upper := middle;
      }
    }
    if lower == upper {
      r := lower;
    }
  }

  // ------------------------------------------------------------ sampling

  /** What getFrameAtTime draws on: a single stored keyframe, or the blend
      of keyframe `before` and the next one by `factor`. */
  datatype Sample = At(index: nat) | Between(before: nat, factor: real)

  function Choose(times: seq<real>, t: real): (s: Sample)
    requires |times| >= 1 && AdjacentDistinct(times)
    ensures s.At? ==> s.index < |times|
    ensures s.Between? ==> s.before + 1 < |times|
  {
    if |times| == 1 then At(0)
    else
      var before := TimeBelow(t, times);
      if before >= |times| - 1 then At(before)
      else Between(before, (t - times[before]) / (times[before + 1] - times[before]))
  }

  /** Between the first and the last key, a sample blends the two keys that
      surround t with a factor in [0, 1); from the last key on it holds the
      last keyframe. */
  lemma ChooseWithinClip(times: seq<real>, t: real)
    requires |times| >= 1 && Increasing(times) && times[0] <= t
    ensures AdjacentDistinct(times)
    ensures t >= times[|times| - 1] ==> Choose(times, t) == At(|times| - 1)
    ensures t < times[|times| - 1] ==>
      var s := Choose(times, t);
      s.Between? && times[s.before] <= t < times[s.before + 1] && 0.0 <= s.factor < 1.0
  {
    if |times| > 1 {
      TimeBelowIsFloor(t, times);
      var b := TimeBelow(t, times);
      if b < |times| - 1 {
        FractionBounds(t - times[b], times[b + 1] - times[b]);
      }
    }
  }

  /** Sampling exactly at a key's time gives that key, unblended. */
  lemma ChooseAtKey(times: seq<real>, i: nat)
    requires Increasing(times) && i < |times|
    ensures AdjacentDistinct(times)
    ensures Choose(times, times[i]) == if i == |times| - 1 then At(i) else Between(i, 0.0)
  {
    if |times| > 1 {
      TimeBelowAtKey(times, i);
    }
  }

  /** The frame bounds of a clip within an animation strip, as the
      constructors compute them with LEEWAY. */
  function StartFrame<V>(keys: seq<Key<V>>, startTime: real, leeway: real): nat
  {
    TimeBelow(startTime + leeway, KeyTimes(keys))
  }

  function EndFrame<V>(keys: seq<Key<V>>, endTime: real, leeway: real): nat
  {
    TimeBelow(endTime + leeway, KeyTimes(keys))
  }

  /** On an imported strip, a clip that starts no later than it ends is cut
      to a non-empty range of frames. */
  lemma ClipFramesOrdered<V>(keys: seq<Key<V>>, startTime: real, endTime: real, leeway: real)
    requires |keys| >= 1 && Increasing(KeyTimes(keys)) && startTime <= endTime
    ensures StartFrame(keys, startTime, leeway) <= EndFrame(keys, endTime, leeway)
  {
    TimeBelowMonotone(startTime + leeway, endTime + leeway, KeyTimes(keys));
  }

  /** The number of array slots the constructors allocate: the clip's frames
      plus one for wrapping when it starts and ends on different frames. It
      is zero or negative when the start frame lies past the end frame. */
  function Slots<V>(keys: seq<Key<V>>, startTime: real, endTime: real, wrap: bool, leeway: real): int
  {
    var s := StartFrame(keys, startTime, leeway);
    var e := EndFrame(keys, endTime, leeway);
    e - s + 1 + (if wrap && s != e then 1 else 0)
  }

  /** The exception a constructor throws, if any: allocating arrays of
      negative size, reading the first key of an empty strip, or reading the
      last time of an empty array. */
  function CutFailure<V>(keys: seq<Key<V>>, startTime: real, endTime: real, wrap: bool, leeway: real): Option<Error>
  {
    var n := Slots(keys, startTime, endTime, wrap, leeway);
    if n < 0 then Some(Overflow)
    else if |keys| == 0 || n == 0 then Some(IndexOutOfRange)
    else None
  }

  /** When the constructors throw, by the start and end frames: an empty
      strip always throws; a start frame at or before the end frame never
      does; one just past the end frame throws only without wrapping (with
      wrapping the one slot is allocated and left unfilled); one further
      past always throws. */
  lemma CutOutcome<V>(keys: seq<Key<V>>, startTime: real, endTime: real, wrap: bool, leeway: real)
    ensures var s := StartFrame(keys, startTime, leeway);
      var e := EndFrame(keys, endTime, leeway);
      var r := CutFailure(keys, startTime, endTime, wrap, leeway);
      (|keys| == 0 ==> r == Some(IndexOutOfRange)) &&
      (|keys| >= 1 && s <= e ==> r == None) &&
      (|keys| >= 1 && s == e + 1 ==> r == if wrap then None else Some(IndexOutOfRange)) &&
      (s == e + 2 ==> r == if wrap then Some(IndexOutOfRange) else Some(Overflow)) &&
      (s > e + 2 ==> r == Some(Overflow))
  {
  }

  /** On the inputs for which the constructors do not throw, the strip has
      a key, and a start frame past the end frame is one past it, with
      wrapping on. */
  lemma CutAllowed<V>(keys: seq<Key<V>>, startTime: real, endTime: real, wrap: bool, leeway: real)
    requires CutFailure(keys, startTime, endTime, wrap, leeway).None?
    ensures |keys| >= 1
    ensures StartFrame(keys, startTime, leeway) > EndFrame(keys, endTime, leeway) ==>
      StartFrame(keys, startTime, leeway) == EndFrame(keys, endTime, leeway) + 1 && wrap
  {
    CutOutcome(keys, startTime, endTime, wrap, leeway);
  }

  /** The arrays the RotationKeyframes constructor fills: frames
      startFrame..endFrame with rebased times and, when wrapping, the first
      keyframe again one time step after the last. */
  method CutRotations(rotations: seq<Key<Quat>>, startFrame: nat, endFrame: nat, wrap: bool)
    returns (ks: array<Quat>, ts: array<real>)
    requires startFrame <= endFrame < |rotations|
    ensures fresh(ks) && fresh(ts)
    ensures IsRotationCut(ks[..], ts[..], rotations, startFrame, endFrame - startFrame + 1, wrap)
  {
    var wrapAdd := if wrap && startFrame != endFrame then 1 else 0;
    var numFrames := endFrame - startFrame + 1;
    ks := new Quat[numFrames + wrapAdd];
    ts := new real[numFrames + wrapAdd];
    var start := rotations[startFrame].Time;
    for i := 0 to numFrames
      invariant ts[..i] == RebasedTimes(rotations, startFrame, numFrames)[..i]
      invariant ks[..i] == KeyValues(rotations, startFrame, numFrames)[..i]
    {
      ts[i] := rotations[startFrame + i].Time - start;
      ks[i] := rotations[startFrame + i].Value;
    }
    assert ts[..numFrames] == RebasedTimes(rotations, startFrame, numFrames);
    assert ks[..numFrames] == KeyValues(rotations, startFrame, numFrames);
    if wrap && numFrames > 1 {
      ghost var prefix := ts[..numFrames];
      var timeStep := ts[1] - ts[0];
      ks[numFrames] := ks[0];
      ts[numFrames] := ts[numFrames - 1] + timeStep;
      assert ts[..numFrames] == prefix;
    }
    assert ts[..][..numFrames] == ts[..numFrames] && ks[..][..numFrames] == ks[..numFrames];
  }

  /** The arrays the LocationKeyframes constructor fills: as for rotations,
      except that the wrapping slot keeps its default value. */
  method CutLocations(locations: seq<Key<Vec3>>, startFrame: nat, endFrame: nat, wrap: bool)
    returns (ks: array<Vec3>, ts: array<real>)
    requires startFrame <= endFrame < |locations|
    ensures fresh(ks) && fresh(ts)
    ensures IsLocationCut(ks[..], ts[..], locations, startFrame, endFrame - startFrame + 1, wrap)
  {
    var wrapAdd := if wrap && startFrame != endFrame then 1 else 0;
    var numFrames := endFrame - startFrame + 1;
    ks := new Vec3[numFrames + wrapAdd](_ => Zero3);
    ts := new real[numFrames + wrapAdd](_ => 0.0);
    var start := locations[startFrame].Time;
    for i := 0 to numFrames
      invariant ts[..i] == RebasedTimes(locations, startFrame, numFrames)[..i]
      invariant ks[..i] == KeyValues(locations, startFrame, numFrames)[..i]
      invariant forall k :: numFrames <= k < ts.Length ==> ts[k] == 0.0 && ks[k] == Zero3
    {
      ts[i] := locations[startFrame + i].Time - start;
      ks[i] := locations[startFrame + i].Value;
    }
    assert ts[..numFrames] == RebasedTimes(locations, startFrame, numFrames);
    assert ks[..numFrames] == KeyValues(locations, startFrame, numFrames);
    assert ts[..][..numFrames] == ts[..numFrames] && ks[..][..numFrames] == ks[..numFrames];
  }

  /** The values the RotationKeyframes constructor stores: the cut of the
      clip's frames or, for a wrapping start frame just past the end frame,
      the single unfilled slot. */
  method CutRotationSeries(rotations: seq<Key<Quat>>, startTime: real, endTime: real, wrap: bool, leeway: real)
    returns (keyframes: seq<Quat>, times: seq<real>, ghost first: nat, ghost count: nat)
    requires CutFailure(rotations, startTime, endTime, wrap, leeway).None?
    ensures |keyframes| == |times| >= 1
    ensures StartFrame(rotations, startTime, leeway) <= EndFrame(rotations, endTime, leeway) ==>
      first == StartFrame(rotations, startTime, leeway) &&
      count == EndFrame(rotations, endTime, leeway) - first + 1 &&
      IsRotationCut(keyframes, times, rotations, first, count, wrap)
    ensures StartFrame(rotations, startTime, leeway) > EndFrame(rotations, endTime, leeway) ==>
      StartFrame(rotations, startTime, leeway) == EndFrame(rotations, endTime, leeway) + 1 && wrap &&
      keyframes == [Quat(0.0, 0.0, 0.0, 0.0)] && times == [0.0]
    ensures Increasing(KeyTimes(rotations)) ==> Increasing(times) && AdjacentDistinct(times)
  {
    CutAllowed(rotations, startTime, endTime, wrap, leeway);
    var startFrame := FindTimeBelowKeys(startTime + leeway, rotations);
    var endFrame := FindTimeBelowKeys(endTime + leeway, rotations);
    if startFrame > endFrame {
      // only the wrapping slot is allocated, and nothing fills it
      return [Quat(0.0, 0.0, 0.0, 0.0)], [0.0], startFrame, 0;
    }
    var ks, ts := CutRotations(rotations, startFrame, endFrame, wrap);
    keyframes, times := ks[..], ts[..];
    first, count := startFrame, endFrame - startFrame + 1;
    if Increasing(KeyTimes(rotations)) {
      WrappedRotationsIncreasing(rotations, first, count, times);
    }
  }

  /** The values the LocationKeyframes constructor stores: the cut of the
      clip's frames or, for a wrapping start frame just past the end frame,
      the single unfilled slot. */
  method CutLocationSeries(locations: seq<Key<Vec3>>, startTime: real, endTime: real, wrap: bool, leeway: real)
    returns (keyframes: seq<Vec3>, times: seq<real>, ghost first: nat, ghost count: nat)
    requires CutFailure(locations, startTime, endTime, wrap, leeway).None?
    ensures |keyframes| == |times| >= 1
    ensures StartFrame(locations, startTime, leeway) <= EndFrame(locations, endTime, leeway) ==>
      first == StartFrame(locations, startTime, leeway) &&
      count == EndFrame(locations, endTime, leeway) - first + 1 &&
      IsLocationCut(keyframes, times, locations, first, count, wrap)
    ensures StartFrame(locations, startTime, leeway) > EndFrame(locations, endTime, leeway) ==>
      StartFrame(locations, startTime, leeway) == EndFrame(locations, endTime, leeway) + 1 && wrap &&
      keyframes == [Zero3] && times == [0.0]
    ensures Increasing(KeyTimes(locations)) ==> AdjacentDistinct(times)
  {
    CutAllowed(locations, startTime, endTime, wrap, leeway);
    var startFrame := FindTimeBelowKeys(startTime + leeway, locations);
    var endFrame := FindTimeBelowKeys(endTime + leeway, locations);
    if startFrame > endFrame {
      // only the wrapping slot is allocated, and nothing fills it
      return [Zero3], [0.0], startFrame, 0;
    }
    var ks, ts := CutLocations(locations, startFrame, endFrame, wrap);
    keyframes, times := ks[..], ts[..];
    first, count := startFrame, endFrame - startFrame + 1;
    if Increasing(KeyTimes(locations)) {
      WrappedLocationsDistinct(locations, first, count, times);
    }
  }

  /** The rotation times of a clip keep the strip's order, including the
      repeated first keyframe one time step after the last. */
  lemma WrappedRotationsIncreasing(keys: seq<Key<Quat>>, first: nat, count: nat, times: seq<real>)
    requires 1 <= count && first + count <= |keys| && Increasing(KeyTimes(keys))
    requires count <= |times| <= count + 1
    requires times[..count] == RebasedTimes(keys, first, count)
    requires |times| == count + 1 ==> count > 1 && times[count] == times[count - 1] + (times[1] - times[0])
    ensures Increasing(times) && AdjacentDistinct(times)
  {
    RebasedIncreasing(keys, first, count);
    if |times| == count + 1 {
      assert times[..count][0] < times[..count][1];
      assert times == times[..count] + [times[count]];
      AppendIncreasing(times[..count], times[count]);
    } else {
      assert times == times[..count];
    }
  }

  /** The location times of a clip keep the strip's order; the unfilled
      wrapping slot (time 0) still differs from the last real key's time. */
  lemma WrappedLocationsDistinct(keys: seq<Key<Vec3>>, first: nat, count: nat, times: seq<real>)
    requires 1 <= count && first + count <= |keys| && Increasing(KeyTimes(keys))
    requires count <= |times| <= count + 1
    requires times[..count] == RebasedTimes(keys, first, count)
    requires |times| == count + 1 ==> count > 1 && times[count] == 0.0
    ensures AdjacentDistinct(times)
  {
    RebasedIncreasing(keys, first, count);
    var prefix := times[..count];
    forall i | 0 < i < count
      ensures times[i - 1] != times[i]
    {
      assert times[i - 1] == prefix[i - 1] && times[i] == prefix[i];
    }
    if |times| == count + 1 {
      assert prefix[0] < prefix[count - 1];
    }
  }

  // -------------------------------------------------------------- series

  /** The time stamps of keys first..first+count-1, rebased so that the
      first of them is at time 0. */
  function RebasedTimes<V>(keys: seq<Key<V>>, first: nat, count: nat): (ts: seq<real>)
    requires 1 <= count && first + count <= |keys|
    ensures |ts| == count && ts[0] == 0.0
  {
    seq(count, i requires 0 <= i < count => keys[first + i].Time - keys[first].Time)
  }

  function KeyValues<V>(keys: seq<Key<V>>, first: nat, count: nat): (vs: seq<V>)
    requires first + count <= |keys|
    ensures |vs| == count
  {
    seq(count, i requires 0 <= i < count => keys[first + i].Value)
  }

  /** Rebasing keeps the keys' order. */
  lemma RebasedIncreasing<V>(keys: seq<Key<V>>, first: nat, count: nat)
    requires 1 <= count && first + count <= |keys|
    requires Increasing(KeyTimes(keys))
    ensures Increasing(RebasedTimes(keys, first, count))
  {
    var kt := KeyTimes(keys);
    var ts := RebasedTimes(keys, first, count);
    forall i, j | 0 <= i < j < count
      ensures ts[i] < ts[j]
    {
      assert kt[first + i] < kt[first + j];
    }
  }

  /** Appending a time after the last one keeps an increasing sequence
      increasing. */
  lemma AppendIncreasing(ts: seq<real>, x: real)
    requires Increasing(ts) && |ts| >= 1 && ts[|ts| - 1] < x
    ensures Increasing(ts + [x])
  {
  }

  lemma IncreasingDistinct(ts: seq<real>)
    requires Increasing(ts)
    ensures AdjacentDistinct(ts)
  {
  }

  // -------------------------------------------------------------- series

  /** The arrays cut from a strip of rotation keys: frames first..first +
      count - 1 with their times rebased to start at 0 and, when wrapping a
      clip of more than one frame, the first rotation repeated one time step
      after the last. */
  ghost predicate IsRotationCut(keyframes: seq<Quat>, times: seq<real>, rotations: seq<Key<Quat>>, first: nat, count: nat, wrap: bool)
  {
    1 <= count && first + count <= |rotations| &&
    |keyframes| == |times| == count + (if wrap && count > 1 then 1 else 0) &&
    times[..count] == RebasedTimes(rotations, first, count) &&
    keyframes[..count] == KeyValues(rotations, first, count) &&
    (wrap && count > 1 ==>
      keyframes[count] == keyframes[0] && times[count] == times[count - 1] + (times[1] - times[0]))
  }

  /** The same for locations, except that the slot reserved for wrapping
      keeps the zero vector at time 0. */
  ghost predicate IsLocationCut(keyframes: seq<Vec3>, times: seq<real>, locations: seq<Key<Vec3>>, first: nat, count: nat, wrap: bool)
  {
    1 <= count && first + count <= |locations| &&
    |keyframes| == |times| == count + (if wrap && count > 1 then 1 else 0) &&
    times[..count] == RebasedTimes(locations, first, count) &&
    keyframes[..count] == KeyValues(locations, first, count) &&
    (wrap && count > 1 ==> keyframes[count] == Zero3 && times[count] == 0.0)
  }

  /** What the RotationKeyframes constructor builds from a strip of keys:
      the frames startFrame..endFrame (inclusive), cut as above; Length is
      the last time. */
  ghost predicate IsRotationClip(s: RotationKeyframes, rotations: seq<Key<Quat>>, startTime: real, endTime: real, wrap: bool, leeway: real)
  {
    s.first == StartFrame(rotations, startTime, leeway) &&
    s.count == EndFrame(rotations, endTime, leeway) - s.first + 1 &&
    IsRotationCut(s.keyframes, s.times, rotations, s.first, s.count, wrap) &&
    s.Length == s.times[|s.times| - 1]
  }

  /** What the LocationKeyframes constructor builds: as for rotations; the
      unfilled wrapping slot makes Length 0. */
  ghost predicate IsLocationClip(s: LocationKeyframes, locations: seq<Key<Vec3>>, startTime: real, endTime: real, wrap: bool, leeway: real)
  {
    s.first == StartFrame(locations, startTime, leeway) &&
    s.count == EndFrame(locations, endTime, leeway) - s.first + 1 &&
    IsLocationCut(s.keyframes, s.times, locations, s.first, s.count, wrap) &&
    s.Length == s.times[|s.times| - 1]
  }

  /** What a constructor leaves when the start frame lies just past the end
      frame and the clip wraps: the one slot allocated for wrapping, never
      filled, holds the default value at time 0, and Length is 0. */
  ghost predicate RotationsCut(s: RotationKeyframes, rotations: seq<Key<Quat>>, startTime: real, endTime: real, wrap: bool, leeway: real)
  {
    if StartFrame(rotations, startTime, leeway) <= EndFrame(rotations, endTime, leeway)
    then IsRotationClip(s, rotations, startTime, endTime, wrap, leeway)
    else s.keyframes == [Quat(0.0, 0.0, 0.0, 0.0)] && s.times == [0.0] && s.Length == 0.0
  }

  ghost predicate LocationsCut(s: LocationKeyframes, locations: seq<Key<Vec3>>, startTime: real, endTime: real, wrap: bool, leeway: real)
  {
    if StartFrame(locations, startTime, leeway) <= EndFrame(locations, endTime, leeway)
    then IsLocationClip(s, locations, startTime, endTime, wrap, leeway)
    else s.keyframes == [Zero3] && s.times == [0.0] && s.Length == 0.0
  }

  /** new RotationKeyframes(...), with the exception it throws. */
  method NewRotationKeyframes(rotations: seq<Key<Quat>>, startTime: real, endTime: real, wrap: bool, leeway: real)
    returns (r: Result<RotationKeyframes>)
    ensures r.Failure() == CutFailure(rotations, startTime, endTime, wrap, leeway)
    ensures r.Ok? ==> fresh(r.value) && RotationsCut(r.value, rotations, startTime, endTime, wrap, leeway)
  {
    var failure := CutFailure(rotations, startTime, endTime, wrap, leeway);
    if failure.Some? {
      return Err(failure.value);
    }
    var series := new RotationKeyframes(rotations, startTime, endTime, wrap, leeway);
    return Ok(series);
  }

  /** new LocationKeyframes(...), with the exception it throws. */
  method NewLocationKeyframes(locations: seq<Key<Vec3>>, startTime: real, endTime: real, wrap: bool, leeway: real)
    returns (r: Result<LocationKeyframes>)
    ensures r.Failure() == CutFailure(locations, startTime, endTime, wrap, leeway)
    ensures r.Ok? ==> fresh(r.value) && LocationsCut(r.value, locations, startTime, endTime, wrap, leeway)
  {
    var failure := CutFailure(locations, startTime, endTime, wrap, leeway);
    if failure.Some? {
      return Err(failure.value);
    }
    var series := new LocationKeyframes(locations, startTime, endTime, wrap, leeway);
    return Ok(series);
  }

  /** RotationKeyframes: the rotations of one bone over a clip. */
  class RotationKeyframes {
    const keyframes: seq<Quat>
    const times: seq<real>
    const Length: real
    /** The clip's first frame and its number of frames in the strip. */
    ghost const first: nat
    ghost const count: nat

    predicate Valid()
    {
      |keyframes| == |times| >= 1 && AdjacentDistinct(times)
    }

    /** Cuts frames startFrame..endFrame out of the strip, rebases their
        times to start at 0 and, when wrapping, repeats the first keyframe one
        time step after the last. */
    constructor (rotations: seq<Key<Quat>>, startTime: real, endTime: real, wrap: bool, leeway: real)
      requires CutFailure(rotations, startTime, endTime, wrap, leeway).None?
      ensures RotationsCut(this, rotations, startTime, endTime, wrap, leeway)
      ensures Increasing(KeyTimes(rotations)) ==> Increasing(times) && Valid()
    {
      var ks, ts, start, n := CutRotationSeries(rotations, startTime, endTime, wrap, leeway);
      first, count := start, n;
      keyframes, times := ks, ts;
      Length := ts[|ts| - 1];
    }

    /** The rotation matrix at time t. */
    function FrameAt(t: real): Matrix
      requires Valid()
    {
      match Choose(times, t)
      case At(i) => RotationMatrix(keyframes[i])
      case Between(b, f) => RotationMatrix(Slerp(keyframes[b], keyframes[b + 1], f))
    }

    method GetFrameAtTime(t: real) returns (m: Matrix)
      requires Valid()
      ensures m == FrameAt(t)
    {
      if |keyframes| == 1 {
        return RotationMatrix(keyframes[0]);
      }
      var frameBefore := FindTimeBelow(t, times);
      if frameBefore >= |keyframes| - 1 {
        return RotationMatrix(keyframes[frameBefore]);
      }
      var frameAfter := frameBefore + 1;
      var timeBefore := times[frameBefore];
      var timeAfter := times[frameAfter];
      var blendFactor := (t - timeBefore) / (timeAfter - timeBefore);
      m := RotationMatrix(Slerp(keyframes[frameBefore], keyframes[frameAfter], blendFactor));
    }
  }

  /** LocationKeyframes: the translations of one bone over a clip. Unlike the
      rotation series, the slot reserved for wrapping is never filled, so it
      keeps the zero vector at time 0 and the series' Length is then 0. */
  class LocationKeyframes {
    const keyframes: seq<Vec3>
    const times: seq<real>
    const Length: real
    ghost const first: nat
    ghost const count: nat

    predicate Valid()
    {
      |keyframes| == |times| >= 1 && AdjacentDistinct(times)
    }

    constructor (locations: seq<Key<Vec3>>, startTime: real, endTime: real, wrap: bool, leeway: real)
      requires CutFailure(locations, startTime, endTime, wrap, leeway).None?
      ensures LocationsCut(this, locations, startTime, endTime, wrap, leeway)
      ensures Increasing(KeyTimes(locations)) ==> Valid()
    {
      var ks, ts, start, n := CutLocationSeries(locations, startTime, endTime, wrap, leeway);
      first, count := start, n;
      keyframes, times := ks, ts;
      Length := ts[|ts| - 1];
    }

    /** The translation matrix at time t. */
    function FrameAt(t: real): Matrix
      requires Valid()
    {
      match Choose(times, t)
      case At(i) => TranslationMatrix(keyframes[i])
      case Between(b, f) => TranslationMatrix(Lerp(keyframes[b], keyframes[b + 1], f))
    }

    method GetFrameAtTime(t: real) returns (m: Matrix)
      requires Valid()
      ensures m == FrameAt(t)
    {
      if |keyframes| == 1 {
        return TranslationMatrix(keyframes[0]);
      }
      var frameBefore := FindTimeBelow(t, times);
      if frameBefore >= |keyframes| - 1 {
        return TranslationMatrix(keyframes[frameBefore]);
      }
      var frameAfter := frameBefore + 1;
      var timeBefore := times[frameBefore];
      var timeAfter := times[frameAfter];
      var blendFactor := (t - timeBefore) / (timeAfter - timeBefore);
      m := TranslationMatrix(Lerp(keyframes[frameBefore], keyframes[frameAfter], blendFactor));
    }
  }

  /** Sampling a location series exactly at one of its key times (other than
      the last) yields that key's translation. */
  lemma LocationAtKey(s: LocationKeyframes, i: nat)
    requires Increasing(s.times) && |s.keyframes| == |s.times| && i < |s.times|
    ensures s.Valid()
    ensures s.FrameAt(s.times[i]) == TranslationMatrix(s.keyframes[i])
  {
    ChooseAtKey(s.times, i);
    if |s.times| > 1 && i < |s.times| - 1 {
      var k := s.keyframes[i];
      assert Lerp(k, s.keyframes[i + 1], 0.0) == k;
    }
  }

  /** LocRotKeyframes: the location and rotation series of one bone. */
  class LocRotKeyframes {
    const Length: real
    const BoneID: int
    const BoneName: string
    const rotations: RotationKeyframes
    const translations: LocationKeyframes

    predicate Valid()
    {
      rotations.Valid() && translations.Valid()
    }

    constructor (loc: LocationKeyframes, rots: RotationKeyframes, boneName: string, boneID: int)
      ensures translations == loc && rotations == rots
      ensures BoneID == boneID && BoneName == boneName
      ensures Length >= loc.Length && Length >= rots.Length
      ensures Length == loc.Length || Length == rots.Length
    {
      translations := loc;
      rotations := rots;
      BoneID := boneID;
      BoneName := boneName;
      Length := Max(loc.Length, rots.Length);
    }

    method GetFrameAtTime(t: real) returns (location: Matrix, rotation: Matrix)
      requires Valid()
      ensures location == translations.FrameAt(t)
      ensures rotation == rotations.FrameAt(t)
    {
      location := translations.GetFrameAtTime(t);
      rotation := rotations.GetFrameAtTime(t);
    }
  }
}
