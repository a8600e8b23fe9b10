/**
 * CameraAnimationSystem: a time-ordered list of camera keyframes and the
 * camera pose it gives at any time, interpolated linearly between the two
 * keyframes around that time and held at the first or last pose outside them.
 */
module CameraAnimation {
  import opened VkTypes
  import GameObject

  /** A Keyframe: a time, a position and Euler angles (radians). */
  datatype Keyframe = Keyframe(time: real, position: Vec3, rotation: Vec3)

  /** What the animation writes into the camera's transform. */
  datatype Pose = Pose(position: Vec3, rotation: Vec3)

  function PoseOf(k: Keyframe): Pose
  {
    Pose(k.position, k.rotation)
  }

  function Last(ks: seq<Keyframe>): Keyframe
    requires ks != []
  {
    ks[|ks| - 1]
  }

  predicate SortedByTime(ks: seq<Keyframe>)
  {
    forall i, j :: 0 <= i < j < |ks| ==> ks[i].time <= ks[j].time
  }

  /** No two keyframes share a time, and the list runs forward. */
  predicate StrictlyIncreasing(ks: seq<Keyframe>)
  {
    forall i, j :: 0 <= i < j < |ks| ==> ks[i].time < ks[j].time
  }

  // Sorting by time

  /** The keyframe put in front of the first later one. */
  function Insert(ks: seq<Keyframe>, k: Keyframe): seq<Keyframe>
  {
    if ks == [] then [k]
    else if k.time < ks[0].time then [k] + ks
    else [ks[0]] + Insert(ks[1..], k)
  }

  lemma {:induction false} InsertKeeps(ks: seq<Keyframe>, k: Keyframe)
    ensures multiset(Insert(ks, k)) == multiset(ks) + multiset{k}
  {
    if ks != [] && k.time >= ks[0].time {
      InsertKeeps(ks[1..], k);
      assert ks == [ks[0]] + ks[1..];
    }
  }

  /** A keyframe no later than every keyframe of the list can go in front of it. */
  lemma PrependSorted(k: Keyframe, ks: seq<Keyframe>)
    requires SortedByTime(ks)
    requires forall j :: 0 <= j < |ks| ==> k.time <= ks[j].time
    ensures SortedByTime([k] + ks)
  {
    var r := [k] + ks;
    forall i, j | 0 <= i < j < |r|
      ensures r[i].time <= r[j].time
    {
      assert r[j] == ks[j - 1];
      if i > 0 {
        assert r[i] == ks[i - 1];
      }
    }
  }

  lemma {:induction false} InsertSorts(ks: seq<Keyframe>, k: Keyframe)
    requires SortedByTime(ks)
    ensures SortedByTime(Insert(ks, k))
  {
    if ks == [] {
    } else if k.time < ks[0].time {
      PrependSorted(k, ks);
    } else {
      var rest := Insert(ks[1..], k);
      assert SortedByTime(ks[1..]);
      InsertSorts(ks[1..], k);
      InsertKeeps(ks[1..], k);
      forall j | 0 <= j < |rest|
        ensures ks[0].time <= rest[j].time
      {
        assert rest[j] in multiset(ks[1..]) + multiset{k};
      }
      PrependSorted(ks[0], rest);
    }
  }

  /**
   * std::sort by a.time < b.time: a permutation of the list in which the
   * times never decrease (the order among equal times is unspecified).
   */
  method SortByTime(s: seq<Keyframe>) returns (r: seq<Keyframe>)
    ensures SortedByTime(r) && multiset(r) == multiset(s)
  {
    r := [];
    var i := 0;
    while i < |s|
      invariant i <= |s|
      invariant SortedByTime(r) && multiset(r) == multiset(s[..i])
    {
      InsertKeeps(r, s[i]);
      InsertSorts(r, s[i]);
      assert s[..i + 1] == s[..i] + [s[i]];
      r := Insert(r, s[i]);
      i := i + 1;
    }
    assert s[..i] == s;
  }

  // The pose at a time

  /** The first index from i on whose keyframe is not before the time (|ks| if none). */
  function FirstAtOrAfter(ks: seq<Keyframe>, time: real, i: nat): (r: nat)
    requires i <= |ks|
    ensures i <= r <= |ks|
    ensures r < |ks| ==> ks[r].time >= time
    ensures forall j :: i <= j < r ==> ks[j].time < time
    decreases |ks| - i
  {
    if i == |ks| || ks[i].time >= time then i else FirstAtOrAfter(ks, time, i + 1)
  }

  /** glm::mix: a(1 - t) + bt, componentwise. */
  function Mix(a: Vec3, b: Vec3, t: real): Vec3
  {
    Vec3(a.x * (1.0 - t) + b.x * t, a.y * (1.0 - t) + b.y * t, a.z * (1.0 - t) + b.z * t)
  }

  /** The pose between two keyframes at fraction t of the way from the first. */
  function Between(prev: Keyframe, next: Keyframe, t: real): Pose
  {
    Pose(Mix(prev.position, next.position, t), Mix(prev.rotation, next.rotation, t))
  }

  /**
   * The camera pose at the time: the first pose up to the first keyframe,
   * the last from the last keyframe on, and otherwise the interpolation
   * between the first keyframe not before the time and the one ahead of it.
   */
  function Sample(ks: seq<Keyframe>, time: real): Pose
    requires ks != []
  {
    if time <= ks[0].time then PoseOf(ks[0])
    else if time >= Last(ks).time then PoseOf(Last(ks))
    else
      var n := FirstAtOrAfter(ks, time, 0);
      Between(ks[n - 1], ks[n], (time - ks[n - 1].time) / (ks[n].time - ks[n - 1].time))
  }

  /**
   * Strictly inside the keyframes' span the time lies in (prev.time,
   * next.time] of two neighbouring keyframes, and the interpolation factor
   * is in (0, 1] -- whether or not the list is sorted.
   */
  lemma SampleBracketsTime(ks: seq<Keyframe>, time: real) returns (n: nat, t: real)
    requires ks != [] && ks[0].time < time < Last(ks).time
    ensures 0 < n < |ks| && ks[n - 1].time < time <= ks[n].time
    ensures 0.0 < t <= 1.0
    ensures Sample(ks, time) == Between(ks[n - 1], ks[n], t)
  {
    n := FirstAtOrAfter(ks, time, 0);
    var a, b := ks[n - 1].time, ks[n].time;
    t := (time - a) / (b - a);
    assert time - a <= b - a;
    assert t * (b - a) == time - a;
  }

  /** Interpolating the whole way gives the later keyframe's pose. */
  lemma BetweenAtOne(prev: Keyframe, next: Keyframe)
    ensures Between(prev, next, 1.0) == PoseOf(next)
  {
  }

  /** At a keyframe's own time (times all distinct and increasing) the pose is that keyframe's. */
  lemma SampleAtKeyframe(ks: seq<Keyframe>, i: nat)
    requires StrictlyIncreasing(ks) && i < |ks|
    ensures Sample(ks, ks[i].time) == PoseOf(ks[i])
  {
    var time := ks[i].time;
    if 0 < i < |ks| - 1 {
      assert ks[0].time < time < Last(ks).time;
      var n := FirstAtOrAfter(ks, time, 0);
      assert n == i;
      var den := time - ks[i - 1].time;
      assert den > 0.0;
      assert den / den == 1.0;
      BetweenAtOne(ks[i - 1], ks[i]);
    }
  }

  class CameraAnimationSystem {
    var keyframes: seq<Keyframe>

    /** The keyframes stay sorted by time. */
    predicate Valid()
      reads this
    {
      SortedByTime(keyframes)
    }

    constructor()
      ensures keyframes == [] && Valid()
    {
      keyframes := [];
    }

    /** addKeyframe: the new keyframe joins the list, which is then sorted by time. */
    method AddKeyframe(time: real, position: Vec3, rotation: Vec3)
      modifies this`keyframes
      ensures multiset(keyframes) == multiset(old(keyframes)) + multiset{Keyframe(time, position, rotation)}
      ensures |keyframes| == |old(keyframes)| + 1
      ensures Valid()
    {
      keyframes := keyframes + [Keyframe(time, position, rotation)];
      keyframes := SortByTime(keyframes);
      assert |multiset(keyframes)| == |keyframes|;
    }

    /**
     * update: with no keyframes the camera is left alone; otherwise its
     * translation and rotation take the pose at the time (the scale stays).
     */
    method Update(globalTime: real, camera: GameObject.FrgGameObject)
      modifies camera`transform
      ensures keyframes == [] ==> camera.transform == old(camera.transform)
      ensures keyframes != [] ==>
        (var p := Sample(keyframes, globalTime);
         camera.transform == old(camera.transform).(translation := p.position, rotation := p.rotation))
      ensures keyframes != [] && globalTime <= keyframes[0].time ==>
        camera.transform.translation == keyframes[0].position && camera.transform.rotation == keyframes[0].rotation
      ensures keyframes != [] && keyframes[0].time < globalTime && globalTime >= Last(keyframes).time ==>
        camera.transform.translation == Last(keyframes).position
        && camera.transform.rotation == Last(keyframes).rotation
    {
      if keyframes == [] {
        return;
      }
      if globalTime <= keyframes[0].time {
        camera.transform := camera.transform.(translation := keyframes[0].position, rotation := keyframes[0].rotation);
        return;
      }
      var last := keyframes[|keyframes| - 1];
      if globalTime >= last.time {
        camera.transform := camera.transform.(translation := last.position, rotation := last.rotation);
        return;
      }
      var nextIdx := 0;
      while nextIdx < |keyframes| && keyframes[nextIdx].time < globalTime
        invariant nextIdx <= |keyframes|
        invariant forall j :: 0 <= j < nextIdx ==> keyframes[j].time < globalTime
      {
        nextIdx := nextIdx + 1;
      }
      assert nextIdx == FirstAtOrAfter(keyframes, globalTime, 0);
      var prevFrame := keyframes[nextIdx - 1];
      var nextFrame := keyframes[nextIdx];
      var t := (globalTime - prevFrame.time) / (nextFrame.time - prevFrame.time);
      camera.transform := camera.transform.(translation := Mix(prevFrame.position, nextFrame.position, t),
                                            rotation := Mix(prevFrame.rotation, nextFrame.rotation, t));
    }

    /** getEndTime: 0 with no keyframes, otherwise the latest keyframe time. */
    function GetEndTime(): (r: real)
      reads this
      ensures keyframes == [] ==> r == 0.0
      ensures keyframes != [] ==> exists i :: 0 <= i < |keyframes| && keyframes[i].time == r
      ensures Valid() ==> forall i :: 0 <= i < |keyframes| ==> keyframes[i].time <= r
    {
      if keyframes == [] then 0.0 else Last(keyframes).time
    }
  }
}
