/** AnimationClip: the keyframe channels of one named clip, one slot per bone
    of the skeleton, and its duration; and the posing of a skeleton at a
    time within the clip. */
module Animation {
  import opened Common
  import opened KeyframeSeries
  import opened Armature

  /** The keys that an imported animation strip holds for one node. */
  datatype NodeFrames = NodeFrames(NodeName: string, RotationKeys: seq<Key<Quat>>, LocationKeys: seq<Key<Vec3>>)

  /** A named clip of the strip: its time range and whether it loops. */
  datatype AnimationCue = AnimationCue(Name: string, StartTime: real, EndTime: real, Wrap: bool)

  /** Keys as the importer delivers them: strictly increasing times. */
  predicate Imported(f: NodeFrames)
  {
    Increasing(KeyTimes(f.RotationKeys)) && Increasing(KeyTimes(f.LocationKeys))
  }

  /** The exception thrown while cutting the channel of one frame set: the
      rotation series is cut first, then the location series. */
  function ChannelFailure(f: NodeFrames, cue: AnimationCue, leeway: real): Option<Error>
  {
    var rot := CutFailure(f.RotationKeys, cue.StartTime, cue.EndTime, cue.Wrap, leeway);
    if rot.Some? then rot else CutFailure(f.LocationKeys, cue.StartTime, cue.EndTime, cue.Wrap, leeway)
  }

  /** The exception the AnimationClip constructor throws, if any: that of
      the first frame set of a known bone whose channel cannot be cut. */
  function ClipFailure(allFrames: seq<NodeFrames>, cue: AnimationCue, boneDict: map<string, nat>, leeway: real): Option<Error>
    decreases |allFrames|
  {
    if allFrames == [] then None
    else
      var prior := ClipFailure(allFrames[..|allFrames| - 1], cue, boneDict, leeway);
      var last := allFrames[|allFrames| - 1];
      if prior.Some? then prior
      else if last.NodeName in boneDict then ChannelFailure(last, cue, leeway)
      else None
  }

  /** The constructor throws exactly when some frame set of a known bone
      cannot be cut. */
  lemma {:induction false} ClipFailureNone(allFrames: seq<NodeFrames>, cue: AnimationCue, boneDict: map<string, nat>, leeway: real)
    ensures ClipFailure(allFrames, cue, boneDict, leeway).None? <==>
      forall j :: 0 <= j < |allFrames| && allFrames[j].NodeName in boneDict ==> ChannelFailure(allFrames[j], cue, leeway).None?
    decreases |allFrames|
  {
    if allFrames != [] {
      var init := allFrames[..|allFrames| - 1];
      ClipFailureNone(init, cue, boneDict, leeway);
      assert forall j :: 0 <= j < |init| ==> init[j] == allFrames[j];
    }
  }

  /** The exception thrown is that of the first frame set of a known bone
      whose channel cannot be cut; every earlier one is cut. */
  lemma {:induction false} ClipFailureFirst(allFrames: seq<NodeFrames>, cue: AnimationCue, boneDict: map<string, nat>, leeway: real)
    returns (j: nat)
    requires ClipFailure(allFrames, cue, boneDict, leeway).Some?
    ensures j < |allFrames| && allFrames[j].NodeName in boneDict
    ensures ChannelFailure(allFrames[j], cue, leeway) == ClipFailure(allFrames, cue, boneDict, leeway)
    ensures forall i :: 0 <= i < j && allFrames[i].NodeName in boneDict ==> ChannelFailure(allFrames[i], cue, leeway).None?
    decreases |allFrames|
  {
    var init := allFrames[..|allFrames| - 1];
    assert forall i :: 0 <= i < |init| ==> init[i] == allFrames[i];
    if ClipFailure(init, cue, boneDict, leeway).Some? {
      j := ClipFailureFirst(init, cue, boneDict, leeway);
    } else {
      j := |allFrames| - 1;
      ClipFailureNone(init, cue, boneDict, leeway);
    }
  }

  /** The frame set drives bone k: its node name maps to k. */
  predicate Targets(f: NodeFrames, boneDict: map<string, nat>, k: nat)
  {
    f.NodeName in boneDict && boneDict[f.NodeName] == k
  }

  /** The position of the last frame set that drives bone k, if any. */
  function LastSetFor(allFrames: seq<NodeFrames>, boneDict: map<string, nat>, k: nat): (r: Option<nat>)
    ensures r.Some? ==> r.value < |allFrames| && Targets(allFrames[r.value], boneDict, k)
    ensures r.Some? ==> forall j :: r.value < j < |allFrames| ==> !Targets(allFrames[j], boneDict, k)
    ensures r.None? ==> forall j :: 0 <= j < |allFrames| ==> !Targets(allFrames[j], boneDict, k)
    decreases |allFrames|
  {
    if allFrames == [] then None
    else if Targets(allFrames[|allFrames| - 1], boneDict, k) then Some(|allFrames| - 1)
    else LastSetFor(allFrames[..|allFrames| - 1], boneDict, k)
  }

  /** One more frame set either drives bone k, and is then its last set, or
      leaves bone k's last set as it was. */
  lemma LastSetForStep(allFrames: seq<NodeFrames>, boneDict: map<string, nat>, j: nat, k: nat)
    requires j < |allFrames|
    ensures LastSetFor(allFrames[..j + 1], boneDict, k) ==
      if Targets(allFrames[j], boneDict, k) then Some(j) else LastSetFor(allFrames[..j], boneDict, k)
  {
    assert allFrames[..j + 1][..j] == allFrames[..j];
  }

  /** The channel was cut from frame set f for the cue, for bone k. */
  ghost predicate ChannelFrom(c: LocRotKeyframes, f: NodeFrames, cue: AnimationCue, leeway: real, k: nat)
  {
    c.BoneName == f.NodeName && c.BoneID == k &&
    RotationsCut(c.rotations, f.RotationKeys, cue.StartTime, cue.EndTime, cue.Wrap, leeway) &&
    LocationsCut(c.translations, f.LocationKeys, cue.StartTime, cue.EndTime, cue.Wrap, leeway) &&
    c.Valid()
  }

  /** The duration accumulated over the channels: the largest Length of a
      present channel, starting from 0. */
  function MaxLength(cs: seq<LocRotKeyframes?>): real
    decreases |cs|
  {
    if cs == [] then 0.0
    else
      var d := MaxLength(cs[..|cs| - 1]);
      var c := cs[|cs| - 1];
      if c == null then d else Max(d, c.Length)
  }

  /** The duration is non-negative, no shorter than any channel, and either
      0 or the length of some channel. */
  lemma {:induction false} MaxLengthSpec(cs: seq<LocRotKeyframes?>)
    ensures MaxLength(cs) >= 0.0
    ensures forall k :: 0 <= k < |cs| && cs[k] != null ==> cs[k].Length <= MaxLength(cs)
    ensures MaxLength(cs) == 0.0 || exists k :: 0 <= k < |cs| && cs[k] != null && cs[k].Length == MaxLength(cs)
    decreases |cs|
  {
    if cs != [] {
      var init := cs[..|cs| - 1];
      MaxLengthSpec(init);
      assert forall k :: 0 <= k < |init| ==> init[k] == cs[k];
      if MaxLength(cs) != 0.0 && MaxLength(cs) == MaxLength(init) {
        var j :| 0 <= j < |init| && init[j] != null && init[j].Length == MaxLength(init);
        assert cs[j] == init[j];
      }
    }
  }

  /** One channel of the clip: the rotation and location series cut from a
      frame set for the cue. */
  method MakeChannel(frames: NodeFrames, cue: AnimationCue, leeway: real, boneID: nat) returns (c: LocRotKeyframes)
    requires Imported(frames) && ChannelFailure(frames, cue, leeway).None?
    ensures fresh(c) && ChannelFrom(c, frames, cue, leeway, boneID)
  {
    var rotFrames := new RotationKeyframes(frames.RotationKeys, cue.StartTime, cue.EndTime, cue.Wrap, leeway);
    var locFrames := new LocationKeyframes(frames.LocationKeys, cue.StartTime, cue.EndTime, cue.Wrap, leeway);
    c := new LocRotKeyframes(locFrames, rotFrames, frames.NodeName, boneID);
  }

  /** The loop of the AnimationClip constructor over the frame sets: each set
      whose node is a known bone becomes that bone's channel, a later set for
      the same bone replacing an earlier one. */
  method BuildChannels(allFrames: seq<NodeFrames>, cue: AnimationCue, numBones: nat, boneDict: map<string, nat>, leeway: real)
    returns (channels: array<LocRotKeyframes?>)
    requires forall j :: 0 <= j < |allFrames| && allFrames[j].NodeName in boneDict ==>
      Imported(allFrames[j]) && ChannelFailure(allFrames[j], cue, leeway).None?
    requires forall name :: name in boneDict ==> boneDict[name] < numBones
    ensures fresh(channels) && channels.Length == numBones
    ensures forall k :: 0 <= k < numBones ==>
      (LastSetFor(allFrames, boneDict, k).None? ==> channels[k] == null) &&
      (LastSetFor(allFrames, boneDict, k).Some? ==>
        channels[k] != null &&
        ChannelFrom(channels[k], allFrames[LastSetFor(allFrames, boneDict, k).value], cue, leeway, k))
  {
    channels := new LocRotKeyframes?[numBones](_ => null);
    for j := 0 to |allFrames|
      invariant forall k :: 0 <= k < numBones ==>
        (LastSetFor(allFrames[..j], boneDict, k).None? ==> channels[k] == null) &&
        (LastSetFor(allFrames[..j], boneDict, k).Some? ==>
          channels[k] != null &&
          ChannelFrom(channels[k], allFrames[LastSetFor(allFrames[..j], boneDict, k).value], cue, leeway, k))
    {
      var frames := allFrames[j];
      forall k | 0 <= k < numBones {
        LastSetForStep(allFrames, boneDict, j, k);
      }
      if frames.NodeName !in boneDict {
        continue;
      }
      var boneID := boneDict[frames.NodeName];
      var locRot := MakeChannel(frames, cue, leeway, boneID);
      channels[boneID] := locRot;
    }
    assert allFrames[..|allFrames|] == allFrames;
  }

  /** The loop of the AnimationClip constructor that finds the duration. */
  method LongestChannel(channels: array<LocRotKeyframes?>) returns (duration: real)
    ensures duration == MaxLength(channels[..])
  {
    duration := 0.0;
    for i := 0 to channels.Length
      invariant duration == MaxLength(channels[..i])
    {
      assert channels[..i + 1][..i] == channels[..i];
      if channels[i] != null {
        duration := Max(duration, channels[i].Length);
      }
    }
    assert channels[..channels.Length] == channels[..];
  }

  class AnimationClip {
    var Name: string
    /** boneChannels[i] holds the keyframes of this clip for the bone with
        ID i, or null when the clip does not move that bone. */
    const boneChannels: array<LocRotKeyframes?>
    var Duration: real
    var Wrap: bool

    ghost predicate Valid()
      reads boneChannels
    {
      forall k :: 0 <= k < boneChannels.Length && boneChannels[k] != null ==> boneChannels[k].Valid()
    }

    /** Each frame set whose node is a known bone becomes that bone's
        channel (a later set for the same bone replaces an earlier one);
        unknown nodes are skipped. The duration is the longest channel. */
    constructor (allFrames: seq<NodeFrames>, cue: AnimationCue, numBones: nat, boneDict: map<string, nat>, leeway: real)
      requires forall j :: 0 <= j < |allFrames| && allFrames[j].NodeName in boneDict ==>
        Imported(allFrames[j]) && ChannelFailure(allFrames[j], cue, leeway).None?
      requires forall name :: name in boneDict ==> boneDict[name] < numBones
      ensures fresh(boneChannels) && boneChannels.Length == numBones
      ensures forall k :: 0 <= k < numBones ==>
        (LastSetFor(allFrames, boneDict, k).None? ==> boneChannels[k] == null) &&
        (LastSetFor(allFrames, boneDict, k).Some? ==>
          boneChannels[k] != null &&
          ChannelFrom(boneChannels[k], allFrames[LastSetFor(allFrames, boneDict, k).value], cue, leeway, k))
      ensures Name == cue.Name && Wrap == cue.Wrap
      ensures Duration == MaxLength(boneChannels[..])
      ensures Valid()
    {
      var channels := BuildChannels(allFrames, cue, numBones, boneDict, leeway);
      Name := cue.Name;
      Wrap := cue.Wrap;
      var duration := LongestChannel(channels);
      Duration := duration;
      boneChannels := channels;
    }

    /** applyAnimationToSkeleton: every bone without a channel goes to its
        rest pose; every other bone takes its channel's translation and
        rotation at the given time. Bones past the last channel slot make
        the C# code throw after the earlier bones were posed. */
    method ApplyAnimationToSkeleton(bones: array<ArmatureBone>, time: real) returns (err: Option<Error>)
      requires Valid()
      requires forall i, j :: 0 <= i < j < bones.Length ==> bones[i] != bones[j]
      modifies set i | 0 <= i < bones.Length :: bones[i]
      ensures err.Some? <==> bones.Length > boneChannels.Length
      ensures err.Some? ==> err.value == IndexOutOfRange
      ensures forall i :: 0 <= i < bones.Length && i < boneChannels.Length ==>
        (boneChannels[i] == null ==> bones[i].poseTranslation == Identity && bones[i].poseRotation == Identity) &&
        (boneChannels[i] != null ==>
          bones[i].poseTranslation == boneChannels[i].translations.FrameAt(time) &&
          bones[i].poseRotation == boneChannels[i].rotations.FrameAt(time))
      ensures forall i :: boneChannels.Length <= i < bones.Length ==>
        bones[i].poseTranslation == old(bones[i].poseTranslation) && bones[i].poseRotation == old(bones[i].poseRotation)
      ensures forall i :: 0 <= i < bones.Length ==>
        bones[i].Name == old(bones[i].Name) && bones[i].Parent == old(bones[i].Parent) &&
        bones[i].Children == old(bones[i].Children) && bones[i].restPoseMatrix == old(bones[i].restPoseMatrix)
    {
      for i := 0 to bones.Length
        invariant i <= boneChannels.Length
        invariant forall k :: 0 <= k < i ==>
          (boneChannels[k] == null ==> bones[k].poseTranslation == Identity && bones[k].poseRotation == Identity) &&
          (boneChannels[k] != null ==>
            bones[k].poseTranslation == boneChannels[k].translations.FrameAt(time) &&
            bones[k].poseRotation == boneChannels[k].rotations.FrameAt(time))
        invariant forall k :: i <= k < bones.Length ==>
          bones[k].poseTranslation == old(bones[k].poseTranslation) && bones[k].poseRotation == old(bones[k].poseRotation)
        invariant forall k :: 0 <= k < bones.Length ==>
          bones[k].Name == old(bones[k].Name) && bones[k].Parent == old(bones[k].Parent) &&
          bones[k].Children == old(bones[k].Children) && bones[k].restPoseMatrix == old(bones[k].restPoseMatrix)
      {
        if i >= boneChannels.Length {
          return Some(IndexOutOfRange);
        }
        var channel := boneChannels[i];
        if channel == null {
          bones[i].SetPoseToRest();
        } else {
          var location, rotation := channel.GetFrameAtTime(time);
          bones[i].SetPoseTranslation(location);
          bones[i].SetPoseRotation(rotation);
        }
      }
      return None;
    }
  }

  /** new AnimationClip(...), with the exception it throws: that of the
      first frame set of a known bone whose channel cannot be cut. */
  method NewAnimationClip(allFrames: seq<NodeFrames>, cue: AnimationCue, numBones: nat, boneDict: map<string, nat>, leeway: real)
    returns (r: Result<AnimationClip>)
    requires forall j :: 0 <= j < |allFrames| && allFrames[j].NodeName in boneDict ==> Imported(allFrames[j])
    requires forall name :: name in boneDict ==> boneDict[name] < numBones
    ensures r.Failure() == ClipFailure(allFrames, cue, boneDict, leeway)
    ensures r.Ok? ==>
      fresh(r.value) && fresh(r.value.boneChannels) && r.value.boneChannels.Length == numBones &&
      r.value.Name == cue.Name && r.value.Wrap == cue.Wrap &&
      r.value.Duration == MaxLength(r.value.boneChannels[..]) && r.value.Valid()
    ensures r.Ok? ==> forall k :: 0 <= k < numBones ==>
      (LastSetFor(allFrames, boneDict, k).None? ==> r.value.boneChannels[k] == null) &&
      (LastSetFor(allFrames, boneDict, k).Some? ==>
        r.value.boneChannels[k] != null &&
        ChannelFrom(r.value.boneChannels[k], allFrames[LastSetFor(allFrames, boneDict, k).value], cue, leeway, k))
  {
    var failure := ClipFailure(allFrames, cue, boneDict, leeway);
    if failure.Some? {
      return Err(failure.value);
    }
    ClipFailureNone(allFrames, cue, boneDict, leeway);
    var clip := new AnimationClip(allFrames, cue, numBones, boneDict, leeway);
    return Ok(clip);
  }
}
