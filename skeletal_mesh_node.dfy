/** SkeletalMeshNode: a scene node that plays one animation clip of its
    skeletal meshes, keeping the clip and the time within it. */
module SkeletalNodes {
  import opened Common
  import opened Animation

  /** The next clip time: (animTime + delta) % Duration with the C#
      remainder on doubles, which keeps the sign of the dividend and
      ignores the sign of the divisor; 0 when there is no clip or the clip
      is empty. */
  function NextAnimTime(animTime: real, delta: real, hasClip: bool, duration: real): (t: real)
    ensures !hasClip || duration == 0.0 ==> t == 0.0
    ensures hasClip && duration != 0.0 && animTime + delta >= 0.0 ==>
      0.0 <= t < (if duration > 0.0 then duration else -duration)
    ensures hasClip && duration > 0.0 && 0.0 <= animTime + delta < duration ==> t == animTime + delta
  {
    if !hasClip || duration == 0.0 then 0.0
    else TruncatedRemainder(animTime + delta, if duration > 0.0 then duration else -duration)
  }

  class SkeletalMeshNode {
    var animTime: real
    var currentAnimation: AnimationClip?

    constructor ()
      ensures animTime == 0.0 && currentAnimation == null
    {
      animTime := 0.0;
      currentAnimation := null;
    }

    /** advanceAnimation: wraps the clip time around the clip's duration. */
    method AdvanceAnimation(delta: real)
      modifies this
      ensures currentAnimation == old(currentAnimation)
      ensures animTime == NextAnimTime(old(animTime), delta, currentAnimation != null,
                                       if currentAnimation == null then 0.0 else currentAnimation.Duration)
    {
      if currentAnimation == null || currentAnimation.Duration == 0.0 {
        animTime := 0.0;
      } else {
        var d := currentAnimation.Duration;
        animTime := TruncatedRemainder(animTime + delta, if d > 0.0 then d else -d);
      }
    }

    /** clearAnimation */
    method ClearAnimation()
      modifies this
      ensures currentAnimation == null && animTime == 0.0
    {
      currentAnimation := null;
      animTime := 0.0;
    }

    /** switchAnimation: restarts at time 0 with the clip that the meshes
        return for the name (fetchAnimation is given as its result). */
    method SwitchAnimation(animation: string, fetched: AnimationClip?)
      modifies this
      ensures animTime == 0.0 && currentAnimation == fetched
    {
      animTime := 0.0;
      currentAnimation := fetched;
    }
  }
}
