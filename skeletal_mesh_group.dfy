/** SkeletalMeshGroup: meshes that share one skeleton, the library of
    animation clips that can drive it, and the clip currently playing. */
module SkeletalMeshes {
  import opened Common
  import opened Armature
  import opened Animation

  /** A skinned mesh of the group; only its identity matters here. */
  class SkeletalTriMesh {
    const Name: string

    constructor (name: string)
      ensures Name == name
    {
      Name := name;
    }
  }

  /** The clips' names, read once. */
  function Names(cs: seq<AnimationClip>): (ns: seq<string>)
    reads set i | 0 <= i < |cs| :: cs[i]
    ensures |ns| == |cs| && forall i :: 0 <= i < |cs| ==> ns[i] == cs[i].Name
  {
    seq(|cs|, i reads set i | 0 <= i < |cs| :: cs[i] requires 0 <= i < |cs| => cs[i].Name)
  }

  /** addAnimations as a whole: the clips are added in order under their
      names, and the first name already present makes Dictionary.Add throw. */
  function Library(lib: map<string, AnimationClip>, names: seq<string>, cs: seq<AnimationClip>): (r: Result<map<string, AnimationClip>>)
    requires |names| == |cs|
    decreases |cs|
  {
    if cs == [] then Ok(lib)
    else
      var prev := Library(lib, names[..|cs| - 1], cs[..|cs| - 1]);
      var name := names[|cs| - 1];
      if prev.Err? then prev
      else if name in prev.value then Err(DuplicateKey(name))
      else Ok(prev.value[name := cs[|cs| - 1]])
  }

  /** Adding succeeds exactly when the names are new and pairwise
      distinct. */
  lemma {:induction false} LibraryOk(lib: map<string, AnimationClip>, names: seq<string>, cs: seq<AnimationClip>)
    requires |names| == |cs|
    ensures Library(lib, names, cs).Ok? <==>
      (forall i :: 0 <= i < |names| ==> names[i] !in lib) &&
      (forall i, j :: 0 <= i < j < |names| ==> names[i] != names[j])
    decreases |cs|
  {
    if cs != [] {
      var k := |cs| - 1;
      var ns, vs := names[..k], cs[..k];
      LibraryOk(lib, ns, vs);
      assert forall i :: 0 <= i < k ==> ns[i] == names[i];
      var prev := Library(lib, ns, vs);
      if prev.Ok? {
        LibraryContents(lib, ns, vs);
        if names[k] in prev.value && names[k] !in lib {
          var j :| 0 <= j < k && ns[j] == names[k];
          assert names[j] == names[k];
        }
      }
    }
  }

  /** When adding succeeds, every clip is found under its name, the earlier
      entries are kept and nothing else is added. */
  lemma {:induction false} LibraryContents(lib: map<string, AnimationClip>, names: seq<string>, cs: seq<AnimationClip>)
    requires |names| == |cs|
    requires Library(lib, names, cs).Ok?
    ensures var r := Library(lib, names, cs).value;
      r.Keys == lib.Keys + (set i | 0 <= i < |names| :: names[i]) &&
      (forall n :: n in lib ==> r[n] == lib[n])
    ensures var r := Library(lib, names, cs).value;
      forall i :: 0 <= i < |names| ==> r[names[i]] == cs[i]
    decreases |cs|
  {
    if cs != [] {
      var k := |cs| - 1;
      var ns, vs := names[..k], cs[..k];
      LibraryContents(lib, ns, vs);
      var r0 := Library(lib, ns, vs).value;
      var r := r0[names[k] := cs[k]];
      assert Library(lib, names, cs) == Ok(r);
      forall i | 0 <= i < |names|
        ensures r[names[i]] == cs[i]
      {
        if i < k {
          assert ns[i] == names[i] && vs[i] == cs[i];
        }
      }
      var before := set i | 0 <= i < k :: ns[i];
      assert (set i | 0 <= i < |names| :: names[i]) == before + {names[k]} by {
        assert forall i :: 0 <= i < k ==> ns[i] == names[i];
      }
    }
  }

  class SkeletalMeshGroup {
    var meshes: seq<SkeletalTriMesh>
    var rootBone: ArmatureBone
    var bonesByID: array<ArmatureBone>
    var boneTransforms: array<Matrix>
    var animationLibrary: map<string, AnimationClip>
    var current: AnimationClip?
    var animTime: real

    /** initialize, through the constructor that starts without meshes.
        maxBones is ShaderProgram.MAX_BONES. */
    constructor (root: ArmatureBone, bones: array<ArmatureBone>, maxBones: nat)
      ensures meshes == [] && rootBone == root && bonesByID == bones
      ensures animationLibrary == map[] && current == null && animTime == 0.0
      ensures fresh(boneTransforms) && boneTransforms.Length == maxBones
    {
      meshes := [];
      rootBone := root;
      bonesByID := bones;
      animationLibrary := map[];
      current := null;
      animTime := 0.0;
      boneTransforms := new Matrix[maxBones](_ => Identity);
    }

    /** initialize, through the constructor that is given the meshes. */
    constructor WithMeshes(ms: seq<SkeletalTriMesh>, root: ArmatureBone, bones: array<ArmatureBone>, maxBones: nat)
      ensures meshes == ms && rootBone == root && bonesByID == bones
      ensures animationLibrary == map[] && current == null && animTime == 0.0
      ensures fresh(boneTransforms) && boneTransforms.Length == maxBones
    {
      meshes := ms;
      rootBone := root;
      bonesByID := bones;
      animationLibrary := map[];
      current := null;
      animTime := 0.0;
      boneTransforms := new Matrix[maxBones](_ => Identity);
    }

    /** clearAnimation: no clip, time 0, and every bone's pose back to the
        identity rotation and translation. */
    method ClearAnimation()
      modifies this, set i | 0 <= i < bonesByID.Length :: bonesByID[i]
      ensures rootBone == old(rootBone) && bonesByID == old(bonesByID) && boneTransforms == old(boneTransforms)
      ensures current == null && animTime == 0.0
      ensures forall i :: 0 <= i < bonesByID.Length ==>
        bonesByID[i].poseRotation == Identity && bonesByID[i].poseTranslation == Identity &&
        bonesByID[i].Name == old(bonesByID[i].Name) && bonesByID[i].Children == old(bonesByID[i].Children) &&
        bonesByID[i].Parent == old(bonesByID[i].Parent)
      ensures meshes == old(meshes) && animationLibrary == old(animationLibrary)
    {
      current := null;
      animTime := 0.0;
      for i := 0 to bonesByID.Length
        invariant rootBone == old(rootBone) && bonesByID == old(bonesByID) && boneTransforms == old(boneTransforms)
        invariant current == null && animTime == 0.0
        invariant meshes == old(meshes) && animationLibrary == old(animationLibrary)
        invariant forall k :: 0 <= k < i ==>
          bonesByID[k].poseRotation == Identity && bonesByID[k].poseTranslation == Identity
        invariant forall k :: 0 <= k < bonesByID.Length ==>
          bonesByID[k].Name == old(bonesByID[k].Name) && bonesByID[k].Children == old(bonesByID[k].Children) &&
          bonesByID[k].Parent == old(bonesByID[k].Parent)
      {
        bonesByID[i].SetPoseRotation(Identity);
        bonesByID[i].SetPoseTranslation(Identity);
      }
    }

    /** setCurrentAnimation: a known name starts that clip from time 0; an
        unknown name is reported and changes nothing. */
    method SetCurrentAnimation(animName: string)
      modifies this
      ensures animName in animationLibrary ==> current == animationLibrary[animName] && animTime == 0.0
      ensures animName !in animationLibrary ==> current == old(current) && animTime == old(animTime)
      ensures meshes == old(meshes) && animationLibrary == old(animationLibrary)
      ensures rootBone == old(rootBone) && bonesByID == old(bonesByID) && boneTransforms == old(boneTransforms)
    {
      if animName !in animationLibrary {
        return;
      }
      current := animationLibrary[animName];
      animTime := 0.0;
    }

    /** addAnimation: stores the clip under its name; a name already in the
        library makes Dictionary.Add throw and leaves the library as it was. */
    method AddAnimation(c: AnimationClip) returns (err: Option<Error>)
      modifies this
      ensures var r := Library(old(animationLibrary), [c.Name], [c]);
        (r.Ok? ==> err.None? && animationLibrary == r.value) &&
        (r.Err? ==> err == Some(r.error) && animationLibrary == old(animationLibrary))
      ensures meshes == old(meshes) && current == old(current) && animTime == old(animTime)
      ensures rootBone == old(rootBone) && bonesByID == old(bonesByID) && boneTransforms == old(boneTransforms)
    {
      assert [c.Name][..0] == [] && [c][..0] == [];
      if c.Name in animationLibrary {
        return Some(DuplicateKey(c.Name));
      }
      animationLibrary := animationLibrary[c.Name := c];
      return None;
    }

    /** addAnimations: addAnimation for each clip in list order; the first
        duplicate stops the loop with the earlier clips already added. */
    method AddAnimations(cs: seq<AnimationClip>) returns (err: Option<Error>)
      modifies this
      ensures var r := Library(old(animationLibrary), Names(cs), cs);
        (r.Ok? ==> err.None? && animationLibrary == r.value) &&
        (r.Err? ==> err == Some(r.error))
      ensures err.Some? ==>
        exists k :: 0 <= k < |cs| && Library(old(animationLibrary), Names(cs)[..k], cs[..k]) == Ok(animationLibrary)
      ensures meshes == old(meshes) && current == old(current) && animTime == old(animTime)
      ensures rootBone == old(rootBone) && bonesByID == old(bonesByID) && boneTransforms == old(boneTransforms)
    {
      ghost var names := Names(cs);
      for i := 0 to |cs|
        invariant Library(old(animationLibrary), names[..i], cs[..i]) == Ok(animationLibrary)
        invariant meshes == old(meshes) && current == old(current) && animTime == old(animTime)
        invariant rootBone == old(rootBone) && bonesByID == old(bonesByID) && boneTransforms == old(boneTransforms)
      {
        ghost var before := animationLibrary;
        assert names[..i + 1][..i] == names[..i] && cs[..i + 1][..i] == cs[..i];
        err := AddAnimation(cs[i]);
        if err.Some? {
          LibraryErrorStays(old(animationLibrary), names, cs, i + 1);
          assert animationLibrary == before;
          return;
        }
      }
      assert names[..|cs|] == names && cs[..|cs|] == cs;
      return None;
    }

    /** addMesh */
    method AddMesh(m: SkeletalTriMesh)
      modifies this
      ensures meshes == old(meshes) + [m]
      ensures animationLibrary == old(animationLibrary) && current == old(current) && animTime == old(animTime)
      ensures rootBone == old(rootBone) && bonesByID == old(bonesByID) && boneTransforms == old(boneTransforms)
    {
      meshes := meshes + [m];
    }

    /** removeMesh: List.Remove drops the first occurrence, if any. */
    method RemoveMesh(m: SkeletalTriMesh)
      modifies this
      ensures meshes == RemoveFirst(old(meshes), m)
      ensures animationLibrary == old(animationLibrary) && current == old(current) && animTime == old(animTime)
      ensures rootBone == old(rootBone) && bonesByID == old(bonesByID) && boneTransforms == old(boneTransforms)
    {
      meshes := RemoveFirst(meshes, m);
    }

    /** advanceAnimation: computes the next time only into a local, so the
        group's state does not change. */
    method AdvanceAnimation(delta: real)
      ensures unchanged(this)
    {
      if current == null {
        return;
      }
      var newTime := animTime + delta;
    }
  }

  /** Once an addition has failed, later additions cannot make the whole
      succeed, and the error is the first one met. */
  lemma {:induction false} LibraryErrorStays(lib: map<string, AnimationClip>, names: seq<string>, cs: seq<AnimationClip>, k: nat)
    requires |names| == |cs| && k <= |cs|
    requires Library(lib, names[..k], cs[..k]).Err?
    ensures Library(lib, names, cs) == Library(lib, names[..k], cs[..k])
    decreases |cs|
  {
    if k < |cs| {
      var n := |cs| - 1;
      assert names[..n][..k] == names[..k] && cs[..n][..k] == cs[..k];
      LibraryErrorStays(lib, names[..n], cs[..n], k);
    } else {
      assert names[..k] == names && cs[..k] == cs;
    }
  }
}
