/** ArmatureBone: one bone of an animated skeleton, with its rest pose, the
    current pose (a translation and a rotation relative to the parent), its
    parent and its list of children. */
module Armature {
  import opened Common

  /** List<T>.Remove: the sequence without the first occurrence of x. */
  function RemoveFirst<T(==)>(s: seq<T>, x: T): (r: seq<T>)
    decreases |s|
  {
    if s == [] then []
    else if s[0] == x then s[1..]
    else [s[0]] + RemoveFirst(s[1..], x)
  }

  /** Removing an element drops exactly one copy of it and keeps the order
      of the rest; removing an absent element changes nothing. */
  lemma {:induction false} RemoveFirstSpec<T>(s: seq<T>, x: T)
    ensures x in s ==> |RemoveFirst(s, x)| == |s| - 1
    ensures x in s ==> multiset(RemoveFirst(s, x)) == multiset(s) - multiset{x}
    ensures x !in s ==> RemoveFirst(s, x) == s
    decreases |s|
  {
    if s != [] {
      RemoveFirstSpec(s[1..], x);
      assert s == [s[0]] + s[1..];
      if s[0] != x && x in s {
        assert x in s[1..];
      }
    }
  }

  /** Appending an element that was not there and then removing it gives
      the original sequence back. */
  lemma {:induction false} RemoveAppended<T>(s: seq<T>, x: T)
    requires x !in s
    ensures RemoveFirst(s + [x], x) == s
    decreases |s|
  {
    if s != [] {
      assert (s + [x])[1..] == s[1..] + [x];
      RemoveAppended(s[1..], x);
      assert s == [s[0]] + s[1..];
    }
  }

  class ArmatureBone {
    /** Displacement from the parent bone in the rest pose. */
    var restPoseMatrix: Matrix
    /** Displacements from the parent bone in the animated pose. */
    var poseTranslation: Matrix
    var poseRotation: Matrix

    var Parent: ArmatureBone?
    var Children: seq<ArmatureBone>
    var Name: string

    constructor (bindPoseTransform: Matrix, name: string)
      ensures restPoseMatrix == bindPoseTransform
      ensures poseTranslation == Identity && poseRotation == Identity
      ensures Children == [] && Parent == null && Name == name
    {
      restPoseMatrix := bindPoseTransform;
      poseTranslation := Identity;
      poseRotation := Identity;
      Children := [];
      Parent := null;
      Name := name;
    }

    /** addChild: a null child is ignored; otherwise the child points back
        at this bone and is appended to the children. */
    method AddChild(child: ArmatureBone?)
      modifies this, child
      ensures child == null ==> Children == old(Children)
      ensures child != null ==> Children == old(Children) + [child] && child.Parent == this
      ensures child != this ==> Parent == old(Parent)
      ensures restPoseMatrix == old(restPoseMatrix) && poseTranslation == old(poseTranslation)
      ensures poseRotation == old(poseRotation) && Name == old(Name)
      ensures child != null && child != this ==> child.Children == old(child.Children) && child.Name == old(child.Name)
    {
      if child != null {
        child.Parent := this;
        Children := Children + [child];
      }
    }

    /** removeChild: only a bone that is among the children is removed (its
        first occurrence) and loses its parent; otherwise nothing changes. */
    method RemoveChild(child: ArmatureBone?)
      modifies this, child
      ensures child != null && child in old(Children) ==>
        Children == RemoveFirst<ArmatureBone>(old(Children), child) && child.Parent == null
      ensures child == null || child !in old(Children) ==>
        Children == old(Children) && (child != null ==> child.Parent == old(child.Parent))
      ensures child != this ==> Parent == old(Parent)
      ensures restPoseMatrix == old(restPoseMatrix) && poseTranslation == old(poseTranslation)
      ensures poseRotation == old(poseRotation) && Name == old(Name)
      ensures child != null && child != this ==> child.Children == old(child.Children) && child.Name == old(child.Name)
    {
      if child != null && child in Children {
        var c: ArmatureBone := child;
        Children := RemoveFirst(Children, c);
        child.Parent := null;
      }
    }

    /** setPoseTranslation */
    method SetPoseTranslation(m: Matrix)
      modifies this
      ensures poseTranslation == m
      ensures poseRotation == old(poseRotation) && restPoseMatrix == old(restPoseMatrix)
      ensures Parent == old(Parent) && Children == old(Children) && Name == old(Name)
    {
      poseTranslation := m;
    }

    /** setPoseRotation */
    method SetPoseRotation(m: Matrix)
      modifies this
      ensures poseRotation == m
      ensures poseTranslation == old(poseTranslation) && restPoseMatrix == old(restPoseMatrix)
      ensures Parent == old(Parent) && Children == old(Children) && Name == old(Name)
    {
      poseRotation := m;
    }

    /** setPoseToRest: the animated displacements become the identity, so the
        bone sits in its rest pose. */
    method SetPoseToRest()
      modifies this
      ensures poseTranslation == Identity && poseRotation == Identity
      ensures restPoseMatrix == old(restPoseMatrix)
      ensures Parent == old(Parent) && Children == old(Children) && Name == old(Name)
    {
      poseTranslation := Identity;
      poseRotation := Identity;
    }
  }

  /** Adding a bone that is not yet a child and removing it again restores
      the children and clears the bone's parent. */
  method AddThenRemove(parent: ArmatureBone, child: ArmatureBone)
    requires child != parent && child !in parent.Children
    modifies parent, child
    ensures parent.Children == old(parent.Children)
    ensures child.Parent == null
  {
    ghost var before := parent.Children;
    parent.AddChild(child);
    RemoveAppended<ArmatureBone>(before, child);
    parent.RemoveChild(child);
  }
}
