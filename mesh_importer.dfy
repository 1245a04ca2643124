/** Skeleton assembly from an imported scene (MeshImporter.cs): finding the
    armature, collecting the branches that lead to the bones the meshes use,
    pruning the node tree to those branches, flattening the result in preorder
    with a name-to-index map, and laying out per-vertex bone weights. A node
    of the scene is identified by its path of child indices from the root the
    search started at, which stands for the node object's identity. */
module MeshImporter {
  import opened Common

  /** An Assimp scene node. */
  datatype Node = Node(Name: string, Transform: Matrix, Children: seq<Node>)

  /** A node's position below another: the child index taken at each level. */
  type Path = seq<nat>

  predicate ValidPath(n: Node, p: Path)
    decreases p
  {
    p == [] || (p[0] < |n.Children| && ValidPath(n.Children[p[0]], p[1..]))
  }

  function At(n: Node, p: Path): Node
    requires ValidPath(n, p)
    decreases p
  {
    if p == [] then n else At(n.Children[p[0]], p[1..])
  }

  /** Preorder on paths: a node comes before its descendants, and the
      subtree of an earlier child before that of a later one. */
  predicate PreorderBefore(p: Path, q: Path)
    decreases p
  {
    q != [] && (p == [] || p[0] < q[0] || (p[0] == q[0] && PreorderBefore(p[1..], q[1..])))
  }

  // -------------------------------------------------------------- search

  /** What a depth-first search looks for: the armature's root bone (the
      first child of a node named "Armature", which the search never descends
      below) or a node with a given name. */
  datatype Target = ArmatureRoot | Named(name: string)

  predicate Hits(target: Target, n: Node)
  {
    match target
    case ArmatureRoot => n.Name == "Armature" && |n.Children| > 0
    case Named(name) => n.Name == name
  }

  predicate Stops(target: Target, n: Node)
  {
    match target
    case ArmatureRoot => n.Name == "Armature"
    case Named(name) => n.Name == name
  }

  /** The path to the node the search returns on: the node itself if it is
      a hit, nothing if the search stops at it, otherwise the first hit among
      its children's subtrees, in order. */
  function FirstHit(target: Target, n: Node): (r: Option<Path>)
    ensures r.Some? ==> ValidPath(n, r.value) && Hits(target, At(n, r.value))
    decreases n, |n.Children| + 1
  {
    if Hits(target, n) then Some([])
    else if Stops(target, n) then None
    else FirstHitIn(target, n, 0)
  }

  function FirstHitIn(target: Target, n: Node, i: nat): (r: Option<Path>)
    requires i <= |n.Children|
    ensures r.Some? ==> ValidPath(n, r.value) && r.value != [] && r.value[0] >= i && Hits(target, At(n, r.value))
    decreases n, |n.Children| - i
  {
    if i == |n.Children| then None
    else
      match FirstHit(target, n.Children[i])
      case Some(p) =>
        assert ([i] + p)[1..] == p;
        Some([i] + p)
      case None => FirstHitIn(target, n, i + 1)
  }

  /** No node above the end of the path is one the search stops at. */
  predicate Open(target: Target, n: Node, p: Path)
    requires ValidPath(n, p)
    decreases p
  {
    p == [] || (!Stops(target, n) && Open(target, n.Children[p[0]], p[1..]))
  }

  /** The node at p is a hit the search can reach. */
  predicate HitAt(target: Target, n: Node, p: Path)
  {
    ValidPath(n, p) && Open(target, n, p) && Hits(target, At(n, p))
  }

  ghost predicate IsFirstHit(target: Target, n: Node, p: Path)
  {
    HitAt(target, n, p) && forall q :: HitAt(target, n, q) ==> q == p || PreorderBefore(p, q)
  }

  ghost predicate IsFirstHitFrom(target: Target, n: Node, i: nat, p: Path)
  {
    HitAt(target, n, p) && p != [] && p[0] >= i &&
    forall q :: HitAt(target, n, q) && q != [] && q[0] >= i ==> q == p || PreorderBefore(p, q)
  }

  lemma HitAtChild(target: Target, n: Node, j: nat, q: Path)
    requires !Stops(target, n) && j < |n.Children|
    ensures HitAt(target, n, [j] + q) == HitAt(target, n.Children[j], q)
  {
    assert ([j] + q)[1..] == q;
  }

  /** The search returns the first reachable hit in preorder, or nothing when
      there is no reachable hit. */
  lemma {:induction false} FirstHitIsFirst(target: Target, n: Node)
    ensures FirstHit(target, n).Some? ==> IsFirstHit(target, n, FirstHit(target, n).value)
    ensures FirstHit(target, n).None? ==> forall q :: !HitAt(target, n, q)
    decreases n, |n.Children| + 1
  {
    if Hits(target, n) {
      forall q | HitAt(target, n, q)
        ensures q == [] || PreorderBefore([], q)
      {
      }
    } else if Stops(target, n) {
      forall q | ValidPath(n, q) && q != []
        ensures !Open(target, n, q)
      {
      }
    } else {
      FirstHitInIsFirst(target, n, 0);
    }
  }

  lemma {:induction false} FirstHitInIsFirst(target: Target, n: Node, i: nat)
    requires i <= |n.Children| && !Hits(target, n) && !Stops(target, n)
    ensures FirstHitIn(target, n, i).Some? ==> IsFirstHitFrom(target, n, i, FirstHitIn(target, n, i).value)
    ensures FirstHitIn(target, n, i).None? ==> forall q :: HitAt(target, n, q) ==> q != [] && q[0] < i
    decreases n, |n.Children| - i
  {
    if i == |n.Children| {
    } else {
      var child := n.Children[i];
      FirstHitIsFirst(target, child);
      match FirstHit(target, child)
      case Some(p) =>
        HitAtChild(target, n, i, p);
        forall q | HitAt(target, n, q) && q != [] && q[0] >= i
          ensures q == [i] + p || PreorderBefore([i] + p, q)
        {
          assert q == [q[0]] + q[1..];
          HitAtChild(target, n, q[0], q[1..]);
          if q[0] == i {
            assert ([i] + p)[1..] == p;
          }
        }
      case None =>
        FirstHitInIsFirst(target, n, i + 1);
        forall q | HitAt(target, n, q)
          ensures q != [] && q[0] != i
        {
          if q != [] && q[0] == i {
            assert q == [i] + q[1..];
            HitAtChild(target, n, i, q[1..]);
          }
        }
    }
  }

  // ---------------------------------------------------------- findArmature

  /** findArmature: the root bone, or nothing (null). */
  function FindArmature(root: Node): Option<Node>
  {
    match FirstHit(ArmatureRoot, root)
    case Some(p) => Some(At(root, p).Children[0])
    case None => None
  }

  /** findArmature returns the first child of the first node named
      "Armature" in preorder that has children, never looking below a node
      named "Armature"; it returns null exactly when there is no such node. */
  lemma FindArmatureSpec(root: Node)
    ensures FindArmature(root).None? <==> forall q :: !HitAt(ArmatureRoot, root, q)
    ensures FindArmature(root).Some? ==>
      exists p :: IsFirstHit(ArmatureRoot, root, p) && FindArmature(root).value == At(root, p).Children[0]
  {
    FirstHitIsFirst(ArmatureRoot, root);
  }

  // -------------------------------------------------------- addBranchToSet

  /** A HashSet<Node> of the scene, holding node identities. */
  class NodeSet {
    var Elements: set<Path>

    constructor ()
      ensures Elements == {}
    {
      Elements := {};
    }

    method Add(p: Path)
      modifies this
      ensures Elements == old(Elements) + {p}
    {
      Elements := Elements + {p};
    }
  }

  /** The nodes from the node at `at` down to the node at `at + p`. */
  function Branch(at: Path, p: Path): set<Path>
  {
    set k | 0 <= k <= |p| :: at + p[..k]
  }

  lemma BranchStep(at: Path, i: nat, p: Path)
    ensures Branch(at, [i] + p) == Branch(at + [i], p) + {at}
  {
    var left := Branch(at, [i] + p);
    var right := Branch(at + [i], p) + {at};
    forall x | x in left
      ensures x in right
    {
      var k :| 0 <= k <= |p| + 1 && x == at + ([i] + p)[..k];
      if k == 0 {
        assert x == at;
      } else {
        assert ([i] + p)[..k] == [i] + p[..k - 1];
        assert x == (at + [i]) + p[..k - 1];
      }
    }
    forall x | x in right
      ensures x in left
    {
      if x == at {
        assert x == at + ([i] + p)[..0];
      } else {
        var k :| 0 <= k <= |p| && x == (at + [i]) + p[..k];
        assert ([i] + p)[..k + 1] == [i] + p[..k];
        assert x == at + ([i] + p)[..k + 1];
      }
    }
  }

  /** addBranchToSet: searches the subtree at `at` for a node with the
      target's name; on success adds that node and all its ancestors up to
      `at` to the set and returns true, otherwise leaves the set alone. */
  method AddBranchToSet(nodes: NodeSet, root: Node, at: Path, target: string) returns (found: bool)
    modifies nodes
    ensures found == FirstHit(Named(target), root).Some?
    ensures found ==> nodes.Elements == old(nodes.Elements) + Branch(at, FirstHit(Named(target), root).value)
    ensures !found ==> nodes.Elements == old(nodes.Elements)
    decreases root
  {
    if root.Name == target {
      nodes.Add(at);
      assert Branch(at, []) == {at} by {
        assert at + [][..0] == at;
      }
      return true;
    }
    var i := 0;
    while i < |root.Children|
      invariant 0 <= i <= |root.Children|
      invariant FirstHitIn(Named(target), root, i) == FirstHit(Named(target), root)
      invariant nodes.Elements == old(nodes.Elements)
    {
      var child := root.Children[i];
      var inChild := AddBranchToSet(nodes, child, at + [i], target);
      if inChild {
        BranchStep(at, i, FirstHit(Named(target), child).value);
        nodes.Add(at);
        return true;
      }
      i := i + 1;
    }
    return false;
  }

  /** addBranchToSet returns true exactly when some node of the tree has the
      target's name. */
  lemma AddBranchFindsAnyNamed(root: Node, target: string)
    ensures FirstHit(Named(target), root).Some? <==>
      exists q :: ValidPath(root, q) && At(root, q).Name == target
  {
    FirstHitIsFirst(Named(target), root);
    if q :| ValidPath(root, q) && At(root, q).Name == target {
      FirstMatchIsOpen(root, q, target);
    }
  }

  /** Under a name search, the shallowest node with the name on a path is
      reachable; so a named node below another named node still means a hit
      exists. */
  lemma {:induction false} FirstMatchIsOpen(n: Node, q: Path, target: string)
    requires ValidPath(n, q) && At(n, q).Name == target
    ensures exists k :: 0 <= k <= |q| && ValidPath(n, q[..k]) && HitAt(Named(target), n, q[..k])
    decreases q
  {
    if n.Name == target {
      assert q[..0] == [] && HitAt(Named(target), n, []);
    } else {
      FirstMatchIsOpen(n.Children[q[0]], q[1..], target);
      var k :| 0 <= k <= |q[1..]| && ValidPath(n.Children[q[0]], q[1..][..k]) &&
        HitAt(Named(target), n.Children[q[0]], q[1..][..k]);
      assert q[..k + 1] == [q[0]] + q[1..][..k];
      HitAtChild(Named(target), n, q[0], q[1..][..k]);
    }
  }

  // ---------------------------------------------------- constructArmature

  /** An ArmatureBone as the importer builds it: name, rest pose and the
      child bones in order. */
  datatype Bone = Bone(Name: string, RestPose: Matrix, Children: seq<Bone>)

  /** constructArmature: the bone for the node at `at` if that node is
      needed, with the bones of its needed children in order; children that
      are not needed come back null and addChild drops them. The node's
      transform is copied field by field (convertMatrix). */
  function ConstructArmature(needed: set<Path>, n: Node, at: Path): (r: Option<Bone>)
    ensures r.Some? <==> at in needed
    ensures r.Some? ==> r.value.Name == n.Name && r.value.RestPose == n.Transform
    decreases n, |n.Children| + 1
  {
    if at !in needed then None
    else Some(Bone(n.Name, n.Transform, ConstructChildren(needed, n, at, |n.Children|)))
  }

  /** The bones built for the first i children, null results dropped. */
  function ConstructChildren(needed: set<Path>, n: Node, at: Path, i: nat): (bs: seq<Bone>)
    requires i <= |n.Children|
    ensures |bs| <= i
    decreases n, i
  {
    if i == 0 then []
    else
      var prior := ConstructChildren(needed, n, at, i - 1);
      match ConstructArmature(needed, n.Children[i - 1], at + [i - 1])
      case Some(b) => prior + [b]
      case None => prior
  }

  /** The bones of a hierarchy, each before its descendants and the subtree
      of an earlier child before that of a later one. */
  function Preorder(b: Bone): (s: seq<Bone>)
    ensures |s| >= 1 && s[0] == b
    decreases b, 1
  {
    [b] + PreorderForest(b.Children)
  }

  function PreorderForest(bs: seq<Bone>): seq<Bone>
    decreases bs, 0
  {
    if bs == [] then [] else PreorderForest(bs[..|bs| - 1]) + Preorder(bs[|bs| - 1])
  }

  lemma {:induction false} PreorderForestPrefix(bs: seq<Bone>, i: nat)
    requires i <= |bs|
    ensures |PreorderForest(bs[..i])| <= |PreorderForest(bs)|
    decreases |bs|
  {
    if i < |bs| {
      assert bs[..|bs| - 1][..i] == bs[..i];
      PreorderForestPrefix(bs[..|bs| - 1], i);
    } else {
      assert bs[..i] == bs;
    }
  }

  function Somes(bs: seq<Bone>): (r: seq<Option<Bone>>)
    ensures |r| == |bs| && forall k :: 0 <= k < |bs| ==> r[k] == Some(bs[k])
  {
    seq(|bs|, k requires 0 <= k < |bs| => Some(bs[k]))
  }

  /** One pass of placeBonesInArray's loop: child i's hierarchy written
      right after the root and the hierarchies of the children before it. */
  method PlaceChild(root: Bone, i: nat, a: array<Option<Bone>>, start: nat, offset: nat) returns (added: nat)
    requires i < |root.Children| && offset == 1 + |PreorderForest(root.Children[..i])|
    requires start + |Preorder(root)| <= a.Length && start + offset <= a.Length
    requires forall j :: start <= j < start + offset ==> a[j] == Some(([root] + PreorderForest(root.Children[..i]))[j - start])
    modifies a
    ensures offset + added == 1 + |PreorderForest(root.Children[..i + 1])| && start + offset + added <= a.Length
    ensures forall j :: start <= j < start + offset + added ==>
      a[j] == Some(([root] + PreorderForest(root.Children[..i + 1]))[j - start])
    ensures forall k :: 0 <= k < a.Length && !(start + offset <= k < start + offset + added) ==> a[k] == old(a[k])
    decreases root, 0
  {
    var child := root.Children[i];
    assert root.Children[..i + 1][..i] == root.Children[..i];
    ghost var placed := [root] + PreorderForest(root.Children[..i]);
    ghost var next := placed + Preorder(child);
    assert [root] + PreorderForest(root.Children[..i + 1]) == next;
    PreorderForestPrefix(root.Children, i + 1);
    added := PlaceBonesInArray(child, a, start + offset);
    forall j | start <= j < start + offset + added
      ensures a[j] == Some(next[j - start])
    {
      if j >= start + offset {
        assert next[j - start] == Preorder(child)[j - start - offset];
      }
    }
  }

  /** placeBonesInArray: writes the hierarchy in preorder into the slots
      from `start` on, leaves every other slot alone and returns the number of
      bones written. The array must have room for all of them. */
  method PlaceBonesInArray(root: Bone, a: array<Option<Bone>>, start: nat) returns (n: nat)
    requires start + |Preorder(root)| <= a.Length
    modifies a
    ensures n == |Preorder(root)|
    ensures forall k :: 0 <= k < n ==> a[start + k] == Some(Preorder(root)[k])
    ensures forall k :: 0 <= k < a.Length && !(start <= k < start + n) ==> a[k] == old(a[k])
    decreases root, 1
  {
    a[start] := Some(root);
    var offset := 1;
    for i := 0 to |root.Children|
      invariant offset == 1 + |PreorderForest(root.Children[..i])|
      invariant start + offset <= a.Length
      invariant forall j :: start <= j < start + offset ==> a[j] == Some(([root] + PreorderForest(root.Children[..i]))[j - start])
      invariant forall k :: 0 <= k < a.Length && !(start <= k < start + offset) ==> a[k] == old(a[k])
    {
      var added := PlaceChild(root, i, a, start, offset);
      offset := offset + added;
    }
    assert root.Children[..|root.Children|] == root.Children;
    return offset;
  }

  // ---------------------------------------------------------- importBones

  /** The name-to-index dictionary built over the bone array: reading the
      name of an empty slot fails with a null reference, and Dictionary.Add
      fails on a name already present. */
  function BoneDict(bones: seq<Option<Bone>>): (r: Result<map<string, nat>>)
    decreases |bones|
  {
    if bones == [] then Ok(map[])
    else
      match BoneDict(bones[..|bones| - 1])
      case Err(e) => Err(e)
      case Ok(d) =>
        match bones[|bones| - 1]
        case None => Err(NullReference)
        case Some(b) => if b.Name in d then Err(DuplicateKey(b.Name)) else Ok(d[b.Name := |bones| - 1])
  }

  predicate DistinctNames(bones: seq<Bone>)
  {
    forall i, j :: 0 <= i < j < |bones| ==> bones[i].Name != bones[j].Name
  }

  /** The dictionary is built exactly when every slot holds a bone and no
      two bones share a name; it then maps each bone's name to its index and
      has no other keys. */
  lemma BoneDictSpec(bones: seq<Bone>)
    ensures BoneDict(Somes(bones)).Ok? <==> DistinctNames(bones)
    ensures BoneDict(Somes(bones)).Ok? ==>
      var d := BoneDict(Somes(bones)).value;
      (forall i :: 0 <= i < |bones| ==> bones[i].Name in d && d[bones[i].Name] == i) &&
      (forall name :: name in d ==> exists i :: 0 <= i < |bones| && bones[i].Name == name) &&
      d.Keys == set i | 0 <= i < |bones| :: bones[i].Name
  {
    BoneDictBuilt(bones);
    if BoneDict(Somes(bones)).Ok? {
      var d := BoneDict(Somes(bones)).value;
      forall i | 0 <= i < |bones| ensures bones[i].Name in d && d[bones[i].Name] == i {
        BoneDictIndex(bones, i);
      }
      forall name | name in d ensures exists i :: 0 <= i < |bones| && bones[i].Name == name {
        var i := BoneDictKey(bones, name);
      }
    }
  }

  /** Removing the last bone leaves the dictionary of the others. */
  lemma BoneDictStep(bones: seq<Bone>)
    requires bones != []
    ensures var prior := BoneDict(Somes(bones[..|bones| - 1]));
      var last := bones[|bones| - 1];
      BoneDict(Somes(bones)) ==
        if prior.Err? then prior
        else if last.Name in prior.value then Err(DuplicateKey(last.Name))
        else Ok(prior.value[last.Name := |bones| - 1])
  {
    assert Somes(bones)[..|bones| - 1] == Somes(bones[..|bones| - 1]);
  }

  /** Bone i's name maps to i. */
  lemma {:induction false} BoneDictIndex(bones: seq<Bone>, i: nat)
    requires BoneDict(Somes(bones)).Ok? && i < |bones|
    ensures bones[i].Name in BoneDict(Somes(bones)).value
    ensures BoneDict(Somes(bones)).value[bones[i].Name] == i
    decreases |bones|
  {
    var prefix := bones[..|bones| - 1];
    BoneDictStep(bones);
    if i < |prefix| {
      BoneDictIndex(prefix, i);
      assert prefix[i] == bones[i];
    }
  }

  /** Every key of the dictionary is the name of some bone. */
  lemma {:induction false} BoneDictKey(bones: seq<Bone>, name: string) returns (i: nat)
    requires BoneDict(Somes(bones)).Ok? && name in BoneDict(Somes(bones)).value
    ensures i < |bones| && bones[i].Name == name
    decreases |bones|
  {
    if bones == [] {
      assert false;
    }
    var prefix := bones[..|bones| - 1];
    BoneDictStep(bones);
    if name == bones[|bones| - 1].Name {
      i := |bones| - 1;
    } else {
      i := BoneDictKey(prefix, name);
      assert prefix[i] == bones[i];
    }
  }

  /** The dictionary is built exactly when the names are distinct. */
  lemma {:induction false} BoneDictBuilt(bones: seq<Bone>)
    ensures BoneDict(Somes(bones)).Ok? <==> DistinctNames(bones)
    decreases |bones|
  {
    if bones != [] {
      var prefix := bones[..|bones| - 1];
      var last := bones[|bones| - 1];
      BoneDictStep(bones);
      BoneDictBuilt(prefix);
      var prior := BoneDict(Somes(prefix));
      if prior.Ok? {
        if last.Name in prior.value {
          var i := BoneDictKey(prefix, last.Name);
          assert bones[i].Name == bones[|bones| - 1].Name;
        } else {
          forall i, j | 0 <= i < j < |bones| ensures bones[i].Name != bones[j].Name {
            if j < |prefix| {
              assert prefix[i] == bones[i] && prefix[j] == bones[j];
            } else {
              BoneDictIndex(prefix, i);
              assert prefix[i] == bones[i];
            }
          }
        }
      } else {
        var i, j :| 0 <= i < j < |prefix| && prefix[i].Name == prefix[j].Name;
        assert bones[i].Name == bones[j].Name;
      }
    }
  }

  /** An empty slot in the bone array is reported before anything later. */
  lemma {:induction false} BoneDictNull(bones: seq<Option<Bone>>, k: nat)
    requires k < |bones| && bones[k].None?
    ensures BoneDict(bones).Err?
    decreases |bones|
  {
    if k < |bones| - 1 {
      BoneDictNull(bones[..|bones| - 1], k);
    }
  }

  method BuildBoneDict(bones: array<Option<Bone>>) returns (r: Result<map<string, nat>>)
    ensures r == BoneDict(bones[..])
  {
    var boneDict := map[];
    for i := 0 to bones.Length
      invariant BoneDict(bones[..i]) == Ok(boneDict)
    {
      assert bones[..i + 1][..i] == bones[..i];
      match bones[i]
      case None =>
        BoneDictErrorStays(bones[..], i + 1);
        return Err(NullReference);
      case Some(b) =>
        if b.Name in boneDict {
          BoneDictErrorStays(bones[..], i + 1);
          return Err(DuplicateKey(b.Name));
        }
        boneDict := boneDict[b.Name := i];
    }
    assert bones[..bones.Length] == bones[..];
    return Ok(boneDict);
  }

  /** Once building the dictionary has failed, it fails with the same error
      however many slots follow. */
  lemma {:induction false} BoneDictErrorStays(bones: seq<Option<Bone>>, k: nat)
    requires k <= |bones| && BoneDict(bones[..k]).Err?
    ensures BoneDict(bones) == BoneDict(bones[..k])
    decreases |bones| - k
  {
    if k < |bones| {
      assert bones[..k + 1][..k] == bones[..k];
      BoneDictErrorStays(bones, k + 1);
    } else {
      assert bones[..k] == bones;
    }
  }

  datatype VertexWeight = VertexWeight(VertexID: int, Weight: real)
  /** An Assimp bone of a mesh: the name of a scene node and the vertices it
      moves, with their weights. */
  datatype MeshBone = MeshBone(Name: string, VertexWeights: seq<VertexWeight>)
  datatype Mesh = Mesh(Name: string, VertexCount: nat, Bones: seq<MeshBone>)
  datatype Scene = Scene(RootNode: Node, Meshes: seq<Mesh>)

  /** The bones of all meshes, mesh by mesh. */
  function AllBones(meshes: seq<Mesh>): seq<MeshBone>
  {
    if meshes == [] then [] else AllBones(meshes[..|meshes| - 1]) + meshes[|meshes| - 1].Bones
  }

  /** The set addBranchToSet has built after the given bones. */
  function Needed(armature: Node, bones: seq<MeshBone>): set<Path>
  {
    if bones == [] then {}
    else
      Needed(armature, bones[..|bones| - 1]) +
      match FirstHit(Named(bones[|bones| - 1].Name), armature)
      case Some(p) => Branch([], p)
      case None => {}
  }

  // ------------------------------------------------- the pruned hierarchy

  /** Every ancestor of a needed node is needed too. */
  ghost predicate AncestorClosed(needed: set<Path>)
  {
    forall p, k :: p in needed && 0 <= k <= |p| ==> p[..k] in needed
  }

  /** Every needed path leads to a node of the tree. */
  ghost predicate PathsValid(n: Node, needed: set<Path>)
  {
    forall p :: p in needed ==> ValidPath(n, p)
  }

  /** The bones are those of the nodes at the paths, one for one: the node's
      name, and its transform as the rest pose. */
  predicate Mirrors(root: Node, bones: seq<Bone>, paths: seq<Path>)
  {
    |bones| == |paths| &&
    forall k :: 0 <= k < |paths| ==>
      ValidPath(root, paths[k]) && bones[k].Name == At(root, paths[k]).Name &&
      bones[k].RestPose == At(root, paths[k]).Transform
  }

  /** Paths listed in strict preorder. */
  predicate InPreorder(paths: seq<Path>)
  {
    forall k1, k2 :: 0 <= k1 < k2 < |paths| ==> PreorderBefore(paths[k1], paths[k2])
  }

  /** The paths of the needed nodes of the subtree at `at` that
      constructArmature reaches, in the order the flattened hierarchy lists
      their bones. */
  function NeededPaths(needed: set<Path>, n: Node, at: Path): seq<Path>
    decreases n, |n.Children| + 1
  {
    [at] + NeededPathsIn(needed, n, at, |n.Children|)
  }

  function NeededPathsIn(needed: set<Path>, n: Node, at: Path, i: nat): seq<Path>
    requires i <= |n.Children|
    decreases n, i
  {
    if i == 0 then []
    else
      NeededPathsIn(needed, n, at, i - 1) +
      if at + [i - 1] in needed then NeededPaths(needed, n.Children[i - 1], at + [i - 1]) else []
  }

  lemma {:induction false} ValidPathPrefix(n: Node, p: Path, k: nat)
    requires ValidPath(n, p) && k <= |p|
    ensures ValidPath(n, p[..k])
    decreases p
  {
    if k > 0 {
      assert p[..k][1..] == p[1..][..k - 1];
      ValidPathPrefix(n.Children[p[0]], p[1..], k - 1);
    }
  }

  /** The node one step below the end of a path is a child of the node at
      its end. */
  lemma {:induction false} AtExtend(n: Node, at: Path, j: nat)
    requires ValidPath(n, at) && j < |At(n, at).Children|
    ensures ValidPath(n, at + [j]) && At(n, at + [j]) == At(n, at).Children[j]
    decreases at
  {
    if at == [] {
      assert [j][1..] == [];
    } else {
      assert (at + [j])[1..] == at[1..] + [j];
      AtExtend(n.Children[at[0]], at[1..], j);
    }
  }

  /** A valid path that runs below `at` continues with a child of the node
      at `at`. */
  lemma {:induction false} ValidBelow(n: Node, at: Path, p: Path)
    requires ValidPath(n, p) && at <= p && |at| < |p|
    ensures ValidPath(n, at) && p[|at|] < |At(n, at).Children|
    decreases at
  {
    if at != [] {
      assert at[1..] <= p[1..];
      ValidBelow(n.Children[p[0]], at[1..], p[1..]);
    }
  }

  /** A node comes before every node below it. */
  lemma {:induction false} BeforeDescendant(at: Path, q: Path)
    requires at <= q && |at| < |q|
    ensures PreorderBefore(at, q)
    decreases at
  {
    if at != [] {
      assert at[1..] <= q[1..];
      BeforeDescendant(at[1..], q[1..]);
    }
  }

  /** The subtree of an earlier child comes before that of a later one. */
  lemma {:induction false} BeforeLaterBranch(at: Path, p: Path, q: Path)
    requires at <= p && at <= q && |at| < |p| && |at| < |q| && p[|at|] < q[|at|]
    ensures PreorderBefore(p, q)
    decreases at
  {
    if at != [] {
      assert at[1..] <= p[1..] && at[1..] <= q[1..];
      BeforeLaterBranch(at[1..], p[1..], q[1..]);
    }
  }

  lemma {:induction false} BeforeIrreflexive(p: Path)
    ensures !PreorderBefore(p, p)
    decreases p
  {
    if p != [] {
      BeforeIrreflexive(p[1..]);
    }
  }

  /** A path below child j of the node at `at`. */
  lemma BelowChild(at: Path, j: nat, p: Path)
    requires at + [j] <= p
    ensures at <= p && |at| < |p| && p[|at|] == j
  {
    assert p[..|at| + 1] == at + [j];
    assert p[..|at|] == p[..|at| + 1][..|at|];
  }

  lemma MirrorsAppend(root: Node, b1: seq<Bone>, p1: seq<Path>, b2: seq<Bone>, p2: seq<Path>)
    requires Mirrors(root, b1, p1) && Mirrors(root, b2, p2)
    ensures Mirrors(root, b1 + b2, p1 + p2)
  {
    forall k | |p1| <= k < |p1| + |p2|
      ensures (b1 + b2)[k] == b2[k - |p1|] && (p1 + p2)[k] == p2[k - |p1|]
    {
    }
  }

  lemma PreorderForestSnoc(bs: seq<Bone>, b: Bone)
    ensures PreorderForest(bs + [b]) == PreorderForest(bs) + Preorder(b)
  {
    assert (bs + [b])[..|bs|] == bs;
  }

  /** The bone built for a needed node and its flattened hierarchy list the
      nodes at the needed paths below it, one bone per path. */
  lemma {:induction false} TreeMirrorsPaths(needed: set<Path>, root: Node, n: Node, at: Path)
    requires ValidPath(root, at) && At(root, at) == n && at in needed
    ensures Mirrors(root, Preorder(ConstructArmature(needed, n, at).value), NeededPaths(needed, n, at))
    decreases n, |n.Children| + 1
  {
    var b := ConstructArmature(needed, n, at).value;
    ForestMirrorsPaths(needed, root, n, at, |n.Children|);
    assert Mirrors(root, [b], [at]);
    MirrorsAppend(root, [b], [at], PreorderForest(b.Children), NeededPathsIn(needed, n, at, |n.Children|));
  }

  lemma {:induction false} ForestMirrorsPaths(needed: set<Path>, root: Node, n: Node, at: Path, i: nat)
    requires ValidPath(root, at) && At(root, at) == n && i <= |n.Children|
    ensures Mirrors(root, PreorderForest(ConstructChildren(needed, n, at, i)), NeededPathsIn(needed, n, at, i))
    decreases n, i
  {
    if i > 0 {
      var prior := ConstructChildren(needed, n, at, i - 1);
      var c := at + [i - 1];
      ForestMirrorsPaths(needed, root, n, at, i - 1);
      if c in needed {
        AtExtend(root, at, i - 1);
        TreeMirrorsPaths(needed, root, n.Children[i - 1], c);
        var b := ConstructArmature(needed, n.Children[i - 1], c).value;
        PreorderForestSnoc(prior, b);
        MirrorsAppend(root, PreorderForest(prior), NeededPathsIn(needed, n, at, i - 1),
                      Preorder(b), NeededPaths(needed, n.Children[i - 1], c));
      }
    }
  }

  /** The paths below a needed node start with it, are all needed and below
      it, and come in strict preorder. */
  lemma {:induction false} TreePathsOrdered(needed: set<Path>, n: Node, at: Path)
    requires at in needed
    ensures var ps := NeededPaths(needed, n, at);
      ps[0] == at && InPreorder(ps) && forall k :: 0 <= k < |ps| ==> at <= ps[k] && ps[k] in needed
    decreases n, |n.Children| + 1
  {
    var qs := NeededPathsIn(needed, n, at, |n.Children|);
    var ps := NeededPaths(needed, n, at);
    ForestPathsOrdered(needed, n, at, |n.Children|);
    forall k1, k2 | 0 <= k1 < k2 < |ps|
      ensures PreorderBefore(ps[k1], ps[k2])
    {
      if k1 == 0 {
        BeforeDescendant(at, qs[k2 - 1]);
      }
    }
  }

  lemma {:induction false} ForestPathsOrdered(needed: set<Path>, n: Node, at: Path, i: nat)
    requires i <= |n.Children|
    ensures var qs := NeededPathsIn(needed, n, at, i);
      InPreorder(qs) &&
      forall k :: 0 <= k < |qs| ==> at <= qs[k] && |at| < |qs[k]| && qs[k][|at|] < i && qs[k] in needed
    decreases n, i
  {
    if i > 0 {
      var c := at + [i - 1];
      var prior := NeededPathsIn(needed, n, at, i - 1);
      ForestPathsOrdered(needed, n, at, i - 1);
      if c in needed {
        var sub := NeededPaths(needed, n.Children[i - 1], c);
        TreePathsOrdered(needed, n.Children[i - 1], c);
        forall k | 0 <= k < |sub|
          ensures at <= sub[k] && |at| < |sub[k]| && sub[k][|at|] == i - 1
        {
          BelowChild(at, i - 1, sub[k]);
        }
        var qs := prior + sub;
        forall k1, k2 | 0 <= k1 < k2 < |qs|
          ensures PreorderBefore(qs[k1], qs[k2])
        {
          if k1 < |prior| <= k2 {
            BeforeLaterBranch(at, prior[k1], sub[k2 - |prior|]);
          }
        }
      }
    }
  }

  /** Under an ancestor-closed set, every needed node below a needed node is
      reached. */
  lemma {:induction false} TreePathsCover(needed: set<Path>, root: Node, n: Node, at: Path)
    requires AncestorClosed(needed) && PathsValid(root, needed)
    requires ValidPath(root, at) && At(root, at) == n && at in needed
    ensures forall p :: p in needed && at <= p ==> p in NeededPaths(needed, n, at)
    decreases n, |n.Children| + 1
  {
    ForestPathsCover(needed, root, n, at, |n.Children|);
    forall p | p in needed && at <= p
      ensures p in NeededPaths(needed, n, at)
    {
      if p != at {
        ValidBelow(root, at, p);
      }
    }
  }

  lemma {:induction false} ForestPathsCover(needed: set<Path>, root: Node, n: Node, at: Path, i: nat)
    requires AncestorClosed(needed) && PathsValid(root, needed)
    requires ValidPath(root, at) && At(root, at) == n && i <= |n.Children|
    ensures forall p :: p in needed && at <= p && |at| < |p| && p[|at|] < i ==> p in NeededPathsIn(needed, n, at, i)
    decreases n, i
  {
    if i > 0 {
      var c := at + [i - 1];
      ForestPathsCover(needed, root, n, at, i - 1);
      forall p | p in needed && at <= p && |at| < |p| && p[|at|] == i - 1
        ensures p in NeededPathsIn(needed, n, at, i)
      {
        assert p[..|at| + 1] == c;
        assert c in needed;
        AtExtend(root, at, i - 1);
        TreePathsCover(needed, root, n.Children[i - 1], c);
      }
    }
  }

  /** Paths in strict preorder are distinct, so there are as many as the
      set they form has elements. */
  lemma {:induction false} InPreorderCount(ps: seq<Path>)
    requires InPreorder(ps)
    ensures |set p | p in ps| == |ps|
    decreases |ps|
  {
    if ps != [] {
      var init := ps[..|ps| - 1];
      var last := ps[|ps| - 1];
      InPreorderCount(init);
      assert (set p | p in ps) == (set p | p in init) + {last};
      forall k | 0 <= k < |init|
        ensures init[k] != last
      {
        assert PreorderBefore(ps[k], ps[|ps| - 1]);
        BeforeIrreflexive(last);
      }
    }
  }

  /** constructArmature over a set of needed nodes that holds every
      ancestor of its nodes, the armature root among them: the flattened
      hierarchy has one bone per needed node, carrying that node's name and
      transform, the nodes in preorder; so it has exactly as many bones as
      there are needed nodes. */
  lemma ArmatureHoldsNeeded(needed: set<Path>, armature: Node)
    requires AncestorClosed(needed) && PathsValid(armature, needed) && [] in needed
    ensures var bones := Preorder(ConstructArmature(needed, armature, []).value);
      var paths := NeededPaths(needed, armature, []);
      Mirrors(armature, bones, paths) && InPreorder(paths) &&
      (forall p :: p in needed <==> p in paths) &&
      |bones| == |needed|
  {
    var paths := NeededPaths(needed, armature, []);
    TreeMirrorsPaths(needed, armature, armature, []);
    TreePathsOrdered(needed, armature, []);
    TreePathsCover(needed, armature, armature, []);
    assert (set p | p in paths) == needed;
    InPreorderCount(paths);
  }

  /** The branch from the search root to a node holds every ancestor of its
      nodes, and leads only to nodes of the tree. */
  lemma BranchClosed(armature: Node, p: Path)
    requires ValidPath(armature, p)
    ensures AncestorClosed(Branch([], p)) && PathsValid(armature, Branch([], p))
  {
    forall q, k | q in Branch([], p) && 0 <= k <= |q|
      ensures q[..k] in Branch([], p)
    {
      var j :| 0 <= j <= |p| && q == [] + p[..j];
      assert q[..k] == [] + p[..k];
    }
    forall q | q in Branch([], p)
      ensures ValidPath(armature, q)
    {
      var j :| 0 <= j <= |p| && q == [] + p[..j];
      ValidPathPrefix(armature, p, j);
      assert q == p[..j];
    }
  }

  /** The set addBranchToSet builds holds every ancestor of its nodes, the
      armature root among them as soon as it is not empty, and leads only to
      nodes of the armature. */
  lemma {:induction false} NeededClosed(armature: Node, bones: seq<MeshBone>)
    ensures AncestorClosed(Needed(armature, bones)) && PathsValid(armature, Needed(armature, bones))
    ensures Needed(armature, bones) != {} ==> [] in Needed(armature, bones)
    decreases |bones|
  {
    var needed := Needed(armature, bones);
    if bones != [] {
      NeededClosed(armature, bones[..|bones| - 1]);
      match FirstHit(Named(bones[|bones| - 1].Name), armature)
      case Some(p) =>
        BranchClosed(armature, p);
      case None =>
    }
    if needed != {} {
      var p :| p in needed;
      assert p[..0] == [];
    }
  }

  /** The imported skeleton: the root bone, the bones in preorder, and the
      index of each bone by name. */
  datatype Skeleton = Skeleton(root: Bone, bones: seq<Bone>, boneDict: map<string, nat>)

  /** The two loops of importBones that call addBranchToSet for every bone
      of every mesh. */
  method CollectNeededNodes(neededNodes: NodeSet, armature: Node, meshes: seq<Mesh>)
    modifies neededNodes
    ensures neededNodes.Elements == old(neededNodes.Elements) + Needed(armature, AllBones(meshes))
  {
    ghost var base := neededNodes.Elements;
    for m := 0 to |meshes|
      invariant neededNodes.Elements == base + Needed(armature, AllBones(meshes[..m]))
    {
      assert meshes[..m + 1][..m] == meshes[..m];
      AddMeshBones(neededNodes, armature, base, AllBones(meshes[..m]), meshes[m].Bones);
    }
    assert meshes[..|meshes|] == meshes;
  }

  /** The inner loop of collectNeededNodes: the branch of each bone of one
      mesh, in order, added after those of the bones before it. */
  method AddMeshBones(neededNodes: NodeSet, armature: Node, ghost base: set<Path>, ghost before: seq<MeshBone>,
                      bones: seq<MeshBone>)
    requires neededNodes.Elements == base + Needed(armature, before)
    modifies neededNodes
    ensures neededNodes.Elements == base + Needed(armature, before + bones)
  {
    assert before + bones[..0] == before;
    for b := 0 to |bones|
      invariant neededNodes.Elements == base + Needed(armature, before + bones[..b])
    {
      ghost var sofar := before + bones[..b + 1];
      assert sofar[..|sofar| - 1] == before + bones[..b];
      var found := AddBranchToSet(neededNodes, armature, [], bones[b].Name);
    }
    assert bones[..|bones|] == bones;
  }

  /** importBones: collect the needed nodes, build the hierarchy, flatten it
      into an array of as many slots as there are needed nodes, and index the
      bones by name. The hierarchy always fills the array exactly, so the
      import fails only without an armature, without a needed node, or on a
      repeated bone name. */
  method ImportBones(model: Scene) returns (r: Result<Skeleton>)
    ensures FindArmature(model.RootNode).None? ==>
      r == if |AllBones(model.Meshes)| > 0 then Err(NullReference) else Err(IndexOutOfRange)
    ensures FindArmature(model.RootNode).Some? ==>
      (var armature := FindArmature(model.RootNode).value;
       var needed := Needed(armature, AllBones(model.Meshes));
       var root := ConstructArmature(needed, armature, []);
       (root.Some? <==> needed != {}) &&
       (root.None? ==> r == Err(IndexOutOfRange)) &&
       (root.Some? ==> |Preorder(root.value)| == |needed|) &&
       (r.Ok? <==> root.Some? && DistinctNames(Preorder(root.value))) &&
       (r.Ok? ==>
         r.value.root == root.value &&
         r.value.bones == Preorder(root.value) &&
         (forall i :: 0 <= i < |r.value.bones| ==>
           r.value.bones[i].Name in r.value.boneDict && r.value.boneDict[r.value.bones[i].Name] == i) &&
         r.value.boneDict.Keys == set i | 0 <= i < |r.value.bones| :: r.value.bones[i].Name))
  {
    var armatureRoot := FindArmature(model.RootNode);
    var neededNodes := new NodeSet();
    if armatureRoot.None? {
      if |AllBones(model.Meshes)| > 0 {
        // addBranchToSet reads the name of a null node
        return Err(NullReference);
      }
      // constructArmature(null) is null and placeBonesInArray writes it to slot 0 of an empty array
      return Err(IndexOutOfRange);
    }
    CollectNeededNodes(neededNodes, armatureRoot.value, model.Meshes);
    NeededClosed(armatureRoot.value, AllBones(model.Meshes));
    var root := ConstructArmature(neededNodes.Elements, armatureRoot.value, []);
    var count := |neededNodes.Elements|;
    var bones := new Option<Bone>[count](_ => None);
    if root.None? {
      // no needed node: placeBonesInArray writes the null root to slot 0 of an empty array
      return Err(IndexOutOfRange);
    }
    ArmatureHoldsNeeded(neededNodes.Elements, armatureRoot.value);
    var tree := Preorder(root.value);
    var placed := PlaceBonesInArray(root.value, bones, 0);
    var dict := BuildBoneDict(bones);
    assert bones[..] == Somes(tree);
    BoneDictSpec(tree);
    match dict
    case Err(e) =>
      return Err(e);
    case Ok(boneDict) =>
      return Ok(Skeleton(root.value, tree, boneDict));
  }

  lemma AllBonesNonEmpty(meshes: seq<Mesh>, m: nat, b: nat)
    requires m < |meshes| && b < |meshes[m].Bones|
    ensures |AllBones(meshes)| > 0
  {
    AllBonesGrows(meshes, m + 1);
    assert meshes[..m + 1][..m] == meshes[..m];
  }

  lemma {:induction false} AllBonesGrows(meshes: seq<Mesh>, k: nat)
    requires k <= |meshes|
    ensures |AllBones(meshes[..k])| <= |AllBones(meshes)|
    decreases |meshes| - k
  {
    if k < |meshes| {
      AllBonesGrows(meshes, k + 1);
      assert meshes[..k + 1][..k] == meshes[..k];
    } else {
      assert meshes[..k] == meshes;
    }
  }
}
