/** collectVertexWeights: the per-vertex lists of (bone index, weight) pairs
    gathered from a mesh's bones, and their flattening into the prefix-offset
    layout (a count and a start offset per vertex, and one flat array each of
    bone indices and weights). */
module VertexWeights {
  import opened Common
  import opened MeshImporter

  /** One entry of a vertex's lists: the bone's array index and its weight.
      The C# code keeps two parallel lists per vertex that always grow
      together; they are one list of pairs here. */
  datatype Influence = Influence(Bone: nat, Weight: real)

  type WeightEntry = (string, VertexWeight)

  /** The (bone name, vertex weight) pairs in the order the two foreach
      loops visit them: bone by bone, and each bone's weights in order. */
  function WeightEntries(bones: seq<MeshBone>): (es: seq<WeightEntry>)
    decreases |bones|
  {
    if bones == [] then []
    else WeightEntries(bones[..|bones| - 1]) + BoneEntries(bones[|bones| - 1])
  }

  function BoneEntries(b: MeshBone): (es: seq<WeightEntry>)
    ensures |es| == |b.VertexWeights|
  {
    seq(|b.VertexWeights|, k requires 0 <= k < |b.VertexWeights| => (b.Name, b.VertexWeights[k]))
  }

  /** The first loop of collectVertexWeights: every entry looks its bone up
      in the dictionary (an unknown name throws) and appends to the list of
      its vertex (an index outside the mesh throws). */
  function Gather(es: seq<WeightEntry>, dict: map<string, nat>, vertexCount: nat): (r: Result<seq<seq<Influence>>>)
    ensures r.Ok? ==> |r.value| == vertexCount
    decreases |es|
  {
    if es == [] then Ok(seq(vertexCount, _ => []))
    else
      var prev := Gather(es[..|es| - 1], dict, vertexCount);
      var name := es[|es| - 1].0;
      var vw := es[|es| - 1].1;
      if prev.Err? then prev
      else if name !in dict then Err(NonexistentBone(name))
      else if !(0 <= vw.VertexID < vertexCount) then Err(IndexOutOfRange)
      else Ok(prev.value[vw.VertexID := prev.value[vw.VertexID] + [Influence(dict[name], vw.Weight)]])
  }

  predicate ValidEntry(e: WeightEntry, dict: map<string, nat>, vertexCount: nat)
  {
    e.0 in dict && 0 <= e.1.VertexID < vertexCount
  }

  /** The influences on vertex v, in the order the entries list them: the
      reference against which the gathered lists are checked. */
  function InfluencesOn(es: seq<WeightEntry>, dict: map<string, nat>, v: int): seq<Influence>
    requires forall k :: 0 <= k < |es| ==> es[k].0 in dict
    decreases |es|
  {
    if es == [] then []
    else
      var e := es[|es| - 1];
      InfluencesOn(es[..|es| - 1], dict, v) + (if e.1.VertexID == v then [Influence(dict[e.0], e.1.Weight)] else [])
  }

  /** Gathering succeeds exactly when every entry names a known bone and a
      vertex of the mesh, and then each vertex's list holds its influences
      in insertion order. */
  lemma {:induction false} GatherSpec(es: seq<WeightEntry>, dict: map<string, nat>, vertexCount: nat)
    ensures Gather(es, dict, vertexCount).Ok? <==> forall k :: 0 <= k < |es| ==> ValidEntry(es[k], dict, vertexCount)
    ensures Gather(es, dict, vertexCount).Ok? ==>
      forall v :: 0 <= v < vertexCount ==> Gather(es, dict, vertexCount).value[v] == InfluencesOn(es, dict, v)
    decreases |es|
  {
    if es != [] {
      var init := es[..|es| - 1];
      GatherSpec(init, dict, vertexCount);
      assert forall k :: 0 <= k < |init| ==> init[k] == es[k];
      var e := es[|es| - 1];
      if Gather(es, dict, vertexCount).Ok? {
        assert Gather(init, dict, vertexCount).Ok?;
      }
    }
  }

  /** An error met on a prefix of the entries is the error of the whole. */
  lemma {:induction false} GatherErrorStays(es: seq<WeightEntry>, fs: seq<WeightEntry>, dict: map<string, nat>, vertexCount: nat)
    requires es <= fs
    requires Gather(es, dict, vertexCount).Err?
    ensures Gather(fs, dict, vertexCount) == Gather(es, dict, vertexCount)
    decreases |fs|
  {
    if |fs| > |es| {
      var init := fs[..|fs| - 1];
      assert es <= init;
      GatherErrorStays(es, init, dict, vertexCount);
    } else {
      assert es == fs;
    }
  }

  /** One more bone adds its weights after those of the bones before it. */
  lemma WeightEntriesStep(bones: seq<MeshBone>, b: nat)
    requires b < |bones|
    ensures WeightEntries(bones[..b + 1]) == WeightEntries(bones[..b]) + BoneEntries(bones[b])
  {
    assert bones[..b + 1][..b] == bones[..b];
  }

  lemma {:induction false} WeightEntriesPrefix(bones: seq<MeshBone>, j: nat)
    requires j <= |bones|
    ensures WeightEntries(bones[..j]) <= WeightEntries(bones)
    decreases |bones|
  {
    if j < |bones| {
      var init := bones[..|bones| - 1];
      assert init[..j] == bones[..j];
      WeightEntriesPrefix(init, j);
    } else {
      assert bones[..j] == bones;
    }
  }

  // ------------------------------------------------------- the flat layout

  function Counts(lists: seq<seq<Influence>>): (cs: seq<nat>)
    ensures |cs| == |lists|
    ensures forall i :: 0 <= i < |lists| ==> cs[i] == |lists[i]|
  {
    seq(|lists|, i requires 0 <= i < |lists| => |lists[i]|)
  }

  function Sum(s: seq<nat>): nat
    decreases |s|
  {
    if s == [] then 0 else Sum(s[..|s| - 1]) + s[|s| - 1]
  }

  /** The exclusive prefix sum: where vertex i starts reading. */
  function StartOffset(lists: seq<seq<Influence>>, i: nat): nat
    requires i <= |lists|
  {
    Sum(Counts(lists[..i]))
  }

  /** The lists laid end to end; its length is the sum of the counts. */
  function Concat(lists: seq<seq<Influence>>): (c: seq<Influence>)
    ensures |c| == Sum(Counts(lists))
    decreases |lists|
  {
    if lists == [] then []
    else
      assert Counts(lists)[..|lists| - 1] == Counts(lists[..|lists| - 1]);
      Concat(lists[..|lists| - 1]) + lists[|lists| - 1]
  }

  lemma {:induction false} ConcatPrefix(lists: seq<seq<Influence>>, i: nat)
    requires i <= |lists|
    ensures Concat(lists[..i]) <= Concat(lists)
    decreases |lists|
  {
    if i < |lists| {
      var init := lists[..|lists| - 1];
      assert init[..i] == lists[..i];
      ConcatPrefix(init, i);
    } else {
      assert lists[..i] == lists;
    }
  }

  /** Vertex i's slice of the flat arrays, [start_i, start_i + count_i), is
      exactly vertex i's list. */
  lemma ConcatSlice(lists: seq<seq<Influence>>, i: nat)
    requires i < |lists|
    ensures StartOffset(lists, i) + |lists[i]| == StartOffset(lists, i + 1) <= |Concat(lists)|
    ensures Concat(lists)[StartOffset(lists, i)..StartOffset(lists, i) + |lists[i]|] == lists[i]
  {
    var pre := lists[..i + 1];
    assert pre[..i] == lists[..i];
    ConcatPrefix(lists, i + 1);
    assert Counts(pre)[..i] == Counts(lists[..i]);
    assert Concat(pre) == Concat(lists[..i]) + lists[i];
  }

  /** Every gathered entry lands in exactly one vertex list, so the flat
      arrays hold as many pairs as there are vertex weights. */
  lemma {:induction false} GatherTotal(es: seq<WeightEntry>, dict: map<string, nat>, vertexCount: nat)
    requires Gather(es, dict, vertexCount).Ok?
    ensures Sum(Counts(Gather(es, dict, vertexCount).value)) == |es|
    decreases |es|
  {
    if es == [] {
      ZeroSum(Counts(Gather(es, dict, vertexCount).value));
    } else {
      var init := es[..|es| - 1];
      GatherTotal(init, dict, vertexCount);
      var prev := Gather(init, dict, vertexCount).value;
      var v := es[|es| - 1].1.VertexID;
      var x := Influence(dict[es[|es| - 1].0], es[|es| - 1].1.Weight);
      assert Counts(prev[v := prev[v] + [x]]) == Counts(prev)[v := |prev[v]| + 1];
      SumUpdate(Counts(prev), v, |prev[v]| + 1);
    }
  }

  lemma {:induction false} ZeroSum(s: seq<nat>)
    requires forall i :: 0 <= i < |s| ==> s[i] == 0
    ensures Sum(s) == 0
    decreases |s|
  {
    if s != [] {
      ZeroSum(s[..|s| - 1]);
    }
  }

  lemma {:induction false} SumUpdate(s: seq<nat>, i: nat, x: nat)
    requires i < |s|
    ensures Sum(s[i := x]) + s[i] == Sum(s) + x
    decreases |s|
  {
    var n := |s| - 1;
    if i < n {
      SumUpdate(s[..n], i, x);
      assert s[i := x][..n] == s[..n][i := x];
    } else {
      assert s[i := x][..n] == s[..n];
    }
  }

  function MaxCount(s: seq<nat>): nat
    decreases |s|
  {
    if s == [] then 0
    else
      var m := MaxCount(s[..|s| - 1]);
      if s[|s| - 1] > m then s[|s| - 1] else m
  }

  /** maxNumBones bounds every count and is one of them (0 for a mesh
      without vertices). */
  lemma {:induction false} MaxCountSpec(s: seq<nat>)
    ensures forall i :: 0 <= i < |s| ==> s[i] <= MaxCount(s)
    ensures s == [] ==> MaxCount(s) == 0
    ensures s != [] ==> exists i :: 0 <= i < |s| && s[i] == MaxCount(s)
    decreases |s|
  {
    if s != [] {
      var init := s[..|s| - 1];
      MaxCountSpec(init);
      assert forall i :: 0 <= i < |init| ==> s[i] == init[i];
      if init != [] && MaxCount(s) == MaxCount(init) {
        var j :| 0 <= j < |init| && init[j] == MaxCount(init);
        assert s[j] == MaxCount(s);
      }
    }
  }

  /** What collectVertexWeights computes before it prints maxNumBones. */
  datatype WeightLayout = WeightLayout(
    NumBones: seq<nat>,
    StartOffset: seq<nat>,
    BoneIDs: seq<nat>,
    Weights: seq<real>,
    MaxNumBones: nat)

  /** The first loop: gather every vertex's list, or stop at the first
      entry that throws. */
  method FillLists(m: Mesh, dict: map<string, nat>, lists: array<seq<Influence>>) returns (err: Option<Error>)
    requires lists.Length == m.VertexCount
    requires forall v :: 0 <= v < lists.Length ==> lists[v] == []
    modifies lists
    ensures var g := Gather(WeightEntries(m.Bones), dict, m.VertexCount);
      (g.Ok? ==> err.None? && lists[..] == g.value) && (g.Err? ==> err == Some(g.error))
  {
    err := None;
    assert lists[..] == seq(m.VertexCount, _ => []);
    for b := 0 to |m.Bones|
      invariant Gather(WeightEntries(m.Bones[..b]), dict, m.VertexCount) == Ok(lists[..])
    {
      WeightEntriesStep(m.Bones, b);
      err := AddBoneWeights(m.Bones[b], dict, lists, WeightEntries(m.Bones[..b]));
      if err.Some? {
        WeightEntriesPrefix(m.Bones, b + 1);
        GatherErrorStays(WeightEntries(m.Bones[..b + 1]), WeightEntries(m.Bones), dict, m.VertexCount);
        return;
      }
    }
    assert m.Bones[..|m.Bones|] == m.Bones;
    return None;
  }

  /** The inner loop of the first loop: one bone's weights. */
  method AddBoneWeights(bone: MeshBone, dict: map<string, nat>, lists: array<seq<Influence>>, ghost done: seq<WeightEntry>)
    returns (err: Option<Error>)
    requires Gather(done, dict, lists.Length) == Ok(lists[..])
    modifies lists
    ensures var g := Gather(done + BoneEntries(bone), dict, lists.Length);
      (g.Ok? ==> err.None? && lists[..] == g.value) && (g.Err? ==> err == Some(g.error))
  {
    ghost var all := done + BoneEntries(bone);
    assert done + BoneEntries(bone)[..0] == done;
    for k := 0 to |bone.VertexWeights|
      invariant Gather(done + BoneEntries(bone)[..k], dict, lists.Length) == Ok(lists[..])
    {
      var vw := bone.VertexWeights[k];
      ghost var es := done + BoneEntries(bone)[..k + 1];
      assert es[..|es| - 1] == done + BoneEntries(bone)[..k];
      assert es[|es| - 1] == (bone.Name, vw);
      assert es <= all;
      if bone.Name !in dict {
        GatherErrorStays(es, all, dict, lists.Length);
        return Some(NonexistentBone(bone.Name));
      }
      if !(0 <= vw.VertexID < lists.Length) {
        GatherErrorStays(es, all, dict, lists.Length);
        return Some(IndexOutOfRange);
      }
      lists[vw.VertexID] := lists[vw.VertexID] + [Influence(dict[bone.Name], vw.Weight)];
    }
    assert BoneEntries(bone)[..|bone.VertexWeights|] == BoneEntries(bone);
    return None;
  }

  /** The second loop: each vertex's count, and its start offset as the
      running total of the counts before it. */
  method Offsets(lists: array<seq<Influence>>) returns (numBones: array<nat>, startOffset: array<nat>, total: nat)
    ensures numBones.Length == startOffset.Length == lists.Length
    ensures numBones[..] == Counts(lists[..])
    ensures forall i :: 0 <= i < lists.Length ==> startOffset[i] == StartOffset(lists[..], i)
    ensures total == Sum(Counts(lists[..]))
  {
    numBones := new nat[lists.Length];
    startOffset := new nat[lists.Length];
    total := 0;
    for i := 0 to lists.Length
      invariant total == StartOffset(lists[..], i)
      invariant forall k :: 0 <= k < i ==> numBones[k] == |lists[k]| && startOffset[k] == StartOffset(lists[..], k)
    {
      startOffset[i] := total;
      var count := |lists[i]|;
      OffsetStep(lists[..], i);
      total := total + count;
      numBones[i] := count;
    }
    assert lists[..][..lists.Length] == lists[..];
  }

  lemma OffsetStep(lists: seq<seq<Influence>>, i: nat)
    requires i < |lists|
    ensures StartOffset(lists, i + 1) == StartOffset(lists, i) + |lists[i]|
  {
    assert Counts(lists[..i + 1])[..i] == Counts(lists[..i]);
  }

  /** Writes vertex i's list into its slice of the flat arrays, after the
      slices of the vertices before it. */
  method CopyVertex(lists: seq<seq<Influence>>, i: nat, start: nat, ids: array<nat>, weights: array<real>)
    requires i < |lists| && start == StartOffset(lists, i) <= |Concat(lists)|
    requires ids.Length == weights.Length == |Concat(lists)|
    requires forall j :: 0 <= j < start ==> ids[j] == Concat(lists)[j].Bone && weights[j] == Concat(lists)[j].Weight
    modifies ids, weights
    ensures StartOffset(lists, i + 1) <= |Concat(lists)|
    ensures forall j :: 0 <= j < StartOffset(lists, i + 1) ==>
      ids[j] == Concat(lists)[j].Bone && weights[j] == Concat(lists)[j].Weight
  {
    ghost var flat := Concat(lists);
    ConcatSlice(lists, i);
    var list := lists[i];
    ghost var next := start + |list|;
    CopyList(list, start, ids, weights);
    forall j | 0 <= j < next
      ensures ids[j] == flat[j].Bone && weights[j] == flat[j].Weight
    {
      if start <= j {
        assert flat[j] == flat[start..next][j - start] == list[j - start];
      }
    }
  }

  method FillFlat(lists: seq<seq<Influence>>, startOffset: array<nat>, ids: array<nat>, weights: array<real>)
    requires startOffset.Length == |lists|
    requires forall i :: 0 <= i < |lists| ==> startOffset[i] == StartOffset(lists, i)
    requires ids.Length == weights.Length == Sum(Counts(lists))
    requires startOffset != ids
    modifies ids, weights
    ensures forall j :: 0 <= j < ids.Length ==> ids[j] == Concat(lists)[j].Bone && weights[j] == Concat(lists)[j].Weight
  {
    ghost var flat := Concat(lists);
    for i := 0 to |lists|
      invariant StartOffset(lists, i) <= |flat|
      invariant forall j :: 0 <= j < StartOffset(lists, i) ==> ids[j] == flat[j].Bone && weights[j] == flat[j].Weight
    {
      CopyVertex(lists, i, startOffset[i], ids, weights);
    }
    if |lists| > 0 {
      ConcatSlice(lists, |lists| - 1);
    }
    assert lists[..|lists|] == lists;
  }

  /** The inner loop of the third: vertex i's pairs written from its start
      offset on, the rest of the arrays left as they were. */
  method CopyList(list: seq<Influence>, start: nat, ids: array<nat>, weights: array<real>)
    requires start + |list| <= ids.Length && start + |list| <= weights.Length
    modifies ids, weights
    ensures forall j :: 0 <= j < ids.Length && !(start <= j < start + |list|) ==> ids[j] == old(ids[j])
    ensures forall j :: 0 <= j < weights.Length && !(start <= j < start + |list|) ==> weights[j] == old(weights[j])
    ensures forall k :: 0 <= k < |list| ==> ids[start + k] == list[k].Bone && weights[start + k] == list[k].Weight
  {
    for k := 0 to |list|
      invariant forall j :: 0 <= j < ids.Length && !(start <= j < start + k) ==> ids[j] == old(ids[j])
      invariant forall j :: 0 <= j < weights.Length && !(start <= j < start + k) ==> weights[j] == old(weights[j])
      invariant forall q :: 0 <= q < k ==> ids[start + q] == list[q].Bone && weights[start + q] == list[q].Weight
    {
      ids[start + k] := list[k].Bone;
      weights[start + k] := list[k].Weight;
    }
  }

  /** The last loop of collectVertexWeights: the largest number of bones
      on one vertex. */
  method MaxNumBones(numBones: array<nat>) returns (maxNumBones: nat)
    ensures maxNumBones == MaxCount(numBones[..])
  {
    maxNumBones := 0;
    for i := 0 to numBones.Length
      invariant maxNumBones == MaxCount(numBones[..i])
    {
      assert numBones[..i + 1][..i] == numBones[..i];
      if numBones[i] > maxNumBones {
        maxNumBones := numBones[i];
      }
    }
    assert numBones[..numBones.Length] == numBones[..];
  }

  /** The arrays collectVertexWeights builds from the per-vertex lists:
      each vertex's count, its start offset, the pairs laid end to end, and
      the largest count. */
  ghost predicate LaysOut(w: WeightLayout, lists: seq<seq<Influence>>)
  {
    && w.NumBones == Counts(lists)
    && |w.StartOffset| == |lists|
    && (forall i :: 0 <= i < |lists| ==> w.StartOffset[i] == StartOffset(lists, i))
    && |w.BoneIDs| == |w.Weights| == |Concat(lists)|
    && (forall j :: 0 <= j < |w.BoneIDs| ==>
          w.BoneIDs[j] == Concat(lists)[j].Bone && w.Weights[j] == Concat(lists)[j].Weight)
    && w.MaxNumBones == MaxCount(Counts(lists))
  }

  /** The second, third and fourth loops of collectVertexWeights, over the
      gathered lists. */
  method LayOut(lists: array<seq<Influence>>) returns (w: WeightLayout)
    ensures LaysOut(w, lists[..])
  {
    var numBones, startOffset, total := Offsets(lists);
    var ids := new nat[total];
    var weights := new real[total];
    FillFlat(lists[..], startOffset, ids, weights);
    var maxNumBones := MaxNumBones(numBones);
    w := WeightLayout(numBones[..], startOffset[..], ids[..], weights[..], maxNumBones);
  }

  /** collectVertexWeights. The C# method prints maxNumBones and discards
      the arrays; the model returns them. */
  method CollectVertexWeights(m: Mesh, boneDict: map<string, nat>) returns (r: Result<WeightLayout>)
    ensures var g := Gather(WeightEntries(m.Bones), boneDict, m.VertexCount);
      (g.Err? ==> r == Err(g.error)) && (g.Ok? ==> r.Ok? && LaysOut(r.value, g.value))
  {
    var lists := new seq<Influence>[m.VertexCount](_ => []);
    var err := FillLists(m, boneDict, lists);
    if err.Some? {
      return Err(err.value);
    }
    var layout := LayOut(lists);
    return Ok(layout);
  }

  /** The prefix-offset layout, stated against the entries: vertex v's
      slice of the flat arrays lists the weights on v in insertion order, and
      the flat arrays hold one pair per vertex weight. */
  lemma LayoutSlices(m: Mesh, boneDict: map<string, nat>, v: nat)
    requires Gather(WeightEntries(m.Bones), boneDict, m.VertexCount).Ok?
    requires v < m.VertexCount
    ensures var es := WeightEntries(m.Bones);
      var lists := Gather(es, boneDict, m.VertexCount).value;
      (forall k :: 0 <= k < |es| ==> es[k].0 in boneDict) &&
      |Concat(lists)| == |es| &&
      StartOffset(lists, v) + |lists[v]| <= |Concat(lists)|
    ensures var es := WeightEntries(m.Bones);
      var lists := Gather(es, boneDict, m.VertexCount).value;
      Concat(lists)[StartOffset(lists, v)..StartOffset(lists, v) + |lists[v]|] == InfluencesOn(es, boneDict, v)
  {
    var es := WeightEntries(m.Bones);
    GatherSpec(es, boneDict, m.VertexCount);
    GatherTotal(es, boneDict, m.VertexCount);
    var lists := Gather(es, boneDict, m.VertexCount).value;
    ConcatSlice(lists, v);
    forall k | 0 <= k < |es| ensures es[k].0 in boneDict {
      assert ValidEntry(es[k], boneDict, m.VertexCount);
    }
    assert lists[v] == InfluencesOn(es, boneDict, v);
  }
}
