/** The shape-key preprocessor (ShapeKeyImporter): it reads the vertex
    positions of the basis frame and of each morph frame from OBJ exports,
    finds the vertices a morph moves, and matches each moved vertex to the
    vertex of the same position in the imported character mesh, producing
    (mesh, vertex, displacement) records. The files are given as their
    lines; the imported scene is given as its meshes' vertex lists. */
module ShapeKeys {
  import opened Common
  import opened Text

  /** Two positions closer than this are the same vertex; a vertex that
      moves less than this has not moved. */
  const Closeness: real := 0.000001

  /** The length of v is above d, compared on squares. */
  predicate LongerThan(v: Vec3, d: real)
  {
    v.LengthSquared() > d * d
  }

  /** The length of v is below d, compared on squares. */
  predicate ShorterThan(v: Vec3, d: real)
  {
    v.LengthSquared() < d * d
  }

  /** A vertex of the basis and how far a morph moves it. */
  datatype MorphDisplacement = MorphDisplacement(source: Vec3, displacement: Vec3)

  /** A moved vertex named by its mesh and its index in that mesh. */
  datatype IDDisplacement = IDDisplacement(meshNum: nat, vertID: nat, displacement: Vec3)

  // ------------------------------------------------------- VerticesFromFile

  /** Piece k of a split line as a float: the index is checked first
      (IndexOutOfRange), then the parse (FormatException). */
  function RealPiece(pieces: seq<string>, k: nat): (r: Result<real>)
    ensures r.Ok? <==> k < |pieces| && ParseReal(pieces[k]).Some?
    ensures r.Ok? ==> ParseReal(pieces[k]) == Some(r.value)
    ensures r.Err? ==> r.error == (if k >= |pieces| then IndexOutOfRange else FormatError("v"))
  {
    if k >= |pieces| then Err(IndexOutOfRange)
    else match ParseReal(pieces[k])
      case None => Err(FormatError("v"))
      case Some(v) => Ok(v)
  }

  /** Whether a line is a vertex line: its first space-separated piece is
      "v". */
  predicate IsVertexLine(line: string)
  {
    Split(line, ' ')[0] == "v"
  }

  /** One line of an OBJ file: None for a line that is not a vertex line,
      the vertex for a "v x y z" line, and the exception otherwise; the
      three coordinates are read in order, each failing on its own. */
  function VertexOfLine(line: string): (r: Result<Option<Vec3>>)
    ensures r == Ok(None) <==> !IsVertexLine(line)
    ensures r.Ok? && r.value.Some? ==>
      var pieces := Split(line, ' ');
      |pieces| >= 4 && ParseReal(pieces[1]) == Some(r.value.value.x) &&
      ParseReal(pieces[2]) == Some(r.value.value.y) && ParseReal(pieces[3]) == Some(r.value.value.z)
  {
    var pieces := Split(line, ' ');
    if pieces[0] != "v" then Ok(None)
    else match RealPiece(pieces, 1)
      case Err(e) => Err(e)
      case Ok(x) => match RealPiece(pieces, 2)
        case Err(e) => Err(e)
        case Ok(y) => match RealPiece(pieces, 3)
          case Err(e) => Err(e)
          case Ok(z) => Ok(Some(Vec3(x, y, z)))
  }

  /** The vertices of a file, read line by line; the first bad vertex line
      ends the read with its exception. */
  function VerticesOf(lines: seq<string>): Result<seq<Vec3>>
  {
    if |lines| == 0 then Ok([])
    else match VerticesOf(lines[..|lines| - 1])
      case Err(e) => Err(e)
      case Ok(vs) => match VertexOfLine(lines[|lines| - 1])
        case Err(e) => Err(e)
        case Ok(None) => Ok(vs)
        case Ok(Some(v)) => Ok(vs + [v])
  }

  /** The vertex lines of a file, in file order. */
  function VertexLinesOf(lines: seq<string>): (r: seq<string>)
    ensures forall k | 0 <= k < |r| :: IsVertexLine(r[k])
  {
    if |lines| == 0 then []
    else VertexLinesOf(lines[..|lines| - 1]) + (if IsVertexLine(lines[|lines| - 1]) then [lines[|lines| - 1]] else [])
  }

  /** A successful read keeps exactly the vertex lines, in file order: the
      k-th vertex is the one the k-th vertex line spells out. */
  lemma {:induction false} VerticesAreVertexLines(lines: seq<string>)
    requires VerticesOf(lines).Ok?
    ensures var vs := VerticesOf(lines).value;
      |vs| == |VertexLinesOf(lines)| &&
      forall k | 0 <= k < |vs| :: VertexOfLine(VertexLinesOf(lines)[k]) == Ok(Some(vs[k]))
  {
    if |lines| > 0 {
      VerticesAreVertexLines(lines[..|lines| - 1]);
    }
  }

  /** A float formatting under which x prints without a space and parses
      back to x. */
  predicate ReadsBack(fmt: real -> string, x: real)
  {
    ' ' !in fmt(x) && ParseReal(fmt(x)) == Some(x)
  }

  /** A vertex written as an OBJ "v x y z" line. */
  function ObjVertexLine(v: Vec3, fmt: real -> string): string
  {
    Join(["v", fmt(v.x), fmt(v.y), fmt(v.z)], ' ')
  }

  /** Reading an OBJ vertex line gives back the vertex written. */
  lemma ObjVertexLineReadsBack(v: Vec3, fmt: real -> string)
    requires ReadsBack(fmt, v.x) && ReadsBack(fmt, v.y) && ReadsBack(fmt, v.z)
    ensures VertexOfLine(ObjVertexLine(v, fmt)) == Ok(Some(v))
  {
    var parts := ["v", fmt(v.x), fmt(v.y), fmt(v.z)];
    SplitJoin(parts, ' ');
  }

  /** VerticesFromFile: the vertices of the file's lines, in order, or the
      exception of its first bad vertex line. */
  method VerticesFromFile(lines: seq<string>) returns (r: Result<seq<Vec3>>)
    ensures r == VerticesOf(lines)
  {
    var verts: seq<Vec3> := [];
    var i := 0;
    while i < |lines|
      invariant 0 <= i <= |lines|
      invariant VerticesOf(lines[..i]) == Ok(verts)
    {
      assert lines[..i + 1][..i] == lines[..i];
      var pieces := Split(lines[i], ' ');
      if pieces[0] != "v" {
        i := i + 1;
        continue;
      }
      var failure: Option<Error> := None;
      var x, y, z := None, None, None;
      if |pieces| < 2 {
        failure := Some(IndexOutOfRange);
      } else {
        x := ParseReal(pieces[1]);
        if x.None? {
          failure := Some(FormatError("v"));
        } else if |pieces| < 3 {
          failure := Some(IndexOutOfRange);
        } else {
          y := ParseReal(pieces[2]);
          if y.None? {
            failure := Some(FormatError("v"));
          } else if |pieces| < 4 {
            failure := Some(IndexOutOfRange);
          } else {
            z := ParseReal(pieces[3]);
            if z.None? {
              failure := Some(FormatError("v"));
            }
          }
        }
      }
      if failure.Some? {
        assert VertexOfLine(lines[i]) == Err(failure.value);
        VerticesErrorStays(lines, i + 1, |lines|);
        assert lines[..|lines|] == lines;
        return Err(failure.value);
      }
      verts := verts + [Vec3(x.value, y.value, z.value)];
      i := i + 1;
    }
    assert lines[..i] == lines;
    r := Ok(verts);
  }

  /** Once a prefix of the file fails, every longer prefix fails the same
      way: the read stops at the first bad vertex line. */
  lemma {:induction false} VerticesErrorStays(lines: seq<string>, n: nat, m: nat)
    requires n <= m <= |lines| && VerticesOf(lines[..n]).Err?
    ensures VerticesOf(lines[..m]) == VerticesOf(lines[..n])
  {
    if n < m {
      VerticesErrorStays(lines, n, m - 1);
      assert lines[..m][..m - 1] == lines[..m - 1];
    }
  }

  // ------------------------------------------------------------ differences

  /** Whether the morph moves vertex i of the basis. */
  predicate Moves(basis: seq<Vec3>, morph: seq<Vec3>, i: nat)
    requires i < |basis| && i < |morph|
  {
    LongerThan(morph[i].Minus(basis[i]), Closeness)
  }

  /** The displacement record of vertex i. */
  function DisplacementAt(basis: seq<Vec3>, morph: seq<Vec3>, i: nat): MorphDisplacement
    requires i < |basis| && i < |morph|
  {
    MorphDisplacement(basis[i], morph[i].Minus(basis[i]))
  }

  /** The records of the moved vertices among the first n, in index order. */
  function DiffsOf(basis: seq<Vec3>, morph: seq<Vec3>, n: nat): (r: seq<MorphDisplacement>)
    requires n <= |basis| <= |morph|
    ensures |r| <= n
  {
    if n == 0 then []
    else DiffsOf(basis, morph, n - 1) + (if Moves(basis, morph, n - 1) then [DisplacementAt(basis, morph, n - 1)] else [])
  }

  /** differences(basis, morph): the records of the moved basis vertices,
      or an IndexOutOfRangeException when the morph has fewer vertices
      than the basis. */
  function DifferencesOf(basis: seq<Vec3>, morph: seq<Vec3>): Result<seq<MorphDisplacement>>
  {
    if |morph| < |basis| then Err(IndexOutOfRange) else Ok(DiffsOf(basis, morph, |basis|))
  }

  /** A record is among the differences exactly when it is the record of a
      vertex the morph moves; and adding its displacement to its source
      gives that vertex's morphed position. */
  lemma {:induction false} DiffsMembers(basis: seq<Vec3>, morph: seq<Vec3>, n: nat, d: MorphDisplacement)
    requires n <= |basis| <= |morph|
    ensures d in DiffsOf(basis, morph, n) <==>
      exists i :: 0 <= i < n && Moves(basis, morph, i) && DisplacementAt(basis, morph, i) == d
    ensures d in DiffsOf(basis, morph, n) ==> LongerThan(d.displacement, Closeness)
    ensures d in DiffsOf(basis, morph, n) ==> d.source.Plus(d.displacement) in morph
  {
    if n > 0 {
      DiffsMembers(basis, morph, n - 1, d);
      var i := n - 1;
      if d == DisplacementAt(basis, morph, i) {
        assert d.source.Plus(d.displacement) == morph[i];
      }
    }
  }

  /** The records come in index order: the records of the first n vertices
      are a prefix of the records of the first m. */
  lemma {:induction false} DiffsInIndexOrder(basis: seq<Vec3>, morph: seq<Vec3>, n: nat, m: nat)
    requires n <= m <= |basis| <= |morph|
    ensures DiffsOf(basis, morph, n) <= DiffsOf(basis, morph, m)
    decreases m - n
  {
    if n < m {
      DiffsInIndexOrder(basis, morph, n, m - 1);
    }
  }

  /** A morph that leaves the basis where it is has no differences. */
  lemma {:induction false} StillMorphHasNoDiffs(basis: seq<Vec3>, morph: seq<Vec3>, n: nat)
    requires n <= |basis| <= |morph| && morph[..|basis|] == basis
    ensures DiffsOf(basis, morph, n) == []
  {
    if n > 0 {
      StillMorphHasNoDiffs(basis, morph, n - 1);
      assert morph[n - 1] == morph[..|basis|][n - 1];
    }
  }

  /** differences: one pass over the basis; the morph is indexed at the
      same positions. */
  method Differences(basis: seq<Vec3>, morph: seq<Vec3>) returns (r: Result<seq<MorphDisplacement>>)
    ensures r == DifferencesOf(basis, morph)
  {
    var diffs: seq<MorphDisplacement> := [];
    for i := 0 to |basis|
      invariant i <= |morph| && diffs == DiffsOf(basis[..i], morph, i)
    {
      if i >= |morph| {
        return Err(IndexOutOfRange);
      }
      var diff := morph[i].Minus(basis[i]);
      DiffsPrefixOnly(basis[..i], basis[..i + 1], morph, i);
      if diff.LengthSquared() > Closeness * Closeness {
        diffs := diffs + [MorphDisplacement(basis[i], diff)];
      }
    }
    assert basis[..|basis|] == basis;
    r := Ok(diffs);
  }

  /** The records of the first n vertices depend only on the first n
      vertices of the basis. */
  lemma {:induction false} DiffsPrefixOnly(b1: seq<Vec3>, b2: seq<Vec3>, morph: seq<Vec3>, n: nat)
    requires n <= |b1| <= |morph| && n <= |b2| <= |morph| && b1[..n] == b2[..n]
    ensures DiffsOf(b1, morph, n) == DiffsOf(b2, morph, n)
  {
    if n > 0 {
      assert b1[n - 1] == b1[..n][n - 1] == b2[..n][n - 1] == b2[n - 1];
      assert b1[..n - 1] == b1[..n][..n - 1];
      assert b2[..n - 1] == b2[..n][..n - 1];
      DiffsPrefixOnly(b1, b2, morph, n - 1);
    }
  }

  // -------------------------------------------------------- findVertexAtPos

  /** Whether a record's source is at pos. */
  predicate At(md: MorphDisplacement, pos: Vec3)
  {
    ShorterThan(md.source.Minus(pos), Closeness)
  }

  /** The index of the first record whose source is at pos. */
  function FirstAt(pos: Vec3, diffs: seq<MorphDisplacement>): (r: Option<nat>)
    ensures r.Some? ==> r.value < |diffs| && At(diffs[r.value], pos)
    ensures r.Some? ==> forall k | 0 <= k < r.value :: !At(diffs[k], pos)
    ensures r.None? ==> forall k | 0 <= k < |diffs| :: !At(diffs[k], pos)
  {
    if |diffs| == 0 then None
    else if At(diffs[0], pos) then Some(0)
    else match FirstAt(pos, diffs[1..])
      case None => None
      case Some(k) => Some(k + 1)
  }

  /** findVertexAtPos: true and the first record at pos; false and the
      first record when none is at pos; and when the list is empty, the
      ArgumentOutOfRangeException of reading its first record. */
  function LookupAt(pos: Vec3, diffs: seq<MorphDisplacement>): (r: Result<(bool, MorphDisplacement)>)
    ensures r.Failure() == if |diffs| == 0 then Some(IndexOutOfRange) else None
  {
    match FirstAt(pos, diffs)
    case Some(k) => Ok((true, diffs[k]))
    case None => if |diffs| == 0 then Err(IndexOutOfRange) else Ok((false, diffs[0]))
  }

  method FindVertexAtPos(pos: Vec3, diffs: seq<MorphDisplacement>) returns (r: Result<(bool, MorphDisplacement)>)
    ensures r == LookupAt(pos, diffs)
    ensures r.Ok? && r.value.0 ==> At(r.value.1, pos)
  {
    for i := 0 to |diffs|
      invariant forall k | 0 <= k < i :: !At(diffs[k], pos)
    {
      var diff := diffs[i].source.Minus(pos);
      if diff.LengthSquared() < Closeness * Closeness {
        FirstAtIsFirst(pos, diffs, i);
        return Ok((true, diffs[i]));
      }
    }
    if |diffs| == 0 {
      return Err(IndexOutOfRange);
    }
    r := Ok((false, diffs[0]));
  }

  /** The first record at pos is the one with none at pos before it. */
  lemma FirstAtIsFirst(pos: Vec3, diffs: seq<MorphDisplacement>, i: nat)
    requires i < |diffs| && At(diffs[i], pos)
    requires forall k | 0 <= k < i :: !At(diffs[k], pos)
    ensures FirstAt(pos, diffs) == Some(i)
  {
  }

  // ------------------------------------------------------- diffMorphsToBase

  /** The record for vertex v of mesh m: present when some difference is
      at the vertex's position, and carrying the first such one's
      displacement. */
  function MatchAt(meshes: seq<seq<Vec3>>, diffs: seq<MorphDisplacement>, m: nat, v: nat): Option<IDDisplacement>
    requires m < |meshes| && v < |meshes[m]|
  {
    match FirstAt(meshes[m][v], diffs)
    case None => None
    case Some(k) => Some(IDDisplacement(m, v, diffs[k].displacement))
  }

  /** The records for the first n vertices of mesh m, in vertex order, or
      the exception of the first failed lookup. */
  function MeshMatches(meshes: seq<seq<Vec3>>, diffs: seq<MorphDisplacement>, m: nat, n: nat): Result<seq<IDDisplacement>>
    requires m < |meshes| && n <= |meshes[m]|
  {
    if n == 0 then Ok([])
    else match MeshMatches(meshes, diffs, m, n - 1)
      case Err(e) => Err(e)
      case Ok(ids) => match LookupAt(meshes[m][n - 1], diffs)
        case Err(e) => Err(e)
        case Ok(found) =>
          Ok(if found.0 then ids + [IDDisplacement(m, n - 1, found.1.displacement)] else ids)
  }

  /** The records for the first n meshes, mesh by mesh. */
  function AllMatches(meshes: seq<seq<Vec3>>, diffs: seq<MorphDisplacement>, n: nat): Result<seq<IDDisplacement>>
    requires n <= |meshes|
  {
    if n == 0 then Ok([])
    else match AllMatches(meshes, diffs, n - 1)
      case Err(e) => Err(e)
      case Ok(ids) => match MeshMatches(meshes, diffs, n - 1, |meshes[n - 1]|)
        case Err(e) => Err(e)
        case Ok(more) => Ok(ids + more)
  }

  /** Record a comes before record b in mesh-then-vertex order. */
  predicate Before(a: IDDisplacement, b: IDDisplacement)
  {
    a.meshNum < b.meshNum || (a.meshNum == b.meshNum && a.vertID < b.vertID)
  }

  /** One more vertex of mesh m: its match, if any, follows the records of
      the vertices before it. */
  lemma MeshMatchesStep(meshes: seq<seq<Vec3>>, diffs: seq<MorphDisplacement>, m: nat, n: nat)
    requires m < |meshes| && 0 < n <= |meshes[m]|
    requires MeshMatches(meshes, diffs, m, n - 1).Ok? && |diffs| > 0
    ensures var hit := MatchAt(meshes, diffs, m, n - 1);
      MeshMatches(meshes, diffs, m, n) ==
        Ok(MeshMatches(meshes, diffs, m, n - 1).value + if hit.Some? then [hit.value] else [])
  {
    var ids := MeshMatches(meshes, diffs, m, n - 1).value;
    var look := LookupAt(meshes[m][n - 1], diffs);
    match FirstAt(meshes[m][n - 1], diffs)
    case None =>
      assert look == Ok((false, diffs[0]));
      assert ids + [] == ids;
    case Some(k) =>
      assert look == Ok((true, diffs[k]));
  }

  lemma {:induction false} MeshMatchesFailure(meshes: seq<seq<Vec3>>, diffs: seq<MorphDisplacement>, m: nat, n: nat)
    requires m < |meshes| && n <= |meshes[m]|
    ensures MeshMatches(meshes, diffs, m, n).Failure() == if 0 < n && |diffs| == 0 then Some(IndexOutOfRange) else None
  {
    if n > 0 {
      MeshMatchesFailure(meshes, diffs, m, n - 1);
      if |diffs| > 0 {
        MeshMatchesStep(meshes, diffs, m, n);
      }
    }
  }

  lemma {:induction false} MeshMatchesSound(meshes: seq<seq<Vec3>>, diffs: seq<MorphDisplacement>, m: nat, n: nat)
    requires m < |meshes| && n <= |meshes[m]| && MeshMatches(meshes, diffs, m, n).Ok?
    ensures forall id | id in MeshMatches(meshes, diffs, m, n).value ::
      id.meshNum == m && id.vertID < n && MatchAt(meshes, diffs, m, id.vertID) == Some(id)
  {
    if n > 0 {
      MeshMatchesFailure(meshes, diffs, m, n);
      MeshMatchesFailure(meshes, diffs, m, n - 1);
      MeshMatchesSound(meshes, diffs, m, n - 1);
      MeshMatchesStep(meshes, diffs, m, n);
    }
  }

  lemma {:induction false} MeshMatchesComplete(meshes: seq<seq<Vec3>>, diffs: seq<MorphDisplacement>, m: nat, n: nat)
    requires m < |meshes| && n <= |meshes[m]| && MeshMatches(meshes, diffs, m, n).Ok?
    ensures forall v | 0 <= v < n ::
      MatchAt(meshes, diffs, m, v).Some? ==> MatchAt(meshes, diffs, m, v).value in MeshMatches(meshes, diffs, m, n).value
  {
    if n > 0 {
      MeshMatchesFailure(meshes, diffs, m, n);
      MeshMatchesFailure(meshes, diffs, m, n - 1);
      MeshMatchesComplete(meshes, diffs, m, n - 1);
      MeshMatchesStep(meshes, diffs, m, n);
    }
  }

  lemma {:induction false} MeshMatchesOrdered(meshes: seq<seq<Vec3>>, diffs: seq<MorphDisplacement>, m: nat, n: nat)
    requires m < |meshes| && n <= |meshes[m]| && MeshMatches(meshes, diffs, m, n).Ok?
    ensures var ids := MeshMatches(meshes, diffs, m, n).value;
      forall j, k | 0 <= j < k < |ids| :: Before(ids[j], ids[k])
  {
    if n > 0 {
      MeshMatchesFailure(meshes, diffs, m, n);
      MeshMatchesFailure(meshes, diffs, m, n - 1);
      MeshMatchesOrdered(meshes, diffs, m, n - 1);
      MeshMatchesSound(meshes, diffs, m, n - 1);
      MeshMatchesStep(meshes, diffs, m, n);
      var ids := MeshMatches(meshes, diffs, m, n - 1).value;
      assert forall j | 0 <= j < |ids| :: ids[j] in ids;
    }
  }

  /** The records of one mesh: the lookup fails only on an empty list of
      differences; each record is the match of one of its vertices and
      every match is recorded; and they come in vertex order. */
  lemma MeshMatchesShape(meshes: seq<seq<Vec3>>, diffs: seq<MorphDisplacement>, m: nat, n: nat)
    requires m < |meshes| && n <= |meshes[m]|
    ensures MeshMatches(meshes, diffs, m, n).Failure() == if 0 < n && |diffs| == 0 then Some(IndexOutOfRange) else None
    ensures MeshMatches(meshes, diffs, m, n).Ok? ==>
      var ids := MeshMatches(meshes, diffs, m, n).value;
      && (forall id | id in ids :: id.meshNum == m && id.vertID < n && MatchAt(meshes, diffs, m, id.vertID) == Some(id))
      && (forall v | 0 <= v < n :: MatchAt(meshes, diffs, m, v).Some? ==> MatchAt(meshes, diffs, m, v).value in ids)
      && (forall j, k | 0 <= j < k < |ids| :: Before(ids[j], ids[k]))
  {
    MeshMatchesFailure(meshes, diffs, m, n);
    if MeshMatches(meshes, diffs, m, n).Ok? {
      MeshMatchesSound(meshes, diffs, m, n);
      MeshMatchesComplete(meshes, diffs, m, n);
      MeshMatchesOrdered(meshes, diffs, m, n);
    }
  }

  /** The records of all meshes: the lookup fails only on an empty list of
      differences with some vertex to look up; each record is the match of
      a vertex and every match is recorded; and they come in mesh-then-
      vertex order. */
  lemma {:induction false} AllMatchesShape(meshes: seq<seq<Vec3>>, diffs: seq<MorphDisplacement>, n: nat)
    requires n <= |meshes|
    ensures AllMatches(meshes, diffs, n).Failure() ==
      if |diffs| == 0 && exists m :: 0 <= m < n && |meshes[m]| > 0 then Some(IndexOutOfRange) else None
    ensures AllMatches(meshes, diffs, n).Ok? ==>
      var ids := AllMatches(meshes, diffs, n).value;
      && (forall id | id in ids :: id.meshNum < n && id.vertID < |meshes[id.meshNum]| &&
            MatchAt(meshes, diffs, id.meshNum, id.vertID) == Some(id))
      && (forall m, v | 0 <= m < n && 0 <= v < |meshes[m]| ::
            MatchAt(meshes, diffs, m, v).Some? ==> MatchAt(meshes, diffs, m, v).value in ids)
      && (forall j, k | 0 <= j < k < |ids| :: Before(ids[j], ids[k]))
  {
    if n > 0 {
      AllMatchesShape(meshes, diffs, n - 1);
      MeshMatchesShape(meshes, diffs, n - 1, |meshes[n - 1]|);
    }
  }

  /** diffMorphsToBase: every vertex of every mesh is looked up, with
      meshNum counting the meshes and vertID every vertex of the mesh,
      matched or not; each match adds one record. */
  method DiffMorphsToBase(meshes: seq<seq<Vec3>>, diffs: seq<MorphDisplacement>) returns (r: Result<seq<IDDisplacement>>)
    ensures r == AllMatches(meshes, diffs, |meshes|)
  {
    var dispsByID: seq<IDDisplacement> := [];
    var meshNum := 0;
    while meshNum < |meshes|
      invariant meshNum <= |meshes|
      invariant AllMatches(meshes, diffs, meshNum) == Ok(dispsByID)
    {
      ghost var before := dispsByID;
      var vertID := 0;
      while vertID < |meshes[meshNum]|
        invariant vertID <= |meshes[meshNum]|
        invariant MeshMatches(meshes, diffs, meshNum, vertID).Ok?
        invariant dispsByID == before + MeshMatches(meshes, diffs, meshNum, vertID).value
      {
        var found := FindVertexAtPos(meshes[meshNum][vertID], diffs);
        if found.Err? {
          AllMatchesAfterMeshError(meshes, diffs, meshNum, vertID + 1);
          return Err(found.error);
        }
        if found.value.0 {
          dispsByID := dispsByID + [IDDisplacement(meshNum, vertID, found.value.1.displacement)];
        }
        vertID := vertID + 1;
      }
      meshNum := meshNum + 1;
    }
    r := Ok(dispsByID);
  }

  /** A failed lookup in mesh m fails the whole: a failed prefix of a mesh
      fails the mesh, and a failed mesh fails every later count of meshes. */
  lemma AllMatchesAfterMeshError(meshes: seq<seq<Vec3>>, diffs: seq<MorphDisplacement>, m: nat, n: nat)
    requires m < |meshes| && 0 < n <= |meshes[m]| && MeshMatches(meshes, diffs, m, n).Err?
    ensures AllMatches(meshes, diffs, |meshes|) == Err(IndexOutOfRange)
  {
    MeshMatchesShape(meshes, diffs, m, n);
    AllMatchesShape(meshes, diffs, |meshes|);
  }

  // -------------------------------------------------------------- ToString

  /** The six fields of a MorphDisplacement line: source, then
      displacement. */
  function MorphFields(d: MorphDisplacement, fmt: real -> string): seq<string>
  {
    [fmt(d.source.x), fmt(d.source.y), fmt(d.source.z),
     fmt(d.displacement.x), fmt(d.displacement.y), fmt(d.displacement.z)]
  }

  /** MorphDisplacement.ToString. */
  function MorphToString(d: MorphDisplacement, fmt: real -> string): string
  {
    Join(MorphFields(d, fmt), ' ')
  }

  /** The five fields of an IDDisplacement line: mesh, vertex, then the
      displacement. */
  function IDFields(d: IDDisplacement, fmt: real -> string): seq<string>
  {
    [IntToString(d.meshNum), IntToString(d.vertID), fmt(d.displacement.x), fmt(d.displacement.y), fmt(d.displacement.z)]
  }

  /** IDDisplacement.ToString. */
  function IDToString(d: IDDisplacement, fmt: real -> string): string
  {
    Join(IDFields(d, fmt), ' ')
  }

  /** A MorphDisplacement line splits back into its six fields, each of
      which parses back to its coordinate. */
  lemma MorphLineFields(d: MorphDisplacement, fmt: real -> string)
    requires ReadsBack(fmt, d.source.x) && ReadsBack(fmt, d.source.y) && ReadsBack(fmt, d.source.z)
    requires ReadsBack(fmt, d.displacement.x) && ReadsBack(fmt, d.displacement.y) && ReadsBack(fmt, d.displacement.z)
    ensures var fields := Split(MorphToString(d, fmt), ' ');
      |fields| == 6 &&
      ParseReal(fields[0]) == Some(d.source.x) && ParseReal(fields[1]) == Some(d.source.y) &&
      ParseReal(fields[2]) == Some(d.source.z) && ParseReal(fields[3]) == Some(d.displacement.x) &&
      ParseReal(fields[4]) == Some(d.displacement.y) && ParseReal(fields[5]) == Some(d.displacement.z)
  {
    var fields := MorphFields(d, fmt);
    forall i | 0 <= i < |fields|
      ensures ' ' !in fields[i]
    {
      if i == 0 {
      } else if i == 1 {
      } else if i == 2 {
      } else if i == 3 {
      } else if i == 4 {
      } else {
        assert i == 5;
      }
    }
    SplitJoin(fields, ' ');
  }

  /** An IDDisplacement line splits back into its five fields: the mesh
      and vertex numbers parse back as integers and the displacement's
      coordinates as floats. */
  lemma IDLineFields(d: IDDisplacement, fmt: real -> string)
    requires IsInt32(d.meshNum) && IsInt32(d.vertID)
    requires ReadsBack(fmt, d.displacement.x) && ReadsBack(fmt, d.displacement.y) && ReadsBack(fmt, d.displacement.z)
    ensures var fields := Split(IDToString(d, fmt), ' ');
      |fields| == 5 &&
      ParseInt(fields[0]) == Some(d.meshNum) && ParseInt(fields[1]) == Some(d.vertID) &&
      ParseReal(fields[2]) == Some(d.displacement.x) && ParseReal(fields[3]) == Some(d.displacement.y) &&
      ParseReal(fields[4]) == Some(d.displacement.z)
  {
    IntToStringNoSpace(d.meshNum);
    IntToStringNoSpace(d.vertID);
    ParseIntToString(d.meshNum);
    ParseIntToString(d.vertID);
    var fields := IDFields(d, fmt);
    FiveFieldsSpaceFree(fields);
    SplitJoin(fields, ' ');
    assert Split(IDToString(d, fmt), ' ') == fields;
  }

  /** Five fields none of which holds a space. */
  lemma FiveFieldsSpaceFree(fields: seq<string>)
    requires |fields| == 5
    requires ' ' !in fields[0] && ' ' !in fields[1] && ' ' !in fields[2] && ' ' !in fields[3] && ' ' !in fields[4]
    ensures forall i :: 0 <= i < |fields| ==> ' ' !in fields[i]
  {
    forall i | 0 <= i < |fields| ensures ' ' !in fields[i] {
      if i == 0 {
      } else if i == 1 {
      } else if i == 2 {
      } else if i == 3 {
      } else {
        assert i == 4;
      }
    }
  }
}
