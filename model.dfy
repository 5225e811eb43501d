/** A model: the meshes loaded from one file, the bounds of all of them
    together, running vertex and triangle counts, and a list of lower-detail
    models ordered by the camera distance at which each takes over. */
module Models {
  import opened Geometry
  import opened Wrappers
  import opened Bounds
  import opened Meshes
  import opened Textures
  import opened Scene

  /** A lower-detail model and the distance from which it is used. */
  datatype LODLevel = LODLevel(model: Model, switchDistance: real)

  predicate SortedByDistance(levels: seq<LODLevel>) {
    forall i, j :: 0 <= i < j < |levels| ==> levels[i].switchDistance <= levels[j].switchDistance
  }

  /** The vertex and index lists of one mesh, as values. */
  datatype MeshData = MeshData(vertices: seq<Vertex>, indices: seq<u32>)

  /** The lists `processMesh` builds from a source mesh. Meshes from the
      importer are always well-formed; the empty result for any other
      mesh only makes the function total. */
  function Processed(sm: SourceMesh): MeshData {
    if sm.WellFormed() then MeshData(ConvertedVertices(sm), FlattenFaces(sm.faces)) else MeshData([], [])
  }

  function ProcessedAll(sms: seq<SourceMesh>): (ds: seq<MeshData>)
    ensures |ds| == |sms|
  {
    seq(|sms|, i requires 0 <= i < |sms| => Processed(sms[i]))
  }

  lemma ProcessedAllAppend(a: seq<SourceMesh>, b: seq<SourceMesh>)
    ensures ProcessedAll(a + b) == ProcessedAll(a) + ProcessedAll(b)
  {
  }

  /** Sum of the vertex counts. */
  function VertexTotal(ds: seq<MeshData>): nat {
    if ds == [] then 0 else VertexTotal(ds[..|ds| - 1]) + |ds[|ds| - 1].vertices|
  }

  /** Sum of the index counts. */
  function IndexTotal(ds: seq<MeshData>): nat {
    if ds == [] then 0 else IndexTotal(ds[..|ds| - 1]) + |ds[|ds| - 1].indices|
  }

  /** Sum over meshes of the index count divided by three (rounded down per mesh). */
  function TriangleTotal(ds: seq<MeshData>): nat {
    if ds == [] then 0 else TriangleTotal(ds[..|ds| - 1]) + |ds[|ds| - 1].indices| / 3
  }

  /** The three totals add up over concatenated mesh lists. */
  lemma {:induction false} TotalsAppend(a: seq<MeshData>, b: seq<MeshData>)
    ensures VertexTotal(a + b) == VertexTotal(a) + VertexTotal(b)
    ensures IndexTotal(a + b) == IndexTotal(a) + IndexTotal(b)
    ensures TriangleTotal(a + b) == TriangleTotal(a) + TriangleTotal(b)
    decreases |b|
  {
    if b == [] {
      assert a + b == a;
    } else {
      var n := |b| - 1;
      assert (a + b)[..|a + b| - 1] == a + b[..n];
      TotalsAppend(a, b[..n]);
    }
  }

  /** One more source mesh at the end adds its processed lists to the totals. */
  lemma ProcessedStep(done: seq<SourceMesh>, sm: SourceMesh)
    ensures ProcessedAll(done + [sm]) == ProcessedAll(done) + [Processed(sm)]
    ensures VertexTotal(ProcessedAll(done + [sm])) == VertexTotal(ProcessedAll(done)) + |Processed(sm).vertices|
    ensures TriangleTotal(ProcessedAll(done + [sm])) == TriangleTotal(ProcessedAll(done)) + |Processed(sm).indices| / 3
  {
    ProcessedAllAppend(done, [sm]);
    TotalsAppend(ProcessedAll(done), [Processed(sm)]);
  }

  /** On a triangulated source mesh (every face has three indices) the
      triangle count added for it is its face count. */
  lemma TriangleCountIsFaceCount(sm: SourceMesh)
    requires sm.WellFormed()
    requires forall i :: 0 <= i < |sm.faces| ==> |sm.faces[i]| == 3
    ensures |Processed(sm).indices| / 3 == |sm.faces|
  {
    FlattenTriangles(sm.faces);
  }

  /** The vertex and index lists of each mesh, in order. */
  function Contents(ms: seq<Mesh>): (ds: seq<MeshData>)
    reads ms
    ensures |ds| == |ms|
  {
    seq(|ms|, i requires 0 <= i < |ms| reads ms => MeshData(ms[i].vertices, ms[i].indices))
  }

  lemma ContentsAppend(ms: seq<Mesh>, m: Mesh)
    ensures Contents(ms + [m]) == Contents(ms) + [MeshData(m.vertices, m.indices)]
  {
  }

  /** Every mesh from position `from` on has current bounds. */
  ghost predicate AllValid(ms: seq<Mesh>, from: nat)
    reads ms
  {
    forall k :: from <= k < |ms| ==> ms[k].Valid()
  }

  /** The min/max box of each mesh, in order. */
  function MeshBoxes(ms: seq<Mesh>): (boxes: seq<Box>)
    reads ms
    ensures |boxes| == |ms|
  {
    seq(|ms|, i requires 0 <= i < |ms| reads ms => Box(ms[i].minBounds, ms[i].maxBounds))
  }

  /** The sum of the meshes' memory usage. */
  function TotalMemory(ms: seq<Mesh>): nat
    reads ms
  {
    if ms == [] then 0 else TotalMemory(ms[..|ms| - 1]) + ms[|ms| - 1].GetMemoryUsage()
  }

  /** The memory total is the vertex size times all vertices plus the index
      size times all indices. */
  lemma {:induction false} TotalMemoryIsSizes(ms: seq<Mesh>)
    ensures TotalMemory(ms) == VertexSize * VertexTotal(Contents(ms)) + IndexSize * IndexTotal(Contents(ms))
  {
    if ms != [] {
      var n := |ms| - 1;
      TotalMemoryIsSizes(ms[..n]);
      assert Contents(ms)[..n] == Contents(ms[..n]);
    }
  }

  /** Sorts `levels` by switch distance, closest first. Like `std::sort` it
      promises nothing about the order of entries with equal distances. */
  method SortByDistance(levels: seq<LODLevel>) returns (sorted: seq<LODLevel>)
    ensures SortedByDistance(sorted)
    ensures multiset(sorted) == multiset(levels)
  {
    sorted := levels;
    for i := 0 to |sorted|
      invariant |sorted| == |levels|
      invariant multiset(sorted) == multiset(levels)
      invariant forall a, b :: 0 <= a < b < i ==> sorted[a].switchDistance <= sorted[b].switchDistance
    {
      sorted := SinkEntry(sorted, i);
    }
  }

  /** One insertion-sort pass: moves entry `i` down past the larger entries
      of the sorted prefix `s[..i]`, so that `s[..i + 1]` is sorted. */
  method SinkEntry(s: seq<LODLevel>, i: nat) returns (r: seq<LODLevel>)
    requires i < |s|
    requires forall a, b :: 0 <= a < b < i ==> s[a].switchDistance <= s[b].switchDistance
    ensures |r| == |s| && multiset(r) == multiset(s)
    ensures forall a, b :: 0 <= a < b <= i ==> r[a].switchDistance <= r[b].switchDistance
  {
    r := s;
    var j := i;
    while j > 0 && r[j - 1].switchDistance > r[j].switchDistance
      invariant 0 <= j <= i
      invariant |r| == |s|
      invariant multiset(r) == multiset(s)
      invariant forall a, b :: 0 <= a < b <= i && a != j && b != j ==> r[a].switchDistance <= r[b].switchDistance
      invariant forall b :: j < b <= i ==> r[j].switchDistance <= r[b].switchDistance
      invariant 0 < j < i ==> r[j - 1].switchDistance <= r[j + 1].switchDistance
    {
      ghost var prev := r;
      r := r[j - 1 := r[j]][j := r[j - 1]];
      SwapKeepsOrder(prev, r, i, j);
      j := j - 1;
    }
  }

  /** Swapping entry `j` with the larger entry before it keeps the
      insertion-sort invariants, with the hole one place further down. */
  lemma SwapKeepsOrder(s: seq<LODLevel>, r: seq<LODLevel>, i: nat, j: nat)
    requires 0 < j <= i < |s| && s[j - 1].switchDistance > s[j].switchDistance
    requires r == s[j - 1 := s[j]][j := s[j - 1]]
    requires forall a, b :: 0 <= a < b <= i && a != j && b != j ==> s[a].switchDistance <= s[b].switchDistance
    requires forall b :: j < b <= i ==> s[j].switchDistance <= s[b].switchDistance
    requires j < i ==> s[j - 1].switchDistance <= s[j + 1].switchDistance
    ensures multiset(r) == multiset(s)
    ensures forall a, b :: 0 <= a < b <= i && a != j - 1 && b != j - 1 ==> r[a].switchDistance <= r[b].switchDistance
    ensures forall b :: j - 1 < b <= i ==> r[j - 1].switchDistance <= r[b].switchDistance
    ensures 0 < j - 1 ==> r[j - 2].switchDistance <= r[j].switchDistance
  {
  }

  /** Dropping the same first element from two lists with equal contents
      leaves lists with equal contents. */
  lemma MultisetTail(a: seq<LODLevel>, b: seq<LODLevel>)
    requires |a| > 0 && |b| > 0 && a[0] == b[0] && multiset(a) == multiset(b)
    ensures multiset(a[1..]) == multiset(b[1..])
  {
    assert a == [a[0]] + a[1..];
    assert b == [b[0]] + b[1..];
    calc {
      multiset(a[1..]);
      multiset(a) - multiset{a[0]};
      multiset(b) - multiset{b[0]};
      multiset(b[1..]);
    }
  }

  /** Two lists sorted by distance that hold the same entries, with no two
      entries at the same distance, are the same list: with distinct
      distances the unstable sort has only one possible result. */
  lemma {:induction false} SortedPermutationUnique(a: seq<LODLevel>, b: seq<LODLevel>)
    requires SortedByDistance(a) && SortedByDistance(b) && multiset(a) == multiset(b)
    requires forall i, j :: 0 <= i < j < |a| ==> a[i].switchDistance != a[j].switchDistance
    ensures a == b
    decreases |a|
  {
    assert |a| == |multiset(a)| == |multiset(b)| == |b|;
    if a != [] {
      assert a[0] in multiset(b);
      var k :| 0 <= k < |b| && b[k] == a[0];
      assert b[0] in multiset(a);
      var m :| 0 <= m < |a| && a[m] == b[0];
      assert b[0].switchDistance <= b[k].switchDistance;
      assert a[0].switchDistance <= a[m].switchDistance;
      assert m == 0;
      MultisetTail(a, b);
      SortedPermutationUnique(a[1..], b[1..]);
    }
  }

  /** Adding levels at distances 50, 10 and 30, in that order, to an empty
      list leaves them ordered 10, 30, 50: each state below is what
      `AddLODLevel` promises after the previous one. */
  lemma AddLevelsExample(m: Model, l1: seq<LODLevel>, l2: seq<LODLevel>, l3: seq<LODLevel>)
    requires multiset(l1) == multiset([LODLevel(m, 50.0)])
    requires multiset(l2) == multiset(l1 + [LODLevel(m, 10.0)])
    requires SortedByDistance(l3) && multiset(l3) == multiset(l2 + [LODLevel(m, 30.0)])
    ensures l3 == [LODLevel(m, 10.0), LODLevel(m, 30.0), LODLevel(m, 50.0)]
  {
    var expected := [LODLevel(m, 10.0), LODLevel(m, 30.0), LODLevel(m, 50.0)];
    assert multiset(l3) == multiset(expected);
    SortedPermutationUnique(expected, l3);
  }

  /** One more point in each list moves the running corners by one `MinV`/`MaxV`. */
  lemma CornersStep(los: seq<Vec3>, his: seq<Vec3>, i: nat)
    requires 0 < i < |los| && i < |his|
    ensures MinCorner(los[..i + 1]) == MinV(MinCorner(los[..i]), los[i])
    ensures MaxCorner(his[..i + 1]) == MaxV(MaxCorner(his[..i]), his[i])
  {
    assert los[..i + 1][..i] == los[..i];
    assert his[..i + 1][..i] == his[..i];
  }

  class Model {
    var meshes: seq<Mesh>

    // bounds of all meshes together, for culling and spatial queries
    var center: Vec3
    var minBounds: Vec3
    var maxBounds: Vec3
    /** The square of the bounding-sphere radius. */
    var radiusSq: real

    var directory: string
    var filepath: string

    var lodLevels: seq<LODLevel>

    var totalVertexCount: nat
    var totalTriangleCount: nat

    var loadedTextures: seq<Texture>

    /** The aggregate bounds agree with the meshes' boxes. */
    ghost predicate BoundsCurrent()
      reads this, meshes
    {
      Bounds(minBounds, maxBounds, center, radiusSq) == ModelBoundsOf(MeshBoxes(meshes))
    }

    /** An empty model; its bounds are not initialised and are left unspecified. */
    constructor ()
      ensures meshes == [] && lodLevels == [] && loadedTextures == []
      ensures directory == "" && filepath == ""
      ensures totalVertexCount == 0 && totalTriangleCount == 0
      ensures !IsValid()
    {
      meshes := [];
      lodLevels := [];
      loadedTextures := [];
      directory := "";
      filepath := "";
      totalVertexCount := 0;
      totalTriangleCount := 0;
      center, minBounds, maxBounds, radiusSq := Zero3, Zero3, Zero3, 0.0;
    }

    /** A model is valid exactly when it holds at least one mesh. */
    predicate IsValid()
      reads this
      ensures IsValid() <==> meshes != []
    {
      |meshes| != 0
    }

    /** Loads the model at `path`. `imported` is what the importer returned
        for it (`None` for no scene at all). A scene that is missing,
        flagged incomplete or without a root node is rejected: only the
        path is recorded. Otherwise the meshes are replaced by the scene's
        meshes in pre-order and the counters recomputed; the load succeeds
        when at least one mesh was found, and only then are the aggregate
        bounds recomputed. */
    method LoadFromFile(path: string, imported: Option<ImportedScene>) returns (ok: bool)
      requires imported.Some? ==> SceneWellFormed(imported.value)
      modifies this`filepath, this`directory, this`meshes, this`totalVertexCount, this`totalTriangleCount
      modifies this`minBounds, this`maxBounds, this`center, this`radiusSq
      ensures filepath == path
      ensures Rejected(imported) ==>
        && !ok && meshes == old(meshes) && directory == old(directory)
        && totalVertexCount == old(totalVertexCount) && totalTriangleCount == old(totalTriangleCount)
        && minBounds == old(minBounds) && maxBounds == old(maxBounds)
        && center == old(center) && radiusSq == old(radiusSq)
      ensures !Rejected(imported) ==> directory == DirectoryOf(path)
      ensures !Rejected(imported) ==>
        Appended([], 0, 0, ProcessedAll(PreOrder(imported.value.root.value, imported.value)))
      ensures !Rejected(imported) ==> (ok <==> meshes != [])
      ensures ok ==> BoundsCurrent()
      ensures !ok ==>
        && minBounds == old(minBounds) && maxBounds == old(maxBounds)
        && center == old(center) && radiusSq == old(radiusSq)
    {
      filepath := path;
      if imported.None? || imported.value.incomplete || imported.value.root.None? {
        return false;
      }
      var scene := imported.value;
      directory := DirectoryOf(path);
      meshes := [];
      totalVertexCount := 0;
      totalTriangleCount := 0;
      ProcessNode(scene.root.value, scene);
      if |meshes| == 0 {
        return false;
      }
      ghost var added := ProcessedAll(PreOrder(scene.root.value, scene));
      assert Appended([], 0, 0, added);
      CalculateModelBounds();
      assert Appended([], 0, 0, added);
      return true;
    }

    /** A scene the loader refuses before touching the mesh list. */
    static predicate Rejected(imported: Option<ImportedScene>) {
      imported.None? || imported.value.incomplete || imported.value.root.None?
    }

    /** The mesh list is `before` followed by meshes with contents `added`,
        all of them with current bounds, and the counters have grown from
        `v0` and `t0` by the vertex and triangle totals of `added`. */
    ghost predicate Appended(before: seq<MeshData>, v0: nat, t0: nat, added: seq<MeshData>)
      reads this, meshes
    {
      && Contents(meshes) == before + added
      && totalVertexCount == v0 + VertexTotal(added)
      && totalTriangleCount == t0 + TriangleTotal(added)
      && AllValid(meshes, |before|)
    }

    /** Appends the meshes of the subtree at `node` in pre-order (see
        `PreOrder`), each built by `ProcessMesh`, and adds each one's vertex
        count and index count over three to the counters. Meshes already in
        the list are kept, in place. */
    method ProcessNode(node: SceneNode, scene: ImportedScene)
      requires SceneWellFormed(scene) && RefsValid(node, |scene.meshes|)
      modifies this`meshes, this`totalVertexCount, this`totalTriangleCount
      ensures old(meshes) <= meshes
      ensures Appended(old(Contents(meshes)), old(totalVertexCount), old(totalTriangleCount), ProcessedAll(PreOrder(node, scene)))
      decreases node, 1
    {
      ghost var before, v0, t0 := Contents(meshes), totalVertexCount, totalTriangleCount;
      ProcessNodeMeshes(node, scene);
      ProcessChildren(node, scene, before, v0, t0);
    }

    /** The second half of `ProcessNode`: appends the subtree of each child
        of `node` in turn, on top of what `before`, `v0` and `t0` describe. */
    method ProcessChildren(node: SceneNode, scene: ImportedScene, ghost before: seq<MeshData>, ghost v0: nat, ghost t0: nat)
      requires SceneWellFormed(scene) && RefsValid(node, |scene.meshes|)
      requires Appended(before, v0, t0, ProcessedAll(PartialPreOrder(node, 0, scene)))
      modifies this`meshes, this`totalVertexCount, this`totalTriangleCount
      ensures old(meshes) <= meshes
      ensures Appended(before, v0, t0, ProcessedAll(PartialPreOrder(node, |node.children|, scene)))
      decreases node, 0
    {
      for i := 0 to |node.children|
        invariant old(meshes) <= meshes
        invariant Appended(before, v0, t0, ProcessedAll(PartialPreOrder(node, i, scene)))
      {
        ghost var pre := meshes;
        ProcessNode(node.children[i], scene);
        ChildAppended(node, i, scene, before, v0, t0, pre);
      }
    }

    /** After child `i`'s subtree is appended on top of the meshes of `node`
        and of its first `i` children, the meshes of its first `i + 1`
        children are appended. */
    lemma ChildAppended(node: SceneNode, i: nat, scene: ImportedScene, before: seq<MeshData>, v0: nat, t0: nat, pre: seq<Mesh>)
      requires SceneWellFormed(scene) && RefsValid(node, |scene.meshes|) && i < |node.children|
      requires pre <= meshes
      requires var done := ProcessedAll(PartialPreOrder(node, i, scene));
        && Contents(pre) == before + done && AllValid(pre, |before|)
        && Appended(Contents(pre), v0 + VertexTotal(done), t0 + TriangleTotal(done),
                    ProcessedAll(PreOrder(node.children[i], scene)))
      ensures Appended(before, v0, t0, ProcessedAll(PartialPreOrder(node, i + 1, scene)))
    {
      ProcessedAllAppend(PartialPreOrder(node, i, scene), PreOrder(node.children[i], scene));
      JoinAppended(before, v0, t0, pre, ProcessedAll(PartialPreOrder(node, i, scene)), ProcessedAll(PreOrder(node.children[i], scene)));
    }

    /** Appending the mesh built from `sm` extends what was appended by
        `Processed(sm)`. */
    lemma MeshAppended(before: seq<MeshData>, v0: nat, t0: nat, pre: seq<Mesh>, mesh: Mesh, done: seq<SourceMesh>, sm: SourceMesh)
      requires meshes == pre + [mesh]
      requires Contents(pre) == before + ProcessedAll(done) && AllValid(pre, |before|)
      requires mesh.Valid() && MeshData(mesh.vertices, mesh.indices) == Processed(sm)
      requires totalVertexCount == v0 + VertexTotal(ProcessedAll(done)) + |mesh.vertices|
      requires totalTriangleCount == t0 + TriangleTotal(ProcessedAll(done)) + |mesh.indices| / 3
      ensures Appended(before, v0, t0, ProcessedAll(done + [sm]))
    {
      ContentsAppend(pre, mesh);
      ProcessedStep(done, sm);
    }

    /** A second append on top of a first is one append of both. */
    lemma JoinAppended(before: seq<MeshData>, v0: nat, t0: nat, pre: seq<Mesh>, done: seq<MeshData>, more: seq<MeshData>)
      requires pre <= meshes && Contents(pre) == before + done
      requires AllValid(pre, |before|)
      requires Appended(Contents(pre), v0 + VertexTotal(done), t0 + TriangleTotal(done), more)
      ensures Appended(before, v0, t0, done + more)
    {
      TotalsAppend(done, more);
      assert Contents(meshes) == before + (done + more);
    }

    /** The first half of `ProcessNode`: appends the meshes `node` itself
        refers to, in order, and counts them. */
    method ProcessNodeMeshes(node: SceneNode, scene: ImportedScene)
      requires SceneWellFormed(scene) && RefsValid(node, |scene.meshes|)
      modifies this`meshes, this`totalVertexCount, this`totalTriangleCount
      ensures old(meshes) <= meshes
      ensures Appended(old(Contents(meshes)), old(totalVertexCount), old(totalTriangleCount), ProcessedAll(NodeMeshes(node, scene)))
    {
      ghost var before := Contents(meshes);
      ghost var own := NodeMeshes(node, scene);
      for i := 0 to |node.meshes|
        invariant old(meshes) <= meshes
        invariant Appended(before, old(totalVertexCount), old(totalTriangleCount), ProcessedAll(own[..i]))
      {
        var sm := scene.meshes[node.meshes[i]];
        var mesh := ProcessMesh(sm);
        ghost var pre := meshes;
        meshes := meshes + [mesh];
        totalVertexCount := totalVertexCount + |mesh.vertices|;
        totalTriangleCount := totalTriangleCount + |mesh.indices| / 3;
        MeshAppended(before, old(totalVertexCount), old(totalTriangleCount), pre, mesh, own[..i], sm);
        assert own[..i + 1] == own[..i] + [sm];
      }
      assert own[..|node.meshes|] == own;
    }

    /** Builds a new mesh from a source mesh: one vertex per source vertex
        with the defaults of `ConvertVertex` for absent attributes, and the
        faces' index lists joined in face order. */
    method ProcessMesh(sm: SourceMesh) returns (mesh: Mesh)
      requires sm.WellFormed()
      ensures fresh(mesh)
      ensures mesh.vertices == ConvertedVertices(sm) && mesh.indices == FlattenFaces(sm.faces)
      ensures mesh.textures == [] && mesh.Valid()
    {
      var vertices: seq<Vertex> := [];
      for i := 0 to |sm.positions|
        invariant |vertices| == i
        invariant forall k :: 0 <= k < i ==> vertices[k] == ConvertVertex(sm, k)
      {
        var position := sm.positions[i];
        var normal := DefaultNormal;
        if sm.normals.Some? {
          normal := sm.normals.value[i];
        }
        var texCoords := DefaultTexCoords;
        if sm.texCoords.Some? {
          texCoords := sm.texCoords.value[i];
        }
        var tangent, bitangent := DefaultTangent, DefaultBitangent;
        if sm.HasTangentsAndBitangents() {
          tangent, bitangent := sm.tangents.value[i], sm.bitangents.value[i];
        }
        vertices := vertices + [Vertex(position, normal, texCoords, tangent, bitangent)];
      }

      var indices: seq<u32> := [];
      for i := 0 to |sm.faces|
        invariant indices == FlattenFaces(sm.faces[..i])
      {
        var face := sm.faces[i];
        for j := 0 to |face|
          invariant indices == FlattenFaces(sm.faces[..i]) + face[..j]
        {
          indices := indices + [face[j]];
        }
        assert sm.faces[..i + 1][..i] == sm.faces[..i];
      }
      assert sm.faces[..|sm.faces|] == sm.faces;
      mesh := new Mesh(vertices, indices);
    }

    /** Recomputes the aggregate bounds from the meshes' boxes: all zero for
        no meshes, otherwise the box holding every mesh box, its midpoint,
        and (corrected, see `FarCornerRadiusSq`) the largest squared distance
        from the midpoint to any corner of any mesh box. */
    method CalculateModelBounds()
      modifies this`minBounds, this`maxBounds, this`center, this`radiusSq
      ensures BoundsCurrent()
    {
      if |meshes| == 0 {
        minBounds := Zero3;
        maxBounds := Zero3;
        center := Zero3;
        radiusSq := 0.0;
        return;
      }
      ghost var boxes := MeshBoxes(meshes);
      ghost var los, his := Los(boxes), His(boxes);
      minBounds := meshes[0].minBounds;
      maxBounds := meshes[0].maxBounds;
      for i := 0 to |meshes|
        invariant minBounds == MinCorner(los[..if i == 0 then 1 else i])
        invariant maxBounds == MaxCorner(his[..if i == 0 then 1 else i])
      {
        var meshMin := meshes[i].minBounds;
        var meshMax := meshes[i].maxBounds;
        // std::min / std::max on each component
        minBounds := MinV(minBounds, meshMin);
        maxBounds := MaxV(maxBounds, meshMax);
        if i > 0 {
          CornersStep(los, his, i);
        }
      }
      assert los[..|meshes|] == los && his[..|meshes|] == his;
      center := Mid(minBounds, maxBounds);

      var maxDistSq := 0.0;
      for i := 0 to |meshes|
        invariant maxDistSq == FarCornerRadiusSq(boxes[..i], center)
      {
        var box := Box(meshes[i].minBounds, meshes[i].maxBounds);
        maxDistSq := Max(maxDistSq, FarCornerDistSq(box, center));
        assert boxes[..i + 1][..i] == boxes[..i];
      }
      assert boxes[..|meshes|] == boxes;
      radiusSq := maxDistSq;
      assert Bounds(minBounds, maxBounds, center, radiusSq) == ModelBoundsOf(boxes);
    }

    /** The sum of every mesh's memory usage. */
    method GetTotalMemoryUsage() returns (total: nat)
      ensures total == TotalMemory(meshes)
    {
      total := 0;
      for i := 0 to |meshes|
        invariant total == TotalMemory(meshes[..i])
      {
        total := total + meshes[i].GetMemoryUsage();
        assert meshes[..i + 1][..i] == meshes[..i];
      }
      assert meshes[..|meshes|] == meshes;
    }

    /** Drops the meshes and the detail levels and zeroes the counters.
        Bounds, paths and the loaded-texture list keep their values. */
    method Clear()
      modifies this`meshes, this`lodLevels, this`totalVertexCount, this`totalTriangleCount
      ensures meshes == [] && lodLevels == []
      ensures totalVertexCount == 0 && totalTriangleCount == 0
      ensures !IsValid()
    {
      meshes := [];
      lodLevels := [];
      totalVertexCount := 0;
      totalTriangleCount := 0;
    }

    /** Adds `lodModel` as the detail level used from `distance` on, provided
        it is present and valid, and re-sorts the levels by distance; a
        missing or empty model is ignored. */
    method AddLODLevel(lodModel: Model?, distance: real)
      modifies this`lodLevels
      ensures lodModel == null || !lodModel.IsValid() ==> lodLevels == old(lodLevels)
      ensures lodModel != null && lodModel.IsValid() ==>
        && SortedByDistance(lodLevels)
        && multiset(lodLevels) == multiset(old(lodLevels) + [LODLevel(lodModel, distance)])
    {
      if lodModel != null && lodModel.IsValid() {
        lodLevels := lodLevels + [LODLevel(lodModel, distance)];
        lodLevels := SortByDistance(lodLevels);
      }
    }
  }

  /** A fresh model given the valid level `lod` at distances 50, 10 and 30,
      in that order, through `AddLODLevel`, holds the levels 10, 30, 50. */
  method AddLevelsInOrder(lod: Model) returns (host: Model)
    requires lod.IsValid()
    ensures host.lodLevels == [LODLevel(lod, 10.0), LODLevel(lod, 30.0), LODLevel(lod, 50.0)]
  {
    host := new Model();
    host.AddLODLevel(lod, 50.0);
    ghost var l1 := host.lodLevels;
    host.AddLODLevel(lod, 10.0);
    ghost var l2 := host.lodLevels;
    host.AddLODLevel(lod, 30.0);
    AddLevelsExample(lod, l1, l2, host.lodLevels);
  }

  /** On a model whose aggregate bounds are current and whose meshes' own
      bounds are current, every vertex of every mesh lies in the model's box
      and in its bounding sphere. */
  lemma ModelEnclosesVertices(model: Model)
    requires model.BoundsCurrent() && model.meshes != []
    requires forall k :: 0 <= k < |model.meshes| ==> model.meshes[k].Valid()
    ensures forall k, i :: 0 <= k < |model.meshes| && 0 <= i < |model.meshes[k].vertices| ==>
      && LeV(model.minBounds, model.meshes[k].vertices[i].position)
      && LeV(model.meshes[k].vertices[i].position, model.maxBounds)
      && DistSq(model.meshes[k].vertices[i].position, model.center) <= model.radiusSq
  {
    var boxes := MeshBoxes(model.meshes);
    forall k | 0 <= k < |boxes|
      ensures LeV(boxes[k].lo, boxes[k].hi)
    {
      if |model.meshes[k].vertices| > 0 {
        BoundsOfEncloses(model.meshes[k].vertices);
      }
    }
    ModelBoundsOfEncloses(boxes);
    forall k, i | 0 <= k < |model.meshes| && 0 <= i < |model.meshes[k].vertices|
      ensures LeV(model.minBounds, model.meshes[k].vertices[i].position)
      ensures LeV(model.meshes[k].vertices[i].position, model.maxBounds)
      ensures DistSq(model.meshes[k].vertices[i].position, model.center) <= model.radiusSq
    {
      var mesh := model.meshes[k];
      BoundsOfEncloses(mesh.vertices);
      var p := mesh.vertices[i].position;
      assert LeV(boxes[k].lo, p) && LeV(p, boxes[k].hi);
    }
  }
}
