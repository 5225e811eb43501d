/** The importer's scene as the model loader sees it (a stand-in for the
    importer library's node and mesh types), and the pure conversions the
    loader applies to it: one vertex per source vertex with fixed defaults,
    face index lists concatenated, meshes gathered in pre-order, and the
    directory part of a path. */
module Scene {
  import opened Geometry
  import opened Wrappers

  /** One imported sub-mesh. An absent attribute array is `None`; `texCoords`
      is the first UV channel (its x and y). */
  datatype SourceMesh = SourceMesh(
    positions: seq<Vec3>,
    normals: Option<seq<Vec3>>,
    texCoords: Option<seq<Vec2>>,
    tangents: Option<seq<Vec3>>,
    bitangents: Option<seq<Vec3>>,
    faces: seq<seq<u32>>)
  {
    predicate HasTangentsAndBitangents() {
      tangents.Some? && bitangents.Some?
    }

    /** Every attribute array present has one entry per vertex, as the importer guarantees. */
    predicate WellFormed() {
      && (normals.Some? ==> |normals.value| == |positions|)
      && (texCoords.Some? ==> |texCoords.value| == |positions|)
      && (tangents.Some? ==> |tangents.value| == |positions|)
      && (bitangents.Some? ==> |bitangents.value| == |positions|)
    }
  }

  /** A node of the scene hierarchy: indices into the scene's mesh array, and child nodes. */
  datatype SceneNode = SceneNode(meshes: seq<nat>, children: seq<SceneNode>)

  /** What a successful import returns; `incomplete` is the incomplete-scene flag. */
  datatype ImportedScene = ImportedScene(meshes: seq<SourceMesh>, root: Option<SceneNode>, incomplete: bool)

  /** Every mesh index in the subtree refers to a mesh of the scene. */
  predicate RefsValid(node: SceneNode, meshCount: nat) {
    && (forall i :: 0 <= i < |node.meshes| ==> node.meshes[i] < meshCount)
    && (forall i :: 0 <= i < |node.children| ==> RefsValid(node.children[i], meshCount))
  }

  /** The importer's guarantees about a scene it returns. */
  predicate SceneWellFormed(s: ImportedScene) {
    && (forall sm :: sm in s.meshes ==> sm.WellFormed())
    && (s.root.Some? ==> RefsValid(s.root.value, |s.meshes|))
  }

  const DefaultNormal := Vec3(0.0, 1.0, 0.0)
  const DefaultTexCoords := Vec2(0.0, 0.0)
  const DefaultTangent := Vec3(1.0, 0.0, 0.0)
  const DefaultBitangent := Vec3(0.0, 0.0, 1.0)

  /** The vertex built for source vertex `i`. */
  function ConvertVertex(sm: SourceMesh, i: nat): Vertex
    requires sm.WellFormed() && i < |sm.positions|
  {
    Vertex(
      sm.positions[i],
      if sm.normals.Some? then sm.normals.value[i] else DefaultNormal,
      if sm.texCoords.Some? then sm.texCoords.value[i] else DefaultTexCoords,
      if sm.HasTangentsAndBitangents() then sm.tangents.value[i] else DefaultTangent,
      if sm.HasTangentsAndBitangents() then sm.bitangents.value[i] else DefaultBitangent)
  }

  /** One vertex per source vertex, in order. */
  function ConvertedVertices(sm: SourceMesh): (vs: seq<Vertex>)
    requires sm.WellFormed()
    ensures |vs| == |sm.positions|
    ensures forall i :: 0 <= i < |vs| ==> vs[i].position == sm.positions[i]
    ensures sm.normals.None? ==> forall i :: 0 <= i < |vs| ==> vs[i].normal == DefaultNormal
    ensures sm.texCoords.None? ==> forall i :: 0 <= i < |vs| ==> vs[i].texCoords == DefaultTexCoords
    ensures !sm.HasTangentsAndBitangents() ==>
      forall i :: 0 <= i < |vs| ==> vs[i].tangent == DefaultTangent && vs[i].bitangent == DefaultBitangent
  {
    seq(|sm.positions|, i requires 0 <= i < |sm.positions| => ConvertVertex(sm, i))
  }

  /** The face index lists joined in face order. */
  function FlattenFaces(faces: seq<seq<u32>>): seq<u32> {
    if faces == [] then [] else FlattenFaces(faces[..|faces| - 1]) + faces[|faces| - 1]
  }

  /** Flattening distributes over concatenation of face lists. */
  lemma {:induction false} FlattenFacesAppend(a: seq<seq<u32>>, b: seq<seq<u32>>)
    ensures FlattenFaces(a + b) == FlattenFaces(a) + FlattenFaces(b)
    decreases |b|
  {
    if b == [] {
      assert a + b == a;
    } else {
      var n := |b| - 1;
      assert (a + b)[..|a + b| - 1] == a + b[..n];
      FlattenFacesAppend(a, b[..n]);
    }
  }

  /** On triangulated input every face adds three indices, so the index list
      holds exactly three per face and `|indices| / 3` is the face count. */
  lemma {:induction false} FlattenTriangles(faces: seq<seq<u32>>)
    requires forall i :: 0 <= i < |faces| ==> |faces[i]| == 3
    ensures |FlattenFaces(faces)| == 3 * |faces|
    ensures forall j, k :: 0 <= j < |faces| && 0 <= k < 3 ==> FlattenFaces(faces)[3 * j + k] == faces[j][k]
  {
    if faces != [] {
      var n := |faces| - 1;
      FlattenTriangles(faces[..n]);
      forall j, k | 0 <= j < |faces| && 0 <= k < 3
        ensures FlattenFaces(faces)[3 * j + k] == faces[j][k]
      {
        if j < n {
          assert faces[..n][j] == faces[j];
        }
      }
    }
  }

  /** The meshes a node itself refers to, in order. */
  function NodeMeshes(node: SceneNode, scene: ImportedScene): seq<SourceMesh>
    requires RefsValid(node, |scene.meshes|)
  {
    seq(|node.meshes|, i requires 0 <= i < |node.meshes| => scene.meshes[node.meshes[i]])
  }

  /** The meshes of a subtree in pre-order: the node's own, then each child's subtree in turn. */
  function PreOrder(node: SceneNode, scene: ImportedScene): seq<SourceMesh>
    requires RefsValid(node, |scene.meshes|)
    decreases node, 1
  {
    PartialPreOrder(node, |node.children|, scene)
  }

  /** The node's own meshes followed by the pre-order meshes of its first `k` children. */
  function PartialPreOrder(node: SceneNode, k: nat, scene: ImportedScene): seq<SourceMesh>
    requires RefsValid(node, |scene.meshes|) && k <= |node.children|
    decreases node, 0, k
  {
    if k == 0 then NodeMeshes(node, scene)
    else PartialPreOrder(node, k - 1, scene) + PreOrder(node.children[k - 1], scene)
  }

  // ---------------------------------------------------------------------
  // The directory of a model file.

  predicate IsSeparator(c: char) {
    c == '/' || c == '\\'
  }

  /** `find_last_of("/\\")`: the position of the last separator, if any. */
  function LastSeparator(path: string): (r: Option<nat>)
    ensures r.None? <==> forall i :: 0 <= i < |path| ==> !IsSeparator(path[i])
    ensures r.Some? ==>
      && r.value < |path| && IsSeparator(path[r.value])
      && forall j :: r.value < j < |path| ==> !IsSeparator(path[j])
  {
    if path == [] then None
    else if IsSeparator(path[|path| - 1]) then Some(|path| - 1)
    else
      var r := LastSeparator(path[..|path| - 1]);
      assert forall i :: 0 <= i < |path| - 1 ==> path[..|path| - 1][i] == path[i];
      r
  }

  /** `substr(0, find_last_of("/\\"))`: what precedes the last separator,
      or the whole path when there is none. */
  function DirectoryOf(path: string): string {
    match LastSeparator(path)
    case None => path
    case Some(k) => path[..k]
  }

  /** The directory is a prefix of the path; it is the whole path exactly
      when the path has no separator, and otherwise it is followed in the
      path by a separator after which no separator occurs. */
  lemma DirectoryOfSpec(path: string)
    ensures var d := DirectoryOf(path);
      && d <= path
      && (d == path <==> forall i :: 0 <= i < |path| ==> !IsSeparator(path[i]))
      && (d != path ==> IsSeparator(path[|d|]) && forall j :: |d| < j < |path| ==> !IsSeparator(path[j]))
  {
  }
}
