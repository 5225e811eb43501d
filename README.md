# BoxEngine renderer core in Dafny

This project models the CPU-side asset bookkeeping of the BoxEngine renderer and proves what it guarantees:

- **Mesh**: a vertex list and an index list, with the bounds derived from the vertices. The bounds are the min and max corner, their midpoint, and the bounding sphere.
- **Model**: an ordered mesh list built from an imported scene by a pre-order walk, running vertex and triangle counters, aggregate bounds, and a list of lower-detail models kept sorted by switch distance.
- **Texture**: the guards and state changes around one GPU texture handle.
- **Shader**: how a program is built from two stage sources, where a zero handle means failure, and the memoising uniform-location cache.

Each stateful entity is a `class` whose methods update its fields. Every loop of the source is a `while`/`for` loop. Each loop is proved against a specification function, and the properties are proved about those functions as lemmas.

Files:

- `geometry.dfy` (`Geometry`): vectors with `real` coordinates, the `Vertex` record, `u32`, and the matrix products `transform` uses.
- `bounds.dfy` (`Bounds`): what `calculateBounds` and `calculateModelBounds` compute, as folds over prefixes, with enclosure and tightness lemmas. It also holds the radius finding below.
- `texture.dfy` (`Textures`): `Texture`.
- `mesh.dfy` (`Meshes`): `Mesh`.
- `scene.dfy` (`Scene`): a local stand-in for the importer's scene tree and meshes, plus the pure conversions the loader applies: vertex defaults, joined face lists, pre-order mesh order, and the directory of a path.
- `model.dfy` (`Models`): `Model` and the level-of-detail sort.
- `shader.dfy` (`Shaders`): `Shader` and the compile/link propagation.
- `wrappers.dfy`: `Option`.

Calls into code outside the model are inputs of the operation that makes them:

| outside call | modelled as |
|---|---|
| file-existence test | `fileExists` |
| image decoder | `decode(path, flip)` |
| handle allocation | `newId` |
| importer | an `Option<ImportedScene>` |
| compile and link results | `GlAnswers` |
| `glGetUniformLocation` | `query(id, name)` |
| `glm::normalize` | `normalize` |

Ghost logs record the GL objects released and the images uploaded, so that "released before reload" and "no upload on failure" can be stated.

Facts of the code the model keeps:

- `sizeof(Vertex)` is 88 bytes: five float vectors (3+3+2+3+3 floats) plus `boneIDs` (ivec4) and `boneWeights` (vec4) (BoxEngine-Core/include/Renderer/Vertex.h:6-16). `VertexSize` is 88.
- `clear` empties the mesh and level-of-detail lists and zeroes the counters, but does not recompute the aggregate bounds (BoxEngine-Core/src/Renderer/Model.cpp:212-218).
- A missing, incomplete or rootless scene makes `loadFromFile` return false after setting only the file path, so the old meshes stay (BoxEngine-Core/src/Renderer/Model.cpp:26-33).
- A scene with no meshes makes `loadFromFile` return false with the mesh list empty and the counters zero (BoxEngine-Core/src/Renderer/Model.cpp:35-46).
- `transform` multiplies each normal by the matrix itself and normalizes it, and leaves tangents and bitangents unchanged (BoxEngine-Core/src/Renderer/Mesh.cpp:86-99).

## Model

| member | source | states |
|---|---|---|
| Bounds.CornersEnclose | BoxEngine-Core/src/Renderer/Mesh.cpp:60-71 | the componentwise min (max) of a non-empty point list is below (above) every point |
| Bounds.CornersAttained | BoxEngine-Core/src/Renderer/Mesh.cpp:60-71 | each component of the min and max corner is that component of some point |
| Bounds.MaxDistSqCovers | BoxEngine-Core/src/Renderer/Mesh.cpp:74-83 | the running `maxDistSq` is never negative and is at least every point's squared distance from the center |
| Bounds.MaxDistSqAttained | BoxEngine-Core/src/Renderer/Mesh.cpp:74-83 | on a non-empty list `maxDistSq` is some point's squared distance |
| Bounds.BoundsOfEncloses | BoxEngine-Core/src/Renderer/Mesh.cpp:42-83 | for a non-empty vertex list, min <= every position <= max, center is the midpoint, and every position lies in the sphere |
| Bounds.BoundsOfAttained | BoxEngine-Core/src/Renderer/Mesh.cpp:52-83 | the box is tight (each face passes through a vertex) and the sphere passes through a vertex |
| Bounds.CornersShift | BoxEngine-Core/src/Renderer/Mesh.cpp:86-99 | moving every point by t moves the min and max corner by t |
| Bounds.MaxDistSqShift | BoxEngine-Core/src/Renderer/Mesh.cpp:86-99 | moving the points and the center by the same t keeps the squared radius |
| Bounds.CornerPairRadiusCovers | BoxEngine-Core/src/Renderer/Model.cpp:191-200 | the as-written model radius is never negative, covers every mesh's min and max corner, and equals one of them |
| Bounds.FarCornerCoversBox | BoxEngine-Core/src/Renderer/Model.cpp:191-200 | every point of a box, and both of its corners, lie within the squared distance of its farthest corner |
| Bounds.FarCornerRadiusCovers | BoxEngine-Core/src/Renderer/Model.cpp:191-200 | the corrected model radius covers every point of every mesh box and is at least the as-written radius |
| Bounds.ModelBoundsOfEncloses | BoxEngine-Core/src/Renderer/Model.cpp:160-200 | the model box holds every mesh box, its center is the midpoint, and the sphere holds every point of every mesh box |
| Bounds.ModelBoundsOfAttained | BoxEngine-Core/src/Renderer/Model.cpp:170-186 | each face of the model box is a face of some mesh box |
| Bounds.AsWrittenRadiusMissesCorner | BoxEngine-Core/src/Renderer/Model.cpp:191-200 | for the meshes with vertices (10,0,0),(6,4,0) and (0,10,0),(4,6,0), the as-written squared radius is 26 while the vertex (10,0,0) is at squared distance 50 from the model center |
| Textures.FormatFor | BoxEngine-Core/src/Renderer/Texture.cpp:68-83 | 1 channel gives RED, 4 gives RGBA, and every other count (3 included) gives RGB, each as an if-and-only-if |
| Textures.Texture.constructor | BoxEngine-Core/src/Renderer/Texture.cpp:9-15 | a new texture has handle 0, type diffuse and zero size, so it is not valid |
| Textures.Texture.IsValid | BoxEngine-Core/include/Renderer/Texture.h:47 | valid iff the handle is non-zero |
| Textures.Texture.LoadFromFile | BoxEngine-Core/src/Renderer/Texture.cpp:24-100 | success iff the file exists and decodes. A missing file changes nothing. Otherwise the old handle is released first. A decode failure leaves handle zero and the size fields as the decoder left them (zero if it wrote nothing), and keeps type and path. Flip iff diffuse. Success stores the decoded size, the type, the path and the new handle, and uploads once in the format for the channel count, with mipmaps |
| Textures.Texture.LoadFromData | BoxEngine-Core/src/Renderer/Texture.cpp:102-136 | success iff data is present and both sizes are positive; failure changes nothing; success releases the old handle, sets size, type and path "procedural", and uploads RGB without mipmaps |
| Textures.Texture.Create | BoxEngine-Core/src/Renderer/Texture.cpp:138-172 | success iff both sizes are positive; failure changes nothing; success releases the old handle, sets size, type and path "created", and allocates RGB storage without pixel data |
| Textures.Texture.Bind | BoxEngine-Core/src/Renderer/Texture.cpp:174-180 | nothing is bound iff the handle is 0; otherwise this handle is bound on the given unit |
| Meshes.TransformedVertex | BoxEngine-Core/src/Renderer/Mesh.cpp:88-96 | transforming a vertex keeps its texture coordinates, tangent and bitangent |
| Meshes.TranslatedBounds | BoxEngine-Core/src/Renderer/Mesh.cpp:86-99 | after a translation by t the recomputed box and center are the old ones moved by t, and the radius is unchanged |
| Meshes.Mesh.constructor | BoxEngine-Core/src/Renderer/Mesh.cpp:6-18 | stores exactly the given vertices and indices, no textures, the default material 0.1/0.8/0.5/32, and bounds consistent with the vertices |
| Meshes.Mesh.SetVertices | BoxEngine-Core/src/Renderer/Mesh.cpp:20-30 | the vertex list becomes the argument and the bounds are re-derived; indices, textures and material are outside its frame |
| Meshes.Mesh.SetIndices | BoxEngine-Core/src/Renderer/Mesh.cpp:32-40 | the index list becomes the argument; nothing else can change |
| Meshes.Mesh.CalculateBounds | BoxEngine-Core/src/Renderer/Mesh.cpp:42-84 | the bounds fields become `BoundsOf(vertices)`: all zero for no vertices, else the min/max scan, midpoint and largest squared distance |
| Meshes.Mesh.Transform | BoxEngine-Core/src/Renderer/Mesh.cpp:86-100 | the vertex count is kept, each vertex is replaced by its transformed self in place, and the bounds are re-derived |
| Meshes.Mesh.ClearTextures | BoxEngine-Core/include/Renderer/Mesh.h:36 | empties the texture list and nothing else |
| Meshes.Mesh.GetBounds | BoxEngine-Core/include/Renderer/Mesh.h:58-60 | returns the (min, max) pair, which on a consistent non-empty mesh encloses every vertex |
| Meshes.Mesh.IsEmpty | BoxEngine-Core/include/Renderer/Mesh.h:63 | empty iff there are no vertices; a consistent empty mesh has all-zero bounds |
| Meshes.Mesh.GetMemoryUsage | BoxEngine-Core/include/Renderer/Mesh.h:66-69 | vertex count times sizeof(Vertex) plus index count times sizeof(unsigned int); zero iff both lists are empty |
| Scene.ConvertedVertices | BoxEngine-Core/src/Renderer/Model.cpp:93-145 | one vertex per source vertex with the same position; normal (0,1,0), uv (0,0), tangent (1,0,0) and bitangent (0,0,1) when absent |
| Scene.FlattenFacesAppend | BoxEngine-Core/src/Renderer/Model.cpp:147-153 | joining face lists distributes over concatenation |
| Scene.FlattenTriangles | BoxEngine-Core/src/Renderer/Model.cpp:147-153 | on triangles the index list has three entries per face, entry 3j+k being index k of face j |
| Scene.LastSeparator | BoxEngine-Core/src/Renderer/Model.cpp:35 | `find_last_of("/\\")`: none iff the path has no separator, else the position of a separator with none after it |
| Scene.DirectoryOfSpec | BoxEngine-Core/src/Renderer/Model.cpp:35 | the directory is a prefix of the path; the whole path iff there is no separator; otherwise what precedes the last separator |
| Models.TotalsAppend | BoxEngine-Core/src/Renderer/Model.cpp:72-73 | vertex, index and triangle totals add up over concatenated mesh lists |
| Models.ProcessedStep | BoxEngine-Core/src/Renderer/Model.cpp:67-75 | one more processed mesh adds its vertex count and its index count over three to the totals |
| Models.TriangleCountIsFaceCount | BoxEngine-Core/src/Renderer/Model.cpp:73 | on a triangulated mesh the triangle count added is the face count |
| Models.TotalMemoryIsSizes | BoxEngine-Core/src/Renderer/Model.cpp:203-210 | the summed memory usage is sizeof(Vertex) times all vertices plus sizeof(unsigned int) times all indices |
| Models.SortByDistance | BoxEngine-Core/src/Renderer/Model.cpp:225-228 | the result is sorted by switch distance and is a permutation of the input |
| Models.SinkEntry | BoxEngine-Core/src/Renderer/Model.cpp:225-228 | one insertion step: a permutation that extends the sorted prefix by one entry |
| Models.SortedPermutationUnique | BoxEngine-Core/src/Renderer/Model.cpp:225-228 | with distinct distances, two sorted permutations of the same levels are equal, so the sort result is determined |
| Models.AddLevelsExample | BoxEngine-Core/src/Renderer/Model.cpp:220-230 | adding levels at 50, 10, 30 yields the order 10, 30, 50 |
| Models.AddLevelsInOrder | BoxEngine-Core/src/Renderer/Model.cpp:220-230 | three `AddLODLevel` calls on a fresh model with a valid level at 50, 10 and 30 leave the levels ordered 10, 30, 50 |
| Models.Model.constructor | BoxEngine-Core/include/Renderer/Model.h:77-78 | a new model has no meshes or levels, zero counters, and is not valid |
| Models.Model.IsValid | BoxEngine-Core/include/Renderer/Model.h:50 | valid iff the mesh list is non-empty |
| Models.Model.LoadFromFile | BoxEngine-Core/src/Renderer/Model.cpp:23-62 | records the path; a missing, incomplete or rootless scene fails and changes nothing else. Otherwise the directory is the path's prefix before the last separator, the meshes are exactly the processed pre-order meshes of the root, and the counters are their totals. Success iff at least one mesh; only then are the aggregate bounds recomputed |
| Models.Model.ProcessNode | BoxEngine-Core/src/Renderer/Model.cpp:64-81 | keeps the existing meshes and appends the processed meshes of the subtree in pre-order (own meshes first, then each child in order); each one is consistent, and the counters grow by their vertex totals and index-count-over-three totals |
| Models.Model.ProcessNodeMeshes | BoxEngine-Core/src/Renderer/Model.cpp:66-75 | appends the node's own meshes in order and counts them |
| Models.Model.ProcessChildren | BoxEngine-Core/src/Renderer/Model.cpp:77-80 | appends each child's subtree in turn |
| Models.Model.ProcessMesh | BoxEngine-Core/src/Renderer/Model.cpp:83-158 | a new mesh whose vertices are the converted source vertices and whose indices are the faces' index lists joined in order, with consistent bounds |
| Models.Model.CalculateModelBounds | BoxEngine-Core/src/Renderer/Model.cpp:160-201 | the aggregate bounds become `ModelBoundsOf(mesh boxes)`: zero for no meshes, else the union box, its midpoint, and the corrected radius |
| Models.Model.GetTotalMemoryUsage | BoxEngine-Core/src/Renderer/Model.cpp:203-210 | the sum of every mesh's memory usage |
| Models.Model.Clear | BoxEngine-Core/src/Renderer/Model.cpp:212-218 | empties meshes and levels and zeroes both counters; bounds, paths and loaded textures are outside its frame |
| Models.Model.AddLODLevel | BoxEngine-Core/src/Renderer/Model.cpp:220-230 | a null or invalid model leaves the list unchanged; otherwise the list is the old one plus exactly the new entry, sorted by distance |
| Models.ModelEnclosesVertices | BoxEngine-Core/src/Renderer/Model.cpp:160-201 | with current bounds, every vertex of every mesh is inside the model box and the model sphere |
| Shaders.BuiltProgram | BoxEngine-Core/src/Renderer/Shader.cpp:55-85 | the build yields a non-zero handle iff both stages compile to non-zero handles and the program links, and that handle is the program's |
| Shaders.CompileShader | BoxEngine-Core/src/Renderer/Shader.cpp:34-53 | a failed compile deletes the shader object and returns 0; a successful one returns the handle and deletes nothing |
| Shaders.CreateShaderAsWritten | BoxEngine-Core/src/Renderer/Shader.cpp:55-85 | the source's build: the handle of `BuiltProgram`; its deletion log on every path: a compile failure deletes only the stages that failed, a zero stage handle deletes nothing, a link failure deletes both stages and the program, a success deletes both stages |
| Shaders.AsWrittenLeaksOnCompileFailure | BoxEngine-Core/src/Renderer/Shader.cpp:60-62 | running the as-written build with program 3, vertex shader 1 compiling and fragment shader 2 failing returns 0 and never deletes the program or the vertex shader |
| Shaders.CreateShader | BoxEngine-Core/src/Renderer/Shader.cpp:55-85 | the same handle as `BuiltProgram`; after a successful link exactly the two shader objects are deleted; after a failure the program object and every shader object created are deleted (exactly three deletions when all three exist); nothing else is ever deleted, and never more than three deletions |
| Shaders.CleanedUpKeepsProgram | BoxEngine-Core/src/Renderer/Shader.cpp:55-85 | with three distinct non-zero handles, a successful build never deletes the program it returns, and a failed build deletes each of the three objects exactly once |
| Shaders.Shader.constructor | BoxEngine-Core/src/Renderer/Shader.cpp:7 | a new shader has handle 0 and an empty cache |
| Shaders.Shader.LoadFromSource | BoxEngine-Core/src/Renderer/Shader.cpp:25-28 | the handle becomes the built program, success iff it is non-zero; the log keeps its old entries and gains exactly the deletions `CreateShader` promises |
| Shaders.Shader.LoadFromFile | BoxEngine-Core/src/Renderer/Shader.cpp:13-23 | an empty source fails with the handle and the log unchanged; otherwise the handle, the result and the new deletions are those of `LoadFromSource` |
| Shaders.Shader.GetUniformLocation | BoxEngine-Core/src/Renderer/Shader.cpp:87-99 | a hit returns the cached value without a query and with no change; a miss queries once, caches the answer (-1 included) and returns it; entries are never overwritten; a cache that agreed with the GL still agrees |

## Left out

- OpenGL calls (buffers, texture parameters, attaching, `Use`, `unbind`, the uniform setters `SetBool` … `SetMat4`, the destructors) are foreign GPU calls. Only handle allocation, deletion, uploads and query answers are modelled, as inputs and ghost logs.
- The importer library, stb_image, `Texture::fileExists` and `Shader::ReadFile` are file I/O or foreign code. Their results are parameters, and an unreadable shader file is passed as `""`.
- Console output and the import flags of `loadFromFile` are left out; the flags only matter to the importer.
- Floating point: coordinates are `real`, so rounding and the `FLT_MAX`/`lowest` initial values are not modelled. The bounds scan starts from the first position, which gives the same result on exact arithmetic.
- `std::sqrt` is left out: radii are kept squared (`radiusSq`).
- Meshes.Mesh.Transform: the new normal is `normalize` applied to the transformed normal, and `normalize` is left abstract.
- `size_t` and `unsigned int` wrap-around of the counters and the memory sum are not modelled. Counts are unbounded `nat`.
- Models.Model.ProcessNode: does not state that the appended meshes are freshly allocated (`ProcessMesh` does).
- Models.Model.LoadFromFile: it requires the importer's guarantees: present attribute arrays have one entry per vertex, and node mesh indices are in range.
- Models.Model.constructor: leaves the aggregate bounds unspecified, as the source leaves them uninitialised.
- Mesh textures: the constructors' `textures` argument is ignored by the source (BoxEngine-Core/src/Renderer/Mesh.cpp:8,15). The model's constructor therefore takes none and starts with an empty list.
- The move overloads of the `Mesh` constructor and setters (BoxEngine-Core/src/Renderer/Mesh.cpp:13-18, 26-30, 37-40) are the same operations as the copying ones on values.
- Members declared but not implemented in the source are not modelled: `Mesh::draw`, the copy constructor `Mesh(const Mesh&)`, the move constructor `Mesh(Mesh&&)` (BoxEngine-Core/include/Renderer/Mesh.h:78), copy/move assignment, the `Mesh` destructor, `addTexture`, `setTextures`, `setMaterial`, `Model::addMesh`, `loadMaterialTextures`, `createDefaultTexture`. Texture deduplication is not modelled either.
- The defaulted `Mesh()` (BoxEngine-Core/include/Renderer/Mesh.h:15) is not modelled: it leaves the min/max corners, center and radius uninitialised, so `Meshes.Mesh.Valid()` could not be established for it. It would otherwise give empty lists and the material of BoxEngine-Core/include/Renderer/Mesh.h:89-92.
- The getters of `Mesh`, `Model` and `Texture` are the class fields themselves.
- The vertex fields `boneIDs` and `boneWeights` are never written by this code and are omitted from `Vertex`. They still count in `VertexSize`.
- Models.Model.CalculateModelBounds: computes the corrected radius of the first Findings row (`Bounds.FarCornerRadiusSq`), not the two-corner loop of BoxEngine-Core/src/Renderer/Model.cpp:191-200, which is kept as `Bounds.CornerPairRadiusSq`.
- Shaders.Shader.LoadFromSource: builds through the corrected `Shaders.CreateShader` of the second Findings row, so its log also holds the program and compiled stage that BoxEngine-Core/src/Renderer/Shader.cpp:60-62 never deletes.
- Shaders.Shader.LoadFromFile: builds through `LoadFromSource`, so it carries the same corrected clean-up.
- Models.SortByDistance: like `std::sort` it promises only a sorted permutation, with no order among equal distances. The model's insertion sort is one such sort.

## Findings

| source | as written | input that shows it | evidently intended | confidence | as-written member | corrected member |
|---|---|---|---|---|---|---|
| BoxEngine-Core/src/Renderer/Model.cpp:191-200 | the model radius is the largest distance from the model center to any mesh's min or max corner | two meshes with vertices (10,0,0),(6,4,0) and (0,10,0),(4,6,0), whose boxes are [6,10]x[0,4]x[0,0] and [0,4]x[6,10]x[0,0]: center (5,5,0), squared radius 26, but vertex (10,0,0) is at squared distance 50 | a sphere holding every mesh, so the farthest of each box's eight corners must be covered | high, not executed | Bounds.AsWrittenRadiusMissesCorner | Bounds.FarCornerRadiusCovers |
| BoxEngine-Core/src/Renderer/Shader.cpp:60-62 | when either stage fails to compile, `CreateShader` returns 0 without deleting the program object or the stage that did compile | the vertex stage compiles to handle 1 and the fragment stage fails: program 3 and shader 1 are never deleted | the clean-up done on link failure (lines 75-77) also on compile failure | medium, not executed | Shaders.AsWrittenLeaksOnCompileFailure | Shaders.CreateShader |
