/** A GPU shader program: building it from two stage sources, where a zero
    handle means failure at any step, and the memoising cache in front of
    uniform-location queries. The GL answers (handles handed out, whether a
    stage compiles, whether the program links, where a uniform lives) are
    inputs; a ghost log records which GL objects are deleted. */
module Shaders {
  import opened Geometry

  datatype Stage = VertexStage | FragmentStage

  /** The GL's answers while one program is built: the handles
      `glCreateProgram` and `glCreateShader` return, whether each source
      compiles, and whether the program links. */
  datatype GlAnswers = GlAnswers(
    programId: u32,
    vertexId: u32,
    fragmentId: u32,
    compiles: (Stage, string) -> bool,
    links: bool)

  /** The handle of a successfully compiled stage, or 0. */
  function StageResult(id: u32, compiled: bool): u32 {
    if compiled then id else 0
  }

  /** The program a build yields: the program handle when both stages
      compiled to non-zero handles and the program linked, else 0. */
  function BuiltProgram(vertexSource: string, fragmentSource: string, gl: GlAnswers): (p: u32)
    ensures p != 0 <==>
      && gl.vertexId != 0 && gl.compiles(VertexStage, vertexSource)
      && gl.fragmentId != 0 && gl.compiles(FragmentStage, fragmentSource)
      && gl.links && gl.programId != 0
    ensures p != 0 ==> p == gl.programId
  {
    var vs := StageResult(gl.vertexId, gl.compiles(VertexStage, vertexSource));
    var fs := StageResult(gl.fragmentId, gl.compiles(FragmentStage, fragmentSource));
    if vs == 0 || fs == 0 || !gl.links then 0 else gl.programId
  }

  /** Compiles one stage into the fresh shader object `id`. On failure the
      object is deleted and 0 returned. */
  method CompileShader(stage: Stage, source: string, id: u32, compiled: bool)
    returns (result: u32, deleted: seq<u32>)
    ensures result == StageResult(id, compiled)
    ensures compiled ==> deleted == []
    ensures !compiled ==> deleted == [id] && result == 0
  {
    if !compiled {
      return 0, [id];
    }
    return id, [];
  }

  /** `CreateShader` as written: on a stage that fails to compile it returns
      0 at once, deleting neither the program object nor a stage that did
      compile. */
  method CreateShaderAsWritten(vertexSource: string, fragmentSource: string, gl: GlAnswers)
    returns (program: u32, deleted: seq<u32>)
    ensures program == BuiltProgram(vertexSource, fragmentSource, gl)
    // a compile failure deletes only the shader objects that failed
    ensures !gl.compiles(VertexStage, vertexSource) ==>
      deleted == if gl.compiles(FragmentStage, fragmentSource) then [gl.vertexId] else [gl.vertexId, gl.fragmentId]
    ensures gl.compiles(VertexStage, vertexSource) && !gl.compiles(FragmentStage, fragmentSource) ==>
      deleted == [gl.fragmentId]
    // both compiled: a zero handle returns at once, a link failure deletes all three
    ensures gl.compiles(VertexStage, vertexSource) && gl.compiles(FragmentStage, fragmentSource) ==>
      deleted ==
        if gl.vertexId == 0 || gl.fragmentId == 0 then []
        else if !gl.links then [gl.vertexId, gl.fragmentId, gl.programId]
        else [gl.vertexId, gl.fragmentId]
  {
    var vs, d1 := CompileShader(VertexStage, vertexSource, gl.vertexId, gl.compiles(VertexStage, vertexSource));
    var fs, d2 := CompileShader(FragmentStage, fragmentSource, gl.fragmentId, gl.compiles(FragmentStage, fragmentSource));
    deleted := d1 + d2;
    if vs == 0 || fs == 0 {
      return 0, deleted;
    }
    if !gl.links {
      return 0, deleted + [vs, fs, gl.programId];
    }
    return gl.programId, deleted + [vs, fs];
  }

  /** Concrete case of the leak: with program handle 3 and shader handles 1
      and 2, the vertex stage compiles and the fragment stage does not; the
      as-written build returns 0 and never deletes the program object or
      the vertex shader object. */
  method AsWrittenLeaksOnCompileFailure() returns (program: u32, deleted: seq<u32>)
    ensures program == 0
    ensures 3 !in deleted && 1 !in deleted
  {
    var gl := GlAnswers(3, 1, 2, (s: Stage, src: string) => s == VertexStage, true);
    program, deleted := CreateShaderAsWritten("v", "f", gl);
  }

  /** What a build may leave deleted: exactly the two shader objects after
      a successful link, so the program returned stays alive; after a
      failure, the program object and every shader object the GL created
      (a zero handle stands for one it failed to create), three deletions
      when all three were created; and never anything but those three
      handles, at most three deletions in all. */
  predicate CleanedUp(gl: GlAnswers, program: u32, deleted: seq<u32>) {
    && (program != 0 ==> deleted == [gl.vertexId, gl.fragmentId])
    && (program == 0 && gl.programId != 0 ==> gl.programId in deleted)
    && (program == 0 && gl.vertexId != 0 ==> gl.vertexId in deleted)
    && (program == 0 && gl.fragmentId != 0 ==> gl.fragmentId in deleted)
    && (program == 0 && gl.programId != 0 && gl.vertexId != 0 && gl.fragmentId != 0 ==> |deleted| == 3)
    && (forall d :: d in deleted ==> d == gl.programId || d == gl.vertexId || d == gl.fragmentId)
    && |deleted| <= 3
  }

  /** With three distinct handles, a successful build never deletes the
      program it returns, and a failed one deletes each object exactly once. */
  lemma CleanedUpKeepsProgram(gl: GlAnswers, program: u32, deleted: seq<u32>)
    requires CleanedUp(gl, program, deleted)
    requires gl.programId != gl.vertexId && gl.programId != gl.fragmentId && gl.vertexId != gl.fragmentId
    requires gl.programId != 0 && gl.vertexId != 0 && gl.fragmentId != 0
    ensures program == gl.programId ==> program !in deleted
    ensures program == 0 ==>
      multiset(deleted) == multiset{gl.programId, gl.vertexId, gl.fragmentId}
  {
    if program == 0 {
      var p, v, f := gl.programId, gl.vertexId, gl.fragmentId;
      assert deleted[0] in deleted && deleted[1] in deleted && deleted[2] in deleted;
      assert deleted == [deleted[0], deleted[1], deleted[2]];
      // three slots, three distinct handles, each present: a permutation
      if deleted[0] == p {
        if deleted[1] == v { assert deleted == [p, v, f]; } else { assert deleted == [p, f, v]; }
      } else if deleted[0] == v {
        if deleted[1] == p { assert deleted == [v, p, f]; } else { assert deleted == [v, f, p]; }
      } else {
        if deleted[1] == p { assert deleted == [f, p, v]; } else { assert deleted == [f, v, p]; }
      }
    }
  }

  /** `CreateShader` with the clean-up the link-failure path already does
      extended to the compile-failure path: the program object and both
      shader objects are released whenever 0 is returned, and the shader
      objects are released after a successful link. */
  method CreateShader(vertexSource: string, fragmentSource: string, gl: GlAnswers)
    returns (program: u32, deleted: seq<u32>)
    ensures program == BuiltProgram(vertexSource, fragmentSource, gl)
    ensures CleanedUp(gl, program, deleted)
  {
    var vOk, fOk := gl.compiles(VertexStage, vertexSource), gl.compiles(FragmentStage, fragmentSource);
    var vs, d1 := CompileShader(VertexStage, vertexSource, gl.vertexId, vOk);
    var fs, d2 := CompileShader(FragmentStage, fragmentSource, gl.fragmentId, fOk);
    deleted := d1 + d2;
    if vs == 0 || fs == 0 {
      // release whatever was created: the program and any stage that compiled
      if vs != 0 {
        deleted := deleted + [vs];
      }
      if fs != 0 {
        deleted := deleted + [fs];
      }
      return 0, deleted + [gl.programId];
    }
    if !gl.links {
      return 0, deleted + [vs, fs, gl.programId];
    }
    return gl.programId, deleted + [vs, fs];
  }

  class Shader {
    var id: u32
    var uniformLocationCache: map<string, int>
    /** Names passed to `glGetUniformLocation`, oldest first. */
    ghost var queries: seq<string>
    /** GL objects deleted while building programs, oldest first. */
    ghost var deleted: seq<u32>

    constructor ()
      ensures id == 0 && uniformLocationCache == map[] && queries == [] && deleted == []
    {
      id := 0;
      uniformLocationCache := map[];
      queries := [];
      deleted := [];
    }

    /** Every cached location is what the GL reports for that name. */
    ghost predicate CacheAgrees(query: (u32, string) -> int)
      reads this
    {
      forall n :: n in uniformLocationCache ==> uniformLocationCache[n] == query(id, n)
    }

    /** Builds the program from two sources and keeps its handle;
        succeeds exactly when the handle is non-zero. The objects deleted
        meanwhile are appended to the log (see `CleanedUp`). */
    method LoadFromSource(vertexSource: string, fragmentSource: string, gl: GlAnswers) returns (ok: bool)
      modifies this`id, this`deleted
      ensures id == BuiltProgram(vertexSource, fragmentSource, gl)
      ensures ok <==> id != 0
      ensures |deleted| >= |old(deleted)| && deleted[..|old(deleted)|] == old(deleted)
      ensures CleanedUp(gl, id, deleted[|old(deleted)|..])
    {
      var program, released := CreateShader(vertexSource, fragmentSource, gl);
      id := program;
      deleted := deleted + released;
      assert deleted[|old(deleted)|..] == released;
      return id != 0;
    }

    /** Builds the program from the contents of two files, as read (an
        unreadable file reads as ""). An empty source fails before anything
        is built, leaving the handle as it was. */
    method LoadFromFile(vertexSource: string, fragmentSource: string, gl: GlAnswers) returns (ok: bool)
      modifies this`id, this`deleted
      ensures vertexSource == "" || fragmentSource == "" ==> !ok && id == old(id) && deleted == old(deleted)
      ensures vertexSource != "" && fragmentSource != "" ==>
        && id == BuiltProgram(vertexSource, fragmentSource, gl)
        && (ok <==> id != 0)
        && |deleted| >= |old(deleted)| && deleted[..|old(deleted)|] == old(deleted)
        && CleanedUp(gl, id, deleted[|old(deleted)|..])
    {
      if vertexSource == "" || fragmentSource == "" {
        return false;
      }
      ok := LoadFromSource(vertexSource, fragmentSource, gl);
    }

    /** The location of uniform `name`: the cached one if there is one,
        without asking the GL; otherwise the GL's answer `query(id, name)`,
        which is cached whatever it is (-1 for an unknown uniform). */
    method GetUniformLocation(name: string, query: (u32, string) -> int) returns (location: int)
      modifies this`uniformLocationCache, this`queries
      ensures name in old(uniformLocationCache) ==>
        && location == old(uniformLocationCache)[name]
        && uniformLocationCache == old(uniformLocationCache) && queries == old(queries)
      ensures name !in old(uniformLocationCache) ==>
        && location == query(id, name)
        && uniformLocationCache == old(uniformLocationCache)[name := location]
        && queries == old(queries) + [name]
      // the cache only grows, an entry is never overwritten, and the name is now cached
      ensures forall n :: n in old(uniformLocationCache) ==>
        n in uniformLocationCache && uniformLocationCache[n] == old(uniformLocationCache)[n]
      ensures name in uniformLocationCache && uniformLocationCache[name] == location
      ensures old(CacheAgrees(query)) ==> CacheAgrees(query) && location == query(id, name)
    {
      if name in uniformLocationCache {
        return uniformLocationCache[name];
      }
      location := query(id, name);
      queries := queries + [name];
      uniformLocationCache := uniformLocationCache[name := location];
    }
  }
}
