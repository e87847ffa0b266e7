/** The CPU-side bookkeeping of the batch renderer
    (src/core/renderer/renderer.cpp): render-state maps, the render object a
    caller fills in, and the `Renderer` that hands out ids, routes objects to
    batches by exact state equality, and commits and draws the batches. */
module Rendering {
  import opened Geometry
  import opened Batches

  // ---------------------------------------------------------------------
  // Render-state maps

  /** The "`at(key) = value`, and on `out_of_range` insert" idiom the source
      uses for both its state maps and its camera uniforms. */
  function Upsert<K(!new), V>(m: map<K, V>, k: K, v: V): (r: map<K, V>)
    ensures k in r && r[k] == v
    ensures forall k' :: k' != k ==> (k' in r <==> k' in m)
    ensures forall k' :: k' != k && k' in m ==> r[k'] == m[k']
  {
    if k in m then m[k := v] else m + map[k := v]
  }

  /** A state map a batch can be created from: it names a program and a texture. */
  predicate HasCriticalData(s: StateMap) {
    Program in s && Texture in s
  }

  /** The entry for one key, as a `std::map` iteration would yield it. */
  function Entry(m: StateMap, k: RenderState): seq<(RenderState, int)> {
    if k in m then [(k, m[k])] else []
  }

  /** The entries of a `std::map<RenderState, int>` in iteration order, which
      is the order in which the enumeration declares its keys. */
  function Entries(m: StateMap): seq<(RenderState, int)> {
    Entry(m, Program) + Entry(m, Texture) + Entry(m, PointSize) + Entry(m, BlendMode) + Entry(m, PrimitiveType)
  }

  /** The comparison `find_batch` makes: equal sizes, then `std::equal` over
      the two maps' ordered entries. */
  predicate SameEntries(a: StateMap, b: StateMap) {
    |a| == |b| && Entries(a) == Entries(b)
  }

  lemma EntriesHold(m: StateMap, k: RenderState, v: int)
    ensures (k, v) in Entries(m) <==> k in m && m[k] == v
  {
  }

  /** Because a `std::map` iterates in key order, the size check plus
      `std::equal` is exactly map equality: same keys, same values. */
  lemma SameEntriesIsEquality(a: StateMap, b: StateMap)
    ensures SameEntries(a, b) <==> a == b
  {
    if SameEntries(a, b) {
      forall k | k in a
        ensures k in b && b[k] == a[k]
      {
        EntriesHold(a, k, a[k]);
        EntriesHold(b, k, a[k]);
      }
      forall k | k in b
        ensures k in a
      {
        EntriesHold(b, k, b[k]);
        EntriesHold(a, k, b[k]);
      }
      assert a.Keys == b.Keys;
    }
  }

  /** What `add_object` and `add_object_dedibatch` do to the stored copy's
      state: insert the default texture when no texture is named. */
  function WithDefaultTexture(s: StateMap, defaultTexture: int): (r: StateMap)
    ensures Texture in r && r[Texture] == (if Texture in s then s[Texture] else defaultTexture)
    ensures forall k :: k != Texture ==> (k in r <==> k in s)
    ensures forall k :: k != Texture && k in s ==> r[k] == s[k]
    ensures Texture in s ==> r == s
  {
    if Texture !in s then s[Texture := defaultTexture] else s
  }

  // ---------------------------------------------------------------------
  // Render objects

  /** `glm::scale(glm::translate(glm::mat4(1.0f), translate), scale)`. */
  function ModelMatrix(translate: Vec3, scale: Vec3): Mat4 {
    Mat4(Vec4(scale.x, 0.0, 0.0, 0.0), Vec4(0.0, scale.y, 0.0, 0.0),
         Vec4(0.0, 0.0, scale.z, 0.0), Vec4(translate.x, translate.y, translate.z, 1.0))
  }

  /** The matrix-vector product of a column-major matrix and a column vector. */
  function Transform(m: Mat4, v: Vec4): Vec4 {
    Vec4(m.c0.x * v.x + m.c1.x * v.y + m.c2.x * v.z + m.c3.x * v.w,
         m.c0.y * v.x + m.c1.y * v.y + m.c2.y * v.z + m.c3.y * v.w,
         m.c0.z * v.x + m.c1.z * v.y + m.c2.z * v.z + m.c3.z * v.w,
         m.c0.w * v.x + m.c1.w * v.y + m.c2.w * v.z + m.c3.w * v.w)
  }

  /** A model matrix scales a point first and then translates it. */
  lemma ModelMatrixScalesThenTranslates(translate: Vec3, scale: Vec3, p: Vec3)
    ensures Transform(ModelMatrix(translate, scale), Vec4(p.x, p.y, p.z, 1.0))
         == Vec4(scale.x * p.x + translate.x, scale.y * p.y + translate.y, scale.z * p.z + translate.z, 1.0)
  {
    var r := Transform(ModelMatrix(translate, scale), Vec4(p.x, p.y, p.z, 1.0));
    assert r.x == scale.x * p.x + 0.0 * p.y + 0.0 * p.z + translate.x * 1.0;
    assert r.y == 0.0 * p.x + scale.y * p.y + 0.0 * p.z + translate.y * 1.0;
    assert r.z == 0.0 * p.x + 0.0 * p.y + scale.z * p.z + translate.z * 1.0;
    assert r.w == 0.0 * p.x + 0.0 * p.y + 0.0 * p.z + 1.0 * 1.0;
  }

  /** The number of vertices one primitive of each kind uses. */
  function VertexSize(p: Primitive): (n: int)
    ensures 1 <= n <= 3
    ensures (n == 3 <==> p == Triangle) && (n == 2 <==> p == Line) && (n == 1 <==> p == Point)
  {
    match p
    case Triangle => 3
    case Line => 2
    case Point => 1
  }

  /** The plain struct `RenderObject`. Callers fill one in with the setters
      and hand it to the renderer, which stores a copy. */
  datatype RenderObject = RenderObject(mesh: Mesh, modelMatrix: Mat4, state: StateMap, id: int, batchID: int)
  {
    /** `set_state`: afterwards the key maps to the value whether or not it
        was present; nothing else changes. */
    function SetState(k: RenderState, v: int): (o: RenderObject)
      ensures k in o.state && o.state[k] == v
      ensures forall k' :: k' != k ==> (k' in o.state <==> k' in state)
      ensures forall k' :: k' != k && k' in state ==> o.state[k'] == state[k']
      ensures o.(state := state) == this
    {
      this.(state := Upsert(state, k, v))
    }

    function SetScale(scale: Vec3): (o: RenderObject)
      ensures o.mesh.scale == scale && o.(mesh := mesh) == this
      ensures o.mesh.(scale := mesh.scale) == mesh
    {
      this.(mesh := mesh.(scale := scale))
    }

    function SetTranslation(translate: Vec3): (o: RenderObject)
      ensures o.mesh.translate == translate && o.(mesh := mesh) == this
      ensures o.mesh.(translate := mesh.translate) == mesh
    {
      this.(mesh := mesh.(translate := translate))
    }

    /** `set_primitive_type`: records the primitive's integer under
        `primitive` and sizes the mesh's primitive. */
    function SetPrimitiveType(p: Primitive): (o: RenderObject)
      ensures PrimitiveType in o.state && o.state[PrimitiveType] == PrimitiveCode(p)
      ensures forall k :: k != PrimitiveType ==> (k in o.state <==> k in state)
      ensures forall k :: k != PrimitiveType && k in state ==> o.state[k] == state[k]
      ensures o.mesh.primitive == p
      ensures o.mesh.vertexSize == 3 <==> p == Triangle
      ensures o.mesh.vertexSize == 2 <==> p == Line
      ensures o.mesh.vertexSize == 1 <==> p == Point
      ensures o.mesh.vertices == mesh.vertices && o.id == id && o.batchID == batchID
      ensures o.mesh.scale == mesh.scale && o.mesh.translate == mesh.translate && o.modelMatrix == modelMatrix
    {
      var o := SetState(PrimitiveType, PrimitiveCode(p));
      o.(mesh := o.mesh.(primitive := p, vertexSize := VertexSize(p)))
    }

    function SetGeometry(geometry: seq<Vertex>): (o: RenderObject)
      ensures o.mesh.vertices == geometry && o.(mesh := mesh) == this
      ensures o.mesh.(vertices := mesh.vertices) == mesh
    {
      this.(mesh := mesh.(vertices := geometry))
    }

    function SetTexture(texture: int): (o: RenderObject)
      ensures Texture in o.state && o.state[Texture] == texture
      ensures forall k :: k != Texture ==> (k in o.state <==> k in state)
      ensures forall k :: k != Texture && k in state ==> o.state[k] == state[k]
      ensures o.(state := state) == this
    {
      SetState(Texture, texture)
    }

    function SetProgram(program: int): (o: RenderObject)
      ensures Program in o.state && o.state[Program] == program
      ensures forall k :: k != Program ==> (k in o.state <==> k in state)
      ensures forall k :: k != Program && k in state ==> o.state[k] == state[k]
      ensures o.(state := state) == this
    {
      SetState(Program, program)
    }

    /** `set_point_size`: only a point mesh records a point size; any other
        object is returned unchanged. */
    function SetPointSize(pointSize: int): (o: RenderObject)
      ensures mesh.primitive == Point ==> PointSize in o.state && o.state[PointSize] == pointSize
      ensures mesh.primitive != Point ==> o == this
      ensures forall k :: k != PointSize ==> (k in o.state <==> k in state)
      ensures forall k :: k != PointSize && k in state ==> o.state[k] == state[k]
      ensures o.(state := state) == this
    {
      if mesh.primitive == Point then SetState(PointSize, pointSize) else this
    }

    /** `update`: recompute the model matrix from the mesh's translation and scale. */
    function Update(): (o: RenderObject)
      ensures o.modelMatrix == ModelMatrix(mesh.translate, mesh.scale)
      ensures o.mesh == mesh && o.state == state && o.id == id && o.batchID == batchID
    {
      this.(modelMatrix := ModelMatrix(mesh.translate, mesh.scale))
    }
  }

  /** A default-constructed `RenderObject`: no batch (-1), no state, no
      geometry. The fields C++ leaves indeterminate get fixed values here. */
  function NewRenderObject(): (o: RenderObject)
    ensures o.batchID == -1 && o.state == map[] && o.mesh.vertices == []
  {
    RenderObject(Mesh(Vec3(0.0, 0.0, 0.0), Vec3(0.0, 0.0, 0.0), Triangle, 3, []), Identity, map[], 0, -1)
  }

  // ---------------------------------------------------------------------
  // The renderer

  /** Opaque stand-ins for what the texture loader and shader compiler supply. */
  datatype Image = Image(width: int, height: int, pixels: seq<int>)
  datatype Shader = Shader(kind: int, path: string)
  datatype ShaderProgram = ShaderProgram(vertex: Shader, fragment: Shader)

  /** One step of `Renderer::render`: the batch drawn, the program bound for
      it and the camera uniforms set on that program. */
  datatype Draw = Draw(batch: int, program: int, uniforms: map<string, Mat4>)

  /** The batch at index `k` is the one `find_batch` selects for `s`: open, of
      exactly the state `s`, and no earlier batch is. */
  predicate IsOpenMatch(b: Batch, s: StateMap) {
    !b.committed && b.state == s
  }

  predicate IsFirstOpenMatch(bs: seq<Batch>, s: StateMap, k: int) {
    0 <= k < |bs| && IsOpenMatch(bs[k], s) && forall j :: 0 <= j < k ==> !IsOpenMatch(bs[j], s)
  }

  predicate NoOpenMatch(bs: seq<Batch>, s: StateMap) {
    forall j :: 0 <= j < |bs| ==> !IsOpenMatch(bs[j], s)
  }

  /** The ids of the batches that are still open, in index order. */
  function OpenIds(bs: seq<Batch>): seq<int> {
    if bs == [] then [] else OpenIds(bs[..|bs| - 1]) + (if bs[|bs| - 1].committed then [] else [bs[|bs| - 1].id])
  }

  /** When ids are indexes, `OpenIds` lists exactly the open batches. */
  lemma {:induction false} OpenIdsExact(bs: seq<Batch>)
    requires forall i :: 0 <= i < |bs| ==> bs[i].id == i
    ensures forall i :: 0 <= i < |bs| ==> (i in OpenIds(bs) <==> !bs[i].committed)
    ensures forall id :: id in OpenIds(bs) ==> 0 <= id < |bs|
  {
    if bs != [] {
      var n := |bs| - 1;
      OpenIdsExact(bs[..n]);
    }
  }

  const PooledBatchSize := 2048
  const DedicatedBatchSize := 262144

  class Renderer {
    var objects: seq<RenderObject>
    var batches: seq<Batch>
    var cameraUniforms: map<string, Mat4>
    var textures: seq<Image>
    var programs: seq<ShaderProgram>
    var defaultTextureID: int
    /** The accept/refuse decision of `Batch::add_mesh` (batch.cpp is not part
        of this model). */
    const accepts: (Batch, Mesh) -> bool

    /** Every batch's id is its index, and every batch names a program and a texture. */
    ghost predicate WellFormed()
      reads this
    {
      forall i :: 0 <= i < |batches| ==> batches[i].id == i && HasCriticalData(batches[i].state)
    }

    /** `WellFormed` plus the assumption that an empty open batch accepts any mesh. */
    ghost predicate Valid()
      reads this
    {
      WellFormed() && EmptyBatchAccepts(accepts)
    }

    /** A batch that `add_object` committed because it refused the mesh. */
    ghost predicate RefusedAndCommitted(before: Batch, after: Batch, mesh: Mesh) {
      !before.committed && !accepts(before, mesh) && after == before.Commit()
    }

    constructor (accepts: (Batch, Mesh) -> bool)
      requires EmptyBatchAccepts(accepts)
      ensures Valid() && this.accepts == accepts
      ensures objects == [] && batches == [] && textures == [] && programs == []
      ensures cameraUniforms == map[] && defaultTextureID == 0
    {
      this.accepts := accepts;
      objects, batches, textures, programs := [], [], [], [];
      cameraUniforms := map[];
      defaultTextureID := 0;
    }

    /** `init_gl`: the blank image becomes the default texture. */
    method InitGl(blank: Image)
      modifies this`textures, this`defaultTextureID
      ensures textures == old(textures) + [blank] && defaultTextureID == |old(textures)|
    {
      defaultTextureID := AddTexture(blank);
    }

    /** `add_texture`: the new id is the old number of textures; storage only grows. */
    method AddTexture(img: Image) returns (id: int)
      modifies this`textures
      ensures id == |old(textures)| && textures == old(textures) + [img]
    {
      id := |textures|;
      textures := textures + [img];
    }

    /** `add_program`: the new id is the old number of programs; storage only grows. */
    method AddProgram(vertex: Shader, fragment: Shader) returns (id: int)
      modifies this`programs
      ensures id == |old(programs)| && programs == old(programs) + [ShaderProgram(vertex, fragment)]
    {
      id := |programs|;
      programs := programs + [ShaderProgram(vertex, fragment)];
    }

    /** `set_camera_transform`: an upsert on the camera uniforms. */
    method SetCameraTransform(name: string, transform: Mat4)
      modifies this`cameraUniforms
      ensures name in cameraUniforms && cameraUniforms[name] == transform
      ensures forall n :: n != name ==> (n in cameraUniforms <==> n in old(cameraUniforms))
      ensures forall n :: n != name && n in old(cameraUniforms) ==> cameraUniforms[n] == old(cameraUniforms)[n]
    {
      cameraUniforms := Upsert(cameraUniforms, name, transform);
    }

    /** `create_batch`: a state without a program or a texture is an error
        and creates nothing; otherwise the new batch gets the next id and
        exactly the given state. */
    method CreateBatch(s: StateMap, batchSize: int) returns (r: Result<int>)
      requires WellFormed()
      modifies this`batches
      ensures WellFormed()
      ensures HasCriticalData(s) ==>
                r == Ok(|old(batches)|) && batches == old(batches) + [NewBatch(|old(batches)|, batchSize, s)]
      ensures !HasCriticalData(s) ==> r == Err(MissingCriticalData) && batches == old(batches)
    {
      if Program !in s || Texture !in s {
        return Err(MissingCriticalData);
      }
      var id := |batches|;
      batches := batches + [NewBatch(id, batchSize, s)];
      r := Ok(id);
    }

    /** `m_batches[id]->commit()`. */
    method CommitBatch(id: int)
      requires WellFormed() && 0 <= id < |batches|
      modifies this`batches
      ensures WellFormed()
      ensures batches == old(batches)[id := old(batches)[id].Commit()]
      ensures OpenCount(batches) == OpenCount(old(batches)) - OpenFlag(old(batches)[id])
    {
      OpenCountUpdate(batches, id, batches[id].Commit());
      batches := batches[id := batches[id].Commit()];
    }

    /** `m_batches[id]->add_mesh(mesh, transform)`. */
    method AddMeshToBatch(id: int, mesh: Mesh, transform: Mat4) returns (added: bool)
      requires WellFormed() && 0 <= id < |batches|
      modifies this`batches
      ensures WellFormed()
      ensures added == accepts(old(batches)[id], mesh)
      ensures batches == old(batches)[id := AddMesh(accepts, old(batches)[id], mesh, transform).0]
      ensures OpenCount(batches) == OpenCount(old(batches))
    {
      var res := AddMesh(accepts, batches[id], mesh, transform);
      OpenCountUpdate(batches, id, res.0);
      batches := batches[id := res.0];
      added := res.1;
    }

    /** The search loop of `find_batch`: the first batch that is not
        committed and whose state compares equal entry by entry. */
    method ScanBatches(s: StateMap) returns (found: Option<int>)
      requires WellFormed()
      ensures found.Some? ==> IsFirstOpenMatch(batches, s, found.value)
      ensures found.None? ==> NoOpenMatch(batches, s)
    {
      var i := 0;
      while i < |batches|
        invariant 0 <= i <= |batches|
        invariant forall j :: 0 <= j < i ==> !IsOpenMatch(batches[j], s)
      {
        var b := batches[i];
        SameEntriesIsEquality(s, b.state);
        if !b.committed && SameEntries(s, b.state) {
          return Some(b.id);
        }
        i := i + 1;
      }
      return None;
    }

    /** `find_batch`: the lowest-index open batch of exactly this state, or
        else a new pooled batch for it. */
    method FindBatch(s: StateMap) returns (r: Result<int>)
      requires WellFormed()
      modifies this`batches
      ensures WellFormed()
      ensures r.Ok? ==> 0 <= r.value < |batches| && IsOpenMatch(batches[r.value], s)
      ensures HasCriticalData(s) ==> r.Ok?
      ensures !NoOpenMatch(old(batches), s) ==>
                r.Ok? && IsFirstOpenMatch(old(batches), s, r.value) && batches == old(batches)
      ensures NoOpenMatch(old(batches), s) && HasCriticalData(s) ==>
                r == Ok(|old(batches)|) && batches == old(batches) + [NewBatch(|old(batches)|, PooledBatchSize, s)]
      ensures NoOpenMatch(old(batches), s) && !HasCriticalData(s) ==>
                r == Err(MissingCriticalData) && batches == old(batches)
      ensures |batches| == |old(batches)| + 1 ==> OpenCount(batches) == OpenCount(old(batches)) + 1
    {
      var found := ScanBatches(s);
      if found.Some? {
        return Ok(found.value);
      }
      r := CreateBatch(s, PooledBatchSize);
      if r.Ok? {
        OpenCountAppend(old(batches), batches[|batches| - 1]);
      }
    }

    /** Batch `host` now holds the mesh: either an open batch of `before`
        that accepted it and got it appended, or a new pooled batch at the end. */
    ghost predicate Hosted(before: seq<Batch>, after: seq<Batch>, host: int, mesh: Mesh, transform: Mat4) {
      && 0 <= host < |after|
      && (host < |before| ==>
            IsOpenMatch(before[host], after[host].state) && accepts(before[host], mesh)
            && after[host] == before[host].Append(mesh, transform))
      && (host >= |before| ==>
            host == |before| && after[host] == NewBatch(host, PooledBatchSize, after[host].state).Append(mesh, transform))
    }

    /** Every batch of `before` other than `except` was either left alone or
        was a batch of one of the two routing states `s1`, `s2` that refused
        the mesh and was committed. */
    ghost predicate KeptOrRefused(before: seq<Batch>, after: seq<Batch>, mesh: Mesh, except: int,
                                  s1: StateMap, s2: StateMap) {
      |before| <= |after| &&
      forall i :: 0 <= i < |before| && i != except ==>
        || after[i] == before[i]
        || ((before[i].state == s1 || before[i].state == s2) && RefusedAndCommitted(before[i], after[i], mesh))
    }

    lemma KeptAfterCommit(before: seq<Batch>, bs: seq<Batch>, mesh: Mesh, h: int, s1: StateMap, s2: StateMap)
      requires KeptOrRefused(before, bs, mesh, h, s1, s2) && 0 <= h < |before| && bs[h] == before[h]
      requires !before[h].committed && !accepts(before[h], mesh)
      requires before[h].state == s1 || before[h].state == s2
      ensures KeptOrRefused(before, bs[h := bs[h].Commit()], mesh, -1, s1, s2)
    {
    }

    lemma KeptAfterAppend(before: seq<Batch>, bs: seq<Batch>, mesh: Mesh, b: Batch, s1: StateMap, s2: StateMap)
      requires KeptOrRefused(before, bs, mesh, -1, s1, s2)
      ensures KeptOrRefused(before, bs + [b], mesh, -1, s1, s2)
    {
    }

    lemma KeptAfterUpdate(before: seq<Batch>, bs: seq<Batch>, mesh: Mesh, h: int, b: Batch, s1: StateMap, s2: StateMap)
      requires KeptOrRefused(before, bs, mesh, -1, s1, s2) && 0 <= h < |bs|
      ensures KeptOrRefused(before, bs[h := b], mesh, h, s1, s2)
    {
    }

    /** The state of the retry loop of `add_object` after some iterations,
        relative to the batches `b0` it started from: `host` is the batch
        tried last and `added` says whether it took the mesh. */
    ghost predicate Retrying(b0: seq<Batch>, s: StateMap, retryState: StateMap, batchId: int,
                             host: int, added: bool, mesh: Mesh, transform: Mat4)
      reads this
    {
      && 0 <= host < |batches| && |b0| <= |batches| <= |b0| + 1
      && (|batches| == |b0| + 1 ==> added && host == |b0|)
      && (!added ==> batches[host] == b0[host] && !b0[host].committed && !accepts(b0[host], mesh)
                     && (b0[host].state == s || b0[host].state == retryState))
      && (added ==> batches[host].state == retryState && Hosted(b0, batches, host, mesh, transform))
      && KeptOrRefused(b0, batches, mesh, host, s, retryState)
      && 0 <= batchId < |b0| && ((host == batchId && !added) || batches[batchId].committed)
      && (added ==> host != batchId)
    }

    /** How the retry loop ends when `find_batch(retryState)` throws: the
        last batch tried refused the mesh and is committed, and no batch was
        created. */
    ghost predicate RetryFailed(b0: seq<Batch>, s: StateMap, retryState: StateMap, batchId: int, host: int, mesh: Mesh)
      reads this
    {
      && !HasCriticalData(retryState)
      && 0 <= host < |b0| && |batches| == |b0|
      && RefusedAndCommitted(b0[host], batches[host], mesh) && (b0[host].state == s || b0[host].state == retryState)
      && KeptOrRefused(b0, batches, mesh, host, s, retryState)
      && 0 <= batchId < |b0| && batches[batchId].committed
    }

    /** The first half of an iteration of the retry loop of `add_object`:
        commit the batch that refused the mesh and route again with
        `retryState`. The batch found is open and of that state, and it is
        either one that existed before the loop, untouched, or a new pooled
        batch. */
    method CommitAndFind(ghost b0: seq<Batch>, ghost s: StateMap, batchId: int, host: int,
                         mesh: Mesh, ghost transform: Mat4, retryState: StateMap)
      returns (found: Result<int>)
      requires Valid() && Retrying(b0, s, retryState, batchId, host, false, mesh, transform)
      modifies this`batches
      ensures Valid()
      ensures found.Err? ==> RetryFailed(b0, s, retryState, batchId, host, mesh)
      ensures found.Ok? ==>
                && 0 <= found.value < |batches| && IsOpenMatch(batches[found.value], retryState)
                && |b0| <= |batches| <= |b0| + 1
                && (found.value < |b0| ==> batches[found.value] == b0[found.value])
                && (|batches| == |b0| + 1 ==>
                      found.value == |b0| && batches[|b0|] == NewBatch(|b0|, PooledBatchSize, retryState))
                && KeptOrRefused(b0, batches, mesh, -1, s, retryState)
                && batches[batchId].committed && found.value != batchId
                && OpenCount(batches) <= OpenCount(old(batches))
                && (|batches| == |b0| ==> OpenCount(batches) < OpenCount(old(batches)))
    {
      KeptAfterCommit(b0, batches, mesh, host, s, retryState);
      CommitBatch(host);
      ghost var committed := batches;
      found := FindBatch(retryState);
      if found.Ok? && |batches| > |committed| {
        KeptAfterAppend(b0, committed, mesh, batches[|committed|], s, retryState);
      }
    }

    /** One iteration of the retry loop of `add_object`: commit the batch
        that refused the mesh, route again with `retryState`, and offer the
        mesh to the batch found. Either routing throws, or the loop state is
        kept and one fewer batch is open (or the mesh was placed). */
    method RetryStep(ghost b0: seq<Batch>, ghost s: StateMap, batchId: int, host: int,
                     mesh: Mesh, transform: Mat4, retryState: StateMap)
      returns (next: int, added: bool, failed: bool)
      requires Valid() && Retrying(b0, s, retryState, batchId, host, false, mesh, transform)
      modifies this`batches
      ensures Valid()
      ensures failed ==> !added && next == host && RetryFailed(b0, s, retryState, batchId, host, mesh)
      ensures !failed ==> Retrying(b0, s, retryState, batchId, next, added, mesh, transform)
      ensures !failed ==> OpenCount(batches) + (if added then 0 else 1) < OpenCount(old(batches)) + 1
    {
      var found := CommitAndFind(b0, s, batchId, host, mesh, transform, retryState);
      if found.Err? {
        return host, false, true;
      }
      next, failed := found.value, false;
      KeptAfterUpdate(b0, batches, mesh, next, AddMesh(accepts, batches[next], mesh, transform).0, s, retryState);
      added := AddMeshToBatch(next, mesh, transform);
    }

    /** The retry loop of `add_object`: commit the batch that refused the
        mesh and route again with `retryState`, until a batch accepts the mesh
        or routing throws. Returns the last batch tried and whether it took the
        mesh. It fails exactly when `retryState` lacks a program or a texture.
        `s` is the state the refusing batch `batchId` was found by; only
        batches of `s` or `retryState` are ever committed. */
    method Reroute(ghost s: StateMap, batchId: int, mesh: Mesh, transform: Mat4, retryState: StateMap)
      returns (host: int, added: bool)
      requires Valid()
      requires 0 <= batchId < |batches| && !batches[batchId].committed && !accepts(batches[batchId], mesh)
      requires batches[batchId].state == s
      modifies this`batches
      ensures Valid()
      ensures HasCriticalData(retryState) <==> added
      ensures 0 <= host < |batches| && |old(batches)| <= |batches| <= |old(batches)| + 1
      ensures |batches| == |old(batches)| + 1 ==> added && host == |old(batches)|
      ensures added ==> batches[host].state == retryState && Hosted(old(batches), batches, host, mesh, transform)
      ensures !added ==> RefusedAndCommitted(old(batches)[host], batches[host], mesh)
                         && (old(batches)[host].state == s || old(batches)[host].state == retryState)
      ensures KeptOrRefused(old(batches), batches, mesh, host, s, retryState)
      ensures batches[batchId].committed
    {
      host, added := batchId, false;
      ghost var b0 := batches;
      while !added
        invariant Valid() && Retrying(b0, s, retryState, batchId, host, added, mesh, transform)
        decreases OpenCount(batches) + (if added then 0 else 1)
      {
        var next, ok, failed := RetryStep(b0, s, batchId, host, mesh, transform, retryState);
        if failed {
          return;
        }
        host, added := next, ok;
      }
    }

    /** One routing of `add_object`: `find_batch(s)` and then `add_mesh` on
        the batch it returns. The batch is the lowest open one of exactly this
        state, which keeps the mesh or refuses it, or else a new pooled
        batch, which always keeps it. */
    method Place(s: StateMap, mesh: Mesh, transform: Mat4) returns (routed: bool, host: int, added: bool)
      requires Valid()
      modifies this`batches
      ensures Valid()
      ensures routed <==> HasCriticalData(s)
      ensures !routed ==> !added && batches == old(batches)
      ensures routed && !NoOpenMatch(old(batches), s) ==>
                && IsFirstOpenMatch(old(batches), s, host)
                && added == accepts(old(batches)[host], mesh)
                && batches == old(batches)[host := AddMesh(accepts, old(batches)[host], mesh, transform).0]
      ensures routed && NoOpenMatch(old(batches), s) ==>
                && added && host == |old(batches)|
                && batches == old(batches) + [NewBatch(host, PooledBatchSize, s).Append(mesh, transform)]
    {
      var found := FindBatch(s);
      if found.Err? {
        return false, -1, false;
      }
      routed, host := true, found.value;
      added := AddMeshToBatch(host, mesh, transform);
    }

    /** The batch side of `add_object`: route by `s`, offer the mesh, and
        while it is refused commit that batch and re-route by `retryState`.
        `routed` is false when the first routing throws; otherwise `host` is
        the last batch tried and `added` says whether it took the mesh. */
    method Route(s: StateMap, mesh: Mesh, transform: Mat4, retryState: StateMap)
      returns (routed: bool, host: int, added: bool)
      requires Valid()
      modifies this`batches
      ensures Valid()
      ensures routed <==> HasCriticalData(s)
      ensures !routed ==> !added && batches == old(batches)
      ensures routed ==> 0 <= host < |batches|
      ensures routed && HasCriticalData(retryState) ==> added
      ensures (!HasCriticalData(retryState) &&
               exists k :: IsFirstOpenMatch(old(batches), s, k) && !accepts(old(batches)[k], mesh))
              ==> !added
      ensures added ==> Hosted(old(batches), batches, host, mesh, transform)
                        && (batches[host].state == s || batches[host].state == retryState)
      ensures forall k :: IsFirstOpenMatch(old(batches), s, k) && accepts(old(batches)[k], mesh) ==>
                added && host == k && batches == old(batches)[k := old(batches)[k].Append(mesh, transform)]
      ensures routed && NoOpenMatch(old(batches), s) ==>
                added && host == |old(batches)| && batches[host].state == s
                && batches == old(batches) + [NewBatch(host, PooledBatchSize, s).Append(mesh, transform)]
      ensures |old(batches)| <= |batches| <= |old(batches)| + 1
      ensures |batches| == |old(batches)| + 1 ==> added && host == |old(batches)|
      ensures KeptOrRefused(old(batches), batches, mesh, if added then host else -1, s, retryState)
      ensures forall k :: IsFirstOpenMatch(old(batches), s, k) && !accepts(old(batches)[k], mesh) ==>
                routed && batches[k] == old(batches)[k].Commit()
    {
      routed, host, added := Place(s, mesh, transform);
      if routed && !added {
        assert !HasCriticalData(retryState) ==> NoOpenMatch(batches, retryState);
        host, added := Reroute(s, host, mesh, transform, retryState);
      }
    }

    /** `add_object` as written. The stored copy gets the default texture if
        it names none; every batch that refuses the mesh is committed before
        routing again; the retry routes with the caller's own state, which
        need not name a texture, and then throws. */
    method AddObject(objIn: RenderObject) returns (r: Result<int>)
      requires Valid()
      modifies this`objects, this`batches
      ensures Valid()
      // the copy is appended; earlier objects keep their ids
      ensures |objects| == |old(objects)| + 1 && objects[..|old(objects)|] == old(objects)
      ensures objects[|old(objects)|].state == WithDefaultTexture(objIn.state, defaultTextureID)
      ensures objects[|old(objects)|].mesh == objIn.mesh
      // errors
      ensures HasCriticalData(objIn.state) ==> r.Ok?
      ensures Program !in objIn.state ==> r == Err(MissingCriticalData) && batches == old(batches)
      ensures (Texture !in objIn.state &&
               exists k :: IsFirstOpenMatch(old(batches), WithDefaultTexture(objIn.state, defaultTextureID), k) &&
                           !accepts(old(batches)[k], objIn.mesh))
              ==> r == Err(MissingCriticalData)
      // success: where the object went
      ensures r.Ok? ==> r.value == |old(objects)|
      ensures r.Ok? ==>
                var o := objects[r.value];
                && o.id == r.value
                && o.modelMatrix == ModelMatrix(objIn.mesh.translate, objIn.mesh.scale)
                && Hosted(old(batches), batches, o.batchID, objIn.mesh, o.modelMatrix)
                && (batches[o.batchID].state == o.state || batches[o.batchID].state == objIn.state)
      // the first routing: the lowest open batch of exactly the stored state, or a new one
      ensures forall k :: IsFirstOpenMatch(old(batches), WithDefaultTexture(objIn.state, defaultTextureID), k) &&
                          accepts(old(batches)[k], objIn.mesh)
                          ==> r.Ok? && objects[r.value].batchID == k
                              && batches == old(batches)[k := old(batches)[k].Append(objIn.mesh, objects[r.value].modelMatrix)]
      ensures Program in objIn.state && NoOpenMatch(old(batches), WithDefaultTexture(objIn.state, defaultTextureID)) ==>
                r.Ok? && objects[r.value].batchID == |old(batches)|
                && batches == old(batches) + [NewBatch(|old(batches)|, PooledBatchSize, WithDefaultTexture(objIn.state, defaultTextureID))
                                                .Append(objIn.mesh, objects[r.value].modelMatrix)]
      // what happened to the other batches
      ensures |old(batches)| <= |batches| <= |old(batches)| + 1
      ensures |batches| == |old(batches)| + 1 ==> r.Ok? && objects[r.value].batchID == |old(batches)|
      ensures KeptOrRefused(old(batches), batches, objIn.mesh, if r.Ok? then objects[|old(objects)|].batchID else -1,
                            WithDefaultTexture(objIn.state, defaultTextureID), objIn.state)
      ensures forall k :: IsFirstOpenMatch(old(batches), WithDefaultTexture(objIn.state, defaultTextureID), k) &&
                          !accepts(old(batches)[k], objIn.mesh)
                          ==> batches[k] == old(batches)[k].Commit()
    {
      var objID := |objects|;
      var obj := objIn.(state := WithDefaultTexture(objIn.state, defaultTextureID));
      objects := objects + [obj];
      var transform := ModelMatrix(obj.mesh.translate, obj.mesh.scale);
      var routed, host, added := Route(obj.state, obj.mesh, transform, objIn.state);
      if routed {
        obj := obj.(id := objID, batchID := host).Update();
        objects := objects[objID := obj];
      }
      r := if added then Ok(objID) else Err(MissingCriticalData);
    }

    /** `add_object` with the retry routed by the stored copy's state, as
        the first routing is: the caller's object is given its default
        texture before it is routed, so both routings use the same state. */
    method AddObjectCorrected(objIn: RenderObject) returns (r: Result<int>)
      requires Valid()
      modifies this`objects, this`batches
      ensures Valid()
      ensures |objects| == |old(objects)| + 1 && objects[..|old(objects)|] == old(objects)
      ensures objects[|old(objects)|].state == WithDefaultTexture(objIn.state, defaultTextureID)
      ensures objects[|old(objects)|].mesh == objIn.mesh
      ensures Program in objIn.state <==> r.Ok?
      ensures r.Ok? ==> r.value == |old(objects)| && objects[r.value].id == r.value
                        && 0 <= objects[r.value].batchID < |batches|
                        && batches[objects[r.value].batchID].state == objects[r.value].state
                        && Hosted(old(batches), batches, objects[r.value].batchID, objIn.mesh, objects[r.value].modelMatrix)
      // the first routing, and the retry, both by the stored state
      ensures forall k :: IsFirstOpenMatch(old(batches), WithDefaultTexture(objIn.state, defaultTextureID), k) &&
                          accepts(old(batches)[k], objIn.mesh)
                          ==> r.Ok? && objects[r.value].batchID == k
                              && batches == old(batches)[k := old(batches)[k].Append(objIn.mesh, objects[r.value].modelMatrix)]
      ensures Program in objIn.state && NoOpenMatch(old(batches), WithDefaultTexture(objIn.state, defaultTextureID)) ==>
                r.Ok? && objects[r.value].batchID == |old(batches)|
                && batches == old(batches) + [NewBatch(|old(batches)|, PooledBatchSize, WithDefaultTexture(objIn.state, defaultTextureID))
                                                .Append(objIn.mesh, objects[r.value].modelMatrix)]
      // what happened to the other batches: only batches of the stored state were committed
      ensures |old(batches)| <= |batches| <= |old(batches)| + 1
      ensures KeptOrRefused(old(batches), batches, objIn.mesh, if r.Ok? then objects[|old(objects)|].batchID else -1,
                            WithDefaultTexture(objIn.state, defaultTextureID), WithDefaultTexture(objIn.state, defaultTextureID))
      ensures forall k :: IsFirstOpenMatch(old(batches), WithDefaultTexture(objIn.state, defaultTextureID), k) &&
                          !accepts(old(batches)[k], objIn.mesh)
                          ==> batches[k] == old(batches)[k].Commit()
    {
      var withTexture := objIn.(state := WithDefaultTexture(objIn.state, defaultTextureID));
      r := AddObject(withTexture);
    }

    /** `add_object_dedibatch`: no search. An object without a batch gets a
        fresh dedicated batch; either way the batch is committed at once,
        which keeps `find_batch` from ever choosing it while it stays so. */
    method AddObjectDedibatch(objIn: RenderObject) returns (r: Result<int>)
      requires WellFormed()
      requires objIn.batchID == -1 || 0 <= objIn.batchID < |batches|
      modifies this`objects, this`batches
      ensures WellFormed()
      ensures |objects| == |old(objects)| + 1 && objects[..|old(objects)|] == old(objects)
      ensures objects[|old(objects)|].state == WithDefaultTexture(objIn.state, defaultTextureID)
      ensures objects[|old(objects)|].mesh == objIn.mesh
      ensures r.Ok? ==> r.value == |old(objects)|
      ensures objIn.batchID == -1 && !HasCriticalData(WithDefaultTexture(objIn.state, defaultTextureID)) ==>
                r == Err(MissingCriticalData) && batches == old(batches)
      ensures objIn.batchID == -1 && HasCriticalData(WithDefaultTexture(objIn.state, defaultTextureID)) ==>
                r.Ok? && objects[r.value].batchID == |old(batches)|
                && batches == old(batches) + [NewBatch(|old(batches)|, DedicatedBatchSize, objects[r.value].state).Commit()]
      ensures objIn.batchID != -1 ==>
                r.Ok? && objects[r.value].batchID == objIn.batchID
                && batches == old(batches)[objIn.batchID := old(batches)[objIn.batchID].Commit()]
      ensures r.Ok? ==> objects[r.value].id == r.value
                        && 0 <= objects[r.value].batchID < |batches| && batches[objects[r.value].batchID].committed
                        && objects[r.value].modelMatrix == ModelMatrix(objIn.mesh.translate, objIn.mesh.scale)
    {
      var objID := |objects|;
      var obj := objIn.(state := WithDefaultTexture(objIn.state, defaultTextureID));
      objects := objects + [obj];
      var batchId;
      if obj.batchID == -1 {
        var created := CreateBatch(obj.state, DedicatedBatchSize);
        if created.Err? {
          return Err(created.error);
        }
        batchId := created.value;
      } else {
        batchId := obj.batchID;
      }
      CommitBatch(batchId);
      obj := obj.(id := objID, batchID := batchId).Update();
      objects := objects[objID := obj];
      r := Ok(objID);
    }

    /** `clear_object_batch`: clears the batch hosting the object. */
    method ClearObjectBatch(objID: int)
      requires WellFormed()
      requires 0 <= objID < |objects| && 0 <= objects[objID].batchID < |batches|
      modifies this`batches
      ensures WellFormed()
      ensures batches == old(batches)[objects[objID].batchID := old(batches)[objects[objID].batchID].Clear()]
    {
      var b := objects[objID].batchID;
      batches := batches[b := batches[b].Clear()];
    }

    /** `get_object(objID)->set_geometry(geometry)`: a write through the
        pointer into the renderer's stored object. */
    method SetObjectGeometry(objID: int, geometry: seq<Vertex>)
      requires 0 <= objID < |objects|
      modifies this`objects
      ensures objects == old(objects)[objID := old(objects)[objID].SetGeometry(geometry)]
    {
      objects := objects[objID := objects[objID].SetGeometry(geometry)];
    }

    /** `readd_object`: `add_mesh` of the stored object into its own batch;
        the result is the accept decision as an int. */
    method ReaddObject(objID: int) returns (r: int)
      requires WellFormed()
      requires 0 <= objID < |objects| && 0 <= objects[objID].batchID < |batches|
      modifies this`batches
      ensures WellFormed()
      ensures var o := objects[objID];
              var added := AddMesh(accepts, old(batches)[o.batchID], o.mesh, o.modelMatrix);
              batches == old(batches)[o.batchID := added.0] && r == (if added.1 then 1 else 0)
    {
      var o := objects[objID];
      var added := AddMeshToBatch(o.batchID, o.mesh, o.modelMatrix);
      r := if added then 1 else 0;
    }

    /** `commit`: afterwards every batch is committed, contents untouched;
        `Batch::commit` is called (and uploads) only for the batches that
        were still open, whose ids are returned in order. */
    method Commit() returns (uploaded: seq<int>)
      requires WellFormed()
      modifies this`batches
      ensures WellFormed()
      ensures |batches| == |old(batches)|
      ensures forall i :: 0 <= i < |batches| ==> batches[i].committed && batches[i] == old(batches)[i].Commit()
      ensures uploaded == OpenIds(old(batches))
      ensures forall i :: 0 <= i < |batches| ==> (i in uploaded <==> !old(batches)[i].committed)
    {
      uploaded := [];
      var i := 0;
      while i < |batches|
        invariant 0 <= i <= |batches| == |old(batches)|
        invariant WellFormed()
        invariant forall j :: 0 <= j < i ==> batches[j] == old(batches)[j].Commit()
        invariant forall j :: i <= j < |batches| ==> batches[j] == old(batches)[j]
        invariant uploaded == OpenIds(old(batches)[..i])
      {
        assert old(batches)[..i + 1][..i] == old(batches)[..i];
        if !batches[i].committed {
          uploaded := uploaded + [batches[i].id];
          batches := batches[i := batches[i].Commit()];
        }
        i := i + 1;
      }
      assert old(batches)[..i] == old(batches);
      OpenIdsExact(old(batches));
    }

    /** `render`, as the sequence of draws it issues: every batch, in creation
        order, with its own program and all camera uniforms, empty or not. */
    method Render() returns (trace: seq<Draw>)
      requires WellFormed()
      ensures |trace| == |batches|
      ensures forall i :: 0 <= i < |trace| ==> trace[i] == Draw(i, batches[i].state[Program], cameraUniforms)
    {
      trace := [];
      for i := 0 to |batches|
        invariant |trace| == i
        invariant forall j :: 0 <= j < i ==> trace[j] == Draw(j, batches[j].state[Program], cameraUniforms)
      {
        var b := batches[i];
        trace := trace + [Draw(b.id, b.state[Program], cameraUniforms)];
      }
    }

    /** `clear`: every batch emptied and reopened. */
    method Clear()
      requires WellFormed()
      modifies this`batches
      ensures WellFormed()
      ensures |batches| == |old(batches)|
      ensures forall i :: 0 <= i < |batches| ==> batches[i] == old(batches)[i].Clear()
    {
      var i := 0;
      while i < |batches|
        invariant 0 <= i <= |batches| == |old(batches)|
        invariant WellFormed()
        invariant forall j :: 0 <= j < i ==> batches[j] == old(batches)[j].Clear()
        invariant forall j :: i <= j < |batches| ==> batches[j] == old(batches)[j]
      {
        batches := batches[i := batches[i].Clear()];
        i := i + 1;
      }
    }
  }

  // ---------------------------------------------------------------------
  // Scenarios

  /** Two objects of one state share a batch while it accepts them; a third
      whose state has one more entry gets a batch of its own. */
  method ExactMatchRouting() returns (first: int, second: int, third: int)
    ensures first == second == 0 && third == 1
  {
    var renderer := new Renderer((b: Batch, m: Mesh) => true);
    var program := renderer.AddProgram(Shader(0, "main.vs"), Shader(1, "main.fs"));
    var texture := renderer.AddTexture(Image(1, 1, [0]));
    var obj := NewRenderObject().SetProgram(program).SetTexture(texture);
    var s := obj.state;
    assert HasCriticalData(s);
    var r := renderer.AddObject(obj);
    first := renderer.objects[r.value].batchID;
    assert IsFirstOpenMatch(renderer.batches, s, 0);
    r := renderer.AddObject(obj);
    second := renderer.objects[r.value].batchID;
    var point := obj.SetState(PointSize, 4);
    assert NoOpenMatch(renderer.batches, point.state) by {
      assert point.state != s;
    }
    r := renderer.AddObject(point);
    third := renderer.objects[r.value].batchID;
  }

  /** With batches that hold one object each, two states interleaved:
      A goes to batch 0 and B, with one entry more, to batch 1. A second A
      overflows batch 0, which is committed, and lands in a new batch 2;
      batch 1, of the other state, is left open. */
  method InterleavedStates() returns (batchIds: seq<int>, open: seq<bool>)
    ensures batchIds == [0, 1, 2]
    ensures open == [false, true, true]
  {
    var renderer := new Renderer((b: Batch, m: Mesh) => b.matrices == []);
    var program := renderer.AddProgram(Shader(0, "main.vs"), Shader(1, "main.fs"));
    var texture := renderer.AddTexture(Image(1, 1, [0]));
    var a := NewRenderObject().SetProgram(program).SetTexture(texture);
    var b := a.SetState(BlendMode, 1);
    assert HasCriticalData(a.state) && HasCriticalData(b.state) && a.state != b.state;
    var r := renderer.AddObject(a);
    var first := renderer.objects[r.value].batchID;
    r := renderer.AddObject(b);
    var second := renderer.objects[r.value].batchID;
    assert renderer.batches[0].matrices != [] && IsFirstOpenMatch(renderer.batches, a.state, 0);
    r := renderer.AddObject(a);
    var third := renderer.objects[r.value].batchID;
    batchIds := [first, second, third];
    open := [!renderer.batches[0].committed, !renderer.batches[1].committed, !renderer.batches[2].committed];
  }

  /** `add_object` as written, with batches that hold one object each: an
      object naming a program but no texture is placed once; the second time
      the full batch refuses it and is committed, the retry routes by the
      caller's state, which has no texture, and `create_batch` throws. */
  method OverflowWithoutTexture() returns (first: Result<int>, second: Result<int>)
    ensures first == Ok(0)
    ensures second == Err(MissingCriticalData)
  {
    var renderer := new Renderer((b: Batch, m: Mesh) => b.matrices == []);
    renderer.InitGl(Image(1, 1, [0]));
    var program := renderer.AddProgram(Shader(0, "main.vs"), Shader(1, "main.fs"));
    var obj := NewRenderObject().SetProgram(program);
    var s := WithDefaultTexture(obj.state, renderer.defaultTextureID);
    first := renderer.AddObject(obj);
    assert renderer.batches[0].state == s;
    assert IsFirstOpenMatch(renderer.batches, s, 0);
    second := renderer.AddObject(obj);
  }

  /** The same object through `AddObjectCorrected` is placed both times, the
      second time in a new batch of the same state. */
  method OverflowWithoutTextureCorrected() returns (first: Result<int>, second: Result<int>, firstBatch: int, secondBatch: int)
    ensures first == Ok(0) && second == Ok(1)
    ensures firstBatch == 0 && secondBatch == 1
  {
    var renderer := new Renderer((b: Batch, m: Mesh) => b.matrices == []);
    renderer.InitGl(Image(1, 1, [0]));
    var program := renderer.AddProgram(Shader(0, "main.vs"), Shader(1, "main.fs"));
    var obj := NewRenderObject().SetProgram(program);
    first := renderer.AddObjectCorrected(obj);
    firstBatch := renderer.objects[0].batchID;
    assert |renderer.batches| == 1 && renderer.batches[0].matrices != [];
    second := renderer.AddObjectCorrected(obj);
    secondBatch := renderer.objects[1].batchID;
  }
}
