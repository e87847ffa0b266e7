/** The batch interface the renderer routes objects into
    (src/core/renderer/batch.hpp). The batch implementation itself
    (batch.cpp) is not part of this model: a batch is described by what the
    routing code observes of it (its id, capacity argument, state map,
    committed flag) plus the vertex and matrix sequences it accumulates.

    The renderer owns each batch exclusively (a `unique_ptr` in a vector),
    so a batch is a value here and the renderer's sequence of batches is
    updated by reassignment. */
module Batches {
  import opened Geometry

  datatype Batch = Batch(id: int, batchSize: int, state: StateMap, committed: bool,
                         vertices: seq<Vertex>, matrices: seq<Mat4>)
  {
    /** Open for appends and holding nothing: the state of a batch just created
        or just cleared. */
    predicate IsEmptyOpen() {
      !committed && vertices == [] && matrices == []
    }

    /** `Batch::commit`: locks the batch against appends. The upload to the
        graphics device is not modelled. */
    function Commit(): (b: Batch)
      ensures b.committed && !b.IsEmptyOpen()
      ensures b.(committed := committed) == this
    {
      this.(committed := true)
    }

    /** `Batch::clear`: drops every vertex and matrix and reopens the batch. */
    function Clear(): (b: Batch)
      ensures b.IsEmptyOpen()
      ensures b.id == id && b.batchSize == batchSize && b.state == state
    {
      this.(committed := false, vertices := [], matrices := [])
    }

    /** What a successful `Batch::add_mesh` leaves behind: the mesh's vertices
        appended in order and its transform recorded once. */
    function Append(mesh: Mesh, transform: Mat4): (b: Batch)
      ensures !b.IsEmptyOpen()
      ensures |b.matrices| == |matrices| + 1 && b.matrices[|matrices|] == transform
      ensures |b.vertices| == |vertices| + |mesh.vertices|
      ensures b.vertices[..|vertices|] == vertices && b.vertices[|vertices|..] == mesh.vertices
      ensures b.id == id && b.state == state && b.committed == committed
    {
      this.(vertices := vertices + mesh.vertices, matrices := matrices + [transform])
    }
  }

  /** The batch `Batch(program, texture, batchSize, id)` followed by
      `set_state(state)` produces. */
  function NewBatch(id: int, batchSize: int, state: StateMap): (b: Batch)
    ensures b.IsEmptyOpen() && b.id == id && b.batchSize == batchSize && b.state == state
  {
    Batch(id, batchSize, state, false, [], [])
  }

  /** The accept/refuse decision of `Batch::add_mesh` is not modelled; the
      renderer is given it as a function value. The one fact the renderer's
      retry loop needs of it: an empty open batch accepts any mesh. */
  ghost predicate EmptyBatchAccepts(accepts: (Batch, Mesh) -> bool) {
    forall b: Batch, m: Mesh :: b.IsEmptyOpen() ==> accepts(b, m)
  }

  /** `Batch::add_mesh`: appends when the decision accepts, otherwise leaves
      the batch as it was. */
  function AddMesh(accepts: (Batch, Mesh) -> bool, b: Batch, mesh: Mesh, transform: Mat4): (r: (Batch, bool))
    ensures r.1 == accepts(b, mesh)
    ensures r.1 ==> r.0 == b.Append(mesh, transform)
    ensures !r.1 ==> r.0 == b
  {
    if accepts(b, mesh) then (b.Append(mesh, transform), true) else (b, false)
  }

  function OpenFlag(b: Batch): nat {
    if b.committed then 0 else 1
  }

  /** The number of batches that are still open; the retry loop of
      `Renderer::add_object` terminates because each refusal commits one. */
  function OpenCount(bs: seq<Batch>): (n: nat)
    ensures n <= |bs|
  {
    if bs == [] then 0 else OpenCount(bs[..|bs| - 1]) + OpenFlag(bs[|bs| - 1])
  }

  lemma OpenCountAppend(bs: seq<Batch>, b: Batch)
    ensures OpenCount(bs + [b]) == OpenCount(bs) + OpenFlag(b)
  {
    assert (bs + [b])[..|bs|] == bs;
  }

  /** Replacing one batch changes the open count only by the change in that
      batch's committed flag. */
  lemma {:induction false} OpenCountUpdate(bs: seq<Batch>, i: nat, b: Batch)
    requires i < |bs|
    ensures OpenCount(bs[i := b]) == OpenCount(bs) - OpenFlag(bs[i]) + OpenFlag(b)
  {
    var n := |bs| - 1;
    var bs' := bs[i := b];
    assert bs'[..n] == if i == n then bs[..n] else bs[..n][i := b];
    if i < n {
      OpenCountUpdate(bs[..n], i, b);
    }
  }

  /** Rewriting a batch through `add_mesh` (clear, then add the same mesh)
      always succeeds when empty open batches accept, and doing it twice in
      a row leaves the same batch as doing it once. */
  lemma RewriteIdempotent(accepts: (Batch, Mesh) -> bool, b: Batch, mesh: Mesh, transform: Mat4)
    requires EmptyBatchAccepts(accepts)
    ensures AddMesh(accepts, b.Clear(), mesh, transform) == (b.Clear().Append(mesh, transform), true)
    ensures var once := AddMesh(accepts, b.Clear(), mesh, transform).0;
            AddMesh(accepts, once.Clear(), mesh, transform).0 == once
  {
    var once := b.Clear().Append(mesh, transform);
    assert accepts(b.Clear(), mesh);
    assert once.Clear() == b.Clear();
  }
}
