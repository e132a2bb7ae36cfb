/** systems/mesh_builder.rs: for every entity with both a mesh and a mesh
    renderer, create the vertex buffer if the renderer has none. */
module MeshBuilder {
  import opened Base
  import opened Backend
  import opened Components
  import opened Ecs

  /** The buffer `create_buffer_init` returns for a mesh. */
  function VertexBufferFor(mesh: MeshSource, id: nat): (b: Buffer)
    ensures b.id == id && b.usage == VertexUsage
    ensures b.data == Words(BufferWords(mesh.vertices))
  {
    Buffer(id, "Vertex Buffer", Words(BufferWords(mesh.vertices)), VertexUsage)
  }

  /** A joined entity whose renderer has no vertex buffer yet. */
  predicate Pending(meshes: Storage<MeshSource>, rs: Storage<MeshRenderer>, e: int) {
    Joined(meshes, rs, e) && rs[e].value.vertexBuffer.None?
  }

  /** The pending predicate over entity ids. */
  function PendingAt(meshes: Storage<MeshSource>, rs: Storage<MeshRenderer>): nat -> bool {
    e => Pending(meshes, rs, e)
  }

  /** How many entities below `k` are pending. */
  function PendingBefore(meshes: Storage<MeshSource>, rs: Storage<MeshRenderer>, k: nat): nat {
    CountBelow(PendingAt(meshes, rs), k)
  }

  /** The renderer storage and the device's handle counter once the loop has
      visited entities 0 .. k-1. */
  function BuildUpTo(meshes: Storage<MeshSource>, rs: Storage<MeshRenderer>, next: nat, k: nat): (r: (Storage<MeshRenderer>, nat))
    requires k <= |rs|
    ensures |r.0| == |rs|
  {
    if k == 0 then (rs, next)
    else
      var (s, n) := BuildUpTo(meshes, rs, next, k - 1);
      if Pending(meshes, s, k - 1)
      then (s[k - 1 := Some(s[k - 1].value.(vertexBuffer := Some(VertexBufferFor(meshes[k - 1].value, n))))], n + 1)
      else (s, n)
  }

  /** One run of the system. */
  function Build(meshes: Storage<MeshSource>, rs: Storage<MeshRenderer>, next: nat): (r: (Storage<MeshRenderer>, nat))
    ensures |r.0| == |rs|
  {
    BuildUpTo(meshes, rs, next, JoinLen(meshes, rs))
  }

  /** Each entity on its own: a pending entity below `k` got a buffer with the
      next free handle, every other entity is as it was. */
  lemma {:induction false} BuildUpToAt(meshes: Storage<MeshSource>, rs: Storage<MeshRenderer>, next: nat, k: nat, e: nat)
    requires k <= |rs| && e < |rs|
    ensures BuildUpTo(meshes, rs, next, k).1 == next + PendingBefore(meshes, rs, k)
    ensures BuildUpTo(meshes, rs, next, k).0[e] ==
      if e < k && Pending(meshes, rs, e)
      then Some(rs[e].value.(vertexBuffer := Some(VertexBufferFor(meshes[e].value, next + PendingBefore(meshes, rs, e)))))
      else rs[e]
  {
    if k > 0 {
      BuildUpToAt(meshes, rs, next, k - 1, e);
      BuildUpToAt(meshes, rs, next, k - 1, k - 1);
    }
  }

  /** After a run every joined entity has a vertex buffer. */
  lemma BuildFillsEveryJoined(meshes: Storage<MeshSource>, rs: Storage<MeshRenderer>, next: nat)
    ensures forall e :: Joined(meshes, rs, e) ==>
      Build(meshes, rs, next).0[e].Some? && Build(meshes, rs, next).0[e].value.vertexBuffer.Some?
  {
    forall e | Joined(meshes, rs, e)
      ensures Build(meshes, rs, next).0[e].Some? && Build(meshes, rs, next).0[e].value.vertexBuffer.Some?
    {
      BuildUpToAt(meshes, rs, next, JoinLen(meshes, rs), e);
    }
  }

  /** A buffer is created exactly for the joined entities that had none; it
      holds the mesh's vertices and a handle the device had not handed out
      before; nothing else in the storage changes. */
  lemma BuildChangesOnlyPending(meshes: Storage<MeshSource>, rs: Storage<MeshRenderer>, next: nat)
    ensures forall e :: 0 <= e < |rs| && !Pending(meshes, rs, e) ==> Build(meshes, rs, next).0[e] == rs[e]
    ensures forall e :: Pending(meshes, rs, e) ==>
      Build(meshes, rs, next).0[e].Some? &&
      var b := Build(meshes, rs, next).0[e].value.vertexBuffer;
      Build(meshes, rs, next).0[e] == Some(rs[e].value.(vertexBuffer := b)) &&
      b.Some? && b.value.data == Words(BufferWords(meshes[e].value.vertices)) &&
      next <= b.value.id < Build(meshes, rs, next).1
  {
    var k := JoinLen(meshes, rs);
    forall e | 0 <= e < |rs|
      ensures !Pending(meshes, rs, e) ==> Build(meshes, rs, next).0[e] == rs[e]
      ensures Pending(meshes, rs, e) ==>
        Build(meshes, rs, next).0[e].Some? &&
        var b := Build(meshes, rs, next).0[e].value.vertexBuffer;
        Build(meshes, rs, next).0[e] == Some(rs[e].value.(vertexBuffer := b)) &&
        b.Some? && b.value.data == Words(BufferWords(meshes[e].value.vertices)) &&
        next <= b.value.id < Build(meshes, rs, next).1
    {
      BuildUpToAt(meshes, rs, next, k, e);
      if Pending(meshes, rs, e) {
        CountBelowMonotone(PendingAt(meshes, rs), e, k);
      }
    }
  }

  /** Two entities never share a newly created buffer. */
  lemma BuildHandlesDistinct(meshes: Storage<MeshSource>, rs: Storage<MeshRenderer>, next: nat, e1: nat, e2: nat)
    requires Pending(meshes, rs, e1) && Pending(meshes, rs, e2) && e1 != e2
    ensures var r := Build(meshes, rs, next).0;
      r[e1].Some? && r[e1].value.vertexBuffer.Some? && r[e2].Some? && r[e2].value.vertexBuffer.Some? &&
      r[e1].value.vertexBuffer.value.id != r[e2].value.vertexBuffer.value.id
  {
    var k := JoinLen(meshes, rs);
    BuildUpToAt(meshes, rs, next, k, e1);
    BuildUpToAt(meshes, rs, next, k, e2);
    if e1 < e2 {
      CountBelowMonotone(PendingAt(meshes, rs), e1, e2);
    } else {
      CountBelowMonotone(PendingAt(meshes, rs), e2, e1);
    }
  }

  /** A second run changes nothing and creates no buffer. */
  lemma BuildIdempotent(meshes: Storage<MeshSource>, rs: Storage<MeshRenderer>, next: nat, next2: nat)
    ensures Build(meshes, Build(meshes, rs, next).0, next2) == (Build(meshes, rs, next).0, next2)
  {
    var once := Build(meshes, rs, next).0;
    var k := JoinLen(meshes, rs);
    assert JoinLen(meshes, once) == k;
    forall e | 0 <= e < |rs|
      ensures !Pending(meshes, once, e)
      ensures BuildUpTo(meshes, once, next2, k).0[e] == once[e]
    {
      BuildUpToAt(meshes, rs, next, k, e);
      BuildUpToAt(meshes, once, next2, k, e);
    }
    NothingCounted(PendingAt(meshes, once), k);
    if |rs| > 0 {
      BuildUpToAt(meshes, once, next2, k, 0);
    }
    assert BuildUpTo(meshes, once, next2, k).0 == once;
  }

  /** `MeshBuilderSystem::run`. */
  method Run(meshes: Storage<MeshSource>, renderers: array<Option<MeshRenderer>>, gpu: Gpu)
    modifies renderers, gpu`next
    ensures (renderers[..], gpu.next) == Build(meshes, old(renderers[..]), old(gpu.next))
  {
    ghost var rs := renderers[..];
    var n := JoinLen(meshes, renderers[..]);
    for e := 0 to n
      invariant (renderers[..], gpu.next) == BuildUpTo(meshes, rs, old(gpu.next), e)
    {
      if meshes[e].Some? && renderers[e].Some? {
        if renderers[e].value.vertexBuffer.None? {
          var id := gpu.NewHandle();
          renderers[e] := Some(renderers[e].value.(vertexBuffer := Some(VertexBufferFor(meshes[e].value, id))));
        }
      }
    }
  }
}
