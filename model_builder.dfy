/** systems/model_builder.rs: for every entity with a model and a renderer
    whose mesh list or material list is empty, import the model file and
    replace both lists. The OBJ/MTL parser and the file system are inputs:
    `Files` maps each readable path to what the importer makes of it. */
module ModelBuilder {
  import opened Base
  import opened Backend
  import opened Components
  import opened Materials
  import opened Ecs

  // ------------------------------------------------------------ the import

  /** One `tobj` model, loaded with `single_index`: flat attribute arrays. */
  datatype ImportedMesh = ImportedMesh(
    positions: seq<F32>,
    texcoords: seq<F32>,
    normals: seq<F32>,
    indices: seq<u32>,
    materialId: Option<nat>)

  datatype ImportedMaterial = ImportedMaterial(name: string, diffuseTexture: string)

  /** What `load_obj_buf` does with a file: the parser reaches a `mtllib`
      whose file cannot be read, so the loader closure's `unwrap` panics
      mid-parse; or it returns nothing usable; or it returns the meshes and
      the material library's outcome (`None` when parsing it failed). */
  datatype ObjFile =
    | LibraryUnreadable(library: string)
    | Unparsable
    | Parsed(meshes: seq<ImportedMesh>, materials: Option<seq<ImportedMaterial>>)

  /** The readable OBJ files and the decodable images, by path. */
  datatype Files = Files(objs: map<string, ObjFile>, images: map<string, Image>)

  // ------------------------------------------------------ vertex interleave

  /** `positions.len() / 3`. */
  function VertexCount(m: ImportedMesh): nat {
    |m.positions| / 3
  }

  /** Vertex `i` indexes past the end of the texture coordinates or of the
      normals. */
  predicate IndexFails(m: ImportedMesh, i: int) {
    2 * i + 1 >= |m.texcoords| || 3 * i + 2 >= |m.normals|
  }

  /** Every vertex's texture coordinates and normal are there. */
  predicate InBounds(m: ImportedMesh) {
    2 * VertexCount(m) <= |m.texcoords| && 3 * VertexCount(m) <= |m.normals|
  }

  function VertexAt(m: ImportedMesh, i: nat): Vertex
    requires i < VertexCount(m) && InBounds(m)
  {
    Vertex(
      Vec3(m.positions[3 * i], m.positions[3 * i + 1], m.positions[3 * i + 2]),
      Vec2(m.texcoords[2 * i], m.texcoords[2 * i + 1]),
      Vec3(m.normals[3 * i], m.normals[3 * i + 1], m.normals[3 * i + 2]))
  }

  function VerticesUpTo(m: ImportedMesh, k: nat): (vs: seq<Vertex>)
    requires k <= VertexCount(m) && InBounds(m)
    ensures |vs| == k
  {
    if k == 0 then [] else VerticesUpTo(m, k - 1) + [VertexAt(m, k - 1)]
  }

  /** The `(0..n).map(..).collect()` of lines 88-102; `None` where an index
      would panic. */
  function Interleave(m: ImportedMesh): (r: Option<seq<Vertex>>)
    ensures r.Some? ==> |r.value| == VertexCount(m)
  {
    if InBounds(m) then Some(VerticesUpTo(m, VertexCount(m))) else None
  }

  /** Interleaving fails exactly when some vertex would index past the end of
      the texture coordinates or the normals. */
  lemma InterleaveFailsIff(m: ImportedMesh)
    ensures Interleave(m).None? <==> exists i :: 0 <= i < VertexCount(m) && IndexFails(m, i)
  {
    if !InBounds(m) {
      assert IndexFails(m, VertexCount(m) - 1);
    }
  }

  // The inverse of interleaving: the attribute arrays of a vertex list.

  function Positions(vs: seq<Vertex>): seq<F32> {
    if |vs| == 0 then []
    else
      var p := vs[|vs| - 1].position;
      Positions(vs[..|vs| - 1]) + [p.x, p.y, p.z]
  }

  function TexCoords(vs: seq<Vertex>): seq<F32> {
    if |vs| == 0 then []
    else
      var t := vs[|vs| - 1].texCoords;
      TexCoords(vs[..|vs| - 1]) + [t.x, t.y]
  }

  function Normals(vs: seq<Vertex>): seq<F32> {
    if |vs| == 0 then []
    else
      var n := vs[|vs| - 1].normal;
      Normals(vs[..|vs| - 1]) + [n.x, n.y, n.z]
  }

  lemma VertexCountBound(m: ImportedMesh)
    ensures 3 * VertexCount(m) <= |m.positions| < 3 * VertexCount(m) + 3
  {
  }

  /** Flattening the positions of vertices laid out from `p` gives `p`'s
      first `3n` floats back. */
  lemma {:induction false} PositionsRoundTrip(vs: seq<Vertex>, p: seq<F32>)
    requires 3 * |vs| <= |p|
    requires forall i :: 0 <= i < |vs| ==> vs[i].position == Vec3(p[3 * i], p[3 * i + 1], p[3 * i + 2])
    ensures Positions(vs) == p[..3 * |vs|]
  {
    var n := |vs|;
    if n > 0 {
      var prev := vs[..n - 1];
      assert forall i :: 0 <= i < n - 1 ==> prev[i] == vs[i];
      PositionsRoundTrip(prev, p);
      var j := 3 * (n - 1);
      assert p[..j + 3] == p[..j] + [p[j], p[j + 1], p[j + 2]];
    }
  }

  lemma {:induction false} TexCoordsRoundTrip(vs: seq<Vertex>, t: seq<F32>)
    requires 2 * |vs| <= |t|
    requires forall i :: 0 <= i < |vs| ==> vs[i].texCoords == Vec2(t[2 * i], t[2 * i + 1])
    ensures TexCoords(vs) == t[..2 * |vs|]
  {
    var n := |vs|;
    if n > 0 {
      var prev := vs[..n - 1];
      assert forall i :: 0 <= i < n - 1 ==> prev[i] == vs[i];
      TexCoordsRoundTrip(prev, t);
      var j := 2 * (n - 1);
      assert t[..j + 2] == t[..j] + [t[j], t[j + 1]];
    }
  }

  lemma {:induction false} NormalsRoundTrip(vs: seq<Vertex>, q: seq<F32>)
    requires 3 * |vs| <= |q|
    requires forall i :: 0 <= i < |vs| ==> vs[i].normal == Vec3(q[3 * i], q[3 * i + 1], q[3 * i + 2])
    ensures Normals(vs) == q[..3 * |vs|]
  {
    var n := |vs|;
    if n > 0 {
      var prev := vs[..n - 1];
      assert forall i :: 0 <= i < n - 1 ==> prev[i] == vs[i];
      NormalsRoundTrip(prev, q);
      var j := 3 * (n - 1);
      assert q[..j + 3] == q[..j] + [q[j], q[j + 1], q[j + 2]];
    }
  }

  /** Vertex `i` of the interleaving is built from the `i`-th triple, pair
      and triple of the attribute arrays. */
  lemma {:induction false} VerticesUpToAt(m: ImportedMesh, k: nat, i: nat)
    requires k <= VertexCount(m) && InBounds(m) && i < k
    ensures VerticesUpTo(m, k)[i] == VertexAt(m, i)
  {
    if i < k - 1 {
      VerticesUpToAt(m, k - 1, i);
    }
  }

  /** Interleaving loses nothing: splitting the vertices back into attribute
      arrays gives the first `3n` positions, `2n` texture coordinates and `3n`
      normals of the import. */
  lemma InterleaveRoundTrip(m: ImportedMesh)
    requires Interleave(m).Some?
    ensures Positions(Interleave(m).value) == m.positions[..3 * VertexCount(m)]
    ensures TexCoords(Interleave(m).value) == m.texcoords[..2 * VertexCount(m)]
    ensures Normals(Interleave(m).value) == m.normals[..3 * VertexCount(m)]
    ensures forall i :: 0 <= i < VertexCount(m) ==> Interleave(m).value[i] == VertexAt(m, i)
  {
    var vs := Interleave(m).value;
    var n := VertexCount(m);
    VertexCountBound(m);
    forall i | 0 <= i < n
      ensures vs[i] == VertexAt(m, i)
    {
      VerticesUpToAt(m, n, i);
    }
    PositionsRoundTrip(vs, m.positions);
    TexCoordsRoundTrip(vs, m.texcoords);
    NormalsRoundTrip(vs, m.normals);
  }

  // ------------------------------------------------------------ mesh records

  /** `format!("{:?} ...", model.file)`: the file name in quotes. */
  function Quoted(file: string): string {
    "\"" + file + "\""
  }

  /** The mesh record of lines 104-125 for an interleaved mesh; its vertex
      buffer gets handle `next` and its index buffer `next + 1`. */
  function MeshFor(file: string, m: ImportedMesh, next: nat): Mesh
    requires InBounds(m)
  {
    var vs := Interleave(m).value;
    Mesh(
      file,
      Some(Buffer(next, Quoted(file) + " Vertex Buffer", Words(BufferWords(vs)), VertexUsage)),
      Some(Buffer(next + 1, Quoted(file) + " Index Buffer", Indices(m.indices), IndexUsage)),
      AsU32(|m.indices|),
      m.materialId.GetOr(0))
  }

  /** The meshes of the first `k` imports, two buffers each. */
  function MeshesUpTo(file: string, ms: seq<ImportedMesh>, next: nat, k: nat): (r: Result<seq<Mesh>>)
    requires k <= |ms|
    ensures r.Ok? ==> |r.value| == k
  {
    if k == 0 then Ok([])
    else match MeshesUpTo(file, ms, next, k - 1)
      case Err(panic) => Err(panic)
      case Ok(done) =>
        if InBounds(ms[k - 1]) then Ok(done + [MeshFor(file, ms[k - 1], next + 2 * (k - 1))])
        else Err(VertexIndexOutOfBounds(file))
  }

  /** What a built mesh holds for its import, whatever the handles. */
  predicate MeshRealizes(file: string, im: ImportedMesh, m: Mesh) {
    InBounds(im) &&
    m.name == file &&
    m.numElements == AsU32(|im.indices|) &&
    m.material == im.materialId.GetOr(0) &&
    m.vertexBuffer.Some? && m.vertexBuffer.value.usage == VertexUsage &&
    m.vertexBuffer.value.data == Words(BufferWords(VerticesUpTo(im, VertexCount(im)))) &&
    m.indexBuffer.Some? && m.indexBuffer.value.usage == IndexUsage &&
    m.indexBuffer.value.data == Indices(im.indices)
  }

  /** The mesh list is built exactly when every import interleaves; then it has
      one mesh per import, in import order, each holding its import's
      vertices and indices in fresh buffers `next + 2i` and `next + 2i + 1`. */
  lemma {:induction false} MeshesUpToSpec(file: string, ms: seq<ImportedMesh>, next: nat, k: nat)
    requires k <= |ms|
    ensures MeshesUpTo(file, ms, next, k).Ok? <==> forall i :: 0 <= i < k ==> InBounds(ms[i])
    ensures MeshesUpTo(file, ms, next, k).Err? ==> MeshesUpTo(file, ms, next, k).panic == VertexIndexOutOfBounds(file)
    ensures MeshesUpTo(file, ms, next, k).Ok? ==> forall i :: 0 <= i < k ==>
      var m := MeshesUpTo(file, ms, next, k).value[i];
      MeshRealizes(file, ms[i], m) &&
      m.vertexBuffer.value.id == next + 2 * i && m.indexBuffer.value.id == next + 2 * i + 1
  {
    MeshesUpToOk(file, ms, next, k);
    if MeshesUpTo(file, ms, next, k).Ok? {
      forall i | 0 <= i < k
        ensures var m := MeshesUpTo(file, ms, next, k).value[i];
          MeshRealizes(file, ms[i], m) &&
          m.vertexBuffer.value.id == next + 2 * i && m.indexBuffer.value.id == next + 2 * i + 1
      {
        MeshesUpToAt(file, ms, next, k, i);
      }
    }
  }

  lemma {:induction false} MeshesUpToOk(file: string, ms: seq<ImportedMesh>, next: nat, k: nat)
    requires k <= |ms|
    ensures MeshesUpTo(file, ms, next, k).Ok? <==> forall i :: 0 <= i < k ==> InBounds(ms[i])
    ensures MeshesUpTo(file, ms, next, k).Err? ==> MeshesUpTo(file, ms, next, k).panic == VertexIndexOutOfBounds(file)
  {
    if k > 0 {
      MeshesUpToOk(file, ms, next, k - 1);
    }
  }

  /** Mesh `i` is the record of import `i` with handles `next + 2i` and
      `next + 2i + 1`. */
  lemma {:induction false} MeshesUpToAt(file: string, ms: seq<ImportedMesh>, next: nat, k: nat, i: nat)
    requires i < k <= |ms| && MeshesUpTo(file, ms, next, k).Ok?
    ensures InBounds(ms[i])
    ensures MeshesUpTo(file, ms, next, k).value[i] == MeshFor(file, ms[i], next + 2 * i)
  {
    var prev := MeshesUpTo(file, ms, next, k - 1);
    assert prev.Ok?;
    if i < k - 1 {
      MeshesUpToAt(file, ms, next, k - 1, i);
      assert MeshesUpTo(file, ms, next, k).value[i] == prev.value[i];
    }
  }

  // -------------------------------------------------------- material list

  /** The material of lines 56-80 for an import whose texture got handles
      `next .. next + 2`; the bind group gets `next + 3`. */
  function MaterialFor(im: ImportedMaterial, layout: nat, next: nat): Material {
    Material(im.name, Some(BindGroup(next + 3, None, layout, TextureEntries(LoadedTexture(next)))))
  }

  /** The material list after `k` iterations of the loop of lines 55-83. */
  function MaterialsUpTo(ims: seq<ImportedMaterial>, images: map<string, Image>, layout: nat, next: nat, k: nat): (r: Result<seq<Material>>)
    requires k <= |ims|
    ensures r.Ok? ==> |r.value| == k
  {
    if k == 0 then Ok([])
    else match MaterialsUpTo(ims, images, layout, next, k - 1)
      case Err(panic) => Err(panic)
      case Ok(done) =>
        if ims[k - 1].diffuseTexture in images
        then Ok(done + [MaterialFor(ims[k - 1], layout, next + 4 * (k - 1))])
        else Err(TextureUnreadable(ims[k - 1].diffuseTexture))
  }

  /** What a built material holds for its import, whatever the handles. */
  predicate MaterialRealizes(im: ImportedMaterial, layout: nat, m: Material) {
    m.name == im.name &&
    m.diffuseBind.Some? && m.diffuseBind.value.layout == layout &&
    m.diffuseBind.value.debugLabel.None? &&
    |m.diffuseBind.value.entries| == 2 &&
    m.diffuseBind.value.entries[0].binding == 0 && m.diffuseBind.value.entries[0].resource.TextureView? &&
    m.diffuseBind.value.entries[1].binding == 1 && m.diffuseBind.value.entries[1].resource.Sampler?
  }

  /** The material list is built exactly when every texture opens; then it
      has one material per import, in import order, with the import's name
      and a bind group over the texture loaded for it. Otherwise the panic
      names the first texture that does not open. */
  lemma MaterialsUpToSpec(ims: seq<ImportedMaterial>, images: map<string, Image>, layout: nat, next: nat, k: nat)
    requires k <= |ims|
    ensures MaterialsUpTo(ims, images, layout, next, k).Ok? <==> forall i :: 0 <= i < k ==> ims[i].diffuseTexture in images
    ensures MaterialsUpTo(ims, images, layout, next, k).Ok? ==> forall i :: 0 <= i < k ==>
      var m := MaterialsUpTo(ims, images, layout, next, k).value[i];
      MaterialRealizes(ims[i], layout, m) &&
      m.diffuseBind.value.entries == TextureEntries(LoadedTexture(next + 4 * i)) &&
      m.diffuseBind.value.id == next + 4 * i + 3
    ensures MaterialsUpTo(ims, images, layout, next, k).Err? ==>
      exists f :: (0 <= f < k &&
        ims[f].diffuseTexture !in images &&
        (forall i :: 0 <= i < f ==> ims[i].diffuseTexture in images) &&
        MaterialsUpTo(ims, images, layout, next, k).panic == TextureUnreadable(ims[f].diffuseTexture))
  {
    MaterialsUpToOk(ims, images, layout, next, k);
    if MaterialsUpTo(ims, images, layout, next, k).Ok? {
      forall i | 0 <= i < k
        ensures var m := MaterialsUpTo(ims, images, layout, next, k).value[i];
          MaterialRealizes(ims[i], layout, m) &&
          m.diffuseBind.value.entries == TextureEntries(LoadedTexture(next + 4 * i)) &&
          m.diffuseBind.value.id == next + 4 * i + 3
      {
        MaterialsUpToAt(ims, images, layout, next, k, i);
      }
    }
  }

  lemma {:induction false} MaterialsUpToOk(ims: seq<ImportedMaterial>, images: map<string, Image>, layout: nat, next: nat, k: nat)
    requires k <= |ims|
    ensures MaterialsUpTo(ims, images, layout, next, k).Ok? <==> forall i :: 0 <= i < k ==> ims[i].diffuseTexture in images
    ensures MaterialsUpTo(ims, images, layout, next, k).Err? ==>
      exists f :: (0 <= f < k &&
        ims[f].diffuseTexture !in images &&
        (forall i :: 0 <= i < f ==> ims[i].diffuseTexture in images) &&
        MaterialsUpTo(ims, images, layout, next, k).panic == TextureUnreadable(ims[f].diffuseTexture))
  {
    if k > 0 {
      MaterialsUpToOk(ims, images, layout, next, k - 1);
      if MaterialsUpTo(ims, images, layout, next, k - 1).Ok? && ims[k - 1].diffuseTexture !in images {
        assert forall i :: 0 <= i < k - 1 ==> ims[i].diffuseTexture in images;
        assert MaterialsUpTo(ims, images, layout, next, k).panic == TextureUnreadable(ims[k - 1].diffuseTexture);
      }
    }
  }

  /** Material `i` is the record of import `i` over the texture at handles
      `next + 4i ..`. */
  lemma {:induction false} MaterialsUpToAt(ims: seq<ImportedMaterial>, images: map<string, Image>, layout: nat, next: nat, k: nat, i: nat)
    requires i < k <= |ims| && MaterialsUpTo(ims, images, layout, next, k).Ok?
    ensures MaterialsUpTo(ims, images, layout, next, k).value[i] == MaterialFor(ims[i], layout, next + 4 * i)
  {
    var prev := MaterialsUpTo(ims, images, layout, next, k - 1);
    assert prev.Ok?;
    if i < k - 1 {
      MaterialsUpToAt(ims, images, layout, next, k - 1, i);
      assert MaterialsUpTo(ims, images, layout, next, k).value[i] == prev.value[i];
    }
  }

  lemma {:induction false} MaterialsFailureSticks(ims: seq<ImportedMaterial>, images: map<string, Image>, layout: nat, next: nat, j: nat, k: nat)
    requires j <= k <= |ims|
    requires MaterialsUpTo(ims, images, layout, next, j).Err?
    ensures MaterialsUpTo(ims, images, layout, next, k) == MaterialsUpTo(ims, images, layout, next, j)
  {
    if k > j {
      MaterialsFailureSticks(ims, images, layout, next, j, k - 1);
    }
  }

  /** The loop of lines 53-83: load each texture, bind it, push the material. */
  method BuildMaterials(ims: seq<ImportedMaterial>, images: map<string, Image>, layout: nat, gpu: Gpu)
    returns (r: Result<seq<Material>>)
    modifies gpu`next
    ensures r == MaterialsUpTo(ims, images, layout, old(gpu.next), |ims|)
    ensures r.Ok? ==> gpu.next == old(gpu.next) + 4 * |ims|
  {
    var materials: seq<Material> := [];
    for i := 0 to |ims|
      invariant MaterialsUpTo(ims, images, layout, old(gpu.next), i) == Ok(materials)
      invariant gpu.next == old(gpu.next) + 4 * i
    {
      var diffuseTexture := AddTextureFromPath(ims[i].diffuseTexture, images, gpu);
      if diffuseTexture.Err? {
        MaterialsFailureSticks(ims, images, layout, old(gpu.next), i + 1, |ims|);
        return Err(diffuseTexture.panic);
      }
      var id := gpu.NewHandle();
      var bind := Some(BindGroup(id, None, layout, TextureEntries(diffuseTexture.value)));
      materials := materials + [Material(ims[i].name, bind)];
    }
    r := Ok(materials);
  }

  // ---------------------------------------------------------------- rebuild

  /** Importing `file` for one entity: the new renderer and the handle counter
      after it, or the panic, in the order the code meets them. */
  function Rebuild(file: string, files: Files, layout: nat, next: nat): (r: Result<(Renderer, nat)>)
  {
    if file !in files.objs then Err(ModelFileUnreadable(file))
    else match files.objs[file]
      case LibraryUnreadable(library) => Err(MaterialLibraryUnreadable(library))
      case Unparsable => Err(ModelMalformed(file))
      case Parsed(meshes, materials) =>
        if materials.None? then Err(MaterialLibraryFailed(file))
        else
          var ims := materials.value;
          match MaterialsUpTo(ims, files.images, layout, next, |ims|)
          case Err(panic) => Err(panic)
          case Ok(mats) =>
            var base := next + 4 * |ims|;
            match MeshesUpTo(file, meshes, base, |meshes|)
            case Err(panic) => Err(panic)
            case Ok(built) => Ok((Renderer(built, mats), base + 2 * |meshes|))
  }

  /** The file imports and every part of the import can be built. */
  predicate Buildable(file: string, files: Files) {
    file in files.objs && files.objs[file].Parsed? && files.objs[file].materials.Some? &&
    (forall i :: 0 <= i < |files.objs[file].materials.value| ==> files.objs[file].materials.value[i].diffuseTexture in files.images) &&
    (forall i :: 0 <= i < |files.objs[file].meshes| ==> InBounds(files.objs[file].meshes[i]))
  }

  /** A renderer holding exactly what the import of `file` describes. */
  predicate Realizes(file: string, files: Files, layout: nat, r: Renderer) {
    file in files.objs && files.objs[file].Parsed? && files.objs[file].materials.Some? &&
    var obj := files.objs[file];
    |r.materials| == |obj.materials.value| &&
    (forall i :: 0 <= i < |r.materials| ==> MaterialRealizes(obj.materials.value[i], layout, r.materials[i])) &&
    |r.meshes| == |obj.meshes| &&
    (forall i :: 0 <= i < |r.meshes| ==> MeshRealizes(file, obj.meshes[i], r.meshes[i]))
  }

  /** A rebuild succeeds exactly when the model is buildable, whatever the
      handle counter; it then yields one material per imported material and
      one mesh per imported mesh and uses four handles per material and two
      per mesh. */
  lemma RebuildSpec(file: string, files: Files, layout: nat, next: nat)
    ensures Rebuild(file, files, layout, next).Ok? <==> Buildable(file, files)
    ensures Rebuild(file, files, layout, next).Ok? ==>
      var (r, n) := Rebuild(file, files, layout, next).value;
      var obj := files.objs[file];
      Realizes(file, files, layout, r) &&
      n == next + 4 * |obj.materials.value| + 2 * |obj.meshes|
  {
    RebuildOk(file, files, layout, next);
    if Rebuild(file, files, layout, next).Ok? {
      RebuildRealizes(file, files, layout, next);
    }
  }

  lemma RebuildOk(file: string, files: Files, layout: nat, next: nat)
    ensures Rebuild(file, files, layout, next).Ok? <==> Buildable(file, files)
  {
    if file in files.objs && files.objs[file].Parsed? && files.objs[file].materials.Some? {
      var obj := files.objs[file];
      var ims := obj.materials.value;
      MaterialsUpToOk(ims, files.images, layout, next, |ims|);
      MeshesUpToOk(file, obj.meshes, next + 4 * |ims|, |obj.meshes|);
    }
  }

  lemma RebuildRealizes(file: string, files: Files, layout: nat, next: nat)
    requires Rebuild(file, files, layout, next).Ok?
    ensures var (r, n) := Rebuild(file, files, layout, next).value;
      var obj := files.objs[file];
      Realizes(file, files, layout, r) &&
      n == next + 4 * |obj.materials.value| + 2 * |obj.meshes|
  {
    var obj := files.objs[file];
    var ims := obj.materials.value;
    var base := next + 4 * |ims|;
    var mats := MaterialsUpTo(ims, files.images, layout, next, |ims|).value;
    var built := MeshesUpTo(file, obj.meshes, base, |obj.meshes|).value;
    assert Rebuild(file, files, layout, next) == Ok((Renderer(built, mats), base + 2 * |obj.meshes|));
    MaterialsUpToSpec(ims, files.images, layout, next, |ims|);
    MeshesUpToSpec(file, obj.meshes, base, |obj.meshes|);
  }

  /** The checks come in the order of the code: the file is read, then
      parsed, with the material library read and parsed on the way, before
      any texture or buffer is made. */
  lemma RebuildFailsEarly(file: string, files: Files, layout: nat, next: nat)
    ensures file !in files.objs ==> Rebuild(file, files, layout, next) == Err(ModelFileUnreadable(file))
    ensures file in files.objs && files.objs[file].LibraryUnreadable? ==>
      Rebuild(file, files, layout, next) == Err(MaterialLibraryUnreadable(files.objs[file].library))
    ensures file in files.objs && files.objs[file].Unparsable? ==> Rebuild(file, files, layout, next) == Err(ModelMalformed(file))
    ensures file in files.objs && files.objs[file].Parsed? && files.objs[file].materials.None? ==>
      Rebuild(file, files, layout, next) == Err(MaterialLibraryFailed(file))
  {
  }

  /** Lines 32-127 for one entity. */
  method RebuildEntity(file: string, files: Files, layout: nat, gpu: Gpu) returns (r: Result<Renderer>)
    modifies gpu`next
    ensures r.Ok? <==> Rebuild(file, files, layout, old(gpu.next)).Ok?
    ensures r.Ok? ==> (r.value, gpu.next) == Rebuild(file, files, layout, old(gpu.next)).value
    ensures r.Err? ==> r.panic == Rebuild(file, files, layout, old(gpu.next)).panic
  {
    if file !in files.objs {
      return Err(ModelFileUnreadable(file));
    }
    var obj := files.objs[file];
    if obj.LibraryUnreadable? {
      return Err(MaterialLibraryUnreadable(obj.library));
    }
    if obj.Unparsable? {
      return Err(ModelMalformed(file));
    }
    if obj.materials.None? {
      return Err(MaterialLibraryFailed(file));
    }
    var materials := BuildMaterials(obj.materials.value, files.images, layout, gpu);
    if materials.Err? {
      return Err(materials.panic);
    }
    var meshes := MeshesUpTo(file, obj.meshes, gpu.next, |obj.meshes|);
    if meshes.Err? {
      return Err(meshes.panic);
    }
    var _ := gpu.Reserve(2 * |obj.meshes|);
    r := Ok(Renderer(meshes.value, materials.value));
  }

  // ------------------------------------------------------------------ pass

  /** A joined entity whose renderer lacks meshes or materials. */
  predicate Stale(models: Storage<Model>, rs: Storage<Renderer>, e: int) {
    Joined(models, rs, e) && (rs[e].value.meshes == [] || rs[e].value.materials == [])
  }

  /** The import of `file` succeeded but has no meshes or no materials. */
  predicate EmptyImport(file: string, files: Files) {
    file in files.objs && files.objs[file].Parsed? && files.objs[file].materials.Some? &&
    (files.objs[file].meshes == [] || files.objs[file].materials.value == [])
  }

  /** A stale entity whose model cannot be built. */
  predicate Broken(models: Storage<Model>, rs: Storage<Renderer>, files: Files, e: int) {
    Stale(models, rs, e) && !Buildable(models[e].value.file, files)
  }

  datatype Pass = Pass(renderers: Storage<Renderer>, next: nat, failure: Option<Panic>)

  /** The pass once the loop has visited entities 0 .. k-1. */
  function PassUpTo(models: Storage<Model>, rs: Storage<Renderer>, files: Files, layout: nat, next: nat, k: nat): (p: Pass)
    requires k <= |rs|
    ensures |p.renderers| == |rs|
  {
    if k == 0 then Pass(rs, next, None)
    else
      var p := PassUpTo(models, rs, files, layout, next, k - 1);
      if p.failure.Some? || !Stale(models, p.renderers, k - 1) then p
      else match Rebuild(models[k - 1].value.file, files, layout, p.next)
        case Err(panic) => Pass(p.renderers, p.next, Some(panic))
        case Ok((r, n)) => Pass(p.renderers[k - 1 := Some(r)], n, None)
  }

  /** One run of the system. */
  function RunPass(models: Storage<Model>, rs: Storage<Renderer>, files: Files, layout: nat, next: nat): (p: Pass)
    ensures |p.renderers| == |rs|
  {
    PassUpTo(models, rs, files, layout, next, JoinLen(models, rs))
  }

  lemma {:induction false} FailureSticks(models: Storage<Model>, rs: Storage<Renderer>, files: Files, layout: nat, next: nat, j: nat, k: nat)
    requires j <= k <= |rs|
    requires PassUpTo(models, rs, files, layout, next, j).failure.Some?
    ensures PassUpTo(models, rs, files, layout, next, k) == PassUpTo(models, rs, files, layout, next, j)
  {
    if k > j {
      FailureSticks(models, rs, files, layout, next, j, k - 1);
    }
  }

  /** While nothing is broken, each entity on its own: a stale entity holds
      what its model describes and every other entity is as it was. */
  lemma {:induction false} PassUpToAt(models: Storage<Model>, rs: Storage<Renderer>, files: Files, layout: nat, next: nat, k: nat, e: nat)
    requires k <= |rs| && e < |rs|
    requires forall i :: 0 <= i < k ==> !Broken(models, rs, files, i)
    ensures PassUpTo(models, rs, files, layout, next, k).failure.None?
    ensures var r := PassUpTo(models, rs, files, layout, next, k).renderers[e];
      if e < k && Stale(models, rs, e)
      then r.Some? && Realizes(models[e].value.file, files, layout, r.value)
      else r == rs[e]
  {
    if k > 0 {
      PassUpToAt(models, rs, files, layout, next, k - 1, e);
      PassUpToAt(models, rs, files, layout, next, k - 1, k - 1);
      var p := PassUpTo(models, rs, files, layout, next, k - 1);
      if Stale(models, rs, k - 1) {
        assert !Broken(models, rs, files, k - 1);
        RebuildSpec(models[k - 1].value.file, files, layout, p.next);
      }
    }
  }

  /** The first broken entity stops the pass with the panic of its own
      rebuild; from there on nothing changes. */
  lemma {:induction false} PassUpToStops(models: Storage<Model>, rs: Storage<Renderer>, files: Files, layout: nat, next: nat, k: nat, f: nat)
    requires f < k <= |rs|
    requires Broken(models, rs, files, f) && forall i :: 0 <= i < f ==> !Broken(models, rs, files, i)
    ensures var q := PassUpTo(models, rs, files, layout, next, f);
      var rb := Rebuild(models[f].value.file, files, layout, q.next);
      rb.Err? && PassUpTo(models, rs, files, layout, next, k) == Pass(q.renderers, q.next, Some(rb.panic))
  {
    var q := PassUpTo(models, rs, files, layout, next, f);
    PassUpToAt(models, rs, files, layout, next, f, f);
    RebuildSpec(models[f].value.file, files, layout, q.next);
    assert Stale(models, q.renderers, f);
    if k > f + 1 {
      FailureSticks(models, rs, files, layout, next, f + 1, k);
    }
  }

  lemma {:induction false} BrokenFails(models: Storage<Model>, rs: Storage<Renderer>, files: Files, layout: nat, next: nat, k: nat, e: nat)
    requires e < k <= |rs| && Broken(models, rs, files, e)
    ensures PassUpTo(models, rs, files, layout, next, k).failure.Some?
    decreases e
  {
    if forall i :: 0 <= i < e ==> !Broken(models, rs, files, i) {
      PassUpToStops(models, rs, files, layout, next, k, e);
    } else {
      var i :| 0 <= i < e && Broken(models, rs, files, i);
      BrokenFails(models, rs, files, layout, next, k, i);
    }
  }

  /** The pass fails exactly when some stale entity's model cannot be built. */
  lemma PassFailsIff(models: Storage<Model>, rs: Storage<Renderer>, files: Files, layout: nat, next: nat)
    ensures RunPass(models, rs, files, layout, next).failure.Some? <==> exists e :: Broken(models, rs, files, e)
  {
    var k := JoinLen(models, rs);
    if e :| Broken(models, rs, files, e) {
      BrokenFails(models, rs, files, layout, next, k, e);
    } else if |rs| > 0 {
      PassUpToAt(models, rs, files, layout, next, k, 0);
    }
  }

  /** A successful pass rebuilds exactly the stale entities, each from its own
      model file, and leaves every other renderer as it was. */
  lemma PassSuccess(models: Storage<Model>, rs: Storage<Renderer>, files: Files, layout: nat, next: nat)
    requires RunPass(models, rs, files, layout, next).failure.None?
    ensures forall e :: 0 <= e < |rs| && !Stale(models, rs, e) ==> RunPass(models, rs, files, layout, next).renderers[e] == rs[e]
    ensures forall e :: Stale(models, rs, e) ==>
      RunPass(models, rs, files, layout, next).renderers[e].Some? &&
      Realizes(models[e].value.file, files, layout, RunPass(models, rs, files, layout, next).renderers[e].value)
  {
    var k := JoinLen(models, rs);
    PassFailsIff(models, rs, files, layout, next);
    forall e | 0 <= e < |rs|
      ensures !Stale(models, rs, e) ==> RunPass(models, rs, files, layout, next).renderers[e] == rs[e]
      ensures Stale(models, rs, e) ==>
        RunPass(models, rs, files, layout, next).renderers[e].Some? &&
        Realizes(models[e].value.file, files, layout, RunPass(models, rs, files, layout, next).renderers[e].value)
    {
      PassUpToAt(models, rs, files, layout, next, k, e);
    }
  }

  /** After a successful pass an entity is still stale exactly when it was
      rebuilt from an import with no meshes or no materials: such a model is
      imported again on every run. */
  lemma SecondRunStale(models: Storage<Model>, rs: Storage<Renderer>, files: Files, layout: nat, next: nat)
    requires RunPass(models, rs, files, layout, next).failure.None?
    ensures forall e :: Stale(models, RunPass(models, rs, files, layout, next).renderers, e) <==>
      Stale(models, rs, e) && EmptyImport(models[e].value.file, files)
  {
    PassSuccess(models, rs, files, layout, next);
  }

  /** ... and when no import is empty, a second pass changes nothing and
      creates nothing. */
  lemma SecondRunNoOp(models: Storage<Model>, rs: Storage<Renderer>, files: Files, layout: nat, next: nat, next2: nat)
    requires RunPass(models, rs, files, layout, next).failure.None?
    requires forall e :: Stale(models, rs, e) ==> !EmptyImport(models[e].value.file, files)
    ensures var once := RunPass(models, rs, files, layout, next).renderers;
      RunPass(models, once, files, layout, next2) == Pass(once, next2, None)
  {
    var once := RunPass(models, rs, files, layout, next).renderers;
    var k := JoinLen(models, rs);
    assert JoinLen(models, once) == k;
    SecondRunStale(models, rs, files, layout, next);
    forall e | 0 <= e < |rs|
      ensures PassUpTo(models, once, files, layout, next2, k).renderers[e] == once[e]
    {
      assert !Broken(models, once, files, e);
      PassUpToAt(models, once, files, layout, next2, k, e);
    }
    if |rs| > 0 {
      PassUpToAt(models, once, files, layout, next2, k, 0);
      NoStaleKeepsCounter(models, once, files, layout, next2, k);
    }
    assert PassUpTo(models, once, files, layout, next2, k).renderers == once;
  }

  lemma {:induction false} NoStaleKeepsCounter(models: Storage<Model>, rs: Storage<Renderer>, files: Files, layout: nat, next: nat, k: nat)
    requires k <= |rs|
    requires forall e :: 0 <= e < k ==> !Stale(models, rs, e)
    ensures PassUpTo(models, rs, files, layout, next, k) == Pass(rs, next, None)
  {
    if k > 0 {
      NoStaleKeepsCounter(models, rs, files, layout, next, k - 1);
    }
  }

  /** `ModelBuilderSystem::run`. Returns the panic that stopped it. */
  method Run(models: Storage<Model>, renderers: array<Option<Renderer>>, files: Files, mm: MaterialManager, gpu: Gpu)
    returns (failure: Option<Panic>)
    modifies renderers, gpu`next
    ensures failure == RunPass(models, old(renderers[..]), files, mm.textureLayout, old(gpu.next)).failure
    ensures renderers[..] == RunPass(models, old(renderers[..]), files, mm.textureLayout, old(gpu.next)).renderers
    ensures failure.None? ==> gpu.next == RunPass(models, old(renderers[..]), files, mm.textureLayout, old(gpu.next)).next
  {
    ghost var rs := renderers[..];
    var n := JoinLen(models, renderers[..]);
    for e := 0 to n
      invariant Pass(renderers[..], gpu.next, None) == PassUpTo(models, rs, files, mm.textureLayout, old(gpu.next), e)
    {
      ghost var before := renderers[..];
      if models[e].Some? && renderers[e].Some? {
        var needsUpdate := renderers[e].value.meshes == [] || renderers[e].value.materials == [];
        if !needsUpdate {
          assert !Stale(models, before, e);
          continue;
        }
        assert Stale(models, before, e);
        ghost var rebuild := Rebuild(models[e].value.file, files, mm.textureLayout, gpu.next);
        var rebuilt := RebuildEntity(models[e].value.file, files, mm.textureLayout, gpu);
        if rebuilt.Err? {
          failure := Some(rebuilt.panic);
          assert PassUpTo(models, rs, files, mm.textureLayout, old(gpu.next), e + 1).failure == Some(rebuild.panic);
          FailureSticks(models, rs, files, mm.textureLayout, old(gpu.next), e + 1, n);
          return;
        }
        assert rebuild == Ok((rebuilt.value, gpu.next));
        renderers[e] := Some(rebuilt.value);
        assert renderers[..] == before[e := Some(rebuilt.value)];
      } else {
        assert !Stale(models, before, e);
      }
    }
    failure := None;
  }
}
