/** The component data types of components/rendering.rs, their `Default`
    values, the vertex memory layout and `CameraUniform`. */
module Components {
  import opened Base
  import opened Backend

  datatype Vec2 = Vec2(x: F32, y: F32)
  datatype Vec3 = Vec3(x: F32, y: F32, z: F32)
  datatype Vec4 = Vec4(x: F32, y: F32, z: F32, w: F32)
  /** A 4x4 matrix by columns, as cgmath stores it. */
  datatype Mat4 = Mat4(c0: Vec4, c1: Vec4, c2: Vec4, c3: Vec4)
  /** A quaternion: scalar part and vector part. */
  datatype Quat = Quat(s: F32, v: Vec3)

  const ORIGIN: Vec3 := Vec3(F32_ZERO, F32_ZERO, F32_ZERO)

  datatype Model = Model(file: string)

  datatype Mesh = Mesh(
    name: string,
    vertexBuffer: Option<Buffer>,
    indexBuffer: Option<Buffer>,
    numElements: u32,
    material: nat)

  datatype Material = Material(name: string, diffuseBind: Option<BindGroup>)

  datatype Renderer = Renderer(meshes: seq<Mesh>, materials: seq<Material>)

  datatype Vertex = Vertex(position: Vec3, texCoords: Vec2, normal: Vec3)

  datatype CameraUniform = CameraUniform(viewProj: Mat4)

  /** A camera's aspect: the `f32` it was given, or `width / height` as the
      resize stage sets it. */
  datatype Aspect = Value(value: F32) | Ratio(width: u32, height: u32)

  datatype Camera = Camera(target: Vec3, up: Vec3, aspect: Aspect, fovy: F32, znear: F32, zfar: F32)

  datatype Transform = Transform(position: Vec3, rotation: Quat, scale: Vec3, bind: Option<BindGroup>)

  /* The systems were written against other versions of the component
     structs; each gets a record holding exactly the fields it touches. */

  /** The `Mesh` the mesh builder reads: its vertices. */
  datatype MeshSource = MeshSource(vertices: seq<Vertex>)

  /** The `MeshRenderer` the mesh builder fills. */
  datatype MeshRenderer = MeshRenderer(vertexBuffer: Option<Buffer>)

  /** The `Material` the material builder reads: a texture path. */
  datatype MaterialSource = MaterialSource(diffuseTexture: string)

  /** The `Renderer` the material builder fills and the render stage reads. */
  datatype DrawRenderer = DrawRenderer(
    diffuse: Option<BindGroup>,
    vertexBuffer: Option<Buffer>,
    indexBuffer: Option<Buffer>,
    indicesCount: u32)

  // ---------------------------------------------------------------- defaults

  function DefaultModel(): (m: Model)
    ensures m.file == ""
  {
    Model("")
  }

  function DefaultRenderer(): (r: Renderer)
    ensures r.meshes == [] && r.materials == []
  {
    Renderer([], [])
  }

  function DefaultMesh(): (m: Mesh)
    ensures m.name == "" && m.vertexBuffer.None? && m.indexBuffer.None?
    ensures m.numElements == 0 && m.material == 0
  {
    Mesh("", None, None, 0, 0)
  }

  function DefaultMaterial(): (m: Material)
    ensures m.name == "" && m.diffuseBind.None?
  {
    Material("", None)
  }

  /** `Quaternion::from_axis_angle(unit_z, Deg(0))` = (cos 0, unit_z * sin 0). */
  const IDENTITY_ROTATION: Quat := Quat(F32_ONE, ORIGIN)

  function DefaultTransform(): (t: Transform)
    ensures t.position == ORIGIN
    ensures t.rotation.s == F32_ONE && t.rotation.v == ORIGIN
    ensures t.scale == Vec3(F32_ONE, F32_ONE, F32_ONE)
    ensures t.bind.None?
  {
    Transform(ORIGIN, IDENTITY_ROTATION, Vec3(F32_ONE, F32_ONE, F32_ONE), None)
  }

  const F32_45: F32 := 0x4234_0000
  const F32_0_001: F32 := 0x3A83_126F
  const F32_1000: F32 := 0x447A_0000

  function DefaultCamera(): (c: Camera)
    ensures c.target == ORIGIN && c.up == Vec3(F32_ZERO, F32_ONE, F32_ZERO)
    ensures c.aspect == Value(F32_ONE)
    ensures c.fovy == F32_45 && c.znear == F32_0_001 && c.zfar == F32_1000
  {
    Camera(ORIGIN, Vec3(F32_ZERO, F32_ONE, F32_ZERO), Value(F32_ONE), F32_45, F32_0_001, F32_1000)
  }

  // ---------------------------------------------------------- camera uniform

  function Column(m: Mat4, c: nat): Vec4
    requires c < 4
  {
    if c == 0 then m.c0 else if c == 1 then m.c1 else if c == 2 then m.c2 else m.c3
  }

  /** Row `r` of column `c`. */
  function Entry(m: Mat4, c: nat, r: nat): F32
    requires c < 4 && r < 4
  {
    var col := Column(m, c);
    if r == 0 then col.x else if r == 1 then col.y else if r == 2 then col.z else col.w
  }

  ghost predicate IsIdentity(m: Mat4) {
    forall c: nat, r: nat :: c < 4 && r < 4 ==> Entry(m, c, r) == if c == r then F32_ONE else F32_ZERO
  }

  function NewCameraUniform(): (u: CameraUniform)
    ensures IsIdentity(u.viewProj)
  {
    CameraUniform(Mat4(
      Vec4(F32_ONE, F32_ZERO, F32_ZERO, F32_ZERO),
      Vec4(F32_ZERO, F32_ONE, F32_ZERO, F32_ZERO),
      Vec4(F32_ZERO, F32_ZERO, F32_ONE, F32_ZERO),
      Vec4(F32_ZERO, F32_ZERO, F32_ZERO, F32_ONE)))
  }

  /** `set_projection` overwrites the whole matrix: the result does not
      depend on what the uniform held before. */
  function SetProjection(u: CameraUniform, projection: Mat4): (r: CameraUniform)
    ensures forall c: nat, row: nat :: c < 4 && row < 4 ==> Entry(r.viewProj, c, row) == Entry(projection, c, row)
  {
    u.(viewProj := projection)
  }

  // ----------------------------------------------------------- vertex layout

  /** The `#[repr(C)]` memory of one vertex in 4-byte words. */
  function VertexWords(v: Vertex): (w: seq<F32>)
    ensures |w| == 8
  {
    [v.position.x, v.position.y, v.position.z,
     v.texCoords.x, v.texCoords.y,
     v.normal.x, v.normal.y, v.normal.z]
  }

  /** `bytemuck::cast_slice` of a vertex slice, in 4-byte words. */
  function BufferWords(vs: seq<Vertex>): seq<F32> {
    if vs == [] then [] else VertexWords(vs[0]) + BufferWords(vs[1..])
  }

  datatype VertexFormat = Float32x2 | Float32x3

  function FormatWords(f: VertexFormat): nat {
    match f
    case Float32x2 => 2
    case Float32x3 => 3
  }

  datatype VertexAttribute = VertexAttribute(format: VertexFormat, offset: nat, shaderLocation: nat)

  datatype StepMode = PerVertex | PerInstance

  datatype VertexBufferLayout = VertexBufferLayout(arrayStride: nat, stepMode: StepMode, attributes: seq<VertexAttribute>)

  /** `wgpu::vertex_attr_array!`: each attribute starts at the byte where the
      previous one ends. */
  function AttrArray(slots: seq<(nat, VertexFormat)>, offset: nat): (r: seq<VertexAttribute>)
    ensures |r| == |slots|
  {
    if slots == [] then []
    else [VertexAttribute(slots[0].1, offset, slots[0].0)] + AttrArray(slots[1..], offset + 4 * FormatWords(slots[0].1))
  }

  /** `mem::size_of::<Vertex>()`: eight `f32` with no padding. */
  const VERTEX_SIZE: nat := 32

  /** `Vertex::descriptor()`. */
  function Descriptor(): (d: VertexBufferLayout)
    ensures d.arrayStride == VERTEX_SIZE && d.stepMode == PerVertex && |d.attributes| == 3
    ensures d.attributes[0] == VertexAttribute(Float32x3, 0, 0)
    ensures d.attributes[1] == VertexAttribute(Float32x2, 12, 1)
    ensures d.attributes[2] == VertexAttribute(Float32x3, 20, 2)
  {
    VertexBufferLayout(VERTEX_SIZE, PerVertex, AttrArray([(0, Float32x3), (1, Float32x2), (2, Float32x3)], 0))
  }

  /** The field a shader reads at `location`. */
  function FieldAt(v: Vertex, location: nat): seq<F32> {
    if location == 0 then [v.position.x, v.position.y, v.position.z]
    else if location == 1 then [v.texCoords.x, v.texCoords.y]
    else if location == 2 then [v.normal.x, v.normal.y, v.normal.z]
    else []
  }

  /** What the vertex stage fetches for attribute `a` of vertex `i` from a
      buffer laid out by `layout`. */
  function Fetch(words: seq<F32>, layout: VertexBufferLayout, i: nat, a: VertexAttribute): seq<F32>
    requires (layout.arrayStride * i + a.offset) / 4 + FormatWords(a.format) <= |words|
  {
    var start := (layout.arrayStride * i + a.offset) / 4;
    words[start .. start + FormatWords(a.format)]
  }

  /** Vertex `i` of a buffer occupies words 8i .. 8i+8. */
  lemma {:induction false} BufferWordsAt(vs: seq<Vertex>, i: nat)
    requires i < |vs|
    ensures |BufferWords(vs)| == 8 * |vs|
    ensures BufferWords(vs)[8 * i .. 8 * i + 8] == VertexWords(vs[i])
  {
    if i == 0 {
      BufferWordsLength(vs[1..]);
    } else {
      BufferWordsAt(vs[1..], i - 1);
      var rest := BufferWords(vs[1..]);
      assert BufferWords(vs) == VertexWords(vs[0]) + rest;
      assert BufferWords(vs)[8 * i .. 8 * i + 8] == rest[8 * (i - 1) .. 8 * (i - 1) + 8];
    }
  }

  lemma {:induction false} BufferWordsLength(vs: seq<Vertex>)
    ensures |BufferWords(vs)| == 8 * |vs|
  {
    if vs != [] {
      BufferWordsLength(vs[1..]);
    }
  }

  /** Through `Vertex::descriptor()`, the shader sees at location 0, 1 and 2
      of vertex `i` exactly the position, texture coordinates and normal of
      the `i`-th vertex written to the buffer. */
  lemma VertexFetch(vs: seq<Vertex>, i: nat, location: nat)
    requires i < |vs| && location < 3
    ensures var a := Descriptor().attributes[location];
      a.shaderLocation == location &&
      (Descriptor().arrayStride * i + a.offset) / 4 + FormatWords(a.format) <= |BufferWords(vs)| &&
      Fetch(BufferWords(vs), Descriptor(), i, a) == FieldAt(vs[i], location)
  {
    BufferWordsAt(vs, i);
    FetchField(BufferWords(vs), i, vs[i], location);
  }

  /** The fetch of one attribute from a vertex's 8-word block. */
  lemma FetchField(w: seq<F32>, i: nat, v: Vertex, location: nat)
    requires 8 * i + 8 <= |w| && w[8 * i .. 8 * i + 8] == VertexWords(v) && location < 3
    ensures var a := Descriptor().attributes[location];
      (Descriptor().arrayStride * i + a.offset) / 4 + FormatWords(a.format) <= |w| &&
      Fetch(w, Descriptor(), i, a) == FieldAt(v, location)
  {
    var d := Descriptor();
    var a := d.attributes[location];
    var off := if location == 0 then 0 else if location == 1 then 3 else 5;
    FetchSlice(w, d, i, a, off);
  }

  /** Through a 32-byte stride, an attribute at word `off` of vertex `i`
      is read from inside that vertex's 8-word block. */
  lemma FetchSlice(w: seq<F32>, layout: VertexBufferLayout, i: nat, a: VertexAttribute, off: nat)
    requires layout.arrayStride == VERTEX_SIZE && a.offset == 4 * off
    requires 8 * i + 8 <= |w| && off + FormatWords(a.format) <= 8
    ensures (layout.arrayStride * i + a.offset) / 4 + FormatWords(a.format) <= |w|
    ensures Fetch(w, layout, i, a) == w[8 * i .. 8 * i + 8][off .. off + FormatWords(a.format)]
  {
    WordOffset(layout.arrayStride, i, a.offset);
    SliceOfBlock(w, 8 * i, off, FormatWords(a.format));
  }

  lemma WordOffset(stride: nat, i: nat, offset: nat)
    requires stride == VERTEX_SIZE && offset % 4 == 0
    ensures (stride * i + offset) / 4 == 8 * i + offset / 4
  {
    assert stride * i == 32 * i;
  }

  /** A slice taken inside an 8-word block is the same slice of the block. */
  lemma SliceOfBlock(w: seq<F32>, base: nat, off: nat, n: nat)
    requires base + 8 <= |w| && off + n <= 8
    ensures w[base + off .. base + off + n] == w[base .. base + 8][off .. off + n]
  {
    var block := w[base .. base + 8];
    var inner := w[base + off .. base + off + n];
    var outer := block[off .. off + n];
    forall j | 0 <= j < n
      ensures inner[j] == outer[j]
    {
      assert block[off + j] == w[base + off + j];
    }
  }
}
